/**
 * The retrieval-augmented answer of `SearchEngine.generate_answer_with_rag`:
 * the matched resumes are laid out as a context block, embedded in a fixed
 * prompt together with the query, and sent to the language model.
 *
 * The model is an oracle `llm` from prompt to the raw message content, `None`
 * when the call raises (no API key, a network or service error).
 */
module Answer {
  import opened Wrappers
  import opened Text
  import opened Ranking

  const NoMatches := "No matching resumes found."
  const AnswerFailed := "Error generating analysis. Please try again."

  /**
   * One candidate's block of the context: a line each for the name, the
   * skills, the experience and the education, then the summary.
   */
  function Entry(m: Match): (e: string)
    ensures StartsWith(e, "Name: " + m.name + "\n")
    ensures Contains(e, "Skills: " + Join(m.skills, ", ") + "\n")
    ensures Contains(e, "Experience: " + m.experience + "\n")
    ensures Contains(e, "Education: " + m.education + "\n")
    ensures EndsWith(e, "Summary: " + m.summary)
  {
    var name := "Name: " + m.name + "\n";
    var skills := "Skills: " + Join(m.skills, ", ") + "\n";
    var experience := "Experience: " + m.experience + "\n";
    var education := "Education: " + m.education + "\n";
    var summary := "Summary: " + m.summary;
    FiveLines(name, skills, experience, education, summary);
    name + skills + experience + education + summary
  }

  /** The first of five pieces opens their concatenation, the last closes it, and each piece occurs in it. */
  lemma FiveLines(a: string, b: string, c: string, d: string, e: string)
    ensures StartsWith(a + b + c + d + e, a)
    ensures Contains(a + b + c + d + e, b)
    ensures Contains(a + b + c + d + e, c)
    ensures Contains(a + b + c + d + e, d)
    ensures EndsWith(a + b + c + d + e, e)
  {
    var s := a + b + c + d + e;
    assert s == a + (b + c + d + e);
    assert s[..|a|] == a;
    assert s[|s| - |e|..] == e;
    ContainsPrefix(b, b);
    ContainsPrefix(c, c);
    ContainsPrefix(d, d);
    ContainsInfix(a, b, c + d + e, b);
    assert s == a + b + c + (d + e);
    ContainsInfix(a + b, c, d + e, c);
    ContainsInfix(a + b + c, d, e, d);
  }

  /** One block per match, in order, each laid out from that match's fields. */
  function Entries(matches: seq<Match>): (r: seq<string>)
    ensures |r| == |matches|
    ensures forall i :: 0 <= i < |matches| ==>
      && StartsWith(r[i], "Name: " + matches[i].name + "\n")
      && Contains(r[i], "Skills: " + Join(matches[i].skills, ", ") + "\n")
      && Contains(r[i], "Experience: " + matches[i].experience + "\n")
      && Contains(r[i], "Education: " + matches[i].education + "\n")
      && EndsWith(r[i], "Summary: " + matches[i].summary)
  {
    seq(|matches|, i requires 0 <= i < |matches| => Entry(matches[i]))
  }

  /** The candidates' blocks, separated by blank lines. */
  function Context(matches: seq<Match>): string {
    Join(Entries(matches), "\n\n")
  }

  /** The text before the quoted query, after it and after the context; the indentation is the f-string's own. */
  const Preamble := "You are a helpful assistant helping recruiters find "
      + "suitable candidates.\n        \n        "
  const Heading := "\n\n        Resume database (top matches):\n        "
  const Opening := Preamble + "User query: \""
  const Middle := "\"" + Heading
  const Closing := "\n\n        Based on the above, which resumes are "
      + "the best matches? Provide reasoning for each match.\n"
      + "        Format your response as:\n        1. Best "
      + "matches (with reasoning)\n        2. Why they match "
      + "the requirements\n        3. Any potential concerns "
      + "or missing qualifications\n        "

  function Prompt(query: string, matches: seq<Match>): string {
    Opening + query + Middle + Context(matches) + Closing
  }

  /**
   * `generate_answer_with_rag`: no model call for an empty list; otherwise
   * the model's reply with surrounding whitespace stripped (as `call_groq`
   * does), or a fixed apology when the call fails.
   */
  function GenerateAnswer(query: string, matches: seq<Match>, llm: string -> Option<string>): string {
    if matches == [] then NoMatches
    else
      match llm(Prompt(query, matches))
      case Some(reply) => Strip(reply)
      case None => AnswerFailed
  }

  // ---------------------------------------------------------------------------
  // Facts about the answer

  /** Every candidate handed in is named in the prompt. */
  lemma PromptNamesEveryCandidate(query: string, matches: seq<Match>, i: int)
    requires 0 <= i < |matches|
    ensures Contains(Prompt(query, matches), "Name: " + matches[i].name)
  {
    var needle := "Name: " + matches[i].name;
    EntryNamesCandidate(matches[i]);
    JoinContains(Entries(matches), "\n\n", i);
    ContainsTrans(Context(matches), Entry(matches[i]), needle);
    PromptHoldsContext(query, matches, needle);
  }

  /** A candidate's block opens with its name. */
  lemma EntryNamesCandidate(m: Match)
    ensures Contains(Entry(m), "Name: " + m.name)
  {
    var needle := "Name: " + m.name;
    var e := Entry(m);
    assert e[..|needle| + 1] == needle + "\n";
    assert e[..|needle|] == e[..|needle| + 1][..|needle|];
    ContainsPrefix(e, needle);
  }

  /** Whatever the context holds, the prompt holds. */
  lemma PromptHoldsContext(query: string, matches: seq<Match>, needle: string)
    requires Contains(Context(matches), needle)
    ensures Contains(Prompt(query, matches), needle)
  {
    ContainsInfix(Opening + query + Middle, Context(matches), Closing, needle);
  }

  /**
   * The prompt's pieces regrouped around the quoted query. Stated over
   * variables so that the solver does not unfold the long literals.
   */
  lemma Regroup(a: string, b: string, q: string, c: string, h: string, x: string, z: string)
    ensures (a + b) + q + (c + h) + x + z == a + (b + q + c) + (h + x + z)
  {
  }

  /** The prompt quotes the query verbatim. */
  lemma PromptQuotesQuery(query: string, matches: seq<Match>)
    ensures Contains(Prompt(query, matches), "User query: \"" + query + "\"")
  {
    var needle := "User query: \"" + query + "\"";
    var post := Heading + Context(matches) + Closing;
    Regroup(Preamble, "User query: \"", query, "\"", Heading, Context(matches), Closing);
    ContainsPrefix(needle, needle);
    ContainsInfix(Preamble, needle, post, needle);
  }

  /** Without candidates the model is not consulted: the answer is the same whatever it would say. */
  lemma NoMatchesNoCall(query: string, llm1: string -> Option<string>, llm2: string -> Option<string>)
    ensures GenerateAnswer(query, [], llm1) == GenerateAnswer(query, [], llm2) == NoMatches
  {
  }

  /**
   * With candidates, a failed model call gives the fixed apology, and a reply
   * gives that reply stripped of surrounding whitespace.
   */
  lemma AnswerFallback(query: string, matches: seq<Match>, llm: string -> Option<string>)
    requires matches != []
    ensures llm(Prompt(query, matches)).None? ==> GenerateAnswer(query, matches, llm) == AnswerFailed
    ensures llm(Prompt(query, matches)).Some? ==>
      GenerateAnswer(query, matches, llm) == Strip(llm(Prompt(query, matches)).value)
  {
  }

  /** Whatever the model replies, the answer starts and ends with a non-blank character. */
  lemma AnswerTrimmed(query: string, matches: seq<Match>, llm: string -> Option<string>)
    ensures var a := GenerateAnswer(query, matches, llm);
      a != [] ==> !IsSpace(a[0]) && !IsSpace(a[|a| - 1])
  {
    var a := GenerateAnswer(query, matches, llm);
    if matches != [] && llm(Prompt(query, matches)).Some? {
      var t := TrimLeft(llm(Prompt(query, matches)).value);
      var r := TrimRight(t);
      assert a == r;
      if r != [] {
        assert r[0] == t[0];
      }
    }
  }
}
