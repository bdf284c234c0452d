/**
 * `ScreeningGenerator.generate_questions`: interview questions for a skill
 * and a level, asked of the language model (an oracle from prompt to raw
 * reply, `None` when the call raises) and tidied into at most five lines,
 * with five fixed questions when the model fails.
 */
module Screening {
  import opened Wrappers
  import opened Text

  /** What `lstrip('0123456789.- ')` removes: list numbering and bullets. */
  const Numbering: set<char> := {'0', '1', '2', '3', '4', '5', '6', '7', '8', '9', '.', '-', ' '}

  const MaxQuestions := 5

  function Prompt(skill: string, level: string): string {
    "Generate 5 technical interview questions for a " + level + " " + skill + " developer.\n"
    + "The questions should be:\n1. Technical and specific to " + skill + "\n"
    + "2. Appropriate for " + level + " level\n"
    + "3. Include both theoretical and practical aspects\n"
    + "4. Focus on real-world scenarios\n"
    + "5. Include one system design question if applicable\n"
    + "\nFormat the response as a numbered list of questions."
  }

  /** A line of a numbered list: the number, a full stop, a space and the text. */
  function Numbered(n: char, text: string): string {
    [n, '.', ' '] + text
  }

  /** The questions returned when the model cannot be reached. */
  function FallbackQuestions(skill: string): seq<string> {
    [Numbered('1', "What is your experience with " + skill + "?"),
     Numbered('2', "How would you approach a complex " + skill + " problem?"),
     Numbered('3', "What are the best practices in " + skill + "?"),
     Numbered('4', "How do you handle debugging in " + skill + "?"),
     Numbered('5', "What's your favorite " + skill + " feature and why?")]
  }

  /** `[q.strip() for q in response.split('\n') if q.strip()]` */
  function Lines(response: string): seq<string> {
    NonEmpty(StripAll(Split(response, '\n')))
  }

  /**
   * Each line without its leading numbering: what is left is a suffix of the
   * line that does not start with a numbering character, and everything cut
   * off is numbering.
   */
  function Unnumbered(lines: seq<string>): (r: seq<string>)
    ensures |r| == |lines|
    ensures forall i :: 0 <= i < |lines| ==>
      && |r[i]| <= |lines[i]| && r[i] == lines[i][|lines[i]| - |r[i]|..]
      && (r[i] != [] ==> r[i][0] !in Numbering)
      && (forall j :: 0 <= j < |lines[i]| - |r[i]| ==> lines[i][j] in Numbering)
  {
    seq(|lines|, i requires 0 <= i < |lines| => TrimLeftChars(lines[i], Numbering))
  }

  /** The unnumbered lines that are left non-empty. */
  function Cleaned(response: string): seq<string> {
    NonEmpty(Unnumbered(Lines(response)))
  }

  /** The questions made of a reply (already stripped by the model call). */
  function Questions(reply: string): seq<string> {
    Head(Cleaned(Strip(reply)), MaxQuestions)
  }

  /** `generate_questions` */
  method GenerateQuestions(skill: string, level: string, llm: string -> Option<string>) returns (questions: seq<string>)
    ensures llm(Prompt(skill, level)).None? ==> questions == FallbackQuestions(skill)
    ensures llm(Prompt(skill, level)).Some? ==> questions == Questions(llm(Prompt(skill, level)).value)
  {
    var reply := llm(Prompt(skill, level));
    if reply.None? {
      return FallbackQuestions(skill);
    }
    var cleaned := CleanLines(Lines(Strip(reply.value)));
    return Head(cleaned, MaxQuestions);
  }

  /** The loop that strips the numbering off each line and keeps the non-empty results. */
  method CleanLines(lines: seq<string>) returns (cleaned: seq<string>)
    ensures cleaned == NonEmpty(Unnumbered(lines))
  {
    cleaned := [];
    var i := 0;
    while i < |lines|
      invariant 0 <= i <= |lines|
      invariant cleaned == NonEmpty(Unnumbered(lines[..i]))
    {
      var q := TrimLeftChars(lines[i], Numbering);
      UnnumberedSnoc(lines, i);
      FilterSnoc(Unnumbered(lines[..i]), q, Present);
      if q != "" {
        cleaned := cleaned + [q];
      }
      i := i + 1;
    }
    assert lines[..i] == lines;
  }

  /** One more line gives one more unnumbered line. */
  lemma UnnumberedSnoc(lines: seq<string>, i: nat)
    requires i < |lines|
    ensures Unnumbered(lines[..i + 1]) == Unnumbered(lines[..i]) + [TrimLeftChars(lines[i], Numbering)]
  {
    var u, v := Unnumbered(lines[..i + 1]), Unnumbered(lines[..i]) + [TrimLeftChars(lines[i], Numbering)];
    assert |u| == |v|;
    forall k | 0 <= k < |u| ensures u[k] == v[k] {
      if k < i {
        assert lines[..i + 1][k] == lines[..i][k];
      }
    }
  }

  // ---------------------------------------------------------------------------
  // Facts about the questions

  /** At most five questions come back. */
  lemma QuestionsBound(reply: string)
    ensures |Questions(reply)| <= MaxQuestions
  {
  }

  /** What survives the cleaning is non-empty and has lost its leading numbering. */
  lemma CleanedLinesClean(lines: seq<string>)
    ensures forall q :: q in NonEmpty(Unnumbered(lines)) ==> q != "" && q[0] !in Numbering
  {
    var u := Unnumbered(lines);
    FilterMembers(u, Present);
    forall q | q in NonEmpty(u) ensures q != "" && q[0] !in Numbering {
      var i :| 0 <= i < |u| && u[i] == q;
    }
  }

  /** Every question is non-empty and starts with something other than a digit, '.', '-' or a space. */
  lemma QuestionsClean(reply: string)
    ensures forall q :: q in Questions(reply) ==> q != "" && q[0] !in Numbering
  {
    CleanedLinesClean(Lines(Strip(reply)));
    HeadMembers(Cleaned(Strip(reply)), MaxQuestions);
  }

  /**
   * The questions keep the order of the reply's lines: they are the first of
   * the cleaned lines, which are some of the unnumbered lines in their order.
   */
  lemma QuestionsInOrder(reply: string)
    ensures var c := Cleaned(Strip(reply));
      Questions(reply) == c[..|Questions(reply)|] && Subseq(c, Unnumbered(Lines(Strip(reply))))
  {
    var u := Unnumbered(Lines(Strip(reply)));
    var all: string -> bool := q => true;
    FilterSubseq(u, Present, all);
    FilterAll(u, all);
  }

  /** The fallback is five numbered questions, each about the skill. */
  lemma FallbackAboutSkill(skill: string)
    ensures |FallbackQuestions(skill)| == 5
    ensures forall k :: 0 <= k < 5 ==>
      StartsWith(FallbackQuestions(skill)[k], ["12345"[k], '.', ' '])
      && Contains(FallbackQuestions(skill)[k], skill)
  {
    var f := FallbackQuestions(skill);
    forall k | 0 <= k < 5
      ensures StartsWith(f[k], ["12345"[k], '.', ' ']) && Contains(f[k], skill)
    {
      if k == 0 {
        NumberedMentions('1', "What is your experience with ", skill, "?");
      } else if k == 1 {
        NumberedMentions('2', "How would you approach a complex ", skill, " problem?");
      } else if k == 2 {
        NumberedMentions('3', "What are the best practices in ", skill, "?");
      } else if k == 3 {
        NumberedMentions('4', "How do you handle debugging in ", skill, "?");
      } else {
        NumberedMentions('5', "What's your favorite ", skill, " feature and why?");
      }
    }
  }

  lemma NumberedMentions(n: char, pre: string, skill: string, post: string)
    ensures StartsWith(Numbered(n, pre + skill + post), [n, '.', ' '])
    ensures Contains(Numbered(n, pre + skill + post), skill)
  {
    var head := [n, '.', ' '];
    assert Numbered(n, pre + skill + post) == (head + pre) + skill + post;
    ContainsPrefix(skill, skill);
    ContainsInfix(head + pre, skill, post, skill);
  }
}
