/**
 * `ResumeParser`: turning the text of a resume into its record.  The
 * language model is asked first; when its reply cannot be used, keyword and
 * pattern extractors fill the record instead.
 *
 * The language model is an oracle from prompt to raw reply (`None` when the
 * call raises), `json.loads` an oracle from text to the decoded object
 * (`None` when decoding fails or the value is not an object), and the regular
 * expressions are oracles `group1(pattern, text)` (the first capture group of
 * the first match) and `found(pattern, text)` (the whole first match).
 */
module ResumeParser {
  import opened Wrappers
  import opened Text
  import opened Records

  const TechKeywords: seq<string> := [
    "Python", "JavaScript", "React", "Node.js", "AWS", "Docker",
    "Kubernetes", "Machine Learning", "Data Science", "SQL",
    "MongoDB", "TypeScript", "Angular", "Vue.js", "Java", "C++",
    "Go", "Rust", "DevOps", "CI/CD"]

  const EducationKeywords: seq<string> := ["Bachelor", "Master", "PhD", "B.Tech", "M.Tech", "MBA"]

  const ExperiencePatterns: seq<string> := [
    @"(\d+)\+?\s*years?\s*of\s*experience",
    @"experience:\s*(\d+)\+?\s*years?",
    @"(\d+)\+?\s*years?\s*in\s*the\s*field"]

  const EmailPattern := @"[\w\.-]+@[\w\.-]+\.\w+"
  const PhonePattern := @"\+?\d{1,3}[-.\s]?\(?\d{3}\)?[-.\s]?\d{3}[-.\s]?\d{4}"

  const NoExperience := "Experience not specified"
  const NoSummary := "No summary available"

  /** A regular-expression search: pattern and text to the matched (or captured) text. */
  type Matcher = (string, string) -> Option<string>

  /** The object the model's reply decodes to; `None` marks a key that is absent. */
  datatype ParsedJson = ParsedJson(
    name: Option<string>,
    skills: Option<seq<string>>,
    experience: Option<string>,
    education: Option<string>,
    contact: Option<Contact>,
    summary: Option<string>)

  /** The six fields `parse_resume_text` returns. */
  datatype ParsedResume = ParsedResume(
    name: string,
    skills: seq<string>,
    experience: string,
    education: Option<string>,
    contact: Option<Contact>,
    summary: string)

  // ---------------------------------------------------------------------------
  // The model path

  /** The instructions sent before and after the resume text; the indentation is the f-string's own. */
  const PromptHead: string := "\n            You are a resume parser. Extract information "
      + "from the following resume text and return it in "
      + "a specific JSON format.\n            \n           "
      + " Rules:\n            1. Return ONLY the JSON object, "
      + "no other text\n            2. Do not include markdown "
      + "formatting\n            3. Ensure all fields are "
      + "present\n            4. Keep the exact field names "
      + "as shown\n            5. For the summary field, create "
      + "a concise 2-3 sentence summary highlighting:\n   "
      + "            - Key skills and expertise\n         "
      + "      - Years of experience\n               - Domain "
      + "expertise\n               - Notable achievements "
      + "or projects\n            \n            Required JSON "
      + "format:\n            {\n                \"name\": \"full "
      + "name\",\n                \"skills\": [\"skill1\", \"skill2\"],\n"
      + "                \"experience\": \"X years\",\n       "
      + "         \"education\": \"degree and university\",\n "
      + "               \"contact\": {\n                    "
      + "\"email\": \"email address\",\n                    \"phone\": "
      + "\"phone number\"\n                },\n              "
      + "  \"summary\": \"2-3 sentence professional summary "
      + "highlighting key skills, experience, and achievements\"\n"
      + "            }\n\n            Resume text:\n            "
  const PromptTail: string := "\n        "

  function Prompt(text: string): string {
    PromptHead + text + PromptTail
  }

  /** Everything after a leading "```json" and the whitespace that follows it. */
  function DropOpeningFence(s: string): string {
    if StartsWith(s, "```json") then TrimLeft(s[7..]) else s
  }

  /** Everything before a closing "```" and the whitespace that precedes it. */
  function DropClosingFence(s: string): string {
    if EndsWith(s, "```") then TrimRight(s[..|s| - 3]) else s
  }

  /**
   * The reply with surrounding whitespace removed and, only when it then
   * starts with "```", the Markdown fence around the JSON removed.
   */
  function CleanReply(reply: string): string {
    var c := Strip(reply);
    if StartsWith(c, "```") then DropClosingFence(DropOpeningFence(c)) else c
  }

  /** The `.get(key, default)` calls: every field present, absent ones defaulted. */
  function WithDefaults(p: ParsedJson): ParsedResume {
    ParsedResume(p.name.GetOr("Unknown"), p.skills.GetOr([]), p.experience.GetOr(NoExperience),
                 p.education, Some(p.contact.GetOr([])), p.summary.GetOr(NoSummary))
  }

  /** The model answered and its cleaned reply decoded to an object. */
  predicate Understood(text: string, llm: string -> Option<string>, decode: string -> Option<ParsedJson>) {
    llm(Prompt(text)).Some? && decode(CleanReply(llm(Prompt(text)).value)).Some?
  }

  // ---------------------------------------------------------------------------
  // The fallback extractors

  /** `_extract_name`: the first line, stripped. */
  function ExtractName(text: string): string {
    var lines := Split(text, '\n');
    if |lines| > 0 then Strip(lines[0]) else "Unknown"
  }

  /** Whether a keyword occurs in the text, ignoring case. */
  function Mentions(text: string): string -> bool {
    k => Contains(Lower(text), Lower(k))
  }

  /** The skills `_extract_skills` finds. */
  function Skills(text: string): seq<string> {
    Filter(TechKeywords, Mentions(text))
  }

  /** The first capture of the first pattern, in list order, that matches. */
  function FirstCapture(patterns: seq<string>, text: string, group1: Matcher): Option<string> {
    if patterns == [] then None
    else if group1(patterns[0], text).Some? then group1(patterns[0], text)
    else FirstCapture(patterns[1..], text, group1)
  }

  /** What `_extract_experience` returns. */
  function Experience(text: string, group1: Matcher): string {
    match FirstCapture(ExperiencePatterns, Lower(text), group1)
    case Some(years) => years + " years"
    case None => NoExperience
  }

  /** The first line holding one of the keywords, stripped. */
  function FirstLineWith(lines: seq<string>, keys: seq<string>): Option<string> {
    if lines == [] then None
    else if ContainsAny(lines[0], keys) then Some(Strip(lines[0]))
    else FirstLineWith(lines[1..], keys)
  }

  /** The line `_extract_education` picks: the first one naming a degree. */
  function EducationLine(lines: seq<string>): Option<string> {
    FirstLineWith(lines, EducationKeywords)
  }

  /** `_extract_contact`: the e-mail, then the phone number, found in the text; `None` rather than an empty mapping. */
  function ExtractContact(text: string, found: Matcher): (r: Option<Contact>)
    ensures r.None? <==> found(EmailPattern, text).None? && found(PhonePattern, text).None?
    ensures r.Some? ==> forall i :: 0 <= i < |r.value| ==> r.value[i].0 in {"email", "phone"}
    ensures r.Some? ==> (Get(r.value, "email") == found(EmailPattern, text)
                         && Get(r.value, "phone") == found(PhonePattern, text))
  {
    var email := found(EmailPattern, text);
    var phone := found(PhonePattern, text);
    var contact := (if email.Some? then [("email", email.value)] else [])
                   + (if phone.Some? then [("phone", phone.value)] else []);
    if contact == [] then None else Some(contact)
  }

  /** The record the fallback path builds. */
  function Fallback(text: string, group1: Matcher, found: Matcher): ParsedResume {
    ParsedResume(ExtractName(text), Skills(text), Experience(text, group1),
                 EducationLine(Split(text, '\n')), ExtractContact(text, found), NoSummary)
  }

  /** `_extract_skills` */
  method ExtractSkills(text: string) returns (found: seq<string>)
    ensures found == Skills(text)
  {
    found := KeepMentioned(TechKeywords, text);
  }

  /** The loop of `_extract_skills` over a keyword list. */
  method KeepMentioned(keys: seq<string>, text: string) returns (found: seq<string>)
    ensures found == Filter(keys, Mentions(text))
  {
    found := [];
    var i := 0;
    while i < |keys|
      invariant 0 <= i <= |keys|
      invariant found == Filter(keys[..i], Mentions(text))
    {
      assert keys[..i + 1][..i] == keys[..i];
      var skill := keys[i];
      if Contains(Lower(text), Lower(skill)) {
        found := found + [skill];
      }
      i := i + 1;
    }
    assert keys[..i] == keys;
  }

  /** `_extract_experience` */
  method ExtractExperience(text: string, group1: Matcher) returns (experience: string)
    ensures experience == Experience(text, group1)
  {
    var lowered := Lower(text);
    var i := 0;
    while i < |ExperiencePatterns|
      invariant 0 <= i <= |ExperiencePatterns|
      invariant FirstCapture(ExperiencePatterns, lowered, group1)
                == FirstCapture(ExperiencePatterns[i..], lowered, group1)
    {
      assert ExperiencePatterns[i..][1..] == ExperiencePatterns[i + 1..];
      var m := group1(ExperiencePatterns[i], lowered);
      if m.Some? {
        return m.value + " years";
      }
      i := i + 1;
    }
    return NoExperience;
  }

  /** `_extract_education` */
  method ExtractEducation(text: string) returns (education: Option<string>)
    ensures education == EducationLine(Split(text, '\n'))
  {
    education := FindFirstLine(Split(text, '\n'), EducationKeywords);
  }

  /** The nested loops of `_extract_education`: lines outside, keywords inside. */
  method FindFirstLine(lines: seq<string>, keys: seq<string>) returns (found: Option<string>)
    ensures found == FirstLineWith(lines, keys)
  {
    var i := 0;
    while i < |lines|
      invariant 0 <= i <= |lines|
      invariant FirstLineWith(lines, keys) == FirstLineWith(lines[i..], keys)
    {
      assert lines[i..][1..] == lines[i + 1..];
      var line := lines[i];
      var j := 0;
      while j < |keys|
        invariant 0 <= j <= |keys|
        invariant forall k :: 0 <= k < j ==> !Contains(line, keys[k])
      {
        if Contains(line, keys[j]) {
          assert keys[j] in keys;
          return Some(Strip(line));
        }
        j := j + 1;
      }
      NoKeywordContained(line, keys);
      i := i + 1;
    }
    return None;
  }

  /**
   * `parse_resume_text` on the text of the document: the model's record with
   * defaults filled in, or, when the model fails or its reply does not decode,
   * the extractors' record.
   */
  method ParseResumeText(text: string, llm: string -> Option<string>, decode: string -> Option<ParsedJson>,
                         group1: Matcher, found: Matcher) returns (r: ParsedResume)
    ensures Understood(text, llm, decode) ==>
              r == WithDefaults(decode(CleanReply(llm(Prompt(text)).value)).value)
    ensures !Understood(text, llm, decode) ==> r == Fallback(text, group1, found)
  {
    var reply := llm(Prompt(text));
    if reply.Some? {
      var parsed := decode(CleanReply(reply.value));
      if parsed.Some? {
        return WithDefaults(parsed.value);
      }
    }
    r := ParseWithRules(text, group1, found);
  }

  /** The `except` branch: every field by its own extractor, and the fixed summary. */
  method ParseWithRules(text: string, group1: Matcher, found: Matcher) returns (r: ParsedResume)
    ensures r == Fallback(text, group1, found)
  {
    var name := ExtractName(text);
    var skills := ExtractSkills(text);
    var experience := ExtractExperience(text, group1);
    var education := ExtractEducation(text);
    var contact := ExtractContact(text, found);
    return ParsedResume(name, skills, experience, education, contact, NoSummary);
  }

  // ---------------------------------------------------------------------------
  // Facts about the parser

  lemma NoKeywordContained(s: string, keys: seq<string>)
    requires forall k :: 0 <= k < |keys| ==> !Contains(s, keys[k])
    ensures !ContainsAny(s, keys)
  {
  }

  /** The name is the stripped text before the first line break. */
  lemma ExtractNameFirstLine(text: string)
    ensures exists h :: StartsWith(text, h) && '\n' !in h && (|h| < |text| ==> text[|h|] == '\n')
                        && ExtractName(text) == Strip(h)
  {
    SplitHead(text, '\n');
  }

  /** The skills are exactly the keywords the text mentions in any case. */
  lemma SkillsExact(text: string)
    ensures forall k :: k in Skills(text) <==> k in TechKeywords && Contains(Lower(text), Lower(k))
  {
    FilterMembers(TechKeywords, Mentions(text));
  }

  lemma TechKeywordsDistinct()
    ensures forall i, j :: 0 <= i < j < |TechKeywords| ==> TechKeywords[i] != TechKeywords[j]
  {
  }

  /** The skills come in keyword-list order, each at most once. */
  lemma SkillsOrdered(text: string)
    ensures Subseq(Skills(text), TechKeywords)
    ensures forall i, j :: 0 <= i < j < |Skills(text)| ==> Skills(text)[i] != Skills(text)[j]
  {
    TechKeywordsDistinct();
    MentionedOrdered(TechKeywords, text);
    assert Skills(text) == Filter(TechKeywords, Mentions(text));
  }

  /** Keeping the mentioned keys of a list without repeats keeps its order and has no repeats. */
  lemma MentionedOrdered(keys: seq<string>, text: string)
    requires forall i, j :: 0 <= i < j < |keys| ==> keys[i] != keys[j]
    ensures Subseq(Filter(keys, Mentions(text)), keys)
    ensures forall i, j :: 0 <= i < j < |Filter(keys, Mentions(text))| ==>
      Filter(keys, Mentions(text))[i] != Filter(keys, Mentions(text))[j]
  {
    var all: string -> bool := k => true;
    FilterSubseq(keys, Mentions(text), all);
    FilterAll(keys, all);
    FilterDistinct(keys, Mentions(text));
  }

  /** The experience is the capture of the first matching pattern, or the fixed text when none matches. */
  lemma {:induction false} ExperienceCases(text: string, group1: Matcher)
    ensures var e := Experience(text, group1);
      (e == NoExperience && forall k :: 0 <= k < |ExperiencePatterns| ==> group1(ExperiencePatterns[k], Lower(text)).None?)
      || (exists k :: 0 <= k < |ExperiencePatterns| && group1(ExperiencePatterns[k], Lower(text)).Some?
                      && e == group1(ExperiencePatterns[k], Lower(text)).value + " years"
                      && forall k' :: 0 <= k' < k ==> group1(ExperiencePatterns[k'], Lower(text)).None?)
  {
    FirstCaptureCases(ExperiencePatterns, Lower(text), group1);
  }

  lemma {:induction false} FirstCaptureCases(patterns: seq<string>, text: string, group1: Matcher)
    ensures var c := FirstCapture(patterns, text, group1);
      (c.None? && forall k :: 0 <= k < |patterns| ==> group1(patterns[k], text).None?)
      || (exists k :: 0 <= k < |patterns| && c == group1(patterns[k], text) && c.Some?
                      && forall k' :: 0 <= k' < k ==> group1(patterns[k'], text).None?)
  {
    if patterns != [] && group1(patterns[0], text).None? {
      FirstCaptureCases(patterns[1..], text, group1);
      var c := FirstCapture(patterns, text, group1);
      if c.Some? {
        var k :| 0 <= k < |patterns[1..]| && c == group1(patterns[1..][k], text) && c.Some?
                 && forall k' :: 0 <= k' < k ==> group1(patterns[1..][k'], text).None?;
        assert patterns[k + 1] == patterns[1..][k];
        assert forall k' :: 0 < k' < k + 1 ==> patterns[k'] == patterns[1..][k' - 1];
      } else {
        assert forall k :: 0 < k < |patterns| ==> patterns[k] == patterns[1..][k - 1];
      }
    }
  }

  /** No line is found exactly when no line has a keyword. */
  lemma {:induction false} FirstLineWithNone(lines: seq<string>, keys: seq<string>)
    ensures FirstLineWith(lines, keys).None? <==> forall i :: 0 <= i < |lines| ==> !ContainsAny(lines[i], keys)
  {
    if lines != [] && !ContainsAny(lines[0], keys) {
      var rest := lines[1..];
      FirstLineWithNone(rest, keys);
      assert FirstLineWith(lines, keys) == FirstLineWith(rest, keys);
      if FirstLineWith(rest, keys).None? {
        forall i | 0 <= i < |lines| ensures !ContainsAny(lines[i], keys) {
          if i > 0 {
            assert lines[i] == rest[i - 1];
          }
        }
      } else {
        var i :| 0 <= i < |rest| && ContainsAny(rest[i], keys);
        assert lines[i + 1] == rest[i];
      }
    }
  }

  /**
   * A line found is the first with a keyword, stripped; the education line
   * is this with the degree keywords.
   */
  lemma {:induction false} FirstLineWithFirst(lines: seq<string>, keys: seq<string>)
    requires FirstLineWith(lines, keys).Some?
    ensures exists i :: 0 <= i < |lines| && ContainsAny(lines[i], keys)
                        && FirstLineWith(lines, keys) == Some(Strip(lines[i]))
                        && forall j :: 0 <= j < i ==> !ContainsAny(lines[j], keys)
  {
    if ContainsAny(lines[0], keys) {
      assert FirstLineWith(lines, keys) == Some(Strip(lines[0]));
    } else {
      var rest := lines[1..];
      assert FirstLineWith(lines, keys) == FirstLineWith(rest, keys);
      FirstLineWithFirst(rest, keys);
      var i :| 0 <= i < |rest| && ContainsAny(rest[i], keys)
               && FirstLineWith(rest, keys) == Some(Strip(rest[i]))
               && forall j :: 0 <= j < i ==> !ContainsAny(rest[j], keys);
      assert lines[i + 1] == rest[i];
      forall j | 0 <= j < i + 1 ensures !ContainsAny(lines[j], keys) {
        if j == 0 {
          assert !ContainsAny(lines[0], keys);
        } else {
          assert lines[j] == rest[j - 1];
          assert !ContainsAny(rest[j - 1], keys);
        }
      }
    }
  }

  lemma TrimLeftKeeps(s: string)
    requires s != [] && !IsSpace(s[0])
    ensures TrimLeft(s) == s
  {
  }

  lemma TrimRightKeeps(s: string)
    requires s != [] && !IsSpace(s[|s| - 1])
    ensures TrimRight(s) == s
  {
  }

  /** After the opening fence and its line break, the JSON and the closing fence remain. */
  lemma OpeningFenceRemoved(rest: string)
    requires rest != [] && !IsSpace(rest[0])
    ensures DropOpeningFence("```json\n" + rest) == rest
  {
    var open := "```json\n";
    var s := open + rest;
    assert s[..7] == open[..7] == "```json";
    assert s[7..] == [open[7]] + rest;
    assert TrimLeft(s[7..]) == TrimLeft(rest);
    TrimLeftKeeps(rest);
  }

  /** Before the line break and closing fence, the JSON remains. */
  lemma ClosingFenceRemoved(body: string)
    requires body != [] && !IsSpace(body[|body| - 1])
    ensures DropClosingFence(body + "\n```") == body
  {
    var close := "\n```";
    var t := body + close;
    assert t[|t| - 3..] == close[1..] == "```";
    assert t[..|t| - 3] == body + [close[0]];
    assert TrimRight(body + [close[0]]) == TrimRight(body);
    TrimRightKeeps(body);
  }

  /** A fenced JSON reply loses exactly its fence. */
  lemma FenceRemoved(body: string)
    requires body != [] && !IsSpace(body[0]) && !IsSpace(body[|body| - 1])
    ensures CleanReply("```json\n" + body + "\n```") == body
  {
    var open, close := "```json\n", "\n```";
    var s := open + body + close;
    TrimLeftKeeps(s);
    TrimRightKeeps(s);
    assert s[..3] == open[..3] == "```";
    assert s == open + (body + close);
    OpeningFenceRemoved(body + close);
    ClosingFenceRemoved(body);
  }

  /** A reply that does not start with a fence is only stripped. */
  lemma UnfencedReplyStripped(reply: string)
    requires !StartsWith(Strip(reply), "```")
    ensures CleanReply(reply) == Strip(reply)
  {
  }

  /** With every key absent the record is all defaults. */
  lemma DefaultsWhenAbsent()
    ensures WithDefaults(ParsedJson(None, None, None, None, None, None))
         == ParsedResume("Unknown", [], NoExperience, None, Some([]), NoSummary)
  {
  }

  /** The fallback never has a summary of its own. */
  lemma FallbackSummary(text: string, group1: Matcher, found: Matcher)
    ensures Fallback(text, group1, found).summary == NoSummary
  {
  }
}
