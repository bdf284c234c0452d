/**
 * The values the resume routes derive from a stored row: the first name,
 * the degree entries and certifications read off the `education` column,
 * the screening level and the skill an e-mail or a question set is about.
 */
module ResumeDetail {
  import opened Wrappers
  import opened Text

  /** What `str(e)` gives for the `IndexError` of `[][0]`. */
  const IndexErrorMessage := "list index out of range"

  /** A part of the education field naming one of these is a certification (case matters). */
  const CertKeywords := ["CPA", "CA", "CMA", "Certified", "Professional", "Associate"]

  /** The skill used when a resume lists none. */
  const DefaultSkill := "developer"

  datatype Degree = Degree(degree: string, year: Option<string>, institution: Option<string>)

  datatype Certification = Certification(name: string, issuingOrganization: Option<string>, year: Option<string>)

  // ---------------------------------------------------------------------------
  // First name

  /**
   * `name.split()[0] if name else ""`: the first word of the name; a name
   * made only of whitespace has no first word and the index raises.
   */
  function FirstName(name: string): Result<string, string> {
    if name == "" then Ok("")
    else
      var words := SplitWs(name);
      if words == [] then Err(IndexErrorMessage) else Ok(words[0])
  }

  /** The lookup fails exactly on a non-empty name that is all whitespace. */
  lemma FirstNameFails(name: string)
    ensures FirstName(name).Err? <==> name != "" && forall i :: 0 <= i < |name| ==> IsSpace(name[i])
  {
    if name != "" && forall i :: 0 <= i < |name| ==> IsSpace(name[i]) {
      SplitWsBlank(name);
    }
  }

  /** Otherwise the first name of a non-empty name is a whole word of it, without whitespace. */
  lemma FirstNameIsWord(name: string)
    requires name != "" && FirstName(name).Ok?
    ensures FirstName(name).value != ""
    ensures forall c :: c in FirstName(name).value ==> !IsSpace(c)
    ensures Contains(name, FirstName(name).value)
  {
    var t := TrimLeft(name);
    var w := FirstName(name).value;
    SplitWsWords(name);
    assert w in SplitWs(name);
    assert t != [] && w == Word(t);
    var i := |name| - |t|;
    assert name[i..] == t;
    assert StartsWith(name[i..], w);
  }

  // ---------------------------------------------------------------------------
  // Education

  /** `[part.strip() for part in education.split(",")]` */
  function EducationParts(education: string): seq<string> {
    StripAll(Split(education, ','))
  }

  /** The degree names: the non-empty parts, when the column holds a non-empty string. */
  function DegreeNames(education: Option<string>): seq<string> {
    if education.None? || education.value == "" then []
    else NonEmpty(EducationParts(education.value))
  }

  predicate IsCertification(part: string) {
    ContainsAny(part, CertKeywords)
  }

  /** The certification names: the parts that mention a keyword, in order. */
  function CertificationNames(education: Option<string>): seq<string> {
    if education.None? || education.value == "" then []
    else Filter(EducationParts(education.value), IsCertification)
  }

  /** `details` holds one entry per degree name, in order, with no year or institution. */
  predicate ListsDegrees(details: seq<Degree>, education: Option<string>) {
    && |details| == |DegreeNames(education)|
    && forall i :: 0 <= i < |details| ==> details[i] == Degree(DegreeNames(education)[i], None, None)
  }

  /** `certs` holds one entry per certification name, in order, with no issuer or year. */
  predicate ListsCertifications(certs: seq<Certification>, education: Option<string>) {
    && |certs| == |CertificationNames(education)|
    && forall i :: 0 <= i < |certs| ==> certs[i] == Certification(CertificationNames(education)[i], None, None)
  }

  /** `education_details` */
  method EducationDetails(education: Option<string>) returns (details: seq<Degree>)
    ensures ListsDegrees(details, education)
  {
    details := [];
    if education.Some? && education.value != "" {
      details := CollectDegrees(EducationParts(education.value));
    }
  }

  /** The loop over the parts that appends a degree for each non-empty one. */
  method CollectDegrees(parts: seq<string>) returns (details: seq<Degree>)
    ensures |details| == |NonEmpty(parts)|
    ensures forall i :: 0 <= i < |details| ==> details[i] == Degree(NonEmpty(parts)[i], None, None)
  {
    details := [];
    var i := 0;
    while i < |parts|
      invariant 0 <= i <= |parts|
      invariant |details| == |NonEmpty(parts[..i])|
      invariant forall k :: 0 <= k < |details| ==> details[k] == Degree(NonEmpty(parts[..i])[k], None, None)
    {
      assert parts[..i + 1] == parts[..i] + [parts[i]];
      FilterSnoc(parts[..i], parts[i], Present);
      if parts[i] != "" {
        details := details + [Degree(parts[i], None, None)];
      }
      i := i + 1;
    }
    assert parts[..i] == parts;
  }

  /** `certifications` */
  method Certifications(education: Option<string>) returns (certs: seq<Certification>)
    ensures ListsCertifications(certs, education)
  {
    certs := [];
    if education.Some? && education.value != "" {
      certs := CollectCertifications(EducationParts(education.value));
    }
  }

  /** The loop over the same stripped parts that keeps those naming a keyword. */
  method CollectCertifications(parts: seq<string>) returns (certs: seq<Certification>)
    ensures |certs| == |Filter(parts, IsCertification)|
    ensures forall i :: 0 <= i < |certs| ==> certs[i] == Certification(Filter(parts, IsCertification)[i], None, None)
  {
    certs := [];
    var i := 0;
    while i < |parts|
      invariant 0 <= i <= |parts|
      invariant |certs| == |Filter(parts[..i], IsCertification)|
      invariant forall k :: 0 <= k < |certs| ==>
        certs[k] == Certification(Filter(parts[..i], IsCertification)[k], None, None)
    {
      assert parts[..i + 1] == parts[..i] + [parts[i]];
      FilterSnoc(parts[..i], parts[i], IsCertification);
      if ContainsAny(parts[i], CertKeywords) {
        certs := certs + [Certification(parts[i], None, None)];
      }
      i := i + 1;
    }
    assert parts[..i] == parts;
  }

  /** Only a non-empty part can mention a keyword. */
  lemma CertificationPresent(part: string)
    requires IsCertification(part)
    ensures Present(part)
  {
    var k :| k in CertKeywords && Contains(part, k);
    var i :| 0 <= i <= |part| && StartsWith(part[i..], k);
  }

  /** Every certification is also a degree entry, and they keep the same order. */
  lemma CertificationsAreDegrees(education: Option<string>)
    ensures Subseq(CertificationNames(education), DegreeNames(education))
  {
    if education.Some? && education.value != "" {
      forall part | IsCertification(part) ensures Present(part) {
        CertificationPresent(part);
      }
      FilterSubseq(EducationParts(education.value), IsCertification, Present);
    }
  }

  /** A stripped part: it neither starts nor ends with whitespace. */
  lemma StripTrims(s: string)
    ensures Strip(s) != [] ==> !IsSpace(Strip(s)[0]) && !IsSpace(Strip(s)[|Strip(s)| - 1])
  {
  }

  /** Stripping only drops characters: whatever is in `Strip(s)` was in `s`. */
  lemma StripInside(s: string, c: char)
    requires c in Strip(s)
    ensures c in s
  {
    var t := TrimLeft(s);
    var k :| 0 <= k < |Strip(s)| && Strip(s)[k] == c;
    assert Strip(s) == t[..|Strip(s)|];
    assert t[k] == c;
    assert t == s[|s| - |t|..];
    assert s[|s| - |t| + k] == c;
  }

  /** A stripped part of the column is clean once it is non-empty. */
  lemma PartClean(raw: string)
    requires ',' !in raw && Strip(raw) != ""
    ensures ',' !in Strip(raw) && !IsSpace(Strip(raw)[0]) && !IsSpace(Strip(raw)[|Strip(raw)| - 1])
  {
    StripTrims(raw);
    if ',' in Strip(raw) {
      StripInside(raw, ',');
    }
  }

  /** A degree entry is non-empty, has no comma in it and no whitespace at either end. */
  lemma DegreeNamesClean(education: Option<string>)
    ensures forall d :: d in DegreeNames(education) ==>
      d != "" && ',' !in d && !IsSpace(d[0]) && !IsSpace(d[|d| - 1])
  {
    forall d | d in DegreeNames(education)
      ensures d != "" && ',' !in d && !IsSpace(d[0]) && !IsSpace(d[|d| - 1])
    {
      DegreeNameClean(education.value, d);
    }
  }

  lemma DegreeNameClean(education: string, d: string)
    requires d in NonEmpty(EducationParts(education))
    ensures d != "" && ',' !in d && !IsSpace(d[0]) && !IsSpace(d[|d| - 1])
  {
    var raw := Split(education, ',');
    SplitPartsFree(education, ',');
    forall k | 0 <= k < |raw| ensures ',' !in raw[k] {
      assert raw[k] in raw;
    }
    PartsClean(raw, d);
  }

  lemma PartsClean(raw: seq<string>, d: string)
    requires forall k :: 0 <= k < |raw| ==> ',' !in raw[k]
    requires d in NonEmpty(StripAll(raw))
    ensures d != "" && ',' !in d && !IsSpace(d[0]) && !IsSpace(d[|d| - 1])
  {
    var parts := StripAll(raw);
    FilterMembers(parts, Present);
    var i :| 0 <= i < |parts| && parts[i] == d;
    PartClean(raw[i]);
  }

  // ---------------------------------------------------------------------------
  // Level and skills

  /**
   * The level of the screening questions: "senior" when the experience text
   * mentions a "5" anywhere or the word "senior" in any case.
   */
  function ScreeningLevel(experience: string): (level: string)
    ensures level == "senior" || level == "mid"
  {
    if experience != "" && (Contains(experience, "5") || Contains(Lower(experience), "senior"))
    then "senior" else "mid"
  }

  /** `skills[0] if skills else "developer"` */
  function PrimarySkill(skills: seq<string>): string {
    if skills == [] then DefaultSkill else skills[0]
  }

  /** `", ".join(skills) if skills else skill` */
  function KeySkills(skills: seq<string>): string {
    if skills == [] then PrimarySkill(skills) else Join(skills, ", ")
  }

  /** A one-character needle occurs exactly when the character does. */
  lemma ContainsChar(s: string, c: char)
    ensures Contains(s, [c]) <==> c in s
  {
    if c in s {
      var i :| 0 <= i < |s| && s[i] == c;
      assert StartsWith(s[i..], [c]);
    }
    if Contains(s, [c]) {
      var i :| 0 <= i <= |s| && StartsWith(s[i..], [c]);
      assert s[i] == c;
    }
  }

  /** The level does not depend on the case of the experience text. */
  lemma ScreeningLevelIgnoresCase(experience: string)
    ensures ScreeningLevel(Lower(experience)) == ScreeningLevel(experience)
  {
    var low := Lower(experience);
    LowerIdempotent(experience);
    ContainsChar(experience, '5');
    ContainsChar(low, '5');
    assert '5' in low <==> '5' in experience by {
      if '5' in low {
        var i :| 0 <= i < |low| && low[i] == '5';
        assert experience[i] == '5';
      }
      if '5' in experience {
        var i :| 0 <= i < |experience| && experience[i] == '5';
        assert low[i] == '5';
      }
    }
  }

  /** A "5" anywhere makes the level senior, whatever number it is part of. */
  lemma AnyFiveIsSenior(pre: string, post: string)
    ensures ScreeningLevel(pre + "5" + post) == "senior"
  {
    var e := pre + "5" + post;
    ContainsChar(e, '5');
    assert e[|pre|] == '5';
  }

  /** The word "senior" in any case, anywhere in the text, makes the level senior. */
  lemma MentionsSeniorIsSenior(pre: string, word: string, post: string)
    requires Lower(word) == "senior"
    ensures ScreeningLevel(pre + word + post) == "senior"
  {
    var e := pre + word + post;
    var low := Lower(e);
    assert |word| == 6;
    forall k | 0 <= k < 6 ensures low[|pre| + k] == "senior"[k] {
      assert e[|pre| + k] == word[k];
      assert low[|pre| + k] == LowerChar(word[k]) == Lower(word)[k];
    }
    assert low[|pre|..][..6] == "senior";
    assert StartsWith(low[|pre|..], "senior");
  }

  /** Experience text without a "5" or a "senior" gives the mid level. */
  lemma MidOtherwise(experience: string)
    requires '5' !in experience && !Contains(Lower(experience), "senior")
    ensures ScreeningLevel(experience) == "mid"
  {
    ContainsChar(experience, '5');
  }

  /** The key skills name the primary skill first. */
  lemma KeySkillsStartWithPrimary(skills: seq<string>)
    ensures StartsWith(KeySkills(skills), PrimarySkill(skills))
  {
    if |skills| > 1 {
      JoinCons(skills[0], skills[1..], ", ");
      assert [skills[0]] + skills[1..] == skills;
      StartsWithAppend(skills[0], skills[0], ", " + Join(skills[1..], ", "));
    }
  }

  /** Every listed skill occurs in the key skills. */
  lemma KeySkillsNameEverySkill(skills: seq<string>, i: nat)
    requires i < |skills|
    ensures Contains(KeySkills(skills), skills[i])
  {
    JoinContains(skills, ", ", i);
  }
}
