/**
 * `EmailGenerator.generate_email`: an e-mail from one of four templates,
 * with `str.format` placeholders filled from the arguments, the environment
 * and fixed defaults.  The environment is a parameter: a variable that is set
 * maps to its value, even when that value is empty.
 */
module EmailGenerator {
  import opened Wrappers
  import opened Text

  /** The placeholders the templates use. */
  datatype Field = CandidateName | CompanyName | JobTitle | KeySkills | Location | YourName | YourPosition | EmailSignature

  /** A template is text with placeholders; a filled-in value is never scanned again. */
  datatype Piece = Lit(text: string) | Hole(field: Field)

  datatype Template = Template(subject: seq<Piece>, body: seq<Piece>)

  /** The values `format` is called with. */
  datatype Settings = Settings(
    candidateName: string,
    companyName: string,
    jobTitle: string,
    keySkills: string,
    location: string,
    yourName: string,
    yourPosition: string,
    emailSignature: string)

  datatype Email = Email(subject: string, body: string)

  function Value(v: Settings, f: Field): string {
    match f
    case CandidateName => v.candidateName
    case CompanyName => v.companyName
    case JobTitle => v.jobTitle
    case KeySkills => v.keySkills
    case Location => v.location
    case YourName => v.yourName
    case YourPosition => v.yourPosition
    case EmailSignature => v.emailSignature
  }

  /** `template.format(**values)` */
  function Format(pieces: seq<Piece>, v: Settings): string {
    if pieces == [] then ""
    else
      (match pieces[0]
       case Lit(t) => t
       case Hole(f) => Value(v, f))
      + Format(pieces[1..], v)
  }

  /** How every body opens: "Hi {candidate_name},". */
  const Greeting: seq<Piece> := [Lit("Hi "), Hole(CandidateName), Lit(",")]

  const Congratulations := Template(
    [Lit("\U{1F389} Congratulations on Your Selection at "), Hole(CompanyName), Lit("!")],
    Greeting + [Lit("\n\nWe are thrilled to inform you that you have been "
       + "selected for the role of "),
     Hole(JobTitle),
     Lit(" at "),
     Hole(CompanyName),
     Lit("! Your skills, experience, and passion truly stood "
       + "out during the selection process, and we are excited "
       + "to welcome you to our team.\n\nIn the coming days, "
       + "our HR team will reach out with the next steps, "
       + "including details about your onboarding process, "
       + "joining date, and required documentation.\n\nCongratulations "
       + "once again on this well-deserved achievement! We "
       + "look forward to seeing you thrive and make a positive "
       + "impact with us.\n\nWarm regards,\n"),
     Hole(YourName),
     Lit("\n"),
     Hole(YourPosition),
     Lit("\n"),
     Hole(CompanyName),
     Lit("\n"),
     Hole(EmailSignature)])

  const InitialOutreach := Template(
    [Lit("Exciting Opportunity for "), Hole(JobTitle), Lit(" at "), Hole(CompanyName)],
    Greeting + [Lit("\n\nI came across your profile and was impressed by "
       + "your experience with "),
     Hole(KeySkills),
     Lit(". Our client is hiring in "),
     Hole(Location),
     Lit(" and I believe your skills would be a great fit.\n"
       + "\nWe're looking for someone to join a dynamic team "
       + "working on innovative projects. The role offers "
       + "competitive compensation, flexibility, and opportunities "
       + "for growth.\n\nWould you be open to a quick call this "
       + "week to discuss this opportunity further? If so, "
       + "please suggest a convenient time.\n\nLooking forward "
       + "to connecting!\n\nBest regards,\n"),
     Hole(YourName),
     Lit("\n"),
     Hole(YourPosition),
     Lit("\n"),
     Hole(CompanyName),
     Lit("\n"),
     Hole(EmailSignature)])

  const InterviewInvitation := Template(
    [Lit("Interview Invitation for "), Hole(JobTitle), Lit(" at "), Hole(CompanyName)],
    Greeting + [Lit("\n\nThank you for your interest in the "),
     Hole(JobTitle),
     Lit(" position at "),
     Hole(CompanyName),
     Lit(". We were impressed with your background and would "
       + "like to invite you for an interview to discuss your "
       + "experience and the role in more detail.\n\nPlease "
       + "let us know your availability for a call or meeting "
       + "this week. We look forward to speaking with you!\n"
       + "\nBest regards,\n"),
     Hole(YourName),
     Lit("\n"),
     Hole(YourPosition),
     Lit("\n"),
     Hole(CompanyName),
     Lit("\n"),
     Hole(EmailSignature)])

  const Regret := Template(
    [Lit("Update on Your Application at "), Hole(CompanyName)],
    Greeting + [Lit("\n\nThank you for your interest in the "),
     Hole(JobTitle),
     Lit(" position at "),
     Hole(CompanyName),
     Lit(". We appreciate the time and effort you invested "
       + "in your application.\n\nAfter careful consideration, "
       + "we have decided to move forward with other candidates "
       + "for this role. We encourage you to apply for future "
       + "opportunities that match your skills and experience.\n"
       + "\nThank you again for your interest in "),
     Hole(CompanyName),
     Lit(", and we wish you all the best in your job search.\n"
       + "\nBest regards,\n"),
     Hole(YourName),
     Lit("\n"),
     Hole(YourPosition),
     Lit("\n"),
     Hole(CompanyName),
     Lit("\n"),
     Hole(EmailSignature)])

  const Templates: map<string, Template> := map[
    "congratulations" := Congratulations,
    "initial_outreach" := InitialOutreach,
    "interview_invitation" := InterviewInvitation,
    "regret" := Regret]

  /** `os.getenv(key, default)` */
  function Getenv(env: map<string, string>, key: string, default: string): string {
    if key in env then env[key] else default
  }

  /** Python's `arg or fallback` for an optional string: `None` and "" both fall through. */
  function Or(arg: Option<string>, fallback: string): string {
    if arg.Some? && arg.value != "" then arg.value else fallback
  }

  /** The values the placeholders are filled with. */
  function Resolve(name: string, skill: string, companyName: Option<string>, position: Option<string>,
                   location: string, keySkills: string, env: map<string, string>): Settings {
    Settings(
      name,
      Or(companyName, Getenv(env, "COMPANY_NAME", "Our Company")),
      Or(position, Getenv(env, "POSITION_TITLE", "Developer")),
      Or(Some(keySkills), skill),
      Or(Some(location), Getenv(env, "COMPANY_LOCATION", "")),
      Getenv(env, "YOUR_NAME", "AI Recruiter"),
      Getenv(env, "YOUR_POSITION", "Recruiter"),
      Getenv(env, "EMAIL_SIGNATURE", "PeopleGPT"))
  }

  /** `EMAIL_TEMPLATES.get(template, EMAIL_TEMPLATES["initial_outreach"])` */
  function Lookup(template: string): Template {
    if template in Templates then Templates[template] else InitialOutreach
  }

  /** `generate_email`: the two keys `subject` and `body`. */
  function GenerateEmail(name: string, skill: string, companyName: Option<string>, position: Option<string>,
                         template: string, location: string, keySkills: string, env: map<string, string>): Email {
    var t := Lookup(template);
    var v := Resolve(name, skill, companyName, position, location, keySkills, env);
    Email(Format(t.subject, v), Format(t.body, v))
  }

  // ---------------------------------------------------------------------------
  // Facts about the e-mails

  /** Every placeholder of a template shows up, filled in, in the result. */
  lemma {:induction false} FormatShowsHole(pieces: seq<Piece>, v: Settings, f: Field)
    requires Hole(f) in pieces
    ensures Contains(Format(pieces, v), Value(v, f))
  {
    var head := match pieces[0] case Lit(t) => t case Hole(g) => Value(v, g);
    var rest := Format(pieces[1..], v);
    if pieces[0] == Hole(f) {
      StartsWithAppend(Value(v, f), Value(v, f), rest);
      ContainsPrefix(Format(pieces, v), Value(v, f));
    } else {
      assert Hole(f) in pieces[1..];
      FormatShowsHole(pieces[1..], v, f);
      ContainsInfix(head, rest, "", Value(v, f));
      assert head + rest + "" == Format(pieces, v);
    }
  }

  /** An unknown template name gives the initial-outreach e-mail. */
  lemma UnknownTemplate(name: string, skill: string, companyName: Option<string>, position: Option<string>,
                        template: string, location: string, keySkills: string, env: map<string, string>)
    requires template !in Templates
    ensures GenerateEmail(name, skill, companyName, position, template, location, keySkills, env)
         == GenerateEmail(name, skill, companyName, position, "initial_outreach", location, keySkills, env)
  {
  }

  /** Every template's subject names the company. */
  lemma SubjectNamesCompany(name: string, skill: string, companyName: Option<string>, position: Option<string>,
                            template: string, location: string, keySkills: string, env: map<string, string>)
    ensures Contains(GenerateEmail(name, skill, companyName, position, template, location, keySkills, env).subject,
                     Resolve(name, skill, companyName, position, location, keySkills, env).companyName)
  {
    var t := Lookup(template);
    assert Hole(CompanyName) in t.subject;
    FormatShowsHole(t.subject, Resolve(name, skill, companyName, position, location, keySkills, env), CompanyName);
  }

  /** A body that opens with the greeting starts with "Hi <name>,". */
  lemma GreetingFirst(rest: seq<Piece>, v: Settings)
    ensures StartsWith(Format(Greeting + rest, v), "Hi " + v.candidateName + ",")
  {
    var pieces := Greeting + rest;
    assert pieces[1..] == [Hole(CandidateName), Lit(",")] + rest;
    assert pieces[1..][1..] == [Lit(",")] + rest;
    assert pieces[1..][1..][1..] == rest;
    var g := "Hi " + v.candidateName + ",";
    assert Format(pieces[1..][1..], v) == "," + Format(rest, v);
    assert Format(pieces[1..], v) == v.candidateName + ("," + Format(rest, v));
    assert Format(pieces, v) == "Hi " + (v.candidateName + ("," + Format(rest, v)));
    assert Format(pieces, v) == g + Format(rest, v);
    StartsWithAppend(g, g, Format(rest, v));
  }

  /** Every body greets the candidate by name: it begins with "Hi <name>,". */
  lemma BodyGreets(name: string, skill: string, companyName: Option<string>, position: Option<string>,
                   template: string, location: string, keySkills: string, env: map<string, string>)
    ensures StartsWith(GenerateEmail(name, skill, companyName, position, template, location, keySkills, env).body,
                       "Hi " + name + ",")
  {
    var t := Lookup(template);
    assert t.body == Greeting + t.body[3..];
    GreetingFirst(t.body[3..], Resolve(name, skill, companyName, position, location, keySkills, env));
  }

  /** A non-empty argument wins over the environment and the defaults. */
  lemma ArgumentsWin(name: string, skill: string, company: string, position: string,
                     location: string, keySkills: string, env: map<string, string>)
    requires company != "" && position != "" && location != "" && keySkills != ""
    ensures var v := Resolve(name, skill, Some(company), Some(position), location, keySkills, env);
      v.companyName == company && v.jobTitle == position && v.location == location && v.keySkills == keySkills
  {
  }

  /** With nothing passed and nothing set, the defaults apply; the key skills fall back to the skill. */
  lemma DefaultsApply(name: string, skill: string)
    ensures Resolve(name, skill, None, None, "", "", map[])
         == Settings(name, "Our Company", "Developer", skill, "", "AI Recruiter", "Recruiter", "PeopleGPT")
  {
  }
}
