/**
 * The handlers of the search router that hold logic of their own: the
 * search endpoint, the detailed resume view, the screening-question and
 * outreach-e-mail endpoints and the payload check of `send_email`.  A
 * handler reads the `resumes` table (a sequence of rows); any exception
 * inside its `try` comes back as a 500 whose detail names the handler and
 * the exception.
 */
module SearchRoutes {
  import opened Wrappers
  import opened Text
  import opened Records
  import opened ResumeDetail
  import Ranking
  import Answer
  import Engine
  import Screening
  import EmailGenerator

  /** An exception leaving a handler's body. */
  datatype Failure =
    | Http(status: nat, detail: string)  // `HTTPException`
    | Raised(message: string)            // any other exception, with its `str()`

  const NotFound := Http(404, "Resume not found")
  const QueryRequired := Http(400, "Search query is required")
  const PayloadIncomplete := Http(400, "Missing to, subject, or body.")
  const SmtpIncomplete := Http(500, "SMTP configuration is incomplete.")
  /** What the server answers when an exception escapes a handler. */
  const InternalError := Http(500, "Internal Server Error")

  /** The decimal digits of a number, as `str(n)` writes them. */
  function Decimal(n: nat): (s: string)
    ensures s != [] && forall c :: c in s ==> IsDigit(c)
  {
    if n < 10 then [('0' as int + n) as char]
    else Decimal(n / 10) + [('0' as int + n % 10) as char]
  }

  /** The status codes the handlers wrap, written out. */
  lemma StatusCodes()
    ensures Decimal(400) == "400" && Decimal(404) == "404"
  {
    assert Decimal(4) == "4";
    assert Decimal(40) == "40";
  }

  /** `str(e)`; an `HTTPException` shows as "<status>: <detail>". */
  function Message(f: Failure): string {
    match f
    case Http(status, detail) => Decimal(status) + ": " + detail
    case Raised(message) => message
  }

  /** `except Exception as e: raise HTTPException(500, f"{prefix}: {str(e)}")` */
  function Wrap(prefix: string, f: Failure): (r: Failure)
    ensures r == Http(500, prefix + ": " + Message(f))
  {
    match f
    case Http(status, detail) =>
      assert prefix + ": " + Decimal(status) + ": " + detail == prefix + ": " + (Decimal(status) + ": " + detail);
      Http(500, prefix + ": " + Decimal(status) + ": " + detail)
    case Raised(message) => Http(500, prefix + ": " + message)
  }

  /** A missing resume, as a handler reports it. */
  lemma WrapNotFound(prefix: string)
    ensures Wrap(prefix, NotFound) == Http(500, prefix + ": " + "404" + ": " + "Resume not found")
  {
    StatusCodes();
  }

  /** A missing query, as the search handler reports it. */
  lemma WrapQueryRequired(prefix: string)
    ensures Wrap(prefix, QueryRequired) == Http(500, prefix + ": " + "400" + ": " + "Search query is required")
  {
    StatusCodes();
  }

  /** `SELECT ... FROM resumes WHERE id = ?` then `fetchone()`. */
  function RowWithId(rows: seq<Row>, id: int): (r: Option<Row>)
    ensures r.Some? ==> r.value in rows && r.value.id == id
    ensures r.None? ==> forall row :: row in rows ==> row.id != id
  {
    if rows == [] then None
    else if rows[0].id == id then Some(rows[0])
    else RowWithId(rows[1..], id)
  }

  // ---------------------------------------------------------------------------
  // POST /search/

  /**
   * `search_candidates`: an empty query is refused before anything else;
   * otherwise the table is repaired and searched.
   */
  method SearchCandidates(engine: Engine.SearchEngine, query: string, llm: string -> Option<string>)
    returns (res: Result<(seq<Ranking.Match>, string), Failure>)
    requires engine.Valid()
    modifies engine
    ensures engine.Valid()
    ensures query == "" ==>
      engine.rows == old(engine.rows) && res == Err(Wrap("Error searching candidates", QueryRequired))
    ensures query != "" ==> engine.rows == Repair(old(engine.rows), engine.embed)
    ensures query != "" ==>
      && res.Ok?
      && res.value.0 == Ranking.SortByScore(Ranking.Ranked(engine.rows, engine.embed(query), query, Engine.SearchTopK, engine.cosine))
      && (res.value.0 == [] ==> res.value.1 == Engine.NoResults)
      && (res.value.0 != [] ==> res.value.1 == Answer.GenerateAnswer(query, res.value.0, llm))
  {
    if query == "" {
      return Err(Wrap("Error searching candidates", QueryRequired));
    }
    engine.VerifyDatabase();
    var matches, analysis := engine.Search(query, llm);
    if matches == [] {
      return Ok(([], Engine.NoResults));
    }
    return Ok((matches, analysis));
  }

  // ---------------------------------------------------------------------------
  // GET /resume/{resume_id}

  datatype DetailedResume = DetailedResume(
    id: int,
    firstName: string,
    fullName: string,
    experienceYears: string,
    summary: Option<string>,
    contact: Contact,
    skills: seq<string>,
    degrees: seq<Degree>,
    certifications: seq<Certification>,
    workSummary: string,
    createdAt: Option<string>)

  /** `get_resume_details` */
  method GetResumeDetails(rows: seq<Row>, id: int) returns (res: Result<DetailedResume, Failure>)
    ensures RowWithId(rows, id).None? ==>
      res == Err(Wrap("Error retrieving resume details", NotFound))
    ensures RowWithId(rows, id).Some? && FirstName(RowWithId(rows, id).value.name).Err? ==>
      res == Err(Wrap("Error retrieving resume details", Raised(IndexErrorMessage)))
    ensures res.Ok? ==> RowWithId(rows, id).Some? && FirstName(RowWithId(rows, id).value.name).Ok?
    ensures res.Ok? ==>
      var row := RowWithId(rows, id).value;
      && res.value.id == id
      && res.value.firstName == FirstName(row.name).value
      && res.value.fullName == row.name
      && res.value.experienceYears == row.experience == res.value.workSummary
      && res.value.summary == row.summary
      && res.value.contact == row.contact
      && res.value.skills == row.skills
      && ListsDegrees(res.value.degrees, row.education)
      && ListsCertifications(res.value.certifications, row.education)
      && res.value.createdAt == row.createdAt
  {
    var found := RowWithId(rows, id);
    if found.None? {
      return Err(Wrap("Error retrieving resume details", NotFound));
    }
    var row := found.value;
    var first := FirstName(row.name);
    if first.Err? {
      return Err(Wrap("Error retrieving resume details", Raised(first.error)));
    }
    var degrees := EducationDetails(row.education);
    var certs := Certifications(row.education);
    res := Ok(DetailedResume(row.id, first.value, row.name, row.experience, row.summary, row.contact,
                             row.skills, degrees, certs, row.experience, row.createdAt));
  }

  // ---------------------------------------------------------------------------
  // GET /resume/{resume_id}/screening-questions

  /** `get_screening_questions`: questions about the primary skill at the level the experience suggests. */
  method GetScreeningQuestions(rows: seq<Row>, id: int, llm: string -> Option<string>)
    returns (res: Result<seq<string>, Failure>)
    ensures RowWithId(rows, id).None? ==>
      res == Err(Wrap("Error generating screening questions", NotFound))
    ensures RowWithId(rows, id).Some? ==>
      var row := RowWithId(rows, id).value;
      var prompt := Screening.Prompt(PrimarySkill(row.skills), ScreeningLevel(row.experience));
      && res.Ok?
      && (llm(prompt).None? ==> res.value == Screening.FallbackQuestions(PrimarySkill(row.skills)))
      && (llm(prompt).Some? ==> res.value == Screening.Questions(llm(prompt).value))
  {
    var found := RowWithId(rows, id);
    if found.None? {
      return Err(Wrap("Error generating screening questions", NotFound));
    }
    var row := found.value;
    var questions := Screening.GenerateQuestions(PrimarySkill(row.skills), ScreeningLevel(row.experience), llm);
    return Ok(questions);
  }

  // ---------------------------------------------------------------------------
  // POST /resume/{resume_id}/generate-email

  /** The e-mail for a stored row; the company, position and location come from the environment. */
  function Outreach(row: Row, template: string, env: map<string, string>): EmailGenerator.Email {
    EmailGenerator.GenerateEmail(
      row.name, PrimarySkill(row.skills),
      Some(EmailGenerator.Getenv(env, "COMPANY_NAME", "Our Company")),
      Some(EmailGenerator.Getenv(env, "POSITION_TITLE", "Developer")),
      template,
      EmailGenerator.Getenv(env, "COMPANY_LOCATION", ""),
      KeySkills(row.skills), env)
  }

  /** `generate_outreach_email` */
  function OutreachEmail(rows: seq<Row>, id: int, template: string, env: map<string, string>)
    : Result<EmailGenerator.Email, Failure>
  {
    match RowWithId(rows, id)
    case None => Err(Wrap("Error generating outreach email", NotFound))
    case Some(row) => Ok(Outreach(row, template, env))
  }

  /** An unknown id gives the wrapped 404. */
  lemma OutreachNotFound(rows: seq<Row>, id: int, template: string, env: map<string, string>)
    requires forall row :: row in rows ==> row.id != id
    ensures OutreachEmail(rows, id, template, env) == Err(Wrap("Error generating outreach email", NotFound))
    ensures OutreachEmail(rows, id, template, env).error.detail ==
      "Error generating outreach email" + ": " + "404" + ": " + "Resume not found"
  {
    WrapNotFound("Error generating outreach email");
  }

  /**
   * The handler's own reads of the environment change nothing: the e-mail is
   * the one the generator makes from its own defaults.
   */
  lemma OutreachUsesGeneratorDefaults(rows: seq<Row>, id: int, template: string, env: map<string, string>)
    requires RowWithId(rows, id).Some?
    ensures
      var row := RowWithId(rows, id).value;
      OutreachEmail(rows, id, template, env) ==
        Ok(EmailGenerator.GenerateEmail(row.name, PrimarySkill(row.skills), None, None, template, "",
                                        KeySkills(row.skills), env))
  {
  }

  // ---------------------------------------------------------------------------
  // POST /resume/{resume_id}/send-email

  /** `payload.get(key)` is truthy. */
  predicate Given(payload: map<string, string>, key: string) {
    key in payload && payload[key] != ""
  }

  predicate PayloadComplete(payload: map<string, string>) {
    Given(payload, "to") && Given(payload, "subject") && Given(payload, "body")
  }

  /** What the SMTP session is opened with. */
  datatype Outgoing = Outgoing(host: string, port: int, user: string, password: string,
                               sender: string, to: string, subject: string, body: string)

  /**
   * `send_email` up to the SMTP session: the payload is checked first, then
   * the configuration read from the environment.  `parseInt` is Python's
   * `int()` on a string, `None` where it raises; that `ValueError` is
   * outside the handler's `try`.
   */
  function SendEmail(payload: map<string, string>, env: map<string, string>, parseInt: string -> Option<int>)
    : Result<Outgoing, Failure>
  {
    if !PayloadComplete(payload) then Err(PayloadIncomplete)
    else
      var port := parseInt(EmailGenerator.Getenv(env, "SMTP_PORT", "587"));
      if port.None? then Err(InternalError)
      else if !(Given(env, "SMTP_HOST") && port.value != 0 && Given(env, "SMTP_USER")
                && Given(env, "SMTP_PASS") && Given(env, "SENDER_EMAIL"))
      then Err(SmtpIncomplete)
      else Ok(Outgoing(env["SMTP_HOST"], port.value, env["SMTP_USER"], env["SMTP_PASS"],
                       env["SENDER_EMAIL"], payload["to"], payload["subject"], payload["body"]))
  }

  /** An incomplete payload is refused with a 400 whatever the configuration. */
  lemma SendEmailChecksPayloadFirst(payload: map<string, string>,
                                    env1: map<string, string>, parseInt1: string -> Option<int>,
                                    env2: map<string, string>, parseInt2: string -> Option<int>)
    requires !PayloadComplete(payload)
    ensures SendEmail(payload, env1, parseInt1) == SendEmail(payload, env2, parseInt2)
    ensures SendEmail(payload, env1, parseInt1) == Err(Http(400, "Missing to, subject, or body."))
  {
  }

  /** The 400 comes exactly from an incomplete payload. */
  lemma SendEmailRejectsOnlyBadPayload(payload: map<string, string>, env: map<string, string>,
                                       parseInt: string -> Option<int>)
    ensures SendEmail(payload, env, parseInt).Err? && SendEmail(payload, env, parseInt).error.status == 400
      <==> !PayloadComplete(payload)
  {
  }

  /**
   * A message goes out exactly when the payload is complete and every
   * setting is present, non-empty, and the port is a non-zero number; it
   * carries the payload's fields.
   */
  lemma SendEmailReady(payload: map<string, string>, env: map<string, string>, parseInt: string -> Option<int>)
    ensures SendEmail(payload, env, parseInt).Ok? <==>
      && PayloadComplete(payload)
      && parseInt(EmailGenerator.Getenv(env, "SMTP_PORT", "587")).Some?
      && parseInt(EmailGenerator.Getenv(env, "SMTP_PORT", "587")).value != 0
      && Given(env, "SMTP_HOST") && Given(env, "SMTP_USER") && Given(env, "SMTP_PASS") && Given(env, "SENDER_EMAIL")
    ensures SendEmail(payload, env, parseInt).Ok? ==>
      var out := SendEmail(payload, env, parseInt).value;
      out.to == payload["to"] && out.subject == payload["subject"] && out.body == payload["body"]
      && out.sender == env["SENDER_EMAIL"] && out.host == env["SMTP_HOST"]
  {
  }

  /** Without `SMTP_PORT` the port is 587. */
  lemma SendEmailDefaultPort(payload: map<string, string>, env: map<string, string>, parseInt: string -> Option<int>)
    requires "SMTP_PORT" !in env && parseInt("587") == Some(587)
    requires SendEmail(payload, env, parseInt).Ok?
    ensures SendEmail(payload, env, parseInt).value.port == 587
  {
  }
}
