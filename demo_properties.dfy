/**
 * What the demo handler guarantees, stated over DemoHandler.Handle and the
 * composition functions it uses.
 */
module DemoProperties {
  import opened Wrappers
  import opened JsString
  import opened DemoHandler

  // ---------------------------------------------------------------------
  // Dispatch and early exits: none of them sends an email.

  /** A CORS preflight gets 204 with no body. */
  lemma PreflightNoContent(req: Request, env: Env, submittedAt: string, outcome: SendOutcome)
    requires req.httpMethod == "OPTIONS"
    ensures Handle(req, env, submittedAt, outcome) == Outcome(Response(204, CorsHeaders, NoContent), None)
  {
  }

  /** Every method but POST and OPTIONS gets 405. */
  lemma OtherMethodRejected(req: Request, env: Env, submittedAt: string, outcome: SendOutcome)
    requires req.httpMethod != "OPTIONS" && req.httpMethod != "POST"
    ensures Handle(req, env, submittedAt, outcome) == Outcome(Response(405, CorsHeaders, Failure("Method Not Allowed")), None)
  {
  }

  /** A POST with a setting unset gets 500, flagging exactly the unset settings, whatever the body. */
  lemma MissingConfigRejected(req: Request, env: Env, submittedAt: string, outcome: SendOutcome)
    requires req.httpMethod == "POST"
    requires Unset(env.resendApiKey) || Unset(env.demoFromEmail) || Unset(env.demoToEmail)
    ensures var o := Handle(req, env, submittedAt, outcome);
      && o.sent.None?
      && o.response.status == 500
      && o.response.payload == ConfigFailure("Missing server configuration",
           Missing(Unset(env.resendApiKey), Unset(env.demoFromEmail), Unset(env.demoToEmail)))
  {
  }

  /** The configuration is checked before the body: with a setting unset, the body makes no difference. */
  lemma ConfigCheckedBeforeBody(b1: Body, b2: Body, env: Env, t1: string, t2: string, o1: SendOutcome, o2: SendOutcome)
    requires !ConfigComplete(env)
    ensures Handle(Request("POST", b1), env, t1, o1) == Handle(Request("POST", b2), env, t2, o2)
  {
  }

  /** A string body that is not JSON gets 400 once the configuration is complete. */
  lemma InvalidJsonRejected(env: Env, submittedAt: string, outcome: SendOutcome)
    requires ConfigComplete(env)
    ensures Handle(Request("POST", StringBody(ParseFailed)), env, submittedAt, outcome)
         == Outcome(Response(400, CorsHeaders, Failure("Invalid JSON body")), None)
  {
  }

  /** The form is read from the body's own object: the pre-parsed one, or what `JSON.parse` made of the string. */
  lemma PayloadIsBody(fields: map<string, string>)
    ensures PayloadOf(ObjectBody(fields)) == Some(fields)
    ensures PayloadOf(StringBody(Parsed(fields))) == Some(fields)
  {
  }

  /** A missing body is handled as an empty object, which lacks the required fields. */
  lemma AbsentBodyIsEmptyObject(env: Env, submittedAt: string, outcome: SendOutcome)
    requires ConfigComplete(env)
    ensures Handle(Request("POST", NoBody), env, submittedAt, outcome)
         == Handle(Request("POST", ObjectBody(map[])), env, submittedAt, outcome)
    ensures Handle(Request("POST", NoBody), env, submittedAt, outcome)
         == Outcome(Response(400, CorsHeaders, RequiredFailure("Missing required fields", ["company", "name", "email"])), None)
  {
    assert PayloadOf(NoBody) == PayloadOf(ObjectBody(map[]));
    assert AllWhitespace(Raw(map[], "company"));
    MissingRequiredRejected(Request("POST", NoBody), env, submittedAt, outcome, map[]);
  }

  /**
   * A company, name or email that is absent, empty or only whitespace gets
   * 400 naming the three required fields.
   */
  lemma MissingRequiredRejected(req: Request, env: Env, submittedAt: string, outcome: SendOutcome, payload: map<string, string>)
    requires req.httpMethod == "POST" && ConfigComplete(env)
    requires PayloadOf(req.body) == Some(payload)
    requires || AllWhitespace(Raw(payload, "company"))
             || AllWhitespace(Raw(payload, "name"))
             || AllWhitespace(Raw(payload, "email"))
    ensures Handle(req, env, submittedAt, outcome)
         == Outcome(Response(400, CorsHeaders, RequiredFailure("Missing required fields", ["company", "name", "email"])), None)
  {
    BlankRequiredField(payload);
    RequiredCheckFails(req, env, submittedAt, outcome);
  }

  lemma RequiredCheckFails(req: Request, env: Env, submittedAt: string, outcome: SendOutcome)
    requires req.httpMethod == "POST" && ConfigComplete(env)
    requires PayloadOf(req.body).Some? && !HasRequired(Normalize(PayloadOf(req.body).value))
    ensures Handle(req, env, submittedAt, outcome) == Outcome(Reply(400, RequiredFailure(MissingFieldsError, RequiredFields)), None)
  {
  }

  lemma BlankRequiredField(payload: map<string, string>)
    requires || AllWhitespace(Raw(payload, "company"))
             || AllWhitespace(Raw(payload, "name"))
             || AllWhitespace(Raw(payload, "email"))
    ensures !HasRequired(Normalize(payload))
  {
  }

  /**
   * Once company, name and email hold something other than whitespace, one
   * email is posted, whatever the other fields hold, and the response is the
   * provider outcome's. Every line of its text comes from the key of the
   * same name in the submitted object.
   */
  lemma AcceptedSendsOne(req: Request, env: Env, submittedAt: string, outcome: SendOutcome, payload: map<string, string>)
    requires req.httpMethod == "POST" && ConfigComplete(env)
    requires PayloadOf(req.body) == Some(payload)
    requires !AllWhitespace(Raw(payload, "company"))
    requires !AllWhitespace(Raw(payload, "name"))
    requires !AllWhitespace(Raw(payload, "email"))
    ensures var o := Handle(req, env, submittedAt, outcome);
      var company, name := Trim(Raw(payload, "company")), Trim(Raw(payload, "name"));
      var submitted := Fields(company, name, Trim(Raw(payload, "email")), Trim(Raw(payload, "phone")),
        Trim(Raw(payload, "primaryService")), Trim(Raw(payload, "crm")),
        Trim(Raw(payload, "leadVolume")), Trim(Raw(payload, "message")));
      && o.response == MapOutcome(outcome)
      && o.sent == Some(OutboundEmail(
           env.demoFromEmail.value,
           [env.demoToEmail.value],
           Trim(Raw(payload, "email")),
           "Demo Request \U{2014} " + company + " (" + name + ")",
           Join(ExpectedLines(submitted, submittedAt), "\n")))
  {
    RequiredFieldsPresent(payload);
    AcceptedPosts(req, env, submittedAt, outcome);
    SubmittedText(payload, submittedAt);
  }

  lemma RequiredFieldsPresent(payload: map<string, string>)
    requires !AllWhitespace(Raw(payload, "company"))
    requires !AllWhitespace(Raw(payload, "name"))
    requires !AllWhitespace(Raw(payload, "email"))
    ensures HasRequired(Normalize(payload))
  {
  }

  /** An accepted request posts the email built from its normalised fields. */
  lemma AcceptedPosts(req: Request, env: Env, submittedAt: string, outcome: SendOutcome)
    requires Accepted(req, env)
    ensures Handle(req, env, submittedAt, outcome)
         == Outcome(MapOutcome(outcome), Some(Outbound(env, Normalize(PayloadOf(req.body).value), submittedAt)))
  {
  }

  /** The text of a submitted form, line by line, each line from the key of the same name. */
  lemma SubmittedText(payload: map<string, string>, submittedAt: string)
    ensures Text(Normalize(payload), submittedAt)
         == Join(ExpectedLines(Fields(Trim(Raw(payload, "company")), Trim(Raw(payload, "name")),
              Trim(Raw(payload, "email")), Trim(Raw(payload, "phone")),
              Trim(Raw(payload, "primaryService")), Trim(Raw(payload, "crm")),
              Trim(Raw(payload, "leadVolume")), Trim(Raw(payload, "message"))), submittedAt), "\n")
  {
    TextLinesInOrder(Normalize(payload), submittedAt);
  }

  /** Each field of the normalised request is the trimmed value of the key of the same name. */
  lemma NormalizedFromKeys(payload: map<string, string>)
    ensures var f := Normalize(payload);
      && f.company == Trim(Raw(payload, "company")) && f.name == Trim(Raw(payload, "name"))
      && f.email == Trim(Raw(payload, "email")) && f.phone == Trim(Raw(payload, "phone"))
      && f.primaryService == Trim(Raw(payload, "primaryService")) && f.crm == Trim(Raw(payload, "crm"))
      && f.leadVolume == Trim(Raw(payload, "leadVolume")) && f.message == Trim(Raw(payload, "message"))
  {
  }

  /** The subject is `Demo Request — ` and the company, then a space and the name in parentheses. */
  lemma SubjectParts(f: Fields)
    ensures var s := Subject(f);
      && |s| == |SubjectPrefix| + |f.company| + |f.name| + 3
      && s[..|SubjectPrefix| + |f.company|] == SubjectPrefix + f.company
      && s[|SubjectPrefix| + |f.company|..] == " (" + f.name + ")"
  {
  }

  /** The email goes from the configured sender to the configured recipient alone, replying to the requester. */
  lemma OutboundAddresses(env: Env, f: Fields, submittedAt: string)
    requires ConfigComplete(env)
    ensures var m := Outbound(env, f, submittedAt);
      && m.from == env.demoFromEmail.value && m.from != ""
      && |m.to| == 1 && m.to[0] == env.demoToEmail.value && m.to[0] != ""
      && m.replyTo == f.email && m.subject == Subject(f) && m.text == Text(f, submittedAt)
  {
  }

  /** Every field is trimmed: no field of the normalised request starts or ends with whitespace. */
  lemma NormalizedFieldsTrimmed(payload: map<string, string>)
    ensures var f := Normalize(payload);
      && Trimmed(f.company) && Trimmed(f.name) && Trimmed(f.email) && Trimmed(f.phone)
      && Trimmed(f.primaryService) && Trimmed(f.crm) && Trimmed(f.leadVolume) && Trimmed(f.message)
  {
  }

  /** When nothing is sent, the provider outcome and the clock play no part in the response. */
  lemma NoSendIgnoresOutcome(req: Request, env: Env, t1: string, t2: string, o1: SendOutcome, o2: SendOutcome)
    requires Handle(req, env, t1, o1).sent.None?
    ensures Handle(req, env, t1, o1) == Handle(req, env, t2, o2)
  {
  }

  // ---------------------------------------------------------------------
  // The provider's answer

  /** A non-2xx status gets 500 with that status and the parsed body, `{}` when it does not parse. */
  lemma UpstreamFailureMapped(status: int, data: Option<Json>)
    requires !(200 <= status <= 299)
    ensures MapOutcome(Responded(status, data))
         == Response(500, CorsHeaders, UpstreamFailure("Resend send failed", status, data.GetOr(JsonObject(map[]))))
  {
  }

  /** A 2xx status with an object (or unparsable) body gets 200 and the non-empty id, else null. */
  lemma DeliveredMapped(status: int, data: Option<Json>)
    requires 200 <= status <= 299 && data != Some(JsonNull)
    ensures var id := if data.Some? && "id" in data.value.fields && data.value.fields["id"] != ""
                      then Some(data.value.fields["id"]) else None;
      MapOutcome(Responded(status, data)) == Response(200, CorsHeaders, Delivered(id))
  {
  }

  /** An exception gets 500 with its message, or its string form when it has no message. */
  lemma ExceptionMapped(message: Option<string>, description: string)
    ensures var shown := if message.Some? && message.value != "" then message.value else description;
      MapOutcome(Threw(message, description)) == Response(500, CorsHeaders, SendFailure("Server error sending email", shown))
  {
  }

  /** A provider answering `{id: "abc123"}` with 200 gets `{ok: true, id: "abc123"}` back. */
  lemma DeliveredIdEchoed()
    ensures MapOutcome(Responded(200, Some(JsonObject(map["id" := "abc123"]))))
         == Response(200, CorsHeaders, Delivered(Some("abc123")))
  {
  }

  /** A 2xx answer whose body is JSON `null` makes `data.id` throw: 500, although the email went out. */
  lemma NullBodyFails(status: int)
    requires 200 <= status <= 299
    ensures MapOutcome(Responded(status, Some(JsonNull)))
         == Response(500, CorsHeaders, SendFailure("Server error sending email", NullIdTypeError))
  {
  }

  /** On an accepted request the email is posted, and a 2xx `null` answer still gets that 500. */
  lemma AcceptedNullBodyFails(req: Request, env: Env, submittedAt: string, status: int)
    requires Accepted(req, env) && 200 <= status <= 299
    ensures var o := Handle(req, env, submittedAt, Responded(status, Some(JsonNull)));
      && o.sent.Some?
      && o.response == Response(500, CorsHeaders, SendFailure("Server error sending email", NullIdTypeError))
  {
    NullBodyFails(status);
  }

  // ---------------------------------------------------------------------
  // The text body

  /**
   * The array before `.filter(Boolean)`: twelve entries, the header first and
   * the timestamp last, the empty separators second and second to last, and
   * each optional entry null exactly when its field is empty.
   */
  lemma TextEntriesShape(f: Fields, submittedAt: string)
    ensures var xs := TextEntries(f, submittedAt);
      && |xs| == 12
      && xs[0] == Some(TextHeader) && xs[11] == Some("Submitted at: " + submittedAt)
      && xs[1] == Some("") && xs[10] == Some("")
      && (xs[5].None? <==> f.phone == "")
      && (xs[6].None? <==> f.primaryService == "")
      && (xs[7].None? <==> f.crm == "")
      && (xs[8].None? <==> f.leadVolume == "")
      && (xs[9].None? <==> f.message == "")
  {
  }

  /** The line for an optional field, if the field is non-empty. */
  function Present(prefix: string, value: string): seq<string> {
    if value != "" then [prefix + value] else []
  }

  /** The lines of the text body, in order, as the form lays them out. */
  function ExpectedLines(f: Fields, submittedAt: string): seq<string> {
    [TextHeader, "Company: " + f.company, "Name: " + f.name, "Email: " + f.email]
    + Present("Phone: ", f.phone)
    + Present("Primary service: ", f.primaryService)
    + Present("CRM: ", f.crm)
    + Present("Monthly lead volume: ", f.leadVolume)
    + Present("Message: ", f.message)
    + ["Submitted at: " + submittedAt]
  }

  function Keep(x: Option<string>): seq<string> {
    if Truthy(x) then [x.value] else []
  }

  lemma FilterSingle(x: Option<string>)
    ensures FilterTruthy([x]) == Keep(x)
  {
    assert [x][1..] == [];
  }

  lemma KeepOptionalLine(prefix: string, value: string)
    requires prefix != ""
    ensures FilterTruthy([OptionalLine(prefix, value)]) == Present(prefix, value)
  {
    FilterSingle(OptionalLine(prefix, value));
  }

  /** The fixed head of the array: the header, a separator and the three required lines. */
  lemma FilterHead(header: string, company: string, name: string, email: string)
    requires header != "" && company != "" && name != "" && email != ""
    ensures FilterTruthy([Some(header), Some(""), Some(company), Some(name), Some(email)])
         == [header, company, name, email]
  {
    var xs := [Some(header), Some(""), Some(company), Some(name), Some(email)];
    FilterSingle(Some(email));
    assert xs[4..] == [Some(email)];
    assert xs[3..][1..] == xs[4..];
    assert FilterTruthy(xs[3..]) == [name, email];
    assert xs[2..][1..] == xs[3..];
    assert FilterTruthy(xs[2..]) == [company, name, email];
    assert xs[1..][1..] == xs[2..];
    assert FilterTruthy(xs[1..]) == [company, name, email];
  }

  /** The fixed tail of the array: a separator and the submission line. */
  lemma FilterTail(submitted: string)
    requires submitted != ""
    ensures FilterTruthy([Some(""), Some(submitted)]) == [submitted]
  {
    var xs := [Some(""), Some(submitted)];
    assert xs[1..][1..] == [];
  }

  /**
   * `.filter(Boolean)` leaves exactly the expected lines: the two empty
   * separators go, and each optional line is there iff its field is non-empty.
   */
  lemma TextLinesInOrder(f: Fields, submittedAt: string)
    ensures TextLines(f, submittedAt) == ExpectedLines(f, submittedAt)
  {
    var head := [Some(TextHeader), Some(""), Some("Company: " + f.company), Some("Name: " + f.name), Some("Email: " + f.email)];
    var o1, o2, o3 := OptionalLine("Phone: ", f.phone), OptionalLine("Primary service: ", f.primaryService), OptionalLine("CRM: ", f.crm);
    var o4, o5 := OptionalLine("Monthly lead volume: ", f.leadVolume), OptionalLine("Message: ", f.message);
    var tail := [Some(""), Some("Submitted at: " + submittedAt)];
    var p1 := head + [o1];
    var p2 := p1 + [o2];
    var p3 := p2 + [o3];
    var p4 := p3 + [o4];
    var p5 := p4 + [o5];
    assert TextEntries(f, submittedAt) == p5 + tail;
    FilterHead(TextHeader, "Company: " + f.company, "Name: " + f.name, "Email: " + f.email);
    KeepOptionalLine("Phone: ", f.phone);
    KeepOptionalLine("Primary service: ", f.primaryService);
    KeepOptionalLine("CRM: ", f.crm);
    KeepOptionalLine("Monthly lead volume: ", f.leadVolume);
    KeepOptionalLine("Message: ", f.message);
    FilterTail("Submitted at: " + submittedAt);
    FilterTruthyAppend(head, [o1]);
    FilterTruthyAppend(p1, [o2]);
    FilterTruthyAppend(p2, [o3]);
    FilterTruthyAppend(p3, [o4]);
    FilterTruthyAppend(p4, [o5]);
    FilterTruthyAppend(p5, tail);
  }

  /** `.filter(Boolean)` keeps at most the twelve entries, none of them empty, the header first. */
  lemma TextLinesShape(f: Fields, submittedAt: string)
    ensures var lines := TextLines(f, submittedAt);
      && 5 <= |lines| <= 12 && lines[0] == TextHeader
      && forall i :: 0 <= i < |lines| ==> lines[i] != ""
  {
    TextLinesInOrder(f, submittedAt);
  }

  /** The text has five lines plus one per non-empty optional field. */
  lemma TextLineCount(f: Fields, submittedAt: string)
    ensures |TextLines(f, submittedAt)| == 5
      + (if f.phone != "" then 1 else 0) + (if f.primaryService != "" then 1 else 0)
      + (if f.crm != "" then 1 else 0) + (if f.leadVolume != "" then 1 else 0)
      + (if f.message != "" then 1 else 0)
  {
    TextLinesInOrder(f, submittedAt);
  }

  /** The text starts with the header line and ends with the submission time. */
  lemma TextEnds(f: Fields, submittedAt: string)
    ensures |Text(f, submittedAt)| >= |TextHeader|
    ensures Text(f, submittedAt)[..|TextHeader|] == TextHeader
    ensures |Text(f, submittedAt)| >= |"Submitted at: " + submittedAt|
    ensures var t := Text(f, submittedAt); t[|t| - |"Submitted at: " + submittedAt|..] == "Submitted at: " + submittedAt
  {
    TextLinesInOrder(f, submittedAt);
    JoinEnds(TextLines(f, submittedAt), "\n");
  }

  predicate SingleLine(s: string) {
    '\n' !in s
  }

  predicate SingleLineFields(f: Fields) {
    && SingleLine(f.company) && SingleLine(f.name) && SingleLine(f.email) && SingleLine(f.phone)
    && SingleLine(f.primaryService) && SingleLine(f.crm) && SingleLine(f.leadVolume) && SingleLine(f.message)
  }

  predicate NoBreaks(lines: seq<string>) {
    forall i :: 0 <= i < |lines| ==> SingleLine(lines[i])
  }

  lemma NoBreaksAppend(a: seq<string>, b: seq<string>)
    requires NoBreaks(a) && NoBreaks(b)
    ensures NoBreaks(a + b)
  {
    forall i | 0 <= i < |a + b| ensures SingleLine((a + b)[i]) {
      if i < |a| { assert (a + b)[i] == a[i]; } else { assert (a + b)[i] == b[i - |a|]; }
    }
  }

  lemma SingleLineConcat(a: string, b: string)
    requires SingleLine(a) && SingleLine(b)
    ensures SingleLine(a + b)
  {
  }

  lemma PresentNoBreaks(prefix: string, value: string)
    requires SingleLine(prefix) && SingleLine(value)
    ensures NoBreaks(Present(prefix, value))
  {
    SingleLineConcat(prefix, value);
  }

  lemma HeadNoBreaks(f: Fields)
    requires SingleLineFields(f)
    ensures NoBreaks([TextHeader, "Company: " + f.company, "Name: " + f.name, "Email: " + f.email])
  {
    SingleLineConcat("Company: ", f.company);
    SingleLineConcat("Name: ", f.name);
    SingleLineConcat("Email: ", f.email);
  }

  /** With single-line fields, no expected line holds a line break. */
  lemma ExpectedLinesNoBreaks(f: Fields, submittedAt: string)
    requires SingleLineFields(f) && SingleLine(submittedAt)
    ensures NoBreaks(ExpectedLines(f, submittedAt))
  {
    var head := [TextHeader, "Company: " + f.company, "Name: " + f.name, "Email: " + f.email];
    HeadNoBreaks(f);
    SingleLineConcat("Submitted at: ", submittedAt);
    PresentNoBreaks("Phone: ", f.phone);
    PresentNoBreaks("Primary service: ", f.primaryService);
    PresentNoBreaks("CRM: ", f.crm);
    PresentNoBreaks("Monthly lead volume: ", f.leadVolume);
    PresentNoBreaks("Message: ", f.message);
    var p1 := head + Present("Phone: ", f.phone);
    NoBreaksAppend(head, Present("Phone: ", f.phone));
    var p2 := p1 + Present("Primary service: ", f.primaryService);
    NoBreaksAppend(p1, Present("Primary service: ", f.primaryService));
    var p3 := p2 + Present("CRM: ", f.crm);
    NoBreaksAppend(p2, Present("CRM: ", f.crm));
    var p4 := p3 + Present("Monthly lead volume: ", f.leadVolume);
    NoBreaksAppend(p3, Present("Monthly lead volume: ", f.leadVolume));
    var p5 := p4 + Present("Message: ", f.message);
    NoBreaksAppend(p4, Present("Message: ", f.message));
    assert NoBreaks(["Submitted at: " + submittedAt]);
    NoBreaksAppend(p5, ["Submitted at: " + submittedAt]);
  }

  /**
   * When no field and not the timestamp holds a line break, the lines of the
   * text are exactly the expected lines.
   */
  lemma TextSplitsIntoLines(f: Fields, submittedAt: string)
    requires SingleLineFields(f) && SingleLine(submittedAt)
    ensures Split(Text(f, submittedAt), '\n') == ExpectedLines(f, submittedAt)
  {
    TextLinesInOrder(f, submittedAt);
    ExpectedLinesNoBreaks(f, submittedAt);
    SplitJoin(ExpectedLines(f, submittedAt), '\n');
  }

  /** No field of the form holds two line breaks in a row. */
  predicate NoBlankRunFields(f: Fields) {
    && NoBlankRun(f.company, '\n') && NoBlankRun(f.name, '\n') && NoBlankRun(f.email, '\n')
    && NoBlankRun(f.phone, '\n') && NoBlankRun(f.primaryService, '\n') && NoBlankRun(f.crm, '\n')
    && NoBlankRun(f.leadVolume, '\n') && NoBlankRun(f.message, '\n')
  }

  /** A value that neither holds two line breaks in a row nor ends with one. */
  predicate CleanValue(v: string) {
    NoBlankRun(v, '\n') && (v == [] || v[|v| - 1] != '\n')
  }

  predicate CleanFields(f: Fields) {
    && CleanValue(f.company) && CleanValue(f.name) && CleanValue(f.email) && CleanValue(f.phone)
    && CleanValue(f.primaryService) && CleanValue(f.crm) && CleanValue(f.leadVolume) && CleanValue(f.message)
  }

  /** A line label: non-empty and free of line breaks. */
  predicate Label(prefix: string) {
    prefix != [] && '\n' !in prefix
  }

  lemma RequiredLabels()
    ensures Label(TextHeader) && Label("Company: ") && Label("Name: ") && Label("Email: ")
  {
  }

  lemma OptionalLabels()
    ensures Label("Phone: ") && Label("Primary service: ") && Label("CRM: ")
    ensures Label("Monthly lead volume: ") && Label("Message: ") && Label("Submitted at: ")
  {
  }

  /** A trimmed field is clean once it holds no two line breaks in a row. */
  lemma TrimmedFieldsClean(f: Fields)
    requires NoBlankRunFields(f)
    requires && Trimmed(f.company) && Trimmed(f.name) && Trimmed(f.email) && Trimmed(f.phone)
             && Trimmed(f.primaryService) && Trimmed(f.crm) && Trimmed(f.leadVolume) && Trimmed(f.message)
    ensures CleanFields(f)
  {
  }

  /** A labelled line over a clean value is spaced. */
  lemma LabelledLineSpaced(prefix: string, value: string)
    requires Label(prefix) && CleanValue(value)
    ensures Spaced(prefix + value, '\n')
  {
    var s := prefix + value;
    forall i | 0 <= i < |s| - 1
      ensures !(s[i] == '\n' && s[i + 1] == '\n')
    {
      if i < |prefix| {
        assert s[i] == prefix[i];
      } else {
        assert s[i] == value[i - |prefix|] && s[i + 1] == value[i + 1 - |prefix|];
      }
    }
    if value != [] {
      assert s[|s| - 1] == value[|value| - 1];
    } else {
      assert s[|s| - 1] == prefix[|prefix| - 1];
    }
  }

  lemma PresentSpaced(prefix: string, value: string)
    requires Label(prefix) && CleanValue(value)
    ensures AllSpaced(Present(prefix, value), '\n')
  {
    if value != "" {
      LabelledLineSpaced(prefix, value);
    }
  }

  lemma HeadSpaced(f: Fields)
    requires CleanFields(f)
    ensures AllSpaced([TextHeader, "Company: " + f.company, "Name: " + f.name, "Email: " + f.email], '\n')
  {
    RequiredLabels();
    LabelledLineSpaced(TextHeader, "");
    assert TextHeader + "" == TextHeader;
    LabelledLineSpaced("Company: ", f.company);
    LabelledLineSpaced("Name: ", f.name);
    LabelledLineSpaced("Email: ", f.email);
  }

  /** Every expected line is non-empty and neither starts nor ends with a break, nor holds two in a row. */
  lemma ExpectedLinesSpaced(f: Fields, submittedAt: string)
    requires CleanFields(f) && CleanValue(submittedAt)
    ensures AllSpaced(ExpectedLines(f, submittedAt), '\n')
  {
    var head := [TextHeader, "Company: " + f.company, "Name: " + f.name, "Email: " + f.email];
    HeadSpaced(f);
    OptionalLabels();
    PresentSpaced("Phone: ", f.phone);
    PresentSpaced("Primary service: ", f.primaryService);
    PresentSpaced("CRM: ", f.crm);
    PresentSpaced("Monthly lead volume: ", f.leadVolume);
    PresentSpaced("Message: ", f.message);
    LabelledLineSpaced("Submitted at: ", submittedAt);
    var p1 := head + Present("Phone: ", f.phone);
    AllSpacedAppend(head, Present("Phone: ", f.phone), '\n');
    var p2 := p1 + Present("Primary service: ", f.primaryService);
    AllSpacedAppend(p1, Present("Primary service: ", f.primaryService), '\n');
    var p3 := p2 + Present("CRM: ", f.crm);
    AllSpacedAppend(p2, Present("CRM: ", f.crm), '\n');
    var p4 := p3 + Present("Monthly lead volume: ", f.leadVolume);
    AllSpacedAppend(p3, Present("Monthly lead volume: ", f.leadVolume), '\n');
    var p5 := p4 + Present("Message: ", f.message);
    AllSpacedAppend(p4, Present("Message: ", f.message), '\n');
    AllSpacedAppend(p5, ["Submitted at: " + submittedAt], '\n');
  }

  lemma TextSpaced(f: Fields, submittedAt: string)
    requires CleanFields(f) && CleanValue(submittedAt)
    ensures Spaced(Text(f, submittedAt), '\n')
  {
    TextLinesInOrder(f, submittedAt);
    ExpectedLinesSpaced(f, submittedAt);
    JoinSpaced(ExpectedLines(f, submittedAt), '\n');
  }

  /**
   * Splitting the text of a submitted form on `"\n"` gives no empty line,
   * as long as no field holds two line breaks in a row and the timestamp
   * neither holds two in a row nor ends with one. Single line breaks inside
   * a field, as in a multi-line message, are allowed.
   */
  lemma TextHasNoBlankLine(payload: map<string, string>, submittedAt: string)
    requires NoBlankRunFields(Normalize(payload))
    requires CleanValue(submittedAt)
    ensures forall line :: line in Split(Text(Normalize(payload), submittedAt), '\n') ==> line != ""
  {
    NormalizedFieldsTrimmed(payload);
    TrimmedFieldsClean(Normalize(payload));
    TextSpaced(Normalize(payload), submittedAt);
    SplitSpaced(Text(Normalize(payload), submittedAt), '\n');
  }

  /**
   * With only company, name and email filled in, the text has exactly their
   * three lines between the header and the submission time.
   */
  lemma RequiredOnlyText(f: Fields, submittedAt: string)
    requires f.phone == "" && f.primaryService == "" && f.crm == "" && f.leadVolume == "" && f.message == ""
    ensures TextLines(f, submittedAt)
         == [TextHeader, "Company: " + f.company, "Name: " + f.name, "Email: " + f.email, "Submitted at: " + submittedAt]
  {
    TextLinesInOrder(f, submittedAt);
  }

  /** Filling in a phone number adds exactly its line, right after the email line. */
  lemma PhoneLineText(f: Fields, phone: string, submittedAt: string)
    requires f.phone == "" && phone != ""
    ensures var lines, withPhone := TextLines(f, submittedAt), TextLines(f.(phone := phone), submittedAt);
      && |lines| >= 4
      && withPhone == lines[..4] + ["Phone: " + phone] + lines[4..]
  {
    var g := f.(phone := phone);
    TextLinesInOrder(f, submittedAt);
    TextLinesInOrder(g, submittedAt);
    var head := [TextHeader, "Company: " + f.company, "Name: " + f.name, "Email: " + f.email];
    var rest := Present("Primary service: ", f.primaryService) + Present("CRM: ", f.crm)
      + Present("Monthly lead volume: ", f.leadVolume) + Present("Message: ", f.message)
      + ["Submitted at: " + submittedAt];
    assert ExpectedLines(f, submittedAt) == head + rest;
    assert ExpectedLines(g, submittedAt) == head + ["Phone: " + phone] + rest;
    assert (head + rest)[..4] == head && (head + rest)[4..] == rest;
  }

  /** For example, Acme, Jo, jo@acme.com and nothing else. */
  lemma AcmeExampleText(submittedAt: string)
    ensures TextLines(Fields("Acme", "Jo", "jo@acme.com", "", "", "", "", ""), submittedAt)
         == [TextHeader, "Company: " + "Acme", "Name: " + "Jo", "Email: " + "jo@acme.com", "Submitted at: " + submittedAt]
  {
    RequiredOnlyText(Fields("Acme", "Jo", "jo@acme.com", "", "", "", "", ""), submittedAt);
  }
}
