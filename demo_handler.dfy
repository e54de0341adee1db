/**
 * The POST /api/demo handler: method dispatch, configuration check, body
 * acceptance, field normalisation, required-field validation, composition
 * of the notification email and the mapping of the provider's answer to
 * the HTTP response. The request, the environment, the submission time and
 * the outcome of the one provider call are parameters; the result is the
 * response together with the email the handler attempts to post, if it
 * gets that far.
 */
module DemoHandler {
  import opened Wrappers
  import opened JsString

  // ---------------------------------------------------------------------
  // Inputs

  /**
   * `req.body`. `NoBody` is `undefined`, `null` or another falsy non-string
   * body (`false`, `0`); an empty string body is `StringBody(ParseFailed)`,
   * since `JSON.parse("")` throws. An `ObjectBody` is one the host already
   * parsed; a `StringBody` is raw text and carries what `JSON.parse` makes
   * of it. Field values are the `String(...)` form of what the object
   * holds; falsy values are absent.
   */
  datatype Body =
    | NoBody
    | ObjectBody(fields: map<string, string>)
    | StringBody(parse: JsonParse)

  /**
   * The outcome of `JSON.parse` on a string body. A parsed value that is
   * not an object (`null`, a number, ...) has none of the form's keys, so it
   * is a `Parsed` with no fields.
   */
  datatype JsonParse = Parsed(fields: map<string, string>) | ParseFailed

  datatype Request = Request(httpMethod: string, body: Body)

  /** `process.env`: absent settings are `None`. */
  datatype Env = Env(resendApiKey: Option<string>, demoFromEmail: Option<string>, demoToEmail: Option<string>)

  /** The provider's response body after `resp.json()` succeeded. */
  datatype Json = JsonNull | JsonObject(fields: map<string, string>)

  /**
   * What the single `fetch` to the provider yields. `Responded` carries the
   * HTTP status and the parsed body (`None` when `resp.json()` rejected);
   * `Threw` carries the exception's `message` property and its `String(err)`.
   */
  datatype SendOutcome =
    | Responded(status: int, data: Option<Json>)
    | Threw(message: Option<string>, description: string)

  // ---------------------------------------------------------------------
  // Outputs

  /** The `missing` object: one flag per unset setting. */
  datatype Missing = Missing(resendApiKey: bool, demoFromEmail: bool, demoToEmail: bool)

  /** The JSON (or empty) body of a response. */
  datatype Payload =
    | NoContent
    | Failure(error: string)
    | ConfigFailure(error: string, missing: Missing)
    | RequiredFailure(error: string, required: seq<string>)
    | UpstreamFailure(error: string, status: int, details: Json)
    | SendFailure(error: string, message: string)
    | Delivered(id: Option<string>)   // `{ ok: true, id }`, `None` serialised as null

  datatype Response = Response(status: int, headers: seq<(string, string)>, payload: Payload)

  /** The JSON body posted to the provider. */
  datatype OutboundEmail = OutboundEmail(from: string, to: seq<string>, replyTo: string, subject: string, text: string)

  /** The trimmed form fields. */
  datatype Fields = Fields(
    company: string, name: string, email: string, phone: string,
    primaryService: string, crm: string, leadVolume: string, message: string)

  /** What one invocation does: the response, and the email handed to the provider call, if any. */
  datatype Outcome = Outcome(response: Response, sent: Option<OutboundEmail>)

  // ---------------------------------------------------------------------
  // Constants

  const CorsHeaders: seq<(string, string)> := [
    ("Access-Control-Allow-Origin", "*"),
    ("Access-Control-Allow-Methods", "POST, OPTIONS"),
    ("Access-Control-Allow-Headers", "Content-Type")]

  const MethodNotAllowedError := "Method Not Allowed"
  const MissingConfigError := "Missing server configuration"
  const InvalidJsonError := "Invalid JSON body"
  const MissingFieldsError := "Missing required fields"
  const RequiredFields := ["company", "name", "email"]
  const SendFailedError := "Resend send failed"
  const SendExceptionError := "Server error sending email"
  /** The TypeError V8 raises for `data.id` when `data` is `null`. */
  const NullIdTypeError := "Cannot read properties of null (reading 'id')"

  const SubjectPrefix := "Demo Request \U{2014} "
  const TextHeader := "New demo request received:"

  /** Every response carries the three CORS headers. */
  function Reply(status: int, payload: Payload): Response {
    Response(status, CorsHeaders, payload)
  }

  // ---------------------------------------------------------------------
  // Stages

  /** `!value` for an environment setting: absent or the empty string. */
  predicate Unset(value: Option<string>) {
    value.None? || value.value == ""
  }

  predicate ConfigComplete(env: Env) {
    !Unset(env.resendApiKey) && !Unset(env.demoFromEmail) && !Unset(env.demoToEmail)
  }

  /**
   * The object the form fields are read from, `body || {}` after a string
   * body went through `JSON.parse`; `None` when that parse threw.
   */
  function PayloadOf(body: Body): (p: Option<map<string, string>>)
    ensures p.None? <==> body == StringBody(ParseFailed)
    ensures body.NoBody? ==> p == Some(map[])
  {
    match body
    case NoBody => Some(map[])
    case ObjectBody(fields) => Some(fields)
    case StringBody(Parsed(fields)) => Some(fields)
    case StringBody(ParseFailed) => None
  }

  /** `payload[key] || ""` before `String(...)` and `.trim()`. */
  function Raw(payload: map<string, string>, key: string): string {
    if key in payload then payload[key] else ""
  }

  function Field(payload: map<string, string>, key: string): (v: string)
    ensures Trimmed(v)
    ensures v == "" <==> AllWhitespace(Raw(payload, key))
  {
    Trim(Raw(payload, key))
  }

  /** Each field is read from the key of the same name. */
  function Normalize(payload: map<string, string>): Fields {
    Fields(
      Field(payload, "company"), Field(payload, "name"), Field(payload, "email"),
      Field(payload, "phone"), Field(payload, "primaryService"), Field(payload, "crm"),
      Field(payload, "leadVolume"), Field(payload, "message"))
  }

  predicate HasRequired(f: Fields) {
    f.company != "" && f.name != "" && f.email != ""
  }

  /** `Demo Request — <company> (<name>)`. */
  function Subject(f: Fields): string {
    SubjectPrefix + f.company + " (" + f.name + ")"
  }

  /** `value ? prefix + value : null`. */
  function OptionalLine(prefix: string, value: string): Option<string> {
    if value != "" then Some(prefix + value) else None
  }

  /** The array literal of the text body, before `.filter(Boolean)`. */
  function TextEntries(f: Fields, submittedAt: string): seq<Option<string>> {
    [ Some(TextHeader),
      Some(""),
      Some("Company: " + f.company),
      Some("Name: " + f.name),
      Some("Email: " + f.email),
      OptionalLine("Phone: ", f.phone),
      OptionalLine("Primary service: ", f.primaryService),
      OptionalLine("CRM: ", f.crm),
      OptionalLine("Monthly lead volume: ", f.leadVolume),
      OptionalLine("Message: ", f.message),
      Some(""),
      Some("Submitted at: " + submittedAt) ]
  }

  /** The array after `.filter(Boolean)`. */
  function TextLines(f: Fields, submittedAt: string): seq<string> {
    FilterTruthy(TextEntries(f, submittedAt))
  }

  /** The lines joined by `"\n"`. */
  function Text(f: Fields, submittedAt: string): string {
    Join(TextLines(f, submittedAt), "\n")
  }

  /** The email posted to the provider: from the sender, to the one recipient, reply-to the requester. */
  function Outbound(env: Env, f: Fields, submittedAt: string): OutboundEmail
    requires ConfigComplete(env)
  {
    OutboundEmail(env.demoFromEmail.value, [env.demoToEmail.value], f.email, Subject(f), Text(f, submittedAt))
  }

  /** `data.id || null`. */
  function IdOf(fields: map<string, string>): (id: Option<string>)
    ensures id.Some? <==> "id" in fields && fields["id"] != ""
    ensures id.Some? ==> id.value == fields["id"] && id.value != ""
  {
    if "id" in fields && fields["id"] != "" then Some(fields["id"]) else None
  }

  /** The response built from what the provider call produced. */
  function MapOutcome(outcome: SendOutcome): (r: Response)
    ensures r.headers == CorsHeaders
    ensures r.status == 200 || r.status == 500
    ensures r.status == 200 <==> outcome.Responded? && 200 <= outcome.status <= 299 && outcome.data != Some(JsonNull)
  {
    match outcome
    case Responded(status, data) =>
      // `resp.json().catch(() => ({}))`
      var body := data.GetOr(JsonObject(map[]));
      if !(200 <= status <= 299) then
        Reply(500, UpstreamFailure(SendFailedError, status, body))
      else if body.JsonNull? then
        // `data.id` throws inside the try block
        Reply(500, SendFailure(SendExceptionError, NullIdTypeError))
      else
        Reply(200, Delivered(IdOf(body.fields)))
    case Threw(message, description) =>
      Reply(500, SendFailure(SendExceptionError, if Unset(message) then description else message.value))
  }

  /** The request gets as far as the provider call. */
  predicate Accepted(req: Request, env: Env) {
    && req.httpMethod == "POST"
    && ConfigComplete(env)
    && PayloadOf(req.body).Some?
    && HasRequired(Normalize(PayloadOf(req.body).value))
  }

  // ---------------------------------------------------------------------
  // The handler

  function Handle(req: Request, env: Env, submittedAt: string, outcome: SendOutcome): (o: Outcome)
    ensures o.response.headers == CorsHeaders
    ensures o.sent.Some? <==> Accepted(req, env)
    ensures o.sent.Some? ==> o.response == MapOutcome(outcome)
    ensures o.sent.None? ==> o.response.status in {204, 400, 405, 500}
  {
    if req.httpMethod == "OPTIONS" then
      Outcome(Reply(204, NoContent), None)
    else if req.httpMethod != "POST" then
      Outcome(Reply(405, Failure(MethodNotAllowedError)), None)
    else if !ConfigComplete(env) then
      var missing := Missing(Unset(env.resendApiKey), Unset(env.demoFromEmail), Unset(env.demoToEmail));
      Outcome(Reply(500, ConfigFailure(MissingConfigError, missing)), None)
    else
      match PayloadOf(req.body)
      case None =>
        Outcome(Reply(400, Failure(InvalidJsonError)), None)
      case Some(payload) =>
        var f := Normalize(payload);
        if !HasRequired(f) then
          Outcome(Reply(400, RequiredFailure(MissingFieldsError, RequiredFields)), None)
        else
          Outcome(MapOutcome(outcome), Some(Outbound(env, f, submittedAt)))
  }
}
