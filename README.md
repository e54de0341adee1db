# Demo-request endpoint, modelled in Dafny

The repository's one serverless function, `POST /api/demo`, takes a
demo-request form (company, name, email, phone, primary service, CRM, monthly
lead volume, message), checks it and relays it as a plain-text email through
the Resend transactional email API. This project models that handler as a
pure function and proves what it promises.

`DemoHandler.Handle(req, env, submittedAt, outcome)` runs the handler's
pipeline in source order, with an early return at the first failing step:

1. method dispatch: `OPTIONS` gets 204 with no body, any method but `POST`
   gets 405;
2. configuration: `RESEND_API_KEY`, `DEMO_FROM_EMAIL` and `DEMO_TO_EMAIL` must
   all be set and non-empty, or the answer is 500 with a `missing` object of
   three flags;
3. body: a string body goes through `JSON.parse` (failure: 400), an absent body
   becomes `{}`;
4. fields: each of the eight fields is read with `|| ""` and trimmed;
5. validation: an empty company, name or email gives 400 naming those three;
6. composition: the subject `Demo Request — <company> (<name>)` and the text
   body, built as a twelve-entry array of strings and nulls that goes through
   `.filter(Boolean)` and `.join("\n")`;
7. the outbound email `{from, to: [to], reply_to, subject, text}`;
8. the provider's answer mapped to 200 `{ok: true, id}` or a 500.

It returns an `Outcome`: the `Response` (status, headers, payload) and the
`OutboundEmail` the handler attempts to post, if it gets that far. Whether the
email actually leaves depends on the `fetch` (it may reject before anything is
sent), so "nothing is posted on an early exit" is a statement about the second
half of the result, and a `sent` email is one handed to the provider call. The inputs the handler
takes from its environment are parameters: the request method and body, the
three settings as `Option<string>`, the submission timestamp as an opaque
string, and the result of the single `fetch` (`SendOutcome`).

The JavaScript built-ins the handler depends on are in module `JsString`:
`trim` (over ECMAScript's white-space and line-terminator characters),
`filter(Boolean)` on an array of strings and nulls, `join`, and `split` on one
character, which is the inverse used to say what the lines of the text are.

Two consequences of the code are worth pointing out.

- `.filter(Boolean)` drops the two `""` separator entries of the array as well
  as the nulls. The composed text therefore has no blank line between the
  header and the fields, or before the timestamp.
  `DemoProperties.TextLinesInOrder` states the surviving lines exactly.
  `DemoProperties.TextHasNoBlankLine` proves that splitting the text on line
  breaks gives no empty line, as long as no field holds two line breaks in a
  row; single line breaks, as in a multi-line message, are allowed.
- A provider response with a 2xx status whose body parses to JSON `null` makes
  `data.id` throw inside the `try`. The email has gone out, but the caller gets
  500 "Server error sending email". `MapOutcome` models this with V8's message
  for that TypeError.

What the handler does not do:

- it does not log the submission;
- it never requires the phone field;
- it has no default sender or recipient address;
- it does not succeed silently without an API key: a missing key is a 500.

Files:

- `wrappers.dfy`: `Option`.
- `js_string.dfy`: trim, filter, join, split and their lemmas.
- `demo_handler.dfy`: the data model and the pipeline.
- `demo_properties.dfy`: the handler's properties.

## Model

| member | source | states |
|---|---|---|
| `DemoHandler.Handle` | api/demo.js:5-112 | every response carries the three CORS headers; an email is handed to the provider call exactly when the method is POST, the configuration is complete, the body parses and company, name and email are non-empty; when one is, the response is the mapped provider outcome; otherwise the status is 204, 400, 405 or 500 |
| `DemoProperties.PreflightNoContent` | api/demo.js:11-13 | OPTIONS gives 204 with the CORS headers, no body and no email |
| `DemoProperties.OtherMethodRejected` | api/demo.js:15-17 | any method other than POST and OPTIONS gives 405 `{error: "Method Not Allowed"}` and no email |
| `DemoProperties.MissingConfigRejected` | api/demo.js:19-32 | a POST with any setting absent or empty gives 500 "Missing server configuration" whose three flags are exactly "this setting is unset", and no email, whatever the body |
| `DemoProperties.ConfigCheckedBeforeBody` | api/demo.js:23-41 | with incomplete configuration the outcome of a POST does not depend on the body (an invalid JSON body gets the 500, not the 400), the time or the provider |
| `DemoHandler.PayloadOf` | api/demo.js:34-41 | the payload is missing exactly when the body is a string that fails to parse; an absent body is the empty object |
| `DemoProperties.PayloadIsBody` | api/demo.js:34-41 | a pre-parsed object body, and a string body that parses, each give their own fields as the payload |
| `DemoProperties.InvalidJsonRejected` | api/demo.js:34-39 | a string body that fails to parse gives 400 "Invalid JSON body" and no email |
| `DemoProperties.AbsentBodyIsEmptyObject` | api/demo.js:41-57 | an absent body behaves as `{}` and so gets 400 "Missing required fields" with no email |
| `DemoHandler.Field` | api/demo.js:43-50 | a field is trimmed, and it is empty exactly when the raw value is absent, empty or only whitespace |
| `DemoProperties.NormalizedFromKeys` | api/demo.js:43-50 | `Normalize`: each of the eight fields is the trimmed value of the payload key of the same name: company, name, email, phone, primaryService, crm, leadVolume, message |
| `DemoProperties.NormalizedFieldsTrimmed` | api/demo.js:43-50 | none of the eight normalised fields starts or ends with whitespace |
| `DemoProperties.BlankRequiredField` | api/demo.js:43-52 | a blank company, name or email fails the required-field test |
| `DemoProperties.RequiredCheckFails` | api/demo.js:52-57 | a parsed POST with complete configuration that fails the required-field test gets 400 with `required = ["company","name","email"]` and no email |
| `DemoProperties.MissingRequiredRejected` | api/demo.js:52-57 | a company, name or email that is absent, empty or whitespace-only gives 400 with `required = ["company","name","email"]` and no email |
| `DemoProperties.RequiredFieldsPresent` | api/demo.js:43-52 | non-blank company, name and email pass the required-field test |
| `DemoProperties.AcceptedPosts` | api/demo.js:52-92 | a request that passes every check hands exactly one email, built from its normalised fields, to the provider call, and gets the mapped provider outcome |
| `DemoProperties.AcceptedSendsOne` | api/demo.js:43-92 | when company, name and email are not blank, exactly one email is handed to the provider call, whatever the optional fields hold: from the configured sender, to the single configured recipient, reply-to the trimmed `email` key, subject `Demo Request — company (name)` on the trimmed `company` and `name` keys, and text whose lines are the expected lines over the trimmed values of the eight keys, each read from the key of its own name; the response is the mapped provider outcome |
| `DemoProperties.SubjectParts` | api/demo.js:59 | `Subject`: the subject is `Demo Request — ` followed by the company, then a space and the name in parentheses, and nothing else |
| `DemoProperties.OutboundAddresses` | api/demo.js:85-91 | `Outbound`: the email goes from the configured sender to a one-element recipient list holding the configured recipient, both non-empty, with reply-to the requester's email and the composed subject and text |
| `DemoProperties.NoSendIgnoresOutcome` | api/demo.js:11-57 | when nothing is sent, neither the provider outcome nor the timestamp affects the response |
| `DemoHandler.MapOutcome` | api/demo.js:94-110 | the result is always 200 or 500 with the CORS headers, and 200 exactly when the provider answered 2xx with a body that is not JSON null |
| `DemoHandler.IdOf` | api/demo.js:104 | `data.id \|\| null`: the id is present exactly when the body has a non-empty `id`, and it is that value |
| `DemoProperties.UpstreamFailureMapped` | api/demo.js:94-102 | a non-2xx provider status gives 500 "Resend send failed" with that status and the body as `resp.json()` gave it (in the abstraction below), or `{}` when the body does not parse |
| `DemoProperties.DeliveredMapped` | api/demo.js:94-104 | a 2xx answer whose body is not JSON null gives 200 `{ok: true, id}` with the provider's id when present and non-empty, null otherwise (also when the body does not parse) |
| `DemoProperties.NullBodyFails` | api/demo.js:104-110 | a 2xx answer whose body is JSON null gives 500 "Server error sending email" with the TypeError that `data.id` raises |
| `DemoProperties.AcceptedNullBodyFails` | api/demo.js:78-110 | on an accepted request the email is handed to the provider, and a 2xx answer with a JSON null body still gets that 500 |
| `DemoProperties.ExceptionMapped` | api/demo.js:106-110 | an exception gives 500 "Server error sending email" with the exception's message, or its string form when the message is missing or empty |
| `DemoProperties.DeliveredIdEchoed` | api/demo.js:104 | a 200 answer `{id: "abc123"}` gives `{ok: true, id: "abc123"}` |
| `DemoProperties.TextEntriesShape` | api/demo.js:61-74 | `TextEntries`: the array literal has twelve entries: the header first, the timestamp line last, `""` second and second to last, and each optional entry null exactly when its field is empty |
| `DemoProperties.TextLinesShape` | api/demo.js:61-75 | `TextLines`: after `.filter(Boolean)` there are between five and twelve lines, none empty, the header first |
| `DemoProperties.TextLinesInOrder` | api/demo.js:61-76 | after `.filter(Boolean)` the lines are the header, Company, Name, Email, then Phone, Primary service, CRM, Monthly lead volume and Message, each present exactly when its field is non-empty, then `Submitted at: <timestamp>`; both `""` separators are gone |
| `DemoProperties.SubmittedText` | api/demo.js:43-76 | `Text`: the text of a submitted object is the expected lines over the trimmed values of its eight keys, joined by `"\n"` |
| `DemoProperties.TextLineCount` | api/demo.js:61-76 | the text has five lines plus one per non-empty optional field |
| `DemoProperties.TextEnds` | api/demo.js:61-76 | the text starts with the header line and ends with `Submitted at: <timestamp>` |
| `DemoProperties.TextSplitsIntoLines` | api/demo.js:61-76 | when no field and not the timestamp contains a line break, splitting the text on `"\n"` gives exactly the expected lines |
| `DemoProperties.TextSpaced` | api/demo.js:61-76 | when no field holds two line breaks in a row and the timestamp neither does nor ends with one, the text is non-empty, neither starts nor ends with a line break and never holds two in a row |
| `DemoProperties.TextHasNoBlankLine` | api/demo.js:43-76 | for any submitted object whose trimmed fields hold no two line breaks in a row, and a timestamp that neither does nor ends with one, splitting the text on `"\n"` gives no empty line |
| `DemoProperties.RequiredOnlyText` | api/demo.js:61-76 | for any form with all five optional fields empty, the text is exactly the header, the Company, Name and Email lines and the timestamp line |
| `DemoProperties.PhoneLineText` | api/demo.js:61-76 | for any form with an empty phone, filling in a phone inserts exactly one `Phone:` line right after the Email line and changes nothing else |
| `DemoProperties.AcmeExampleText` | api/demo.js:61-76 | for the example Acme / Jo / jo@acme.com with nothing else, the text is the header, those three lines and the timestamp line |
| `JsString.TrimStart` | api/demo.js:43-50 | the result is a suffix of the input, the part that is cut is all whitespace, and the result does not start with whitespace |
| `JsString.TrimEnd` | api/demo.js:43-50 | the result is a prefix of the input, the part that is cut is all whitespace, and the result does not end with whitespace |
| `JsString.Trim` | api/demo.js:43-50 | the result has no whitespace at either end, and it is empty exactly when the input is all whitespace |
| `JsString.TrimSplits` | api/demo.js:43-50 | the input is whitespace, the trimmed string and whitespace, in that order |
| `JsString.TrimUnique` | api/demo.js:43-50 | any split of the input into whitespace, a string with no whitespace at either end, and whitespace has the trimmed string as its middle |
| `JsString.TrimIdempotent` | api/demo.js:43-50 | trimming twice gives the same result as trimming once |
| `JsString.FilterTruthy` | api/demo.js:75 | `filter(Boolean)` keeps no empty string and never grows the array |
| `JsString.FilterTruthyMembers` | api/demo.js:75 | a string is kept exactly when it is non-empty and occurs in the array |
| `JsString.FilterTruthyAppend` | api/demo.js:75 | filtering a concatenation gives the concatenation of the filtered parts, which is what keeps the order |
| `JsString.JoinEnds` | api/demo.js:76 | `Join`: a joined string starts with the first part and ends with the last |
| `JsString.JoinSplit` | api/demo.js:76 | joining the split of any string with the separator gives the string back |
| `JsString.SplitJoin` | api/demo.js:76 | `Join` and `Split`: splitting a join of separator-free parts gives exactly those parts back |
| `JsString.JoinSpaced` | api/demo.js:76 | joining parts that are non-empty, neither start nor end with the separator and never hold it twice in a row gives a string with the same property |
| `JsString.SplitSpaced` | api/demo.js:76 | splitting such a string on the separator gives no empty part |

## Left out

- The `fetch` to `https://api.resend.com/emails` is left out. So are its `Authorization: Bearer` header, the `JSON.stringify` of the request and `resp.json()`. They are network and foreign calls, so the model takes `SendOutcome` as a parameter: the HTTP status with the parsed body, or the thrown exception's `message` and `String(err)`. `resp.ok` is a status in 200..299.
- The API key is only used in the `Authorization` header, so it appears only in the configuration check.
- `JSON.parse` is an abstract result: either the fields of the parsed value or a parse failure. A parsed value that is not an object (`null`, a number, an array) has none of the form's keys and is given as no fields. No JSON parser is modelled. `NoBody` is `undefined`, `null` or another falsy non-string body (`false`, `0`); an empty string body is `StringBody(ParseFailed)`, because `JSON.parse("")` throws and the handler answers 400 "Invalid JSON body".
- `new Date().toISOString()` is the opaque `submittedAt` parameter. ISO-8601 formatting is not modelled.
- `process.env` is the `Env` parameter, with `Option<string>` settings.
- The `res` object's `setHeader`, `status`, `json` and `end` are not modelled. A `Response` value carries the status, the three CORS headers from lines 7-9 and the payload as a datatype. JSON serialisation of the payload is not modelled.
- `String(x || "")` on arbitrary JavaScript values is not modelled. Field values are given as their `String()` form, and any falsy value (`undefined`, `null`, `false`, `0`, `""`) is an absent key, which becomes `""`.
- Strings hold Unicode scalar values, not UTF-16 code units. `IsWhitespace` lists ECMAScript's WhiteSpace and LineTerminator characters with the Zs category as of current Unicode.
- The wording of the TypeError for `data.id` on a `null` body is V8's. Other engines word it differently.
- The handler's single `await` and the host's request concurrency are not modelled. Each call is independent, so the model takes one call at a time.
- Submission logging, a required phone field and default addresses are not part of this handler and not part of this model.
- TextHasNoBlankLine: it assumes that no trimmed field holds two line breaks in a row and that the timestamp neither holds two in a row nor ends with one. `trim` only cuts the ends, so a message with an internal blank line keeps it in the text. Without that assumption the model proves that every entry kept by `filter(Boolean)` is non-empty (`JsString.FilterTruthy`) and that the two separators are gone (`DemoProperties.TextLinesInOrder`).
- TextSplitsIntoLines: it assumes that no field and not the timestamp contains a line break, because only then are the split lines exactly the expected lines.
- The provider's response body is abstracted as `Json`: either JSON `null` or an object whose fields are the `String()` forms of its truthy values, keyed by name. `resp.json()` can also give a number, a string, an array or a boolean, and an object may hold numbers (`statusCode: 422`), booleans or nested values. `details: data` passes all of these on unchanged, but the model carries only this abstraction. A falsy `id` (`0`, `false`, `""`) is an absent key, which is what `data.id || null` makes of it.
