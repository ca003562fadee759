/** The contact endpoint (app/api/contact/route.ts): it validates a
    submission, builds one request to the Resend e-mail API, and maps that
    API's reply, or anything thrown on the way, to exactly one JSON
    response.

    The network call is not performed here: `Post` returns the request it
    would send (or `None` when it sends nothing) and takes the provider's
    reply as an input. */
module ContactRoute {
  import opened JsValues
  import opened EmailFormat

  // Fallbacks for unset or empty environment variables.
  const DefaultApiKey := "YOUR_RESEND_API_KEY"
  const DefaultFromEmail := "onboarding@resend.dev"
  const DefaultToEmail := "contact@jamesphillipmayor.com"

  const ProviderEndpoint := "https://api.resend.com/emails"
  const SubjectPrefix := "Portfolio Contact Form: "

  // Texts of the endpoint's responses.
  const FieldsRequired := "All fields are required"
  const InvalidEmailFormat := "Invalid email format"
  const SendFailed := "Failed to send email. Please try again later."
  const SentSuccessfully := "Email sent successfully"
  const UnexpectedError := "An unexpected error occurred"

  // The HTML body's fixed fragments around the three submitted values.
  const HtmlHead := "\n          <div style=\"font-family: Arial, sans-serif; max-width: 600px; margin: 0 auto;\">\n            <h2 style=\"color: #7c3aed;\">New Contact Form Submission</h2>\n            <div style=\"background: #f5f5f5; padding: 20px; border-radius: 8px; margin: 20px 0;\">\n              <p><strong>Name:</strong> "
  const HtmlAfterName := "</p>\n              <p><strong>Email:</strong> "
  const HtmlAfterEmail := "</p>\n              <p><strong>Message:</strong></p>\n              <p style=\"white-space: pre-wrap; margin-top: 10px;\">"
  const HtmlTail := "</p>\n            </div>\n          </div>\n        "

  /** The three environment variables read when the module loads; `None`
      when a variable is unset. */
  datatype Environment = Environment(apiKey: Option<string>, fromEmail: Option<string>, toEmail: Option<string>)

  /** The values the endpoint works with after the fallbacks. */
  datatype Config = Config(apiKey: string, fromEmail: string, toEmail: string)

  /** A request body's `name`, `email` and `message` properties; `None`
      when a property is absent. */
  datatype Submission = Submission(name: Option<string>, email: Option<string>, message: Option<string>)

  /** The request body: parsed, or what `request.json()` or the
      destructuring of its result threw. */
  datatype RequestBody = Parsed(fields: Submission) | Unreadable(thrown: Thrown)

  /** The request sent to the provider: the bearer header and the JSON body. */
  datatype EmailRequest = EmailRequest(
    endpoint: string,
    authorization: string,
    from: string,
    to: seq<string>,
    replyTo: string,
    subject: string,
    html: string)

  /** The properties of the provider's JSON reply that the endpoint reads. */
  datatype ProviderJson = ProviderJson(id: Option<string>, message: Option<string>)

  /** The provider's reply body: JSON, or the message of the `SyntaxError`
      that parsing it raised. */
  datatype ReplyBody = Json(json: ProviderJson) | NotJson(parseError: string)

  /** What the single provider call yields: a response with its HTTP
      status, or what `fetch` threw. */
  datatype ProviderReply = Responded(status: int, body: ReplyBody) | CallFailed(thrown: Thrown)

  /** The endpoint's JSON bodies: `{error}` or `{message, id}`; an absent
      `id` is left out of the JSON. */
  datatype ResponseBody = ErrorJson(error: string) | SentJson(message: string, id: Option<string>)

  datatype Response = Response(status: int, body: ResponseBody)

  /** `Response.ok` of the Fetch standard: a status in 200..299. */
  predicate IsOkStatus(status: int)
  {
    200 <= status <= 299
  }

  /** A caller that reads only the status (as `response.ok`) learns the
      same as one that reads the body. */
  predicate StatusMatchesBody(r: Response)
  {
    IsOkStatus(r.status) <==> r.body.SentJson?
  }

  /** `process.env.X || default` for each of the three variables. */
  function ConfigFrom(env: Environment): (c: Config)
    ensures c.apiKey != "" && c.fromEmail != "" && c.toEmail != ""
    ensures Truthy(env.apiKey) ==> c.apiKey == env.apiKey.value
    ensures Truthy(env.fromEmail) ==> c.fromEmail == env.fromEmail.value
    ensures Truthy(env.toEmail) ==> c.toEmail == env.toEmail.value
    ensures !Truthy(env.apiKey) ==> c.apiKey == DefaultApiKey
    ensures !Truthy(env.fromEmail) ==> c.fromEmail == DefaultFromEmail
    ensures !Truthy(env.toEmail) ==> c.toEmail == DefaultToEmail
  {
    Config(
      OrElse(env.apiKey, DefaultApiKey),
      OrElse(env.fromEmail, DefaultFromEmail),
      OrElse(env.toEmail, DefaultToEmail))
  }

  /** `!name || !email || !message` negated: every field is present and
      non-empty. Whitespace-only values pass. */
  predicate AllPresent(s: Submission)
  {
    Truthy(s.name) && Truthy(s.email) && Truthy(s.message)
  }

  /** The two checks in their order; `None` when the submission passes,
      else the error text of the first check that fails. */
  function Validate(s: Submission): (r: Option<string>)
    ensures r.None? ==> AllPresent(s) && IsValidEmail(s.email.value)
    ensures r.Some? ==> r.value in {FieldsRequired, InvalidEmailFormat}
  {
    if !AllPresent(s) then Some(FieldsRequired)
    else if !IsValidEmail(s.email.value) then Some(InvalidEmailFormat)
    else None
  }

  /** A string occurs in `text` unchanged. */
  ghost predicate Embeds(text: string, part: string)
  {
    exists before, after :: text == before + part + after
  }

  /** Each value substituted into a template occurs in the result
      unchanged, and the result begins and ends with the template's fixed
      head and tail. */
  lemma TemplateEmbeds(t0: string, x: string, t1: string, y: string, t2: string, z: string, t3: string)
    ensures var text := t0 + x + t1 + y + t2 + z + t3;
            && Embeds(text, x) && Embeds(text, y) && Embeds(text, z)
            && text[..|t0|] == t0 && text[|text| - |t3|..] == t3
  {
    var text := t0 + x + t1 + y + t2 + z + t3;
    assert text == t0 + x + (t1 + y + t2 + z + t3);
    assert text == (t0 + x + t1) + y + (t2 + z + t3);
    assert text == (t0 + x + t1 + y + t2) + z + t3;
  }

  /** The e-mail's HTML: the fixed template with name, address and message
      inserted verbatim, without escaping. */
  function HtmlBody(name: string, email: string, message: string): (html: string)
    ensures Embeds(html, name) && Embeds(html, email) && Embeds(html, message)
    ensures |html| >= |HtmlHead| + |HtmlTail|
    ensures html[..|HtmlHead|] == HtmlHead && html[|html| - |HtmlTail|..] == HtmlTail
  {
    TemplateEmbeds(HtmlHead, name, HtmlAfterName, email, HtmlAfterEmail, message, HtmlTail);
    HtmlHead + name + HtmlAfterName + email + HtmlAfterEmail + message + HtmlTail
  }

  /** The provider request for a validated submission. */
  function BuildEmailRequest(c: Config, name: string, email: string, message: string): (r: EmailRequest)
    ensures r.endpoint == ProviderEndpoint
    ensures r.authorization == "Bearer " + c.apiKey
    ensures r.from == c.fromEmail && r.to == [c.toEmail]
    ensures r.replyTo == email
    ensures r.subject == SubjectPrefix + name && r.subject[|SubjectPrefix|..] == name
    ensures Embeds(r.html, name) && Embeds(r.html, email) && Embeds(r.html, message)
  {
    var html := HtmlBody(name, email, message);
    EmailRequest(ProviderEndpoint, "Bearer " + c.apiKey, c.fromEmail, [c.toEmail], email, SubjectPrefix + name, html)
  }

  /** The error text for a rejected send: the reply's truthy `message`,
      else the generic text (also when the body is not JSON). */
  function RejectionText(body: ReplyBody): (r: string)
    ensures r != ""
    ensures body.Json? && Truthy(body.json.message) ==> r == body.json.message.value
    ensures !(body.Json? && Truthy(body.json.message)) ==> r == SendFailed
  {
    match body
    case Json(j) => OrElse(j.message, SendFailed)
    case NotJson(_) => SendFailed
  }

  /** The response for the provider's reply to a sent request. */
  function ReplyResponse(reply: ProviderReply): (r: Response)
    ensures StatusMatchesBody(r)
    ensures r.body.SentJson? <==> reply.Responded? && IsOkStatus(reply.status) && reply.body.Json?
    ensures r.body.SentJson? ==> r == Response(200, SentJson(SentSuccessfully, reply.body.json.id))
    ensures reply.Responded? && !IsOkStatus(reply.status) ==>
              r == Response(if reply.status == 0 then 500 else reply.status, ErrorJson(RejectionText(reply.body)))
    ensures reply.Responded? && IsOkStatus(reply.status) && reply.body.NotJson? ==>
              r == Response(500, ErrorJson(reply.body.parseError))
    ensures reply.CallFailed? ==> r == Response(500, ErrorJson(CaughtText(reply.thrown, UnexpectedError)))
  {
    match reply
    case CallFailed(e) => Response(500, ErrorJson(CaughtText(e, UnexpectedError)))
    case Responded(status, body) =>
      if !IsOkStatus(status) then
        Response(if status == 0 then 500 else status, ErrorJson(RejectionText(body)))
      else
        match body
        case NotJson(e) => Response(500, ErrorJson(e))
        case Json(j) => Response(200, SentJson(SentSuccessfully, j.id))
  }

  /** The POST handler: read the body, check presence, then the e-mail
      shape, then send once and map the reply. Returns the response and
      the provider request, `None` when no request was sent. */
  method Post(c: Config, request: RequestBody, reply: ProviderReply)
    returns (response: Response, sent: Option<EmailRequest>)
    ensures StatusMatchesBody(response)
    ensures request.Unreadable? ==>
              sent == None && response == Response(500, ErrorJson(CaughtText(request.thrown, UnexpectedError)))
    ensures request.Parsed? && Validate(request.fields).Some? ==>
              sent == None && response == Response(400, ErrorJson(Validate(request.fields).value))
    ensures request.Parsed? && Validate(request.fields).None? ==>
              && sent == Some(BuildEmailRequest(c, request.fields.name.value, request.fields.email.value, request.fields.message.value))
              && response == ReplyResponse(reply)
  {
    sent := None;
    if request.Unreadable? {
      var text := if request.thrown.ErrorInstance? then request.thrown.message else UnexpectedError;
      return Response(500, ErrorJson(text)), sent;
    }
    var fields := request.fields;
    if !Truthy(fields.name) || !Truthy(fields.email) || !Truthy(fields.message) {
      return Response(400, ErrorJson(FieldsRequired)), sent;
    }
    var name, email, message := fields.name.value, fields.email.value, fields.message.value;
    if !IsValidEmail(email) {
      return Response(400, ErrorJson(InvalidEmailFormat)), sent;
    }
    sent := Some(BuildEmailRequest(c, name, email, message));
    match reply {
      case CallFailed(e) =>
        var text := if e.ErrorInstance? then e.message else UnexpectedError;
        response := Response(500, ErrorJson(text));
      case Responded(status, body) =>
        if !IsOkStatus(status) {
          var errorMessage := SendFailed;
          if body.Json? && Truthy(body.json.message) {
            errorMessage := body.json.message.value;
          }
          var code := if status == 0 then 500 else status;
          response := Response(code, ErrorJson(errorMessage));
        } else if body.NotJson? {
          response := Response(500, ErrorJson(body.parseError));
        } else {
          response := Response(200, SentJson(SentSuccessfully, body.json.id));
        }
    }
  }

  /** Presence is checked before shape: a submission that fails both
      checks gets the presence error, and whitespace-only values pass the
      presence check. */
  lemma PresenceCheckedFirst(s: Submission)
    ensures !AllPresent(s) ==> Validate(s) == Some(FieldsRequired)
  {
  }

  /** The presence check does not trim: a non-empty address made only of
      whitespace passes it and is refused by the shape check instead. */
  lemma WhitespaceAddressReachesShapeCheck(s: Submission)
    requires Truthy(s.name) && Truthy(s.email) && Truthy(s.message)
    requires forall k :: 0 <= k < |s.email.value| ==> IsSpace(s.email.value[k])
    ensures Validate(s) == Some(InvalidEmailFormat)
  {
  }

  /** Whitespace-only names and messages pass: with a well-shaped address,
      a submission whose name and message are only whitespace is sent. */
  lemma WhitespaceNameAndMessageAccepted(s: Submission)
    requires Truthy(s.name) && Truthy(s.message) && Truthy(s.email) && IsValidEmail(s.email.value)
    requires forall k :: 0 <= k < |s.name.value| ==> IsSpace(s.name.value[k])
    requires forall k :: 0 <= k < |s.message.value| ==> IsSpace(s.message.value[k])
    ensures Validate(s) == None
  {
  }

  /** For a submission whose fields are all present, validation passes
      exactly when the address is in the language of the regular
      expression. */
  lemma ValidateMatchesPattern(s: Submission)
    requires AllPresent(s)
    ensures Validate(s).None? <==> MatchesPattern(s.email.value)
    ensures Validate(s).Some? ==> Validate(s).value == InvalidEmailFormat
  {
    PatternAgreement(s.email.value);
  }
}
