/** The contact form's client state (components/Contact.tsx): the three
    field values and a status that goes idle -> loading -> success | error.

    `handleSubmit` awaits the endpoint's reply, so it is modelled as two
    methods: `StartSubmit` (everything before the `await`) and
    `CompleteSubmit` (everything after it, given the reply). */
module ContactForm {
  import opened JsValues
  import ContactRoute

  const SendingText := "Sending message..."
  const SuccessText := "Message sent successfully! I'll get back to you soon."
  const FailureFallback := "Failed to send message"
  const NonErrorFailure := "Failed to send message. Please try again later."

  /** The inputs' `name` attributes. */
  datatype Field = Name | Email | Message

  datatype FormData = FormData(name: string, email: string, message: string)

  const EmptyForm := FormData("", "", "")

  datatype StatusKind = Idle | Loading | Success | Failed

  datatype FormStatus = FormStatus(kind: StatusKind, message: string)

  /** The `error` property of the endpoint's JSON reply. */
  datatype ReplyJson = ReplyJson(error: Option<string>)

  /** `response.json()`: the parsed body, or what parsing threw. */
  datatype ReplyData = Json(json: ReplyJson) | Unparsed(thrown: Thrown)

  /** The endpoint's reply with its HTTP status, or what `fetch` threw. */
  datatype SubmitReply = Received(status: int, data: ReplyData) | FetchFailed(thrown: Thrown)

  function Get(d: FormData, f: Field): string
  {
    match f
    case Name => d.name
    case Email => d.email
    case Message => d.message
  }

  /** `{...formData, [name]: value}`: the named field takes the value and
      the other two keep theirs. */
  function WithField(d: FormData, f: Field, value: string): (r: FormData)
    ensures Get(r, f) == value
    ensures forall g :: g != f ==> Get(r, g) == Get(d, g)
  {
    match f
    case Name => d.(name := value)
    case Email => d.(email := value)
    case Message => d.(message := value)
  }

  /** The status after the reply: success exactly when the reply is ok
      and its body parsed; otherwise an error carrying the reply's truthy
      `error`, the fallback text, or the thrown error's message. */
  function Outcome(reply: SubmitReply): (s: FormStatus)
    ensures s.kind == Success || s.kind == Failed
    ensures s.kind == Success <==>
              reply.Received? && ContactRoute.IsOkStatus(reply.status) && reply.data.Json?
    ensures s.kind == Success ==> s.message == SuccessText
    ensures reply.Received? && !ContactRoute.IsOkStatus(reply.status) && reply.data.Json? ==>
              s == FormStatus(Failed, OrElse(reply.data.json.error, FailureFallback))
    ensures reply.Received? && reply.data.Unparsed? ==>
              s == FormStatus(Failed, CaughtText(reply.data.thrown, NonErrorFailure))
    ensures reply.FetchFailed? ==> s == FormStatus(Failed, CaughtText(reply.thrown, NonErrorFailure))
  {
    match reply
    case FetchFailed(e) => FormStatus(Failed, CaughtText(e, NonErrorFailure))
    case Received(status, data) =>
      match data
      case Unparsed(e) => FormStatus(Failed, CaughtText(e, NonErrorFailure))
      case Json(j) =>
        if ContactRoute.IsOkStatus(status) then FormStatus(Success, SuccessText)
        // `throw new Error(text)` is caught at once, so the error's message is `text`.
        else FormStatus(Failed, CaughtText(ErrorInstance(OrElse(j.error, FailureFallback)), NonErrorFailure))
  }

  /** The submit button's `disabled`. */
  predicate SubmitDisabled(s: FormStatus): (disabled: bool)
    ensures disabled ==> BannerShown(s)
    ensures disabled <==> !(s.kind == Idle || s.kind == Success || s.kind == Failed)
  {
    s.kind == Loading
  }

  /** Whether the status banner is rendered. */
  predicate BannerShown(s: FormStatus): (shown: bool)
    ensures shown <==> s.kind == Loading || s.kind == Success || s.kind == Failed
  {
    s.kind != Idle
  }

  /** Once the reply is handled, the button is enabled again and the
      banner is shown. */
  lemma OutcomeIndicators(reply: SubmitReply)
    ensures !SubmitDisabled(Outcome(reply)) && BannerShown(Outcome(reply))
  {
  }

  class ContactFormState {
    var formData: FormData
    var formStatus: FormStatus

    constructor ()
      ensures formData == EmptyForm && formStatus == FormStatus(Idle, "")
      ensures !SubmitDisabled(formStatus) && !BannerShown(formStatus)
    {
      formData := EmptyForm;
      formStatus := FormStatus(Idle, "");
    }

    /** `handleChange`: one input changed. */
    method HandleChange(f: Field, value: string)
      modifies this
      ensures formData == WithField(old(formData), f, value)
      ensures formStatus == old(formStatus)
    {
      match f {
        case Name => formData := FormData(value, formData.email, formData.message);
        case Email => formData := FormData(formData.name, value, formData.message);
        case Message => formData := FormData(formData.name, formData.email, value);
      }
    }

    /** `handleSubmit` up to the `await`: show the loading status and send
        the current field values, which are returned. */
    method StartSubmit() returns (payload: FormData)
      modifies this
      ensures formStatus == FormStatus(Loading, SendingText)
      ensures SubmitDisabled(formStatus) && BannerShown(formStatus)
      ensures formData == old(formData) && payload == formData
    {
      formStatus := FormStatus(Loading, SendingText);
      payload := formData;
    }

    /** `handleSubmit` after the `await`: on success show the success text
        and clear all three fields; on failure show the error and keep
        what was typed. */
    method CompleteSubmit(reply: SubmitReply)
      modifies this
      ensures formStatus == Outcome(reply)
      ensures !SubmitDisabled(formStatus) && BannerShown(formStatus)
      ensures formStatus.kind == Success ==> formData == EmptyForm
      ensures formStatus.kind != Success ==> formData == old(formData)
    {
      match reply {
        case FetchFailed(e) =>
          formStatus := FormStatus(Failed, if e.ErrorInstance? then e.message else NonErrorFailure);
        case Received(status, data) =>
          if data.Unparsed? {
            var e := data.thrown;
            formStatus := FormStatus(Failed, if e.ErrorInstance? then e.message else NonErrorFailure);
          } else if ContactRoute.IsOkStatus(status) {
            formStatus := FormStatus(Success, SuccessText);
            formData := EmptyForm;
          } else {
            var thrown := ErrorInstance(OrElse(data.json.error, FailureFallback));
            formStatus := FormStatus(Failed, thrown.message);
          }
      }
    }
  }

  /** The reply the form receives from the contact endpoint: its status,
      and a body whose `error` is set exactly for an error response. */
  function FromEndpoint(r: ContactRoute.Response): SubmitReply
  {
    Received(r.status, Json(ReplyJson(if r.body.ErrorJson? then Some(r.body.error) else None)))
  }

  /** Against the contact endpoint, the form shows success exactly when the
      endpoint reports the e-mail sent, and otherwise shows the endpoint's
      error text, or the fallback when that text is empty. */
  lemma EndpointOutcomeShown(r: ContactRoute.Response)
    requires ContactRoute.StatusMatchesBody(r)
    ensures Outcome(FromEndpoint(r)).kind == Success <==> r.body.SentJson?
    ensures r.body.ErrorJson? && r.body.error != "" ==> Outcome(FromEndpoint(r)).message == r.body.error
    ensures r.body.ErrorJson? && r.body.error == "" ==> Outcome(FromEndpoint(r)).message == FailureFallback
  {
  }
}
