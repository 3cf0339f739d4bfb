/**
 * `handleSubmit`: validation, the request it sends, and how the three
 * submission fields (`loading`, `error`, `result`) settle on the reply.
 */
module Submission {
  import opened Optional
  import opened JsText

  /** The success body: `answer` and the two optional confidences. */
  datatype Prediction = Prediction(answer: string, confidenceYes: Option<real>, confidenceNo: Option<real>)

  /**
   * How the POST ends, as the handler observes it: a 2xx reply with a parsed
   * body, a non-2xx reply whose parsed body has an optional `detail`, or a
   * thrown error (connection failure, or a body that is not JSON) with its
   * message.
   */
  datatype Reply =
    | Answered(prediction: Prediction)
    | HttpError(detail: Option<string>)
    | TransportError(message: string)

  /** The JSON payload `{story, question}`. */
  datatype Request = Request(story: string, question: string)

  /** The component's three submission fields. */
  datatype Phase = Phase(loading: bool, error: Option<string>, result: Option<Prediction>)

  const ValidationMessage: string := "Please ensure both a Story Context and a Question are entered."
  const FailurePrefix: string := "Prediction failed. Is the backend server running on port 8000? Error: "
  const GenericApiFailure: string := "API request failed."

  /** Before any submission: not loading, no error, no result. */
  const Idle: Phase := Phase(false, None, None)

  /** The request is in flight. */
  const Pending: Phase := Phase(true, None, None)

  /** `x` starts with `prefix`. */
  predicate StartsWith(x: string, prefix: string) {
    |prefix| <= |x| && x[..|prefix|] == prefix
  }

  /** The phase a submission leaves and the request it sends, if any. */
  datatype Submitted = Submitted(phase: Phase, request: Option<Request>)

  /**
   * The synchronous part of `handleSubmit`: a story or question that is
   * white space only fails validation without a request; otherwise the
   * form's text is sent verbatim and the phase is pending. Nothing of the
   * previous phase survives either way.
   */
  function Begin(story: string, question: string): (r: Submitted)
    ensures r.request.None? <==> AllSpace(story) || AllSpace(question)
    ensures r.request.None? ==> r.phase == Phase(false, Some(ValidationMessage), None)
    ensures r.request.Some? ==> r.request.value == Request(story, question) && r.phase == Pending
  {
    if IsBlank(story) || IsBlank(question) then Submitted(Phase(false, Some(ValidationMessage), None), None)
    else Submitted(Pending, Some(Request(story, question)))
  }

  /** `err.message` for a reply that fails: the `detail` when it is truthy, else the generic text, or the thrown error's message. */
  function FailureReason(reply: Reply): (m: string)
    requires !reply.Answered?
    ensures reply.HttpError? && reply.detail.Some? && reply.detail.value != "" ==> m == reply.detail.value
    ensures reply.HttpError? && (reply.detail.None? || reply.detail.value == "") ==> m == GenericApiFailure
    ensures reply.TransportError? ==> m == reply.message
  {
    match reply
    case HttpError(detail) => if detail.Some? && Truthy(detail.value) then detail.value else GenericApiFailure
    case TransportError(message) => message
  }

  /**
   * The asynchronous part: a success stores the body as the result, any
   * failure stores the prefixed message as the error, and `finally` clears
   * `loading`. Only those fields are written.
   */
  function Settle(p: Phase, reply: Reply): (r: Phase)
    ensures !r.loading
    ensures reply.Answered? ==> r.result == Some(reply.prediction) && r.error == p.error
    ensures !reply.Answered? ==> r.result == p.result && r.error.Some? && StartsWith(r.error.value, FailurePrefix)
    ensures !reply.Answered? ==> r.error.value[|FailurePrefix|..] == FailureReason(reply)
  {
    match reply
    case Answered(prediction) => p.(result := Some(prediction), loading := false)
    case _ =>
      var message := FailurePrefix + FailureReason(reply);
      assert message[..|FailurePrefix|] == FailurePrefix;
      assert message[|FailurePrefix|..] == FailureReason(reply);
      p.(error := Some(message), loading := false)
  }

  /** One submit, taken as an atomic step: the reply is consumed only when a request was sent. */
  function Submit(story: string, question: string, reply: Reply): (r: Submitted)
    ensures !r.phase.loading
    ensures r.phase.error.Some? != r.phase.result.Some?
    ensures r.request.None? <==> AllSpace(story) || AllSpace(question)
    ensures r.request.None? ==> r.phase.error == Some(ValidationMessage)
    ensures r.request.Some? ==> r.request.value == Request(story, question)
    ensures r.request.Some? ==> (r.phase.result.Some? <==> reply.Answered?)
    ensures r.request.Some? && reply.Answered? ==> r.phase.result == Some(reply.prediction)
    ensures r.request.Some? && r.phase.error.Some? ==> StartsWith(r.phase.error.value, FailurePrefix)
    ensures r.phase.error.Some? ==> Truthy(r.phase.error.value)
  {
    var s := Begin(story, question);
    if s.request.None? then Submitted(s.phase, None)
    else Submitted(Settle(s.phase, reply), s.request)
  }

  /**
   * The phases the component can show: idle, pending, or settled with
   * exactly one of a truthy error and a result.
   */
  predicate WellFormed(p: Phase) {
    || p == Idle
    || p == Pending
    || (!p.loading && p.error.Some? && Truthy(p.error.value) && p.result.None?)
    || (!p.loading && p.error.None? && p.result.Some?)
  }

  /** Beginning a submission from any phase, and settling the pending one, stay well formed. */
  lemma {:induction false} PhasesWellFormed(story: string, question: string, reply: Reply)
    ensures WellFormed(Begin(story, question).phase)
    ensures WellFormed(Settle(Pending, reply))
    ensures WellFormed(Submit(story, question, reply).phase)
  {
    var s := Settle(Pending, reply);
    if !reply.Answered? {
      assert |s.error.value| >= |FailurePrefix| > 0;
    }
    var t := Submit(story, question, reply);
    if t.phase.error.Some? {
      assert Truthy(t.phase.error.value);
    }
  }

  /** A server `detail` is shown verbatim at the end of the error message. */
  lemma DetailShownVerbatim(detail: string)
    requires detail != ""
    ensures Settle(Pending, HttpError(Some(detail))).error == Some(FailurePrefix + detail)
  {
  }

  /** A non-2xx reply without a usable detail never surfaces anything but the generic text. */
  lemma MissingDetailFallsBack(detail: Option<string>)
    requires detail.None? || detail.value == ""
    ensures Settle(Pending, HttpError(detail)).error == Some(FailurePrefix + GenericApiFailure)
  {
  }
}
