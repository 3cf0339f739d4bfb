/**
 * The answer panel: what the component shows for its submission fields.
 * Class strings are reduced to a tone; the confidence is the fraction
 * chosen for display, before it is formatted as a percentage.
 */
module Display {
  import opened Optional
  import opened JsText
  import opened Submission

  /** The colour scheme of the answer panel: gray, cyan, red (error), green, red (negative answer). */
  datatype Tone = Neutral | Busy | Alert | Positive | Negative

  datatype View = View(
    answerText: string,
    confidence: Option<real>,   // the fraction behind `confidenceText`; None is the empty text
    tone: Tone,
    errorPanel: Option<string>, // the red panel below the form
    submitEnabled: bool)

  /** The fraction the confidence line reports: `confidence_yes` for "Yes", `confidence_no` otherwise, a missing one read as 0. */
  function ConfidenceOf(p: Prediction): (c: real)
    ensures p.answer == "Yes" ==> c == p.confidenceYes.GetOr(0.0)
    ensures p.answer != "Yes" ==> c == p.confidenceNo.GetOr(0.0)
  {
    var confYes := p.confidenceYes.GetOr(0.0);
    var confNo := p.confidenceNo.GetOr(0.0);
    if p.answer == "Yes" then confYes else confNo
  }

  /** An error field is shown only when it holds a truthy string. */
  predicate HasError(p: Phase) {
    p.error.Some? && Truthy(p.error.value)
  }

  /**
   * The render-time derivation: loading first, then error, then result,
   * else the idle text. The error panel and the button do not depend on
   * that priority.
   */
  function Render(p: Phase): (v: View)
    ensures p.loading ==> v.answerText == "Thinking..." && v.tone == Busy
    ensures !p.loading && HasError(p) ==> v.answerText == "Error!" && v.tone == Alert
    ensures !p.loading && !HasError(p) && p.result.Some? ==> v.answerText == p.result.value.answer
    ensures !p.loading && !HasError(p) && p.result.None? ==> v.answerText == "Awaiting Answer..." && v.tone == Neutral
    ensures v.submitEnabled <==> !p.loading
    ensures v.errorPanel.Some? <==> HasError(p)
    ensures v.errorPanel.Some? ==> v.errorPanel == p.error
  {
    var errorPanel := if HasError(p) then p.error else None;
    if p.loading then View("Thinking...", None, Busy, errorPanel, false)
    else if HasError(p) then View("Error!", None, Alert, errorPanel, true)
    else if p.result.Some? then
      var tone := if p.result.value.answer == "Yes" then Positive else Negative;
      View(p.result.value.answer, Some(ConfidenceOf(p.result.value)), tone, errorPanel, true)
    else View("Awaiting Answer...", None, Neutral, errorPanel, true)
  }

  /** The three submission fields viewed as one discriminated value. */
  datatype Outcome = NotStarted | InFlight | Failed(message: string) | Succeeded(prediction: Prediction)

  /** The outcome a well-formed phase represents. */
  function OutcomeOf(p: Phase): (o: Outcome)
    requires WellFormed(p)
    ensures p == Idle <==> o == NotStarted
    ensures p == Pending <==> o == InFlight
    ensures o.Failed? <==> p.error.Some?
    ensures o.Succeeded? <==> p.result.Some?
    ensures o.Failed? ==> o.message == p.error.value
    ensures o.Succeeded? ==> o.prediction == p.result.value
  {
    if p.loading then InFlight
    else if p.error.Some? then Failed(p.error.value)
    else if p.result.Some? then Succeeded(p.result.value)
    else NotStarted
  }

  /** The answer panel for each outcome, written as a table independent of `Render`. */
  function Expected(o: Outcome): View {
    match o
    case NotStarted => View("Awaiting Answer...", None, Neutral, None, true)
    case InFlight => View("Thinking...", None, Busy, None, false)
    case Failed(message) => View("Error!", None, Alert, Some(message), true)
    case Succeeded(prediction) =>
      if prediction.answer == "Yes" then
        View("Yes", Some(prediction.confidenceYes.GetOr(0.0)), Positive, None, true)
      else
        View(prediction.answer, Some(prediction.confidenceNo.GetOr(0.0)), Negative, None, true)
  }

  /** On every phase the component can reach, the derivation shows what the outcome table prescribes. */
  lemma {:induction false} RenderMatchesOutcome(p: Phase)
    requires WellFormed(p)
    ensures Render(p) == Expected(OutcomeOf(p))
  {
  }

  /** The confidence line is non-empty exactly in the result branch, and the tone follows the answer there. */
  lemma ResultBranch(p: Phase)
    ensures Render(p).confidence.Some? <==> !p.loading && !HasError(p) && p.result.Some?
    ensures Render(p).tone == Positive <==> !p.loading && !HasError(p) && p.result.Some? && p.result.value.answer == "Yes"
    ensures Render(p).tone == Negative <==> !p.loading && !HasError(p) && p.result.Some? && p.result.value.answer != "Yes"
    ensures Render(p).confidence.Some? ==> Render(p).confidence.value == ConfidenceOf(p.result.value)
  {
  }

  /** Sample replies: a "Yes" reports 0.87, a "No" reports 0.92, and any other answer without `confidence_no` reports 0. */
  lemma WorkedReplies()
    ensures var v := Render(Phase(false, None, Some(Prediction("Yes", Some(0.87), Some(0.13)))));
            v.answerText == "Yes" && v.confidence == Some(0.87) && v.tone == Positive
    ensures var v := Render(Phase(false, None, Some(Prediction("No", Some(0.10), Some(0.92)))));
            v.answerText == "No" && v.confidence == Some(0.92) && v.tone == Negative
    ensures var v := Render(Phase(false, None, Some(Prediction("Maybe", Some(0.70), None))));
            v.confidence == Some(0.0) && v.tone == Negative
  {
  }
}
