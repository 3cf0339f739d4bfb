/**
 * The whole `Chatbot` component: the form and the submission fields side
 * by side, driven by a sequence of user actions, each taken as one step.
 */
module Chatbot {
  import opened Optional
  import opened JsText
  import opened StoryForm
  import opened Submission
  import opened Display

  /**
   * The form, the submission fields, and every request posted so far (the
   * server's view of the session, oldest first).
   */
  datatype State = State(form: FormState, phase: Phase, posted: seq<Request>)

  /** A user action: a form edit, or a submit together with the reply the server gives it. */
  datatype Event = Edit(edit: FormEvent) | Send(reply: Reply)

  /** The component right after mounting. */
  function Initial(): (s: State)
    ensures s.form.selection == NoDemo && Cleared(s.form)
    ensures Render(s.phase).answerText == "Awaiting Answer..."
    ensures s.posted == []
  {
    State(Mounted(), Idle, [])
  }

  /**
   * One step: form edits leave the submission fields alone and post
   * nothing; a submit leaves the form alone and posts the current story and
   * question exactly when neither is blank.
   */
  function Step(s: State, e: Event): (r: State)
    ensures e.Edit? ==> r.phase == s.phase && r.posted == s.posted
    ensures e.Send? ==> r.form == s.form
    ensures e.Send? && !AllSpace(s.form.story) && !AllSpace(s.form.question) ==>
              r.posted == s.posted + [Request(s.form.story, s.form.question)]
    ensures e.Send? && (AllSpace(s.form.story) || AllSpace(s.form.question)) ==> r.posted == s.posted
  {
    match e
    case Edit(edit) => s.(form := Apply(s.form, edit))
    case Send(reply) =>
      var out := Submit(s.form.story, s.form.question, reply);
      var sent := if out.request.Some? then [out.request.value] else [];
      s.(phase := out.phase, posted := s.posted + sent)
  }

  /** The state after a sequence of actions. */
  function Final(s: State, events: seq<Event>): State
    decreases |events|
  {
    if |events| == 0 then s else Final(Step(s, events[0]), events[1..])
  }

  /** A request carries text that is not white space only. */
  predicate NonBlank(q: Request) {
    !AllSpace(q.story) && !AllSpace(q.question)
  }

  /**
   * What holds between actions: a coherent form, a submission that is idle
   * or settled, and no blank request ever posted.
   */
  ghost predicate Invariant(s: State) {
    && Coherent(s.form)
    && WellFormed(s.phase)
    && !s.phase.loading
    && forall i :: 0 <= i < |s.posted| ==> NonBlank(s.posted[i])
  }

  lemma InitialInvariant()
    ensures Invariant(Initial())
  {
    MountedCoherent();
  }

  /** Every action keeps the invariant and posts at most one request. */
  lemma {:induction false} StepKeepsInvariant(s: State, e: Event)
    requires Invariant(s)
    ensures Invariant(Step(s, e))
    ensures |s.posted| <= |Step(s, e).posted| <= |s.posted| + 1
  {
    match e
    case Edit(edit) => ApplyKeepsCoherent(s.form, edit);
    case Send(reply) => PhasesWellFormed(s.form.story, s.form.question, reply);
  }

  /** Whole sessions keep the invariant, and post at most one request per action. */
  lemma {:induction false} FinalKeepsInvariant(s: State, events: seq<Event>)
    requires Invariant(s)
    ensures Invariant(Final(s, events))
    ensures |s.posted| <= |Final(s, events).posted| <= |s.posted| + |events|
    decreases |events|
  {
    if |events| > 0 {
      StepKeepsInvariant(s, events[0]);
      FinalKeepsInvariant(Step(s, events[0]), events[1..]);
    }
  }

  /** Dropping the first action of a session: the final state is the one reached from that action's result. */
  lemma FinalAdvance(s: State, events: seq<Event>, k: nat)
    requires k < |events|
    ensures Final(Step(s, events[k]), events[k + 1..]) == Final(s, events[k..])
  {
    var rest := events[k..];
    assert rest[0] == events[k] && rest[1..] == events[k + 1..];
  }

  /**
   * A session, one action at a time, from a state satisfying the invariant
   * (such as `Initial()`): the result is the replayed state, the invariant
   * still holds, and at most one request was posted per action.
   */
  method Run(start: State, events: seq<Event>) returns (s: State)
    requires Invariant(start)
    ensures s == Final(start, events)
    ensures Invariant(s)
    ensures |s.posted| <= |start.posted| + |events|
  {
    s := start;
    var k := 0;
    assert events[0..] == events;
    while k < |events|
      invariant 0 <= k <= |events|
      invariant Invariant(s)
      invariant |s.posted| <= |start.posted| + k
      invariant Final(s, events[k..]) == Final(start, events)
    {
      StepKeepsInvariant(s, events[k]);
      FinalAdvance(s, events, k);
      s := Step(s, events[k]);
      k := k + 1;
    }
    assert events[k..] == [];
  }

  /** A submit that fails validation shows the validation error, whatever the previous outcome was. */
  lemma BlankSubmitShowsValidation(s: State, reply: Reply)
    requires AllSpace(s.form.story) || AllSpace(s.form.question)
    ensures var next := Step(s, Send(reply));
            next.posted == s.posted && Render(next.phase).errorPanel == Some(ValidationMessage)
            && Render(next.phase).answerText == "Error!"
  {
  }

  /**
   * A submit with text that fails shows "Error!" and, in the error panel,
   * the fixed prefix followed by the server's detail, the generic text, or
   * the transport error's message.
   */
  lemma FailedSubmitShowsReason(s: State, reply: Reply)
    requires !AllSpace(s.form.story) && !AllSpace(s.form.question)
    requires !reply.Answered?
    ensures var v := Render(Step(s, Send(reply)).phase);
            && v.answerText == "Error!"
            && v.tone == Alert
            && v.confidence.None?
            && (reply.TransportError? ==> v.errorPanel == Some(FailurePrefix + reply.message))
            && (reply.HttpError? && reply.detail.Some? && reply.detail.value != "" ==>
                  v.errorPanel == Some(FailurePrefix + reply.detail.value))
            && (reply.HttpError? && (reply.detail.None? || reply.detail.value == "") ==>
                  v.errorPanel == Some(FailurePrefix + GenericApiFailure))
  {
  }

  /** A submit with text that the server answers shows the answer, its confidence and its tone. */
  lemma AnsweredSubmitShowsAnswer(s: State, prediction: Prediction)
    requires !AllSpace(s.form.story) && !AllSpace(s.form.question)
    ensures var v := Render(Step(s, Send(Answered(prediction))).phase);
            && v.answerText == prediction.answer
            && v.confidence == Some(ConfidenceOf(prediction))
            && (v.tone == Positive <==> prediction.answer == "Yes")
            && v.errorPanel.None?
  {
  }
}
