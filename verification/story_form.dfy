/**
 * The input half of the component: the story, the question, the demo
 * dropdown's selection and the preset questions it offers, with the
 * handlers that change them and the selection effect that reacts to them.
 */
module StoryForm {
  import opened Optional
  import opened DemoData

  /**
   * The value of the demo dropdown after `parseInt`: the placeholder option
   * (the empty string) or a numeric identifier.
   */
  datatype Selection = NoDemo | Chosen(id: int)

  datatype FormState = FormState(
    story: string,
    question: string,
    selection: Selection,
    suggestions: seq<string>)

  /** The demo the selection denotes, if any (`''` parses to NaN, which matches nothing). */
  function Selected(sel: Selection): (r: Option<DemoStory>)
    ensures sel == NoDemo ==> r.None?
    ensures r.Some? ==> r.value in Stories && sel == Chosen(r.value.id)
    ensures sel.Chosen? && r.None? ==> forall d :: d in Stories ==> d.id != sel.id
  {
    match sel
    case NoDemo => None
    case Chosen(id) => Lookup(id)
  }

  /** Every field of `f` except the selection is empty. */
  predicate Cleared(f: FormState) {
    f.story == "" && f.question == "" && f.suggestions == []
  }

  /**
   * The selection effect: a selection denoting a demo loads that demo and
   * clears the question; the placeholder clears the story, suggestions and
   * question; an identifier that denotes no demo changes nothing.
   */
  function SelectionEffect(f: FormState): (r: FormState)
    ensures r.selection == f.selection
    ensures forall d :: d in Stories && f.selection == Chosen(d.id) ==>
              r == f.(story := d.storyText, suggestions := d.sampleQuestions, question := "")
    ensures f.selection == NoDemo ==> Cleared(r)
    ensures (forall d :: d in Stories ==> f.selection != Chosen(d.id)) && f.selection != NoDemo ==> r == f
  {
    match Selected(f.selection)
    case Some(d) =>
      LookupExact(f.selection.id, d);
      CatalogueWellFormed();
      f.(story := d.storyText, suggestions := d.sampleQuestions, question := "")
    case None =>
      if f.selection == NoDemo then f.(story := "", suggestions := [], question := "")
      else f
  }

  /**
   * One render: `after` holds the state the handler's setters produced from
   * `before`; the effect runs iff the selection changed.
   */
  function Rerender(before: FormState, after: FormState): (r: FormState)
    ensures after.selection == before.selection ==> r == after
    ensures after.selection != before.selection ==> r == SelectionEffect(after)
  {
    if after.selection != before.selection then SelectionEffect(after) else after
  }

  /** The state after mounting: the effect runs once on the initial empty state. */
  function Mounted(): (r: FormState)
    ensures r.selection == NoDemo && Cleared(r)
  {
    SelectionEffect(FormState("", "", NoDemo, []))
  }

  /** `handleStoryChange`: the demo dropdown. */
  function ChooseDemo(f: FormState, sel: Selection): (r: FormState)
    ensures r.selection == sel
    ensures sel == f.selection ==> r == f
    ensures sel != f.selection && sel == NoDemo ==> Cleared(r)
    ensures forall d :: d in Stories && sel == Chosen(d.id) && sel != f.selection ==>
              r.story == d.storyText && r.suggestions == d.sampleQuestions && r.question == ""
    ensures sel != f.selection && sel != NoDemo && (forall d :: d in Stories ==> sel != Chosen(d.id)) ==>
              r == f.(selection := sel)
  {
    Rerender(f, f.(selection := sel))
  }

  /** The story textarea: sets the story and the selection to the placeholder. */
  function EditStory(f: FormState, text: string): (r: FormState)
    ensures r.selection == NoDemo
    ensures f.selection == NoDemo ==> r == f.(story := text)
    ensures f.selection != NoDemo ==> r.selection == NoDemo && Cleared(r)
  {
    Rerender(f, f.(story := text, selection := NoDemo))
  }

  /** `handlePresetQuestionChange`: the preset-question dropdown; its placeholder does nothing. */
  function ChoosePreset(f: FormState, value: string): (r: FormState)
    ensures value == "" ==> r == f
    ensures value != "" ==> r.question == value
    ensures r.story == f.story && r.selection == f.selection && r.suggestions == f.suggestions
  {
    if value != "" then Rerender(f, f.(question := value)) else f
  }

  /** The free-text question input: sets the question verbatim. */
  function EditQuestion(f: FormState, text: string): (r: FormState)
    ensures r.question == text
    ensures r.story == f.story && r.selection == f.selection && r.suggestions == f.suggestions
  {
    Rerender(f, f.(question := text))
  }

  /** A user action on the form. */
  datatype FormEvent =
    | PickDemo(sel: Selection)
    | TypeStory(story: string)
    | PickPreset(value: string)
    | TypeQuestion(question: string)

  function Apply(f: FormState, e: FormEvent): FormState {
    match e
    case PickDemo(sel) => ChooseDemo(f, sel)
    case TypeStory(text) => EditStory(f, text)
    case PickPreset(value) => ChoosePreset(f, value)
    case TypeQuestion(text) => EditQuestion(f, text)
  }

  /**
   * What the dropdowns and the story box never disagree about: a selected
   * demo is the one shown, the placeholder offers no presets, and the
   * presets offered are always some demo's sample questions.
   */
  ghost predicate Coherent(f: FormState) {
    && (f.selection == NoDemo ==> f.suggestions == [])
    && (forall d :: d in Stories && f.selection == Chosen(d.id) ==>
          f.story == d.storyText && f.suggestions == d.sampleQuestions)
    && (f.suggestions == [] || exists d :: d in Stories && f.suggestions == d.sampleQuestions)
  }

  lemma MountedCoherent()
    ensures Coherent(Mounted())
  {
  }

  /** Every form action keeps the dropdowns and the story box coherent. */
  lemma {:induction false} ApplyKeepsCoherent(f: FormState, e: FormEvent)
    requires Coherent(f)
    ensures Coherent(Apply(f, e))
  {
    CatalogueWellFormed();
    match e
    case PickDemo(sel) =>
      var r := ChooseDemo(f, sel);
      if sel != f.selection {
        match Selected(sel)
        case Some(d) =>
          LookupExact(sel.id, d);
          assert r.suggestions == d.sampleQuestions;
          forall d' | d' in Stories && r.selection == Chosen(d'.id)
            ensures r.story == d'.storyText && r.suggestions == d'.sampleQuestions
          {
            LookupExact(sel.id, d');
          }
        case None =>
      }
    case TypeStory(text) =>
    case PickPreset(value) =>
    case TypeQuestion(text) =>
  }

  /** The story box keeps what is typed exactly when no demo was selected (or nothing was typed). */
  lemma EditStoryKeepsText(f: FormState, text: string)
    ensures EditStory(f, text).story == text <==> f.selection == NoDemo || text == ""
  {
  }

  /**
   * Typing into a story loaded from a demo loses the keystroke: appending a
   * character to demo 1's text leaves an empty story, question and preset list.
   */
  lemma TypingIntoDemoWipesStory()
    ensures var f := ChooseDemo(Mounted(), Chosen(1));
            && f.story == Stories[0].storyText
            && Cleared(EditStory(f, f.story + "!"))
  {
    LookupTable(1);
  }

  /** After one wiped keystroke the selection is the placeholder, so the next edit is kept verbatim. */
  lemma SecondEditKept(f: FormState, first: string, second: string)
    ensures EditStory(EditStory(f, first), second).story == second
  {
  }

  /**
   * In a coherent form the preset dropdown has options when the selection
   * names a demo and none under the placeholder. (An identifier naming no
   * demo keeps whatever presets were there.)
   */
  lemma {:induction false} PresetsFollowSelection(f: FormState)
    requires Coherent(f)
    ensures Selected(f.selection).Some? ==> |f.suggestions| > 0
    ensures f.selection == NoDemo ==> |f.suggestions| == 0
  {
    CatalogueWellFormed();
    if Selected(f.selection).Some? {
      LookupExact(f.selection.id, Selected(f.selection).value);
    }
  }
}
