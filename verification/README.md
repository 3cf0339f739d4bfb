# NeuroQA story-answering form, modelled in Dafny

NeuroQA's front end is one React component, `Chatbot`. It lets a user pick one of three demo
stories or type a story, pick a suggested question or type one, and submit both to a prediction
service. It then shows the answer ("Yes"/"No") with a confidence. This project models the
component's logic as pure functions over immutable state and proves what each user action does
to that state.

- `optional.dfy` (`Optional`): the `Option` type, which stands for JavaScript's `null`/`undefined`.
- `js_text.dfy` (`JsText`): `String.prototype.trim` over the ECMAScript white-space and
  line-terminator characters, and string truthiness.
- `demo_data.dfy` (`DemoData`): the three demo stories and the `find` lookup by identifier.
- `story_form.dfy` (`StoryForm`): the input state machine. The state is `story`, `question`,
  `selectedStoryId` and `currentStoryQuestions`. Each user action is one step:
  first the handler's batched setters run, then the selection effect runs if and only if the
  selection changed, as the dependency list of the `useEffect` says.
- `submission.dfy` (`Submission`): `handleSubmit`. It has a synchronous part (validation and
  the request it sends) and a settling part (a reply sets `result` or `error`, and `loading`
  is cleared). The network reply is an input: a parsed answer, an HTTP error with an optional
  `detail`, or a thrown error with its message.
- `display.dfy` (`Display`): the render-time derivation of the answer text, the chosen
  confidence, a colour tone, the error panel and whether the submit button is enabled. It is
  checked against an independent table over a discriminated outcome (idle, in flight, failed,
  succeeded).
- `chatbot.dfy` (`Chatbot`): the whole component, including the requests posted so far. A session is a sequence of actions. Between
  actions the dropdowns agree with the story box and the submission fields are idle or settled.
  No request is ever sent with a blank story or question.

Three behaviours of the code that are easy to misread; the model follows the code:

- An HTTP error whose body is not JSON makes `response.json()` throw. The user then sees the
  parse error's message after the "Prediction failed ..." prefix, not the generic
  "API request failed." text. A thrown error of any kind is a `TransportError` in the model.
- A non-empty selection that matches no demo leaves the story, question and suggestions
  unchanged. It does not clear them.
- Typing in the story box while a demo is selected does not keep the typed text. The handler
  sets the selection to the placeholder, which re-runs the effect, and the effect empties the
  story, the question and the suggestions (`StoryForm.TypingIntoDemoWipesStory`). Only the next
  keystroke is kept (`StoryForm.SecondEditKept`).

## Model

| member | source | states |
|---|---|---|
| JsText.TrimStart | frontend/src/Chatbot.jsx:74 | the result is the suffix of the input that starts at its first non-space, and everything dropped is white space |
| JsText.TrimEnd | frontend/src/Chatbot.jsx:74 | the result is the prefix of the input that ends at its last non-space, and everything dropped is white space |
| JsText.TrimSlice | frontend/src/Chatbot.jsx:74 | stripping the leading and then the trailing white space leaves a slice of the input with only white space around it, which starts and ends with a non-space when it is not empty |
| JsText.TrimEmptyIff | frontend/src/Chatbot.jsx:74 | stripping both ends leaves nothing exactly when every character of the input is white space |
| JsText.Trim | frontend/src/Chatbot.jsx:74 | `s.trim()` is `s` without its surrounding white space, and it is empty exactly when `s` is white space only |
| JsText.IsBlank | frontend/src/Chatbot.jsx:74 | `!s.trim()` holds exactly when every character of `s` is white space |
| DemoData.FindById | frontend/src/Chatbot.jsx:46 | `find` returns nothing iff no entry has the identifier; otherwise it returns the first entry that has it |
| DemoData.Lookup | frontend/src/Chatbot.jsx:46 | looking up an identifier in the demo catalogue yields nothing iff no demo has it, and otherwise a catalogue demo with that identifier |
| DemoData.CatalogueWellFormed | frontend/src/Chatbot.jsx:5-33 | demo identifiers are unique, and every demo has a non-empty story and at least one sample question |
| DemoData.LookupExact | frontend/src/Chatbot.jsx:46 | the lookup yields demo `d` exactly when `d` is in the catalogue with that identifier |
| DemoData.LookupTable | frontend/src/Chatbot.jsx:5-33 | identifiers 1, 2 and 3 resolve to the three demos in order; every other identifier resolves to nothing |
| StoryForm.Selected | frontend/src/Chatbot.jsx:46 | `parseInt` plus `find`: the placeholder names no demo; a named demo is in the catalogue and carries the selected identifier; an identifier that names nothing matches no demo |
| StoryForm.SelectionEffect | frontend/src/Chatbot.jsx:45-56 | a selection that names a demo loads its story and sample questions and clears the question; the placeholder clears story, suggestions and question; an unmatched identifier changes nothing; the selection itself is untouched |
| StoryForm.Rerender | frontend/src/Chatbot.jsx:45-56 | after a handler, the selection effect runs iff the selection changed (the dependency list `[selectedStoryId]`); otherwise the handler's state stands |
| StoryForm.Mounted | frontend/src/Chatbot.jsx:36-56 | after mounting, nothing is selected and story, question and suggestions are empty |
| StoryForm.ChooseDemo | frontend/src/Chatbot.jsx:58-60 | the dropdown sets the selection; re-choosing the current value changes nothing; a new demo is loaded with an empty question; the placeholder clears; an unmatched identifier changes only the selection |
| StoryForm.EditStory | frontend/src/Chatbot.jsx:176-179 | a story edit always leaves the placeholder selected; with no demo selected the story becomes the typed text and nothing else changes; with a selection, story, question and suggestions all end up empty |
| StoryForm.ChoosePreset | frontend/src/Chatbot.jsx:62-66 | the empty preset option changes nothing; any other option sets the question to exactly that value; story, selection and suggestions never change |
| StoryForm.EditQuestion | frontend/src/Chatbot.jsx:204 | the question becomes the typed text; story, selection and suggestions never change |
| StoryForm.MountedCoherent | frontend/src/Chatbot.jsx:36-56 | the mounted form is coherent: no presets under the placeholder, and a selected demo is the one shown |
| StoryForm.ApplyKeepsCoherent | frontend/src/Chatbot.jsx:45-66 | every form action keeps coherence: the placeholder offers no presets, a selected demo's story and questions are the ones shown, and the presets offered are always some demo's sample questions |
| StoryForm.EditStoryKeepsText | frontend/src/Chatbot.jsx:176-179 | a story edit keeps the typed text exactly when no demo was selected or the text is empty |
| StoryForm.TypingIntoDemoWipesStory | frontend/src/Chatbot.jsx:176-179 | after demo 1 is loaded, appending one character to its story leaves story, question and suggestions empty |
| StoryForm.SecondEditKept | frontend/src/Chatbot.jsx:176-179 | two story edits in a row always keep the second text verbatim |
| StoryForm.PresetsFollowSelection | frontend/src/Chatbot.jsx:193 | in a coherent form the preset dropdown has options when the selection names a demo and none under the placeholder |
| Submission.Begin | frontend/src/Chatbot.jsx:68-80 | no request is made iff the story or the question is white space only, and then the phase is the validation error with no result and not loading; otherwise the exact untrimmed text is sent and the phase is pending |
| Submission.FailureReason | frontend/src/Chatbot.jsx:91-101 | the thrown message is a truthy `detail`, else the generic "API request failed.", or the transport error's own message |
| Submission.Settle | frontend/src/Chatbot.jsx:96-104 | settling always clears loading; an answer is stored as the result; any failure stores an error that starts with the fixed prefix followed by the failure reason; nothing else is written |
| Submission.Submit | frontend/src/Chatbot.jsx:68-104 | after a submission, loading is false and exactly one of error and result is set; the result is set iff a request was sent and answered; every non-validation error starts with the fixed prefix; no request is sent for blank input |
| Submission.PhasesWellFormed | frontend/src/Chatbot.jsx:70-104 | starting, settling from pending and a whole submission each leave a phase that is idle, pending, or settled with exactly one of a truthy error and a result |
| Submission.DetailShownVerbatim | frontend/src/Chatbot.jsx:93-101 | a non-empty server `detail` appears verbatim after the prefix |
| Submission.MissingDetailFallsBack | frontend/src/Chatbot.jsx:91-101 | a missing or empty `detail` shows the generic "API request failed." text after the prefix |
| Display.ConfidenceOf | frontend/src/Chatbot.jsx:125-128 | a "Yes" answer reports `confidence_yes`, every other answer reports `confidence_no`, and a missing field counts as 0 |
| Display.OutcomeOf | frontend/src/Chatbot.jsx:114-122 | a well-formed phase is idle, in flight, failed with the stored error message exactly when an error is set, or succeeded with the stored reply exactly when a result is set |
| Display.RenderMatchesOutcome | frontend/src/Chatbot.jsx:109-137 | on every well-formed phase, the derived answer text, confidence, tone, error panel and button state are the ones the outcome table gives |
| Display.Render | frontend/src/Chatbot.jsx:109-219 | loading shows "Thinking..."; otherwise a truthy error shows "Error!"; otherwise a result shows its answer; otherwise "Awaiting Answer..."; the button is enabled iff not loading; the error panel shows the error iff it is truthy |
| Display.ResultBranch | frontend/src/Chatbot.jsx:122-137 | the confidence is present only in the result branch, where it is the chosen field; the tone is positive iff the answer is "Yes" and negative for every other answer |
| Display.WorkedReplies | frontend/src/Chatbot.jsx:122-137 | a "Yes" reply with 0.87/0.13 reports 0.87 in the positive tone; a "No" reply with 0.10/0.92 reports 0.92 in the negative tone; any other answer with no `confidence_no` reports 0 |
| Chatbot.Initial | frontend/src/Chatbot.jsx:36-43 | the component starts with an empty form, no selection, the "Awaiting Answer..." panel and nothing posted |
| Chatbot.InitialInvariant | frontend/src/Chatbot.jsx:36-56 | the mounted component satisfies the session invariant |
| Chatbot.Step | frontend/src/Chatbot.jsx:58-105 | a form action leaves the submission fields alone and posts nothing; a submit leaves the form alone and posts the current story and question, untrimmed, iff neither is blank |
| Chatbot.StepKeepsInvariant | frontend/src/Chatbot.jsx:45-105 | every action keeps the form coherent, keeps the submission idle or settled, never posts a blank request, and posts at most one request |
| Chatbot.FinalKeepsInvariant | frontend/src/Chatbot.jsx:45-105 | any sequence of actions from a state satisfying the invariant ends in one that satisfies it, having posted at most one request per action |
| Chatbot.Run | frontend/src/Chatbot.jsx:154-217 | running a session of actions from any state satisfying the invariant, such as the mounted component, gives the replayed state; at the end the invariant holds and at most one request per action was posted |
| Chatbot.BlankSubmitShowsValidation | frontend/src/Chatbot.jsx:74-78 | a submit with blank story or question sends nothing and shows "Error!" with the validation message, whatever was shown before |
| Chatbot.FailedSubmitShowsReason | frontend/src/Chatbot.jsx:91-121 | a non-blank submit that fails shows "Error!" with no confidence, and the error panel holds the fixed prefix followed by the truthy `detail`, the generic text, or the thrown message |
| Chatbot.AnsweredSubmitShowsAnswer | frontend/src/Chatbot.jsx:96-137 | an answered submit shows the answer and its chosen confidence, uses the positive tone iff the answer is "Yes", and shows no error panel |

## Left out

- The HTTP POST, the endpoint `API_URL`, the request headers and JSON (de)serialisation (frontend/src/Chatbot.jsx:3, 80-96) are I/O. The request is the `Request` record and the reply is the `Reply` input.
- `formatConfidence` and `toFixed(2)` (frontend/src/Chatbot.jsx:107, 129) are floating-point formatting. The model keeps the chosen fraction as a `real` and leaves the "Confidence: …%" text out.
- Display.ConfidenceOf: confidences are modelled as optional numbers. A non-numeric value in the body (`false`, `""` or another string) is not modelled. `null` and `0` behave as modelled, since both are read as 0.
- JSX markup, Tailwind class strings and the 70-character dropdown labels (frontend/src/Chatbot.jsx:139-236) are presentation. The classes are reduced to the `Tone` enum.
- `async`/`await` interleaving and `console.error` are left out. A submission is one atomic step. Form edits made while a request is in flight are therefore not modelled; the button is disabled while loading, so two requests never overlap.
- `parseInt` on the dropdown value is abstracted. The selection is already parsed (`NoDemo` or `Chosen(id)`), and a non-numeric value behaves like an identifier that matches no demo. Two strings that parse to the same number but differ as text (`"1"` and `"01"`) cannot arise from the dropdown, so the effect's string comparison is modelled on parsed values.
- A falsy success body (`null`, `false`, `0` or `""`, which would show "Awaiting Answer..."), or one whose `answer` or `detail` is not a string, is not modelled. `Prediction.answer` and `detail` are strings.
- backend/app.py is not part of this model. It is a FastAPI wrapper around transformer inference, and its output comes from softmax and argmax over floating-point tensors.
- JavaScript strings are sequences of UTF-16 code units and may hold lone surrogates; a Dafny `string` is a sequence of Unicode scalar values. This does not change `trim`, the `=== 'Yes'` test or truthiness, which is all the model uses strings for.
