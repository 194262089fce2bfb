# Narrative-Pulse: the input validator and the demo widget

Narrative-Pulse is a marketing site for a "narrative intelligence engine".
This project models the two parts of it that have behaviour and proves
properties about them.

- **The narrative-input validator** (`validation.dfy`, module `Validation`).
  It covers the zod schema `narrativeInputSchema` and the function
  `validateNarrativeInput`. The validator takes `{ input, tone }` and
  returns either the data unchanged or the message of the first issue zod
  raised. zod runs the declared checks in a fixed order: the input's `min`,
  its `max`, its whitespace refinement, then the `tone` enum. A failed `min`
  or `max` does not stop the later checks, so the issue list can hold
  several entries. The caller sees only the first.
- **The demo widget's generation state machine** (`demo_feature.dfy`,
  module `DemoFeature`). It is the `DemoFeature` component reduced to its
  state. The class `Demo` holds the four state variables and the constant
  `outputs` table, with one method per handler. Generation happens in two
  steps:
  - `StartGenerate` sets the busy flag. It returns the tone the timer's
    closure captured.
  - `CompleteGenerate` later shows the paragraph for that captured tone.
  - If the user switches tabs in between, the shown paragraph still belongs
    to the tone selected at click time (`GenerateThenSwitchTab`).
- **`String.prototype.trim`** (`js_string.dfy`, module `JsString`). Both
  parts rely on it, so it is modelled once. Trimming removes ECMAScript
  WhiteSpace and LineTerminator characters.

## Model

| member | source | states |
|---|---|---|
| JsString.Trim | src/lib/validation.ts:12 | The result of `trim` is no longer than the input and is empty or has a non-whitespace character at both ends |
| JsString.TrimCutsOnlyWhitespace | src/lib/validation.ts:12 | `trim` keeps a contiguous slice of the string. Everything cut off before and after it is whitespace |
| JsString.IsBlank | src/components/DemoFeature.tsx:24 | `!s.trim()`, also used by the button at line 87 and the refinement at validation.ts:12. Its meaning is stated by `BlankIffAllWhitespace` |
| JsString.BlankIffAllWhitespace | src/components/DemoFeature.tsx:24 | `s.trim()` is empty (falsy) exactly when every character of `s` is whitespace |
| Validation.SchemaChecks | src/lib/validation.ts:7-17 | The four declared checks in zod's order: min, max, refinement, enum. The refinement fails exactly on whitespace-only input. All four pass exactly when the input is acceptable |
| Validation.Collect | src/lib/validation.ts:6-18 | zod collects issues from failing checks only. The list is empty exactly when every check passes. Every issue comes from a failing check, and the first issue (`errors[0]`, line 38) is the first failing check's issue |
| Validation.Issues | src/lib/validation.ts:6-18 | The schema raises no issue exactly when the input has 10 to 5000 characters, is not whitespace-only, and the tone is one of the four enum values |
| Validation.ValidateNarrativeInput | src/lib/validation.ts:28-39 | Success exactly when the schema accepts. On success the data is the given input and tone, unchanged and untrimmed. Otherwise the result is a failure carrying one message |
| Validation.ErrorIsFirstFailingCheck | src/lib/validation.ts:35-39 | Every rejected input fails with the message of the first failing check, in the order min, max, whitespace, tone |
| Validation.ErrorAt | src/lib/validation.ts:37-38 | If check `k` is the first to fail, the error is check `k`'s message, whatever the later checks say |
| Validation.ShortInputFails | src/lib/validation.ts:9 | Input under 10 characters fails with the minimum-length message, whatever the tone and even when it is blank |
| Validation.LongInputFails | src/lib/validation.ts:10 | Input over 5000 characters fails with the maximum-length message, whatever the tone |
| Validation.BlankInputFails | src/lib/validation.ts:11-14 | Whitespace-only input of allowed length fails with the blank-input message, whatever the tone |
| Validation.UnknownToneFails | src/lib/validation.ts:15-17 | Valid input with a tone outside the enum fails with "Please select a valid tone" |
| Validation.ToneMatchIsExact | src/lib/validation.ts:15 | Matching is case-sensitive: "activist" is accepted, while the tab label "Activist" fails with the tone message |
| Validation.MinAndMaxExclusive | src/lib/validation.ts:9-10 | The minimum- and maximum-length issues are never raised together |
| DemoFeature.Tabs | src/components/DemoFeature.tsx:16-21 | The four tabs (id and label) in display order. `TabsMatchOutputs` states that their ids are exactly the keys of `outputs` |
| DemoFeature.Outputs | src/components/DemoFeature.tsx:29-34 | The `outputs` table has exactly the four tone ids as keys, and every paragraph is non-empty |
| DemoFeature.TabsMatchOutputs | src/components/DemoFeature.tsx:16-21 | Every tab's id has a paragraph and every paragraph has a tab. The initial tone "activist" is one of them |
| DemoFeature.Demo.constructor | src/components/DemoFeature.tsx:11-14 | The initial state is empty input, tone "activist", not generating and empty output. The invariant holds |
| DemoFeature.Demo.ButtonEnabled | src/components/DemoFeature.tsx:85-87 | The negation of the button's `disabled` expression. `ButtonEnabledIff` states what it means |
| DemoFeature.Demo.EditInput | src/components/DemoFeature.tsx:61 | Only `inputText` changes. Any output already shown stays |
| DemoFeature.Demo.SelectTone | src/components/DemoFeature.tsx:75 | `toneSelected` becomes the clicked tab's id, which is one of the four tones. Nothing else changes, even during generation |
| DemoFeature.Demo.StartGenerate | src/components/DemoFeature.tsx:23-28 | Blank input changes nothing and schedules nothing. Otherwise `isGenerating` becomes true, the timer captures the current tone, and input, tone and output are untouched |
| DemoFeature.Demo.CompleteGenerate | src/components/DemoFeature.tsx:28-38 | The output becomes the non-empty paragraph of the captured tone and `isGenerating` becomes false. Input and selected tone are untouched. The output is empty or one of the paragraphs, and it is never cleared once shown |
| DemoFeature.Demo.PressGenerate | src/components/DemoFeature.tsx:85-87 | A click on an enabled button starts generation with the current tone. A click on a disabled button does nothing. In particular, no second generation starts while one is running |
| DemoFeature.ButtonEnabledIff | src/components/DemoFeature.tsx:87 | The button is enabled exactly when the input has a non-whitespace character and no generation is running |
| DemoFeature.GenerateThenSwitchTab | src/components/DemoFeature.tsx:26-36 | Type, pick tone A, click, switch to tone B, then let the timer fire: the paragraph shown is A's, tone B stays selected, and the widget is idle |

## Left out

- Length is counted in characters (`|s|`). JavaScript's `length` counts UTF-16 code units, so a character outside the Basic Multilingual Plane counts as two there.
- The branch returning "An unexpected validation error occurred" (src/lib/validation.ts:41-44) is not modelled. It handles only exceptions that are not zod errors, which come from outside this code.
- zod is modelled only through the schema's declared checks and its issue order. The TypeScript type `NarrativeInput` is the datatype of the same name. Other zod behaviour is not part of this model, such as non-string values or unknown keys.
- The 1500 ms delay of `setTimeout` is not modelled. Generation is two discrete steps. The caller decides when the timer fires by calling `CompleteGenerate`.
- DemoFeature.Demo.constructor: takes the `outputs` table as a parameter, with the table's shape as its precondition, rather than building it. `GenerateThenSwitchTab` builds the widget with `Outputs()`, the table as shipped. This keeps the long literal paragraphs out of the state-machine proofs.
- All JSX rendering, layout and class names are left out. This includes the "Generated … Narrative" header (src/components/DemoFeature.tsx:96, 102), which shows the label of the tone selected now. After a tab switch during generation it can therefore name a different tone than the paragraph shown.
- The other components (Navbar, ErrorBoundary, Hero, Features, UseCases, Testimonials, CTA, the index page) and the Tailwind configuration hold no logic that belongs to these two parts.
