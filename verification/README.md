# Multi-step form wizard — a Dafny model of its controller

The system is a three-page form in a single React component (`MultiStepForm`).
Page 1 asks for name, email and phone. Page 2 asks for two address lines,
city, state and zip. Page 3 shows the record with a Submit button. This
project models the component's controller as pure functions over an
immutable state `(step, data, errors)`:

- `Form`: the eight-field record (`Record`), the fields (`Field`) and the
  property names they are stored under (`Key`).
- `Text`: the string tests the rules use. `Includes` models
  `String.prototype.includes`. `MatchesDigits` models an anchored
  `^\d{lo,hi}$` test.
- `Validation`: the per-field checks with their exact messages. It also holds
  `validateStep1` and `validateStep2`, and an independent statement of each
  field's rule (`FieldOk`, `StepOk`) that the validators are proved to agree
  with.
- `Wizard`: `handleChange`, `nextStep`, `prevStep`, the tab buttons and
  Submit. It also models the controls each page renders (`Offered`), and
  proves an invariant over every event sequence: a record that reaches
  Submit satisfies every rule of both pages, although Submit validates
  nothing.
- `Scenarios`: small concrete runs.

An error is "shown" when its key is present with a non-empty message
(`HasError`). The page clears a field's error by writing `""` under its key,
not by deleting the key. It tests for an error with `!!errors.x`.

Three behaviours of the code that are easy to misread:

- Next on page 1 with name `"Jo"`, email `"a@b"` and phone `"1234567890"`
  flags both `name` and `email`, because `"a@b"` contains no `'.'`
  (`Scenarios.ShortNameAndDotlessEmailStay`).
- An edit keeps the field's key in the error map and maps it to `""`
  (src/App.js:36). For what the page shows, that is the same as deleting
  the key (`Validation.ClearingHidesOnlyThatError`).
- Malformed stored JSON makes `JSON.parse` throw (src/App.js:22); nothing
  falls back to the empty record. Persistence is not modelled; see below.

## Model

| member | source | states |
|---|---|---|
| Form.Empty | src/App.js:8-17 | the initial record has every one of the eight fields present and empty |
| Text.Includes | src/App.js:50 | `includes` is true exactly when the substring occurs at some position of the string |
| Text.IncludesOneChar | src/App.js:50 | looking for `"@"` or `"."` is looking for that single character anywhere in the string |
| Text.MatchesDigits | src/App.js:56 | the anchored pattern `^\d{lo,hi}$` accepts exactly the strings of lo..hi characters that are all ASCII digits |
| Form.Record.Set | src/App.js:35 | the edited field takes the new value and every other field keeps its value |
| Form.SetGetIdentity | src/App.js:35 | writing back a field's current value leaves the record equal to the original |
| Form.SetSetOverwrite | src/App.js:35 | of two writes to one field the later wins |
| Form.SetSetCommute | src/App.js:35 | writes to two different fields commute |
| Validation.HasError | src/App.js:143 | `!!errors.x`: a field shows an error iff its key is present with a non-empty message |
| Validation.ClearingHidesOnlyThatError | src/App.js:36 | mapping a key to "" hides that field's error, leaves every other field's shown error as it was, and shows exactly what deleting the key would |
| Validation.CheckField | src/App.js:42-79 | a field's check fails exactly when the field breaks its rule; every failure message is non-empty; an empty required field gets its "required" message, and a non-empty failing value gets its format message ("at least 3 characters", "valid email address", "10 digits", "5 or 6 digits") |
| Validation.CollectErrors | src/App.js:41-58 | the built error map has a key exactly for each failing checked field, holding that field's message, and no other keys |
| Validation.NoErrorsIffStepOk | src/App.js:60-61 | the error map is empty exactly when every field of the page satisfies its rule |
| Validation.ValidateStep1 | src/App.js:40-62 | the new map only has keys among name, email and phone; it reports success iff the map is empty iff all page-1 rules hold; a page-1 field shows an error iff it breaks its rule |
| Validation.ValidateStep2 | src/App.js:65-84 | the new map only has keys among address1, city, state and zip; it reports success iff the map is empty iff all page-2 rules hold; a page-2 field shows an error iff it breaks its rule |
| Validation.NameRule | src/App.js:42-46 | name has an error iff it is empty or shorter than 3; an empty name gets "required", a short one gets "at least 3 characters" |
| Validation.EmailRule | src/App.js:48-52 | email has an error iff it is empty, lacks '@' or lacks '.' |
| Validation.PhoneRule | src/App.js:54-58 | phone is accepted iff it is non-empty and exactly 10 characters, all in '0'..'9' |
| Validation.RequiredRules | src/App.js:67-75 | address1, city and state each have an error iff empty |
| Validation.ZipRule | src/App.js:76-80 | zip is accepted iff it is 5 or 6 characters, all ASCII digits |
| Validation.Address2NeverChecked | src/App.js:65-84 | address2 never receives an error entry |
| Validation.CollectIgnoresOtherFields | src/App.js:41-58 | the errors built for a list of fields do not depend on any field outside that list |
| Validation.ValidatorsAreStepScoped | src/App.js:40-84 | changing a field of the other page (or address2) never changes a validator's outcome |
| Wizard.Start | src/App.js:7-18 | the component starts on page 1 with no shown errors, whatever record it holds |
| Wizard.HandleChange | src/App.js:34-37 | the edited field takes the new value and its error becomes empty; every other field and every other error entry is unchanged, and so is the step |
| Wizard.NextStep | src/App.js:87-91 | from page 1 or 2 the step advances by exactly one iff that page's rules hold and otherwise stays; the error map becomes exactly that page's validator map (its failures with their messages), empty iff it advanced; the record never changes |
| Wizard.PrevStep | src/App.js:94-96 | the step goes down by exactly one; record and errors are untouched |
| Wizard.TabEnabledIffReached | src/App.js:115-127 | on pages 1..3, tab n is enabled iff n is at most the current step (tab 1 always) |
| Wizard.SelectTab | src/App.js:109-128 | an enabled tab sets the step to n, a disabled one leaves the state unchanged; neither validates nor changes record or errors |
| Wizard.Submit | src/App.js:99-103 | something is submitted iff the step is 3, and it is the current record unchanged |
| Wizard.EditSameValue | src/App.js:34-37 | typing back a field's current value leaves the record unchanged and only clears that field's error |
| Wizard.EditTwice | src/App.js:34-37 | two edits of one field give the state of the later edit alone |
| Wizard.EditsCommute | src/App.js:34-37 | edits of two different fields give the same state in either order |
| Wizard.Offered | src/App.js:131-271 | the controls each page renders: that page's inputs, Next on pages 1-2 (174, 249), Previous on pages 2-3 (246, 266), Submit on page 3 (269), all tabs always |
| Wizard.PageControls | src/App.js:131-271 | on pages 1..3: no inputs on page 3, address line 2 only on page 2, Next iff below page 3, Previous iff above page 1, Submit iff page 3, every tab rendered |
| Wizard.Dispatch | src/App.js:109-271 | an event with no control on the page changes nothing; Submit leaves the state alone; only an offered edit of that page's field changes the record; only an edit or Next changes the error map; only Next, Previous or a tab changes the step |
| Wizard.DispatchPreservesConsistent | src/App.js:131-271 | every control a page renders keeps the step in 1..3, page 1 valid once past it, and page 2 valid on page 3 |
| Wizard.RunPreservesConsistent | src/App.js:87-128 | the same invariant holds after any sequence of user events |
| Wizard.SubmittedRecordPassedBothSteps | src/App.js:255-270 | from any mounted record and after any events, the step stays in 1..3 and a submitted record satisfies every rule of pages 1 and 2 |
| Wizard.NextThenPrevious | src/App.js:87-96 | a successful Next from page 1 followed by Previous returns to page 1 with the same record and no errors |
| Scenarios.ShortNameAndDotlessEmailStay | src/App.js:42-52 | "Jo" / "a@b" / "1234567890" stays on page 1 with errors on name and email but not phone |
| Scenarios.CompletePage1Advances | src/App.js:87-91 | "Joe" / "a@b.com" / "1234567890" advances to page 2 with an empty error map |
| Scenarios.ZipLengths | src/App.js:76-80 | zip "1234" blocks page 2; "12345" and "123456" pass |
| Scenarios.TabsForwardAndBack | src/App.js:109-128 | tab 3 from page 1 is a no-op; tab 1 from page 3 moves to page 1 |

## Left out

- Persistence (src/App.js:21-31). Loading from `localStorage` and `JSON.parse`, and saving with `JSON.stringify`, are browser I/O. The stored record is a parameter of `Wizard.Start`. A stored object with missing or extra keys cannot be represented by `Record`, and a malformed one would make `JSON.parse` throw.
- React scheduling. The model does not cover `useState`/`useEffect` timing, batching of updates, or `handleChange` reading a stale `formData` or `errors` from its closure. Each event is applied to the state left by the previous one.
- Rendering. The JSX/MUI markup and the `active` class of the current tab are presentation. Only which controls each page renders is modelled, in `Wizard.Offered`.
- Submission side effects. `preventDefault`, `alert` and `console.log` have no logic. `Wizard.Submit` only returns the record it would log.
- Wizard.HandleChange: the page writes any `e.target.name`. The model's edits are limited to the eight fields, because the inputs only carry those names.
- Text.MatchesDigits, Validation.NameRule: lengths are sequence lengths. JavaScript counts UTF-16 code units, so a name with characters outside the Basic Multilingual Plane has a larger `length` in the page than in the model.
- Wizard.NextStep, Wizard.PrevStep: outside pages 1..3 they compute what the code computes (page 3 → 4, page 1 → 0). The page never offers those buttons there, and `Valid` is only proved for the events the page offers.
