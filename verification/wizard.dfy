/**
 The wizard controller: the current step, the form record and the error map,
 and the transitions the page's controls trigger — field edits, Next,
 Previous, the three step tabs and Submit.
 */
module Wizard {
  import opened Form
  import opened Validation

  /**
   The controller's state. `step` is the page number held in component state;
   it is a plain integer so that the transitions can be stated as the page
   computes them, and `Valid` is the range the controls keep it in.
   */
  datatype WizardState = WizardState(step: int, data: Record, errors: Errors)

  /** The three pages are numbered 1 to 3. */
  predicate Valid(w: WizardState)
  {
    1 <= w.step <= 3
  }

  /** The state after mounting with `data` (the empty record, or what was stored earlier). */
  function Start(data: Record): (w: WizardState)
    ensures Valid(w) && w.step == 1
    ensures w.data == data
    ensures forall k :: !HasError(w.errors, k)
  {
    WizardState(1, data, map[])
  }

  /**
   `handleChange`: the edited field takes the new value and its error entry
   is set to the empty message; nothing else changes and nothing is
   re-validated.
   */
  function HandleChange(w: WizardState, f: Field, v: string): (w': WizardState)
    ensures w'.step == w.step
    ensures w'.data.Get(f) == v
    ensures forall g :: g != f ==> w'.data.Get(g) == w.data.Get(g)
    ensures Key(f) in w'.errors && !HasError(w'.errors, Key(f))
    ensures forall k :: k != Key(f) ==> (k in w'.errors <==> k in w.errors)
    ensures forall k :: k != Key(f) && k in w.errors ==> w'.errors[k] == w.errors[k]
  {
    WizardState(w.step, w.data.Set(f, v), w.errors[Key(f) := ""])
  }

  /**
   `nextStep`: on pages 1 and 2 the page's validator runs, its error map
   replaces the old one, and the step advances by one exactly when it
   passed. On any other page the step is incremented with no validation;
   the page offers no Next button there.
   */
  function NextStep(w: WizardState): (w': WizardState)
    ensures w'.data == w.data
    ensures w.step == 1 || w.step == 2 ==>
              (w'.step == w.step + 1 <==> StepOk(w.step, w.data)) &&
              (w'.step == w.step <==> !StepOk(w.step, w.data))
    ensures w.step == 1 || w.step == 2 ==>
              forall f :: HasError(w'.errors, Key(f)) <==> StepOf(f) == w.step && !FieldOk(f, w.data.Get(f))
    ensures w.step == 1 || w.step == 2 ==> (w'.errors == map[] <==> w'.step == w.step + 1)
    ensures w.step == 1 ==> w'.errors.Keys <= {"name", "email", "phone"}
    ensures w.step == 2 ==> w'.errors.Keys <= {"address1", "city", "state", "zip"}
    ensures w.step == 1 ==> w'.errors == ValidateStep1(w.data).errors
    ensures w.step == 2 ==> w'.errors == ValidateStep2(w.data).errors
    ensures w.step != 1 && w.step != 2 ==> w'.step == w.step + 1 && w'.errors == w.errors
  {
    if w.step == 1 then
      var o := ValidateStep1(w.data);
      if !o.passed then w.(errors := o.errors)
      else w.(errors := o.errors, step := w.step + 1)
    else if w.step == 2 then
      var o := ValidateStep2(w.data);
      if !o.passed then w.(errors := o.errors)
      else w.(errors := o.errors, step := w.step + 1)
    else
      w.(step := w.step + 1)
  }

  /** `prevStep`: one page back, with no validation and no change to data or errors. */
  function PrevStep(w: WizardState): (w': WizardState)
    ensures w'.step + 1 == w.step
    ensures w'.data == w.data && w'.errors == w.errors
  {
    w.(step := w.step - 1)
  }

  /** Tab `n` is clickable: tab 1 always, tabs 2 and 3 unless `step < n`. */
  predicate TabEnabled(step: int, n: int)
  {
    n == 1 || !(step < n)
  }

  /** On a page 1..3, exactly the tabs of pages already reached are enabled. */
  lemma TabEnabledIffReached(step: int, n: int)
    requires 1 <= step <= 3 && 1 <= n <= 3
    ensures TabEnabled(step, n) <==> n <= step
  {
  }

  /**
   A click on tab `n`: an enabled tab jumps straight to page `n` with no
   validation; a disabled tab ignores the click.
   */
  function SelectTab(w: WizardState, n: int): (w': WizardState)
    requires 1 <= n <= 3
    ensures w'.data == w.data && w'.errors == w.errors
    ensures Valid(w) ==> Valid(w')
    ensures Valid(w) && n <= w.step ==> w'.step == n
    ensures Valid(w) && n > w.step ==> w' == w
  {
    if TabEnabled(w.step, n) then w.(step := n) else w
  }

  /** What the submit handler hands on: nothing, or the record as it stands. */
  datatype Submission = NotSubmitted | Submitted(record: Record)

  /**
   `handleSubmit`: the Submit button exists only on page 3; it delivers the
   current record unchanged and performs no further validation.
   */
  function Submit(w: WizardState): (s: Submission)
    ensures s.Submitted? <==> w.step == 3
    ensures s.Submitted? ==> s.record == w.data
  {
    if w.step == 3 then Submitted(w.data) else NotSubmitted
  }

  /** A user action on the page. */
  datatype Event = Edit(field: Field, value: string) | Next | Previous | Tab(n: int) | SubmitForm

  /**
   The controls the page renders at a given step: the inputs of that page,
   Next on pages 1 and 2, Previous on pages 2 and 3, Submit on page 3, and
   the three tabs always.
   */
  predicate Offered(w: WizardState, e: Event)
  {
    match e
    case Edit(f, _) => StepOf(f) == w.step
    case Next => w.step == 1 || w.step == 2
    case Previous => w.step == 2 || w.step == 3
    case Tab(n) => 1 <= n <= 3
    case SubmitForm => w.step == 3
  }

  /**
   On each page: inputs exist only on pages 1 and 2, address line 2 only on
   page 2, Next only below page 3, Previous only above page 1, Submit only on
   page 3, and every tab is always rendered (a disabled one ignores clicks).
   */
  lemma PageControls(w: WizardState, v: string)
    requires Valid(w)
    ensures forall f :: Offered(w, Edit(f, v)) ==> w.step < 3
    ensures Offered(w, Edit(Address2, v)) <==> w.step == 2
    ensures Offered(w, Next) <==> w.step < 3
    ensures Offered(w, Previous) <==> w.step > 1
    ensures Offered(w, SubmitForm) <==> w.step == 3
    ensures forall n :: 1 <= n <= 3 ==> Offered(w, Tab(n))
  {
  }

  /**
   The controller's reaction to one event; an event with no control on the
   page changes nothing. Only an edit changes the record, and only an edit or
   Next changes the error map.
   */
  function Dispatch(w: WizardState, e: Event): (w': WizardState)
    ensures !Offered(w, e) ==> w' == w
    ensures e.SubmitForm? ==> w' == w
    ensures w'.data != w.data ==> e.Edit? && StepOf(e.field) == w.step
    ensures w'.errors != w.errors ==> e.Edit? || e.Next?
    ensures w'.step != w.step ==> e.Next? || e.Previous? || e.Tab?
  {
    if !Offered(w, e) then w
    else
      match e
      case Edit(f, v) => HandleChange(w, f, v)
      case Next => NextStep(w)
      case Previous => PrevStep(w)
      case Tab(n) => SelectTab(w, n)
      case SubmitForm => w
  }

  /** The state after a sequence of events, in order. */
  function Run(w: WizardState, events: seq<Event>): WizardState
    decreases |events|
  {
    if events == [] then w else Run(Dispatch(w, events[0]), events[1..])
  }

  /**
   The controller's invariant: the step is a page number, being on page 2 or
   later means the step-1 fields are acceptable, and being on page 3 means
   the step-2 fields are too.
   */
  predicate Consistent(w: WizardState)
  {
    && Valid(w)
    && (w.step >= 2 ==> StepOk(1, w.data))
    && (w.step == 3 ==> StepOk(2, w.data))
  }

  /** Every event the page offers keeps the controller consistent. */
  lemma DispatchPreservesConsistent(w: WizardState, e: Event)
    requires Consistent(w)
    ensures Consistent(Dispatch(w, e))
  {
  }

  /** Typing back the value a field already holds leaves the record as it was; only the error entry is cleared. */
  lemma EditSameValue(w: WizardState, f: Field)
    ensures HandleChange(w, f, w.data.Get(f)).data == w.data
    ensures HandleChange(w, f, w.data.Get(f)).errors == w.errors[Key(f) := ""]
  {
    SetGetIdentity(w.data, f);
  }

  /** Two edits of the same field leave the state the later edit alone would. */
  lemma EditTwice(w: WizardState, f: Field, u: string, v: string)
    ensures HandleChange(HandleChange(w, f, u), f, v) == HandleChange(w, f, v)
  {
    SetSetOverwrite(w.data, f, u, v);
  }

  /** Edits of two different fields give the same state in either order. */
  lemma EditsCommute(w: WizardState, f: Field, g: Field, u: string, v: string)
    requires f != g
    ensures HandleChange(HandleChange(w, f, u), g, v) == HandleChange(HandleChange(w, g, v), f, u)
  {
    SetSetCommute(w.data, f, g, u, v);
    KeyInjective(f, g);
  }

  /** Any sequence of events keeps the controller consistent. */
  lemma {:induction false} RunPreservesConsistent(w: WizardState, events: seq<Event>)
    requires Consistent(w)
    ensures Consistent(Run(w, events))
    decreases |events|
  {
    if events != [] {
      DispatchPreservesConsistent(w, events[0]);
      RunPreservesConsistent(Dispatch(w, events[0]), events[1..]);
    }
  }

  /**
   Whatever was stored and whatever the user does, the step stays within
   1..3 and a record that reaches Submit satisfies every rule of both steps,
   although Submit itself validates nothing.
   */
  lemma SubmittedRecordPassedBothSteps(stored: Record, events: seq<Event>)
    ensures Valid(Run(Start(stored), events))
    ensures Submit(Run(Start(stored), events)).Submitted? ==>
              StepOk(1, Submit(Run(Start(stored), events)).record) &&
              StepOk(2, Submit(Run(Start(stored), events)).record)
  {
    RunPreservesConsistent(Start(stored), events);
  }

  /** A page-1 Next that succeeds followed by Previous returns to page 1 with no errors and the same data. */
  lemma NextThenPrevious(w: WizardState)
    requires w.step == 1 && StepOk(1, w.data)
    ensures PrevStep(NextStep(w)) == Start(w.data)
  {
  }
}
