/**
 The two per-step validators. Each builds a fresh error map (field key to
 message) holding one entry per failing field of its step, and reports
 success exactly when that map has no keys.
 */
module Validation {
  import opened Form
  import opened Text

  /** The outcome of one field's check: passes, or fails with a message. */
  datatype Check = Pass | Fail(message: string)

  /** The error map: field key to message. A key mapped to "" means "no error". */
  type Errors = map<string, string>

  /** A field shows an error when its key is present with a non-empty message. */
  predicate HasError(errors: Errors, key: string)
  {
    key in errors && errors[key] != ""
  }

  /**
   Clearing an entry by mapping it to "" shows the same errors as deleting
   it: the cleared field shows none and every other field is unaffected.
   */
  lemma ClearingHidesOnlyThatError(errors: Errors, key: string)
    ensures !HasError(errors[key := ""], key)
    ensures forall k :: HasError(errors[key := ""], k) <==> HasError(errors - {key}, k)
    ensures forall k :: k != key ==> (HasError(errors[key := ""], k) <==> HasError(errors, k))
  {
  }

  /** The wizard step whose page shows (and whose validator checks) a field. */
  function StepOf(f: Field): int
  {
    match f
    case Name | Email | Phone => 1
    case Address1 | Address2 | City | State | Zip => 2
  }

  /**
   The acceptance rule of each field, stated directly on the value: a name of
   at least three characters, an email containing both '@' and '.', exactly
   ten digits of phone, non-empty address line 1, city and state, five or six
   digits of zip, and anything at all for address line 2.
   */
  predicate FieldOk(f: Field, v: string)
  {
    match f
    case Name => |v| >= 3
    case Email => '@' in v && '.' in v
    case Phone => |v| == 10 && AllDigits(v)
    case Address1 | City | State => v != ""
    case Address2 => true
    case Zip => (|v| == 5 || |v| == 6) && AllDigits(v)
  }

  /** Every field of step `n` satisfies its rule. */
  predicate StepOk(n: int, r: Record)
  {
    forall f :: StepOf(f) == n ==> FieldOk(f, r.Get(f))
  }

  const NameRequired := "Name is a required field"
  const NameTooShort := "Name must be at least 3 characters"
  const EmailRequired := "Email is a required field"
  const EmailInvalid := "Please enter a valid email address"
  const PhoneRequired := "Phone number is a required field"
  const PhoneInvalid := "Phone number must be 10 digits"
  const Address1Required := "Address Line 1 is a required field"
  const CityRequired := "City is a required field"
  const StateRequired := "State is a required field"
  const ZipRequired := "Zip Code is a required field"
  const ZipInvalid := "Zip Code must be 5 or 6 digits"

  /** The message shown when a validated field is left empty. */
  function RequiredMessage(f: Field): string
  {
    match f
    case Name => NameRequired
    case Email => EmailRequired
    case Phone => PhoneRequired
    case Address1 => Address1Required
    case City => CityRequired
    case State => StateRequired
    case Zip => ZipRequired
    case Address2 => ""
  }

  /**
   The message shown when a non-empty value breaks its field's rule. Only
   name, email, phone and zip have a rule beyond being non-empty.
   */
  function FormatMessage(f: Field): string
  {
    match f
    case Name => NameTooShort
    case Email => EmailInvalid
    case Phone => PhoneInvalid
    case Zip => ZipInvalid
    case Address1 | Address2 | City | State => ""
  }

  /**
   One field's check, in the order the validator tests them: emptiness
   first, then the length, substring or digit-pattern test.
   */
  function CheckField(f: Field, v: string): (c: Check)
    ensures c.Fail? <==> !FieldOk(f, v)
    ensures c.Fail? ==> c.message != ""
    ensures f != Address2 && v == "" ==> c == Fail(RequiredMessage(f))
    ensures v != "" && !FieldOk(f, v) ==> c == Fail(FormatMessage(f))
  {
    match f
    case Name =>
      if v == "" then Fail(NameRequired)
      else if |v| < 3 then Fail(NameTooShort)
      else Pass
    case Email =>
      IncludesOneChar(v, '@');
      IncludesOneChar(v, '.');
      if v == "" then Fail(EmailRequired)
      else if !Includes(v, "@") || !Includes(v, ".") then Fail(EmailInvalid)
      else Pass
    case Phone =>
      if v == "" then Fail(PhoneRequired)
      else if !MatchesDigits(v, 10, 10) then Fail(PhoneInvalid)
      else Pass
    case Address1 => if v == "" then Fail(Address1Required) else Pass
    case City => if v == "" then Fail(CityRequired) else Pass
    case State => if v == "" then Fail(StateRequired) else Pass
    case Zip =>
      if v == "" then Fail(ZipRequired)
      else if !MatchesDigits(v, 5, 6) then Fail(ZipInvalid)
      else Pass
    case Address2 => Pass
  }

  /** The keys of a list of fields. */
  function KeysOf(fields: seq<Field>): set<string>
  {
    set f | f in fields :: Key(f)
  }

  /**
   The error map for the fields in `fields`: one entry, holding the check's
   message, for each failing field and nothing else.
   */
  function CollectErrors(r: Record, fields: seq<Field>): (m: Errors)
    ensures m.Keys <= KeysOf(fields)
    ensures forall f :: Key(f) in m <==> f in fields && CheckField(f, r.Get(f)).Fail?
    ensures forall f :: Key(f) in m ==> CheckField(f, r.Get(f)) == Fail(m[Key(f)])
    decreases |fields|
  {
    if fields == [] then map[]
    else
      var rest := CollectErrors(r, fields[1..]);
      var f := fields[0];
      assert forall g :: Key(g) == Key(f) ==> g == f by {
        forall g ensures Key(g) == Key(f) ==> g == f { KeyInjective(g, f); }
      }
      match CheckField(f, r.Get(f))
      case Pass => rest
      case Fail(msg) => rest[Key(f) := msg]
  }

  /** What a validator hands back: the new error map and whether the step passed. */
  datatype Outcome = Outcome(passed: bool, errors: Errors)

  /** The fields each validator checks; address line 2 is never checked. */
  const Step1Fields: seq<Field> := [Name, Email, Phone]
  const Step2Fields: seq<Field> := [Address1, City, State, Zip]

  /** The collected map is empty exactly when every field of the step passes. */
  lemma NoErrorsIffStepOk(r: Record, fields: seq<Field>, n: int)
    requires forall f :: f in fields <==> StepOf(f) == n && f != Address2
    ensures CollectErrors(r, fields) == map[] <==> StepOk(n, r)
  {
  }

  /** The property names each validator may write. */
  lemma StepKeys()
    ensures KeysOf(Step1Fields) == {"name", "email", "phone"}
    ensures KeysOf(Step2Fields) == {"address1", "city", "state", "zip"}
  {
    assert Key(Name) in KeysOf(Step1Fields) && Key(Email) in KeysOf(Step1Fields) && Key(Phone) in KeysOf(Step1Fields);
    assert Key(Address1) in KeysOf(Step2Fields) && Key(City) in KeysOf(Step2Fields);
    assert Key(State) in KeysOf(Step2Fields) && Key(Zip) in KeysOf(Step2Fields);
  }

  /** Validating `fields` of step `n`: the error map and its emptiness. */
  function ValidateFields(r: Record, fields: seq<Field>, n: int): (o: Outcome)
    requires forall f :: f in fields <==> StepOf(f) == n && f != Address2
    ensures o.errors.Keys <= KeysOf(fields)
    ensures o.passed <==> o.errors == map[]
    ensures o.passed <==> StepOk(n, r)
    ensures forall f :: HasError(o.errors, Key(f)) <==> StepOf(f) == n && !FieldOk(f, r.Get(f))
    ensures forall f :: Key(f) in o.errors ==> CheckField(f, r.Get(f)) == Fail(o.errors[Key(f)])
  {
    var m := CollectErrors(r, fields);
    NoErrorsIffStepOk(r, fields, n);
    Outcome(|m| == 0, m)
  }

  /**
   `validateStep1`: checks name, email and phone. The new error map replaces
   the old one, so errors of step 2 never survive it.
   */
  function ValidateStep1(r: Record): (o: Outcome)
    ensures o.errors.Keys <= {"name", "email", "phone"}
    ensures o.passed <==> o.errors == map[]
    ensures o.passed <==> StepOk(1, r)
    ensures forall f :: HasError(o.errors, Key(f)) <==> StepOf(f) == 1 && !FieldOk(f, r.Get(f))
    ensures forall f :: Key(f) in o.errors ==> CheckField(f, r.Get(f)) == Fail(o.errors[Key(f)])
  {
    StepKeys();
    ValidateFields(r, Step1Fields, 1)
  }

  /**
   `validateStep2`: checks address line 1, city, state and zip; address
   line 2 never receives an error.
   */
  function ValidateStep2(r: Record): (o: Outcome)
    ensures o.errors.Keys <= {"address1", "city", "state", "zip"}
    ensures o.passed <==> o.errors == map[]
    ensures o.passed <==> StepOk(2, r)
    ensures forall f :: HasError(o.errors, Key(f)) <==> StepOf(f) == 2 && !FieldOk(f, r.Get(f))
    ensures forall f :: Key(f) in o.errors ==> CheckField(f, r.Get(f)) == Fail(o.errors[Key(f)])
  {
    StepKeys();
    ValidateFields(r, Step2Fields, 2)
  }

  /** The name rule: an error iff the name is shorter than 3; "required" wins when empty. */
  lemma NameRule(r: Record)
    ensures HasError(ValidateStep1(r).errors, "name") <==> r.name == "" || |r.name| < 3
    ensures r.name == "" ==> ValidateStep1(r).errors["name"] == NameRequired
    ensures r.name != "" && |r.name| < 3 ==> ValidateStep1(r).errors["name"] == NameTooShort
  {
  }

  /** The email rule: an error iff it is empty or lacks '@' or lacks '.'. */
  lemma EmailRule(r: Record)
    ensures HasError(ValidateStep1(r).errors, "email") <==> r.email == "" || '@' !in r.email || '.' !in r.email
  {
  }

  /** The phone rule: accepted iff exactly ten ASCII digits. */
  lemma PhoneRule(r: Record)
    ensures !HasError(ValidateStep1(r).errors, "phone") <==>
            r.phone != "" && |r.phone| == 10 && forall i :: 0 <= i < |r.phone| ==> '0' <= r.phone[i] <= '9'
  {
  }

  /** Address line 1, city and state each get an error iff empty. */
  lemma RequiredRules(r: Record)
    ensures HasError(ValidateStep2(r).errors, "address1") <==> r.address1 == ""
    ensures HasError(ValidateStep2(r).errors, "city") <==> r.city == ""
    ensures HasError(ValidateStep2(r).errors, "state") <==> r.state == ""
  {
  }

  /** Address line 2 never receives an error, whatever it holds. */
  lemma Address2NeverChecked(r: Record)
    ensures "address2" !in ValidateStep2(r).errors
  {
  }

  /** The zip rule: accepted iff five or six ASCII digits. */
  lemma ZipRule(r: Record)
    ensures !HasError(ValidateStep2(r).errors, "zip") <==>
            (|r.zip| == 5 || |r.zip| == 6) && forall i :: 0 <= i < |r.zip| ==> '0' <= r.zip[i] <= '9'
  {
    assert Key(Zip) == "zip";
    assert HasError(ValidateStep2(r).errors, Key(Zip)) <==> !FieldOk(Zip, r.Get(Zip));
  }

  /** The errors collected over `fields` do not depend on a field outside `fields`. */
  lemma {:induction false} CollectIgnoresOtherFields(r: Record, fields: seq<Field>, f: Field, v: string)
    requires f !in fields
    ensures CollectErrors(r.Set(f, v), fields) == CollectErrors(r, fields)
    decreases |fields|
  {
    if fields != [] {
      CollectIgnoresOtherFields(r, fields[1..], f, v);
      assert r.Set(f, v).Get(fields[0]) == r.Get(fields[0]);
    }
  }

  /** Each validator looks only at its own step's fields: edits elsewhere do not change its outcome. */
  lemma ValidatorsAreStepScoped(r: Record, f: Field, v: string)
    ensures StepOf(f) != 1 ==> ValidateStep1(r.Set(f, v)) == ValidateStep1(r)
    ensures StepOf(f) != 2 || f == Address2 ==> ValidateStep2(r.Set(f, v)) == ValidateStep2(r)
  {
    if StepOf(f) != 1 {
      CollectIgnoresOtherFields(r, Step1Fields, f, v);
    }
    if StepOf(f) != 2 || f == Address2 {
      CollectIgnoresOtherFields(r, Step2Fields, f, v);
    }
  }
}
