/**
 Concrete runs of the controller on small inputs.
 */
module Scenarios {
  import opened Form
  import opened Text
  import opened Validation
  import opened Wizard

  /** Page 1 filled with the given name, email and phone; every other field empty. */
  function Page1(name: string, email: string, phone: string): (w: WizardState)
    ensures w.step == 1
    ensures w.data.name == name && w.data.email == email && w.data.phone == phone
  {
    Start(Empty().(name := name, email := email, phone := phone))
  }

  /** Page 2 with valid page-1 data and the given zip; the other step-2 fields filled. */
  function Page2(zip: string): (w: WizardState)
    ensures w.step == 2 && w.data.zip == zip
    ensures w.data.address1 != "" && w.data.city != "" && w.data.state != ""
  {
    WizardState(2, Record("Joe", "a@b.com", "1234567890", "1 Main St", "", "Springfield", "IL", zip), map[])
  }

  /**
   "Jo" is too short, and "a@b" has no '.', so Next stays on page 1 with
   errors on both name and email; the phone passes.
   */
  lemma ShortNameAndDotlessEmailStay()
    ensures NextStep(Page1("Jo", "a@b", "1234567890")).step == 1
    ensures HasError(NextStep(Page1("Jo", "a@b", "1234567890")).errors, "name")
    ensures HasError(NextStep(Page1("Jo", "a@b", "1234567890")).errors, "email")
    ensures !HasError(NextStep(Page1("Jo", "a@b", "1234567890")).errors, "phone")
  {
    var w := Page1("Jo", "a@b", "1234567890");
    assert !FieldOk(Name, w.data.Get(Name));
    assert '.' !in w.data.email;
    assert !FieldOk(Email, w.data.Get(Email));
    assert AllDigits(w.data.phone);
    assert FieldOk(Phone, w.data.Get(Phone));
    assert Key(Name) == "name" && Key(Email) == "email" && Key(Phone) == "phone";
  }

  /** A complete page 1 advances to page 2 and leaves no errors. */
  lemma CompletePage1Advances()
    ensures NextStep(Page1("Joe", "a@b.com", "1234567890")).step == 2
    ensures NextStep(Page1("Joe", "a@b.com", "1234567890")).errors == map[]
  {
    var w := Page1("Joe", "a@b.com", "1234567890");
    assert w.data.email[1] == '@' && w.data.email[3] == '.';
    assert AllDigits(w.data.phone);
    assert FieldOk(Name, w.data.Get(Name)) && FieldOk(Email, w.data.Get(Email)) && FieldOk(Phone, w.data.Get(Phone));
    assert StepOk(1, w.data);
  }

  /** A four-digit zip blocks page 2; five or six digits let it through. */
  lemma ZipLengths()
    ensures NextStep(Page2("1234")).step == 2
    ensures NextStep(Page2("12345")).step == 3
    ensures NextStep(Page2("123456")).step == 3
  {
    assert !FieldOk(Zip, Page2("1234").data.Get(Zip));
    assert AllDigits("12345") && AllDigits("123456");
    assert FieldOk(Zip, Page2("12345").data.Get(Zip)) && StepOk(2, Page2("12345").data);
    assert FieldOk(Zip, Page2("123456").data.Get(Zip)) && StepOk(2, Page2("123456").data);
  }

  /** From page 1 the page-3 tab is disabled; from page 3 the page-1 tab works. */
  lemma TabsForwardAndBack(d: Record)
    ensures SelectTab(Start(d), 3) == Start(d)
    ensures SelectTab(WizardState(3, d, map[]), 1).step == 1
  {
  }
}
