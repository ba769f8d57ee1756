/**
 The form record of the multi-step wizard: eight string-valued fields, all
 always present, addressed by the property names the input widgets carry.
 */
module Form {

  /** The eight fields of the form, in the order the record declares them. */
  datatype Field = Name | Email | Phone | Address1 | Address2 | City | State | Zip

  /** The property name under which a field is stored in the record and in the error map. */
  function Key(f: Field): string
  {
    match f
    case Name => "name"
    case Email => "email"
    case Phone => "phone"
    case Address1 => "address1"
    case Address2 => "address2"
    case City => "city"
    case State => "state"
    case Zip => "zip"
  }

  /** Distinct fields are stored under distinct property names. */
  lemma KeyInjective(f: Field, g: Field)
    ensures Key(f) == Key(g) <==> f == g
  {
  }

  /** The form data: one string per field; an untouched field holds the empty string. */
  datatype Record = Record(name: string, email: string, phone: string,
                           address1: string, address2: string,
                           city: string, state: string, zip: string)
  {
    /** The current value of field `f`. */
    function Get(f: Field): string
    {
      match f
      case Name => name
      case Email => email
      case Phone => phone
      case Address1 => address1
      case Address2 => address2
      case City => city
      case State => state
      case Zip => zip
    }

    /** The record with field `f` overwritten by `v` (the spread-and-override update). */
    function Set(f: Field, v: string): (r: Record)
      ensures r.Get(f) == v
      ensures forall g :: g != f ==> r.Get(g) == Get(g)
    {
      match f
      case Name => this.(name := v)
      case Email => this.(email := v)
      case Phone => this.(phone := v)
      case Address1 => this.(address1 := v)
      case Address2 => this.(address2 := v)
      case City => this.(city := v)
      case State => this.(state := v)
      case Zip => this.(zip := v)
    }
  }

  /** Two records are equal exactly when every field holds the same value. */
  lemma RecordExtensionality(a: Record, b: Record)
    ensures a == b <==> forall f :: a.Get(f) == b.Get(f)
  {
    if forall f :: a.Get(f) == b.Get(f) {
      assert a.Get(Name) == b.Get(Name) && a.Get(Email) == b.Get(Email);
      assert a.Get(Phone) == b.Get(Phone) && a.Get(Address1) == b.Get(Address1);
      assert a.Get(Address2) == b.Get(Address2) && a.Get(City) == b.Get(City);
      assert a.Get(State) == b.Get(State) && a.Get(Zip) == b.Get(Zip);
    }
  }

  /** Writing back the value a field already holds changes nothing. */
  lemma SetGetIdentity(r: Record, f: Field)
    ensures r.Set(f, r.Get(f)) == r
  {
    RecordExtensionality(r.Set(f, r.Get(f)), r);
  }

  /** Of two writes to the same field, the later one wins. */
  lemma SetSetOverwrite(r: Record, f: Field, u: string, v: string)
    ensures r.Set(f, u).Set(f, v) == r.Set(f, v)
  {
    RecordExtensionality(r.Set(f, u).Set(f, v), r.Set(f, v));
  }

  /** Writes to two different fields commute. */
  lemma SetSetCommute(r: Record, f: Field, g: Field, u: string, v: string)
    requires f != g
    ensures r.Set(f, u).Set(g, v) == r.Set(g, v).Set(f, u)
  {
    RecordExtensionality(r.Set(f, u).Set(g, v), r.Set(g, v).Set(f, u));
  }

  /** The record the wizard starts from: every field empty. */
  function Empty(): (r: Record)
    ensures forall f :: r.Get(f) == ""
  {
    Record("", "", "", "", "", "", "", "")
  }
}
