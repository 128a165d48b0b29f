/** The step logic of the seller's add-listing wizard: four steps (basic information, location,
    amenities, preview), a form of text fields, and the per-step validation that decides whether
    the seller may move on. */
module AddListing {
  import opened Common
  import opened Text
  import opened Collections

  /** The number of wizard steps; the last one is `LAST_STEP`. */
  const STEP_COUNT := 4
  const LAST_STEP := STEP_COUNT - 1

  /** The wizard's form, every field as typed. */
  datatype Form = Form(
    title: string, description: string, propertyType: string, price: string, area: string,
    areaUnit: string, bedrooms: string, bathrooms: string, facing: string,
    address: string, city: string, state: string, pincode: string, amenities: seq<string>)

  /** The empty form the wizard opens with. */
  const INITIAL_FORM := Form("", "", "apartment", "", "", "sqft", "", "", "", "", "", "", "", [])

  /** `toggleAmenity`: a chosen amenity is removed (every copy of it), another one appended. */
  function ToggleAmenity(amenities: seq<string>, a: string): (r: seq<string>)
    ensures a in r <==> a !in amenities
    ensures forall x :: x != a ==> (x in r <==> x in amenities)
    ensures a !in amenities ==> r == amenities + [a]
  {
    if a in amenities then RemoveAll(amenities, a) else amenities + [a]
  }

  /** Choosing an amenity and then un-choosing it restores the list. */
  lemma ToggleAmenityTwice(amenities: seq<string>, a: string)
    requires a !in amenities
    ensures ToggleAmenity(ToggleAmenity(amenities, a), a) == amenities
  {
    AppendThenRemove(amenities, a);
  }

  /** `!s.trim()`: nothing but white space (`BlankIsEmptyTrim` ties the two). */
  predicate Blank(s: string)
  {
    AllSpace(s)
  }

  lemma BlankIsEmptyTrim(s: string)
    ensures Blank(s) <==> Trim(s) == []
  {
    TrimEmpty(s);
  }

  /** The form fields the validation may flag, named as the error map names them. */
  datatype Field = Title | Description | Price | Area | Address | State | Pincode

  /** The fields a step checks: title, description, price and area on the first step; address,
      state and pincode on the second (the city is not checked); nothing afterwards. */
  function StepFields(step: int): (r: set<Field>)
    ensures step != 0 && step != 1 ==> r == {}
    ensures step == 1 ==> Title !in r && Price !in r
  {
    if step == 0 then {Title, Description, Price, Area}
    else if step == 1 then {Address, State, Pincode}
    else {}
  }

  /** The form's text for a checked field. */
  function FieldText(f: Form, field: Field): string
  {
    match field
    case Title => f.title
    case Description => f.description
    case Price => f.price
    case Area => f.area
    case Address => f.address
    case State => f.state
    case Pincode => f.pincode
  }

  /** Whether a checked field is missing: the price only when it is the empty string, every
      other field when it is blank after trimming. */
  predicate Missing(f: Form, field: Field)
  {
    if field == Price then f.price == [] else Blank(FieldText(f, field))
  }

  /** The fields `validateStep` flags on a step. */
  function Flagged(step: int, f: Form): (r: set<Field>)
    ensures r <= StepFields(step)
    ensures forall field :: field in StepFields(step) ==> (field in r <==> Missing(f, field))
  {
    FlaggedAmong(StepFields(step), f)
  }

  /** The missing fields among `fields`. */
  function FlaggedAmong(fields: set<Field>, f: Form): (r: set<Field>)
    ensures forall field :: field in r <==> field in fields && Missing(f, field)
  {
    set field | field in fields && Missing(f, field)
  }

  /** Checking one more field adds it exactly when it is missing. */
  lemma FlaggedAmongAdd(fields: set<Field>, x: Field, f: Form)
    ensures FlaggedAmong(fields + {x}, f) == FlaggedAmong(fields, f) + (if Missing(f, x) then {x} else {})
  {
  }

  /** The message shown under a flagged field. */
  function Message(field: Field): string
  {
    match field
    case Title => "Title is required"
    case Description => "Description is required"
    case Price => "Price is required"
    case Area => "Area is required"
    case Address => "Address is required"
    case State => "State is required"
    case Pincode => "Pincode is required"
  }

  /** `e` flags exactly the missing fields among `fields`, each with its message. */
  predicate ErrorsFor(e: map<Field, string>, fields: set<Field>, f: Form)
  {
    (forall x :: x in e <==> x in fields && Missing(f, x)) && forall x :: x in e ==> e[x] == Message(x)
  }

  /** One more check: a missing field is added with its message, a present one adds nothing. */
  lemma CheckField(e: map<Field, string>, fields: set<Field>, x: Field, f: Form)
    requires ErrorsFor(e, fields, f)
    ensures ErrorsFor(if Missing(f, x) then e[x := Message(x)] else e, fields + {x}, f)
  {
  }

  /** The error map is empty exactly when nothing the step checks is missing. */
  lemma ErrorsForEmpty(e: map<Field, string>, step: int, f: Form)
    requires ErrorsFor(e, StepFields(step), f)
    ensures e == map[] <==> Flagged(step, f) == {}
  {
    if Flagged(step, f) != {} {
      var x :| x in Flagged(step, f);
      assert x in e;
    }
  }

  /** The last two steps have nothing to check, and no step looks at the city: a form that
      differs only in its city is flagged the same way. */
  lemma {:induction false} UncheckedFields(f: Form, step: int, city: string)
    ensures Flagged(2, f) == {} && Flagged(3, f) == {}
    ensures Flagged(step, f.(city := city)) == Flagged(step, f)
  {
    var g := f.(city := city);
    forall field | field in StepFields(step) ensures Missing(g, field) <==> Missing(f, field) {
      assert FieldText(g, field) == FieldText(f, field);
    }
  }

  /** A price of nothing but spaces passes the first step's check, while a title of the same
      spaces does not. */
  lemma BlankPriceAccepted(f: Form)
    requires f.price != [] && Trim(f.price) == [] && f.title == f.price
    ensures Price !in Flagged(0, f) && Title in Flagged(0, f)
  {
    BlankIsEmptyTrim(f.title);
  }

  /** The body of `validateStep`: the error map built field by field, holding exactly the
      step's missing fields, each with its message. */
  method CollectErrors(step: int, form: Form) returns (e: map<Field, string>)
    ensures ErrorsFor(e, StepFields(step), form)
  {
    e := map[];
    ghost var before, checked := e, {};
    if step == 0 {
      if Blank(form.title) {
        e := e[Title := Message(Title)];
      }
      CheckField(before, checked, Title, form);
      before, checked := e, checked + {Title};
      if Blank(form.description) {
        e := e[Description := Message(Description)];
      }
      CheckField(before, checked, Description, form);
      before, checked := e, checked + {Description};
      if form.price == [] {
        e := e[Price := Message(Price)];
      }
      CheckField(before, checked, Price, form);
      before, checked := e, checked + {Price};
      if Blank(form.area) {
        e := e[Area := Message(Area)];
      }
      CheckField(before, checked, Area, form);
      assert checked + {Area} == StepFields(step);
    } else if step == 1 {
      if Blank(form.address) {
        e := e[Address := Message(Address)];
      }
      CheckField(before, checked, Address, form);
      before, checked := e, checked + {Address};
      if Blank(form.state) {
        e := e[State := Message(State)];
      }
      CheckField(before, checked, State, form);
      before, checked := e, checked + {State};
      if Blank(form.pincode) {
        e := e[Pincode := Message(Pincode)];
      }
      CheckField(before, checked, Pincode, form);
      assert checked + {Pincode} == StepFields(step);
    }
  }

  class Wizard {
    var step: int
    var form: Form
    var errors: map<Field, string>

    /** The wizard is always on one of its steps. */
    ghost predicate Valid()
      reads this
    {
      0 <= step <= LAST_STEP
    }

    constructor ()
      ensures step == 0 && form == INITIAL_FORM && errors == map[]
      ensures Valid()
    {
      step := 0;
      form := INITIAL_FORM;
      errors := map[];
    }

    /** `toggleAmenity` applied to the form. */
    method ToggleAmenityChoice(a: string)
      modifies this
      ensures form == old(form).(amenities := ToggleAmenity(old(form).amenities, a))
      ensures step == old(step) && errors == old(errors)
    {
      form := form.(amenities := ToggleAmenity(form.amenities, a));
    }

    /** `validateStep`: the error map holds exactly the current step's missing fields, each with
        its message, and the step is valid exactly when the map is empty. */
    method ValidateStep() returns (isValid: bool)
      modifies this
      ensures ErrorsFor(errors, StepFields(step), form)
      ensures errors.Keys == Flagged(step, form)
      ensures isValid <==> Flagged(step, form) == {}
      ensures step == old(step) && form == old(form)
    {
      var e := CollectErrors(step, form);
      errors := e;
      isValid := e == map[];
      ErrorsForEmpty(e, step, form);
    }

    /** `handleNext`: validate, then move on only from a valid step before the last. */
    method HandleNext()
      modifies this
      requires Valid()
      ensures step == if Flagged(old(step), old(form)) == {} && old(step) < LAST_STEP then old(step) + 1 else old(step)
      ensures errors.Keys == Flagged(old(step), old(form))
      ensures ErrorsFor(errors, StepFields(old(step)), old(form))
      ensures form == old(form)
      ensures Valid()
    {
      var isValid := ValidateStep();
      if isValid && step < LAST_STEP {
        step := step + 1;
      }
    }

    /** The back button: one step back, or leave the screen (`leaves`) from the first step. */
    method Back() returns (leaves: bool)
      modifies this
      requires Valid()
      ensures leaves <==> old(step) == 0
      ensures step == if old(step) > 0 then old(step) - 1 else old(step)
      ensures form == old(form) && errors == old(errors)
      ensures Valid()
    {
      if step > 0 {
        step := step - 1;
        leaves := false;
      } else {
        leaves := true;
      }
    }
  }
}
