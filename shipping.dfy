/** The shipping page: its step guard, the class-and-contact form with its checks in a fixed
    order, the record it stores (the form plus the fixed training-centre address), and the
    restore of a form saved earlier in the session. */
module Shipping {
  import opened Base
  import opened Session

  const ClassTypes: seq<string> := ["Corporate", "Pilot", "Maintenance", "Flight Attendant"]

  datatype Form = Form(firstName: string, lastName: string, email: string, classDate: string, classType: string)

  const EmptyForm := Form("", "", "", "", "")

  /** The form's inputs, by their `name` attribute. */
  datatype Field = FirstName | LastName | Email | ClassDate | ClassType

  function FieldOf(f: Form, field: Field): string {
    match field
    case FirstName => f.firstName
    case LastName => f.lastName
    case Email => f.email
    case ClassDate => f.classDate
    case ClassType => f.classType
  }

  /** `{ ...formData, [name]: value }`: the named field takes the value, the others stay. */
  function WithField(f: Form, field: Field, value: string): (r: Form)
    ensures FieldOf(r, field) == value
    ensures forall other :: other != field ==> FieldOf(r, other) == FieldOf(f, other)
  {
    match field
    case FirstName => f.(firstName := value)
    case LastName => f.(lastName := value)
    case Email => f.(email := value)
    case ClassDate => f.(classDate := value)
    case ClassType => f.(classType := value)
  }

  // ---------------------------------------------------------------- validation

  /** The checks of `handleSubmit`, in the order it makes them. */
  datatype Problem = NoFirstName | NoLastName | BadEmail | NoClassDate | BadClassType

  function ProblemText(p: Problem): string {
    match p
    case NoFirstName => "Please enter your first name"
    case NoLastName => "Please enter your last name"
    case BadEmail => "Please enter a valid email address"
    case NoClassDate => "Please select your class date"
    case BadClassType => "Please select your class type"
  }

  function Rank(p: Problem): nat {
    match p
    case NoFirstName => 0
    case NoLastName => 1
    case BadEmail => 2
    case NoClassDate => 3
    case BadClassType => 4
  }

  /** The form passes the check that reports `p`. */
  predicate Passes(f: Form, p: Problem) {
    match p
    case NoFirstName => Trim(f.firstName) != ""
    case NoLastName => Trim(f.lastName) != ""
    case BadEmail => f.email != "" && '@' in f.email
    case NoClassDate => f.classDate != ""
    case BadClassType => f.classType != "" && f.classType in ClassTypes
  }

  /** The first failing check, or `None` when the form may be submitted. */
  function Validate(f: Form): (r: Option<Problem>)
    ensures r.None? <==> forall p :: Passes(f, p)
    ensures r.Some? ==> !Passes(f, r.value) && forall q :: Rank(q) < Rank(r.value) ==> Passes(f, q)
  {
    if !Passes(f, NoFirstName) then Some(NoFirstName)
    else if !Passes(f, NoLastName) then Some(NoLastName)
    else if !Passes(f, BadEmail) then Some(BadEmail)
    else if !Passes(f, NoClassDate) then Some(NoClassDate)
    else if !Passes(f, BadClassType) then Some(BadClassType)
    else None
  }

  // ---------------------------------------------------------------- the stored record

  /** The fixed address every order ships to. */
  const DefaultAddress: map<string, string> := map[
    "name" := "Republic Airways Training Center",
    "attention" := "HR Shared Services",
    "address" := "2 Brickyard Ln",
    "address2" := "",
    "city" := "CARMEL",
    "state" := "IN",
    "zip" := "46032",
    "country" := "USA"]

  function FormFields(f: Form): map<string, string> {
    map["firstName" := f.firstName, "lastName" := f.lastName, "email" := f.email,
        "classDate" := f.classDate, "classType" := f.classType]
  }

  /** `{ ...formData, ...defaultShipping }`. */
  function ShippingRecord(f: Form): map<string, string> {
    FormFields(f) + DefaultAddress
  }

  /** The record holds the five form fields unchanged and the whole default address. */
  lemma ShippingRecordFields(f: Form)
    ensures var r := ShippingRecord(f);
      r.Keys == FormFields(f).Keys + DefaultAddress.Keys
      && (forall k :: k in FormFields(f) ==> r[k] == FormFields(f)[k])
      && (forall k :: k in DefaultAddress ==> r[k] == DefaultAddress[k])
  {
    assert FormFields(f).Keys !! DefaultAddress.Keys;
  }

  /** Each form field is stored under its own name. */
  lemma RecordHoldsForm(f: Form)
    ensures var r := ShippingRecord(f);
      "firstName" in r && r["firstName"] == f.firstName && "lastName" in r && r["lastName"] == f.lastName
      && "email" in r && r["email"] == f.email && "classDate" in r && r["classDate"] == f.classDate
      && "classType" in r && r["classType"] == f.classType
  {
    ShippingRecordFields(f);
  }

  /** `parsed.x || ''` for each form field of a parsed saved record. */
  function Restored(saved: map<string, string>): Form {
    Form(
      if "firstName" in saved then saved["firstName"] else "",
      if "lastName" in saved then saved["lastName"] else "",
      if "email" in saved then saved["email"] else "",
      if "classDate" in saved then saved["classDate"] else "",
      if "classType" in saved then saved["classType"] else "")
  }

  /** Restoring what `handleSubmit` stored gives back the submitted form. */
  lemma RestoreSubmitted(f: Form)
    ensures Restored(ShippingRecord(f)) == f
  {
    ShippingRecordFields(f);
  }

  /** The key a field is stored under. */
  function FieldName(field: Field): string {
    match field
    case FirstName => "firstName"
    case LastName => "lastName"
    case Email => "email"
    case ClassDate => "classDate"
    case ClassType => "classType"
  }

  /** Each restored field is the saved value under its key, or `''` when the key is missing. */
  lemma RestoreField(saved: map<string, string>, field: Field)
    ensures FieldOf(Restored(saved), field) == if FieldName(field) in saved then saved[FieldName(field)] else ""
  {
  }

  /** The form after the page mounts: the saved record's fields when a record is saved,
      otherwise (nothing saved, or a value that does not parse) the form as it was. */
  function SavedForm(storage: Storage, current: Form): Form {
    if ShippingKey in storage && storage[ShippingKey].Record? then Restored(storage[ShippingKey].fields)
    else current
  }

  // ---------------------------------------------------------------- the page

  class ShippingPage {
    var program: Option<string>
    var form: Form
    /** The message shown: `None` is the empty string. */
    var error: Option<Problem>
    var storage: Storage
    var route: Option<string>

    constructor(storage: Storage)
      ensures program == None && form == EmptyForm && error == None && this.storage == storage && route == None
    {
      program := None;
      form := EmptyForm;
      error := None;
      this.storage := storage;
      route := None;
    }

    /** The `useEffect`: the step guard, then the saved form. */
    method Mount()
      modifies this
      ensures storage == old(storage) && error == old(error)
      ensures FirstMissing(storage, ShippingSteps).Some? ==>
        route == FirstMissing(storage, ShippingSteps) && form == old(form) && program == old(program)
      ensures FirstMissing(storage, ShippingSteps).None? ==>
        route == old(route) && program == TextAt(storage, ProgramKey) && form == SavedForm(storage, old(form))
    {
      if !Present(storage, UserCodeKey) {
        route := Some("/");
        return;
      }
      if !ProgramChosenIn(storage) {
        route := Some("/program");
        return;
      }
      if !Present(storage, SizeKey) {
        route := Some("/tshirt-size");
        return;
      }
      if !Present(storage, KitKey) {
        route := Some("/kit-selection");
        return;
      }
      program := TextAt(storage, ProgramKey);
      if ShippingKey in storage && storage[ShippingKey].Record? {
        form := Restored(storage[ShippingKey].fields);
      }
    }

    /** `handleSubmit`: the first failing check is shown; a valid form is stored with the default
        address, the email is stored lower-cased as the order email, and the review page follows. */
    method HandleSubmit()
      modifies this
      ensures form == old(form) && program == old(program)
      ensures Validate(form).Some? ==>
        error == Validate(form) && storage == old(storage) && route == old(route)
      ensures Validate(form).None? ==>
        error == None && route == Some("/review")
        && storage == old(storage)[ShippingKey := Record(ShippingRecord(form))][OrderEmailKey := Text(ToLower(form.email))]
    {
      error := None;
      if Trim(form.firstName) == "" {
        error := Some(NoFirstName);
        return;
      }
      if Trim(form.lastName) == "" {
        error := Some(NoLastName);
        return;
      }
      if form.email == "" || '@' !in form.email {
        error := Some(BadEmail);
        return;
      }
      if form.classDate == "" {
        error := Some(NoClassDate);
        return;
      }
      if form.classType == "" || form.classType !in ClassTypes {
        error := Some(BadClassType);
        return;
      }
      storage := storage[ShippingKey := Record(ShippingRecord(form))];
      storage := storage[OrderEmailKey := Text(ToLower(form.email))];
      route := Some("/review");
    }

    /** `handleChange`. */
    method HandleChange(field: Field, value: string)
      modifies this
      ensures form == WithField(old(form), field, value) && error == None
      ensures program == old(program) && storage == old(storage) && route == old(route)
    {
      form := WithField(form, field, value);
      error := None;
    }
  }

  /** A page that passed its guard and then submitted a valid form leaves a session that
      passes the review page's guard. */
  lemma SubmittedSessionReachesReview(storage: Storage, f: Form)
    requires FirstMissing(storage, ShippingSteps).None? && Validate(f).None?
    ensures FirstMissing(storage[ShippingKey := Record(ShippingRecord(f))][OrderEmailKey := Text(ToLower(f.email))],
      ReviewSteps).None?
  {
    var after := storage[ShippingKey := Record(ShippingRecord(f))][OrderEmailKey := Text(ToLower(f.email))];
    assert forall k :: 0 <= k < 4 ==> Done(storage, ShippingSteps[k]);
    assert TextAt(after, ProgramKey) == TextAt(storage, ProgramKey);
    assert forall k :: 0 <= k < 5 ==> Done(after, ReviewSteps[k]);
  }
}
