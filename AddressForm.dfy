/**
 * The delivery-address form shown before an order is placed: field
 * validation, editing, the reset when the form opens, and the trimmed
 * address handed on when the form is confirmed.
 */
module AddressForm {
  import opened Options
  import opened Text
  import opened Auth
  import opened Orders

  /** The fields the text inputs edit (the address type is chosen with buttons). */
  datatype Field = FullName | Phone | Line1 | Line2 | City | State | Pin

  /** The form as it opens: every field empty and the type "Home". */
  const Empty := DeliveryAddress("", "", "", "", "", "", "", "Home")

  const FullNameRequired := "Full name is required."
  const PhoneRequired := "Phone number is required."
  const PhoneInvalid := "Enter a valid 10-digit Indian mobile number."
  const Line1Required := "Address line 1 is required."
  const CityRequired := "City is required."
  const StateRequired := "Please select a state."
  const PinRequired := "PIN code is required."
  const PinInvalid := "Enter a valid 6-digit PIN code."

  function Get(a: DeliveryAddress, f: Field): string {
    match f
    case FullName => a.fullName
    case Phone => a.phone
    case Line1 => a.line1
    case Line2 => a.line2
    case City => a.city
    case State => a.state
    case Pin => a.pin
  }

  /** The form with field `f` set to `v`. */
  function Set(a: DeliveryAddress, f: Field, v: string): (r: DeliveryAddress)
    ensures Get(r, f) == v && r.kind == a.kind
    ensures forall g :: g != f ==> Get(r, g) == Get(a, g)
  {
    match f
    case FullName => a.(fullName := v)
    case Phone => a.(phone := v)
    case Line1 => a.(line1 := v)
    case Line2 => a.(line2 := v)
    case City => a.(city := v)
    case State => a.(state := v)
    case Pin => a.(pin := v)
  }

  /** A mobile number: exactly ten ASCII digits, the first from 6 to 9. */
  predicate MobileNumber(s: string) {
    |s| == 10 && '6' <= s[0] <= '9' && AllDigits(s)
  }

  /** A PIN code: exactly six ASCII digits. */
  predicate PinCode(s: string) {
    |s| == 6 && AllDigits(s)
  }

  /**
   * The error of one field, if any. Full name, phone, line 1, city and PIN
   * are required after trimming and the state must be chosen; a phone or
   * PIN that is present must then match its pattern after trimming; line 2
   * never fails.
   */
  function ErrorOf(a: DeliveryAddress, f: Field): (r: Option<string>)
    ensures r.Some? ==> r.value != ""
    ensures f == Line2 ==> r.None?
    ensures f == FullName ==> r == if Trim(a.fullName) == [] then Some(FullNameRequired) else None
    ensures f == Line1 ==> r == if Trim(a.line1) == [] then Some(Line1Required) else None
    ensures f == City ==> r == if Trim(a.city) == [] then Some(CityRequired) else None
    ensures f == State ==> r == if a.state == [] then Some(StateRequired) else None
    ensures f == Phone ==> (r.None? <==> MobileNumber(Trim(a.phone)))
    ensures f == Phone && r.Some? ==> r.value == if Trim(a.phone) == [] then PhoneRequired else PhoneInvalid
    ensures f == Pin ==> (r.None? <==> PinCode(Trim(a.pin)))
    ensures f == Pin && r.Some? ==> r.value == if Trim(a.pin) == [] then PinRequired else PinInvalid
  {
    match f
    case FullName => if Trim(a.fullName) == [] then Some(FullNameRequired) else None
    case Phone =>
      var t := Trim(a.phone);
      if t == [] then Some(PhoneRequired) else if !MobileNumber(t) then Some(PhoneInvalid) else None
    case Line1 => if Trim(a.line1) == [] then Some(Line1Required) else None
    case Line2 => None
    case City => if Trim(a.city) == [] then Some(CityRequired) else None
    case State => if a.state == [] then Some(StateRequired) else None
    case Pin =>
      var t := Trim(a.pin);
      if t == [] then Some(PinRequired) else if !PinCode(t) then Some(PinInvalid) else None
  }

  /** The fields the form checks, in the order it checks them. */
  const Checked: seq<Field> := [FullName, Phone, Line1, City, State, Pin]

  /** The errors of the fields in `fields`, each under its own field. */
  function Collect(a: DeliveryAddress, fields: seq<Field>): (e: map<Field, string>)
  {
    if fields == [] then map[]
    else
      var rest := Collect(a, fields[1..]);
      match ErrorOf(a, fields[0])
      case Some(m) => rest[fields[0] := m]
      case None => rest
  }

  lemma {:induction false} CollectSpec(a: DeliveryAddress, fields: seq<Field>)
    ensures forall f :: f in Collect(a, fields) <==> f in fields && ErrorOf(a, f).Some?
    ensures forall f :: f in Collect(a, fields) ==> Collect(a, fields)[f] == ErrorOf(a, f).value
  {
    if fields != [] {
      CollectSpec(a, fields[1..]);
      assert forall f :: f in fields <==> f == fields[0] || f in fields[1..];
    }
  }

  /** The errors of a form: one entry for each field that fails, holding its message. */
  function Validate(a: DeliveryAddress): (e: map<Field, string>)
  {
    Collect(a, Checked)
  }

  /** A field has an entry exactly when it fails, and the entry is its message; line 2 never has one. */
  lemma ValidateSpec(a: DeliveryAddress)
    ensures forall f :: f in Validate(a) <==> ErrorOf(a, f).Some?
    ensures forall f :: f in Validate(a) ==> Validate(a)[f] == ErrorOf(a, f).value
    ensures Line2 !in Validate(a)
  {
    CollectSpec(a, Checked);
    assert forall f :: f !in Checked ==> f == Line2;
  }

  /** The address handed on when the form is confirmed: text fields trimmed, state and type as chosen. */
  function ConfirmedAddress(a: DeliveryAddress): (r: DeliveryAddress)
    ensures r.state == a.state && r.kind == a.kind
  {
    DeliveryAddress(Trim(a.fullName), Trim(a.phone), Trim(a.line1), Trim(a.line2), Trim(a.city),
                    a.state, Trim(a.pin), a.kind)
  }

  /** Every field passes its check. */
  predicate Passes(a: DeliveryAddress) {
    forall f :: ErrorOf(a, f).None?
  }

  /** A form validates, with no error recorded, exactly when every field passes. */
  lemma ValidIff(a: DeliveryAddress)
    ensures Validate(a) == map[] <==> Passes(a)
  {
    ValidateSpec(a);
    if !(forall f :: ErrorOf(a, f).None?) {
      var f :| ErrorOf(a, f).Some?;
      assert f in Validate(a);
    }
  }

  /** Trimming a field that passed its check again changes nothing and passes again. */
  lemma TrimmedFieldPasses(a: DeliveryAddress, f: Field)
    requires ErrorOf(a, f).None?
    ensures ErrorOf(ConfirmedAddress(a), f).None?
  {
    var c := ConfirmedAddress(a);
    match f
    case FullName => TrimIdempotent(a.fullName);
    case Phone => TrimIdempotent(a.phone);
    case Line1 => TrimIdempotent(a.line1);
    case Line2 =>
    case City => TrimIdempotent(a.city);
    case State =>
    case Pin => TrimIdempotent(a.pin);
  }

  /**
   * A confirmed address is complete: it passes validation again, its name,
   * first line and city are not blank, and its phone and PIN are plain
   * digit strings of the right length.
   */
  lemma ConfirmedIsComplete(a: DeliveryAddress)
    requires Validate(a) == map[]
    ensures Validate(ConfirmedAddress(a)) == map[]
    ensures MobileNumber(ConfirmedAddress(a).phone) && PinCode(ConfirmedAddress(a).pin)
    ensures ConfirmedAddress(a).fullName != [] && ConfirmedAddress(a).line1 != [] && ConfirmedAddress(a).city != []
  {
    ValidIff(a);
    forall f ensures ErrorOf(ConfirmedAddress(a), f).None? {
      TrimmedFieldPasses(a, f);
    }
    ValidIff(ConfirmedAddress(a));
    assert ErrorOf(a, Phone).None? && ErrorOf(a, Pin).None?;
    assert ErrorOf(a, FullName).None? && ErrorOf(a, Line1).None? && ErrorOf(a, City).None?;
  }

  /** Confirming twice trims nothing more. */
  lemma ConfirmedIdempotent(a: DeliveryAddress)
    ensures ConfirmedAddress(ConfirmedAddress(a)) == ConfirmedAddress(a)
  {
    TrimIdempotent(a.fullName);
    TrimIdempotent(a.phone);
    TrimIdempotent(a.line1);
    TrimIdempotent(a.line2);
    TrimIdempotent(a.city);
    TrimIdempotent(a.pin);
  }

  /** A blank phone or PIN is reported as missing, never as malformed. */
  lemma RequiredBeforePattern(a: DeliveryAddress)
    ensures AllSpace(a.phone) ==> Phone in Validate(a) && Validate(a)[Phone] == PhoneRequired
    ensures AllSpace(a.pin) ==> Pin in Validate(a) && Validate(a)[Pin] == PinRequired
  {
    ValidateSpec(a);
    TrimEmptyIffBlank(a.phone);
    TrimEmptyIffBlank(a.pin);
  }

  /**
   * The form banner's count as written: every key of the error record,
   * including the fields whose error an edit has reset to the empty string.
   */
  function ErrorCount(errors: map<Field, string>): (n: nat)
    ensures n == |errors.Keys|
    ensures n == 0 <==> errors == map[]
  {
    |errors.Keys|
  }

  /**
   * Typing into a field while no field shows an error (a freshly opened form
   * has an empty record) stores an empty error for it: the count as written
   * is then positive, so the banner asks to fix a field, while the count of
   * fields that show an error stays 0.
   */
  lemma {:induction false} BannerWithoutErrors(errors: map<Field, string>, f: Field)
    requires Pending(errors) == {}
    ensures ErrorCount(errors[f := ""]) > 0
    ensures PendingCount(errors[f := ""]) == 0
  {
    assert f in errors[f := ""].Keys;
    PendingAfterEdit(errors, f);
  }

  /** The fields that show an error message. */
  function Pending(errors: map<Field, string>): (fs: set<Field>)
    ensures forall f :: f in fs <==> f in errors && errors[f] != ""
  {
    set f | f in errors && errors[f] != ""
  }

  /** The banner's count as intended: the fields that still show an error. */
  function PendingCount(errors: map<Field, string>): (n: nat)
    ensures n == |Pending(errors)|
    ensures n == 0 <==> forall f :: f in errors ==> errors[f] == ""
    ensures n <= ErrorCount(errors)
  {
    var fs := Pending(errors);
    assert fs <= errors.Keys;
    Cardinality(fs, errors.Keys);
    |fs|
  }

  lemma Cardinality(a: set<Field>, b: set<Field>)
    requires a <= b
    ensures |a| <= |b|
  {
    assert b == a + (b - a);
  }

  /**
   * Right after a failed submit the intended count agrees with the written
   * one; editing a field lowers it by one if that field showed an error and
   * otherwise leaves it alone.
   */
  lemma PendingAfterSubmit(a: DeliveryAddress)
    ensures PendingCount(Validate(a)) == ErrorCount(Validate(a))
  {
    var e := Validate(a);
    ValidateSpec(a);
    assert Pending(e) == e.Keys;
  }

  lemma PendingAfterEdit(errors: map<Field, string>, f: Field)
    ensures Pending(errors[f := ""]) == Pending(errors) - {f}
  {
  }

  /** The address form's state while it is open. */
  class AddressModal {
    var form: DeliveryAddress
    var errors: map<Field, string>
    var placing: bool

    constructor ()
      ensures form == Empty && errors == map[] && !placing
    {
      form := Empty;
      errors := map[];
      placing := false;
    }

    /** Opening the form resets it, with the full name filled in from the session. */
    method Open(session: Option<Session>)
      modifies this
      ensures form == Empty.(fullName := if session.Some? then session.value.name else "")
      ensures errors == map[] && !placing
      ensures !ShowsBanner() && !IntendedBanner()
    {
      form := Empty.(fullName := if session.Some? then session.value.name else "");
      errors := map[];
      placing := false;
    }

    /** Editing a field stores the value and clears that field's error only. */
    method Change(f: Field, v: string)
      modifies this
      ensures form == Set(old(form), f, v)
      ensures errors == old(errors)[f := ""] && placing == old(placing)
      ensures forall g :: g != f && g in old(errors) ==> g in errors && errors[g] == old(errors)[g]
      ensures ShowsBanner()
      ensures IntendedBanner() <==> old(IntendedBanner()) && Pending(old(errors)) != {f}
    {
      PendingAfterEdit(errors, f);
      form := Set(form, f, v);
      errors := errors[f := ""];
    }

    /** Choosing Home, Work or Other. */
    method ChooseType(choice: string)
      modifies this
      ensures form == old(form).(kind := choice) && errors == old(errors) && placing == old(placing)
    {
      form := form.(kind := choice);
    }

    /**
     * "Place Order": an invalid form shows its errors and goes no further;
     * a valid one is handed on, trimmed, and the button shows progress.
     */
    method Submit() returns (confirmed: Option<DeliveryAddress>)
      modifies this
      ensures form == old(form)
      ensures !Passes(old(form)) ==>
                confirmed.None? && errors == Validate(old(form)) && placing == old(placing)
      ensures Passes(old(form)) ==>
                confirmed == Some(ConfirmedAddress(old(form))) && placing && errors == old(errors)
    {
      var a := form;
      var errs := Validate(a);
      ValidIff(a);
      if errs == map[] {
        confirmed := Some(ConfirmedAddress(a));
        placing := true;
      } else {
        errors := errs;
        confirmed := None;
      }
    }

    /** The "Please fix N fields" banner as written: shown while the error record has any key. */
    predicate ShowsBanner()
      reads this
      ensures ShowsBanner() <==> errors != map[]
    {
      ErrorCount(errors) > 0
    }

    /** The banner as intended: shown while some field still shows an error. */
    predicate IntendedBanner()
      reads this
      ensures IntendedBanner() <==> exists f :: f in errors && errors[f] != ""
      ensures IntendedBanner() ==> ShowsBanner()
    {
      PendingCount(errors) > 0
    }
  }
}
