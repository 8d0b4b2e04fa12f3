/** The address book of the profile page: the address form, its
    validation, and the set-as-default action. */
module AddressManagement {
  import opened Common
  import opened Forms

  /** A stored address; the optional fields may be missing. */
  datatype Address = Address(
    id: int, name: string, addressLine1: string, addressLine2: Option<string>, city: string,
    state: string, postalCode: string, country: Option<string>, phone: string, isDefault: bool)

  /** The form's fields. */
  datatype AddressForm = AddressForm(
    name: string, addressLine1: string, addressLine2: string, city: string, state: string,
    postalCode: string, country: string, phone: string, isDefault: bool)

  const DefaultCountry := "Vietnam"

  /** The form `handleAddAddress` opens with. */
  const EmptyForm := AddressForm("", "", "", "", "", "", DefaultCountry, "", false)

  /** The fields `validateForm` checks; the second address line and the
      country are not checked. */
  datatype AddressField = Name | AddressLine1 | City | State | PostalCode | Phone

  const NameRequired := "Name is required"
  const AddressRequired := "Address is required"
  const CityRequired := "City is required"
  const StateRequired := "State/Province is required"
  const PostalCodeRequired := "Postal code is required"
  const PhoneRequired := "Phone number is required"
  const PhoneInvalid := "Please enter a valid phone number"

  /** The text the form holds for a field. */
  function FieldText(form: AddressForm, f: AddressField): string {
    match f
    case Name => form.name
    case AddressLine1 => form.addressLine1
    case City => form.city
    case State => form.state
    case PostalCode => form.postalCode
    case Phone => form.phone
  }

  /** The error a field ends up with: "required" when blank, and for the
      phone the format error, which replaces the required one, when it is
      non-empty and fails the pattern. */
  function FieldError(form: AddressForm, f: AddressField): (r: Option<string>)
    ensures IsBlank(FieldText(form, f)) ==> r.Some?
    ensures r.Some? && r.value != PhoneInvalid ==> IsBlank(FieldText(form, f))
    ensures r == Some(PhoneInvalid) ==> f == Phone && !PhoneValid(form.phone)
  {
    match f
    case Name => if IsBlank(form.name) then Some(NameRequired) else None
    case AddressLine1 => if IsBlank(form.addressLine1) then Some(AddressRequired) else None
    case City => if IsBlank(form.city) then Some(CityRequired) else None
    case State => if IsBlank(form.state) then Some(StateRequired) else None
    case PostalCode => if IsBlank(form.postalCode) then Some(PostalCodeRequired) else None
    case Phone =>
      if form.phone != "" && !PhoneValid(form.phone) then Some(PhoneInvalid)
      else if IsBlank(form.phone) then Some(PhoneRequired)
      else None
  }

  /** `if (cond) errors[field] = message` */
  function SetIf(errors: map<AddressField, string>, cond: bool, field: AddressField, message: string)
    : (r: map<AddressField, string>)
    ensures field in r <==> field in errors || cond
    ensures cond ==> r[field] == message
    ensures forall f | f != field :: (f in r <==> f in errors) && (f in r ==> r[f] == errors[f])
  {
    if cond then errors[field := message] else errors
  }

  /** The "required" half of `validateForm`: one message per blank field. */
  method RequiredChecks(form: AddressForm) returns (errors: map<AddressField, string>)
    ensures Name in errors <==> IsBlank(form.name)
    ensures AddressLine1 in errors <==> IsBlank(form.addressLine1)
    ensures City in errors <==> IsBlank(form.city)
    ensures State in errors <==> IsBlank(form.state)
    ensures PostalCode in errors <==> IsBlank(form.postalCode)
    ensures Phone in errors <==> IsBlank(form.phone)
    ensures Name in errors ==> errors[Name] == NameRequired
    ensures AddressLine1 in errors ==> errors[AddressLine1] == AddressRequired
    ensures City in errors ==> errors[City] == CityRequired
    ensures State in errors ==> errors[State] == StateRequired
    ensures PostalCode in errors ==> errors[PostalCode] == PostalCodeRequired
    ensures Phone in errors ==> errors[Phone] == PhoneRequired
  {
    errors := map[];
    errors := SetIf(errors, IsBlank(form.name), Name, NameRequired);
    errors := SetIf(errors, IsBlank(form.addressLine1), AddressLine1, AddressRequired);
    errors := SetIf(errors, IsBlank(form.city), City, CityRequired);
    errors := SetIf(errors, IsBlank(form.state), State, StateRequired);
    errors := SetIf(errors, IsBlank(form.postalCode), PostalCode, PostalCodeRequired);
    errors := SetIf(errors, IsBlank(form.phone), Phone, PhoneRequired);
  }

  /** `validateForm`: the required checks, then the phone format check,
      whose message replaces the required one; the form is valid when the
      `errors` object has no key. */
  method ValidateForm(form: AddressForm) returns (ok: bool, errors: map<AddressField, string>)
    ensures forall f :: f in errors <==> FieldError(form, f).Some?
    ensures forall f | f in errors :: errors[f] == FieldError(form, f).value
    ensures ok <==> |errors| == 0
  {
    errors := RequiredChecks(form);
    errors := SetIf(errors, form.phone != "" && !PhoneValid(form.phone), Phone, PhoneInvalid);
    forall f ensures (f in errors <==> FieldError(form, f).Some?) && (f in errors ==> errors[f] == FieldError(form, f).value) {
      match f
      case Name =>
      case AddressLine1 =>
      case City =>
      case State =>
      case PostalCode =>
      case Phone =>
    }
    ok := |errors| == 0;
    if !ok {
      var f :| f in errors;
    }
  }

  /** The form is accepted exactly when the five text fields are non-blank
      and the phone matches the pattern, whatever the second address line
      and the country hold. */
  lemma {:induction false} FormAcceptedIff(form: AddressForm)
    ensures (forall f :: FieldError(form, f).None?) <==>
      (&& !IsBlank(form.name) && !IsBlank(form.addressLine1) && !IsBlank(form.city)
       && !IsBlank(form.state) && !IsBlank(form.postalCode) && PhoneValid(form.phone))
  {
    if PhoneValid(form.phone) {
      PhoneValidNotBlank(form.phone);
    } else {
      assert FieldError(form, Phone).Some? by {
        if form.phone == "" {
          assert IsBlank("");
        }
      }
    }
    if IsBlank(form.name) { assert FieldError(form, Name).Some?; }
    if IsBlank(form.addressLine1) { assert FieldError(form, AddressLine1).Some?; }
    if IsBlank(form.city) { assert FieldError(form, City).Some?; }
    if IsBlank(form.state) { assert FieldError(form, State).Some?; }
    if IsBlank(form.postalCode) { assert FieldError(form, PostalCode).Some?; }
  }

  /** The form `handleEditAddress` opens with: a copy of the address, the
      second line defaulting to "" and the country to "Vietnam". */
  function FormOf(a: Address): (f: AddressForm)
    ensures f.name == a.name && f.addressLine1 == a.addressLine1 && f.city == a.city
    ensures f.state == a.state && f.postalCode == a.postalCode && f.phone == a.phone && f.isDefault == a.isDefault
    ensures f.addressLine2 == (if a.addressLine2.Some? then a.addressLine2.value else "")
    ensures f.country == (if Truthy(a.country) then a.country.value else DefaultCountry)
  {
    AddressForm(a.name, a.addressLine1, a.addressLine2.GetOr(""), a.city, a.state, a.postalCode,
                if Truthy(a.country) then a.country.value else DefaultCountry, a.phone, a.isDefault)
  }

  /** A stored address that passed the form's checks opens for editing as a
      valid form again. */
  lemma EditedAddressStaysValid(a: Address, f: AddressForm)
    requires forall field :: FieldError(f, field).None?
    requires f.name == a.name && f.addressLine1 == a.addressLine1 && f.city == a.city
    requires f.state == a.state && f.postalCode == a.postalCode && f.phone == a.phone
    ensures forall field :: FieldError(FormOf(a), field).None?
  {
    assert forall field :: FieldError(FormOf(a), field) == FieldError(f, field);
  }

  /** `addresses.find(addr => addr.id === id)`: the first address with the id. */
  function FindById(addresses: seq<Address>, id: int): (r: Option<Address>)
    ensures r.None? <==> forall i | 0 <= i < |addresses| :: addresses[i].id != id
    ensures r.Some? ==> r.value in addresses && r.value.id == id
    ensures r.Some? ==> (exists i | 0 <= i < |addresses| ::
                          addresses[i] == r.value && forall j | 0 <= j < i :: addresses[j].id != id)
    decreases |addresses|
  {
    if |addresses| == 0 then None
    else if addresses[0].id == id then Some(addresses[0])
    else
      var r := FindById(addresses[1..], id);
      assert forall i | 1 <= i < |addresses| :: addresses[i] == addresses[1..][i - 1];
      if r.Some? then
        assert exists i | 0 <= i < |addresses| :: addresses[i] == r.value && forall j | 0 <= j < i :: addresses[j].id != id by {
          var k :| 0 <= k < |addresses[1..]| && addresses[1..][k] == r.value && forall j | 0 <= j < k :: addresses[1..][j].id != id;
          assert addresses[k + 1] == r.value;
          assert forall j | 0 <= j < k + 1 :: addresses[j].id != id by {
            forall j | 0 <= j < k + 1 ensures addresses[j].id != id {
              if j > 0 { assert addresses[j] == addresses[1..][j - 1]; }
            }
          }
        }
        r
      else r
  }

  /** `handleSetDefault`'s guard: the update sent, if any. Only an address
      that exists and is not already the default is updated, as a copy
      marked default. */
  function SetDefaultRequest(addresses: seq<Address>, id: int): (r: Option<Address>)
    ensures r.Some? <==> FindById(addresses, id).Some? && !FindById(addresses, id).value.isDefault
    ensures r.Some? ==> r.value == FindById(addresses, id).value.(isDefault := true)
  {
    match FindById(addresses, id)
    case None => None
    case Some(a) => if a.isDefault then None else Some(a.(isDefault := true))
  }

  /** An address that is already the default produces no request. */
  lemma SetDefaultOnDefaultSendsNothing(addresses: seq<Address>, i: nat)
    requires i < |addresses| && addresses[i].isDefault
    requires forall j | 0 <= j < |addresses| && j != i :: addresses[j].id != addresses[i].id
    ensures SetDefaultRequest(addresses, addresses[i].id).None?
  {
    var r := FindById(addresses, addresses[i].id);
    var k :| 0 <= k < |addresses| && addresses[k] == r.value && forall j | 0 <= j < k :: addresses[j].id != addresses[i].id;
  }

  /** The address dialog's state. */
  class AddressEditor {
    var form: AddressForm
    var current: Option<Address>
    var modal: bool
    var formErrors: map<AddressField, string>
    var apiError: Option<string>

    constructor ()
      ensures form == EmptyForm && current.None? && !modal && formErrors == map[] && apiError.None?
    {
      form := EmptyForm;
      current := None;
      modal := false;
      formErrors := map[];
      apiError := None;
    }

    /** `handleAddAddress`: an empty form for a new address, errors cleared,
        and the dialog toggled. */
    method HandleAddAddress()
      modifies this
      ensures form == EmptyForm && current.None?
      ensures formErrors == map[] && apiError.None? && modal == !old(modal)
    {
      current := None;
      form := EmptyForm;
      formErrors := map[];
      apiError := None;
      modal := !modal;
    }

    /** `handleEditAddress`: the address copied into the form. */
    method HandleEditAddress(a: Address)
      modifies this
      ensures form == FormOf(a) && current == Some(a)
      ensures formErrors == map[] && apiError.None? && modal == !old(modal)
    {
      current := Some(a);
      form := FormOf(a);
      formErrors := map[];
      apiError := None;
      modal := !modal;
    }

    /** The validation step of `handleSubmit`, publishing the errors. */
    method Validate() returns (ok: bool)
      modifies this
      ensures forall f :: f in formErrors <==> FieldError(form, f).Some?
      ensures ok <==> formErrors == map[]
      ensures form == old(form) && current == old(current) && modal == old(modal)
    {
      var errors;
      ok, errors := ValidateForm(form);
      formErrors := errors;
      if !ok {
        assert |errors| != 0;
      }
    }
  }
}
