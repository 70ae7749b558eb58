/** The address form (screens/EditAddressScreen.js): four text fields
    seeded from the address passed in, edited one field at a time, and
    saved only when none of them is empty. */
module EditAddress {
  import opened Js

  /** A delivery address as the order summary holds it. */
  datatype Address = Address(name: string, street: string, city: string, phone: string)

  /** The `address` route parameter; any of its fields may be missing. */
  datatype AddressParam = AddressParam(
    name: Option<string>, street: Option<string>, city: Option<string>, phone: Option<string>)

  datatype Field = Name | Street | City | Phone

  /** `x || ''` on an optional string: a missing field reads as empty. */
  function OrEmpty(s: Option<string>): string {
    match s
    case Some(v) => v
    case None => ""
  }

  /** The initial `formData`: each field from the passed address, or `''`. */
  function InitialForm(address: Option<AddressParam>): Address {
    match address
    case None => Address("", "", "", "")
    case Some(a) => Address(OrEmpty(a.name), OrEmpty(a.street), OrEmpty(a.city), OrEmpty(a.phone))
  }

  /** The route parameter made from a complete address. */
  function AsParam(a: Address): AddressParam {
    AddressParam(Some(a.name), Some(a.street), Some(a.city), Some(a.phone))
  }

  function GetField(f: Address, field: Field): string {
    match field
    case Name => f.name
    case Street => f.street
    case City => f.city
    case Phone => f.phone
  }

  /** `setFormData({...formData, <field>: text})` */
  function WithField(f: Address, field: Field, text: string): Address {
    match field
    case Name => f.(name := text)
    case Street => f.(street := text)
    case City => f.(city := text)
    case Phone => f.(phone := text)
  }

  /** The check in `handleSave`: every field truthy, that is, non-empty. */
  predicate IsComplete(f: Address) {
    f.name != "" && f.street != "" && f.city != "" && f.phone != ""
  }

  /** Opening the form on an address gives that address back, and opening
      it with no address (or with missing fields) gives empty fields. */
  lemma InitialFormFromAddress(a: Address, p: AddressParam)
    ensures InitialForm(Some(AsParam(a))) == a
    ensures InitialForm(None) == Address("", "", "", "")
    ensures p.name.None? ==> InitialForm(Some(p)).name == ""
    ensures p.street.None? ==> InitialForm(Some(p)).street == ""
    ensures p.city.None? ==> InitialForm(Some(p)).city == ""
    ensures p.phone.None? ==> InitialForm(Some(p)).phone == ""
  {
  }

  /** An edit sets the edited field and leaves the other three as they were. */
  lemma EditTouchesOneField(f: Address, field: Field, text: string)
    ensures GetField(WithField(f, field, text), field) == text
    ensures forall other :: other != field ==> GetField(WithField(f, field, text), other) == GetField(f, other)
  {
  }

  /** The form is complete exactly when no field is empty. */
  lemma IsCompleteIff(f: Address)
    ensures IsComplete(f) <==> forall field :: GetField(f, field) != ""
  {
    if !IsComplete(f) {
      if f.name == "" { assert GetField(f, Name) == ""; }
      else if f.street == "" { assert GetField(f, Street) == ""; }
      else if f.city == "" { assert GetField(f, City) == ""; }
      else { assert GetField(f, Phone) == ""; }
    }
  }

  /** A field holding only blanks counts as filled: nothing trims the text. */
  lemma BlankFieldsPass()
    ensures IsComplete(Address(" ", " ", " ", " "))
    ensures !IsComplete(Address("Ann", "1 Main St", "", "555"))
  {
  }

  class Screen {
    var formData: Address
    /** Whether an `onSave` callback came with the route. */
    const hasCallback: bool
    /** The values handed to the callback, in order. */
    var delivered: seq<Address>
    var alertShown: bool
    var wentBack: bool

    constructor (address: Option<AddressParam>, hasCallback: bool)
      ensures formData == InitialForm(address) && this.hasCallback == hasCallback
      ensures delivered == [] && !alertShown && !wentBack
    {
      formData := InitialForm(address);
      this.hasCallback := hasCallback;
      delivered := [];
      alertShown := false;
      wentBack := false;
    }

    /** A field's `onChangeText`. */
    method Edit(field: Field, text: string)
      modifies this
      ensures formData == WithField(old(formData), field, text)
      ensures delivered == old(delivered) && alertShown == old(alertShown) && wentBack == old(wentBack)
    {
      formData := WithField(formData, field, text);
    }

    /** `handleSave`: an incomplete form raises the alert and goes nowhere;
        a complete one is handed to the callback, if any, and the screen
        goes back. */
    method HandleSave() returns (saved: bool)
      modifies this
      ensures saved == IsComplete(formData) && formData == old(formData)
      ensures !saved ==> alertShown && delivered == old(delivered) && wentBack == old(wentBack)
      ensures saved ==> wentBack && alertShown == old(alertShown)
      ensures saved ==> delivered == old(delivered) + (if hasCallback then [formData] else [])
    {
      if !IsComplete(formData) {
        alertShown := true;
        return false;
      }
      if hasCallback {
        delivered := delivered + [formData];
      }
      wentBack := true;
      return true;
    }
  }
}
