/** The first checkout step: contact e-mail and address. Submitting stores the
    e-mail on the cart, then the same address as shipping and billing address. */
module CheckoutAddressForm {
  import opened Common
  import opened Commerce

  /** The form's nine text fields. */
  datatype AddressFields = AddressFields(
    email: string,
    firstName: string,
    lastName: string,
    address1: string,
    address2: string,
    city: string,
    postalCode: string,
    phone: string,
    countryCode: string)

  datatype Field = Email | FirstName | LastName | Address1 | Address2 | City | PostalCode | Phone | CountryCode

  const DefaultCountryCode: string := "de"
  const DefaultError: string := "Ein Fehler ist aufgetreten."

  /** A field of the cart's shipping address, when the cart has one. */
  function AddressPart(cart: Cart, get: ShippingAddress -> Option<string>): Option<string> {
    if cart.shippingAddress.Some? then get(cart.shippingAddress.value) else None
  }

  /** The fields the form starts from: the cart's e-mail and shipping address,
      with "" for what is missing and "de" as country code. */
  function InitialFields(cart: Cart): (f: AddressFields)
    ensures f.email == OrElse(cart.email, "")
    ensures f.countryCode != ""
    ensures cart.shippingAddress.None? ==> f == AddressFields(f.email, "", "", "", "", "", "", "", DefaultCountryCode)
    ensures cart.shippingAddress.Some? ==>
      var a := cart.shippingAddress.value;
      f == AddressFields(f.email, OrElse(a.firstName, ""), OrElse(a.lastName, ""), OrElse(a.address1, ""),
                         OrElse(a.address2, ""), OrElse(a.city, ""), OrElse(a.postalCode, ""),
                         OrElse(a.phone, ""), OrElse(a.countryCode, DefaultCountryCode))
  {
    AddressFields(
      OrElse(cart.email, ""),
      OrElse(AddressPart(cart, (a: ShippingAddress) => a.firstName), ""),
      OrElse(AddressPart(cart, (a: ShippingAddress) => a.lastName), ""),
      OrElse(AddressPart(cart, (a: ShippingAddress) => a.address1), ""),
      OrElse(AddressPart(cart, (a: ShippingAddress) => a.address2), ""),
      OrElse(AddressPart(cart, (a: ShippingAddress) => a.city), ""),
      OrElse(AddressPart(cart, (a: ShippingAddress) => a.postalCode), ""),
      OrElse(AddressPart(cart, (a: ShippingAddress) => a.phone), ""),
      OrElse(AddressPart(cart, (a: ShippingAddress) => a.countryCode), DefaultCountryCode))
  }

  predicate IsUpper(c: char) {
    'A' <= c <= 'Z'
  }

  function LowerChar(c: char): (d: char)
    ensures !IsUpper(d)
    ensures !IsUpper(c) ==> d == c
  {
    if IsUpper(c) then (c as int + 32) as char else c
  }

  /** `toLowerCase` on the ASCII letters. */
  function ToLower(s: string): (r: string)
    ensures |r| == |s|
    ensures forall i :: 0 <= i < |r| ==> r[i] == LowerChar(s[i])
  {
    seq(|s|, i requires 0 <= i < |s| => LowerChar(s[i]))
  }

  /** The form after the user types `text` into `field`; the country code is
      lower-cased. */
  function SetField(f: AddressFields, field: Field, text: string): (r: AddressFields)
    ensures field == Email ==> r == f.(email := text)
    ensures field == FirstName ==> r == f.(firstName := text)
    ensures field == LastName ==> r == f.(lastName := text)
    ensures field == Address1 ==> r == f.(address1 := text)
    ensures field == Address2 ==> r == f.(address2 := text)
    ensures field == City ==> r == f.(city := text)
    ensures field == PostalCode ==> r == f.(postalCode := text)
    ensures field == Phone ==> r == f.(phone := text)
    ensures field == CountryCode ==> r == f.(countryCode := ToLower(text))
  {
    match field
    case Email => f.(email := text)
    case FirstName => f.(firstName := text)
    case LastName => f.(lastName := text)
    case Address1 => f.(address1 := text)
    case Address2 => f.(address2 := text)
    case City => f.(city := text)
    case PostalCode => f.(postalCode := text)
    case Phone => f.(phone := text)
    case CountryCode => f.(countryCode := ToLower(text))
  }

  /** A typed country code is stored lower-case and exactly as long as typed;
      lower-casing twice changes nothing. */
  lemma CountryCodeInput(f: AddressFields, text: string)
    ensures var code := SetField(f, CountryCode, text).countryCode;
      |code| == |text| && (forall i :: 0 <= i < |code| ==> !IsUpper(code[i])) && ToLower(code) == code
  {
  }

  /** Typing the same text twice is typing it once, also for the country code,
      whose lower-casing is idempotent. */
  lemma SetFieldIdempotent(f: AddressFields, field: Field, text: string)
    ensures SetField(SetField(f, field, text), field, text) == SetField(f, field, text)
  {
  }

  /** The address object the backend receives (snake_case keys in the source). */
  datatype AddressPayload = AddressPayload(
    firstName: string,
    lastName: string,
    address1: string,
    address2: string,
    city: string,
    postalCode: string,
    phone: string,
    countryCode: string,
    company: string,
    province: string)

  function Payload(f: AddressFields): (p: AddressPayload)
    ensures p.company == "" && p.province == ""
    ensures p.firstName == f.firstName && p.lastName == f.lastName && p.address1 == f.address1
    ensures p.address2 == f.address2 && p.city == f.city && p.postalCode == f.postalCode
    ensures p.phone == f.phone && p.countryCode == f.countryCode
  {
    AddressPayload(f.firstName, f.lastName, f.address1, f.address2, f.city, f.postalCode, f.phone, f.countryCode, "", "")
  }

  /** The two cart updates of a submission. */
  datatype CartUpdate =
    | SetEmail(cartId: string, email: string)
    | SetAddresses(cartId: string, shipping: AddressPayload, billing: AddressPayload)

  datatype SubmitResult = SubmitResult(sent: seq<CartUpdate>, updated: Option<Cart>, error: Option<string>)

  /** The error text shown for a failed call. */
  function ErrorText(message: string): (r: string)
    ensures r != ""
    ensures message != "" ==> r == message
    ensures message == "" ==> r == DefaultError
  {
    OrElse(Some(message), DefaultError)
  }

  /** `handleSubmit`: the e-mail update first; the address update only after it
      succeeded; the cart from the second update on success, an error otherwise. */
  function Submit(cartId: string, f: AddressFields, emailResponse: Outcome<Cart>, addressResponse: Outcome<Cart>): (r: SubmitResult)
    ensures 1 <= |r.sent| <= 2 && r.sent[0] == SetEmail(cartId, f.email)
    ensures |r.sent| == 2 <==> emailResponse.Ok?
    ensures |r.sent| == 2 ==> r.sent[1] == SetAddresses(cartId, Payload(f), Payload(f))
    ensures r.updated.Some? <==> emailResponse.Ok? && addressResponse.Ok?
    ensures r.updated.Some? ==> r.updated.value == addressResponse.value
    ensures r.updated.None? <==> r.error.Some?
    ensures r.error.Some? ==> r.error.value != ""
    ensures emailResponse.Err? ==> r.error == Some(ErrorText(emailResponse.message))
    ensures emailResponse.Ok? && addressResponse.Err? ==> r.error == Some(ErrorText(addressResponse.message))
  {
    var first := [SetEmail(cartId, f.email)];
    match emailResponse
    case Err(_, message) => SubmitResult(first, None, Some(ErrorText(message)))
    case Ok(_) =>
      var sent := first + [SetAddresses(cartId, Payload(f), Payload(f))];
      match addressResponse
      case Err(_, message) => SubmitResult(sent, None, Some(ErrorText(message)))
      case Ok(c) => SubmitResult(sent, Some(c), None)
  }

  /** Every address update sends the shipping address as billing address too. */
  lemma BillingIsShipping(cartId: string, f: AddressFields, emailResponse: Outcome<Cart>, addressResponse: Outcome<Cart>)
    ensures forall u :: u in Submit(cartId, f, emailResponse, addressResponse).sent && u.SetAddresses? ==>
      u.billing == u.shipping == Payload(f)
  {
  }

  class AddressForm {
    var fields: AddressFields
    var loading: bool
    var error: Option<string>
    const cart: Cart

    constructor (cart: Cart)
      ensures this.cart == cart && fields == InitialFields(cart)
      ensures !loading && error.None?
    {
      this.cart := cart;
      fields := InitialFields(cart);
      loading := false;
      error := None;
    }

    method Input(field: Field, text: string)
      modifies this`fields
      ensures fields == SetField(old(fields), field, text)
    {
      fields := SetField(fields, field, text);
    }

    method HandleSubmit(emailResponse: Outcome<Cart>, addressResponse: Outcome<Cart>)
      returns (sent: seq<CartUpdate>, updated: Option<Cart>)
      modifies this`loading, this`error
      ensures SubmitResult(sent, updated, error) == Submit(cart.id, fields, emailResponse, addressResponse)
      ensures !loading
    {
      loading := true;
      error := None;
      sent := [SetEmail(cart.id, fields.email)];
      updated := None;
      if emailResponse.Err? {
        error := Some(ErrorText(emailResponse.message));
        loading := false;
        return;
      }
      var address := Payload(fields);
      sent := sent + [SetAddresses(cart.id, address, address)];
      if addressResponse.Err? {
        error := Some(ErrorText(addressResponse.message));
      } else {
        updated := Some(addressResponse.value);
      }
      loading := false;
    }
  }
}
