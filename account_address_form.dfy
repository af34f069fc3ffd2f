/** The account page's address form: create or edit a saved customer address
    through the store's customer-address endpoints. */
module AccountAddressForm {
  import opened Common

  /** An address as the account page passes it in; every text may be absent. */
  datatype SavedAddress = SavedAddress(
    id: Option<string>,
    company: Option<string>,
    firstName: Option<string>,
    lastName: Option<string>,
    address1: Option<string>,
    address2: Option<string>,
    postalCode: Option<string>,
    city: Option<string>,
    countryCode: Option<string>,
    phone: Option<string>,
    taxId: Option<string>)

  datatype CustomerName = CustomerName(firstName: Option<string>, lastName: Option<string>)

  /** The form's state, which is also the request body; the tax id lives in
      the metadata object under "tax_id". */
  datatype FormData = FormData(
    company: string,
    firstName: string,
    lastName: string,
    address1: string,
    address2: string,
    postalCode: string,
    city: string,
    countryCode: string,
    phone: string,
    metadata: map<string, string>)

  const TaxIdKey: string := "tax_id"
  const DefaultCountryCode: string := "de"
  const RejectedMessage: string := "Adresse konnte nicht gespeichert werden."
  const SaveFailedMessage: string := "Fehler beim Speichern."

  function Part(address: Option<SavedAddress>, get: SavedAddress -> Option<string>): Option<string> {
    if address.Some? then get(address.value) else None
  }

  function NamePart(name: Option<CustomerName>, get: CustomerName -> Option<string>): Option<string> {
    if name.Some? then get(name.value) else None
  }

  /** The initial form: the address's fields, the customer's name for a
      missing name, "de" for a missing country and "" for everything else. */
  function InitialForm(address: Option<SavedAddress>, name: Option<CustomerName>): (f: FormData)
    ensures f.metadata.Keys == {TaxIdKey}
    ensures f.countryCode != ""
    ensures address.None? ==>
      f.company == "" && f.address1 == "" && f.address2 == "" && f.postalCode == "" && f.city == "" &&
      f.phone == "" && f.countryCode == DefaultCountryCode && f.metadata[TaxIdKey] == ""
    ensures address.Some? ==>
      var a := address.value;
      f.company == OrElse(a.company, "") && f.address1 == OrElse(a.address1, "") &&
      f.address2 == OrElse(a.address2, "") && f.postalCode == OrElse(a.postalCode, "") &&
      f.city == OrElse(a.city, "") && f.phone == OrElse(a.phone, "") &&
      f.countryCode == OrElse(a.countryCode, DefaultCountryCode) && f.metadata[TaxIdKey] == OrElse(a.taxId, "")
    ensures address.Some? && Truthy(address.value.firstName) ==> f.firstName == address.value.firstName.value
    ensures address.Some? && Truthy(address.value.lastName) ==> f.lastName == address.value.lastName.value
    ensures !(address.Some? && Truthy(address.value.firstName)) ==>
      f.firstName == (if name.Some? then OrElse(name.value.firstName, "") else "")
    ensures !(address.Some? && Truthy(address.value.lastName)) ==>
      f.lastName == (if name.Some? then OrElse(name.value.lastName, "") else "")
  {
    FormData(
      OrElse(Part(address, (a: SavedAddress) => a.company), ""),
      OrElse(FirstTruthy(Part(address, (a: SavedAddress) => a.firstName), NamePart(name, (n: CustomerName) => n.firstName)), ""),
      OrElse(FirstTruthy(Part(address, (a: SavedAddress) => a.lastName), NamePart(name, (n: CustomerName) => n.lastName)), ""),
      OrElse(Part(address, (a: SavedAddress) => a.address1), ""),
      OrElse(Part(address, (a: SavedAddress) => a.address2), ""),
      OrElse(Part(address, (a: SavedAddress) => a.postalCode), ""),
      OrElse(Part(address, (a: SavedAddress) => a.city), ""),
      OrElse(Part(address, (a: SavedAddress) => a.countryCode), DefaultCountryCode),
      OrElse(Part(address, (a: SavedAddress) => a.phone), ""),
      map[TaxIdKey := OrElse(Part(address, (a: SavedAddress) => a.taxId), "")])
  }

  /** The inputs of the form; TaxId is the one that writes into the metadata. */
  datatype Field = Company | FirstName | LastName | Address1 | Address2 | PostalCode | City | CountryCode | Phone | TaxId

  /** `handleChange`: the tax id updates metadata["tax_id"] and keeps the rest
      of the metadata; every other field is replaced at the top level. */
  function HandleChange(f: FormData, field: Field, value: string): (r: FormData)
    ensures field == TaxId ==> r == f.(metadata := f.metadata[TaxIdKey := value])
    ensures field == Company ==> r == f.(company := value)
    ensures field == FirstName ==> r == f.(firstName := value)
    ensures field == LastName ==> r == f.(lastName := value)
    ensures field == Address1 ==> r == f.(address1 := value)
    ensures field == Address2 ==> r == f.(address2 := value)
    ensures field == PostalCode ==> r == f.(postalCode := value)
    ensures field == City ==> r == f.(city := value)
    ensures field == CountryCode ==> r == f.(countryCode := value)
    ensures field == Phone ==> r == f.(phone := value)
  {
    match field
    case TaxId => f.(metadata := f.metadata[TaxIdKey := value])
    case Company => f.(company := value)
    case FirstName => f.(firstName := value)
    case LastName => f.(lastName := value)
    case Address1 => f.(address1 := value)
    case Address2 => f.(address2 := value)
    case PostalCode => f.(postalCode := value)
    case City => f.(city := value)
    case CountryCode => f.(countryCode := value)
    case Phone => f.(phone := value)
  }

  /** A change touches exactly one place: the tax id is read back from the
      metadata and the other metadata entries are kept, every other field
      never touches the metadata, and repeating a change changes nothing. */
  lemma ChangeTouchesOnePlace(f: FormData, field: Field, value: string)
    ensures field == TaxId ==> HandleChange(f, field, value).metadata[TaxIdKey] == value
    ensures field == TaxId ==> forall k :: k in f.metadata && k != TaxIdKey ==>
      k in HandleChange(f, field, value).metadata && HandleChange(f, field, value).metadata[k] == f.metadata[k]
    ensures field != TaxId ==> HandleChange(f, field, value).metadata == f.metadata
    ensures HandleChange(HandleChange(f, field, value), field, value) == HandleChange(f, field, value)
  {
  }

  /** The request a submission sends. */
  datatype SaveRequest = SaveRequest(url: string, httpMethod: string, body: FormData)

  const AddressesPath: string := "/store/customers/me/addresses"

  /** An address with an id is updated under its own URL; one without is
      created; both with POST. */
  function Target(env: Option<string>, address: Option<SavedAddress>): (r: (string, string))
    ensures r.1 == "POST"
    ensures var isUpdate := address.Some? && Truthy(address.value.id);
      (isUpdate ==> r.0 == BackendUrl(env) + AddressesPath + "/" + address.value.id.value) &&
      (!isUpdate ==> r.0 == BackendUrl(env) + AddressesPath)
  {
    var isUpdate := address.Some? && Truthy(address.value.id);
    var url := if isUpdate then BackendUrl(env) + AddressesPath + "/" + address.value.id.value
               else BackendUrl(env) + AddressesPath;
    (url, if isUpdate then "POST" else "POST")
  }

  /** The update URL extends the create URL by "/" and the id, so the two
      coincide for no address; every URL starts at the backend. */
  lemma TargetUrls(env: Option<string>, address: Option<SavedAddress>)
    ensures StartsWith(Target(env, address).0, BackendUrl(env))
    ensures Target(env, None).0 == BackendUrl(env) + AddressesPath
    ensures address.Some? && Truthy(address.value.id) ==>
      Target(env, address).0 == Target(env, None).0 + "/" + address.value.id.value
    ensures address.Some? && Truthy(address.value.id) ==> |Target(env, address).0| > |Target(env, None).0|
  {
    var base := BackendUrl(env);
    if address.Some? && Truthy(address.value.id) {
      assert Target(env, address).0 == base + (AddressesPath + "/" + address.value.id.value);
      assert (base + (AddressesPath + "/" + address.value.id.value))[..|base|] == base;
    } else {
      assert (base + AddressesPath)[..|base|] == base;
    }
  }

  /** How the save ends: the server accepts, rejects (with the message of its
      JSON body, if any), or the request itself fails. */
  datatype SaveResponse = Saved | Rejected(serverMessage: Option<string>) | NetworkError(reason: string)

  /** The error shown for a failed save; none after a successful one. */
  function SaveError(response: SaveResponse): (r: Option<string>)
    ensures r.None? <==> response.Saved?
    ensures r.Some? ==> r.value != ""
    ensures response.Rejected? ==> r == Some(OrElse(response.serverMessage, RejectedMessage))
    ensures response.NetworkError? && response.reason == "" ==> r == Some(SaveFailedMessage)
    ensures response.NetworkError? && response.reason != "" ==> r == Some(response.reason)
  {
    match response
    case Saved => None
    case Rejected(message) => Some(OrElse(Some(OrElse(message, RejectedMessage)), SaveFailedMessage))
    case NetworkError(message) => Some(OrElse(Some(message), SaveFailedMessage))
  }

  class AddressEditor {
    var form: FormData
    var saving: bool
    var error: Option<string>
    const address: Option<SavedAddress>

    constructor (address: Option<SavedAddress>, name: Option<CustomerName>)
      ensures this.address == address && form == InitialForm(address, name)
      ensures !saving && error.None?
    {
      this.address := address;
      form := InitialForm(address, name);
      saving := false;
      error := None;
    }

    method Change(field: Field, value: string)
      modifies this`form
      ensures form == HandleChange(old(form), field, value)
    {
      form := HandleChange(form, field, value);
    }

    /** `handleSubmit`: one request with the form as body; `onSaved` is called
        exactly on success, the error is set otherwise, and saving ends. */
    method HandleSubmit(env: Option<string>, response: SaveResponse) returns (request: SaveRequest, savedCalled: bool)
      modifies this`saving, this`error
      ensures request == SaveRequest(Target(env, address).0, Target(env, address).1, form)
      ensures savedCalled <==> response.Saved?
      ensures error == SaveError(response)
      ensures !saving
    {
      saving := true;
      error := None;
      var target := Target(env, address);
      request := SaveRequest(target.0, target.1, form);
      if response.Saved? {
        savedCalled := true;
      } else {
        savedCalled := false;
        var thrown := if response.Rejected? then OrElse(response.serverMessage, RejectedMessage) else response.reason;
        error := Some(OrElse(Some(thrown), SaveFailedMessage));
      }
      saving := false;
    }
  }
}
