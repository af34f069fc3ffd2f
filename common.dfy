/** Shared vocabulary of the storefront model: optional values, the outcome of a
    call to the commerce backend, and JavaScript's truthiness of strings. */
module Common {

  datatype Option<T> = None | Some(value: T)

  /** The outcome of one call to the commerce backend: the decoded response,
      or the error the SDK throws (HTTP status and message). */
  datatype Outcome<T> = Ok(value: T) | Err(status: int, message: string)

  /** JavaScript truthiness of a possibly-missing string: `null`, `undefined`
      and `""` are falsy, every other string is truthy. */
  predicate Truthy(s: Option<string>) {
    s.Some? && s.value != ""
  }

  /** JavaScript `s || fallback` for a possibly-missing string. */
  function OrElse(s: Option<string>, fallback: string): (r: string)
    ensures Truthy(s) ==> r == s.value
    ensures !Truthy(s) ==> r == fallback
    ensures fallback != "" ==> r != ""
  {
    if Truthy(s) then s.value else fallback
  }

  /** JavaScript `s || fallback` where the fallback may itself be missing. */
  function FirstTruthy(s: Option<string>, t: Option<string>): (r: Option<string>)
    ensures Truthy(s) ==> r == s
    ensures !Truthy(s) ==> r == t
  {
    if Truthy(s) then s else t
  }

  predicate StartsWith(s: string, prefix: string) {
    |prefix| <= |s| && s[..|prefix|] == prefix
  }

  const DefaultBackendUrl: string := "http://localhost:9000"

  /** The backend base URL: the configured environment value when it is set and
      non-empty, otherwise the local development server. */
  function BackendUrl(env: Option<string>): (r: string)
    ensures r != ""
    ensures Truthy(env) ==> r == env.value
    ensures !Truthy(env) ==> r == DefaultBackendUrl
  {
    OrElse(env, DefaultBackendUrl)
  }

  /** The entry stored under `key`, if any. */
  function Lookup(m: map<string, string>, key: string): (r: Option<string>)
    ensures r.Some? <==> key in m
    ensures r.Some? ==> r.value == m[key]
  {
    if key in m then Some(m[key]) else None
  }
}

/** The entities of the commerce backend, as far as the storefront reads them.
    Fields the backend may omit are `Option`s; a missing list is the empty list. */
module Commerce {
  import opened Common

  datatype ShippingAddress = ShippingAddress(
    firstName: Option<string>,
    lastName: Option<string>,
    address1: Option<string>,
    address2: Option<string>,
    city: Option<string>,
    postalCode: Option<string>,
    phone: Option<string>,
    countryCode: Option<string>)

  datatype LineItem = LineItem(id: string, quantity: nat)

  datatype ShippingMethod = ShippingMethod(shippingOptionId: Option<string>)

  datatype Cart = Cart(
    id: string,
    email: Option<string>,
    regionId: Option<string>,
    shippingAddress: Option<ShippingAddress>,
    shippingMethods: seq<ShippingMethod>,
    items: seq<LineItem>)

  datatype Order = Order(id: string)
}

/** The browser's `localStorage`: one string map shared by every component. */
module Browser {

  /** The key under which the storefront keeps the id of the current cart. */
  const CartIdKey: string := "cart_id"

  class LocalStorage {
    var items: map<string, string>

    constructor (initial: map<string, string>)
      ensures items == initial
    {
      items := initial;
    }

    method SetItem(key: string, value: string)
      modifies this
      ensures items == old(items)[key := value]
    {
      items := items[key := value];
    }

    method RemoveItem(key: string)
      modifies this
      ensures items == old(items) - {key}
    {
      items := items - {key};
    }
  }
}
