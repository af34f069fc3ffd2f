/** The cart context: the current cart and its id, kept in step with the
    "cart_id" entry of the browser's storage. */
module CartContext {
  import opened Common
  import opened Commerce
  import opened Browser

  /** The provider's state together with the storage it reads and writes. */
  datatype CartState = CartState(cart: Option<Cart>, cartId: Option<string>, storage: map<string, string>)

  /** The cart id is only ever set to a non-empty string. */
  predicate ValidState(s: CartState) {
    s.cartId.Some? ==> s.cartId.value != ""
  }

  /** Id and storage agree: a set id is the one stored under "cart_id". */
  predicate Synced(s: CartState) {
    s.cartId.Some? ==> Lookup(s.storage, CartIdKey) == s.cartId
  }

  /** `fetchCart`: the server's cart replaces the local one; a 404 forgets the
      id everywhere; any other failure changes nothing. */
  function Fetched(s: CartState, response: Outcome<Cart>): (r: CartState)
    ensures response.Ok? ==> r.cart == Some(response.value) && r.cartId == s.cartId && r.storage == s.storage
    ensures response.Err? && response.status == 404 ==>
      r.cart.None? && r.cartId.None? && r.storage == s.storage - {CartIdKey}
    ensures response.Err? && response.status != 404 ==> r == s
  {
    match response
    case Ok(c) => s.(cart := Some(c))
    case Err(status, _) =>
      if status == 404 then CartState(None, None, s.storage - {CartIdKey}) else s
  }

  /** The mount effect, and `refreshCart` when no id is set: a stored id is
      adopted and fetched; with nothing stored nothing happens. */
  function Adopted(s: CartState, retrieve: string -> Outcome<Cart>): (r: CartState)
    ensures !Truthy(Lookup(s.storage, CartIdKey)) ==> r == s
    ensures Truthy(Lookup(s.storage, CartIdKey)) ==>
      r.cartId == Lookup(s.storage, CartIdKey) || (r.cartId.None? && r.cart.None?)
    ensures r.storage == s.storage || r.storage == s.storage - {CartIdKey}
    ensures var stored := Lookup(s.storage, CartIdKey);
      Truthy(stored) && retrieve(stored.value).Ok? ==>
        r == s.(cart := Some(retrieve(stored.value).value), cartId := stored)
    ensures var stored := Lookup(s.storage, CartIdKey);
      Truthy(stored) && retrieve(stored.value).Err? && retrieve(stored.value).status == 404 ==>
        r == CartState(None, None, s.storage - {CartIdKey})
    ensures var stored := Lookup(s.storage, CartIdKey);
      Truthy(stored) && retrieve(stored.value).Err? && retrieve(stored.value).status != 404 ==>
        r == s.(cartId := stored)
  {
    var stored := Lookup(s.storage, CartIdKey);
    if Truthy(stored) then Fetched(s.(cartId := stored), retrieve(stored.value)) else s
  }

  /** `refreshCart`: refetch the set id, or adopt a stored one. */
  function Refreshed(s: CartState, retrieve: string -> Outcome<Cart>): (r: CartState)
    ensures Truthy(s.cartId) ==> r.cartId == s.cartId || (r.cartId.None? && r.cart.None?)
    ensures Truthy(s.cartId) && retrieve(s.cartId.value).Ok? ==> r == s.(cart := Some(retrieve(s.cartId.value).value))
    ensures Truthy(s.cartId) && retrieve(s.cartId.value).Err? && retrieve(s.cartId.value).status == 404 ==>
      r == CartState(None, None, s.storage - {CartIdKey})
    ensures Truthy(s.cartId) && retrieve(s.cartId.value).Err? && retrieve(s.cartId.value).status != 404 ==> r == s
    ensures !Truthy(s.cartId) ==> r == Adopted(s, retrieve)
    ensures r.storage == s.storage || r.storage == s.storage - {CartIdKey}
  {
    if Truthy(s.cartId) then Fetched(s, retrieve(s.cartId.value)) else Adopted(s, retrieve)
  }

  /** `updateItem` and `removeItem`: nothing without an id; the returned cart
      on success; no change on failure. */
  function LineChanged(s: CartState, response: Outcome<Cart>): (r: CartState)
    ensures r.cartId == s.cartId && r.storage == s.storage
    ensures Truthy(s.cartId) && response.Ok? ==> r.cart == Some(response.value)
    ensures !Truthy(s.cartId) || response.Err? ==> r == s
  {
    if !Truthy(s.cartId) then s
    else match response
      case Ok(c) => s.(cart := Some(c))
      case Err(_, _) => s
  }

  /** Every operation keeps the id non-empty and in step with storage. */
  lemma OperationsKeepSync(s: CartState, retrieve: string -> Outcome<Cart>, response: Outcome<Cart>)
    requires ValidState(s) && Synced(s)
    ensures ValidState(Fetched(s, response)) && Synced(Fetched(s, response))
    ensures ValidState(Adopted(s, retrieve)) && Synced(Adopted(s, retrieve))
    ensures ValidState(Refreshed(s, retrieve)) && Synced(Refreshed(s, retrieve))
    ensures ValidState(LineChanged(s, response)) && Synced(LineChanged(s, response))
  {
  }

  /** Mounting with a stored id: the id is adopted and the result of fetching
      that very id decides the state; with nothing stored the state stays empty. */
  lemma MountOutcomes(storage: map<string, string>, retrieve: string -> Outcome<Cart>)
    ensures var s := Adopted(CartState(None, None, storage), retrieve);
      var stored := Lookup(storage, CartIdKey);
      (!Truthy(stored) ==> s == CartState(None, None, storage)) &&
      (Truthy(stored) && retrieve(stored.value).Ok? ==>
         s == CartState(Some(retrieve(stored.value).value), stored, storage)) &&
      (Truthy(stored) && retrieve(stored.value).Err? && retrieve(stored.value).status == 404 ==>
         s == CartState(None, None, storage - {CartIdKey})) &&
      (Truthy(stored) && retrieve(stored.value).Err? && retrieve(stored.value).status != 404 ==>
         s == CartState(None, stored, storage))
  {
  }

  /** A refresh with an id never looks at storage: whatever storage holds,
      the refreshed state is the same, so an id removed from storage by
      someone else stays set as long as the server still returns the cart. */
  lemma RefreshIgnoresStorageWithId(s: CartState, other: map<string, string>, retrieve: string -> Outcome<Cart>)
    requires Truthy(s.cartId)
    ensures Refreshed(s.(storage := other), retrieve).cart == Refreshed(s, retrieve).cart
    ensures Refreshed(s.(storage := other), retrieve).cartId == Refreshed(s, retrieve).cartId
  {
  }

  /** A request the provider sends for a line of the cart. */
  datatype LineRequest =
    | UpdateLine(cartId: string, lineId: string, quantity: int)
    | DeleteLine(cartId: string, lineId: string)

  class CartProvider {
    var cart: Option<Cart>
    var cartId: Option<string>
    const storage: LocalStorage

    ghost function State(): CartState
      reads this, storage
    {
      CartState(cart, cartId, storage.items)
    }

    ghost predicate Valid()
      reads this
    {
      cartId.Some? ==> cartId.value != ""
    }

    constructor (storage: LocalStorage)
      ensures Valid()
      ensures this.storage == storage && cart.None? && cartId.None?
    {
      this.storage := storage;
      cart := None;
      cartId := None;
    }

    /** The initial effect. */
    method Mount(retrieve: string -> Outcome<Cart>)
      requires Valid()
      modifies this, storage
      ensures Valid()
      ensures State() == Adopted(old(State()), retrieve)
    {
      var stored := Lookup(storage.items, CartIdKey);
      if stored.Some? && stored.value != "" {
        cartId := stored;
        FetchCart(stored.value, retrieve(stored.value));
      }
    }

    method FetchCart(id: string, response: Outcome<Cart>)
      requires Valid()
      modifies this, storage
      ensures Valid()
      ensures State() == Fetched(old(State()), response)
    {
      match response
      case Ok(c) =>
        cart := Some(c);
      case Err(status, _) =>
        if status == 404 {
          storage.RemoveItem(CartIdKey);
          cart := None;
          cartId := None;
        }
    }

    method RefreshCart(retrieve: string -> Outcome<Cart>)
      requires Valid()
      modifies this, storage
      ensures Valid()
      ensures State() == Refreshed(old(State()), retrieve)
    {
      if cartId.Some? && cartId.value != "" {
        FetchCart(cartId.value, retrieve(cartId.value));
      } else {
        var stored := Lookup(storage.items, CartIdKey);
        if stored.Some? && stored.value != "" {
          cartId := stored;
          FetchCart(stored.value, retrieve(stored.value));
        }
      }
    }

    method UpdateItem(lineId: string, quantity: int, response: Outcome<Cart>) returns (sent: Option<LineRequest>)
      requires Valid()
      modifies this
      ensures Valid()
      ensures State() == LineChanged(old(State()), response)
      ensures sent.Some? <==> Truthy(old(cartId))
      ensures sent.Some? ==> sent.value == UpdateLine(old(cartId).value, lineId, quantity)
    {
      if cartId.None? || cartId.value == "" {
        return None;
      }
      sent := Some(UpdateLine(cartId.value, lineId, quantity));
      if response.Ok? {
        cart := Some(response.value);
      }
    }

    method RemoveItem(lineId: string, response: Outcome<Cart>) returns (sent: Option<LineRequest>)
      requires Valid()
      modifies this
      ensures Valid()
      ensures State() == LineChanged(old(State()), response)
      ensures sent.Some? <==> Truthy(old(cartId))
      ensures sent.Some? ==> sent.value == DeleteLine(old(cartId).value, lineId)
    {
      if cartId.None? || cartId.value == "" {
        return None;
      }
      sent := Some(DeleteLine(cartId.value, lineId));
      if response.Ok? {
        cart := Some(response.value);
      }
    }
  }

  const OutsideProviderMessage: string := "useCart must be used within a CartProvider"

  /** `useCart`: the enclosing provider, or the error thrown outside one (a
      plain exception, so its status is 0). */
  function UseCart(context: Option<CartProvider>): (r: Outcome<CartProvider>)
    ensures context.Some? <==> r.Ok?
    ensures context.Some? ==> r.value == context.value
    ensures context.None? ==> r.message == OutsideProviderMessage
  {
    match context
    case Some(p) => Ok(p)
    case None => Err(0, OutsideProviderMessage)
  }
}
