/** The add-to-cart button: it finds or creates the cart id kept in storage,
    adds one line to that cart and refreshes the cart context. */
module AddToCart {
  import opened Common
  import opened Commerce
  import opened Browser
  import opened CartContext

  const DefaultQuantity: int := 1

  /** The result of `getCartId`: the id (or the error thrown by the cart
      creation), the storage afterwards, and whether a cart was created. */
  datatype CartIdLookup = CartIdLookup(id: Outcome<string>, storage: map<string, string>, created: bool)

  /** `getCartId`: a stored id is reused; otherwise a cart is created and its
      id stored, but only when that id is non-empty. */
  function GetCartIdSpec(storage: map<string, string>, createResponse: Outcome<Cart>): (r: CartIdLookup)
    ensures Truthy(Lookup(storage, CartIdKey)) ==> r == CartIdLookup(Ok(storage[CartIdKey]), storage, false)
    ensures !Truthy(Lookup(storage, CartIdKey)) ==> r.created
    ensures !Truthy(Lookup(storage, CartIdKey)) && createResponse.Ok? ==>
      r.id == Ok(createResponse.value.id) &&
      r.storage == (if createResponse.value.id != "" then storage[CartIdKey := createResponse.value.id] else storage)
    ensures !Truthy(Lookup(storage, CartIdKey)) && createResponse.Err? ==>
      r.id == Err(createResponse.status, createResponse.message)
    ensures r.id.Ok? && r.id.value != "" ==> Lookup(r.storage, CartIdKey) == Some(r.id.value)
    ensures r.id.Err? ==> r.storage == storage && createResponse.Err?
    ensures forall k :: k != CartIdKey ==> Lookup(r.storage, k) == Lookup(storage, k)
  {
    var stored := Lookup(storage, CartIdKey);
    if Truthy(stored) then CartIdLookup(Ok(stored.value), storage, false)
    else match createResponse
      case Err(status, message) => CartIdLookup(Err(status, message), storage, true)
      case Ok(c) => CartIdLookup(Ok(c.id), if c.id != "" then storage[CartIdKey := c.id] else storage, true)
  }

  /** Once an id has been obtained, a second call reuses it whatever the
      server would answer to a creation. */
  lemma SecondCallReuses(storage: map<string, string>, first: Outcome<Cart>, second: Outcome<Cart>)
    ensures var r1 := GetCartIdSpec(storage, first);
      r1.id.Ok? && r1.id.value != "" ==>
        GetCartIdSpec(r1.storage, second) == CartIdLookup(r1.id, r1.storage, false)
  {
  }

  /** The first add on a device: the created cart's id is stored, and the
      refresh that follows adopts exactly that id, so the context ends up
      holding the new cart and in step with storage. */
  lemma FirstAddAdoptsCreatedCart(s: CartState, created: Cart, retrieve: string -> Outcome<Cart>)
    requires !Truthy(s.cartId) && !Truthy(Lookup(s.storage, CartIdKey)) && created.id != ""
    requires retrieve(created.id).Ok?
    ensures var after := Refreshed(s.(storage := GetCartIdSpec(s.storage, Ok(created)).storage), retrieve);
      after.cartId == Some(created.id) && after.cart == Some(retrieve(created.id).value) && Synced(after)
  {
    var lookup := GetCartIdSpec(s.storage, Ok(created));
    assert Lookup(lookup.storage, CartIdKey) == Some(created.id);
  }

  /** The request that adds a line to a cart. */
  datatype AddLineRequest = AddLineRequest(cartId: string, variantId: string, quantity: int)

  /** The button is inactive while loading and while it shows success. */
  predicate ButtonDisabled(isLoading: bool, isSuccess: bool) {
    isLoading || isSuccess
  }

  class AddToCartButton {
    var isLoading: bool
    var isSuccess: bool
    const variantId: string
    const quantity: int
    const storage: LocalStorage
    const ctx: CartProvider

    ghost predicate Valid()
      reads this, ctx
    {
      ctx.storage == storage && ctx.Valid()
    }

    /** The quantity defaults to 1 when the prop is not given. */
    constructor (variantId: string, quantity: Option<int>, ctx: CartProvider)
      requires ctx.Valid()
      ensures Valid()
      ensures this.variantId == variantId && this.ctx == ctx && storage == ctx.storage
      ensures this.quantity == (if quantity.Some? then quantity.value else DefaultQuantity)
      ensures !isLoading && !isSuccess
    {
      this.variantId := variantId;
      this.quantity := if quantity.Some? then quantity.value else DefaultQuantity;
      this.ctx := ctx;
      storage := ctx.storage;
      isLoading := false;
      isSuccess := false;
    }

    method GetCartId(createResponse: Outcome<Cart>) returns (id: Outcome<string>, created: bool)
      modifies storage
      ensures CartIdLookup(id, storage.items, created) == GetCartIdSpec(old(storage.items), createResponse)
    {
      var cartId := Lookup(storage.items, CartIdKey);
      created := false;
      if cartId.None? || cartId.value == "" {
        created := true;
        match createResponse
        case Err(status, message) =>
          return Err(status, message), created;
        case Ok(c) =>
          cartId := Some(c.id);
          if c.id != "" {
            storage.SetItem(CartIdKey, c.id);
          }
      }
      id := Ok(cartId.value);
    }

    /** One click: errors are swallowed, loading always ends, and success is
        shown only after the line was added and the cart refreshed. */
    method HandleAddToCart(createResponse: Outcome<Cart>, addResponse: Outcome<Cart>, retrieve: string -> Outcome<Cart>)
      returns (sent: Option<AddLineRequest>)
      requires Valid()
      modifies this, storage, ctx
      ensures Valid()
      ensures !isLoading
      ensures var lookup := GetCartIdSpec(old(storage.items), createResponse);
        && (sent.Some? <==> lookup.id.Ok? && lookup.id.value != "")
        && (sent.Some? ==> sent.value == AddLineRequest(lookup.id.value, variantId, quantity))
        && (isSuccess <==> sent.Some? && addResponse.Ok?)
        && (ButtonDisabled(isLoading, isSuccess) <==> isSuccess)
        && (isSuccess ==> ctx.State() == Refreshed(old(ctx.State()).(storage := lookup.storage), retrieve))
        && (!isSuccess ==> ctx.cart == old(ctx.cart) && ctx.cartId == old(ctx.cartId) && storage.items == lookup.storage)
    {
      isLoading := true;
      isSuccess := false;
      var id, _ := GetCartId(createResponse);
      if id.Err? || id.value == "" {
        isLoading := false;
        return None;
      }
      sent := Some(AddLineRequest(id.value, variantId, quantity));
      if addResponse.Err? {
        isLoading := false;
        return;
      }
      ctx.RefreshCart(retrieve);
      isSuccess := true;
      isLoading := false;
    }
  }
}
