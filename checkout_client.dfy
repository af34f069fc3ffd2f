/** The checkout page: loads the cart, picks the step to start at, and walks
    through address, shipping and payment. */
module CheckoutClient {
  import opened Common
  import opened Commerce
  import opened Browser
  import opened CartContext

  datatype Step = AddressStep | ShippingStep | PaymentStep

  /** The position of a step in the checkout. */
  function Index(step: Step): (r: nat)
    ensures r <= 2
  {
    match step
    case AddressStep => 0
    case ShippingStep => 1
    case PaymentStep => 2
  }

  /** The step after loading: a cart with address and e-mail goes on to
      payment when it already has a shipping method, else to shipping. */
  function AutoAdvance(step: Step, cart: Cart): (r: Step)
    ensures r == PaymentStep <==>
      (cart.shippingAddress.Some? && Truthy(cart.email) && |cart.shippingMethods| > 0) ||
      (step == PaymentStep && !(cart.shippingAddress.Some? && Truthy(cart.email)))
    ensures !(cart.shippingAddress.Some? && Truthy(cart.email)) ==> r == step
    ensures cart.shippingAddress.Some? && Truthy(cart.email) ==> r != AddressStep
  {
    if cart.shippingAddress.Some? && Truthy(cart.email) then
      if |cart.shippingMethods| > 0 then PaymentStep else ShippingStep
    else step
  }

  /** What a step's form reports, and its back buttons. */
  datatype Event = AddressSaved | ShippingSaved | BackFromShipping | BackFromPayment

  /** The step whose form can raise the event (only that step's form is shown). */
  function Source(e: Event): Step {
    match e
    case AddressSaved => AddressStep
    case ShippingSaved => ShippingStep
    case BackFromShipping => ShippingStep
    case BackFromPayment => PaymentStep
  }

  /** The step the event's handler sets. */
  function Target(e: Event): Step {
    match e
    case AddressSaved => ShippingStep
    case ShippingSaved => PaymentStep
    case BackFromShipping => AddressStep
    case BackFromPayment => ShippingStep
  }

  /** One move of the step machine; None when the event cannot occur in that step. */
  function Next(step: Step, e: Event): (r: Option<Step>)
    ensures r.Some? <==> step == Source(e)
  {
    if step == Source(e) then Some(Target(e)) else None
  }

  /** Every move goes to a neighbouring step: forward exactly on a save, back
      exactly on a back button; address never jumps to payment. */
  lemma MovesAreAdjacent(step: Step, e: Event)
    requires Next(step, e).Some?
    ensures var t := Next(step, e).value;
      (Index(t) == Index(step) + 1 <==> e == AddressSaved || e == ShippingSaved) &&
      (Index(t) + 1 == Index(step) <==> e == BackFromShipping || e == BackFromPayment)
    ensures step == AddressStep ==> Next(step, e).value == ShippingStep
    ensures Next(step, e).value == PaymentStep ==> e == ShippingSaved
  {
  }

  /** A run of events from a step; None once an event cannot occur. */
  function Run(step: Step, events: seq<Event>): (r: Option<Step>)
    ensures events == [] ==> r == Some(step)
    ensures r.Some? ==> Index(r.value) - Index(step) <= |events| && Index(step) - Index(r.value) <= |events|
    decreases |events|
  {
    if events == [] then Some(step)
    else match Next(step, events[0])
      case None => None
      case Some(s) => Run(s, events[1..])
  }

  /** Payment is only reached from an earlier step through a saved shipping
      method, and the address was saved first when the run starts at the address. */
  lemma {:induction false} PaymentNeedsShipping(step: Step, events: seq<Event>)
    requires step != PaymentStep
    requires Run(step, events) == Some(PaymentStep)
    ensures ShippingSaved in events
    ensures step == AddressStep ==> AddressSaved in events
    decreases |events|
  {
    assert events != [];
    var s := Next(step, events[0]).value;
    if s == PaymentStep {
      assert events[0] == ShippingSaved;
    } else {
      PaymentNeedsShipping(s, events[1..]);
      assert events == [events[0]] + events[1..];
      if step == AddressStep {
        assert events[0] == AddressSaved;
      }
    }
  }

  /** What the page shows: a spinner while loading, the empty-cart notice for
      a missing or empty cart whatever the step, otherwise the current step. */
  datatype Screen = Spinner | EmptyCart | StepForm(step: Step, cart: Cart)

  function Render(loading: bool, cart: Option<Cart>, step: Step): (v: Screen)
    ensures loading <==> v.Spinner?
    ensures !loading ==> (v.EmptyCart? <==> cart.None? || cart.value.items == [])
    ensures v.StepForm? ==> v.step == step && cart == Some(v.cart) && v.cart.items != []
  {
    if loading then Spinner
    else if cart.None? || cart.value.items == [] then EmptyCart
    else StepForm(step, cart.value)
  }

  /** The cart context after `handleOrderSuccess` as written: the stored id is
      removed and then the context refreshes. */
  function AfterOrder(s: CartState, retrieve: string -> Outcome<Cart>): (r: CartState)
    ensures Lookup(r.storage, CartIdKey).None?
    ensures forall k :: k != CartIdKey ==> Lookup(r.storage, k) == Lookup(s.storage, k)
    ensures !Truthy(s.cartId) ==> r == s.(storage := s.storage - {CartIdKey})
  {
    Refreshed(s.(storage := s.storage - {CartIdKey}), retrieve)
  }

  /** As written, a context that holds a cart id keeps it and refetches the
      same cart after an order, while storage no longer has the id: the
      context is not cleared and no longer in step with storage. */
  lemma OrderSuccessKeepsCart(s: CartState, retrieve: string -> Outcome<Cart>)
    requires Truthy(s.cartId) && retrieve(s.cartId.value).Ok?
    ensures AfterOrder(s, retrieve).cartId == s.cartId
    ensures AfterOrder(s, retrieve).cart == Some(retrieve(s.cartId.value).value)
    ensures !Synced(AfterOrder(s, retrieve))
  {
    assert CartIdKey !in s.storage - {CartIdKey};
  }

  /** The cart context cleared after an order: no cart, no id, no stored id. */
  function ClearedAfterOrder(s: CartState): (r: CartState)
    ensures r.cart.None? && r.cartId.None?
    ensures Lookup(r.storage, CartIdKey).None?
    ensures forall k :: k != CartIdKey ==> Lookup(r.storage, k) == Lookup(s.storage, k)
    ensures ValidState(r) && Synced(r)
  {
    CartState(None, None, s.storage - {CartIdKey})
  }

  /** A cleared context stays cleared: a later refresh finds nothing to fetch. */
  lemma ClearedStaysClear(s: CartState, retrieve: string -> Outcome<Cart>)
    ensures Refreshed(ClearedAfterOrder(s), retrieve) == ClearedAfterOrder(s)
  {
    assert CartIdKey !in ClearedAfterOrder(s).storage;
  }

  class CheckoutPage {
    var cart: Option<Cart>
    var loading: bool
    var currentStep: Step
    const ctx: CartProvider

    ghost predicate Valid()
      reads this, ctx
    {
      ctx.Valid()
    }

    constructor (ctx: CartProvider)
      requires ctx.Valid()
      ensures Valid() && this.ctx == ctx
      ensures cart.None? && loading && currentStep == AddressStep
    {
      this.ctx := ctx;
      cart := None;
      loading := true;
      currentStep := AddressStep;
    }

    /** The load effect with the context's cart id: no id ends loading at
        once; otherwise the fetched cart replaces the page's cart and moves the
        step on, a failed fetch changes nothing but loading. */
    method Load(response: Outcome<Cart>) returns (fetched: Option<string>)
      modifies this`cart, this`loading, this`currentStep
      ensures !loading
      ensures fetched.Some? <==> Truthy(ctx.cartId)
      ensures fetched.Some? ==> fetched == ctx.cartId
      ensures fetched.Some? && response.Ok? ==>
        cart == Some(response.value) && currentStep == AutoAdvance(old(currentStep), response.value)
      ensures fetched.None? || response.Err? ==> cart == old(cart) && currentStep == old(currentStep)
    {
      if ctx.cartId.None? || ctx.cartId.value == "" {
        loading := false;
        return None;
      }
      fetched := ctx.cartId;
      loading := true;
      if response.Ok? {
        cart := Some(response.value);
        currentStep := AutoAdvance(currentStep, response.value);
      }
      loading := false;
    }

    /** The address form's success handler. */
    method HandleAddressSuccess(updated: Cart, retrieve: string -> Outcome<Cart>)
      requires Valid()
      modifies this`cart, this`currentStep, ctx, ctx.storage
      ensures Valid()
      ensures cart == Some(updated) && currentStep == Target(AddressSaved)
      ensures old(currentStep) == Source(AddressSaved) ==> Next(old(currentStep), AddressSaved) == Some(currentStep)
      ensures ctx.State() == Refreshed(old(ctx.State()), retrieve)
    {
      cart := Some(updated);
      currentStep := ShippingStep;
      ctx.RefreshCart(retrieve);
    }

    /** The shipping step's success handler. */
    method HandleShippingSuccess(updated: Cart, retrieve: string -> Outcome<Cart>)
      requires Valid()
      modifies this`cart, this`currentStep, ctx, ctx.storage
      ensures Valid()
      ensures cart == Some(updated) && currentStep == Target(ShippingSaved)
      ensures old(currentStep) == Source(ShippingSaved) ==> Next(old(currentStep), ShippingSaved) == Some(currentStep)
      ensures ctx.State() == Refreshed(old(ctx.State()), retrieve)
    {
      cart := Some(updated);
      currentStep := PaymentStep;
      ctx.RefreshCart(retrieve);
    }

    /** The shipping step's back button. */
    method BackToAddress()
      modifies this`currentStep
      ensures currentStep == Target(BackFromShipping)
      ensures old(currentStep) == Source(BackFromShipping) ==> Next(old(currentStep), BackFromShipping) == Some(currentStep)
    {
      currentStep := AddressStep;
    }

    /** The payment step's back button. */
    method BackToShipping()
      modifies this`currentStep
      ensures currentStep == Target(BackFromPayment)
      ensures old(currentStep) == Source(BackFromPayment) ==> Next(old(currentStep), BackFromPayment) == Some(currentStep)
    {
      currentStep := ShippingStep;
    }

    /** The payment form's success handler: drop the stored id, refresh the
        context and go to the confirmation page of the order. */
    method HandleOrderSuccess(order: Order, retrieve: string -> Outcome<Cart>) returns (route: string)
      requires Valid()
      modifies ctx, ctx.storage
      ensures Valid()
      ensures ctx.State() == AfterOrder(old(ctx.State()), retrieve)
      ensures route == "/order/confirmed/" + order.id
    {
      ctx.storage.RemoveItem(CartIdKey);
      ctx.RefreshCart(retrieve);
      route := "/order/confirmed/" + order.id;
    }
  }
}
