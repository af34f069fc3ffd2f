/** The last checkout step: choose a payment provider of the cart's region,
    open a payment session with it and complete the cart into an order. */
module PaymentForm {
  import opened Common
  import opened Commerce

  datatype Provider = Provider(id: string)

  /** An entry of the provider list; it stands for a provider, not for a
      session opened with the backend. */
  datatype Session = Session(id: string, providerId: string, isProvider: bool)

  /** What completing a cart returns: an order, or the cart with an error. */
  datatype Completion = OrderPlaced(order: Order) | CartReturned(message: string) {
    /** The response's `type` field. */
    function Kind(): string {
      if OrderPlaced? then "order" else "cart"
    }
  }

  datatype PaymentCall = InitiateSession(cartId: string, providerId: string) | CompleteCart(cartId: string)

  const SystemProvider: string := "pp_system_default"
  const LoadErrorPrefix: string := "Konnte Zahlungsarten nicht laden. "
  const NotAnOrderMessage: string := "Bestellung konnte nicht abgeschlossen werden (Not an order type)."
  const DefaultOrderError: string := "Fehler beim Abschluss der Bestellung."

  /** One entry per provider, in order, with id and provider id both the provider's id. */
  function ToSessions(providers: seq<Provider>): (r: seq<Session>)
    ensures |r| == |providers|
    ensures forall i :: 0 <= i < |r| ==> r[i].id == providers[i].id && r[i].providerId == providers[i].id && r[i].isProvider
  {
    seq(|providers|, i requires 0 <= i < |providers| => Session(providers[i].id, providers[i].id, true))
  }

  /** The preselection after loading: the only provider, when there is exactly one. */
  function AutoSelect(providers: seq<Provider>): (r: Option<string>)
    ensures r.Some? <==> |providers| == 1
    ensures r.Some? ==> r.value == providers[0].id
  {
    if |providers| == 1 then Some(providers[0].id) else None
  }

  /** The automatic selection is the provider id of an entry of the list, so
      the rendered list always highlights it. */
  lemma AutoSelectIsListed(providers: seq<Provider>)
    ensures AutoSelect(providers).Some? ==>
      |ToSessions(providers)| == 1 && ToSessions(providers)[0].providerId == AutoSelect(providers).value
  {
  }

  /** The name shown for a provider. */
  function ProviderLabel(providerId: string): (r: string)
    ensures providerId == SystemProvider ==> r == "Vorkasse / Rechnung"
    ensures providerId != SystemProvider ==> r == providerId
    ensures r != SystemProvider
  {
    if providerId == SystemProvider then "Vorkasse / Rechnung" else providerId
  }

  /** What the step shows: a spinner while loading, otherwise the provider
      list with the error (if any), a warning when the list is empty, and the
      order button, disabled while processing or without a selection. */
  datatype View =
    | Spinner
    | Panel(error: Option<string>, labels: seq<string>, noProviders: bool, orderDisabled: bool)

  function Render(loading: bool, processing: bool, sessions: seq<Session>, selected: Option<string>, error: Option<string>): (v: View)
    ensures loading <==> v.Spinner?
    ensures v.Panel? ==> (v.noProviders <==> sessions == [])
    ensures v.Panel? ==> |v.labels| == |sessions| && forall i :: 0 <= i < |sessions| ==> v.labels[i] == ProviderLabel(sessions[i].providerId)
    ensures v.Panel? ==> (v.orderDisabled <==> processing || selected.None? || selected.value == "")
    ensures v.Panel? ==> (v.error.Some? <==> Truthy(error))
    ensures v.Panel? && Truthy(error) ==> v.error == error
  {
    if loading then Spinner
    else Panel(
      if Truthy(error) then error else None,
      seq(|sessions|, i requires 0 <= i < |sessions| => ProviderLabel(sessions[i].providerId)),
      sessions == [],
      processing || !Truthy(selected))
  }

  datatype PlaceOrderResult = PlaceOrderResult(sent: seq<PaymentCall>, placed: Option<Order>, error: Option<string>)

  function ErrorText(message: string): (r: string)
    ensures r != ""
    ensures message != "" ==> r == message
    ensures message == "" ==> r == DefaultOrderError
  {
    OrElse(Some(message), DefaultOrderError)
  }

  /** `handlePlaceOrder` with a provider selected: the session is opened before
      the cart is completed, and only an "order" response counts as success. */
  function PlaceOrder(cartId: string, providerId: string, initResponse: Outcome<()>, completeResponse: Outcome<Completion>): (r: PlaceOrderResult)
    ensures 1 <= |r.sent| <= 2 && r.sent[0] == InitiateSession(cartId, providerId)
    ensures |r.sent| == 2 <==> initResponse.Ok?
    ensures |r.sent| == 2 ==> r.sent[1] == CompleteCart(cartId)
    ensures r.placed.Some? <==> initResponse.Ok? && completeResponse.Ok? && completeResponse.value.Kind() == "order"
    ensures r.placed.Some? ==> completeResponse.value == OrderPlaced(r.placed.value)
    ensures r.placed.None? <==> r.error.Some?
    ensures initResponse.Ok? && completeResponse.Ok? && completeResponse.value.Kind() != "order" ==> r.error == Some(NotAnOrderMessage)
    ensures initResponse.Err? ==> r.error == Some(ErrorText(initResponse.message))
    ensures initResponse.Ok? && completeResponse.Err? ==> r.error == Some(ErrorText(completeResponse.message))
  {
    var first := [InitiateSession(cartId, providerId)];
    match initResponse
    case Err(_, message) => PlaceOrderResult(first, None, Some(ErrorText(message)))
    case Ok(_) =>
      var sent := first + [CompleteCart(cartId)];
      match completeResponse
      case Err(_, message) => PlaceOrderResult(sent, None, Some(ErrorText(message)))
      case Ok(c) =>
        if c.Kind() == "order" then PlaceOrderResult(sent, Some(c.order), None)
        else PlaceOrderResult(sent, None, Some(NotAnOrderMessage))
  }

  class PaymentFormState {
    var loading: bool
    var processing: bool
    var sessions: seq<Session>
    var selectedProviderId: Option<string>
    var error: Option<string>
    const cart: Cart

    constructor (cart: Cart)
      ensures this.cart == cart
      ensures loading && !processing && sessions == [] && selectedProviderId.None? && error.None?
    {
      this.cart := cart;
      loading := true;
      processing := false;
      sessions := [];
      selectedProviderId := None;
      error := None;
    }

    /** The load effect: without a region nothing is fetched and the spinner
        stays, since the early return comes before the `finally`. */
    method FetchProviders(response: Outcome<seq<Provider>>)
      modifies this
      ensures !Truthy(cart.regionId) ==>
        loading == old(loading) && sessions == old(sessions) && selectedProviderId == old(selectedProviderId) && error == old(error)
      ensures Truthy(cart.regionId) ==> !loading
      ensures Truthy(cart.regionId) && response.Ok? ==> sessions == ToSessions(response.value) && error == old(error)
      ensures Truthy(cart.regionId) && response.Ok? ==>
        selectedProviderId == (if |response.value| == 1 then AutoSelect(response.value) else old(selectedProviderId))
      ensures Truthy(cart.regionId) && response.Err? ==>
        sessions == old(sessions) && selectedProviderId == old(selectedProviderId) && error == Some(LoadErrorPrefix + response.message)
      ensures processing == old(processing)
    {
      if cart.regionId.None? || cart.regionId.value == "" {
        return;
      }
      if response.Ok? {
        sessions := ToSessions(response.value);
        if |response.value| == 1 {
          selectedProviderId := Some(response.value[0].id);
        }
      } else {
        error := Some(LoadErrorPrefix + response.message);
      }
      loading := false;
    }

    /** A click on a provider. */
    method Select(providerId: string)
      modifies this`selectedProviderId
      ensures selectedProviderId == Some(providerId)
    {
      selectedProviderId := Some(providerId);
    }

    /** The order button: nothing happens without a selection; otherwise the
        outcome of `PlaceOrder`, with processing over afterwards. */
    method HandlePlaceOrder(initResponse: Outcome<()>, completeResponse: Outcome<Completion>)
      returns (sent: seq<PaymentCall>, placed: Option<Order>)
      modifies this`processing, this`error
      ensures !Truthy(selectedProviderId) ==>
        sent == [] && placed.None? && processing == old(processing) && error == old(error)
      ensures Truthy(selectedProviderId) ==>
        PlaceOrderResult(sent, placed, error) == PlaceOrder(cart.id, selectedProviderId.value, initResponse, completeResponse)
      ensures Truthy(selectedProviderId) ==> !processing
    {
      if selectedProviderId.None? || selectedProviderId.value == "" {
        return [], None;
      }
      processing := true;
      error := None;
      sent := [InitiateSession(cart.id, selectedProviderId.value)];
      placed := None;
      if initResponse.Err? {
        error := Some(ErrorText(initResponse.message));
        processing := false;
        return;
      }
      sent := sent + [CompleteCart(cart.id)];
      if completeResponse.Err? {
        error := Some(ErrorText(completeResponse.message));
      } else if completeResponse.value.Kind() == "order" {
        placed := Some(completeResponse.value.order);
      } else {
        error := Some(NotAnOrderMessage);
      }
      processing := false;
    }
  }
}
