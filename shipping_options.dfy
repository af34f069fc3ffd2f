/** The second checkout step: list the shipping options for the cart and add
    the chosen one to it as shipping method. */
module ShippingOptions {
  import opened Common
  import opened Commerce

  datatype ShippingOption = ShippingOption(id: string, name: string, amount: int)

  /** The request that sets the cart's shipping method. */
  datatype AddShippingMethod = AddShippingMethod(cartId: string, optionId: string)

  /** The option already chosen on the cart: the first shipping method's option
      id, when it is non-empty. */
  function PreSelection(cart: Cart): (r: Option<string>)
    ensures r.Some? <==> cart.shippingMethods != [] && Truthy(cart.shippingMethods[0].shippingOptionId)
    ensures r.Some? ==> r == cart.shippingMethods[0].shippingOptionId && r.value != ""
  {
    if cart.shippingMethods != [] && Truthy(cart.shippingMethods[0].shippingOptionId)
    then cart.shippingMethods[0].shippingOptionId
    else None
  }

  datatype SubmitResult = SubmitResult(sent: Option<AddShippingMethod>, updated: Option<Cart>)

  /** `handleSubmit`: nothing without a selection; otherwise one request with the
      selected option, and the returned cart on success (failures are only logged). */
  function Submit(cartId: string, selected: Option<string>, response: Outcome<Cart>): (r: SubmitResult)
    ensures r.sent.Some? <==> Truthy(selected)
    ensures r.sent.Some? ==> r.sent.value == AddShippingMethod(cartId, selected.value)
    ensures r.updated.Some? <==> Truthy(selected) && response.Ok?
    ensures r.updated.Some? ==> r.updated.value == response.value
  {
    if !Truthy(selected) then SubmitResult(None, None)
    else match response
      case Ok(c) => SubmitResult(Some(AddShippingMethod(cartId, selected.value)), Some(c))
      case Err(_, _) => SubmitResult(Some(AddShippingMethod(cartId, selected.value)), None)
  }

  /** What the step shows: a spinner while loading, a warning with a way back
      when there are no options, otherwise the list and the continue button. */
  datatype View =
    | Spinner
    | NoOptions
    | OptionList(options: seq<ShippingOption>, highlighted: seq<bool>, continueDisabled: bool)

  function Render(loading: bool, submitting: bool, options: seq<ShippingOption>, selected: Option<string>): (v: View)
    ensures loading <==> v.Spinner?
    ensures !loading ==> (v.NoOptions? <==> options == [])
    ensures v.OptionList? ==> v.options == options && |v.highlighted| == |options|
    ensures v.OptionList? ==> forall i :: 0 <= i < |options| ==> (v.highlighted[i] <==> selected == Some(options[i].id))
    ensures v.OptionList? ==> (v.continueDisabled <==> submitting || !Truthy(selected))
  {
    if loading then Spinner
    else if options == [] then NoOptions
    else OptionList(
      options,
      seq(|options|, i requires 0 <= i < |options| => selected == Some(options[i].id)),
      submitting || !Truthy(selected))
  }

  /** Only an enabled button submits, and an enabled button always sends a request. */
  lemma EnabledButtonSubmits(submitting: bool, options: seq<ShippingOption>, selected: Option<string>, cartId: string, response: Outcome<Cart>)
    requires Render(false, submitting, options, selected).OptionList?
    ensures !Render(false, submitting, options, selected).continueDisabled ==> Submit(cartId, selected, response).sent.Some?
    ensures Submit(cartId, selected, response).sent.None? ==> Render(false, submitting, options, selected).continueDisabled
  {
  }

  class ShippingStep {
    var options: seq<ShippingOption>
    var loading: bool
    var submitting: bool
    var selectedOptionId: Option<string>
    const cart: Cart

    constructor (cart: Cart)
      ensures this.cart == cart
      ensures options == [] && loading && !submitting && selectedOptionId.None?
    {
      this.cart := cart;
      options := [];
      loading := true;
      submitting := false;
      selectedOptionId := None;
    }

    /** The load effect: without a cart id nothing happens and the spinner
        stays; otherwise the fetched options replace the list, the cart's
        chosen option is preselected, and loading ends in every case. */
    method FetchOptions(response: Outcome<seq<ShippingOption>>)
      modifies this`options, this`loading, this`selectedOptionId
      ensures cart.id == "" ==>
        options == old(options) && loading == old(loading) && selectedOptionId == old(selectedOptionId)
      ensures cart.id != "" ==> !loading
      ensures cart.id != "" && response.Ok? ==> options == response.value
      ensures cart.id != "" && response.Ok? ==>
        selectedOptionId == (if PreSelection(cart).Some? then PreSelection(cart) else old(selectedOptionId))
      ensures cart.id != "" && response.Err? ==> options == old(options) && selectedOptionId == old(selectedOptionId)
    {
      if cart.id == "" {
        return;
      }
      if response.Ok? {
        options := response.value;
        var chosen := PreSelection(cart);
        if chosen.Some? {
          selectedOptionId := chosen;
        }
      }
      loading := false;
    }

    /** A click on an option. */
    method Select(optionId: string)
      modifies this`selectedOptionId
      ensures selectedOptionId == Some(optionId)
    {
      selectedOptionId := Some(optionId);
    }

    /** The continue button: the outcome of `Submit`; submitting is over
        afterwards, and untouched when nothing was selected. */
    method HandleSubmit(response: Outcome<Cart>) returns (sent: Option<AddShippingMethod>, updated: Option<Cart>)
      modifies this`submitting
      ensures SubmitResult(sent, updated) == Submit(cart.id, selectedOptionId, response)
      ensures Truthy(selectedOptionId) ==> !submitting
      ensures !Truthy(selectedOptionId) ==> submitting == old(submitting)
    {
      if selectedOptionId.None? || selectedOptionId.value == "" {
        return None, None;
      }
      submitting := true;
      sent := Some(AddShippingMethod(cart.id, selectedOptionId.value));
      updated := if response.Ok? then Some(response.value) else None;
      submitting := false;
    }
  }
}
