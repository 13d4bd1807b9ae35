/** The cart page `src/pages/cart/index.js`: the flat shipping fee and the
    order total, the confirm button's enabled state, and `handleConfirm`,
    which sends a visitor to the login page, ignores an empty cart and
    otherwise creates the order through the cart store. */
module CartPage {
  import opened Common
  import opened Text
  import opened CartContext

  /** The shipping fee, 20 BRL, in cents. */
  const ShippingFee := 2000

  const ConfirmedMessage := "Pedido confirmado com sucesso!"
  const LoginPath := "/login"
  const OrdersPath := "/meus-pedidos"
  const DefaultPaymentMethod := "pix"

  /** `frete`. */
  function Shipping(items: seq<CartLine>): (f: int)
    ensures f == ShippingFee <==> |items| > 0
    ensures f == 0 <==> items == []
  {
    if |items| > 0 then ShippingFee else 0
  }

  /** `total`: the items' price plus shipping. */
  function OrderTotal(items: seq<CartLine>): (t: int)
    ensures items == [] ==> t == 0
    ensures items != [] ==> t == SumOf(LineSubtotal, items) + ShippingFee
  {
    TotalPrice(items) + Shipping(items)
  }

  /** Adding a line to a non-empty cart adds only its subtotal: shipping is
      charged once. */
  lemma ShippingChargedOnce(items: seq<CartLine>, line: CartLine)
    requires items != []
    ensures OrderTotal(items + [line]) == OrderTotal(items) + LineSubtotal(line)
  {
    SumOfAppend(LineSubtotal, items, [line]);
    assert SumOf(LineSubtotal, [line]) == LineSubtotal(line) + SumOf(LineSubtotal, []);
  }

  /** The confirm button's `disabled`. */
  predicate ConfirmDisabled(processing: bool, items: seq<CartLine>) {
    processing || |items| == 0
  }

  /** An enabled confirm button means an idle page and a cart with lines,
      so the total shown includes the shipping fee. */
  lemma EnabledConfirmChargesShipping(processing: bool, items: seq<CartLine>)
    requires !ConfirmDisabled(processing, items)
    ensures !processing && items != []
    ensures OrderTotal(items) == TotalPrice(items) + ShippingFee
  {
  }

  /** The message shown once `confirmOrder` answers. */
  function ConfirmMessage(res: ConfirmResult): (m: string)
    ensures res.Confirmed? ==> m == ConfirmedMessage
    ensures res.NotConfirmed? && res.error != "" ==> m == res.error
    ensures res.NotConfirmed? && res.error == "" ==> m == ConfirmOrderError
  {
    match res
    case Confirmed(_) => ConfirmedMessage
    case NotConfirmed(e) => OrElse(e, ConfirmOrderError)
  }

  /** A failed order shows the store's error, which is never empty. */
  lemma FailureShowsStoreError(message: string)
    ensures ConfirmMessage(ConfirmResultOf(OrderFailed(message))) == OrElse(message, ConfirmOrderError)
    ensures ConfirmMessage(ConfirmResultOf(OrderFailed(message))) != ""
  {
  }

  /** The page's own state cells. */
  class CheckoutPage {
    var processing: bool
    var message: string
    var paymentMethod: string

    constructor ()
      ensures !processing && message == "" && paymentMethod == DefaultPaymentMethod
    {
      processing, message, paymentMethod := false, "", DefaultPaymentMethod;
    }

    /** `handleConfirm`. `navigation` is where the page sends the browser:
        the login page at once, or the orders page after a confirmed order
        (on a timer). */
    method HandleConfirm(isAuthenticated: bool, cart: CartStore, outcome: OrderOutcome)
      returns (navigation: Option<string>, calls: seq<GatewayCall>)
      requires cart.Valid()
      modifies this, cart
      ensures cart.Valid()
      ensures !isAuthenticated ==> navigation == Some(LoginPath) && calls == []
      ensures !isAuthenticated || old(cart.items) == [] ==>
                cart.State() == old(cart.State()) && processing == old(processing) && message == old(message)
      ensures isAuthenticated && old(cart.items) == [] ==> navigation == None && calls == []
      ensures isAuthenticated && old(cart.items) != [] ==>
                calls == [CreateOrderFromCart(Some(paymentMethod), None)]
                && cart.State() == ConfirmEffect(old(cart.State()), outcome)
                && !processing
                && message == ConfirmMessage(ConfirmResultOf(outcome))
                && navigation == (if outcome.OrderCreated? then Some(OrdersPath) else None)
      ensures paymentMethod == old(paymentMethod)
    {
      navigation, calls := None, [];
      if !isAuthenticated {
        navigation := Some(LoginPath);
        return;
      }
      if |cart.items| == 0 {
        return;
      }
      processing := true;
      message := "";
      var res;
      res, calls := cart.ConfirmOrder(Some(paymentMethod), None, outcome);
      processing := false;
      if res.Confirmed? {
        message := ConfirmedMessage;
        navigation := Some(OrdersPath);
      } else {
        message := OrElse(res.error, ConfirmOrderError);
      }
    }

    /** The payment method select. */
    method SetPaymentMethod(choice: string)
      modifies this
      ensures paymentMethod == choice && processing == old(processing) && message == old(message)
    {
      paymentMethod := choice;
    }
  }
}
