// The checkout page: the order request built from the cart and the forms,
// and what a submission does to the cart, the error line and the success
// panel. The server's answer is a parameter.

module CheckoutPage {
  import opened Common
  import Store
  import OrderDto
  import CartContext

  /** What `submitCheckout` came back with: the created order, or a thrown
      error with its message (`None` for a value that is not an `Error`). */
  datatype Reply = Accepted(orderId: string, orderStatus: string) | Rejected(message: Option<string>)

  datatype Placed = Placed(orderId: string, status: string)

  const GenericError: string := "Impossible de finaliser la commande."

  /** The request lines: one per cart line, in order, product id and quantity. */
  function RequestItems(cart: seq<CartContext.CartItem>): (r: seq<OrderDto.RawOrderItem>)
    ensures |r| == |cart|
    ensures forall k :: 0 <= k < |cart| ==>
      r[k].productId == cart[k].id && r[k].quantity == cart[k].quantity as real
  {
    seq(|cart|, k requires 0 <= k < |cart| => OrderDto.RawOrderItem(cart[k].id, cart[k].quantity as real))
  }

  /** The request body of `handleSubmit`. */
  function Request(cart: seq<CartContext.CartItem>, shipping: Store.Address, useBillingSame: bool,
                   billing: Store.Address, payment: OrderDto.PaymentMethodInput): (r: OrderDto.RawCreateOrder)
    ensures r.items == RequestItems(cart) && r.paymentProvider == "CARD"
    ensures r.shippingAddress == shipping && r.paymentMethod == payment
    ensures r.billingAddress.None? <==> useBillingSame
    ensures r.billingAddress.Some? ==> r.billingAddress.value == billing
  {
    OrderDto.RawCreateOrder(RequestItems(cart), "CARD", shipping,
                            if useBillingSame then None else Some(billing), payment)
  }

  /** The quantities a request asks for, added up. */
  function RequestedQuantity(items: seq<OrderDto.RawOrderItem>): real {
    if |items| == 0 then 0.0 else items[0].quantity + RequestedQuantity(items[1..])
  }

  /** The request asks for exactly `totalQuantity` pairs, the cart's count. */
  lemma {:induction false} RequestedIsCount(cart: seq<CartContext.CartItem>)
    ensures RequestedQuantity(RequestItems(cart)) == CartContext.Count(cart) as real
  {
    if |cart| > 0 {
      RequestedIsCount(cart[1..]);
      assert RequestItems(cart)[1..] == RequestItems(cart[1..]);
    }
  }

  /** A cart line passes the server's line schema. */
  predicate OrderableLine(i: CartContext.CartItem) {
    IsUuid(i.id) && i.quantity >= 1
  }

  /** The server's checkout schema accepts the request exactly when the cart
      is not empty, every line has a UUID id and a positive quantity, and the
      forms are valid; the billing form counts only when it is sent. The
      accepted lines are the cart's ids and quantities. */
  lemma RequestValidation(cart: seq<CartContext.CartItem>, shipping: Store.Address, useBillingSame: bool,
                          billing: Store.Address, payment: OrderDto.PaymentMethodInput)
    ensures var parsed := OrderDto.ParseCreateOrder(Request(cart, shipping, useBillingSame, billing, payment));
      && (parsed.Some? <==>
            |cart| >= 1 && (forall k :: 0 <= k < |cart| ==> OrderableLine(cart[k]))
            && OrderDto.ValidAddress(shipping) && (!useBillingSame ==> OrderDto.ValidAddress(billing))
            && OrderDto.ValidPaymentMethod(payment))
      && (parsed.Some? ==>
            |parsed.value.items| == |cart|
            && forall k :: 0 <= k < |cart| ==>
                 parsed.value.items[k].productId == cart[k].id && parsed.value.items[k].quantity == cart[k].quantity)
  {
    var items := RequestItems(cart);
    assert forall k :: 0 <= k < |cart| ==> (OrderDto.ParseItem(items[k]).Some? <==> OrderableLine(cart[k]));
    var parsed := OrderDto.ParseCreateOrder(Request(cart, shipping, useBillingSame, billing, payment));
    if parsed.Some? {
      forall k | 0 <= k < |cart|
        ensures parsed.value.items[k].productId == cart[k].id && parsed.value.items[k].quantity == cart[k].quantity
      {
        assert Some(parsed.value.items[k]) == OrderDto.ParseItem(items[k]);
      }
    }
  }

  class Checkout {
    var cart: seq<CartContext.CartItem>
    var loading: bool
    var error: Option<string>
    var success: Option<Placed>

    constructor(cart: seq<CartContext.CartItem>)
      ensures this.cart == cart && !loading && error.None? && success.None?
    {
      this.cart := cart;
      loading := false;
      error := None;
      success := None;
    }

    /** `handleSubmit`. An empty cart sends nothing and changes nothing.
        Otherwise the request is sent; on success the cart is cleared and the
        order is shown, on failure the cart is kept and the error is shown. */
    method HandleSubmit(shipping: Store.Address, useBillingSame: bool, billing: Store.Address,
                        payment: OrderDto.PaymentMethodInput, reply: Reply)
      returns (sent: Option<OrderDto.RawCreateOrder>)
      modifies this
      ensures old(cart) == [] ==>
        sent.None? && cart == old(cart) && loading == old(loading) && error == old(error) && success == old(success)
      ensures old(cart) != [] ==>
        sent == Some(Request(old(cart), shipping, useBillingSame, billing, payment)) && !loading
      ensures old(cart) != [] && reply.Accepted? ==>
        cart == [] && error.None? && success == Some(Placed(reply.orderId, reply.orderStatus))
      ensures old(cart) != [] && reply.Rejected? ==>
        cart == old(cart) && error == Some(reply.message.GetOr(GenericError)) && success == old(success)
    {
      if |cart| == 0 {
        return None;
      }
      loading := true;
      error := None;
      sent := Some(Request(cart, shipping, useBillingSame, billing, payment));
      match reply {
        case Accepted(orderId, orderStatus) =>
          cart := CartContext.Reduce(cart, CartContext.Clear);
          success := Some(Placed(orderId, orderStatus));
        case Rejected(message) =>
          error := Some(message.GetOr(GenericError));
      }
      loading := false;
    }
  }
}
