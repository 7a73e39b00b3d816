/** The cart dialog: its subtotal and total, the checkout handler's guards and
    payload, and how an order's outcome treats the cart. */
module CartPage {
  import opened LineItems
  import opened Slices
  import opened CartSlice
  import opened Checkout
  import OrderPage

  /** `total` in the dialog: the subtotal plus the entered fee, with no
      free-delivery rule. */
  function CartTotal(subTotal: int, deliFee: int): int {
    subTotal + deliFee
  }

  /** The dialog and the order page show the same total exactly when the
      subtotal is under 500000 or the entered fee is 0. */
  lemma CartTotalAgainstOrderTotal(subTotal: int, deliFee: int)
    ensures CartTotal(subTotal, deliFee) == OrderPage.OrderTotal(subTotal, deliFee) <==>
      subTotal < OrderPage.FreeDeliveryThreshold || deliFee == 0
    ensures CartTotal(subTotal, deliFee) >= OrderPage.OrderTotal(subTotal, deliFee) <==>
      subTotal < OrderPage.FreeDeliveryThreshold || deliFee >= 0
  {
  }

  /** The body of `confirmOrder`'s request as the dialog builds it. */
  datatype DialogPayload = DialogPayload(
    orderDetails: seq<OrderDetail>,
    orderPlace: string,
    orderStartPoint: string,
    orderEndPoint: string,
    paymentType: string,
    deliFee: int)

  /** What `handleCheckout` does: complain about an empty cart, complain about
      a missing order place, or dispatch a payload. */
  datatype CheckoutOutcome = CartEmpty | MissingOrderPlace | Dispatched(payload: DialogPayload)

  /** The dialog's component state. */
  class CartDialog {
    var orderPlace: string
    var deliFee: int

    constructor ()
      ensures orderPlace == "" && deliFee == 2000
    {
      orderPlace, deliFee := "", 2000;
    }

    /** `handleCheckout`: the empty-cart check comes before the order-place
        check; a dispatched payload carries one detail per cart item in order,
        the fixed start and end points, cash on delivery and a fee of 2000
        whatever the entered fee; the order place is emptied once an order is
        dispatched, before its outcome is known. */
    method HandleCheckout(cart: Cart) returns (o: CheckoutOutcome)
      modifies this
      ensures o.CartEmpty? <==> cart.items == []
      ensures o.MissingOrderPlace? <==> cart.items != [] && old(orderPlace) == ""
      ensures o.Dispatched? ==>
        o.payload == DialogPayload(OrderDetails(cart.items), old(orderPlace),
                                   "Warehouse A", "Customer Address", "CashOnDelivery", 2000)
      ensures orderPlace == if o.Dispatched? then "" else old(orderPlace)
      ensures deliFee == old(deliFee)
    {
      if |cart.items| == 0 {
        return CartEmpty;
      }
      if orderPlace == "" {
        return MissingOrderPlace;
      }
      o := Dispatched(DialogPayload(OrderDetails(cart.items), orderPlace,
                                    "Warehouse A", "Customer Address", "CashOnDelivery", 2000));
      orderPlace := "";
    }

    /** `confirmOrder`'s callbacks: the cart is cleared on success and left
        exactly as it was on error. */
    method Resolve(cart: Cart, succeeded: bool)
      modifies cart
      ensures cart.items == if succeeded then [] else old(cart.items)
    {
      if succeeded {
        cart.Clear();
      }
    }
  }
}
