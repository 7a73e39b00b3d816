/** The order page: the free-delivery rule, the order total, the place-order
    handler's guards and payload, and what a settled order resets. */
module OrderPage {
  import opened LineItems
  import opened Slices
  import opened CartSlice
  import opened Checkout

  /** Subtotal at or above which the delivery fee is waived. */
  const FreeDeliveryThreshold := 500000

  /** `finalDeliFee`: nothing at or above the threshold, else the entered fee. */
  function FinalDeliFee(subTotal: int, deliFee: int): int {
    if subTotal >= FreeDeliveryThreshold then 0 else deliFee
  }

  /** `total`: the subtotal plus the fee actually charged. */
  function OrderTotal(subTotal: int, deliFee: int): int {
    subTotal + FinalDeliFee(subTotal, deliFee)
  }

  /** The fee is waived exactly from 500000 on, 500000 itself included;
      below it the entered fee is charged as it is. */
  lemma FreeDeliveryRule(subTotal: int, deliFee: int)
    ensures FinalDeliFee(subTotal, deliFee) == 0 || FinalDeliFee(subTotal, deliFee) == deliFee
    ensures deliFee != 0 ==> (FinalDeliFee(subTotal, deliFee) == 0 <==> subTotal >= FreeDeliveryThreshold)
    ensures FinalDeliFee(500000, deliFee) == 0
    ensures FinalDeliFee(499999, deliFee) == deliFee
  {
  }

  /** The total equals the subtotal exactly when delivery is free or the
      entered fee is 0; otherwise it is the subtotal plus the entered fee. */
  lemma OrderTotalRule(subTotal: int, deliFee: int)
    ensures OrderTotal(subTotal, deliFee) == subTotal <==> subTotal >= FreeDeliveryThreshold || deliFee == 0
    ensures subTotal < FreeDeliveryThreshold ==> OrderTotal(subTotal, deliFee) == subTotal + deliFee
  {
  }

  /** The body of `addOrder`'s request. */
  datatype OrderPayload = OrderPayload(
    fullName: string,
    region: string,
    phoneNumber: string,
    city: string,
    township: string,
    address: string,
    paymentType: string,
    deliFee: int,
    orderDetails: seq<OrderDetail>)

  /** What `handlePlaceOrder` does: alert about a missing field, alert about
      an empty cart, or submit a payload. */
  datatype PlaceOutcome = MissingDeliveryInfo | EmptyCart | Submitted(payload: OrderPayload)

  /** The order form's component state. */
  class OrderForm {
    var fullName: string
    var region: string
    var phoneNumber: string
    var city: string
    var township: string
    var address: string
    var paymentType: string
    var deliFee: int

    constructor ()
      ensures fullName == "" && region == "" && phoneNumber == ""
      ensures city == "" && township == "" && address == ""
      ensures paymentType == "CashOnDelivery" && deliFee == 2000
    {
      fullName, region, phoneNumber := "", "", "";
      city, township, address := "", "", "";
      paymentType, deliFee := "CashOnDelivery", 2000;
    }

    /** One of the six required delivery fields is empty. */
    predicate MissingField()
      reads this
    {
      fullName == "" || phoneNumber == "" || region == "" ||
      city == "" || township == "" || address == ""
    }

    /** `handlePlaceOrder`: the field check comes first, the empty-cart check
        only after it passes; a submitted payload carries the form's fields,
        the ENTERED delivery fee (not `FinalDeliFee`) and one detail per cart
        item in order. */
    method HandlePlaceOrder(cart: Cart) returns (o: PlaceOutcome)
      ensures o.MissingDeliveryInfo? <==> MissingField()
      ensures o.EmptyCart? <==> !MissingField() && cart.items == []
      ensures o.Submitted? ==>
        o.payload == OrderPayload(fullName, region, phoneNumber, city, township, address,
                                  paymentType, deliFee, OrderDetails(cart.items))
    {
      if fullName == "" || phoneNumber == "" || region == "" ||
         city == "" || township == "" || address == "" {
        return MissingDeliveryInfo;
      }
      if |cart.items| == 0 {
        return EmptyCart;
      }
      o := Submitted(OrderPayload(fullName, region, phoneNumber, city, township, address,
                                  paymentType, deliFee, OrderDetails(cart.items)));
    }

    /** `addOrder`'s callbacks: on success clear the cart and empty the six
        delivery fields; on error change nothing.  The payment type and the
        entered fee are never reset. */
    method Resolve(cart: Cart, succeeded: bool)
      modifies this, cart
      ensures succeeded ==> cart.items == []
      ensures succeeded ==> fullName == "" && region == "" && phoneNumber == ""
      ensures succeeded ==> city == "" && township == "" && address == ""
      ensures !succeeded ==> cart.items == old(cart.items)
      ensures !succeeded ==> fullName == old(fullName) && region == old(region) && phoneNumber == old(phoneNumber)
      ensures !succeeded ==> city == old(city) && township == old(township) && address == old(address)
      ensures paymentType == old(paymentType) && deliFee == old(deliFee)
    {
      if succeeded {
        cart.Clear();
        fullName, region, phoneNumber := "", "", "";
        city, township, address := "", "", "";
      }
    }
  }

  /** The worked example: add p1 (price 1000) once, then twice more, then p2
      (price 500) once; the cart holds [(p1, 3), (p2, 1)], the subtotal is 3500
      and with the default fee of 2000 the total is 5500.  Removing p1 then
      leaves [(p2, 1)] and a subtotal of 500. */
  lemma CheckoutScenario(info: CartInfo)
    ensures var p1 := Line("p1", 1000, 1, info);
            var p2 := Line("p2", 500, 1, info);
            var s := Added(Added(Added([], p1, 1), p1, 2), p2, 1);
            && Quantities(s) == [("p1", 3), ("p2", 1)]
            && SubTotal(s) == 3500
            && OrderTotal(SubTotal(s), 2000) == 5500
            && Quantities(Removed(s, "p1")) == [("p2", 1)]
            && SubTotal(Removed(s, "p1")) == 500
  {
    var p1 := Line("p1", 1000, 1, info);
    var p2 := Line("p2", 500, 1, info);
    var q1 := p1.(stockQTY := 3);
    ScenarioCart(p1, p2);
    var s := Added(Added(Added([], p1, 1), p1, 2), p2, 1);
    assert s == [q1, p2];
    ScenarioSubTotals(q1, p2);
    ScenarioRemoval(q1, p2);
  }

  /** The three adds of the worked example leave p1 with 3, then p2 with 1. */
  lemma ScenarioCart<M>(p1: Line<M>, p2: Line<M>)
    requires p1.productId == "p1" && p2.productId == "p2"
    ensures Added(Added(Added([], p1, 1), p1, 2), p2, 1) == [p1.(stockQTY := 3), p2.(stockQTY := 1)]
  {
    AddedTwiceSums(p1, 1, 2);
    var q1 := p1.(stockQTY := 3);
    assert !Holds([q1], "p2") by {
      assert [q1][0].productId == "p1";
    }
    AddedAppends([q1], p2, 1);
    assert [q1] + [p2.(stockQTY := 1)] == [q1, p2.(stockQTY := 1)];
  }

  lemma ScenarioSubTotals<M>(q1: Line<M>, p2: Line<M>)
    requires q1.price == 1000 && q1.stockQTY == 3 && p2.price == 500 && p2.stockQTY == 1
    ensures SubTotal([q1, p2]) == 3500 && SubTotal([p2]) == 500
  {
    SubTotalSingle(p2);
    SubTotalSingle(q1);
    assert [q1, p2][..1] == [q1];
  }

  lemma ScenarioRemoval<M>(q1: Line<M>, p2: Line<M>)
    requires q1.productId == "p1" && p2.productId == "p2"
    ensures Removed([q1, p2], "p1") == [p2]
    ensures Quantities([q1, p2]) == [("p1", q1.stockQTY), ("p2", p2.stockQTY)]
    ensures Quantities([p2]) == [("p2", p2.stockQTY)]
  {
    assert [q1, p2][1..] == [p2];
    assert !Holds([p2], "p1") by {
      assert [p2][0].productId == "p2";
    }
  }
}
