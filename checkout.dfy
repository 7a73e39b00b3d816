/** What both checkout screens compute from the cart: the subtotal and the
    `orderDetails` list sent with an order. */
module Checkout {
  import opened LineItems

  /** One entry of an order's `orderDetails`. */
  datatype OrderDetail = OrderDetail(productId: string, qty: int)

  /** What one item contributes to the subtotal: `price × stockQTY`. */
  function LineTotal<M>(x: Line<M>): int {
    x.price * x.stockQTY
  }

  /** `cart.reduce((sum, item) => sum + item.price * item.stockQTY, 0)`,
      folded from the left as `reduce` does. */
  function SubTotal<M>(items: seq<Line<M>>): int {
    if |items| == 0 then 0
    else SubTotal(items[..|items| - 1]) + LineTotal(items[|items| - 1])
  }

  /** `cart.map((item) => ({productId: item.productId, qty: item.stockQTY}))`:
      one entry per item, in the cart's order. */
  function OrderDetails<M>(items: seq<Line<M>>): (r: seq<OrderDetail>)
    ensures |r| == |items|
    ensures forall k :: 0 <= k < |items| ==>
      r[k].productId == items[k].productId && r[k].qty == items[k].stockQTY
  {
    if |items| == 0 then []
    else [OrderDetail(items[0].productId, items[0].stockQTY)] + OrderDetails(items[1..])
  }

  /** The subtotal of a concatenation is the sum of the parts' subtotals. */
  lemma {:induction false} SubTotalConcat<M>(a: seq<Line<M>>, b: seq<Line<M>>)
    ensures SubTotal(a + b) == SubTotal(a) + SubTotal(b)
  {
    if |b| == 0 {
      assert a + b == a;
    } else {
      assert (a + b)[..|a + b| - 1] == a + b[..|b| - 1];
      SubTotalConcat(a, b[..|b| - 1]);
    }
  }

  /** With non-negative prices and quantities of at least one, the subtotal is
      never negative, and it is 0 for an empty cart. */
  lemma {:induction false} SubTotalNonNegative<M>(items: seq<Line<M>>)
    requires AllPositive(items)
    requires forall k :: 0 <= k < |items| ==> items[k].price >= 0
    ensures SubTotal(items) >= 0
    ensures |items| == 0 ==> SubTotal(items) == 0
  {
    if |items| > 0 {
      var n := |items| - 1;
      SubTotalNonNegative(items[..n]);
      assert items[n].price >= 0 && items[n].stockQTY >= 1;
      assert LineTotal(items[n]) >= 0;
    }
  }

  /** Replacing one item changes the subtotal by the difference of the two
      items' contributions. */
  lemma SubTotalUpdate<M>(items: seq<Line<M>>, i: nat, x: Line<M>)
    requires i < |items|
    ensures SubTotal(items[i := x]) == SubTotal(items) - LineTotal(items[i]) + LineTotal(x)
  {
    var a, b := items[..i], items[i + 1..];
    SplitAt(items, i);
    SplitAt(items[i := x], i);
    assert items[i := x][..i] == a && items[i := x][i + 1..] == b;
    SubTotalSplit(a, items[i], b);
    SubTotalSplit(a, x, b);
  }

  /** The subtotal around one item. */
  lemma SubTotalSplit<M>(a: seq<Line<M>>, x: Line<M>, b: seq<Line<M>>)
    ensures SubTotal((a + [x]) + b) == SubTotal(a) + LineTotal(x) + SubTotal(b)
  {
    SubTotalConcat(a + [x], b);
    SubTotalConcat(a, [x]);
    SubTotalSingle(x);
  }

  /** Moving an item's quantity by `delta` moves the subtotal by that item's
      price times `delta`. */
  lemma SubTotalBumped<M>(items: seq<Line<M>>, i: nat, delta: int)
    requires i < |items|
    ensures SubTotal(Bumped(items, i, delta)) == SubTotal(items) + items[i].price * delta
  {
    SubTotalMovedAt(items, i, delta);
  }

  lemma SubTotalMovedAt<M>(items: seq<Line<M>>, i: nat, delta: int)
    requires i < |items|
    ensures SubTotal(items[i := items[i].(stockQTY := items[i].stockQTY + delta)]) ==
      SubTotal(items) + items[i].price * delta
  {
    var x := items[i];
    var y := x.(stockQTY := x.stockQTY + delta);
    SubTotalUpdate(items, i, y);
    LineTotalMoved(x, y, delta);
  }

  lemma LineTotalMoved<M>(x: Line<M>, y: Line<M>, delta: int)
    requires y.price == x.price && y.stockQTY == x.stockQTY + delta
    ensures LineTotal(y) - LineTotal(x) == x.price * delta
  {
    assert x.price * (x.stockQTY + delta) == x.price * x.stockQTY + x.price * delta;
  }

  /** Adding `qty` of a product raises the subtotal by `qty` times the price of
      the item already held for it (the payload's price is then ignored), or
      by `qty` times the payload's price for a new product. */
  lemma SubTotalAfterAdd<M>(items: seq<Line<M>>, p: Line<M>, qty: int)
    ensures Holds(items, p.productId) ==>
      SubTotal(Added(items, p, qty)) == SubTotal(items) + items[FirstIndex(items, p.productId)].price * qty
    ensures !Holds(items, p.productId) ==>
      SubTotal(Added(items, p, qty)) == SubTotal(items) + p.price * qty
  {
    var i := FirstIndex(items, p.productId);
    if i < |items| {
      SubTotalBumped(items, i, qty);
    } else {
      var x := p.(stockQTY := qty);
      SubTotalConcat(items, [x]);
      SubTotalSingle(x);
    }
  }

  /** Increase raises the subtotal by the held item's price; for an id not
      held it leaves it alone. */
  lemma SubTotalAfterIncrease<M>(items: seq<Line<M>>, id: string)
    ensures Holds(items, id) ==>
      SubTotal(Increased(items, id)) == SubTotal(items) + items[FirstIndex(items, id)].price
    ensures !Holds(items, id) ==> SubTotal(Increased(items, id)) == SubTotal(items)
  {
    var i := FirstIndex(items, id);
    if i < |items| {
      SubTotalBumped(items, i, 1);
    }
  }

  /** Dropping the item at `i` lowers the subtotal by its contribution. */
  lemma SubTotalDropOne<M>(items: seq<Line<M>>, i: nat)
    requires i < |items|
    ensures SubTotal(items[..i] + items[i + 1..]) == SubTotal(items) - LineTotal(items[i])
  {
    SplitAt(items, i);
    SubTotalSplit(items[..i], items[i], items[i + 1..]);
    SubTotalConcat(items[..i], items[i + 1..]);
  }

  lemma SubTotalSingle<M>(x: Line<M>)
    ensures SubTotal([x]) == LineTotal(x)
  {
    assert [x][..0] == [];
  }

  /** Removing the item at `i` (ids unique) lowers the subtotal by exactly
      that item's contribution. */
  lemma SubTotalAfterRemove<M>(items: seq<Line<M>>, i: nat)
    requires UniqueIds(items) && i < |items|
    ensures SubTotal(Removed(items, items[i].productId)) == SubTotal(items) - LineTotal(items[i])
  {
    RemovedDropsOne(items, i);
    SubTotalDropOne(items, i);
  }

  /** Decrease lowers the subtotal by one unit price while the item holds
      more than one, and by the item's whole contribution when it goes. */
  lemma SubTotalAfterDecrease<M>(items: seq<Line<M>>, i: nat)
    requires UniqueIds(items) && i < |items|
    ensures items[i].stockQTY > 1 ==>
      SubTotal(Decreased(items, items[i].productId)) == SubTotal(items) - items[i].price
    ensures items[i].stockQTY <= 1 ==>
      SubTotal(Decreased(items, items[i].productId)) == SubTotal(items) - LineTotal(items[i])
  {
    if items[i].stockQTY > 1 {
      DecreasedAboveOne(items, i);
      SubTotalBumped(items, i, -1);
    } else {
      DecreasedAtOne(items, i);
      SubTotalAfterRemove(items, i);
    }
  }
}
