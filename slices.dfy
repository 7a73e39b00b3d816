/** The slice state object: a list of line items that each reducer updates in
    place.  The cart slice is `SliceState<CartInfo>`, the favourites slice
    `SliceState<FavouriteInfo>`; each method is proved to leave exactly the
    list the matching transition of `LineItems` describes. */
module Slices {
  import opened LineItems

  /** `items.find((i) => i.productId === id)`, as the index it stops at. */
  method Find<M>(items: seq<Line<M>>, id: string) returns (i: nat)
    ensures i == FirstIndex(items, id)
  {
    i := 0;
    while i < |items| && items[i].productId != id
      invariant i <= |items|
      invariant forall j :: 0 <= j < i ==> items[j].productId != id
    {
      i := i + 1;
    }
  }

  /** `items.filter((i) => i.productId !== id)`. */
  method Filter<M>(items: seq<Line<M>>, id: string) returns (kept: seq<Line<M>>)
    ensures kept == Removed(items, id)
  {
    kept := [];
    var k := 0;
    while k < |items|
      invariant k <= |items|
      invariant kept == Removed(items[..k], id)
    {
      assert items[..k + 1] == items[..k] + [items[k]];
      RemovedSnoc(items[..k], items[k], id);
      if items[k].productId != id {
        kept := kept + [items[k]];
      }
      k := k + 1;
    }
    assert items[..k] == items;
  }

  class SliceState<M> {
    var items: seq<Line<M>>

    /** The slice's `initialState`: no items. */
    constructor ()
      ensures items == []
    {
      items := [];
    }

    /** `addToCarts` / `addToFavourites`. */
    method Add(p: Line<M>, qty: int)
      modifies this
      ensures items == Added(old(items), p, qty)
      ensures UniqueIds(old(items)) ==> UniqueIds(items)
      ensures AllPositive(old(items)) && qty >= 1 ==> AllPositive(items)
    {
      ghost var was := items;
      var i := Find(items, p.productId);
      if i < |items| {
        items := items[i := items[i].(stockQTY := items[i].stockQTY + qty)];
      } else {
        items := items + [p.(stockQTY := qty)];
      }
      assert items == Added(was, p, qty);
      if UniqueIds(was) { AddedKeepsUnique(was, p, qty); }
      if AllPositive(was) && qty >= 1 { AddedKeepsPositive(was, p, qty); }
    }

    /** `increaseQty` / `increasementQty`. */
    method Increase(id: string)
      modifies this
      ensures items == Increased(old(items), id)
      ensures UniqueIds(old(items)) ==> UniqueIds(items)
      ensures AllPositive(old(items)) ==> AllPositive(items)
    {
      if UniqueIds(items) { ReducersKeepUnique(items, id); }
      if AllPositive(items) { ReducersKeepPositive(items, id); }
      var i := Find(items, id);
      if i < |items| {
        items := items[i := items[i].(stockQTY := items[i].stockQTY + 1)];
      }
    }

    /** `decreaseQty` / `decreasementQty`. */
    method Decrease(id: string)
      modifies this
      ensures items == Decreased(old(items), id)
      ensures UniqueIds(old(items)) ==> UniqueIds(items)
      ensures AllPositive(old(items)) ==> AllPositive(items)
    {
      if UniqueIds(items) { ReducersKeepUnique(items, id); }
      if AllPositive(items) { ReducersKeepPositive(items, id); }
      var i := Find(items, id);
      if i < |items| && items[i].stockQTY > 1 {
        items := items[i := items[i].(stockQTY := items[i].stockQTY - 1)];
      } else {
        items := Filter(items, id);
      }
    }

    /** `removeFromCart` / `removeFromFavourite`. */
    method Remove(id: string)
      modifies this
      ensures items == Removed(old(items), id)
      ensures UniqueIds(old(items)) ==> UniqueIds(items)
      ensures AllPositive(old(items)) ==> AllPositive(items)
    {
      if UniqueIds(items) { ReducersKeepUnique(items, id); }
      if AllPositive(items) { RemovedKeepsPositive(items, id); }
      items := Filter(items, id);
    }

    /** `clearCart` / `clearFavourite`. */
    method Clear()
      modifies this
      ensures items == []
    {
      items := [];
    }
  }
}
