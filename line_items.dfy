/** The line-item list that the cart slice and the favourites slice both keep,
    and their five reducers written as transitions on that list.  The two
    slices differ only in the pass-through metadata of an item, which is the
    type parameter `M` here. */
module LineItems {

  /** One product held in a slice.  `stockQTY` is the quantity held (not the
      warehouse stock); `info` is the display data the reducers carry along
      without looking at it. */
  datatype Line<M> = Line(productId: string, price: int, stockQTY: int, info: M)

  /** Some item of `items` carries `id`. */
  predicate Holds<M>(items: seq<Line<M>>, id: string) {
    exists i :: 0 <= i < |items| && items[i].productId == id
  }

  /** No two items share a product id. */
  predicate UniqueIds<M>(items: seq<Line<M>>) {
    forall i, j :: 0 <= i < j < |items| ==> items[i].productId != items[j].productId
  }

  /** Every held quantity is at least one. */
  predicate AllPositive<M>(items: seq<Line<M>>) {
    forall i :: 0 <= i < |items| ==> items[i].stockQTY >= 1
  }

  /** The position `Array.prototype.find` stops at: the first item carrying
      `id`, or `|items|` when there is none. */
  function FirstIndex<M>(items: seq<Line<M>>, id: string): (r: nat)
    ensures r <= |items|
    ensures forall j :: 0 <= j < r ==> items[j].productId != id
    ensures r < |items| ==> items[r].productId == id
    ensures r == |items| <==> !Holds(items, id)
  {
    if |items| == 0 then 0
    else if items[0].productId == id then 0
    else 1 + FirstIndex(items[1..], id)
  }

  /** The list kept by `filter((i) => i.productId !== id)`. */
  function Removed<M>(items: seq<Line<M>>, id: string): (r: seq<Line<M>>)
    ensures |r| <= |items|
    ensures !Holds(r, id)
    ensures !Holds(items, id) ==> r == items
  {
    if |items| == 0 then []
    else if items[0].productId == id then Removed(items[1..], id)
    else [items[0]] + Removed(items[1..], id)
  }

  /** Filtering keeps every item with another id and adds nothing. */
  lemma {:induction false} RemovedMembers<M>(items: seq<Line<M>>, id: string)
    ensures forall x :: x in Removed(items, id) ==> x in items
    ensures forall x :: x in items && x.productId != id ==> x in Removed(items, id)
  {
    if |items| > 0 {
      RemovedMembers(items[1..], id);
      assert forall x :: x in items ==> x == items[0] || x in items[1..];
    }
  }

  /** The item at `i` with its quantity moved by `delta`, everything else as it was. */
  function Bumped<M>(items: seq<Line<M>>, i: nat, delta: int): seq<Line<M>>
    requires i < |items|
  {
    items[i := items[i].(stockQTY := items[i].stockQTY + delta)]
  }

  /** `addToCarts` / `addToFavourites`: merge into the first item with the
      payload's id, or append the payload with `stockQTY` set to `qty`. */
  function Added<M>(items: seq<Line<M>>, p: Line<M>, qty: int): seq<Line<M>> {
    var i := FirstIndex(items, p.productId);
    if i < |items| then Bumped(items, i, qty)
    else items + [p.(stockQTY := qty)]
  }

  /** `increaseQty` / `increasementQty`. */
  function Increased<M>(items: seq<Line<M>>, id: string): seq<Line<M>> {
    var i := FirstIndex(items, id);
    if i < |items| then Bumped(items, i, 1) else items
  }

  /** `decreaseQty` / `decreasementQty`: when the first item with `id` holds
      more than one, take one off it; otherwise drop every item with `id`. */
  function Decreased<M>(items: seq<Line<M>>, id: string): seq<Line<M>> {
    var i := FirstIndex(items, id);
    if i < |items| && items[i].stockQTY > 1 then Bumped(items, i, -1)
    else Removed(items, id)
  }

  // ---------------------------------------------------------------------
  // Add

  /** Adding an id already held adds `qty` to that item only; its other
      fields stay, the payload's own data is dropped, and no other item moves. */
  lemma AddedMerges<M>(items: seq<Line<M>>, p: Line<M>, qty: int)
    requires UniqueIds(items) && Holds(items, p.productId)
    ensures |Added(items, p, qty)| == |items|
    ensures forall k :: 0 <= k < |items| ==>
      Added(items, p, qty)[k] ==
        if items[k].productId == p.productId
        then items[k].(stockQTY := items[k].stockQTY + qty)
        else items[k]
  {
    var i := FirstIndex(items, p.productId);
    forall k | 0 <= k < |items| && items[k].productId == p.productId
      ensures k == i
    {
    }
  }

  /** Adding a new id appends exactly one item, at the end, holding `qty`
      whatever `stockQTY` the payload carried. */
  lemma AddedAppends<M>(items: seq<Line<M>>, p: Line<M>, qty: int)
    requires !Holds(items, p.productId)
    ensures Added(items, p, qty) == items + [Line(p.productId, p.price, qty, p.info)]
  {
  }

  /** Two adds of the same product to an empty list hold their sum. */
  lemma AddedTwiceSums<M>(p: Line<M>, a: int, b: int)
    ensures Added(Added([], p, a), p, b) == [p.(stockQTY := a + b)]
  {
    assert Added([], p, a) == [p.(stockQTY := a)];
    assert FirstIndex([p.(stockQTY := a)], p.productId) == 0;
  }

  /** Adding never creates a duplicate id, and the added id is held afterwards. */
  lemma AddedKeepsUnique<M>(items: seq<Line<M>>, p: Line<M>, qty: int)
    requires UniqueIds(items)
    ensures UniqueIds(Added(items, p, qty))
    ensures Holds(Added(items, p, qty), p.productId)
  {
    var r := Added(items, p, qty);
    if FirstIndex(items, p.productId) == |items| {
      assert r[|items|].productId == p.productId;
      forall i, j | 0 <= i < j < |r|
        ensures r[i].productId != r[j].productId
      {
        if j == |items| {
          assert r[i] == items[i];
        }
      }
    } else {
      assert r[FirstIndex(items, p.productId)].productId == p.productId;
    }
  }

  // ---------------------------------------------------------------------
  // Increase and decrease

  /** Increase adds one to the held item with `id` and leaves every other
      item as it was. */
  lemma IncreasedBumpsOne<M>(items: seq<Line<M>>, id: string)
    requires UniqueIds(items)
    ensures |Increased(items, id)| == |items|
    ensures forall k :: 0 <= k < |items| ==>
      Increased(items, id)[k] ==
        if items[k].productId == id then items[k].(stockQTY := items[k].stockQTY + 1) else items[k]
  {
    var i := FirstIndex(items, id);
    forall k | 0 <= k < |items| && items[k].productId == id
      ensures k == i
    {
    }
  }

  /** Increase on an id not held changes nothing. */
  lemma IncreasedAbsent<M>(items: seq<Line<M>>, id: string)
    requires !Holds(items, id)
    ensures Increased(items, id) == items
  {
  }

  /** Decrease takes one off an item holding more than one and keeps it. */
  lemma DecreasedAboveOne<M>(items: seq<Line<M>>, i: nat)
    requires UniqueIds(items) && i < |items| && items[i].stockQTY > 1
    ensures Decreased(items, items[i].productId) ==
      items[i := items[i].(stockQTY := items[i].stockQTY - 1)]
  {
  }

  /** Decrease on an item holding one (or less) removes it altogether, and
      with it the only item carrying that id. */
  lemma DecreasedAtOne<M>(items: seq<Line<M>>, i: nat)
    requires UniqueIds(items) && i < |items| && items[i].stockQTY <= 1
    ensures Decreased(items, items[i].productId) == items[..i] + items[i + 1..]
    ensures !Holds(Decreased(items, items[i].productId), items[i].productId)
  {
    RemovedDropsOne(items, i);
  }

  /** Decrease on an id not held changes nothing. */
  lemma DecreasedAbsent<M>(items: seq<Line<M>>, id: string)
    requires !Holds(items, id)
    ensures Decreased(items, id) == items
  {
  }

  // ---------------------------------------------------------------------
  // Remove

  /** Removing from a concatenation removes from each part in place: the
      items that stay keep their order. */
  lemma {:induction false} RemovedConcat<M>(a: seq<Line<M>>, b: seq<Line<M>>, id: string)
    ensures Removed(a + b, id) == Removed(a, id) + Removed(b, id)
  {
    if |a| == 0 {
      assert a + b == b;
    } else {
      assert (a + b)[1..] == a[1..] + b;
      RemovedConcat(a[1..], b, id);
    }
  }

  /** Filtering one more item appends it exactly when its id differs. */
  lemma RemovedSnoc<M>(s: seq<Line<M>>, x: Line<M>, id: string)
    ensures Removed(s + [x], id) == Removed(s, id) + (if x.productId == id then [] else [x])
  {
    RemovedConcat(s, [x], id);
    assert [x][1..] == [];
  }

  /** Removing an id twice is the same as removing it once. */
  lemma RemovedIdempotent<M>(items: seq<Line<M>>, id: string)
    ensures Removed(Removed(items, id), id) == Removed(items, id)
  {
  }

  /** With unique ids, removing the id of item `i` drops exactly that item
      and keeps the rest in their order. */
  lemma RemovedDropsOne<M>(items: seq<Line<M>>, i: nat)
    requires UniqueIds(items) && i < |items|
    ensures Removed(items, items[i].productId) == items[..i] + items[i + 1..]
  {
    var id := items[i].productId;
    var a, b := items[..i], items[i + 1..];
    SplitAt(items, i);
    forall k | 0 <= k < |a| ensures a[k].productId != id {
      assert a[k] == items[k];
    }
    forall k | 0 <= k < |b| ensures b[k].productId != id {
      assert b[k] == items[i + 1 + k];
    }
    RemovedAround(a, items[i], b, id);
  }

  /** Filtering out the id of the one item between two stretches that do not
      carry it leaves the two stretches joined. */
  lemma RemovedAround<M>(a: seq<Line<M>>, x: Line<M>, b: seq<Line<M>>, id: string)
    requires !Holds(a, id) && !Holds(b, id) && x.productId == id
    ensures Removed((a + [x]) + b, id) == a + b
  {
    RemovedConcat(a, [x], id);
    assert Removed([x], id) == [] by {
      assert [x][1..] == [];
    }
    assert Removed(a, id) == a;
    assert Removed(a + [x], id) == a;
    RemovedConcat(a + [x], b, id);
    assert Removed(b, id) == b;
  }

  /** A sequence is its prefix, one element and its suffix. */
  lemma SplitAt<T>(s: seq<T>, i: nat)
    requires i < |s|
    ensures s == (s[..i] + [s[i]]) + s[i + 1..]
  {
  }

  // ---------------------------------------------------------------------
  // Invariants kept by every reducer

  /** No reducer ever creates a duplicate id. */
  lemma {:induction false} RemovedKeepsUnique<M>(items: seq<Line<M>>, id: string)
    requires UniqueIds(items)
    ensures UniqueIds(Removed(items, id))
  {
    if |items| > 0 {
      RemovedKeepsUnique(items[1..], id);
      RemovedMembers(items[1..], id);
      var rest := Removed(items[1..], id);
      if items[0].productId != id {
        var r := [items[0]] + rest;
        forall i, j | 0 <= i < j < |r|
          ensures r[i].productId != r[j].productId
        {
          if i == 0 {
            assert r[j] in items[1..];
          }
        }
      }
    }
  }

  lemma BumpedKeepsUnique<M>(items: seq<Line<M>>, i: nat, delta: int)
    requires UniqueIds(items) && i < |items|
    ensures UniqueIds(Bumped(items, i, delta))
  {
  }

  /** Increase, decrease and remove keep ids unique (add: `AddedKeepsUnique`). */
  lemma ReducersKeepUnique<M>(items: seq<Line<M>>, id: string)
    requires UniqueIds(items)
    ensures UniqueIds(Increased(items, id))
    ensures UniqueIds(Decreased(items, id))
    ensures UniqueIds(Removed(items, id))
  {
    RemovedKeepsUnique(items, id);
    var i := FirstIndex(items, id);
    if i < |items| {
      BumpedKeepsUnique(items, i, 1);
      BumpedKeepsUnique(items, i, -1);
    }
  }

  lemma {:induction false} RemovedKeepsPositive<M>(items: seq<Line<M>>, id: string)
    requires AllPositive(items)
    ensures AllPositive(Removed(items, id))
  {
    if |items| > 0 {
      RemovedKeepsPositive(items[1..], id);
    }
  }

  /** Adding a quantity of at least one to a list whose quantities are all at
      least one keeps them all at least one. */
  lemma AddedKeepsPositive<M>(items: seq<Line<M>>, p: Line<M>, qty: int)
    requires AllPositive(items) && qty >= 1
    ensures AllPositive(Added(items, p, qty))
  {
    BumpedKeepsPositive(items, FirstIndex(items, p.productId), qty);
    AppendedKeepsPositive(items, p.(stockQTY := qty));
  }

  /** Increase, decrease and remove keep every held quantity at least one. */
  lemma ReducersKeepPositive<M>(items: seq<Line<M>>, id: string)
    requires AllPositive(items)
    ensures AllPositive(Increased(items, id))
    ensures AllPositive(Decreased(items, id))
    ensures AllPositive(Removed(items, id))
  {
    BumpedKeepsPositive(items, FirstIndex(items, id), 1);
    BumpedKeepsPositive(items, FirstIndex(items, id), -1);
    RemovedKeepsPositive(items, id);
  }

  lemma BumpedKeepsPositive<M>(items: seq<Line<M>>, i: nat, delta: int)
    requires AllPositive(items)
    ensures i < |items| && items[i].stockQTY + delta >= 1 ==> AllPositive(Bumped(items, i, delta))
  {
  }

  lemma AppendedKeepsPositive<M>(items: seq<Line<M>>, x: Line<M>)
    requires AllPositive(items) && x.stockQTY >= 1
    ensures AllPositive(items + [x])
  {
  }

  // ---------------------------------------------------------------------
  // Independence from the pass-through metadata

  /** The (productId, stockQTY) pairs of a list, in order. */
  function Quantities<M>(items: seq<Line<M>>): seq<(string, int)> {
    seq(|items|, k requires 0 <= k < |items| => (items[k].productId, items[k].stockQTY))
  }

  /** `find` looks only at ids, so two lists with the same pairs agree on it. */
  lemma FirstIndexAgrees<M, N>(a: seq<Line<M>>, b: seq<Line<N>>, id: string)
    requires Quantities(a) == Quantities(b)
    ensures |a| == |b|
    ensures FirstIndex(a, id) == FirstIndex(b, id)
    ensures forall k :: 0 <= k < |a| ==> a[k].productId == b[k].productId && a[k].stockQTY == b[k].stockQTY
  {
    assert |a| == |Quantities(a)| == |Quantities(b)| == |b|;
    forall k | 0 <= k < |a| ensures a[k].productId == b[k].productId && a[k].stockQTY == b[k].stockQTY {
      assert Quantities(a)[k] == Quantities(b)[k];
    }
  }

  lemma QuantitiesCons<M>(x: Line<M>, s: seq<Line<M>>)
    ensures Quantities([x] + s) == [(x.productId, x.stockQTY)] + Quantities(s)
  {
  }

  lemma QuantitiesBumped<M>(items: seq<Line<M>>, i: nat, delta: int)
    requires i < |items|
    ensures Quantities(Bumped(items, i, delta)) ==
      Quantities(items)[i := (items[i].productId, items[i].stockQTY + delta)]
  {
  }

  lemma QuantitiesSnoc<M>(items: seq<Line<M>>, x: Line<M>)
    ensures Quantities(items + [x]) == Quantities(items) + [(x.productId, x.stockQTY)]
  {
  }

  /** `filter` by id keeps the same pairs from two lists with the same pairs. */
  lemma {:induction false} RemovedAgrees<M, N>(a: seq<Line<M>>, b: seq<Line<N>>, id: string)
    requires Quantities(a) == Quantities(b)
    ensures Quantities(Removed(a, id)) == Quantities(Removed(b, id))
  {
    FirstIndexAgrees(a, b, id);
    if |a| > 0 {
      assert Quantities(a[1..]) == Quantities(a)[1..];
      assert Quantities(b[1..]) == Quantities(b)[1..];
      RemovedAgrees(a[1..], b[1..], id);
      if a[0].productId != id {
        QuantitiesCons(a[0], Removed(a[1..], id));
        QuantitiesCons(b[0], Removed(b[1..], id));
      }
    }
  }
}
