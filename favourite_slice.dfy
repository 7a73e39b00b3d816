/** The favourites slice: the same reducers over a record without `discount`.
    Each lemma here says that a favourites reducer leaves the same
    (productId, stockQTY) pairs as the cart reducer of the same name does,
    started from lists with the same pairs. */
module FavouriteSlice {
  import opened LineItems
  import opened Slices
  import opened CartSlice

  /** The fields of a favourites record that no reducer reads. */
  datatype FavouriteInfo = FavouriteInfo(
    catInstanceName: string,
    brandName: string,
    productName: string,
    productDescription: string,
    cost: int,
    currencySymbol: string,
    productImageUrl: string)

  type FavouriteItem = Line<FavouriteInfo>

  /** The favourites state object held by the store. */
  type Favourites = SliceState<FavouriteInfo>

  lemma AddToFavouritesMatchesCart(c: seq<CartItem>, f: seq<FavouriteItem>, pc: CartItem, pf: FavouriteItem, qty: int)
    requires Quantities(c) == Quantities(f) && pc.productId == pf.productId
    ensures Quantities(Added(c, pc, qty)) == Quantities(Added(f, pf, qty))
  {
    FirstIndexAgrees(c, f, pc.productId);
    var i := FirstIndex(c, pc.productId);
    if i < |c| {
      QuantitiesBumped(c, i, qty);
      QuantitiesBumped(f, i, qty);
    } else {
      QuantitiesSnoc(c, pc.(stockQTY := qty));
      QuantitiesSnoc(f, pf.(stockQTY := qty));
    }
  }

  lemma IncreasementQtyMatchesCart(c: seq<CartItem>, f: seq<FavouriteItem>, id: string)
    requires Quantities(c) == Quantities(f)
    ensures Quantities(Increased(c, id)) == Quantities(Increased(f, id))
  {
    FirstIndexAgrees(c, f, id);
    var i := FirstIndex(c, id);
    if i < |c| {
      QuantitiesBumped(c, i, 1);
      QuantitiesBumped(f, i, 1);
    }
  }

  lemma DecreasementQtyMatchesCart(c: seq<CartItem>, f: seq<FavouriteItem>, id: string)
    requires Quantities(c) == Quantities(f)
    ensures Quantities(Decreased(c, id)) == Quantities(Decreased(f, id))
  {
    FirstIndexAgrees(c, f, id);
    var i := FirstIndex(c, id);
    if i < |c| && c[i].stockQTY > 1 {
      QuantitiesBumped(c, i, -1);
      QuantitiesBumped(f, i, -1);
    } else {
      RemovedAgrees(c, f, id);
    }
  }

  lemma RemoveFromFavouriteMatchesCart(c: seq<CartItem>, f: seq<FavouriteItem>, id: string)
    requires Quantities(c) == Quantities(f)
    ensures Quantities(Removed(c, id)) == Quantities(Removed(f, id))
  {
    RemovedAgrees(c, f, id);
  }
}
