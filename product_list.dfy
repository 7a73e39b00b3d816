/** The product list: its paging state and the payload its "Add To Cart"
    button feeds to the cart slice. */
module ProductList {
  import opened Wrappers
  import opened LineItems
  import opened Slices
  import opened CartSlice
  import opened Checkout

  /** A catalogue product as the list receives it.  `catInstanceName` and
      `cost` may be absent; `stockQTY` here is warehouse stock. */
  datatype Product = Product(
    productId: string,
    catInstanceName: Option<string>,
    brandName: string,
    productName: string,
    productDescription: string,
    stockQTY: Option<int>,
    cost: Option<int>,
    price: int,
    currencySymbol: string,
    productImageUrl: string)

  /** The quantity one click adds. */
  const ClickQty := 1

  /** The cart record `addToCartClick` builds: a missing category name becomes
      "", a missing cost 0, there is no discount, and both `stockQTY` and the
      quantity to add are 1. */
  function AddToCartPayload(product: Product): CartItem {
    Line(product.productId, product.price, 1,
         CartInfo(product.catInstanceName.GetOr(""), product.brandName, product.productName,
                  product.productDescription, product.cost.GetOr(0), None,
                  product.currencySymbol, product.productImageUrl))
  }

  /** One click on a product already in the cart adds one to that item and
      touches nothing else, raising the subtotal by the price the cart holds
      for it; on a product not in the cart it appends one item holding 1, with
      the product's price, the defaults filled in, and the subtotal raised by
      that price. */
  lemma AddToCartClickEffect(cart: seq<CartItem>, product: Product)
    requires UniqueIds(cart)
    ensures var r := Added(cart, AddToCartPayload(product), ClickQty);
      && (Holds(cart, product.productId) ==>
            && |r| == |cart|
            && (forall k :: 0 <= k < |cart| ==>
                  r[k] == if cart[k].productId == product.productId
                          then cart[k].(stockQTY := cart[k].stockQTY + 1) else cart[k])
            && SubTotal(r) == SubTotal(cart) + cart[FirstIndex(cart, product.productId)].price)
      && (!Holds(cart, product.productId) ==>
            && r == cart + [Line(product.productId, product.price, 1,
                                 CartInfo(if product.catInstanceName.Some? then product.catInstanceName.value else "",
                                          product.brandName, product.productName, product.productDescription,
                                          if product.cost.Some? then product.cost.value else 0, None,
                                          product.currencySymbol, product.productImageUrl))]
            && SubTotal(r) == SubTotal(cart) + product.price)
      && UniqueIds(r)
  {
    var p := AddToCartPayload(product);
    if Holds(cart, product.productId) {
      AddedMerges(cart, p, ClickQty);
    } else {
      AddedAppends(cart, p, ClickQty);
    }
    SubTotalAfterAdd(cart, p, ClickQty);
    AddedKeepsUnique(cart, p, ClickQty);
  }

  /** The list's paging and currency state. */
  class ProductListPage {
    var pageNumber: int
    var pageSize: int
    var language: string

    /** The page number never drops below 1. */
    ghost predicate Valid()
      reads this
    {
      pageNumber >= 1
    }

    constructor ()
      ensures Valid()
      ensures pageNumber == 1 && pageSize == 15 && language == "us"
    {
      pageNumber, pageSize, language := 1, 15, "us";
    }

    /** `handlePageChange`: only a positive page is taken. */
    method HandlePageChange(newPage: int)
      modifies this`pageNumber
      ensures pageNumber == if newPage > 0 then newPage else old(pageNumber)
      ensures old(Valid()) ==> Valid()
    {
      if newPage > 0 {
        pageNumber := newPage;
      }
    }

    /** `handlePageSizeChange`: the new size, back to page 1. */
    method HandlePageSizeChange(size: int)
      modifies this`pageSize, this`pageNumber
      ensures pageSize == size && pageNumber == 1
      ensures Valid()
    {
      pageSize := size;
      pageNumber := 1;
    }

    /** `handleLanguageChange`: the new language, back to page 1. */
    method HandleLanguageChange(lang: string)
      modifies this`language, this`pageNumber
      ensures language == lang && pageNumber == 1
      ensures Valid()
    {
      language := lang;
      pageNumber := 1;
    }

    /** The "previous" control: one page back, only from a page above 1. */
    method Previous()
      modifies this`pageNumber
      ensures pageNumber == if old(pageNumber) > 1 then old(pageNumber) - 1 else old(pageNumber)
      ensures old(Valid()) ==> Valid()
    {
      if pageNumber > 1 {
        HandlePageChange(pageNumber - 1);
      }
    }

    /** The "next" control: one page on, only when the page just shown was
        full (`dataLength` products for a page size of `pageSize`). */
    method Next(dataLength: nat)
      modifies this`pageNumber
      ensures pageNumber ==
        if dataLength >= pageSize && old(pageNumber) + 1 > 0 then old(pageNumber) + 1 else old(pageNumber)
      ensures old(Valid()) ==> Valid()
      ensures old(Valid()) ==> (pageNumber == old(pageNumber) + 1 <==> dataLength >= pageSize)
    {
      if dataLength >= pageSize {
        HandlePageChange(pageNumber + 1);
      }
    }

    /** The "Add To Cart" button: the click's payload goes into the cart
        slice with a quantity of 1. */
    method AddToCartClick(product: Product, cart: Cart)
      modifies cart
      ensures cart.items == Added(old(cart.items), AddToCartPayload(product), ClickQty)
      ensures UniqueIds(old(cart.items)) ==> UniqueIds(cart.items)
    {
      cart.Add(AddToCartPayload(product), ClickQty);
    }
  }
}
