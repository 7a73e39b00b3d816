/** The cart slice: line items carrying the cart record's display data. */
module CartSlice {
  import opened Wrappers
  import opened LineItems
  import opened Slices

  /** The fields of a cart record that no reducer reads.  `discount` is
      optional because the payload built on the product list leaves it out. */
  datatype CartInfo = CartInfo(
    catInstanceName: string,
    brandName: string,
    productName: string,
    productDescription: string,
    cost: int,
    discount: Option<int>,
    currencySymbol: string,
    productImageUrl: string)

  type CartItem = Line<CartInfo>

  /** The cart state object held by the store. */
  type Cart = SliceState<CartInfo>
}
