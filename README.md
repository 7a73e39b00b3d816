# Storefront cart, favourites and checkout — a Dafny model

This project models the client-side core of a retail storefront single-page
application:

- the **cart** and **favourites** slices, two copies of one reducer over a list
  of line items keyed by `productId` (add-or-merge, increase, decrease with
  removal, remove, clear);
- the **checkout arithmetic and guards** of the order page and of the cart
  dialog (subtotal, free-delivery threshold, total, required-field and
  empty-cart checks, the `orderDetails` list, what happens on success and on
  error);
- the **product list**'s paging state (page number, page size, language) and
  the add-to-cart payload its button feeds to the cart slice.

## Layout

| file | module | what it holds |
|---|---|---|
| `wrappers.dfy` | `Wrappers` | `Option`, for fields the source reads with `??` |
| `line_items.dfy` | `LineItems` | the line-item record `Line<M>`, the list invariants (`UniqueIds`, `AllPositive`), the five reducers as transitions on a list (`Added`, `Increased`, `Decreased`, `Removed`, and clearing to `[]`) and the lemmas about them |
| `slices.dfy` | `Slices` | the slice state object `SliceState<M>` whose methods update `items` in place, proved equal to the transitions; `Find` and `Filter` render `Array.prototype.find` and `filter` as loops |
| `cart_slice.dfy` | `CartSlice` | the cart record's pass-through fields; the cart is `SliceState<CartInfo>` |
| `favourite_slice.dfy` | `FavouriteSlice` | the favourites record's pass-through fields; the favourites are `SliceState<FavouriteInfo>`; lemmas that each favourites reducer leaves the same `(productId, stockQTY)` pairs as the cart reducer |
| `checkout.dfy` | `Checkout` | `SubTotal` (a left fold, as `reduce` is), `OrderDetails`, and how each reducer moves the subtotal |
| `order_page.dfy` | `OrderPage` | free delivery from 500000 on, the order total, the `OrderForm` state with `handlePlaceOrder` and its callbacks, the worked checkout example |
| `cart_page.dfy` | `CartPage` | the dialog's total (no threshold), the `CartDialog` state with `handleCheckout` and its callbacks |
| `product_list.dfy` | `ProductList` | the add-to-cart payload and its effect on the cart, the `ProductListPage` paging state |

The two slices are one generic reducer: `Line<M>` carries `productId`,
`price` and `stockQTY` (the quantity held, not warehouse stock) and an opaque
`info: M` holding the display fields no reducer reads. The reducers of
`src/store/feature/cartSlice.ts` and `src/store/feature/favouriteSlice.ts`
map onto the same members:

| cart reducer | favourites reducer | state method | transition |
|---|---|---|---|
| `addToCarts` | `addToFavourites` | `SliceState.Add` | `Added` |
| `increaseQty` | `increasementQty` | `SliceState.Increase` | `Increased` |
| `decreaseQty` | `decreasementQty` | `SliceState.Decrease` | `Decreased` |
| `removeFromCart` | `removeFromFavourite` | `SliceState.Remove` | `Removed` |
| `clearCart` | `clearFavourite` | `SliceState.Clear` | `[]` |

The model follows the code as written; in particular:

- `decreaseQty` looks at the FIRST item with the id. If it holds more than one,
  only that item loses one. Otherwise (`stockQTY <= 1`, or no such item) every
  item with the id is filtered out. For an absent id the list is unchanged.
- Add, increase and decrease accept any quantity. Nothing rejects a `qty` of 0
  or less, so "every quantity is at least one" is proved only under that
  hypothesis (`AddedKeepsPositive`, `ReducersKeepPositive`).
- Free delivery (subtotal at or above 500000) exists only on the order page.
  The cart dialog adds the entered fee whatever the subtotal. It always
  submits a fee of 2000 and cash on delivery, whatever was entered.
- The order page submits the ENTERED fee as `deliFee`, not the waived one,
  even when its displayed total waives it (`OrderForm.HandlePlaceOrder`).
- No checkout reads `discount`. The cart record built on the product list has
  no discount at all (`None`).

## Model

| member | source | states |
|---|---|---|
| LineItems.FirstIndex | src/store/feature/cartSlice.ts:18-20 | the index `find` stops at: every earlier item has another id, the item there has the id, and it is `|items|` exactly when no item has the id |
| LineItems.Removed | src/store/feature/cartSlice.ts:42-44 | the filtered list holds no item with the id, is never longer, and is the list itself when the id is absent |
| LineItems.RemovedMembers | src/store/feature/cartSlice.ts:43 | filtering by id keeps every item with another id and adds nothing: each kept item was in the list, and each item of the list with another id is kept |
| LineItems.AddedMerges | src/store/feature/cartSlice.ts:21-22 | with unique ids, adding a held id adds `qty` to that item's `stockQTY` only; its other fields are kept, the payload's metadata is dropped, every other item is unchanged |
| LineItems.AddedAppends | src/store/feature/cartSlice.ts:23-24 | adding an id not held appends exactly one item at the end with the payload's id, price and metadata and `stockQTY = qty`, overwriting the payload's own `stockQTY` |
| LineItems.AddedTwiceSums | src/store/feature/cartSlice.ts:16-25 | two adds of one product to an empty list leave one item holding the sum of the two quantities |
| LineItems.AddedKeepsUnique | src/store/feature/cartSlice.ts:18-25 | adding never creates a duplicate `productId`, and the added id is held afterwards |
| LineItems.IncreasedBumpsOne | src/store/feature/cartSlice.ts:28-31 | with unique ids, increase adds exactly 1 to the item with the id and leaves every other item as it was |
| LineItems.IncreasedAbsent | src/store/feature/cartSlice.ts:28-31 | increasing an id not held leaves the list unchanged |
| LineItems.DecreasedAboveOne | src/store/feature/cartSlice.ts:35-36 | decreasing an item holding more than one takes exactly one off it and keeps it in place |
| LineItems.DecreasedAtOne | src/store/feature/cartSlice.ts:37-39 | decreasing an item holding one or less removes that item, keeps the others in order, and leaves no item with that id |
| LineItems.DecreasedAbsent | src/store/feature/cartSlice.ts:33-40 | decreasing an id not held leaves the list unchanged |
| LineItems.RemovedConcat | src/store/feature/cartSlice.ts:43 | removing by id from a concatenation removes from each part in place, so the kept items keep their original order |
| LineItems.RemovedIdempotent | src/store/feature/cartSlice.ts:42-44 | removing an id twice leaves the same list as removing it once |
| LineItems.RemovedDropsOne | src/store/feature/cartSlice.ts:42-44 | with unique ids, removing the id of item `i` leaves exactly the items before and after it, in order |
| LineItems.RemovedKeepsUnique | src/store/feature/cartSlice.ts:43 | filtering by id keeps the ids unique |
| LineItems.ReducersKeepUnique | src/store/feature/cartSlice.ts:28-44 | increase, decrease and remove keep the ids unique |
| LineItems.RemovedKeepsPositive | src/store/feature/cartSlice.ts:38 | filtering by id keeps every quantity at least one when it was |
| LineItems.AddedKeepsPositive | src/store/feature/cartSlice.ts:16-25 | if every held quantity is at least one and the added `qty` is at least one, adding keeps every quantity at least one |
| LineItems.ReducersKeepPositive | src/store/feature/cartSlice.ts:28-44 | if every held quantity is at least one, increase, decrease and remove keep every quantity at least one |
| LineItems.FirstIndexAgrees | src/store/feature/favouriteSlice.ts:21-23 | two lists with the same `(productId, stockQTY)` pairs have the same length and agree on `find`, whatever their metadata |
| LineItems.RemovedAgrees | src/store/feature/favouriteSlice.ts:45-47 | filtering two lists with the same pairs by one id leaves the same pairs |
| Slices.Find | src/store/feature/cartSlice.ts:29 | the loop over the items stops at `FirstIndex`: the first item with the id, or the end |
| Slices.Filter | src/store/feature/cartSlice.ts:38 | the loop keeping the items with another id builds exactly `Removed` |
| Slices.SliceState.constructor | src/store/feature/cartSlice.ts:8-10 | a slice starts with no items |
| Slices.SliceState.Add | src/store/feature/cartSlice.ts:16-26 | the new list is `Added` of the old one; unique ids stay unique; quantities stay at least one when `qty` is |
| Slices.SliceState.Increase | src/store/feature/cartSlice.ts:28-31 | the new list is `Increased` of the old one; uniqueness and positive quantities are kept |
| Slices.SliceState.Decrease | src/store/feature/cartSlice.ts:33-40 | the new list is `Decreased` of the old one; uniqueness and positive quantities are kept |
| Slices.SliceState.Remove | src/store/feature/cartSlice.ts:42-44 | the new list is `Removed` of the old one; uniqueness and positive quantities are kept |
| Slices.SliceState.Clear | src/store/feature/cartSlice.ts:46-48 | the list is empty afterwards, from any state, so clearing twice is clearing once |
| FavouriteSlice.AddToFavouritesMatchesCart | src/store/feature/favouriteSlice.ts:16-29 | from lists with the same pairs and payloads with the same id, `addToFavourites` and `addToCarts` leave the same `(productId, stockQTY)` pairs |
| FavouriteSlice.IncreasementQtyMatchesCart | src/store/feature/favouriteSlice.ts:31-34 | `increasementQty` and `increaseQty` leave the same pairs |
| FavouriteSlice.DecreasementQtyMatchesCart | src/store/feature/favouriteSlice.ts:36-43 | `decreasementQty` and `decreaseQty` leave the same pairs |
| FavouriteSlice.RemoveFromFavouriteMatchesCart | src/store/feature/favouriteSlice.ts:45-47 | `removeFromFavourite` and `removeFromCart` leave the same pairs |
| Checkout.SubTotalConcat | src/modules/order/Order.tsx:23-26 | the subtotal is additive over concatenation, so it is the sum of `price × stockQTY` over the items |
| Checkout.SubTotalNonNegative | src/modules/cart/CartPage.tsx:51-54 | the subtotal is 0 for an empty cart and never negative when prices are non-negative and quantities at least one |
| Checkout.SubTotalAfterAdd | src/modules/order/Order.tsx:23-26 | adding `qty` raises the subtotal by `qty` times the price already held for the product, or by `qty` times the payload's price for a new product |
| Checkout.SubTotalAfterIncrease | src/modules/cart/CartPage.tsx:124-129 | the plus button raises the subtotal by the item's price; an absent id leaves it alone |
| Checkout.SubTotalAfterDecrease | src/modules/cart/CartPage.tsx:116-122 | the minus button lowers the subtotal by one unit price while the item holds more than one, and by the item's whole `price × stockQTY` when it goes |
| Checkout.SubTotalAfterRemove | src/modules/cart/CartPage.tsx:131-137 | the remove button lowers the subtotal by exactly the item's `price × stockQTY` |
| Checkout.OrderDetails | src/modules/order/Order.tsx:71-74 | `orderDetails` has one entry per cart item, in order, entry `k` being `{productId: cart[k].productId, qty: cart[k].stockQTY}` |
| OrderPage.FreeDeliveryRule | src/modules/order/Order.tsx:80-81 | the final fee is 0 or the entered fee; for a non-zero fee it is 0 exactly when the subtotal is at least 500000; 500000 is free and 499999 is charged |
| OrderPage.OrderTotalRule | src/modules/order/Order.tsx:82 | the total is the subtotal exactly when delivery is free or the fee is 0, and below the threshold it is subtotal plus the entered fee |
| OrderPage.OrderForm.constructor | src/modules/order/Order.tsx:12-19 | the six delivery fields start empty, the payment type is "CashOnDelivery" and the fee 2000 |
| OrderPage.OrderForm.HandlePlaceOrder | src/modules/order/Order.tsx:45-77 | nothing is submitted if any of the six fields is empty; only then is the empty cart refused; a submitted payload carries the fields, the payment type, the ENTERED fee and `OrderDetails` of the cart |
| OrderPage.OrderForm.Resolve | src/modules/order/Order.tsx:28-43 | on success the cart is cleared and the six fields emptied; on error nothing changes; payment type and fee are never reset |
| OrderPage.CheckoutScenario | src/modules/order/Order.tsx:22-82 | p1 (1000) added once and then twice, p2 (500) once: pairs `[(p1, 3), (p2, 1)]`, subtotal 3500, total 5500 with the fee 2000; removing p1 leaves `[(p2, 1)]` and 500 |
| CartPage.CartTotalAgainstOrderTotal | src/modules/cart/CartPage.tsx:55 | the dialog's total `subTotal + deliFee` matches the order page's exactly when the subtotal is under 500000 or the fee is 0 |
| CartPage.CartDialog.constructor | src/modules/cart/CartPage.tsx:34-38 | the order place starts empty and the fee at 2000 |
| CartPage.CartDialog.HandleCheckout | src/modules/cart/CartPage.tsx:57-86 | an empty cart is refused before the order place is looked at; an empty order place is refused; otherwise the payload has `OrderDetails` of the cart, the order place, "Warehouse A", "Customer Address", "CashOnDelivery" and 2000 whatever fee was entered, and the order place is emptied on dispatch |
| CartPage.CartDialog.Resolve | src/modules/cart/CartPage.tsx:40-49 | the cart is cleared on success and left exactly as it was on error |
| ProductList.AddToCartClickEffect | src/modules/product/ProductList.tsx:85-105 | a click adds exactly 1 to the held item of that product, or appends it with `stockQTY` 1, its price, "" for a missing category name, 0 for a missing cost and no discount; the subtotal rises by one unit price; ids stay unique |
| ProductList.ProductListPage.constructor | src/modules/product/ProductList.tsx:25-27 | the list starts on page 1, size 15, language "us" |
| ProductList.ProductListPage.HandlePageChange | src/modules/product/ProductList.tsx:58-62 | the page number changes only to a positive requested page |
| ProductList.ProductListPage.HandlePageSizeChange | src/modules/product/ProductList.tsx:64-68 | the page size becomes the selected one and the page number 1 |
| ProductList.ProductListPage.HandleLanguageChange | src/modules/product/ProductList.tsx:70-74 | the language becomes the selected one and the page number 1 |
| ProductList.ProductListPage.Previous | src/modules/product/ProductList.tsx:228-231 | one page back only from a page above 1, so the page never drops below 1 |
| ProductList.ProductListPage.Next | src/modules/product/ProductList.tsx:260-265 | one page on exactly when the shown page was full (`data.length >= pageSize`) |
| ProductList.ProductListPage.AddToCartClick | src/modules/product/ProductList.tsx:85-105 | the cart becomes `Added` of its old items, the click's payload and a quantity of 1 |

## Left out

- Persistence through redux-persist (`src/store/index.ts`) and `PersistGate`: the store is saved and reloaded by a library against browser storage; the model starts each slice empty.
- Every request to the server (`addOrder`, `confirmOrder`, and the server-side `addToCart` call on the product list): network I/O. The outcome of an order is the `succeeded` parameter of the `Resolve` methods.
- Toasts, alerts, `onClose`, and the JSX: presentation only. The outcome datatypes name which message is shown.
- The `onChange` setters of the form inputs: each assigns one field of the component state, and the fields are plain public variables here.
- The debounced page-size and language setters: they are timer-driven. Each fires 500 ms after the change and sets `pageNumber` back to 1 again, so a page click or Next made within that window is undone; the model applies the reset only once, at the change itself.
- `Number(...)` parsing of the fee and page-size inputs: the model takes the parsed integer.
- Floating point: `price`, `cost`, `stockQTY` and `deliFee` are unbounded integers. JavaScript numbers are doubles, so very large sums lose precision; `toFixed` display is not modelled.
- Discounted pricing: `discount` is carried as opaque data; no modelled code reads it.
- Favourites in checkout: no modelled screen dispatches a favourites reducer (the product list's heart button is commented out).
- A second checkout click while one is pending: the dialog disables its button, which is presentation.
