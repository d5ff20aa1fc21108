# Dr May Pharmacy storefront: cart, catalog and checkout, modelled in Dafny

The storefront script (`script.js`) holds a fixed catalog of four products. It also holds a
shopping cart: an ordered list of `{id, qty}` lines, kept in a global array and updated in place.
On top of these it runs three pieces of logic, and this project models and proves all three:

- **The product list.** `renderProducts` filters the catalog by category, price ceiling and a
  lower-cased search text. It then sorts the result with `Array.prototype.sort`, which is stable,
  by ascending price, descending price or descending rating. Any other sort value keeps catalog
  order.
- **The cart operations.**
  - `addToCart` adds one unit of a catalog product, or appends a new line.
  - `removeFromCart` drops the product's line.
  - `setQty` sets a quantity, never below 1.
  - `cartTotals` joins the lines with the catalog and sums price × quantity.
- **Checkout.** The submit handler refuses an empty cart. Otherwise it builds an order (the items,
  subtotal, a 2-dollar delivery fee and the total) and posts it. An accepted order empties the
  cart. A rejected or failed request leaves the cart as it was.

Money is kept in integer cents (3.5 dollars is `350`). Ratings are kept in tenths of a star (4.8
is `48`). Every sum and product is therefore exact.

Modules:
- `Wrappers`: `Option`.
- `Seqs`: `find`/`findIndex` and `filter` over sequences.
- `Text`: `toLowerCase`, `trim` and `includes`.
- `Catalog`: the products and the lookup by id.
- `Browse`: filtering, the stable sort specification and the in-place array sort.
- `Cart`: the line operations as functions, the totals, and the class `CartStore` whose methods
  update the cart.
- `Checkout`: order building, reading the reply, and the submit handler as a method over a
  `CartStore`.

Where the code and its intended behaviour part ways, the model follows the code:
- `cartTotals` does not skip a line whose id is not in the catalog. It spreads `undefined` into
  the item, and the subtotal becomes `NaN`. The model therefore makes "every line resolves"
  (`Cart.AllResolve`) a precondition of the totals, rather than claiming such lines are dropped.
- Loading the cart from storage (`script.js:48`) throws on corrupt data instead of starting from
  an empty cart. Storage is not part of this model (see below), and the model claims no recovery.

## Model

| member | source | states |
|---|---|---|
| Catalog.FindProduct | script.js:121 | `PRODUCTS.find(p => p.id === id)`: a found product is in the catalog and carries that id; nothing is found exactly when no product has the id |
| Catalog.FindProductFirst | script.js:121 | `find` yields the first product carrying the id, even when a later one carries it too |
| Catalog.FindOwnId | script.js:121 | in a catalog without repeated ids, each product is found by its own id |
| Catalog.CatalogUnique | script.js:7-12 | the four shipped products have pairwise distinct ids |
| Catalog.CatalogLookup | script.js:7-12 | every shipped product is found by its id |
| Seqs.FindIndex | script.js:123 | the first element passing the test, if any: it passes, no earlier element does, and none is found exactly when no element passes |
| Seqs.Filter | script.js:127 | `filter`: at most as long as the input; it keeps exactly the elements that pass |
| Seqs.FilterIsSubseq | script.js:127 | `filter` keeps the surviving elements in their original order (an order-preserving subsequence) |
| Seqs.FilterCutsOne | script.js:127 | when exactly one element fails the test, filtering cuts out that element and keeps the rest in order |
| Text.Lower | script.js:82 | `toLowerCase` keeps the length and lower-cases each ASCII capital, leaving every other character alone |
| Text.Trim | script.js:82 | `trim` (also applied to the three checkout fields) never lengthens its input and leaves a string that neither starts nor ends with white space unchanged; `Text.TrimSpec` carries its full promise |
| Text.TrimSpec | script.js:82 | `trim` returns a stretch of its input that neither starts nor ends with ECMAScript white space, with only white space cut off on either side |
| Text.TrimIdempotent | script.js:82 | trimming an already trimmed string changes nothing |
| Text.Includes | script.js:89 | `includes` holds exactly when the query occurs at some position of the string |
| Text.EmptyIncluded | script.js:89 | the empty query is included in every string |
| Browse.NormalizeQuery | script.js:82 | the search text is lower-cased and trimmed: never longer than typed, and empty when nothing was typed |
| Browse.EffectiveCategory | script.js:83 | an empty category selection falls back to the wildcard "All"; any other value is used as is |
| Browse.Matches | script.js:88-90 | the filter test, category ("All" is a wildcard), price ceiling and query in the lower-cased name or a lower-cased tag; what it admits is stated by `Browse.FilterCatalog` and `Browse.EmptyQueryMatches` |
| Browse.FilterCatalog | script.js:87-91 | a product is shown exactly when it is in the catalog and matches category ("All" matches any), price ceiling and the query in its lower-cased name or some lower-cased tag; the result keeps catalog order |
| Browse.EmptyQueryMatches | script.js:87-91 | with an empty query, only category and price decide whether a product is shown |
| Browse.EmptyQueryShowsAll | script.js:87-91 | an empty query, "All" and a ceiling above every price show the catalog unchanged |
| Browse.ParseSort | script.js:93-98 | "price-asc", "price-desc" and "rating-desc" select their order; every other value selects none (the `default` branch) |
| Browse.Rank | script.js:94-96 | the sort key of a product under each order (price, negated price, negated rating); `Browse.Compare` ties it to the comparators |
| Browse.Compare | script.js:94-96 | each comparator handed to `sort` is the difference of the two products' ranks: negative exactly when the first ranks lower, zero exactly on a tie |
| Browse.StableSort | script.js:94-96 | the stable sort keeps the length of its input; `Browse.StableSortPermutes`, `Browse.StableSortSorted` and `Browse.StableSortKeepsTies` state that it is a sorted, tie-preserving permutation |
| Browse.StableSortPermutes | script.js:94-96 | sorting yields a permutation of its input |
| Browse.StableSortSorted | script.js:94-96 | sorting yields a list ordered by the comparator's key |
| Browse.StableSortKeepsTies | script.js:94-96 | stability: the products of any one rank appear in the same relative order before and after sorting |
| Browse.InsertInPlace | script.js:94-96 | one insertion step on the array: the first `i + 1` cells become the old prefix with the old `a[i]` inserted after every element that does not rank above it; later cells are untouched |
| Browse.SortInPlace | script.js:94-96 | `list.sort(cmp)` in place: the array ends up equal to the stable sort of its old contents |
| Browse.Select | script.js:82-98 | the rendered list: exactly the matching products, a permutation of the filtered list, ordered by the chosen key, and the filtered list itself for any other sort value |
| Browse.SelectKeepsTies | script.js:93-97 | sorting the rendered list never reorders products of equal rank |
| Browse.VisibleProducts | script.js:81-98 | filtering into a fresh array and sorting it in place gives exactly `Select` |
| Browse.DefaultFiltersShowCatalog | script.js:82-91 | with no search text, no category and the default ceiling of 9999 dollars, all four products are shown |
| Browse.CosmeticsExample | script.js:87-91 | the "Cosmetics" category shows the serum and the sunscreen, in catalog order |
| Browse.PriceAscExample | script.js:94 | ascending price shows Paracetamol, sunscreen, serum, fish oil |
| Browse.RatingDescExample | script.js:96 | descending rating shows the serum first, then Paracetamol before the sunscreen (equal 4.8 ratings, stable order), then fish oil |
| Cart.LineIndex | script.js:123 | the position of the first cart line with that id, if any; none exactly when no line has it |
| Cart.Clamp | script.js:128 | `Math.max(1, qty)`: at least 1, and `qty` itself whenever that is at least 1 |
| Cart.AfterAdd | script.js:120-124 | an id missing from the catalog leaves the cart unchanged; an id with a line gets that line's quantity raised by 1 in place, with the length and every other line unchanged; otherwise `{id, qty: 1}` is appended |
| Cart.AfterRemove | script.js:127 | afterwards no line has the id; a line survives exactly when it was there and has another id; survivors keep their order; an absent id changes nothing |
| Cart.AfterSetQty | script.js:128 | the line for the id gets quantity `max(1, qty)` in place and is never removed; other lines are unchanged; an absent id changes nothing |
| Cart.AddKeepsInvariant | script.js:120-124 | adding keeps ids pairwise distinct and every quantity at least 1 |
| Cart.RemoveKeepsInvariant | script.js:127 | removing keeps ids pairwise distinct and every quantity at least 1 |
| Cart.FilterKeepsInvariant | script.js:127 | dropping any lines keeps ids pairwise distinct and every quantity at least 1 |
| Cart.SetQtyKeepsInvariant | script.js:128 | setting a quantity keeps ids pairwise distinct and every quantity at least 1 |
| Cart.SetQtyZeroKeepsLine | script.js:140 | the "-" button on a line of quantity 1 asks for 0 and leaves the line in place at quantity 1 |
| Cart.AddThenRemoveRestores | script.js:120-127 | adding a catalog product not yet in the cart and then removing it gives back the original cart |
| Cart.AddThenRemoveForgets | script.js:120-127 | for a product already in the cart, adding then removing equals just removing |
| Cart.Items | script.js:129 | the items are as many as the lines, in the same order, each carrying its line's quantity and the catalog product with the line's id |
| Cart.Subtotal | script.js:129 | `reduce` from the left with start 0; `Cart.SubtotalIsLinesAmount` states that it is the sum of price × quantity over the lines |
| Cart.CartTotals | script.js:129 | the items mirror the lines in order with their quantities; an empty cart has subtotal 0; non-negative quantities give a non-negative subtotal |
| Cart.SubtotalIsLinesAmount | script.js:129 | the left fold of the items equals the sum of price × quantity over the cart lines |
| Cart.AddRaisesSubtotal | script.js:120-124 | adding a catalog product raises the subtotal by exactly its price, whether or not it already had a line |
| Cart.RemoveLowersSubtotal | script.js:127 | removing a product's line lowers the subtotal by exactly that line's price × quantity |
| Cart.RemoveCutsLine | script.js:127 | in a cart with one line per product, removing cuts out exactly that product's line |
| Cart.SetQtyAdjustsSubtotal | script.js:128 | setting a quantity moves the subtotal by the price times the change to the clamped quantity |
| Cart.TotalsExample | script.js:129 | two Paracetamol and one Hyaluronic Serum give a subtotal of 1990 cents |
| Cart.CartStore.constructor | script.js:48 | the store starts from the saved lines and checks ids against the shipped catalog |
| Cart.CartStore.AddToCart | script.js:120-126 | the new cart is `AfterAdd` of the old one over the store's catalog, and the cart invariant is kept |
| Cart.CartStore.RemoveFromCart | script.js:127 | the new cart is `AfterRemove` of the old one, and the cart invariant is kept |
| Cart.CartStore.SetQty | script.js:128 | the new cart is `AfterSetQty` of the old one, and the cart invariant is kept |
| Cart.CartStore.Clear | script.js:245 | `cart = []`: the cart is empty afterwards |
| Cart.CartStore.Totals | script.js:129 | `cartTotals()` on the current cart |
| Checkout.ToOrderItem | script.js:217 | one order line per item: it names the item's product, carries its quantity, and its price × quantity is what the item adds to the subtotal |
| Checkout.BuildOrder | script.js:208-222 | no order for an empty cart; otherwise one order item per line, in order, copying the line's id and quantity and the product's name, category, price and image; the cart subtotal; fee 200 cents; total = subtotal + fee; no location; trimmed customer fields; the payment method as chosen |
| Checkout.OrderTotal | script.js:217-220 | the order total is the sum of price × quantity over the lines plus the delivery fee, and at least the fee for a cart that keeps its invariant |
| Checkout.Interpret | script.js:242-248 | only an ok status with a readable body places the order; a rejected order reports the server's error text, or "Order failed" when there is none |
| Checkout.SubmitOrder | script.js:206-249 | an empty cart sends nothing; otherwise the built order goes out with the position obtained; an accepted order empties the cart, and anything else leaves the cart identical |

## Left out

- Page rendering, event wiring, toasts, the modal dialog, scrolling, `quickView` and the
  newsletter form (`script.js:17-44`, `53-78`, `100-117`, `131-203`, `252-270`) are presentation
  only. This includes the cart count and checkout summary (`script.js:145`, `161-165`).
- `localStorage` load and save (`script.js:47-50`) are I/O. The store's constructor takes the
  saved lines as a parameter. Corrupt storage makes the load throw, and the model does not
  describe recovery from it.
- The `fetch` to `/api/orders` and `res.json()` (`script.js:237-242`) are network I/O. They become
  a `Reply` value: no response, an unreadable body, or an ok flag with the server's `error` text.
  A non-string `data.error` (a number or an object) is not distinguished from a missing one.
  Logging the error to the console is not modelled beyond the message `Interpret` yields.
- The geolocation request with its 6000 ms timeout (`script.js:225-234`) is an asynchronous
  browser capability. Its result becomes the `Option<Fix>` parameter of `SubmitOrder`.
- Floating point is replaced by integer cents and tenths of a star. This covers `money`/`toFixed`
  (`script.js:51`), `rating.toFixed` and `parseFloat` on the price slider (`script.js:85`). The
  ceiling is a whole number of cents, so a `NaN` ceiling is not represented.
- Cart.Clamp: models `Math.max(1, qty)` on a mathematical integer; it does not model the 32-bit
  truncation `qty|0` applies to fractional or out-of-range numbers.
- Text.Lower: lower-cases ASCII letters only; it does not model Unicode `toLowerCase`.
- Checkout.SubmitOrder: the handler is modelled as one atomic step. In the browser it waits three
  times: for the position (`script.js:234`), for `fetch` (`script.js:237`) and for `res.json()`
  (`script.js:242`). Cart changes or a second submit made during those waits are not represented.
  So the model does not capture that `cart = []` (`script.js:245`) also discards lines added
  after the order was built (`script.js:208`), nor two orders in flight at once.
- `API_BASE` (`script.js:4`) is configuration for the request URL, which the model does not build.
