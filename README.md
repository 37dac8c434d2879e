# Shopping cart of the Beauty Feet Store page

This project models the shopping cart in `main.js`. The cart is an ordered list of line
items `{id, name, price, quantity}` held in a module-level variable. A copy of it is
written to the browser's local storage under the key `cart` after every change. The
cart-count badges show the sum of the quantities. The page's handlers are:

- `addToCart`: finds the line with the given id and adds one to it in place, or pushes a
  new line of quantity 1.
- `removeFromCart`: replaces the list by the lines whose id differs.
- `checkout`: reports an empty cart, or empties the cart.

`addToCart` and `removeFromCart` always persist the list and refresh the badge. `checkout`
does so only when the cart was not empty.

`cart.dfy` holds one module, `Cart`:

- **Pure part.** The functions are `Find` (the `cart.find` lookup, as the index of the
  line it returns), `Without` (the filter of `removeFromCart`), `TotalQuantity` and
  `TotalPrice` (the two `reduce` folds, from the left and starting at 0) and
  `DisplayedTotal` (the total as `updateCartDisplay` shows it). `Added` is a recursive
  reference definition of what `addToCart` does to the list. Lemmas relate these
  functions to each other.
- **Stateful part.** The class `Store` has three fields: `items` (the `cart` variable),
  `stored` (the local-storage entry; `None` until the key has been written) and `badge`
  (the number last written into the badges). Its methods are the handlers.
  - `Valid()` is the invariant that holds between handlers: ids are unique, every
    quantity is at least 1, and the badge shows the total quantity.
  - `Synced()` says the stored copy equals the in-memory list. It holds after every
    write.

## Model

| member | source | states |
|---|---|---|
| `Cart.Find` | main.js:50 | Returns the index of the first line with the id. It returns none exactly when no line carries that id. |
| `Cart.FindUnique` | main.js:50 | In a cart with unique ids, the lookup returns the one line that has the id. |
| `Cart.Bumped` | main.js:52 | The bumped line keeps its id, name and price, and its quantity is one more. |
| `Cart.TotalQuantity` | main.js:73 | The quantity fold is 0 exactly when every line has quantity 0. |
| `Cart.LineTotal` | main.js:90 | A line costs price times quantity, which is 0 exactly when the price or the quantity is 0. |
| `Cart.TotalPrice` | main.js:94 | The price fold is 0 exactly when every line's price times quantity is 0. |
| `Cart.TotalQuantityConcat` | main.js:73 | The quantity fold of a concatenation is the sum of the folds of the two parts. |
| `Cart.TotalPriceConcat` | main.js:94 | The price fold of a concatenation is the sum of the folds of the two parts. |
| `Cart.TotalsAppend` | main.js:73-94 | Appending a line raises the count by its quantity and the total by its price times its quantity. |
| `Cart.TotalsUpdate` | main.js:73-94 | Replacing one line changes each total by that line's difference alone. |
| `Cart.TotalQuantityAtLeastLength` | main.js:73 | With positive quantities, the count is at least the number of lines. It is 0 exactly for the empty cart. |
| `Cart.DisplayedTotal` | main.js:83-95 | The "Rs. 0" of the empty-cart branch agrees with the price fold. The displayed total is always the sum of price times quantity. |
| `Cart.Added` | main.js:49-55 | After adding, some line carries the id. Every line of the old cart with another id is still there. The cart grows by one line exactly when the id was absent. |
| `Cart.AddedIncrements` | main.js:50-52 | Adding an id whose first line is at k adds exactly 1 to that line's quantity. The line keeps its stored name and price whatever is passed. Every other line is unchanged. |
| `Cart.AddedAppends` | main.js:53-54 | Adding an absent id appends `{id, name, price, 1}` at the end. The earlier lines are unchanged and keep their order. |
| `Cart.AddedWellFormed` | main.js:49-55 | Adding keeps ids unique and every quantity at least 1. |
| `Cart.AddedTotalQuantity` | main.js:49-55 | Adding raises the total quantity by exactly 1, whether or not the id was already present. |
| `Cart.AddedTotalPrice` | main.js:49-55 | Adding raises the total price by the unit price of the line that grew. That is the stored price for a known id and the passed price for a new one. |
| `Cart.AddedTwice` | main.js:49-55 | Adding the same new id twice gives one line of quantity 2. That line keeps the name and price of the first call. |
| `Cart.Without` | main.js:64 | The filtered list is no longer than the cart. No line in it has the id. A line is in it exactly when it is in the cart with a different id. |
| `Cart.WithoutConcat` | main.js:64 | Filtering a concatenation filters each part separately and keeps the parts in order. |
| `Cart.WithoutAbsent` | main.js:64 | Removing an id that is not present leaves the cart unchanged. |
| `Cart.WithoutAt` | main.js:64 | With unique ids, removing the id found at k yields the lines before k followed by the lines after k, in their original order. |
| `Cart.WithoutWellFormed` | main.js:64 | Removing keeps ids unique and every quantity at least 1. |
| `Cart.WithoutTotals` | main.js:64 | Removing a present id lowers the count by that line's quantity. It lowers the total price by that line's price times its quantity. Removing an absent id changes neither total. |
| `Cart.RemoveUndoesAdd` | main.js:49-68 | Removing an id right after adding it as a new line restores the original cart. |
| `Cart.Session` | main.js:49-96 | Add Tea (50) twice, add Cake (120), then remove Tea. The cart and totals go 1 line with count 1, then quantity 2 with total 100, then count 3 with total 220, then only Cake with total 120. |
| `Cart.Walkthrough` | main.js:49-123 | Through the handlers: add Tea, add Tea again with another name and price, add Cake, remove Tea, then check out twice. The totals shown are count 1, then 100, 220, 120 and 0. The first checkout succeeds and the second reports an empty cart. |
| `Cart.Store.Valid` | main.js:45-123 | The invariant between handlers is that ids are unique, quantities are at least 1 and the badge shows the count. Under it, the badge shows 0 exactly when the cart is empty. |
| `Cart.Store.Synced` | main.js:56 | The stored copy holds the same lines as the in-memory cart, at the same places. |
| `Cart.Store.constructor` | main.js:45 | At load, the cart is the stored list, or empty when the key is missing. Storage is left as it was. The badge is set to the count, as the refresh at main.js:145 does. The invariant holds. |
| `Cart.Store.UpdateCartCount` | main.js:72-76 | The badge shows the total quantity of the cart. |
| `Cart.Store.Add` | main.js:49-59 | The new cart is `Added` of the old one, and the stored copy equals it. The badge goes up by exactly 1. The invariant is kept. |
| `Cart.Store.Remove` | main.js:63-68 | The new cart is the filtered old one, and the stored copy equals it. The badge shows the new count. The invariant is kept. |
| `Cart.Store.Checkout` | main.js:113-123 | An empty cart reports "cart is empty" and changes nothing, including storage and the badge. A non-empty cart reports success and becomes empty, and storage holds the empty list. Both totals are 0 afterwards. |

## Left out

- DOM effects are not modelled. These are the menu toggle, the scroll and load
  animations, the cart rows' HTML, the modal's opening and closing, and smooth scrolling.
  They carry no data. The badge is modelled only as the number written into it.
  `updateCartDisplay`'s rendering of the rows is not modelled. Its total is
  `DisplayedTotal`.
- The two `alert` calls of `checkout` are not modelled. `Checkout` returns a `Notice`
  instead.
- Local storage and JSON serialisation are not modelled. Storage is the field `stored`,
  which is assigned the list itself. The serialise-and-reload round trip is therefore not
  modelled.
- Cart.Store.constructor: parsing at load is not modelled. The constructor takes the
  already parsed entry, and it requires that entry to have unique ids and positive
  quantities. The source checks neither. Malformed JSON makes `JSON.parse` throw at load.
  The cart is not replaced by an empty one in that case, and this model does not cover
  that path. A stored entry that parses to a falsy value such as `null` or `0` also
  loads as an empty cart. The model represents only the missing key (`None`) as that
  case.
- Prices and quantities are `nat`. JavaScript's floating-point arithmetic, and its
  rounding of large values, are not modelled.
- Ids are strings compared by value. The remove buttons always pass the id as a quoted
  string (main.js:91). If the page's markup passed a numeric id to `addToCart`, the strict
  comparison at main.js:64 would never match and removal would do nothing. The model
  assumes the markup passes string ids and cannot show that case.
- Items are assumed to come only through these handlers. The product ids, names and
  prices passed by the page's markup are not part of this model.
