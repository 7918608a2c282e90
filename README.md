# Shopping cart service model

A Dafny model of `CartService` in `frontend/src/app/services/cart.service.ts`, the
client-side shopping cart of the foodmine web storefront. The service owns one
`Cart`: an ordered list of `CartItem`s (a food, a quantity and a line price)
plus two stored totals. Four operations change it:

- `addToCart` appends a line for a food unless a line with that food id exists;
- `removeFromCart` filters out the lines for one food id;
- `changeQuantity` sets the quantity of the first line for a food id and
  recomputes its line price;
- `clearCart` replaces the cart with a new, empty one.

Each of them, whenever it changes something, ends in `setCartToLocalStorage`.
That step recomputes `totalPrice` and `totalCount` as left folds over the
lines, writes the cart to the browser's storage under the key `"Cart"` and
broadcasts it to subscribers.

The model has two modules:

- `CartValues` (`cart_values.dfy`) holds the value layer. `Food`, `ItemState`
  and `CartState` are the values of a food, a line and a cart. `IndexOf` is the
  `find` lookup and returns the first match. `Without` is the `filter`. `Sum` is
  the `reduce` fold, for the price and for the quantity. `WithQuantity` is the
  result of a quantity change. The lemmas about them state uniqueness of ids,
  order preservation and how the totals move.
- `CartServices` (`cart_service.dfy`) holds the state the source changes in
  place. `CartItem` is a class whose `quantity` and `price` are assigned by
  `ChangeQuantity`. `Cart` is a class whose `items` and totals are reassigned.
  `CartService` is a class whose `cart` is replaced by `ClearCart`. The storage
  entry is the field `stored`. The broadcast channel is the field `emitted`, the
  list of values sent so far. `View()` gives the current cart value. `Valid()`
  says that line objects are not shared and that the last value broadcast is the
  current cart. Each method states its new `View()` in terms of the old one,
  using the value-layer functions.

Prices and quantities are integers, for example cents.

Uniqueness of food ids and totals that match the lines are NOT object
invariants. The constructor restores whatever the storage holds, without
validation, just as the source's `JSON.parse` does. So the methods promise
instead that unique ids stay unique, and that the totals match the lines after
every step that persists.

## Model

| member | source | states |
|---|---|---|
| `CartValues.IndexOf` | frontend/src/app/services/cart.service.ts:20 | The `find` by food id returns no index exactly when no line has that id. Otherwise it returns the first line with that id. |
| `CartValues.Without` | frontend/src/app/services/cart.service.ts:33 | After the `filter`, no line has the id. Every kept line comes from the input, and every input line with another id is kept. An absent id leaves the list unchanged. |
| `CartValues.WithoutConcat` | frontend/src/app/services/cart.service.ts:33 | Filtering distributes over concatenation, so the kept lines stay in their original relative order. |
| `CartValues.WithoutUnique` | frontend/src/app/services/cart.service.ts:33 | In a cart with unique ids, removing a present id deletes exactly its one line and keeps every other line in order. |
| `CartValues.WithoutKeepsUnique` | frontend/src/app/services/cart.service.ts:33 | Removing a food id keeps food ids pairwise distinct. |
| `CartValues.SumWithout` | frontend/src/app/services/cart.service.ts:62-70 | After removing a present id from a cart with unique ids, each recomputed total drops by exactly that line's price or quantity. |
| `CartValues.WithQuantity` | frontend/src/app/services/cart.service.ts:43-47 | A quantity change keeps the length. On the first line for the id it sets the quantity to `q` and the line price to `q` times the food's unit price. Every other line is unchanged. An absent id changes nothing. |
| `CartValues.WithQuantityKeepsUnique` | frontend/src/app/services/cart.service.ts:43-47 | Changing a quantity keeps food ids pairwise distinct. |
| `CartValues.SumWithQuantity` | frontend/src/app/services/cart.service.ts:46-70 | After a quantity change, each recomputed total moves by exactly the changed line's difference. |
| `CartValues.Sum` | frontend/src/app/services/cart.service.ts:63-70 | The `reduce` left fold from 0 of the line prices or quantities. When every line's amount is non-negative, the total is non-negative. Its other facts are `SumConcat` and `SumUpdate`. |
| `CartValues.SumConcat` | frontend/src/app/services/cart.service.ts:63-70 | The left-fold totals split over concatenation of line lists. |
| `CartValues.SumUpdate` | frontend/src/app/services/cart.service.ts:63-70 | Replacing one line changes a fold total by exactly the difference of that line. |
| `CartValues.AppendKeepsUnique` | frontend/src/app/services/cart.service.ts:20-22 | Appending a line whose food id is absent keeps food ids pairwise distinct. |
| `CartServices.Filter` | frontend/src/app/services/cart.service.ts:33 | The `filter` over line objects keeps only objects of the input. It keeps them unshared when they were unshared. |
| `CartServices.FilterSnapshot` | frontend/src/app/services/cart.service.ts:33 | The values of the filtered line objects are exactly `Without` of the values of the original lines. |
| `CartServices.CartItem.constructor` | frontend/src/app/services/cart.service.ts:22 | A new line holds the given food. Its initial quantity and price are left open. |
| `CartServices.Cart.constructor` | frontend/src/app/services/cart.service.ts:52 | A new cart has no lines. |
| `CartServices.CartService.constructor` | frontend/src/app/services/cart.service.ts:11-12 | The service starts from the stored cart, or from an empty cart when nothing is stored. It broadcasts that cart as the channel's single initial value. |
| `CartServices.CartService.GetCartFromLocalStorage` | frontend/src/app/services/cart.service.ts:76-79 | An absent entry gives a new cart with no lines. A present entry is restored exactly as stored, with no validation, into new and unshared line objects. |
| `CartServices.CartService.AddToCart` | frontend/src/app/services/cart.service.ts:19-24 | If the food id is present, the cart, storage and broadcasts are unchanged. Otherwise one line for the food is appended after the unchanged earlier lines, then the cart is persisted and broadcast once. Unique ids stay unique. |
| `CartServices.CartService.RemoveFromCart` | frontend/src/app/services/cart.service.ts:32-35 | The new lines are `Without` of the old ones. The cart is persisted and broadcast even when the id was absent. Unique ids stay unique. |
| `CartServices.CartService.ChangeQuantity` | frontend/src/app/services/cart.service.ts:42-49 | The new lines are `WithQuantity` of the old ones, mutated in place in the same line object. An absent id changes nothing and broadcasts nothing. A present id is persisted and broadcast once. Unique ids stay unique. |
| `CartServices.CartService.ClearCart` | frontend/src/app/services/cart.service.ts:51-54 | The cart is replaced by a new one with no lines and both totals zero. It is persisted and broadcast once. |
| `CartServices.CartService.GetCartObservable` | frontend/src/app/services/cart.service.ts:56-58 | A new subscriber receives the latest broadcast value, which is the current cart. |
| `CartServices.CartService.SetCartToLocalStorage` | frontend/src/app/services/cart.service.ts:62-74 | Keeps the lines. Sets `totalPrice` and `totalCount` to the sums over the lines. Stores the cart under "Cart" and appends exactly one broadcast value, the current cart. |
| `CartServices.AddTwice` | frontend/src/app/services/cart.service.ts:19-24 | Adding the same food twice to a cart with unique ids leaves exactly one line for that food. |

## Left out

- Serialisation: `JSON.stringify` / `JSON.parse` and the browser's `localStorage` are not modelled as code. The stored entry is the field `stored`, and the constructor takes the already-parsed entry as a parameter (`None` for a missing or empty string).
- Malformed stored data: a stored string that is not JSON makes `JSON.parse` throw at line 78. The model has no such input, because the constructor takes the entry already parsed.
- Broadcasting: the `BehaviorSubject` and its subscribers are reduced to the list `emitted` of values sent. Each broadcast in the source sends the live `this.cart` object. Later in-place changes mutate that object (the push at line 22, the reassignment of `items` at line 33, the field writes at lines 46-47 and 63-70) until `clearCart` swaps in a new one at line 52. So a subscriber that keeps the object sees those later changes. The model records one value per broadcast, so that aliasing is not captured.
- CartServices.CartItem.constructor: does not state the `CartItem` class's default quantity and line price. That class is not part of this model, so `AddToCart` leaves the new line's quantity and price open.
- CartServices.Cart.constructor: does not state the `Cart` class's default totals. That class is not part of this model. `ClearCart` recomputes the totals right after creating a cart, so its result has both totals zero.
- CartServices.CartService.constructor: when nothing is stored, the service starts from a new `Cart` (line 78) without recomputing its totals. So `totalPrice` and `totalCount` are the `Cart` class's unstated defaults, and the model leaves them open until the first operation that persists.
- Floating point: prices and quantities are `int`, so the sums and the product `quantity * price` are exact. JavaScript numbers would round.
- Display attributes of `Food` and the Angular `@Injectable` wiring are framework and catalogue plumbing with no cart logic.
