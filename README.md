# Cart state of the food-ordering front-end, in Dafny

This project models the two pieces of cart logic in the food-ordering web
front-end.

- **The shared cart store** (`CartProvider` in `src/context/cart-context.tsx`)
  holds an insertion-ordered list of cart lines. Each line is a menu item plus
  a quantity. Three mutations replace the list:
  - `addToCart` adds to the quantity of the item's line, or appends a new line.
  - `updateCartQuantity` removes the item's lines when the new quantity is 0 or
    less, and otherwise sets the quantity.
  - `clearCart` empties the list.

  Two aggregates are derived from the list: `cartCount` (the sum of
  quantities) and `cartTotal` (the sum of price × quantity).
- **The checkout page's own order list** (`CheckoutPage` in
  `src/app/dashboard/checkout/page.tsx`) is seeded with three fixed lines. Its
  `handleQuantityChange` ignores negative quantities and stores every other
  one, 0 included, so a line is never removed here. The minus and plus buttons
  call it with one less or one more. `totalPrice` is the reduce of price ×
  quantity.

Modules:

- `Wrappers` holds `Option`, the result of `Array.prototype.find`.
- `Sequences` holds `Map`, `Filter` and `Sum`, the `map`, `filter` and
  `reduce` the source is written with. `Map` is stated element by element;
  `Filter` and `Sum` come with lemmas for concatenation, removal and update.
- `RestaurantMenu` holds `MenuItem`.
- `CartContext` holds the store. It has specification functions for each
  mutation (`Added`, `Updated`), the aggregates `Count` and `Total`, lemmas
  about them, and a `CartStore` class whose `cart` field the three methods
  replace.
- `Checkout` holds the checkout page. It has `Seed`, `QuantityChanged`,
  `TotalPrice`, their lemmas, and a `CheckoutPage` class whose `cartItems`
  field `HandleQuantityChange` and the two button methods replace.

Prices and quantities are unbounded integers. The source's numbers are
JavaScript doubles. The values the pages use (prices of 19000 and 25000,
quantities changed one click at a time) stay far below 2^53, but the lemmas
cover every integer. `addToCart` does
not check its quantity, so `AddToCart` takes any `int`. Zero or negative
quantities in the store are possible, and the lemmas that need positive
quantities say so.

The code does not keep quantities positive: `addToCart` stores whatever
quantity it is given (src/context/cart-context.tsx:29 and 33). Positivity is
therefore a property kept under conditions (`AddedKeepsPositive`,
`UpdatedKeepsPositive`), not an invariant of every cart.

The checkout page does not use the store. It keeps its own list
(src/app/dashboard/checkout/page.tsx:63), seeded with three fixed lines, and
there a quantity of 0 keeps the line rather than removing it
(`ZeroKeepsLine`).

## Model

| member | source | states |
|---|---|---|
| `CartContext.Find` | src/context/cart-context.tsx:25 | `find` by id gives a line exactly when some line has that id; the line it gives is in the cart and has that id |
| `CartContext.FindFirst` | src/context/cart-context.tsx:25 | of several lines with the id, `find` gives the first |
| `CartContext.Added` | src/context/cart-context.tsx:24-34 | the cart `addToCart`'s updater returns (`Incremented`, the `map`, when `find` hits, else the spread-append): every line keeps its id and place, the item's id is present afterwards, and the length grows by one exactly when the id was absent |
| `CartContext.AddedExisting` | src/context/cart-context.tsx:25-31 | `Incremented`, the `map`: adding an item already in the cart keeps the length and order; each line of that item gains `k`, every other line is unchanged |
| `CartContext.AddedNew` | src/context/cart-context.tsx:32-34 | adding an item not in the cart appends exactly the line `{...item, quantity}` after the unchanged prefix |
| `CartContext.AddedAt` | src/context/cart-context.tsx:25-31 | when line `i` is the item's only line, adding changes that one line's quantity by `k` and nothing else |
| `CartContext.AddedKeepsDistinct` | src/context/cart-context.tsx:23-35 | if the cart's ids are pairwise distinct, they stay distinct after `addToCart` |
| `CartContext.Updated` | src/context/cart-context.tsx:38-44 | with `q <= 0`, no line of that id is left and every remaining line comes from the cart; with `q > 0`, same length, lines of that id get quantity `q`, every other line is unchanged; an absent id leaves the cart unchanged |
| `CartContext.RemovedAt` | src/context/cart-context.tsx:39-40 | with distinct ids, the `filter` (`Removed`) cuts out exactly the id's line and keeps the others in their order |
| `CartContext.RemovedAround` | src/context/cart-context.tsx:39-40 | on any cart, a line of another item survives the `filter` in its place: after everything kept from before it, before everything kept from after it |
| `CartContext.RemovedKeepsOthers` | src/context/cart-context.tsx:40 | every line of another item survives the `filter` |
| `CartContext.WithQuantityAt` | src/context/cart-context.tsx:41-42 | with distinct ids, the `map` (`WithQuantity`) sets the quantity of exactly the id's line |
| `CartContext.UpdatedKeepsDistinct` | src/context/cart-context.tsx:38-44 | distinct ids stay distinct after `updateCartQuantity` |
| `CartContext.Count` | src/context/cart-context.tsx:58 | `cartCount` is the sum of the quantities; it is non-negative when every quantity is |
| `CartContext.Total` | src/context/cart-context.tsx:59 | `cartTotal` is the sum of price × quantity; it is non-negative when every price and quantity is |
| `CartContext.EmptyTotals` | src/context/cart-context.tsx:58-59 | the empty cart, which `clearCart` installs, has count 0 and total 0 |
| `CartContext.SingleLineTotals` | src/context/cart-context.tsx:58-59 | a one-line cart counts that line's quantity and totals its price × quantity |
| `CartContext.AddedTotals` | src/context/cart-context.tsx:23-35 | after `addToCart(item, k)` on a cart with distinct ids, `cartCount` grows by exactly `k` and `cartTotal` by `k` times the matching line's price (the item's own price when it was absent) |
| `CartContext.IncrementTotals` | src/context/cart-context.tsx:27-31 | adding `k` to one line's quantity adds `k` to the count and `k` times that line's price to the total |
| `CartContext.UpdatedTotals` | src/context/cart-context.tsx:38-44 | `updateCartQuantity` on a present line takes away that line's old count and total and adds `q` and `q` × price, or nothing when `q <= 0` removes it |
| `CartContext.AddedEachIncrements` | src/context/cart-context.tsx:25-31 | a sequence of adds of an item whose one line is line `i` leaves that line in place with the sum of the added quantities added; nothing else changes |
| `CartContext.AddedEachAppends` | src/context/cart-context.tsx:23-35 | a non-empty sequence of adds of an absent item appends one line holding the sum of the added quantities |
| `CartContext.AddedKeepsPositive` | src/context/cart-context.tsx:23-35 | positive quantities stay positive under `addToCart` with a positive quantity |
| `CartContext.UpdatedKeepsPositive` | src/context/cart-context.tsx:38-44 | positive quantities stay positive under every `updateCartQuantity`, because `q <= 0` removes instead of storing |
| `CartContext.CartStore.constructor` | src/context/cart-context.tsx:21 | the store starts with the empty cart |
| `CartContext.CartStore.AddToCart` | src/context/cart-context.tsx:23-36 | the new cart is `Added(old cart, item, quantity)`; distinct ids are kept; count and total move as in `AddedTotals` |
| `CartContext.CartStore.UpdateCartQuantity` | src/context/cart-context.tsx:38-44 | the new cart is `Updated(old cart, itemId, newQuantity)`; distinct ids and positive quantities are kept |
| `CartContext.CartStore.ClearCart` | src/context/cart-context.tsx:46-48 | from any state the cart becomes empty, with count and total 0, so a second call changes nothing |
| `CartContext.AddTwiceThenRemoveCarts` | src/context/cart-context.tsx:23-44 | two adds of one item give the single line of quantity 2, and setting it to 0 gives the empty cart |
| `CartContext.AddTwiceThenRemove` | src/context/cart-context.tsx:21-59 | through the store: count and total are 1 and 25000, then 2 and 50000, then 0 and 0 |
| `CartContext.AddTwoThenClearTwice` | src/context/cart-context.tsx:21-59 | through the store: items at 25000 and 19000 total 44000; after each of two clears, count and total are 0 |
| `Checkout.Seed` | src/app/dashboard/checkout/page.tsx:25-53 | the seed has three lines with ids "1", "2", "3", distinct ids and non-negative quantities |
| `Checkout.TotalPrice` | src/app/dashboard/checkout/page.tsx:66-69 | `totalPrice` is the sum over the lines of price × quantity; it is non-negative when every price and quantity is |
| `Checkout.SeedTotal` | src/app/dashboard/checkout/page.tsx:25-69 | the seed totals 25000 + 25000 + 19000 = 69000 |
| `Checkout.QuantityChanged` | src/app/dashboard/checkout/page.tsx:79-87 | a negative quantity leaves the list unchanged; otherwise lines of that id get the new quantity; every other line, the length and the order of ids are kept |
| `Checkout.UnknownIdUnchanged` | src/app/dashboard/checkout/page.tsx:81-85 | an unknown id leaves the list unchanged |
| `Checkout.ZeroKeepsLine` | src/app/dashboard/checkout/page.tsx:80-85 | a change to 0 keeps the line in the list with quantity 0, unlike the store |
| `Checkout.QuantityChangedAt` | src/app/dashboard/checkout/page.tsx:81-85 | with distinct ids, a change with `q >= 0` rewrites exactly the one line with that id |
| `Checkout.QuantityChangedTotal` | src/app/dashboard/checkout/page.tsx:79-87 | with distinct ids, a change of line `i` to `q >= 0` moves `totalPrice` by the line's new total minus its old one |
| `Checkout.IncrementStep` | src/app/dashboard/checkout/page.tsx:156-158 | the plus button's call on line `i` raises only that line by one and `totalPrice` by its price |
| `Checkout.DecrementStep` | src/app/dashboard/checkout/page.tsx:142-145 | the minus button's call on a line holding at least one lowers only that line by one and `totalPrice` by its price |
| `Checkout.QuantityChangedKeepsValid` | src/app/dashboard/checkout/page.tsx:79-87 | one change keeps the ids distinct and the quantities non-negative |
| `Checkout.ReplayedKeepsValid` | src/app/dashboard/checkout/page.tsx:79-87 | any sequence of changes keeps the ids in their order, distinct, and the quantities non-negative |
| `Checkout.SeedStaysNonNegative` | src/app/dashboard/checkout/page.tsx:63-87 | from the seed, after any sequence of `handleQuantityChange` calls, every quantity is at least 0 and the ids are still "1", "2", "3" |
| `Checkout.CheckoutPage.constructor` | src/app/dashboard/checkout/page.tsx:63 | the page's list starts as the seed, totalling 69000 |
| `Checkout.CheckoutPage.HandleQuantityChange` | src/app/dashboard/checkout/page.tsx:79-87 | the new list is `QuantityChanged(old list, id, newQuantity)` and a negative quantity changes nothing; distinct ids and non-negative quantities are kept |
| `Checkout.CheckoutPage.PressMinus` | src/app/dashboard/checkout/page.tsx:138-148 | at 0 (button disabled) nothing changes; above 0 only line `i` loses one and `totalPrice` loses its price |
| `Checkout.CheckoutPage.PressPlus` | src/app/dashboard/checkout/page.tsx:152-158 | only line `i` gains one and `totalPrice` gains its price |

## Left out

- `formatPrice`, in both files: it wraps `Intl.NumberFormat` with the `id-ID` locale, and its output depends on the locale data.
- `useCart` and the React context plumbing: they only hand the store to components.
- `useMemo` caching of `cartCount` and `cartTotal`: the model recomputes `Count` and `Total` from the current cart.
- `updateCartQuantity` reads the `cart` value captured in its closure rather than using a `prevCart` updater. The model treats every operation as a transformation of the current cart.
- The checkout page's images: `PlaceHolderImages.find(...)?.imageUrl` is a lookup in an image catalogue that is not part of this model. It is the parameter `imageUrlOf` of `Seed`, which may return `None`.
- The `MenuItem` type: it is inferred from a restaurant page's menu list. The model keeps its fields (`id`, `name`, `description`, `price`, `image`, `imageHint`) as plain values.
- The payment-method radio value and the voucher input of the checkout page: they hold no logic.
- The success page's delayed `clearCart` through `setTimeout` and `useEffect`: timing and lifecycle behaviour. Only the effect of `clearCart` is modelled.
- Authentication forms, identity-provider setup, routing pages, layouts and icons: calls into external services and presentation only.
- Number representation: JavaScript numbers are doubles. The model uses unbounded integers and does not model rounding above 2^53.
