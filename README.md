# Storefront cart engine in Dafny

This project models the cart state engine of a small storefront application,
and the product card's description shortening.

The cart is an insertion-ordered sequence of line items. Each line item is a
product's fields plus a quantity. A provider object owns the sequence. Four
mutations replace it with the result of a pure updater:

- add: one more unit of an existing line, or a new last line with one unit;
- remove: filter out an id;
- update quantity: a quantity of zero or less removes the line, a positive
  quantity overwrites it and never creates a line;
- clear: empty the cart.

Two reads fold over the sequence: the total price (Σ price × quantity) and the
cart count (Σ quantity).

Files:

- `wrappers.dfy`: `Option`, standing in for `null` / `undefined`.
- `cart.dfy` (module `Cart`): the data model (`Product`, `LineItem`), the cart
  invariant (`WellFormed`: unique ids, quantities ≥ 1), the updaters (`Find`,
  `AddItem`, `RemoveItem`, `SetQuantity`), the two `reduce` folds with their
  reference sums, and the lemmas about all of them.
- `cart_store.dfy` (module `CartContext`): class `CartStore`, whose field
  `cartItems` is the provider's state. Each mutating method keeps `Valid()` and
  states the new state as an updater applied to the old one.
- `product_card.dfy` (module `ProductCard`): `truncateDescription`.

Prices are exact `real`s, so the totals are exact sums. The original adds
JavaScript floating-point numbers.

One point where the intended behaviour and the code differ; the model follows
the code. The intended behaviour speaks of changing "the" line of an id. The
`map` in `addToCart` and `updateQuantity` rewrites every line carrying the id.
`AddItem` and `SetQuantity` model the code's behaviour. The lemmas that speak of
"the" line (`AddExisting`, `SetQuantityAt`) assume unique ids, which
`CartStore.Valid()` guarantees.

## Model

| member | source | states |
|---|---|---|
| Cart.Find | src/context/CartContext.jsx:37 | `find` yields an item exactly when some line carries the id; the item it yields is in the cart, carries the id, and is the first line that does |
| Cart.FindUnique | src/context/CartContext.jsx:37 | with unique ids, `find` yields the one line that carries the id |
| Cart.AddItem | src/context/CartContext.jsx:34-50 | after an add the product's id is in the cart; a new id is appended as a last line of quantity 1 behind an unchanged prefix; for an existing id the ids stay at their positions; the ids after an add are the old ids plus the product's |
| Cart.AddExisting | src/context/CartContext.jsx:37-45 | adding an id already present raises that line's quantity by exactly 1 and leaves every other line and the length unchanged |
| Cart.AddTwice | src/context/CartContext.jsx:34-50 | adding a new product twice gives a single last line for it with quantity 2 |
| Cart.AddItemWellFormed | src/context/CartContext.jsx:34-50 | adding keeps ids unique and every quantity at least 1 |
| Cart.AddExistingSums | src/context/CartContext.jsx:37-45 | with unique ids, adding a present id raises the count by 1 and the total by that line's stored price |
| Cart.AddItemSums | src/context/CartContext.jsx:34-50 | an add raises the count by 1, and raises the total by the stored line's price if the id was present, else by the product's price |
| Cart.AddOrderAffectsOnlyOrder | src/context/CartContext.jsx:46-48 | adding two new products in the two orders gives different sequences with the same lines and the same totals |
| Cart.RemoveItem | src/context/CartContext.jsx:58-61 | a remove never makes the cart longer |
| Cart.RemoveLeavesNone | src/context/CartContext.jsx:58-61 | after a remove no line carries the id |
| Cart.RemoveAbsent | src/context/CartContext.jsx:58-61 | removing an id that no line carries leaves the cart unchanged |
| Cart.RemoveItemMembers | src/context/CartContext.jsx:60 | the lines a remove keeps are exactly the old lines whose id differs |
| Cart.RemoveItemAppend | src/context/CartContext.jsx:60 | the filter distributes over concatenation, so the lines left keep their relative order |
| Cart.RemoveAt | src/context/CartContext.jsx:58-61 | with unique ids, removing a present id cuts exactly its line out of the sequence |
| Cart.CutWellFormed | src/context/CartContext.jsx:58-61 | cutting one line out of a cart with unique ids and positive quantities keeps both invariants |
| Cart.CutSums | src/context/CartContext.jsx:58-61 | cutting one line out takes its quantity off the count and its price × quantity off the total |
| Cart.RemoveIdempotent | src/context/CartContext.jsx:58-61 | removing an id twice gives the same cart as removing it once |
| Cart.RemoveItemWellFormed | src/context/CartContext.jsx:58-61 | removing keeps ids unique and every quantity at least 1 |
| Cart.RemoveItemSums | src/context/CartContext.jsx:58-61 | removing a present line takes its quantity off the count and its price × quantity off the total |
| Cart.SetQuantity | src/context/CartContext.jsx:78-82 | overwriting quantities keeps every id at its position; an absent id leaves the cart unchanged, so no line is created |
| Cart.SetQuantityAt | src/context/CartContext.jsx:79-81 | with unique ids, only the line carrying the id changes, and its quantity becomes exactly the given one |
| Cart.SetQuantityWellFormed | src/context/CartContext.jsx:77-82 | overwriting with a positive quantity keeps ids unique and every quantity at least 1 |
| Cart.SetQuantitySums | src/context/CartContext.jsx:77-82 | overwriting a present line's quantity changes the count by the difference, and the total by the line's new price × quantity minus its old one |
| Cart.ReducePriceIsSum | src/context/CartContext.jsx:102 | the left-to-right `reduce` over price × quantity from an accumulator is the accumulator plus the sum of the line totals |
| Cart.ReduceCountIsSum | src/context/CartContext.jsx:113 | the left-to-right `reduce` over quantities from an accumulator is the accumulator plus the sum of the quantities |
| Cart.TotalPrice | src/context/CartContext.jsx:101-103 | the total price is the sum of price × quantity over the lines, 0 for the empty cart |
| Cart.CartCount | src/context/CartContext.jsx:112-114 | the cart count is the sum of the quantities, 0 for the empty cart |
| Cart.SumsAppend | src/context/CartContext.jsx:101-114 | both sums are additive over concatenation |
| Cart.SumsUpdate | src/context/CartContext.jsx:101-114 | replacing one line changes each sum by exactly that line's difference |
| Cart.SumsPermutation | src/context/CartContext.jsx:101-114 | two carts holding the same lines in any order have the same total and the same count |
| Cart.CountAtLeastLines | src/context/CartContext.jsx:112-114 | when every quantity is at least 1, the count is at least the number of lines |
| Cart.TotalNonNegative | src/context/CartContext.jsx:101-103 | non-negative prices and positive quantities give a non-negative total |
| Cart.CountExample | src/context/CartContext.jsx:108 | lines of quantity 1 and 3 give a count of 4 |
| CartContext.CartStore.constructor | src/context/CartContext.jsx:23 | the cart starts empty and valid |
| CartContext.CartStore.AddToCart | src/context/CartContext.jsx:34-51 | the new cart is the add updater applied to the old one; validity is kept; the count rises by 1 |
| CartContext.CartStore.RemoveFromCart | src/context/CartContext.jsx:58-62 | the new cart is the old one filtered on the id; validity is kept |
| CartContext.CartStore.UpdateQuantity | src/context/CartContext.jsx:74-84 | a quantity of zero or less gives exactly the cart that a remove gives; a positive one overwrites the quantity of the matching line; validity is kept |
| CartContext.CartStore.ClearCart | src/context/CartContext.jsx:90-92 | the cart becomes empty and valid, and its total and count become 0 |
| CartContext.CartStore.GetTotalPrice | src/context/CartContext.jsx:101-103 | the total read from the store is the sum of price × quantity over the stored lines |
| CartContext.CartStore.GetCartCount | src/context/CartContext.jsx:112-114 | the count read from the store is the sum of the stored quantities, and in a valid cart at least the number of lines |
| ProductCard.Prefix | src/components/ProductCard.jsx:15 | `substring(0, end)` clamps `end` into 0 .. length and yields a prefix of that length |
| ProductCard.TruncateDescription | src/components/ProductCard.jsx:13-16 | a null, undefined or empty description gives ""; text no longer than the limit is returned unchanged; longer text gives its first limit characters (none for a negative limit) followed by "..."; the result is never longer than max(0, limit) plus 3 |
| ProductCard.TruncateWithDefault | src/components/ProductCard.jsx:13 | with the default limit of 100 the result is at most 103 characters long, and text of at most 100 characters is returned unchanged |
| ProductCard.TruncateIdempotent | src/components/ProductCard.jsx:13-16 | shortening an already shortened description returns it unchanged |

## Left out

- The React context, the provider component and re-rendering of subscribers (src/context/CartContext.jsx:10, 116-130): the `CartStore` object stands in for them. In the original a mutation only schedules a state update, which takes effect at the next render; the model's reads see the new cart immediately.
- The `useCart` hook's error when it is called outside a provider (src/context/CartContext.jsx:145-151): this is a framework lookup, not part of the engine.
- Floating-point arithmetic: prices and totals are exact reals, so rounding in the sums is not modelled.
- Quantities are integers. JavaScript would also accept fractional or `NaN` quantities in `updateQuantity`; the only caller passes integers.
- Quantities are unbounded integers here. JavaScript numbers lose integer precision above 2^53: there `item.quantity + 1` can leave a huge quantity unchanged and the count's `reduce` rounds, so the "one more unit" promises of `Cart.AddExisting`, `Cart.AddItemSums` and `CartContext.CartStore.AddToCart` hold only below that bound in the original.
- Products without an id: ids are integers here. In the original, `undefined === undefined` would merge all id-less products into one line.
- The spread `{ ...product, quantity: 1 }` is modelled as a pair of the product and the quantity. Extra fields a product may carry are not modelled.
- String length counts characters. JavaScript counts UTF-16 code units, so `substring` can split a surrogate pair.
- `truncateDescription` on a truthy non-string description, or a non-integer limit, is not modelled.
- The product fetch, loading and error state, the title-to-name mapping (src/pages/Products.jsx), all rendering in src/pages/Cart.jsx (the `toFixed(2)` formatting, the displayed 10% discount, the `parseInt(...) || 1` input parsing), the `alert` after adding (src/components/ProductCard.jsx:8-11) and the routing in src/App.jsx: these are I/O and presentation, not engine logic.
