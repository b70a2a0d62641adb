# Produce-basket storefront: cart, custom basket and checkout

This project models the client-side logic of a small storefront that sells produce baskets,
with prices in whole FCFA. Three parts are modelled:

- **The basket cart.** It is a sequence of lines `(basket snapshot, quantity)` keyed by basket id.
  The `addItem`, `removeItem`, `updateQuantity` and `clearCart` actions each compute a new
  sequence and commit it to one state cell. `getTotalPrice` and `getTotalItems` are folds over
  the committed lines.
- **The custom basket page.** It is a second selection over a fixed catalogue of ten
  vegetables. It has a case-insensitive name search, adds one unit at a time, and confirms the
  selection as an order whose item rows have no basket id.
- **The cart drawer's checkout.** It takes the cart through the user, non-empty-cart and phone
  guards, then inserts one `orders` row and one `order_items` row per line. It also handles
  the "Commander" and "continue shopping" buttons and the reset when the drawer closes.

Modules:

- `CartLines` holds the pure line algebra. Both selections use it: a custom-basket line
  `{...catalogueItem, quantity}` is a `CartItem(product, quantity)`.
- `CartContext` holds the cart provider as a class with an `items` field, and a replay of any
  run of actions.
- `Orders` holds the order and order-item rows, the store replies and the store's row log.
- `CartDrawer` and `CustomBasket` hold the two pages as classes over their own state fields.
- `Wrappers` and `Seqs` are small helpers.

Calls to the hosted store are oracle parameters of type `Reply<T>`: the data, or a thrown value
that reaches the handler's `catch`. These calls are the profile lookup, the order insert and
the item insert. The signed-in user is an `Option<User>` parameter. Navigation is a returned
`Route`.

In these places the code behaves differently from what a reader might expect, and the model follows the code:

- A successful drawer checkout does not clear the cart. Only "continue shopping" and
  "Vider le panier" clear it.
- `addItem` does not check its quantity. The cart invariant "quantity ≥ 1" holds only when every
  `addItem` passes at least 1, which the basket pages do.
- When the profile lookup fails without throwing, the code gets `data = null`. It then shows
  the missing-phone error; it does not report a lookup failure.
- The order row and its item rows are two separate inserts. If the item insert fails after the
  order insert succeeded, the store keeps an order with no items. The `SubmitOrder` and
  `ConfirmOrder` contracts state this case.

## Model

| member | source | states |
|---|---|---|
| `CartLines.Find` | src/contexts/CartContext.tsx:43 | finds a line exactly when some line has the id; the line returned has that id, and no earlier line does |
| `CartLines.Bump` | src/contexts/CartContext.tsx:45-49 | keeps the length and every product; lines with the id gain `delta`, the other quantities stay the same |
| `CartLines.AddItem` | src/contexts/CartContext.tsx:41-53 | id present: same length and products (the stored snapshot stays), `quantity` added to the matching line only; id absent: exactly the old lines plus `CartItem(product, quantity)` at the end |
| `CartLines.Remove` | src/contexts/CartContext.tsx:55-57 | a line is in the result exactly when it is in the cart and its id differs; the result is an order-preserving subsequence; no line has the id afterwards; absent id: no-op (how often each line occurs: `CartLines.RemoveCounts`) |
| `CartLines.RemoveCounts` | src/contexts/CartContext.tsx:56 | every line whose id differs occurs in the result as many times as in the cart, and lines with the id occur 0 times |
| `CartLines.RemoveAt` | src/contexts/CartContext.tsx:55-57 | with unique ids, removing the id of line `k` gives `items[..k] + items[k+1..]` |
| `CartLines.SetQuantity` | src/contexts/CartContext.tsx:64-68 | keeps the length and every product; matching lines take the new quantity, the others keep theirs |
| `CartLines.UpdateQuantity` | src/contexts/CartContext.tsx:59-69 | below 1 it equals `Remove`; otherwise only the matching lines' quantity becomes the new value, in place; absent id: no-op |
| `CartLines.UpdateQuantityIdempotent` | src/contexts/CartContext.tsx:59-69 | doing the same update twice gives the same lines as doing it once |
| `CartLines.Reduce` | src/contexts/CartContext.tsx:76-80 | the left fold `reduce` performs: from `acc`, add `f` of each line in cart order; its value is given by `CartLines.ReduceIsSum` |
| `CartLines.ReduceIsSum` | src/contexts/CartContext.tsx:75-81 | the `reduce` left fold from `acc` equals `acc` plus the reference sum |
| `CartLines.TotalPrice` | src/contexts/CartContext.tsx:75-77 | equals the sum of price × quantity over the lines |
| `CartLines.TotalItems` | src/contexts/CartContext.tsx:79-81 | equals the sum of the quantities |
| `CartLines.BumpTotals` | src/contexts/CartContext.tsx:43-50 | merging into the one matching line adds `delta` to the item count, and `delta` × the stored line's price to the price total |
| `CartLines.AddItemTotals` | src/contexts/CartContext.tsx:41-53 | with unique ids, `addItem(p, n)` raises the item total by exactly `n`, whether merged or appended; the price total rises by `n` × the stored price (merge) or `n` × `p.price` (append) |
| `CartLines.RemoveTotals` | src/contexts/CartContext.tsx:55-57 | with unique ids, removing line `k` lowers any line sum by exactly that line's share |
| `CartLines.AddItemKeepsInvariant` | src/contexts/CartContext.tsx:41-53 | `addItem` keeps one line per id for any quantity; with quantity ≥ 1 it also keeps every quantity ≥ 1 |
| `CartLines.RemoveKeepsInvariant` | src/contexts/CartContext.tsx:55-57 | `removeItem` keeps one line per id and every quantity ≥ 1 |
| `CartLines.UpdateQuantityKeepsInvariant` | src/contexts/CartContext.tsx:59-69 | `updateQuantity` keeps one line per id and every quantity ≥ 1, whatever quantity it is given |
| `CartContext.CartProvider.constructor` | src/contexts/CartContext.tsx:32-35 | the initial lines are the saved snapshot if there is one, else empty |
| `CartContext.CartProvider.AddItem` | src/contexts/CartContext.tsx:41-53 | commits `AddItem` of the old lines; with unique ids the item total rises by the quantity; keeps the invariant for quantity ≥ 1 |
| `CartContext.CartProvider.RemoveItem` | src/contexts/CartContext.tsx:55-57 | commits `Remove` of the old lines and keeps the invariant |
| `CartContext.CartProvider.UpdateQuantity` | src/contexts/CartContext.tsx:59-69 | commits `UpdateQuantity`; below 1 the result is `removeItem`; keeps the invariant |
| `CartContext.CartProvider.ClearCart` | src/contexts/CartContext.tsx:71-73 | the cart is empty and both totals are 0 |
| `CartContext.CartProvider.GetTotalPrice` | src/contexts/CartContext.tsx:75-77 | returns the sum of price × quantity over the current lines |
| `CartContext.CartProvider.GetTotalItems` | src/contexts/CartContext.tsx:79-81 | returns the sum of the current quantities |
| `CartContext.ReplayKeepsUniqueIds` | src/contexts/CartContext.tsx:41-73 | any run of actions keeps one line per id |
| `CartContext.ReplayKeepsWellFormed` | src/contexts/CartContext.tsx:41-73 | any run whose `addItem` quantities are all ≥ 1 keeps one line per id and every quantity ≥ 1 |
| `CartContext.FromEmptyCart` | src/contexts/CartContext.tsx:41-73 | from the empty cart, every run leaves one line per id; with positive adds, also every quantity ≥ 1 |
| `CartContext.MergeThenRemoveScenario` | src/contexts/CartContext.tsx:41-57 | adding a basket priced 1000 with quantity 2 then 1 gives one line of 3, and the total of that run is 3000; removing the line gives the empty cart, whose total is 0 |
| `Orders.ErrorText` | src/components/CartDrawer.tsx:129 | the text shown for a thrown value: an `Error`'s message, otherwise "Une erreur est survenue" (same rule at src/pages/CustomBasket.tsx:187) |
| `Orders.HasPhone` | src/components/CartDrawer.tsx:76 | the negation of the missing-phone guard: a profile row came back and its phone number is a non-empty string (same guard at src/pages/CustomBasket.tsx:144) |
| `Orders.NewOrder` | src/components/CartDrawer.tsx:92-104 | the order row is `pending`, its total is the sum of price × quantity over the cart, and it carries the user, the form choices and the profile's non-empty phone and email |
| `Orders.OrderItemRows` | src/components/CartDrawer.tsx:111-117 | one row per line, in order: the order id, the basket id (or none), the quantity, the unit price = stored price, and the line total = unit price × quantity |
| `Orders.ItemsTotalIsOrderTotal` | src/components/CartDrawer.tsx:102-117 | the item rows' line totals add up to the cart total, which is the order row's total |
| `Orders.OrderStore.InsertOrder` | src/components/CartDrawer.tsx:92-108 | the order row is stored only when the insert succeeds |
| `Orders.OrderStore.InsertOrderItems` | src/components/CartDrawer.tsx:119-123 | all item rows are stored when the insert succeeds, none when it throws |
| `CartDrawer.Drawer.constructor` | src/components/CartDrawer.tsx:18-25 | starts with home delivery, mobile money, empty address and notes, all flags false and no error |
| `CartDrawer.Drawer.SetOpen` | src/components/CartDrawer.tsx:28-38 | closing resets delivery to home, payment to mobile money, address and notes to empty, clears success, form and error; the cart and `isSubmitting` are untouched |
| `CartDrawer.Drawer.Checkout` | src/components/CartDrawer.tsx:40-47 | no user: closes the drawer and goes to login; if the drawer was open, the close reset runs, so no order form is shown; with a user: only the order form is shown |
| `CartDrawer.Drawer.ContinueShopping` | src/components/CartDrawer.tsx:56-60 | empties the cart, closes the drawer (with the close reset if it was open) and goes to the basket listing |
| `CartDrawer.Drawer.SubmitOrder` | src/components/CartDrawer.tsx:62-133 | no user or empty cart: nothing changes; otherwise `isSubmitting` ends false and the cart is never touched; a missing phone gives the profile prompt and no rows; the order row has the cart total and `pending`, the item rows follow the cart with basket ids; each thrown value's message becomes the error |
| `CustomBasket.CatalogueShape` | src/pages/CustomBasket.tsx:16-27 | the catalogue has 10 products, with pairwise distinct ids and positive prices |
| `CustomBasket.ToLower` | src/pages/CustomBasket.tsx:46 | keeps the length and lowers each character |
| `CustomBasket.NameMatches` | src/pages/CustomBasket.tsx:46 | the filter's test: the lower-cased name contains the lower-cased search term, with containment as `CustomBasket.Includes` states it |
| `CustomBasket.Includes` | src/pages/CustomBasket.tsx:46 | true exactly when the term occurs as a contiguous piece of the name |
| `CustomBasket.FilterByName` | src/pages/CustomBasket.tsx:45-47 | an order-preserving subsequence of the products; each product whose lower-cased name contains the lower-cased term occurs as many times as in the input, and every other product 0 times |
| `CustomBasket.EmptySearchKeepsAll` | src/pages/CustomBasket.tsx:45-47 | the empty term keeps every product |
| `CustomBasket.EmptySearchListsCatalogue` | src/pages/CustomBasket.tsx:45-47 | with an empty search the page lists all ten catalogue products |
| `CustomBasket.CustomBasketPage.constructor` | src/pages/CustomBasket.tsx:32-43 | starts with an empty selection and search, home delivery, mobile money and all flags cleared |
| `CustomBasket.CustomBasketPage.FilteredItems` | src/pages/CustomBasket.tsx:45-47 | the catalogue products matching the current search term, in catalogue order |
| `CustomBasket.CustomBasketPage.AddItem` | src/pages/CustomBasket.tsx:49-59 | a selected product gets exactly one more, with its snapshot kept; a new one is appended as the catalogue entry with quantity 1; nothing else on the page changes |
| `CustomBasket.CustomBasketPage.RemoveItem` | src/pages/CustomBasket.tsx:61-63 | filters the id out of the selection and keeps the invariant |
| `CustomBasket.CustomBasketPage.UpdateQuantity` | src/pages/CustomBasket.tsx:65-75 | below 1 it is `removeItem`; otherwise only the matching line's quantity changes |
| `CustomBasket.CustomBasketPage.GetTotalPrice` | src/pages/CustomBasket.tsx:77-79 | returns the sum of price × quantity over the selection |
| `CustomBasket.CustomBasketPage.ContinueShopping` | src/pages/CustomBasket.tsx:193-197 | clears success and recap and empties the selection |
| `CustomBasket.CustomBasketPage.ConfirmOrder` | src/pages/CustomBasket.tsx:130-191 | no user or empty selection: nothing changes; a missing phone sets "Numéro de téléphone non trouvé" and inserts nothing; the order total is the selection total; the item rows follow the selection with no basket id; the selection is emptied only when both inserts succeed and is kept on every thrown error; `isSubmitting` ends false |

## Left out

- Local-storage persistence of the cart (JSON serialise and parse, the write-through effect): this is browser storage and a library. The constructor takes the parsed snapshot as a value, and the serialise/reload round trip is not modelled.
- Rendering, `toLocaleString` price formatting, button timers and status colours: these are UI only.
- The order form's field setters (`onChange` handlers): each is a plain assignment to a public field of the page classes.
- `handleOrder` and `handleSavePhoneNumber` of the custom basket page (src/pages/CustomBasket.tsx:80-126): they check the user and the phone number and then open the recap or the phone-number modal. `handleSavePhoneNumber` also writes the phone number to the profile. The confirm step reads it back through the profile lookup, which is a given reply here, so the write itself is not modelled. The confirm and submit handlers repeat the user and phone checks themselves.
- The drawer's `handleProfileUpdate` (src/components/CartDrawer.tsx:49-53): it sets the session-storage "return to cart" flag, closes the drawer and opens the profile page. Session storage and navigation to the profile page are outside the model.
- The notification dispatch function under `supabase/functions`: it relays rows from the database to an e-mail API, and is outside the cart and checkout code. It reads at most 10 unprocessed queue rows, oldest first, through the database query. Each row is handled in its own `try/catch` that only logs a failure. The e-mail API's response is never checked. An outer `catch` answers with status 500.
- Supabase queries, the auth provider and the router: their outcomes are parameters (`Reply<T>`, `Option<User>`), and navigation is a returned `Route`.
- Interleaving: a handler's awaits are modelled as running without other UI events in between. The state a handler reads is therefore the state at submission.
- JavaScript `number`, which is a float: prices and quantities are mathematical integers.
- `CustomBasket.ToLower`: lower-cases only ASCII and Latin-1 capitals, not the whole Unicode case mapping of `toLowerCase`. The catalogue names are plain ASCII.
- `CartLines.AddItemTotals`: assumes one line per id. With duplicate ids, which no run from an empty cart produces, the increase becomes `n` times the number of matching lines.
- The order status lifecycle: no code here changes a status after `pending`.
