# Book Boutique Buddy: cart and checkout core in Dafny

This project models the client-side logic of a small React bookshop. It
covers these parts:

- **The cart store** (`CartContext`). It holds an ordered list of line items keyed by `id`.
  At start-up it is loaded from local storage: first the key `cart`, then the legacy keys `cartItems` and `panier`, and a legacy array it finds is migrated to `cart`.
  After every change it is written back to storage.
  Its actions are `addItem` (which merges into the line with the same id), `removeItem`, `updateQuantity` (a quantity of 0 or less is a removal) and `clearCart`.
  Its selectors are the total item count and the total price.
- **The checkout page** (`CheckoutPage`). It preselects an address and prices the three delivery tiers.
  `handleSubmit` resolves the shipping address, builds the order record, hands it to `createOrder`, and empties the cart only when that call reports no error.
- **The `useAddresses` and `useOrders` hooks** (`UseAddresses`, `UseOrders`). These model the local list each hook keeps, and how each action changes that list once the backend has answered.
  Each backend reply is an input: its data, its error and, for list queries, its HTTP status.
- **The display helpers**: `truncateText` and `formatAddress` (`Formatters`), the status badge and line total of the order history (`OrderHistory`), and the order lookup and delivery texts of the confirmation page (`OrderConfirmation`).

JavaScript values are modelled by `JsValues.Value`:

- An object is a map from property name to value, and the spread `{ ...a, ...b }` is the map union `a + b`.
- Truthiness, `??` and the idiom `Number(v) || d` are written out.
- Numbers are exact reals, so money is exact (the tiers cost 4.99, 3.99 and 9.99).

List operations keyed by `id` are defined once in `Records` and shared by the cart, the addresses and the orders: `findIndex`, `find`, `filter` on an id, `map` by id, and the insert row `{ user_id, ...data }`.

Where the code differs from what its comments and names suggest, the model follows the code:

- **`normalize` spreads the input last.** Any `price` or `quantity` field on the product therefore overrides the coerced value. It can be a non-numeric string, and it beats the `quantity` argument (`CartContext.TwoAddsOfOneProduct`).
- **Adding a known product resets missing metadata.** The merged record is the normalized product, which always has `name` and `price`. A product passed without them therefore sets the line's price to 0 and its name to undefined, instead of keeping the line's own (`CartContext.AddExistingMerges`).
- **`handleSubmit` has no empty-cart check.** An empty cart is turned away only by the page's render guard, which is not modelled.
- **An unknown delivery method is not rejected.** It costs 0.
- **`addItem(product, 0)` adds one**, because 0 is not nullish and then reaches `Number(q) || 1`.
- **Quantities can drop to 0 or below through `addItem`.** Only `updateQuantity` removes a line whose quantity is not positive. `addItem` with a negative quantity, or with a product carrying one, keeps a line of quantity 0 or less (`CartContext.NonPositiveAddsKeepLines`). Every quantity stays positive when each add uses a positive quantity (`CartContext.AddKeepsPositiveQuantities`).
- **`deleteAddress` has no signed-in check.**
- **`createOrder` can answer with no error and no row.** `handleSubmit` has then already cleared the cart when reading `order.id` throws (`FailedAfterClearing`).

## Model

Small definitions that each stand for one source expression have no row of their own: `JsValues.Truthy`, `Remote.HasUserId` (`user?.id`), `Remote.Passthrough` (`return { data, error }`), `CartContext.Persisted` (`setItem`), `CartContext.QuantityArg` (the default `quantity = 1`), `CartContext.LineQuantity` and `CartContext.LinePrice` (the reducer terms), and `CheckoutPage.OrderRecord` (the object literal). The rows that follow state what they mean. For example, `JsValues.FalsyValues` characterises `Truthy`, and `CartContext.ReloadAfterPersist` characterises `Persisted`.

| member | source | states |
|---|---|---|
| JsValues.FalsyValues | book-boutique-buddy/src/context/CartContext.jsx:52 | a value is falsy exactly when it is undefined, null, false, 0 or the empty string |
| JsValues.Coalesce | book-boutique-buddy/src/context/CartContext.jsx:40 | `v ?? d` is v or d, and always v when v is truthy |
| JsValues.CoalesceKeepsFalsy | book-boutique-buddy/src/context/CartContext.jsx:40 | undefined and null give the fallback, while 0, the empty string and false are kept |
| JsValues.ToNumber | book-boutique-buddy/src/context/CartContext.jsx:44 | a number is itself; a string that converts is non-negative; undefined and objects are NaN |
| JsValues.ParseNumber | book-boutique-buddy/src/context/CartContext.jsx:44 | `Number()` on a string: a result is never negative, and a digit string is its decimal value |
| JsValues.NumberOfSimpleValues | book-boutique-buddy/src/context/CartContext.jsx:44-45 | `Number()` gives 0 for the empty string and null, 12 for "12", 1 and 0 for true and false, NaN for undefined |
| JsValues.NumberOfDecimal | book-boutique-buddy/src/context/CartContext.jsx:44 | "24.90" converts to 24.9 |
| JsValues.NumberOfBareFraction | book-boutique-buddy/src/context/CartContext.jsx:44 | ".5" converts to 0.5, an empty integer part reading as 0 |
| JsValues.NumberOfText | book-boutique-buddy/src/context/CartContext.jsx:44 | "abc" and "1.2.3" are NaN |
| JsValues.NumberOr | book-boutique-buddy/src/context/CartContext.jsx:44-45 | the idiom Number(v) or-else d is the numeric value of v when it is numeric and nonzero, and d when v is NaN or 0; the result is never 0 unless d is |
| Records.FindIndex | book-boutique-buddy/src/context/CartContext.jsx:55 | the first index whose id is strictly equal, or -1 exactly when no entry has that id |
| Records.FindById | book-boutique-buddy/src/pages/CheckoutPage.jsx:71 | a found record is the first entry with the id (the entry at `findIndex`); nothing is found exactly when no entry has it |
| Records.WithoutId | book-boutique-buddy/src/context/CartContext.jsx:71 | filtering never lengthens the list |
| Records.WithoutIdCounts | book-boutique-buddy/src/context/CartContext.jsx:71 | filtering removes every record with the id and keeps every other record with its multiplicity |
| Records.WithoutIdAppend | book-boutique-buddy/src/hooks/useAddresses.js:108 | filtering distributes over concatenation, so the survivors keep their order |
| Records.WithoutAbsentId | book-boutique-buddy/src/context/CartContext.jsx:71 | filtering out an id no entry has returns the list unchanged |
| Records.WithoutIdHasNoId | book-boutique-buddy/src/hooks/useAddresses.js:108 | no entry with the id is left |
| Records.WithoutIdKeepsUniqueIds | book-boutique-buddy/src/context/CartContext.jsx:71 | filtering preserves unique ids |
| Records.SetFieldWhereId | book-boutique-buddy/src/hooks/useOrders.js:66-68 | same length; each entry with the id gets the field set, every other entry is unchanged |
| Records.SetFieldKeepsIds | book-boutique-buddy/src/context/CartContext.jsx:77 | setting a field other than id keeps every id, so unique ids stay unique |
| Records.SetFieldIdempotent | book-boutique-buddy/src/hooks/useOrders.js:66-68 | applying the same by-id field update twice equals applying it once |
| Records.ReplaceWhereId | book-boutique-buddy/src/hooks/useAddresses.js:97 | same length; entries with the id become the returned row, the others are unchanged |
| Records.ReplaceKeepsIds | book-boutique-buddy/src/hooks/useAddresses.js:97 | a replacement row carrying the same id keeps every id and unique ids |
| Records.WithUserId | book-boutique-buddy/src/hooks/useOrders.js:43-46 | the inserted row has every field of the data and `user_id`, the data's own `user_id` winning |
| CartContext.RehydratedCart | book-boutique-buddy/src/context/CartContext.jsx:8-12 | an array under `cart` is loaded as is; a non-array under `cart` gives [] without consulting legacy keys; storage is untouched in both cases |
| CartContext.MigrateFirstLegacyArray | book-boutique-buddy/src/context/CartContext.jsx:15-25 | the first legacy key holding an array is loaded and written under `cart` |
| CartContext.MigrateNothing | book-boutique-buddy/src/context/CartContext.jsx:15-26 | with no legacy array, or with a failing write, the result is [] and storage is untouched |
| CartContext.MigrateLegacy | book-boutique-buddy/src/context/CartContext.jsx:15-26 | the loaded items are [] or the array under one of the legacy keys; storage is either untouched or, when writable, gets exactly that array under `cart` |
| CartContext.FallbackMigratesFirstLegacyArray | book-boutique-buddy/src/context/CartContext.jsx:6-27 | with `cart` absent, blank or unparseable, the first of `cartItems`, `panier` holding an array is loaded and migrated |
| CartContext.FallbackWithoutLegacyArrayIsEmpty | book-boutique-buddy/src/context/CartContext.jsx:6-27 | with `cart` absent, blank or unparseable and no usable legacy key, the cart is empty and nothing is written |
| CartContext.ReadLocalCart | book-boutique-buddy/src/context/CartContext.jsx:6-27 | the loop with early returns loads and leaves in storage exactly what the rehydration rules above give |
| CartContext.Normalize | book-boutique-buddy/src/context/CartContext.jsx:39-48 | keys are the input's plus id, name, price, quantity; every input field wins; a missing price is 0, a missing quantity is Number(quantity ?? 1), or 1 when that is NaN or 0 |
| CartContext.Merge | book-boutique-buddy/src/context/CartContext.jsx:58-62 | the merged line has the keys of both records and quantity = (Number(old) or 0) + (Number(added) or 1) |
| CartContext.MergeFields | book-boutique-buddy/src/context/CartContext.jsx:58-62 | apart from the quantity, the added record's fields win and the existing line keeps its other fields |
| CartContext.AddItemTo | book-boutique-buddy/src/context/CartContext.jsx:52 | a product without a truthy id leaves the cart unchanged |
| CartContext.AddExistingMerges | book-boutique-buddy/src/context/CartContext.jsx:55-63 | for an id already present: same length and position, same id, product fields taken, quantity = old + added; a product without price or name resets the line's price to 0 and its name to undefined; the line's other own fields are kept; every other entry unchanged |
| CartContext.AddNewAppends | book-boutique-buddy/src/context/CartContext.jsx:65 | for a new id exactly the normalized product is appended, so unique ids stay unique |
| CartContext.AddKeepsUniqueIds | book-boutique-buddy/src/context/CartContext.jsx:55-65 | merging into a line or appending a new id keeps the ids unique |
| CartContext.ActionsKeepUniqueIds | book-boutique-buddy/src/context/CartContext.jsx:51-78 | add, remove and update all preserve unique ids |
| CartContext.AddZeroQuantityAddsOne | book-boutique-buddy/src/context/CartContext.jsx:40-45 | `addItem(product, 0)` for a new product without its own quantity appends a line of quantity 1 |
| CartContext.RemoveAbsentIsNoOp | book-boutique-buddy/src/context/CartContext.jsx:71 | removing an absent id leaves the cart unchanged |
| CartContext.UpdateQuantityIn | book-boutique-buddy/src/context/CartContext.jsx:74-78 | a quantity coercing to 0 or less leaves no entry with the id; a positive one keeps the length and every id in place |
| CartContext.UpdateNonPositiveRemoves | book-boutique-buddy/src/context/CartContext.jsx:74-76 | a quantity coercing to 0 or less is exactly `removeItem(id)`, and no entry with the id is left |
| CartContext.UpdatePositiveSetsQuantity | book-boutique-buddy/src/context/CartContext.jsx:74-77 | a positive quantity keeps the length; matching entries get that quantity and keep every other field; other entries are unchanged |
| CartContext.RemoveKeepsPositiveQuantities | book-boutique-buddy/src/context/CartContext.jsx:71-80 | `removeItem` and `clearCart` keep every line's quantity a positive number |
| CartContext.UpdateKeepsPositiveQuantities | book-boutique-buddy/src/context/CartContext.jsx:74-78 | `updateQuantity` keeps every line's quantity a positive number, however it is called |
| CartContext.AddKeepsPositiveQuantities | book-boutique-buddy/src/context/CartContext.jsx:39-65 | `addItem` with a positive quantity, of a product without a quantity field or with a positive one, keeps every quantity positive |
| CartContext.NonPositiveAddsKeepLines | book-boutique-buddy/src/context/CartContext.jsx:39-65 | adding quantity -2 to an empty cart opens a line of -2, and adding it to a line of 2 leaves a line of 0 |
| CartContext.PositiveQuantitiesCount | book-boutique-buddy/src/context/CartContext.jsx:83-84 | with every quantity positive the item count is non-negative, and positive for a non-empty cart |
| CartContext.EmptyCartTotals | book-boutique-buddy/src/context/CartContext.jsx:80-87 | both selectors are 0 on the empty cart, the one `clearCart` leaves |
| CartContext.TotalItems | book-boutique-buddy/src/context/CartContext.jsx:83-84 | the item count is non-negative when every line's quantity is |
| CartContext.TotalPrice | book-boutique-buddy/src/context/CartContext.jsx:86-87 | the total price is non-negative when every line's amount is |
| CartContext.SingleLineTotals | book-boutique-buddy/src/context/CartContext.jsx:83-87 | a one-line cart counts that line's quantity and amount |
| CartContext.TotalsAppend | book-boutique-buddy/src/context/CartContext.jsx:83-87 | item count and total price are additive over concatenation, i.e. sums over the lines |
| CartContext.TotalItemsAppend | book-boutique-buddy/src/context/CartContext.jsx:83-84 | the item count is additive over concatenation |
| CartContext.TotalPriceAppend | book-boutique-buddy/src/context/CartContext.jsx:86-87 | the total price is additive over concatenation |
| CartContext.TotalsUpdateAt | book-boutique-buddy/src/context/CartContext.jsx:83-87 | replacing one line changes each selector by exactly the difference of the two lines' contributions |
| CartContext.TotalItemsAfterAdd | book-boutique-buddy/src/context/CartContext.jsx:51-67 | `addItem` raises the item count by the merged amount, or by the new line's quantity |
| CartContext.AddMergesIntoSingleLine | book-boutique-buddy/src/context/CartContext.jsx:55-63 | a further add of a product whose line is last merges into that line, adding its quantity |
| CartContext.FirstAddOpensLine | book-boutique-buddy/src/context/CartContext.jsx:65 | the first add of a product not in the cart appends its line with the given quantity |
| CartContext.RepeatedAddsAccumulate | book-boutique-buddy/src/context/CartContext.jsx:51-67 | repeated adds of one new product leave one line for it, at the end, with the sum of the quantities |
| CartContext.SecondAddMerges | book-boutique-buddy/src/context/CartContext.jsx:39-67 | adding a record twice to the empty cart gives one line whose quantity is the sum and whose price is the second record's |
| CartContext.TwoAddsOfOneProduct | book-boutique-buddy/src/context/CartContext.jsx:39-67 | adding a product with quantity field 2 and again with 3 gives one line of 5 and a total of 50 at price 10 |
| CartContext.StoredCartReloads | book-boutique-buddy/src/context/CartContext.jsx:8-11 | storage whose `cart` key holds an array reloads exactly that array, in order, and writes nothing |
| CartContext.ReloadAfterPersist | book-boutique-buddy/src/context/CartContext.jsx:8-11 | after the items are written under `cart`, a reload gives back exactly those items, in order, and writes nothing |
| CartContext.ReadOnlyReload | book-boutique-buddy/src/context/CartContext.jsx:34-36 | with storage that refuses writes, a reload after any change gives what the untouched storage gives |
| CartContext.CartStore.constructor | book-boutique-buddy/src/context/CartContext.jsx:31-36 | the state starts as the rehydrated cart, then is persisted; with writable storage `cart` then holds exactly these items, so a reload restores them |
| CartContext.CartStore.Persist | book-boutique-buddy/src/context/CartContext.jsx:34-36 | `cart` in storage now holds the items, unless storage refuses writes; with writable storage `cart` holds exactly the items, so a reload restores them |
| CartContext.CartStore.AddItem | book-boutique-buddy/src/context/CartContext.jsx:51-67 | the items become the add update of the old items; storage is persisted except when the id is falsy; `cart` holds exactly the items whenever it did before or the add persisted |
| CartContext.CartStore.RemoveItem | book-boutique-buddy/src/context/CartContext.jsx:71 | the items become the old items without that id, and are persisted, so that `cart` holds exactly them |
| CartContext.CartStore.UpdateQuantity | book-boutique-buddy/src/context/CartContext.jsx:74-78 | the items become the update of the old items, removal included, and are persisted, so that `cart` holds exactly them |
| CartContext.CartStore.ClearCart | book-boutique-buddy/src/context/CartContext.jsx:80 | the items become [] and are persisted, so that `cart` holds exactly them |
| CheckoutPage.FindOption | book-boutique-buddy/src/pages/CheckoutPage.jsx:58 | the first option with that id, or none exactly when no option has it |
| CheckoutPage.DeliveryPrice | book-boutique-buddy/src/pages/CheckoutPage.jsx:58-60 | the delivery price is 0 or one of the three tier prices |
| CheckoutPage.TierIdsDistinct | book-boutique-buddy/src/pages/CheckoutPage.jsx:52-56 | the tier ids are pairwise distinct |
| CheckoutPage.TierPrice | book-boutique-buddy/src/pages/CheckoutPage.jsx:52-60 | the price looked up for a tier's id is that tier's table price |
| CheckoutPage.DeliveryPrices | book-boutique-buddy/src/pages/CheckoutPage.jsx:52-60 | the three tiers cost 4.99, 3.99 and 9.99, each table entry costs its price, any other method 0 |
| CheckoutPage.UnknownMethodIsFree | book-boutique-buddy/src/pages/CheckoutPage.jsx:58-60 | a method id outside the table costs 0 |
| CheckoutPage.FreeExactlyWhenUnknown | book-boutique-buddy/src/pages/CheckoutPage.jsx:58-60 | delivery is free exactly when no tier has the method id |
| CheckoutPage.OrderTotal | book-boutique-buddy/src/pages/CheckoutPage.jsx:59-61 | the total lies between the cart total and the cart total + 9.99, and equals the cart total exactly when the method is unknown |
| CheckoutPage.CheckoutTotalExample | book-boutique-buddy/src/pages/CheckoutPage.jsx:59-61 | one book at 24.90 with home delivery totals 29.89 |
| CheckoutPage.FirstDefaultIndex | book-boutique-buddy/src/pages/CheckoutPage.jsx:45 | the first address with a truthy `is_default`, or -1 exactly when there is none |
| CheckoutPage.PreselectedAddress | book-boutique-buddy/src/pages/CheckoutPage.jsx:43-50 | the id of the first default address, else of the first address; '' for no address |
| CheckoutPage.ResolveShippingAddress | book-boutique-buddy/src/pages/CheckoutPage.jsx:69-82 | a selected id found in the list gives the first saved address with that id; otherwise the manual address exactly when street, city and postal code are truthy; none otherwise |
| CheckoutPage.OrderData | book-boutique-buddy/src/pages/CheckoutPage.jsx:84-91 | the record has exactly the six fields, status pending, delivery price from the table and total = the order total shown on the page, i.e. cart total + delivery price |
| CheckoutPage.CheckoutForm.constructor | book-boutique-buddy/src/pages/CheckoutPage.jsx:26-35 | initial form: no address, home delivery, card, an empty address in France, not loading |
| CheckoutPage.CheckoutForm.PreselectAddress | book-boutique-buddy/src/pages/CheckoutPage.jsx:43-50 | the selection becomes the preselected address id |
| CheckoutPage.CheckoutForm.HandleSubmit | book-boutique-buddy/src/pages/CheckoutPage.jsx:63-107 | no user: redirect, nothing sent or changed; no address: abort before any order, cart and orders untouched; otherwise the order row sent is the order record plus user id; on error the cart is untouched, without error it is cleared and persisted; the cart changes only on the two no-error outcomes |
| UseAddresses.FetchedAddresses | book-boutique-buddy/src/hooks/useAddresses.js:28-49 | a non-empty list only comes from a non-404 reply without error, and such a reply's array becomes the list |
| UseAddresses.FetchError | book-boutique-buddy/src/hooks/useAddresses.js:28-47 | an error is kept exactly for a non-404 reply whose error is not about a missing table |
| UseAddresses.AddressBook.constructor | book-boutique-buddy/src/hooks/useAddresses.js:7-9 | empty list, not loading, no error |
| UseAddresses.AddressBook.FetchAddresses | book-boutique-buddy/src/hooks/useAddresses.js:11-51 | no user id: list emptied and no query; otherwise list and error as above, loading false |
| UseAddresses.AddressBook.AddAddress | book-boutique-buddy/src/hooks/useAddresses.js:58-76 | no user id: the not-signed-in error, nothing sent, list unchanged; otherwise the row sent has `user_id`, a row returned without error is prepended |
| UseAddresses.AddressBook.UpdateAddress | book-boutique-buddy/src/hooks/useAddresses.js:78-100 | no user id: the error, list unchanged; a row returned without error replaces the entries with the id |
| UseAddresses.AddressBook.DeleteAddress | book-boutique-buddy/src/hooks/useAddresses.js:102-110 | on success the id is filtered out, on error the list is unchanged |
| UseAddresses.UpdateLeavesOtherDefaults | book-boutique-buddy/src/hooks/useAddresses.js:81-98 | the local list keeps other addresses' `is_default`, so after making one address default another default can remain, at a different index |
| UseAddresses.DeleteFiltersId | book-boutique-buddy/src/hooks/useAddresses.js:108 | no entry with the id is left, order is kept, and an unknown id changes nothing |
| UseOrders.OrderBook.constructor | book-boutique-buddy/src/hooks/useOrders.js:6-7 | no orders, not loading |
| UseOrders.OrderBook.FetchOrders | book-boutique-buddy/src/hooks/useOrders.js:10-36 | no user: nothing happens and no query; otherwise returned rows replace the list and loading ends false |
| UseOrders.OrderBook.CreateOrder | book-boutique-buddy/src/hooks/useOrders.js:38-55 | no user: the error and the list unchanged; otherwise the row is the order data plus `user_id`, and a returned row is prepended |
| UseOrders.OrderBook.UpdateOrderStatus | book-boutique-buddy/src/hooks/useOrders.js:57-72 | a returned row sets the status on the matching orders; otherwise nothing changes |
| UseOrders.StatusUpdateTouchesOnlyStatus | book-boutique-buddy/src/hooks/useOrders.js:65-69 | same ids and length; matching orders differ only in status; the others are unchanged |
| UseOrders.InsertedOrderRow | book-boutique-buddy/src/hooks/useOrders.js:43-46 | the inserted order carries every field of the order data and the user id unless the data has its own |
| Formatters.Prefix | book-boutique-buddy/src/utils/formatters.js:25 | `substring(0, n)` is a prefix of length n clamped to the text |
| Formatters.TruncateText | book-boutique-buddy/src/utils/formatters.js:23-26 | a text within the limit is returned unchanged; a longer one becomes its first maxLength characters plus "...", length maxLength + 3 |
| Formatters.TruncateIdempotent | book-boutique-buddy/src/utils/formatters.js:23-26 | truncating twice with one limit equals truncating once |
| Formatters.TruncateDefaultIsFifty | book-boutique-buddy/src/utils/formatters.js:23 | the default limit is 50, so long texts become 53 characters |
| Formatters.TemplateText | book-boutique-buddy/src/utils/formatters.js:20 | a string is inserted as itself; any other value gives a non-empty text without a comma |
| Formatters.FormatAddress | book-boutique-buddy/src/utils/formatters.js:19-21 | with the four fields strings, the text is street, comma, city, postal code, comma, country |
| Formatters.BeforePrefix | book-boutique-buddy/src/utils/formatters.js:19-21 | a text that starts with a comma-free part followed by a comma has exactly that part before its first comma |
| Formatters.FormatAddressStartsWithStreet | book-boutique-buddy/src/utils/formatters.js:19-21 | a street without a comma is exactly the text before the first comma of the formatted address |
| OrderHistory.StatusColor | book-boutique-buddy/src/components/OrderHistory.jsx:13-24 | a status is known exactly when its class is not gray; the class is one of the four |
| OrderHistory.StatusText | book-boutique-buddy/src/components/OrderHistory.jsx:26-37 | an unknown status is shown unchanged; completed is shown as Terminée, pending as En cours and cancelled as Annulée |
| OrderHistory.KnownStatusesDistinguished | book-boutique-buddy/src/components/OrderHistory.jsx:13-37 | different known statuses get different classes and different labels |
| OrderHistory.LabelsCollideWithRawText | book-boutique-buddy/src/components/OrderHistory.jsx:26-37 | the raw status "Terminée" is shown like `completed` |
| OrderHistory.LineTotal | book-boutique-buddy/src/components/OrderHistory.jsx:85 | a number exactly when both factors coerce to numbers, and then their product |
| OrderHistory.LineTotalCases | book-boutique-buddy/src/components/OrderHistory.jsx:85 | numeric fields give price times quantity; a missing quantity gives NaN, not 0 |
| OrderConfirmation.ShownOrder | book-boutique-buddy/src/pages/OrderConfirmationPage.jsx:23-28 | with orders and a route id, an order is shown exactly when one has that id, and it is the first order with it; otherwise the shown order stays |
| OrderConfirmation.NumericIdsNeverMatchRoute | book-boutique-buddy/src/pages/OrderConfirmationPage.jsx:25 | the route id is a string compared strictly, so orders with numeric ids are never found |
| OrderConfirmation.DeliveryMethodName | book-boutique-buddy/src/pages/OrderConfirmationPage.jsx:53-64 | any value other than the three tier ids is returned unchanged |
| OrderConfirmation.MethodNamesMatchCheckout | book-boutique-buddy/src/pages/OrderConfirmationPage.jsx:53-64 | the name shown for every checkout tier id is that tier's name in the checkout table |
| OrderConfirmation.DelayText | book-boutique-buddy/src/pages/OrderConfirmationPage.jsx:183-185 | the 24h text exactly for express, the 2-3 working days text otherwise |
| OrderConfirmation.DelayTextMatchesCheckout | book-boutique-buddy/src/pages/OrderConfirmationPage.jsx:183-185 | for every checkout tier the text announces that tier's delay from the checkout table |

## Left out

- The backend (`supabase` queries) is not modelled: each reply is an input, and the regular expression that recognises a missing table is the flag `RemoteError.missingTable`.
- Clearing `is_default` on the other addresses before an insert or update happens only in the backend and is not modelled (useAddresses.js:61-66, 81-87).
- JSON encoding and decoding: local storage holds already-parsed values (blank, unparseable, non-array, array); a failing `setItem` is the `writable` flag. That flag is fixed for the store's whole lifetime, so a write that fails for one value and succeeds for another (a large `cartItems` migration failing and a smaller `panier` one then succeeding, CartContext.jsx:15-25) is not represented.
- React scheduling: each action's state update is applied at once; `useEffect` timing, the re-creation of `fetchAddresses` and `fetchOrders`, the loading and not-found states of the confirmation page and the page's render guards (no user, empty cart) are left out.
- `setTimeout` (the simulated payment), `alert`, `console.error` and `navigate` are side effects; `navigate` is the outcome of `HandleSubmit`.
- `formatPrice` and `formatDate` wrap locale formatting of `Intl` and `Date` and are not modelled.
- Floating-point arithmetic: numbers are exact reals, so rounding of sums such as 24.90 + 4.99 is not modelled.
- JsValues.ToNumber: `Number()` on strings accepts only unsigned decimals without exponent or surrounding spaces, and objects are always NaN. Arrays are not represented as values, so `Number([])` = 0 and `Number([7])` = 7 are not modelled, and array fields such as `images` or `order_items` cannot be held in a record.
- Records: object identity is compared structurally, and non-object entries in stored arrays are not represented.
- UseOrders.OrderBook.FetchOrders: the returned data is taken to be an array, as the query guarantees.
- Formatters.TruncateText: lengths count characters, not UTF-16 code units.
- Formatters.TemplateText: numbers inside the template are rendered by their floor, so fractional numbers are not formatted as JavaScript would: 2.5 renders as "2" instead of "2.5", and -2.5 as "-3" instead of "-2.5".
- `AddressManager.jsx` and the other pages are UI outside this model.
