# TechTopia cart and order state, modelled in Dafny

This project models the cart and order state of the TechTopia shop.

The first part is the state container `CartProvider` (app/context/CartContext.tsx). It holds three lists:
- the cart: line items keyed by `id`, where the id is the product plus the chosen colour;
- the active orders;
- the cancelled orders.

It indexes these lists by id and offers these operations:
- `addToCart`, `removeFromCart`, `updateQuantity` and `clearCart`;
- `placeOrder`, `cancelOrder`, `deleteCancelledOrder` and `reorderItems`;
- the derived `cartTotal` and `itemCount`;
- the start-up `loadData`, which resets everything when stored data fails to parse.

The second part is the cart page (app/cart/page.tsx):
- a set of selected line ids beside the cart and a select-all check box;
- the selected subset and its subtotal;
- the guard that stops checkout without a selection;
- the quantity buttons;
- the split of a line's name into a display name and a colour, done by regular expression.

Layout:
- `common.dfy` (`Common`): an `Option` type, and `Filter`, the model of `Array.prototype.filter`, with its laws.
- `cart_model.dfy` (`CartModel`): the datatypes `Product`, `CartItem`, `OrderStatus` and `Order`, and the pure function each provider operation applies to its old list. Money and quantities are integers; think of money as whole cents.
- `cart_laws.dfy` (`CartLaws`): how `cartTotal` and `itemCount` change under each operation, and the laws of removal and cancellation.
- `reorder.dfy` (`Reorder`): the JavaScript `Map` that `reorderItems` builds, modelled as a sequence of entries with distinct keys in insertion order. `Reordered` is that map's final content. `MergedFrom` is an independent description of the result: every existing line keeps its place and gains all incoming quantities, and new ids are appended in first-occurrence order. On a cart with distinct ids the map's result is proved to satisfy `MergedFrom`; its item count, total and uniqueness are proved as well.
- `cart_context.dfy` (`CartContext`): the class `CartProvider`. Its fields are replaced by methods whose contracts tie each new value to the functions above. The class invariant `Valid` (distinct line ids, quantities of at least 1, distinct ids in each order list) is kept by every operation except two. `LoadData` keeps it only when it resets; stored slots are taken as they are. `ReorderItems` keeps it only when every reordered item has quantity at least 1. `BuildItemsMap` runs the two `forEach` loops of `reorderItems`, `CopyIntoMap` and `MergeIntoMap`; `MergeItem` is the second loop's callback.
- `cart_page.dfy` (`CartPage`): the selection functions, the two findings below, and the class `Page` with the page's two state fields and its event handlers.
- `item_name.dfy` (`ItemName`): the leftmost-match semantics of the two regular expressions and ECMAScript `trim`, with round-trip lemmas for names built as `base(colour)`.

Where the code and the written design disagree, the model follows the code:
- `placeOrder` accepts an empty list.
- No operation is blocked before `isInitialized` becomes true.
- `reorderItems` first collapses cart lines that share an id. The later line's value is kept, at the earlier line's position.
- `deleteCancelledOrder` called with the original order id does not remove the cancelled record, because that record carries the new id (`CartLaws.DeleteByOriginalIdKeepsCopy`).

## Model

| member | source | states |
|---|---|---|
| `CartModel.AddItem` | app/context/CartContext.tsx:84-96 | known id: same lines, each with that id one higher, nothing else changed; new id: `WithQuantity(p, 1)`, the product's fields with quantity 1, appended; distinct ids and positive quantities preserved |
| `CartModel.RemoveItem` | app/context/CartContext.tsx:98-100 | exactly the lines with another id stay, in order, each as often as before; the id is gone; no-op for an absent id; keeps distinct ids and positive quantities |
| `CartModel.SetQuantity` | app/context/CartContext.tsx:102-113 | below 1 it is `RemoveItem`; otherwise the lines with that id take the quantity and every other field is kept |
| `CartModel.RemoveOrdered` | app/context/CartContext.tsx:130-135 | exactly the cart lines whose id is not among the ordered items stay, in order, each as often as before; no ordered id is left |
| `CartModel.FindOrder` | app/context/CartContext.tsx:142 | none exactly when no order has the id; otherwise the first order with it |
| `CartModel.RemoveOrder` | app/context/CartContext.tsx:157-161 | exactly the orders with another id stay, in order, each as often as before; the id is gone; no-op for an absent id; distinct ids preserved |
| `CartModel.UniqueAfterFilter` | app/context/CartContext.tsx:99 | dropping lines from a cart with distinct ids keeps them distinct |
| `CartModel.UniqueOrdersAfterFilter` | app/context/CartContext.tsx:152 | dropping orders from a list with distinct ids keeps them distinct |
| `CartModel.LineTotal` | app/context/CartContext.tsx:190 | one line's price × quantity; no contract of its own: `CartLaws.LineTotalOneMore` and `CartPage.LineTotalOneLess` give its change by one unit, `CartPage.LineTotalNonNegative` its sign |
| `CartModel.Total` | app/context/CartContext.tsx:189-192 | Σ price × quantity, also the `total` of a new order (app/context/CartContext.tsx:123); no contract of its own: its laws are `CartLaws.TotalAppend`, `CartLaws.TotalUpdate` and `CartLaws.TotalNonNegative` |
| `CartModel.ItemCount` | app/context/CartContext.tsx:194-197 | Σ quantity; no contract of its own: its laws are `CartLaws.ItemCountAppend`, `CartLaws.ItemCountUpdate` and `CartLaws.ItemCountAtLeastLines` |
| `CartModel.NewOrder` | app/context/CartContext.tsx:120-127 | the record `placeOrder` builds; no contract of its own: `CartContext.CartProvider.PlaceOrder` states its fields (the items copied, `Total(items)`, status processing, the tracking number), and `CartModel.AppendFreshOrder` that appending it keeps order ids distinct |
| `CartModel.CancelledCopy` | app/context/CartContext.tsx:145-150 | the order with a new id, status cancelled and a new date; no contract of its own: `CartLaws.CancelThenDelete` and `CartLaws.DeleteByOriginalIdKeepsCopy` show that it is found by the new id only |
| `CartLaws.TotalAppend` | app/context/CartContext.tsx:189-192 | `cartTotal` of a concatenation is the sum of the parts |
| `CartLaws.ItemCountAppend` | app/context/CartContext.tsx:194-197 | `itemCount` of a concatenation is the sum of the parts |
| `CartLaws.TotalUpdate` | app/context/CartContext.tsx:189-192 | replacing one line changes the total by the difference of the two line totals |
| `CartLaws.ItemCountUpdate` | app/context/CartContext.tsx:194-197 | replacing one line changes the count by the difference of the quantities |
| `CartLaws.TotalNonNegative` | app/context/CartContext.tsx:189-192 | with non-negative prices and quantities the total is non-negative |
| `CartLaws.ItemCountAtLeastLines` | app/context/CartContext.tsx:194-197 | with every quantity at least 1 the count is at least the number of lines |
| `CartLaws.AddExistingIsUpdate` | app/context/CartContext.tsx:86-93 | with distinct ids, adding a known product bumps its one line |
| `CartLaws.AddExistingAggregates` | app/context/CartContext.tsx:84-96 | adding a known product raises `itemCount` by 1 and `cartTotal` by the stored price of its line |
| `CartLaws.AddNewAggregates` | app/context/CartContext.tsx:94 | adding a new product raises `itemCount` by 1 and `cartTotal` by its price |
| `CartLaws.AddTimesFromEmpty` | app/context/CartContext.tsx:84-96 | n adds of one product to an empty cart give one line of quantity n |
| `CartLaws.RemoveItemIdempotent` | app/context/CartContext.tsx:98-100 | removing an id twice is removing it once |
| `CartLaws.SetZeroIsRemove` | app/context/CartContext.tsx:103-106 | setting quantity 0 is removing the line |
| `CartLaws.RemoveOrderIdempotent` | app/context/CartContext.tsx:157-161 | deleting a cancelled record twice is deleting it once |
| `CartLaws.CancelThenDelete` | app/context/CartContext.tsx:140-161 | deleting the cancelled record by its new id restores the cancelled list as before the cancellation |
| `CartLaws.DeleteByOriginalIdKeepsCopy` | app/context/CartContext.tsx:145-159 | deleting by the original order id leaves the cancelled record in place |
| `Reorder.IndexOf` | app/context/CartContext.tsx:174-175 | the first position whose entry has the id, or none exactly when the key is absent |
| `Reorder.MapGet` | app/context/CartContext.tsx:175 | `get` of a present key yields an entry with that key |
| `Reorder.MapSet` | app/context/CartContext.tsx:169 | `Map.prototype.set` on the entry sequence; no contract of its own: `Reorder.MapSetFacts` states it |
| `Reorder.MapSetFacts` | app/context/CartContext.tsx:176-181 | `set` overwrites a present key in place and appends an absent one; other entries unchanged; keys stay distinct |
| `Reorder.Dedup` | app/context/CartContext.tsx:168-170 | the map after the first loop; no contract of its own: `Reorder.DedupOfUnique`, `Reorder.DedupUnique` and `Reorder.DedupPositive` state it |
| `Reorder.MergedEntry` | app/context/CartContext.tsx:174-181 | the entry stored for an incoming item: the existing entry with the quantities added, or the item itself; no contract of its own: `Reorder.MergeOneShape` states the step it makes |
| `Reorder.MergeOne` | app/context/CartContext.tsx:173-183 | one callback of the second loop; no contract of its own: `Reorder.MergeOneShape`, `Reorder.MergeOneItemCount`, `Reorder.MergeOneTotal` and `Reorder.MergeOnePriced` state it |
| `Reorder.MergeAll` | app/context/CartContext.tsx:173-183 | the map after the second loop; no contract of its own: `Reorder.MergeAllDescribed`, `Reorder.MergeAllUnique`, `Reorder.MergeAllItemCount`, `Reorder.MergeAllTotal` and `Reorder.MergeAllPositive` state it |
| `Reorder.Reordered` | app/context/CartContext.tsx:163-187 | the new cart; no contract of its own: `Reorder.ReorderedDescribed`, `Reorder.ReorderedUnique`, `Reorder.ReorderedItemCount`, `Reorder.ReorderedTotal` and `Reorder.ReorderedPositive` state it |
| `Reorder.MergeOneShape` | app/context/CartContext.tsx:173-183 | one merge step is an in-place quantity update or an append |
| `Reorder.DedupOfUnique` | app/context/CartContext.tsx:168-170 | copying a cart with distinct ids into the map gives the cart back |
| `Reorder.DedupUnique` | app/context/CartContext.tsx:168-170 | the copied cart has distinct keys whatever the cart was |
| `Reorder.MergeAllDescribed` | app/context/CartContext.tsx:173-183 | the merged map satisfies `MergedFrom`: existing entries keep their place and gain all incoming quantities; new ids appear once, in first-occurrence order, with the fields of their first occurrence and the sum of their quantities |
| `Reorder.ReorderedDescribed` | app/context/CartContext.tsx:163-187 | on a cart with distinct ids, `reorderItems` yields exactly the `MergedFrom` description |
| `Reorder.MergeAllUnique` | app/context/CartContext.tsx:173-183 | merging keeps keys distinct |
| `Reorder.ReorderedUnique` | app/context/CartContext.tsx:163-187 | the reordered cart has distinct ids |
| `Reorder.MapSetItemCount` | app/context/CartContext.tsx:176-181 | `set` changes the count by the new entry's quantity less that of the entry it overwrites |
| `Reorder.MergeOneItemCount` | app/context/CartContext.tsx:173-183 | one merge step adds the incoming quantity to the count |
| `Reorder.MergeAllItemCount` | app/context/CartContext.tsx:173-183 | merging adds all incoming quantities to the count |
| `Reorder.ReorderedItemCount` | app/context/CartContext.tsx:163-197 | on a cart with distinct ids, `itemCount` after reordering is the old count plus the items' quantities |
| `Reorder.MergeOnePriced` | app/context/CartContext.tsx:176-179 | a merge step keeps every line at the price of its id |
| `Reorder.MapSetTotal` | app/context/CartContext.tsx:176-181 | `set` changes the total by the new entry's line total less that of the entry it overwrites |
| `Reorder.MergeOneTotal` | app/context/CartContext.tsx:173-183 | with one price per id, a merge step adds the item's line total |
| `Reorder.MergeAllTotal` | app/context/CartContext.tsx:173-183 | with one price per id, merging adds the items' total |
| `Reorder.ReorderedTotal` | app/context/CartContext.tsx:163-192 | on a cart with distinct ids and one price per id, `cartTotal` after reordering is the old total plus the items' total |
| `Reorder.DedupPositive` | app/context/CartContext.tsx:168-170 | copying positive lines keeps them positive |
| `Reorder.MergeAllPositive` | app/context/CartContext.tsx:173-183 | merging positive items keeps lines positive |
| `Reorder.ReorderedPositive` | app/context/CartContext.tsx:163-187 | reordering positive items into a positive cart keeps all quantities at least 1 |
| `Reorder.ReorderAddsQuantities` | app/context/CartContext.tsx:174-179 | a line of quantity 3 reordered with quantity 2 becomes quantity 5 |
| `Reorder.DedupSnoc` | app/context/CartContext.tsx:168-170 | one more iteration of the first loop is one more `set` |
| `Reorder.MergeAllSnoc` | app/context/CartContext.tsx:173-183 | one more iteration of the second loop is one more merge step |
| `CartContext.CartProvider.Valid` | app/context/CartContext.tsx:84-113 | the class invariant: distinct line ids (one line per id, as `addToCart` bumps or appends), quantities of at least 1 (as `updateQuantity` removes below 1), distinct ids in each order list; no contract of its own: the methods below keep it |
| `CartContext.CartProvider.constructor` | app/context/CartContext.tsx:45-48 | empty lists, not initialized, invariant holds |
| `CartContext.CartProvider.LoadData` | app/context/CartContext.tsx:51-73 | any slot that fails to parse resets all three lists; otherwise each stored slot replaces its list and a missing one keeps it; initialized afterwards |
| `CartContext.CartProvider.AddToCart` | app/context/CartContext.tsx:84-96 | cart becomes `AddItem`; nothing else changes; invariant kept |
| `CartContext.CartProvider.RemoveFromCart` | app/context/CartContext.tsx:98-100 | cart becomes `RemoveItem`; nothing else changes; invariant kept |
| `CartContext.CartProvider.UpdateQuantity` | app/context/CartContext.tsx:102-113 | cart becomes `SetQuantity`, a removal below 1; nothing else changes; invariant kept |
| `CartContext.CartProvider.ClearCart` | app/context/CartContext.tsx:115-117 | the cart is empty; nothing else changes |
| `CartContext.CartProvider.PlaceOrder` | app/context/CartContext.tsx:119-138 | returns a processing order of exactly the items, priced at their total, appended to the orders; ordered ids leave the cart; order ids stay distinct |
| `CartContext.CartProvider.CancelOrder` | app/context/CartContext.tsx:140-156 | unknown id: no change; known id: every order with it leaves the active list and one cancelled copy with a fresh id, the new date and status cancelled is appended; the old id never remains active |
| `CartContext.CartProvider.DeleteCancelledOrder` | app/context/CartContext.tsx:157-161 | the cancelled list loses exactly the records with that id; nothing else changes |
| `CartContext.CartProvider.ReorderItems` | app/context/CartContext.tsx:163-187 | cart becomes `Reordered`; ids distinct; invariant kept for positive items |
| `CartContext.BuildItemsMap` | app/context/CartContext.tsx:165-186 | the two loops compute `Reordered(cart, items)` |
| `CartContext.CopyIntoMap` | app/context/CartContext.tsx:168-170 | the first loop leaves the map `Dedup(cart)` |
| `CartContext.MergeIntoMap` | app/context/CartContext.tsx:172-183 | the second loop leaves the map `MergeAll(start, items)` |
| `CartContext.MergeItem` | app/context/CartContext.tsx:173-182 | one callback of the second loop performs exactly one merge step `MergeOne` |
| `CartContext.CartProvider.CartTotal` | app/context/CartContext.tsx:189-192 | `cartTotal`; under the invariant and with non-negative prices it is never negative |
| `CartContext.CartProvider.ItemCountOf` | app/context/CartContext.tsx:194-197 | `itemCount`; under the invariant it is at least the number of cart lines |
| `CartPage.Toggle` | app/cart/page.tsx:48-55 | membership of exactly the toggled id flips; every other id is unchanged |
| `CartPage.ToggleTwice` | app/cart/page.tsx:48-55 | toggling twice restores the selection |
| `CartPage.CartIdSetSize` | app/cart/page.tsx:63 | `CartIdSet`, the set of the cart's ids, has one element per line when the ids are distinct |
| `CartPage.SelectedOf` | app/cart/page.tsx:74-76 | exactly the lines whose id is selected, in cart order, each as often as in the cart |
| `CartPage.SelectedTotalFrom` | app/cart/page.tsx:69-71 | the `reduce` of `calculateSelectedTotal`; no contract of its own: `CartPage.SelectedTotalFromIsTotal` and `CartPage.SelectedTotalFromBound` state it |
| `CartPage.SelectedTotalFromIsTotal` | app/cart/page.tsx:68-72 | the `reduce` adds the total of the selected lines to its start value |
| `CartPage.SelectedTotal` | app/cart/page.tsx:68-72 | the subtotal is the total of exactly the lines `getSelectedItems` returns |
| `CartPage.SelectedTotalBound` | app/cart/page.tsx:68-72 | with non-negative prices and quantities the subtotal is at most `cartTotal` |
| `CartPage.SelectEverythingOrNothing` | app/cart/page.tsx:59-66 | selecting every id picks the whole cart and its total; selecting none picks nothing |
| `CartPage.SelectAllFlagAsWritten` | app/cart/page.tsx:56 | the size comparison as written; no contract of its own: `CartPage.SelectAllFlagAsWrittenWrong` and `CartPage.FlagAgreesWithoutStaleIds` state where it is wrong and where it is right |
| `CartPage.AllSelected` | app/cart/page.tsx:56 | true exactly when the selection picks the whole cart |
| `CartPage.AllSelectedIds` | app/cart/page.tsx:56 | all lines are selected exactly when the cart's id set is contained in the selection |
| `CartPage.SelectAllFlagAsWrittenWrong` | app/cart/page.tsx:56 | a stale id lets the size test tick the box while a line is unselected |
| `CartPage.FlagAgreesWithoutStaleIds` | app/cart/page.tsx:56 | without stale ids the size test and the intended test agree |
| `CartPage.CheckoutAsWritten` | app/cart/page.tsx:79-81 | the guard as written; no contract of its own: `CartPage.CheckoutAsWrittenHandsOffNothing` and `CartPage.CheckoutAgreesWithoutStaleIds` state where it is wrong and where it is right |
| `CartPage.CheckoutAsWrittenHandsOffNothing` | app/cart/page.tsx:79-81 | a stale id lets the written guard hand off an empty list |
| `CartPage.Checkout` | app/cart/page.tsx:78-83 | no hand-off exactly when no line is selected; otherwise the selected lines, never empty |
| `CartPage.CheckoutAgreesWithoutStaleIds` | app/cart/page.tsx:79 | without stale ids the written guard and the intended one agree |
| `CartPage.DecrementAggregates` | app/cart/page.tsx:189-190 | the enabled decrement lowers its line by one: count drops by 1, total by the line's price, no line leaves |
| `CartPage.IncrementAggregates` | app/cart/page.tsx:200 | the increment raises its line by one: count up by 1, total by the line's price |
| `CartPage.Page.constructor` | app/cart/page.tsx:21-22 | empty selection, box unticked |
| `CartPage.Page.ToggleItemSelection` | app/cart/page.tsx:48-57 | the selection becomes `Toggle` of the old one; the box shows whether every line is selected |
| `CartPage.Page.ToggleSelectAll` | app/cart/page.tsx:59-66 | ticked: selection emptied; unticked: selection becomes `CartIdSet`, exactly the ids of the cart's lines; the box flips |
| `CartPage.Page.GetSelectedItems` | app/cart/page.tsx:74-76 | exactly the selected lines, in cart order, each as often as in the cart |
| `CartPage.Page.CalculateSelectedTotal` | app/cart/page.tsx:68-72 | the total of `getSelectedItems` |
| `CartPage.Page.HandleCheckout` | app/cart/page.tsx:78-83 | nothing when no line is selected; otherwise exactly the selected lines |
| `CartPage.Page.RemoveLine` | app/cart/page.tsx:178 | the line leaves the cart and the selection is left as it was |
| `CartPage.Page.DecreaseQuantity` | app/cart/page.tsx:189-190 | disabled at quantity 1 or less; otherwise quantity minus one; never drops a line, keeps quantities positive |
| `CartPage.Page.IncreaseQuantity` | app/cart/page.tsx:200 | quantity plus one through `updateQuantity` |
| `ItemName.TrimStart` | app/cart/page.tsx:140 | a suffix of the input, all cut characters white space, not starting with white space |
| `ItemName.TrimEnd` | app/cart/page.tsx:140 | a prefix of the input, all cut characters white space, not ending with white space |
| `ItemName.Trim` | app/cart/page.tsx:140 | a middle part of the input with only white space cut on either side and none left at its ends |
| `ItemName.TrimIdempotent` | app/cart/page.tsx:140 | trimming twice is trimming once |
| `ItemName.FirstGroupFrom` | app/cart/page.tsx:138-140 | the leftmost start, from a position on, of a trailing group, or none when there is no such start |
| `ItemName.GroupStart` | app/cart/page.tsx:138-140 | the leftmost start of a trailing `(`…`)` group with no `)` inside |
| `ItemName.ColorName` | app/cart/page.tsx:138-139 | none exactly when no non-empty trailing group exists; otherwise the non-empty, `)`-free content of the leftmost one |
| `ItemName.DisplayName` | app/cart/page.tsx:140 | with no trailing group, the name less white space at both ends; with one, the part before the leftmost group less white space at both ends; never begins or ends with white space |
| `ItemName.LabelledGroupStart` | app/cart/page.tsx:138-140 | in `base(x)` the group starts right after `base` |
| `ItemName.ColorOfLabelled` | app/cart/page.tsx:138-139 | `base(x)` with non-empty `)`-free `x` has colour `x` |
| `ItemName.DisplayOfLabelled` | app/cart/page.tsx:140 | `base(x)` displays as trimmed `base` |
| `ItemName.PlainName` | app/cart/page.tsx:138-140 | a name not ending in `)` has no colour and displays trimmed |
| `ItemName.YearReadsAsColor` | app/cart/page.tsx:138-139 | hypothetical: a name carrying a bracketed year, such as "Dell XPS 15 (2024)", would report the year "2024" as its colour |

## Left out

- Local-storage and session-storage I/O and JSON (app/context/CartContext.tsx:75-82, app/cart/page.tsx:81). `LoadData` takes each slot as missing, unparsable or parsed. The save effect is not modelled. `HandleCheckout` returns the list it would write.
- Clock and random values: `Date.now()`, `Math.random()` and `toISOString()` in ids, tracking numbers and dates are passed in as parameters.
- CartContext.CartProvider.PlaceOrder: requires the passed-in order id to be new among the active orders. The clock-derived id in the source only makes that likely.
- CartContext.CartProvider.CancelOrder: requires the passed-in cancelled id to be new in both lists. The time-and-random id in the source only makes that likely.
- Floating-point money: prices and totals are integers.
- React scheduling: operations run one after another. The `setCancelledOrders` call nested in the `setOrders` updater, including its double run under StrictMode, is not modelled.
- Parsed storage content is taken to have the declared shapes. Nothing checks the parsed JSON against the types.
- Rendering, routing and the loading skeleton of the cart page (app/cart/page.tsx:24-46, 82, 88-293).
- The select-all flag is recomputed only by the two toggle handlers, as in the source. Removing a line leaves both the flag and the selection as they were (`CartPage.Page.RemoveLine`).
- CartPage.Page.ToggleItemSelection: stores the intended select-all flag (`CartPage.AllSelected`), not the size comparison as written. See Findings.
- CartPage.Page.HandleCheckout: uses the intended empty-selection guard (`CartPage.Checkout`), not the size test as written. See Findings.
- The checkout page is not part of this model, beyond its reading of the hand-off.
- Strings are sequences of Unicode scalar values. UTF-16 surrogate pairs in names are not modelled.

## Findings

| source | as written | input that shows it | evidently intended | confidence | as-written member | corrected member |
|---|---|---|---|---|---|---|
| app/cart/page.tsx:79 | checkout is refused only when the id set is empty; removing a line never prunes its id from the selection | selection {id of a removed line}, cart [b]: an empty list is handed to checkout | no hand-off when no line of the cart is selected | not executed; high that the input is reachable (select a line, then remove it) | `CartPage.CheckoutAsWritten`, shown by `CartPage.CheckoutAsWrittenHandsOffNothing` | `CartPage.Checkout` (see `CartPage.CheckoutAgreesWithoutStaleIds`) |
| app/cart/page.tsx:56 | the select-all box is ticked when the selection has as many ids as the cart has lines | lines a and b, stale id c selected, tick a: the box is ticked while b is unselected | ticked exactly when every line is selected | not executed; high that the input is reachable (select c, remove c, tick a) | `CartPage.SelectAllFlagAsWritten`, shown by `CartPage.SelectAllFlagAsWrittenWrong` | `CartPage.AllSelected` (see `CartPage.FlagAgreesWithoutStaleIds`) |
