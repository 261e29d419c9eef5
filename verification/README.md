# ShopSphere order, cart and address core in Dafny

This project models three parts of the ShopSphere backend and proves what each one guarantees.

1. **Order cancellation and the store status machine** (`src/controllers/orders.seller.controller.js`).
   - `cancelOrder` lets a customer or a seller cancel lines of a multi-store order. For each cancelled line it:
     - restocks the product;
     - refunds the line's subtotal;
     - cancels a store once all its lines are cancelled, and refunds that store's delivery charge;
     - otherwise recomputes the store's total, commission and seller amount.
   - It then recomputes the order totals and appends one entry to the cancellation history.
   - `updateStoreOrderStatus` moves the seller's own store one step along pending → confirmed → prepared. The parent order status follows once every store agrees.
2. **The cart engine** (`src/controllers/cart.controller.js`). A customer's cart is a list of lines keyed by product, colour and size. The handlers add, set quantity, remove, batch-remove, clear, sync a local cart in, and join the cart with the product catalogue.
3. **The address book** (`src/controllers/address.controller.js`). A user's list of addresses, each carrying a default-shipping and a default-billing flag. The operations are add, update, delete and set-default.

Modules:

| module | file | contents |
|---|---|---|
| `Common` | `common.dfy` | shared building blocks: `Option`/`Result`, money in integer cents, optional JSON strings (`Attr`), and the `SumOf` fold with its lemmas |
| `Cart` | `cart.dfy` | the cart handlers |
| `Addresses` | `address.dfy` | the address helpers and the `AddressBook` class |
| `Orders` | `orders.dfy` | the order document and its totals |
| `StoreStatusMachine` | `store_status.dfy` | `updateStoreOrderStatus` |
| `Cancellation` | `cancellation.dfy` | `cancelOrder` as specification functions, plus the imperative handler `CancelOrder` proved to compute them |
| `CancellationProofs` | `cancellation_proofs.dfy` | money conservation, stock conservation and idempotence of re-cancellation |

How the source's mechanics are represented:

- **Document reads and writes.**
  - Cart and order handlers read one document, change it in memory and write it back. They are modelled as functions, or as methods where the source loops, from the stored document to the written document or a failure.
  - The stored document is an `Option`: `None` means the customer has no cart, or no order has that id.
  - The address handlers change the user's `addresses` array in place through `$push`, `$pull` and positional `$set`. They are methods of the class `AddressBook`, which holds that array in a field.
- **Parameters.** The current time (`now`), freshly generated ObjectIds, the product stock (a map from product id to stock) and the fetched product list are parameters.
- **Money** is integer cents. The commission is `total * percent / 100`, rounded half up to the cent.
- **The cash fee rule.** `cancelOrder` refunds the cash payment fee whenever every store ends up cancelled, even when all of them already were (see "## Findings"). The cancellation functions take a `FeeRule`:
  - `AsWritten` is the handler as written; the imperative `CancelOrder` is proved to compute it;
  - `Corrected` refunds the fee only on the cancellation that cancels the last store.
  Each lemma about a whole call says which rule it covers.

## Model

| member | source | states |
|---|---|---|
| Cart.ItemsMatchIsKeyEquality | src/controllers/cart.controller.js:7-14 | two lines match exactly when their (product, colour or null, size or null) keys are equal; matching is reflexive and symmetric |
| Cart.FalsyVariantsMatch | src/controllers/cart.controller.js:10-11 | an absent, a null and an empty colour or size are the same variant |
| Cart.NewLine | src/controllers/cart.controller.js:64-74 | the appended line has the requested quantity and the key built from the request's truthy colour and size |
| Cart.Save | src/controllers/cart.controller.js:89-102 | the upsert writes the items and `updatedAt`; `createdAt` is set only when the cart document is new |
| Cart.FindMatch | src/controllers/cart.controller.js:77-79 | the first line with the key, or "not found" when no line has it |
| Cart.Merge | src/controllers/cart.controller.js:76-87 | with a matching line, the first match (`findIndex`) grows by the quantity and nothing else changes; without one, the line is appended at the end |
| Cart.MergeQuantity | src/controllers/cart.controller.js:81-87 | a merge adds the quantity to its own variant and to no other variant |
| Cart.MergeKeys | src/controllers/cart.controller.js:81-87 | a merge keeps every existing key in place and adds the line's key |
| Cart.MergeKeepsUnique | src/controllers/cart.controller.js:76-87 | a merge never creates two matching lines |
| Cart.GetCartProducts | src/controllers/cart.controller.js:21-35 | a customer without a cart gets an empty cart created and an empty list; otherwise the stored lines are returned |
| Cart.AddProductOnCart | src/controllers/cart.controller.js:48-104 | a missing product id or a zero quantity is refused. Otherwise each variant's quantity grows by the request for its own key only, the key set gains the key, and uniqueness of keys is preserved |
| Cart.UpdateCartItem | src/controllers/cart.controller.js:117-170 | the error paths come in the source's order. On success the first line of the variant gets the new quantity and every other line and field is unchanged, so every other variant's quantity and every key is kept; in a cart without duplicates the variant then holds exactly the new quantity |
| Cart.RemoveMatching | src/controllers/cart.controller.js:196-203 | exactly the lines of other variants survive, and the variant is gone |
| Cart.RemoveMatchingAppend | src/controllers/cart.controller.js:203 | removal keeps the surviving lines in their order (it distributes over concatenation) |
| Cart.RemoveAbsentKey | src/controllers/cart.controller.js:203 | removing a variant the cart does not hold leaves the list unchanged |
| Cart.RemoveMatchingIdempotent | src/controllers/cart.controller.js:203 | removing twice is removing once |
| Cart.RemoveFromCart | src/controllers/cart.controller.js:184-213 | a missing cart is 404; otherwise the written items are exactly the stored lines of other variants, in their order (the filter `RemoveMatching`), and the variant is gone |
| Cart.ClearCart | src/controllers/cart.controller.js:227-236 | the cart becomes empty; an upserted new document gets no `createdAt` |
| Cart.MergeInPlace | src/controllers/cart.controller.js:276-290 | the in-place increment of the matching line, or push of a new one, computes the merge |
| Cart.SyncStep | src/controllers/cart.controller.js:265-291 | merging one more local line extends the sync invariant by that line |
| Cart.SyncStepQuantity | src/controllers/cart.controller.js:276-290 | merging one more local line adds its quantity to its own variant and to no other |
| Cart.MergeAllSynced | src/controllers/cart.controller.js:265-291 | merging the first n local lines one by one gives each variant its server quantity plus its local quantities so far, with server lines in place |
| Cart.MergeAllFolds | src/controllers/cart.controller.js:265-291 | merging the whole local cart adds each variant's local quantities to its server quantity, unites the keys, keeps server lines in place and keeps keys unique |
| Cart.SyncCart | src/controllers/cart.controller.js:251-307 | the written document is the server lines with the local lines merged in one by one, in order. Each variant's quantity is its server quantity plus the sum of its local quantities, the keys are the server's plus the local ones, server lines keep their positions, and uniqueness is preserved |
| Cart.FindProduct | src/controllers/cart.controller.js:343-345 | the product found has the requested id; "none" exactly when no product has it |
| Cart.Join | src/controllers/cart.controller.js:341-364 | the join is never longer than the cart, and every line in it is paired with the fetched product of that line's id |
| Cart.JoinKeepsFetched | src/controllers/cart.controller.js:341-364 | the lines of the join are, in cart order, exactly the cart lines whose product was fetched |
| Cart.FetchedLinesMembers | src/controllers/cart.controller.js:341-364 | a cart line is kept exactly when its product was fetched; when every product was fetched, all lines are kept |
| Cart.JoinAppend | src/controllers/cart.controller.js:341-364 | the join keeps cart order |
| Cart.GetCartDetails | src/controllers/cart.controller.js:322-366 | the result's lines are, in cart order, exactly the cart lines whose product exists, each paired with its product; it is the whole cart when every product exists |
| Cart.RemoveEachIsOneFilter | src/controllers/cart.controller.js:402-410 | the successive filters of the batch remove equal one filter by all the requested keys |
| Cart.KeepUnlistedMembers | src/controllers/cart.controller.js:402-410 | a line survives the filter exactly when its key is not requested |
| Cart.RemoveCartItems | src/controllers/cart.controller.js:379-423 | an empty request is 400 and a missing cart is 404; otherwise the cart keeps, in order, exactly the lines that match no requested key |
| Addresses.WithDefault | src/controllers/address.controller.js:265-275 | setting one default flag leaves the other flag and the id unchanged |
| Addresses.IndexOfId | src/controllers/address.controller.js:131-133 | the position of the first address with the id; it is in range exactly when the id is in the book |
| Addresses.WithoutId | src/controllers/address.controller.js:198-201 | the pull leaves no address with the id and never lengthens the list |
| Addresses.LabelOrHome | src/controllers/address.controller.js:46-48 | a missing label becomes "HOME"; a given one is kept |
| Addresses.NewAddress | src/controllers/address.controller.js:58-77 | the stored address has the new id and copies name, phone, region, district, thana, building, colony and address from the request, with the label defaulted; it is default for shipping and for billing exactly when it is the first address |
| Addresses.Patch | src/controllers/address.controller.js:140-153 | the update overwrites name, phone, region, district, thana, building, address and label; it keeps the id, the colony and both default flags |
| Addresses.OnlyChosenIsDefault | src/controllers/address.controller.js:265-275 | after clearing a flag everywhere and setting it on one address, exactly one address carries it |
| Addresses.PullOne | src/controllers/address.controller.js:197-201 | in a valid book the pull removes exactly the one address with the id. Ids stay distinct, and the flag counts drop by the flags the removed address carried |
| Addresses.TakeOverDefaults | src/controllers/address.controller.js:207-225 | the new first address carries each flag that it or the removed address carried |
| Addresses.HandOver | src/controllers/address.controller.js:207-225 | handing the removed address's flags to index 0 restores exactly one default of each kind |
| Addresses.AddressBook.constructor | src/controllers/address.controller.js:74 | a user without addresses has a valid, empty book |
| Addresses.AddressBook.GetUserAddresses | src/controllers/address.controller.js:14-16 | the list returned has distinct ids and one default of each kind when non-empty |
| Addresses.AddressBook.AddUserAddress | src/controllers/address.controller.js:32-85 | missing required fields are 400 and change nothing. Otherwise the new address is appended at the end, default for both kinds exactly when the book was empty; the one-default-each invariant is kept |
| Addresses.AddressBook.UpdateUserAddress | src/controllers/address.controller.js:105-161 | the error paths come in the source's order and change nothing. A write that changes no field is reported as 400 "Failed to update address"; otherwise only the address with the id is patched; the invariant is kept |
| Addresses.AddressBook.DeleteUserAddress | src/controllers/address.controller.js:177-229 | an empty or unknown id changes nothing. Otherwise exactly that address is gone, its default flags pass to the address now first, and the one-default-each invariant is kept |
| Addresses.AddressBook.ClearDefault | src/controllers/address.controller.js:265-268 | the `$[]` update clears the flag on every address and changes nothing else |
| Addresses.AddressBook.SetDefault | src/controllers/address.controller.js:265-275 | the flag ends up on exactly the chosen address; every other field of every address, the other flag included, is unchanged |
| Addresses.AddressBook.SetDefaultShippingAddress | src/controllers/address.controller.js:245-284 | the chosen address becomes the only default-shipping address, and billing flags are untouched; unknown ids change nothing |
| Addresses.AddressBook.SetDefaultBillingAddress | src/controllers/address.controller.js:300-339 | the chosen address becomes the only default-billing address, and shipping flags are untouched; unknown ids change nothing |
| Orders.Commission | src/controllers/orders.seller.controller.js:177-182 | the commission is within half a cent of `total * percent / 100`, and lies between 0 and the total for a percentage in 0..100 |
| Orders.FindStore | src/controllers/orders.seller.controller.js:84-86 | the first store with the id, or "not found" |
| Orders.FindStoreByIds | src/controllers/orders.seller.controller.js:84-86 | store lists with the same ids resolve every id to the same position |
| Orders.CancellingStoreLowersTotals | src/controllers/orders.seller.controller.js:202-212 | cancelling one more store lowers the recomputed items and delivery totals by exactly its total and its delivery charge |
| StoreStatusMachine.ParseTarget | src/controllers/orders.seller.controller.js:415-421 | only "confirmed" and "prepared" are accepted as targets |
| StoreStatusMachine.OwnedStore | src/controllers/orders.seller.controller.js:434-436 | the first store with the id whose owner is the caller, or "not found" |
| StoreStatusMachine.UpdateStoreOrderStatus | src/controllers/orders.seller.controller.js:408-511 | each rejection (missing fields, invalid target, missing order, not the owner) has its own status and message. A success writes the new status and timestamp to the positional store and rolls the parent status up |
| StoreStatusMachine.PositionalWrite | src/controllers/orders.seller.controller.js:461-473 | the positional `stores.$` write changes only the first store with the id (status and timestamp) and the order's timestamp |
| StoreStatusMachine.OwnedIsPositional | src/controllers/orders.seller.controller.js:461-473 | with distinct store ids, the positional update writes the store the owner check found |
| StoreStatusMachine.StatusMovesOneStepForward | src/controllers/orders.seller.controller.js:445-473 | a success moves exactly the caller's store exactly one step forward; every other store is unchanged |
| StoreStatusMachine.RepeatIsRejected | src/controllers/orders.seller.controller.js:448-458 | repeating a successful request is rejected with "Cannot change status from X to X" |
| StoreStatusMachine.NoSkipping | src/controllers/orders.seller.controller.js:448-458 | a pending store cannot go straight to prepared |
| StoreStatusMachine.DisallowedStepIsRefused | src/controllers/orders.seller.controller.js:448-458 | an owner's step the transition table does not allow is refused with 400 "Cannot change status from X to Y" |
| StoreStatusMachine.AllowedStepSucceeds | src/controllers/orders.seller.controller.js:445-511 | with distinct store ids, an owner's allowed step (pending to confirmed, confirmed to prepared) always succeeds |
| StoreStatusMachine.ParentFollowsStores | src/controllers/orders.seller.controller.js:487-511 | the parent becomes prepared when all stores are prepared, confirmed when all are confirmed, and otherwise keeps its status |
| Cancellation.SellerStoreIds | src/controllers/orders.seller.controller.js:53-55 | an id is listed exactly when a store with that id belongs to the seller |
| Cancellation.Authorize | src/controllers/orders.seller.controller.js:37-73 | a customer passes exactly when the order is theirs, pending and unpaid. A seller passes exactly when the list of their store ids in the order is non-empty and holds every requested store id. Other roles pass; refusals are 400 or 403 |
| Cancellation.SellerGetsThrough | src/controllers/orders.seller.controller.js:51-72 | a seller passes exactly when some store of the order is theirs and every requested store id names a store of theirs |
| Cancellation.FindLine | src/controllers/orders.seller.controller.js:110-118 | the first line the request selects by product, colour and size, or "not found" |
| Cancellation.Restock | src/controllers/orders.seller.controller.js:133-136 | the product's stock rises by the quantity and no other product's stock changes; an unknown product is left alone |
| Cancellation.CancelledLineOf | src/controllers/orders.seller.controller.js:138-147 | the history line carries the store, the product, the line's quantity and its subtotal as refund |
| Cancellation.CancelLine | src/controllers/orders.seller.controller.js:105-153 | one line request touches only its store's lines, only by cancelling, and never touches a cancelled line |
| Cancellation.CancelLines | src/controllers/orders.seller.controller.js:105-153 | the inner loop keeps the same frame as one line request |
| Cancellation.SettleStore | src/controllers/orders.seller.controller.js:155-183 | a store is cancelled exactly when all its lines are, and its delivery charge is then refunded. Otherwise its total, commission and seller amount agree with its active lines |
| Cancellation.FeeRefund | src/controllers/orders.seller.controller.js:188-200 | the corrected fee rule (see Findings), not the code as written: the fee is refunded exactly when this cancellation leaves every store cancelled and did not find them all cancelled |
| Cancellation.FeeRefundAsWritten | src/controllers/orders.seller.controller.js:190-200 | as written, the refund is the whole fee whenever every store ends up cancelled, and zero otherwise |
| Cancellation.FeeRefundUnder | src/controllers/orders.seller.controller.js:190-200 | the fee refunded under the as-written rule or under the corrected rule |
| Cancellation.FeeRulesAgree | src/controllers/orders.seller.controller.js:190-200 | the two rules refund the same unless every store was cancelled before the call and the fee is not zero |
| Cancellation.Finish | src/controllers/orders.seller.controller.js:188-240 | the totals are recomputed from the surviving stores, and exactly one history entry is appended with earlier entries kept; its refund is the item and delivery refunds plus the fee under the given rule. The order becomes cancelled exactly when all stores are; nothing else changes |
| Cancellation.CancelOrderSpec | src/controllers/orders.seller.controller.js:12-245 | under either fee rule, the validation errors come in the source's order; a call succeeds exactly when the items, the reason, the order and the role checks pass |
| Cancellation.CancelOrder | src/controllers/orders.seller.controller.js:6-257 | the handler's nested loops compute exactly the call under the as-written fee rule |
| Cancellation.CheckRole | src/controllers/orders.seller.controller.js:38-73 | the role checks, including the seller's loop over the requests, compute the authorization function |
| Cancellation.CancelEachStore | src/controllers/orders.seller.controller.js:75-186 | the outer loop over store requests computes the fold of all requests from the order's stores, the stock and zero refunds |
| Cancellation.CancelStoreRequest | src/controllers/orders.seller.controller.js:82-185 | one pass of the outer loop computes one store request |
| Cancellation.CancelRequestedLines | src/controllers/orders.seller.controller.js:105-153 | the inner loop over requested lines computes the line fold |
| CancellationProofs.NoActiveTotal | src/controllers/orders.seller.controller.js:155-174 | a store whose lines are all cancelled has no active total |
| CancellationProofs.CancelLineBalance | src/controllers/orders.seller.controller.js:129-147 | cancelling a line moves its subtotal from the store's active total into the item refund and onto a history line |
| CancellationProofs.CancelLinesBalance | src/controllers/orders.seller.controller.js:105-153 | the same balance holds over the inner loop |
| CancellationProofs.CancelLinesShiftsTotals | src/controllers/orders.seller.controller.js:105-153 | the inner loop moves from the store's active lines into the item refund exactly what it records on history lines; order totals, delivery refund and other stores are unchanged |
| CancellationProofs.SettleBalance | src/controllers/orders.seller.controller.js:155-183 | settling a store makes every active store's total agree with its lines again; the store total in the items total is replaced by its active lines total, the delivery refund plus the delivery total is unchanged, and other stores are unchanged |
| CancellationProofs.CancelInStoreBalance | src/controllers/orders.seller.controller.js:81-186 | for a customer or seller, one store request moves exactly as much from the item and delivery totals as it adds to the refunds. Active totals stay right and cancelled stores stay untouched |
| CancellationProofs.CancelAllBalance | src/controllers/orders.seller.controller.js:81-186 | the same balance holds over all requests |
| CancellationProofs.CancellationConservesMoney | src/controllers/orders.seller.controller.js:188-233 | for a customer or seller, the new total plus the recorded refund is the old total. The refund is the history lines' refunds plus the delivery charges removed plus the fee on full cancellation, and the totals again agree with the stores. This holds under the corrected rule always, and for the handler as written whenever the order was not already fully cancelled or has no fee |
| CancellationProofs.TargetIndexOfSameLines | src/controllers/orders.seller.controller.js:108-119 | a request resolves to the same line whatever lines were cancelled meanwhile |
| CancellationProofs.DeadStaysDead | src/controllers/orders.seller.controller.js:121-127 | a skipped line request stays skipped |
| CancellationProofs.CancelInStoreFrame | src/controllers/orders.seller.controller.js:84-185 | a store request changes only the store it names, and that store's lines only by cancelling them |
| CancellationProofs.DeadLinesChangeNothing | src/controllers/orders.seller.controller.js:121-127 | requests for skipped lines change nothing |
| CancellationProofs.InertChangesNothing | src/controllers/orders.seller.controller.js:88-185 | a request whose store is missing or skipped, or whose lines are all skipped, changes nothing |
| CancellationProofs.RequestedLinesDead | src/controllers/orders.seller.controller.js:121-153 | after the inner loop every requested line is skipped |
| CancellationProofs.ProcessedIsInert | src/controllers/orders.seller.controller.js:97-185 | for a customer or seller, a processed request would change nothing if sent again |
| CancellationProofs.InertStaysInert | src/controllers/orders.seller.controller.js:81-186 | processing other requests keeps a request inert |
| CancellationProofs.RunLeavesInert | src/controllers/orders.seller.controller.js:81-186 | after a run, every request of the run is inert |
| CancellationProofs.InertRunChangesNothing | src/controllers/orders.seller.controller.js:81-186 | a run of inert requests changes nothing |
| CancellationProofs.InertForSameCaller | src/controllers/orders.seller.controller.js:93-103 | whether a request changes anything depends on the caller, not on the reason or time |
| CancellationProofs.RepeatedCancellationChangesNothing | src/controllers/orders.seller.controller.js:81-240 | under either fee rule, the same customer or seller repeating a cancellation cancels and restocks nothing. The order only gains a history entry with no lines, new timestamps, and a refund of exactly what that rule pays on an unchanged store list |
| CancellationProofs.CancelLineEffect | src/controllers/orders.seller.controller.js:121-152 | a skipped line changes nothing. Otherwise the line is cancelled, its product's stock rises by the requested quantity, its subtotal joins the refund, and one history line records it |
| CancellationProofs.CancelLineStock | src/controllers/orders.seller.controller.js:133-147 | with an honest quantity, each product's stock minus the quantity on the history lines is unchanged by one line request |
| CancellationProofs.CancelLinesStock | src/controllers/orders.seller.controller.js:105-153 | the same stock balance holds over the inner loop |
| CancellationProofs.CancelInStoreStock | src/controllers/orders.seller.controller.js:81-186 | the same stock balance holds over one store request |
| CancellationProofs.CancelAllStock | src/controllers/orders.seller.controller.js:81-186 | the same stock balance holds over all requests |
| CancellationProofs.StockComesBackForCancelledLines | src/controllers/orders.seller.controller.js:133-147 | under either fee rule and with honest quantities, each product's new stock is its old stock plus its quantity on the new history entry's lines |
| CancellationProofs.FeeRefundedAgainAsWritten | src/controllers/orders.seller.controller.js:190-200 | as written, repeating a cancellation that left every store cancelled records the whole fee as refunded, with no line cancelled and the order total unchanged, so the refund has no money behind it |
| CancellationProofs.SampleRequestIsAcceptedAndInert | src/controllers/orders.seller.controller.js:37-186 | the concrete seller request passes validation and the role checks, and its run changes nothing because its store is already cancelled |
| CancellationProofs.ReCancellingCancelledOrderRefundsFee | src/controllers/orders.seller.controller.js:190-200 | on a concrete order whose only store is cancelled, a seller's repeat request is accepted. As written it records 5000 cents refunded for no cancelled line and an unchanged total; under the corrected rule it records 0 |
| CancellationProofs.RepeatedCancellationRefundsNothing | src/controllers/orders.seller.controller.js:188-232 | under the corrected fee rule, a repeated cancellation records a refund of 0 with no lines, and the order total is unchanged |

## Left out

- Database, HTTP and authentication are not modelled. Each handler is one atomic state change, so these are left out:
  - the separate writes of `updateStoreOrderStatus` and of `setDefault*`;
  - the separate per-product `$inc` restocks;
  - concurrency between requests;
  - the JWT and role middlewares.
- "Email is required" and "User not found" in the address handlers are left out. The model assumes the authenticated user's document exists; the address book is that user's list.
- Invalid ObjectId strings, which make the source throw and answer 500, are not modelled. Ids are plain strings compared for equality.
- `parseInt` of non-numeric quantities is not modelled, and neither are bodies whose `items`, `localCartItems` or `itemsToRemove` are not arrays. Quantities are integers and lists are sequences.
- Floating point and `toFixed(2)` are replaced by integer cents. Commission is computed for an integer percentage, rounded half up; JavaScript float rounding at the binary edges is not reproduced.
- A negative explicit `itemIndex` is not modelled: -1 is skipped and other negative values crash the source. `itemIndex` is a natural number or absent.
- Handler response bodies are not modelled beyond status codes and messages: the returned cart lists, and the "Order items cancelled successfully" and "Order status updated to …" success texts.
- The modified-count failures "Failed to delete address" and "Failed to set default shipping/billing address" are not modelled. In a sequential run they cannot occur once the address has been found, because the chosen flag was just cleared or the address just seen.
- `addProductOnCart` and `updateCartItem` check no stock limit, and neither does the model.
- `getSellerOrders` (an aggregation query) and `src/controllers/orders.controller.js` (no logic, only a commented sample document) are not part of this model.
- In `cancelOrder` the handler mutates the store objects it shares with the fetched order. The model works on values. After the loop the order is read only for its fee and its history, so the aliasing is not observable.
- CancellationConservesMoney: for the handler as written, proved only when the order was not already fully cancelled or carries no fee; otherwise the fee is refunded again (see Findings and FeeRefundedAgainAsWritten). It is also proved only for customers and sellers. Any other role is let through by the source and processes stores that are already cancelled. A store named twice, or already cancelled, is then settled again and its delivery charge refunded again. The model computes that behaviour but proves no conservation for it.
- RepeatedCancellationChangesNothing: proved only for customers and sellers, for the reason above. Under the as-written rule the repeated entry still refunds the fee when every store is cancelled.
- StockComesBackForCancelledLines: holds only when each request's quantity equals the quantity of the line it cancels. The source restocks the requested quantity, which CancelLineEffect states for every request.

## Findings

| source | as written | input that shows it | evidently intended | confidence | as-written member | corrected member |
|---|---|---|---|---|---|---|
| src/controllers/orders.seller.controller.js:190-200 | the cash payment fee is added to the refund whenever every store is cancelled after the run | a seller sends a cancellation for a line of their store on an order whose only store is already cancelled, with a fee of 5000 cents: nothing is cancelled, yet the new history entry records a refund of 5000 | the fee is refunded only by the cancellation that leaves the last store cancelled, so a repeated request refunds nothing | not executed | CancellationProofs.FeeRefundedAgainAsWritten | CancellationProofs.RepeatedCancellationRefundsNothing |
