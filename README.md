# Shopping cart engine and role guard

This project models two parts of a NestJS e-commerce back end in Dafny and proves properties of the model.

**The cart service.** It keeps two collections:
- carts: owner, total and the ids pushed onto the cart;
- cart items: cart, product, quantity and subtotal.

It offers six operations over these collections:
- `createCart`;
- `addItemToCart`;
- `updateCartTotal`;
- `removeItemFromCart`;
- `getCart`;
- `deleteCart`.

The service is modelled as the class `CartEngine.CartService`. Its fields are:
- the two collections, as maps from ids to records;
- two counters that stand for the store's id generator.

Each operation is a method that changes these fields or reads them. Failures are returned as a `Result`: `BadRequest`, `Conflict`, `NotFound` of a cart, product or item record, and `Uncaught`. `Uncaught` stands for the runtime error of reading a product that is not there.

The class invariant `CartEngine.CartService.Valid` combines two predicates of module `CartStore`, `Shape` and `TotalsAreSums`. It says:
- every stored id was handed out by the counters;
- a user has at most one cart;
- a (cart, product) pair has at most one line;
- every line belongs to a stored cart and holds at least one unit;
- every cart's id list names its lines in creation order;
- every cart's total is the sum of its lines' subtotals.

Every method that changes the store keeps `Valid`, and `updateCartTotal` keeps it when it starts from it. Each method states its new state outright, and value-level lemmas say what that state means. For example, a new line raises the cart's total by exactly its subtotal.

`CartTotals` holds two views of the total:
- the fold the service runs over the cart's lines;
- the same sum stated id by id.

They are proved equal. `CartListing` holds the rule that ties a cart's id list to its stored lines. `CartView` is the projection `getCart` returns.

**The role guard.** `RolesGuard.CanActivate` is the decision of `canActivate`:
- no role metadata on the route admits everyone;
- otherwise the request needs an authenticated user whose role is listed;
- failing that, the guard throws Forbidden.

Money is held as integer cents throughout.

## Model

| member | source | states |
|---|---|---|
| RolesGuard.CanActivate | src/auth/guards/roles.guard.ts:11-29 | no metadata admits every request; with metadata the request passes iff a user exists and their role is listed; the verdict is never `false`, only `true` or Forbidden |
| RolesGuard.EmptyRoleListDeniesAll | src/auth/guards/roles.guard.ts:17-26 | a present but empty role list refuses everybody, since only a missing list short-circuits |
| RolesGuard.AnonymousIsForbidden | src/auth/guards/roles.guard.ts:24-26 | with roles required, a request without a user is refused whatever the list |
| RolesGuard.WiderListStillAdmits | src/auth/guards/roles.guard.ts:24-28 | a user admitted under a role list is admitted under every list containing it |
| CartSchemas.Subtotal | src/cart/cart.service.ts:65 | for a non-negative price, a line's charge is never negative, and a line of at least one unit costs at least one unit's price |
| CartSchemas.NewCart | src/cart/schemas/cart.schema.ts:11-15 | definition: the cart `create` stores for a user (src/cart/cart.service.ts:35), with the schema defaults total 0 and an empty id list |
| CartTotals.FoldIsCartSum | src/cart/cart.service.ts:86-92 | folding the lines `find({ cartId })` returns (in id order) with `reduce` gives the cart's sum of its own lines' subtotals |
| CartTotals.LinesOf | src/cart/cart.service.ts:87 | `find({ cartId })` returns no more lines than ids were handed out, and only lines of that cart |
| CartTotals.SumSubtotals | src/cart/cart.service.ts:89 | the `reduce` fold of lines none of which charges a negative amount is not negative |
| CartTotals.CartSum | src/cart/cart.service.ts:86-92 | the total a cart should carry is not negative when no line charges a negative amount |
| CartTotals.RecomputedWrites | src/cart/cart.service.ts:91 | `findByIdAndUpdate(cartId, { total })` creates and removes no cart and changes no other cart; the cart keeps its owner and id list and its total becomes the fold of its lines |
| CartTotals.Recomputed | src/cart/cart.service.ts:91 | definition: the cart collection after `findByIdAndUpdate(cartId, { total })`, where the cart, if stored, gets the sum of its lines as total |
| CartTotals.SumSubtotalsAppend | src/cart/cart.service.ts:89 | the `reduce` fold of a concatenation is the sum of the folds |
| CartTotals.LinesOfExactly | src/cart/cart.service.ts:87 | every line `find({ cartId })` returns is a stored line, and every stored line of the cart is returned |
| CartTotals.ThreeLinesTotal | src/cart/cart.service.spec.ts:260-288 | the unit test's lines of 100, 200 and 150 fold to 450 |
| CartTotals.RecomputeIdempotent | src/cart/cart.service.ts:86-92 | rewriting a total that already equals the sum changes no cart |
| CartTotals.RecomputeTwice | src/cart/cart.service.ts:86-92 | running `updateCartTotal` twice is the same as once |
| CartTotals.CartSumAgree | src/cart/cart.service.ts:87-89 | a cart's sum depends only on which ids hold its lines and their subtotals |
| CartTotals.NoLinesSumZero | src/cart/cart.service.ts:87-89 | a cart without lines sums to 0 |
| CartTotals.SumAfterInsert | src/cart/cart.service.ts:68-81 | creating a line under a fresh id raises its cart's sum by exactly the line's subtotal |
| CartTotals.SumAfterReplace | src/cart/cart.service.ts:63-67 | rewriting a line moves its cart's sum by exactly the change of its subtotal |
| CartTotals.SumAfterDelete | src/cart/cart.service.ts:111-113 | deleting a line lowers its cart's sum by exactly its subtotal |
| CartView.ItemResponses | src/cart/cart.service.ts:142-148 | the projection has no more entries than the list has ids, and every entry's subtotal is its quantity times its current price |
| CartView.ProjectLine | src/cart/cart.service.ts:143-147 | definition: the entry built from a stored line and its catalogue product, with the product's id, name and current price, the line's quantity, and a subtotal of quantity times the current price; no entry when the product is missing |
| CartView.ItemResponse | src/cart/cart.service.ts:131-137 | definition: the populate lookup of one listed id, giving the projection of the stored line under it, or nothing when the line was deleted |
| CartView.ProductsFound | src/cart/cart.service.ts:143 | definition: the condition under which reading `item.productId._id` throws no TypeError, namely that every listed id naming a stored line names one whose product is in the catalogue |
| CartView.ItemResponsesAppend | src/cart/cart.service.ts:142-148 | projecting two id lists one after the other concatenates their projections |
| CartView.ResolvedPositionsEntries | src/cart/cart.service.ts:142-148 | the k-th entry is the projection of the id at the k-th position that resolves, and there are as many entries as such positions |
| CartView.ResolvedPositionsSpan | src/cart/cart.service.ts:142-148 | the positions that resolve lie in the list, strictly increase (so no position yields two entries and list order is kept), and include every position whose id resolves |
| CartView.LineResponses | src/cart/cart.service.ts:142-148 | projecting stored lines gives no more entries than lines |
| CartView.LineResponsesAppend | src/cart/cart.service.ts:142-148 | projecting two runs of lines one after the other concatenates their projections |
| CartView.LineResponsesWhenPriced | src/cart/cart.service.ts:142-148 | when every line's product is in the catalogue there is exactly one entry per line, in order, each the line's projection |
| CartView.EntryOfListedId | src/cart/cart.service.ts:131-137 | an id that holds no line of another cart projects like the cart's line under it, or to nothing if it was deleted |
| CartView.ResponsesFollowLines | src/cart/cart.service.ts:127-148 | projecting a cart's id list, deleted ids and all, gives the same entries as projecting the cart's stored lines in creation order |
| CartView.CartLinesPriced | src/cart/cart.service.ts:142-148 | when every listed line has its product, every line of the cart has it, since the list names them all |
| CartView.OneLineProjection | src/cart/cart.service.spec.ts:463-501 | the unit test's line of two units at price 50 projects to one entry with subtotal 100 |
| CartListing.ListingMeans | src/cart/cart.service.ts:71-78 | a cart's id list is strictly increasing, below the next id, names no line of another cart and names every line of the cart |
| CartListing.ListsLinesOf | src/cart/cart.service.ts:71-78 | a cart's id list holds no more ids than were handed out |
| CartListing.EmptyListing | src/cart/schemas/cart.schema.ts:14 | the default empty list is the id list of a cart with no lines |
| CartListing.ListingKept | src/cart/cart.service.ts:111-121 | rewriting or deleting lines keeps every cart's id list valid, even though nothing is removed from it |
| CartView.ResponseSumExtend | src/cart/cart.service.ts:142-148 | one more projected entry adds its subtotal to the entries' sum |
| CartView.ResponsesAgreeWithSum | src/cart/cart.service.ts:142-154 | when every line of the cart is priced at the current catalogue price, the projected entries add up to the stored total |
| CartStore.FindLine | src/cart/cart.service.ts:61 | `findOne({ cartId, productId })` returns a line of that cart for that product, or none exists below the next id |
| CartStore.FindLineFindsTheLine | src/cart/cart.service.ts:61 | with one line per pair, `findOne` returns exactly that line whenever it exists |
| CartStore.DropLinesOf | src/cart/cart.service.ts:167 | definition: the cart-item collection after `deleteMany({ cartId })`, which keeps exactly the lines of other carts |
| CartStore.Listed | src/cart/cart.service.ts:78 | definition: the cart collection after `$push: { items: id }` on one cart |
| CartStore.Repriced | src/cart/cart.service.ts:64-65 | definition: the cart-item collection after one line's quantity is set and its subtotal recomputed as quantity times price, as also done at src/cart/cart.service.ts:115-120 |
| CartStore.ListedAppends | src/cart/cart.service.ts:78 | `$push` creates and removes no cart and changes no other cart; the cart keeps its owner and total, and its list gains the id at its end |
| CartStore.RepricedWrites | src/cart/cart.service.ts:64-65 | re-pricing creates and removes no line and changes no other line; the line keeps its cart and product, gets the new quantity, and its subtotal is that quantity times the price |
| CartStore.ShapeIgnoresTotal | src/cart/cart.service.ts:91 | writing a total breaks none of the rules that do not mention totals |
| CartStore.TotalsAfterRecompute | src/cart/cart.service.ts:91 | when only one cart's total is stale, recomputing it makes every total a sum again |
| CartStore.CreateKeeps | src/cart/cart.service.ts:29-35 | inserting an empty cart for a user without one keeps every rule of the store |
| CartStore.ReplaceKeepsShape | src/cart/cart.service.ts:63-67 | rewriting a line's quantity (at least 1) and subtotal keeps the structural rules |
| CartStore.ReplaceKeepsOtherTotals | src/cart/cart.service.ts:63-67 | rewriting a line leaves every other cart's sum as it was |
| CartStore.InsertKeepsShape | src/cart/cart.service.ts:68-78 | creating the first line of a product in a cart and pushing its id keeps the structural rules |
| CartStore.InsertKeepsOtherTotals | src/cart/cart.service.ts:68-78 | a new line leaves every other cart's sum as it was |
| CartStore.DeleteLineKeepsShape | src/cart/cart.service.ts:111-113 | deleting a line keeps the structural rules, though its id stays on the cart's list |
| CartStore.DeleteLineKeepsOtherTotals | src/cart/cart.service.ts:111-113 | deleting a line leaves every other cart's sum as it was |
| CartStore.DeleteCartKeeps | src/cart/cart.service.ts:167-169 | deleting a cart's lines and then the cart keeps every rule and every remaining total |
| CartStore.InsertStep | src/cart/cart.service.ts:68-81 | the new-line write followed by the total update leaves the store consistent |
| CartStore.InsertRaisesTotal | src/cart/cart.service.ts:68-81 | after the new-line write the cart's list gains the id at its end and its total rises by the line's subtotal; no other cart changes |
| CartStore.ReplaceStep | src/cart/cart.service.ts:63-67 | the rewrite of an existing line followed by the total update leaves the store consistent |
| CartStore.ReplaceMovesTotal | src/cart/cart.service.ts:63-81 | after a line is rewritten the cart's total moves by the change in subtotal; no other cart changes |
| CartStore.DeleteLineStep | src/cart/cart.service.ts:111-124 | deleting a line followed by the total update leaves the store consistent |
| CartStore.DeleteLowersTotal | src/cart/cart.service.ts:111-124 | after a line is deleted the cart's total falls by its subtotal; no other cart changes |
| CartStore.AddThenRemoveExisting | src/cart/cart.service.ts:61-67 | for a line whose subtotal is priced at the current price, adding one unit and then removing one unit finds the same line, takes the decrement branch and restores both collections |
| CartStore.AddThenRemoveNew | src/cart/cart.service.ts:68-113 | adding one unit of a product the cart lacks and then removing it deletes the new line and restores the lines and totals, but the new id stays last on the cart's list |
| CartEngine.CartService.constructor | src/cart/cart.service.ts:16-20 | the service starts on an empty, consistent store |
| CartEngine.CartService.Valid | src/cart/schemas/cart.schema.ts:8-15 | the store's rules: ids were handed out, one cart per user, one line per (cart, product), lines belong to stored carts and hold at least one unit, id lists name their carts' lines in creation order, and totals are sums |
| CartEngine.CartService.FindCartByUser | src/cart/cart.service.ts:29 | `findOne({ userId })` returns the user's cart, or none exists |
| CartEngine.CartService.CreateCart | src/cart/cart.service.ts:22-38 | an empty user id gives BadRequest and an existing cart for the user gives Conflict, neither writing; a non-empty user id without a cart always succeeds and adds exactly one cart, under a fresh id, owned by the user, with total 0 and no items |
| CartEngine.CartService.UpdateCartTotal | src/cart/cart.service.ts:86-92 | the loop folds the cart's lines; the cart, if stored, gets their sum as total, and nothing else changes; on a consistent store the call keeps it consistent and changes nothing, so a second call is idempotent |
| CartEngine.CartService.AddItemToCart | src/cart/cart.service.ts:40-84 | BadRequest or NotFound in the source's order, none of which writes. On success an existing line grows by the requested quantity and is re-priced, or a new line is created and its id pushed last; the total is then recomputed and the stored line returned |
| CartEngine.CartService.PutLine | src/cart/cart.service.ts:61-81 | the writes of a successful add: the existing line is raised, else a new one is created and listed, then the total is recomputed |
| CartEngine.CartService.RepriceLine | src/cart/cart.service.ts:63-67 | sets one line's quantity and subtotal (quantity times price), then recomputes its cart's total |
| CartEngine.CartService.InsertLine | src/cart/cart.service.ts:68-81 | stores the line under the next id, appends the id to its cart's list, then recomputes the total |
| CartEngine.CartService.DeleteLine | src/cart/cart.service.ts:111-113 | removes one line, leaves the cart's id list alone, then recomputes the total |
| CartEngine.CartService.RemoveItemFromCart | src/cart/cart.service.ts:94-125 | BadRequest, or NotFound for the cart or the line. A one-unit line is deleted; otherwise the line loses one unit and is re-priced, unless the product is gone: then NotFound and nothing is written. Errors write nothing, and success recomputes the total |
| CartEngine.CartService.DeleteCart | src/cart/cart.service.ts:158-170 | BadRequest, or NotFound when the cart is absent, without writing; otherwise the cart is removed, no line of it is left, every other line is kept unchanged and no line is added |
| CartEngine.CartService.GetCart | src/cart/cart.service.ts:127-156 | BadRequest without an id; no cart means no result. Otherwise the user's cart with its stored total and one entry per line of the cart, in creation order, re-priced at the current price, whatever deleted ids its list still holds; `Uncaught` when a listed line's product is gone. The entries add up to the total when no price has drifted |

## Left out

- Money is integer cents, so the `toFixed(2)` and `parseFloat` rounding is exact and not modelled. Floating-point error in sums is not captured.
- `parseId` is not modelled. Every raw id is an `Option`, and `None` stands for the BadRequest it throws on a non-numeric string.
- Ids are naturals handed out by counters, which stand for Mongo object ids. `find` returns lines in id order, which is creation order.
- The product catalogue is owned by another service. It is a method parameter, so it can change between calls.
- Every storage call is taken to succeed. In the source, `addItemToCart` and `removeItemFromCart` write in several awaited steps: the line, then the `$push`, then the total. If a later step failed, the earlier write would stay, leaving a line on no cart's list or a stale total. Such partial writes are not modelled, and `Valid` is kept only under this assumption.
- Awaits are read as sequential steps. Concurrent requests and the race between two adds of the same product are not modelled.
- Mongoose behaviour is modelled only by its effect:
  - `populate` skips list entries whose line was deleted;
  - `toObject`, `plainToInstance` and `versionKey` are not modelled.
- CartEngine.CartService.RemoveItemFromCart: the request's product id is used as a product id directly. Casting the DTO's number to an object id is not modelled.
- CartEngine.CartService.AddItemToCart: a quantity of zero or less is excluded by a precondition. The request class declares `@IsInt` and `@IsPositive` (src/cart/dto/add-item-to-cart.dto.ts:10-12), but src/main.ts:9-23 installs no validation pipe, so in the source those checks never run. With a quantity of zero or less the source would store a line with fewer than one unit, breaking the rule that every line holds at least one unit; the model does not follow that path.
- CartEngine.CartService.CreateCart: the model takes only the user id. The source passes the whole, unvalidated request body to `create` (src/cart/cart.service.ts:35), so a `total` or `items` sent in the body would be stored; that is not modelled.
- CartEngine.CartService.GetCart: the runtime error of reading a missing product is the single outcome `Uncaught`. Its message and HTTP status are not modelled.
- Authentication (password hashing, JWT signing and the strategy), the plain CRUD services for users, products and categories, controllers, modules and DTO decorators are not part of this model.
- The guard's metadata lookup (`Reflector.getAllAndOverride`) and the request's user are inputs to `RolesGuard.CanActivate`.
