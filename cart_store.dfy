/**
 * The consistency rules of the cart and cart-item collections, stated on their
 * values, and the proof that each kind of write the service makes keeps them.
 */
module CartStore {
  import opened Outcomes
  import opened CartSchemas
  import opened CartTotals
  import opened CartView
  import opened CartListing

  /** Line `k` is the one for product `p` in cart `c`. */
  predicate IsLine(items: map<ItemId, CartItem>, k: ItemId, c: CartId, p: ProductId)
  {
    k in items && items[k].cartId == c && items[k].productId == p
  }

  /**
   * `findOne({ cartId: c, productId: p })` on the cart-item collection, scanning
   * the ids below `n`: the line for the pair, if there is one.
   */
  function FindLine(items: map<ItemId, CartItem>, c: CartId, p: ProductId, n: nat): (r: Option<ItemId>)
    ensures r.Some? ==> r.value < n && IsLine(items, r.value, c, p)
    ensures r.None? ==> forall k: nat :: k < n ==> !IsLine(items, k, c, p)
  {
    if n == 0 then None
    else if IsLine(items, n - 1, c, p) then Some(n - 1)
    else FindLine(items, c, p, n - 1)
  }

  /** With one line per (cart, product) pair, `findOne` returns that line whenever it exists. */
  lemma FindLineFindsTheLine(items: map<ItemId, CartItem>, c: CartId, p: ProductId, n: nat, k: ItemId)
    requires OneLinePerProduct(items)
    requires IsLine(items, k, c, p) && k < n
    ensures FindLine(items, c, p, n) == Some(k)
  {
  }

  /** The cart-item collection after `deleteMany({ cartId: c })`. */
  function DropLinesOf(items: map<ItemId, CartItem>, c: CartId): map<ItemId, CartItem>
  {
    map k | k in items && items[k].cartId != c :: items[k]
  }

  /** The cart collection after `$push: { items: k }` on cart `c`. */
  function Listed(carts: map<CartId, Cart>, c: CartId, k: ItemId): map<CartId, Cart>
  {
    if c in carts then carts[c := carts[c].(items := carts[c].items + [k])] else carts
  }

  /** `$push` creates and removes no cart, changes no other cart, and only appends `k` to cart `c`'s list. */
  lemma ListedAppends(carts: map<CartId, Cart>, c: CartId, k: ItemId)
    ensures Listed(carts, c, k).Keys == carts.Keys
    ensures forall d :: d in carts && d != c ==> Listed(carts, c, k)[d] == carts[d]
    ensures c in carts ==>
              var before, after := carts[c], Listed(carts, c, k)[c];
              && after.userId == before.userId && after.total == before.total
              && |after.items| == |before.items| + 1
              && after.items[..|before.items|] == before.items
              && after.items[|before.items|] == k
  {
  }

  /** The cart-item collection after line `k` is set to `quantity` units and re-priced at `price`. */
  function Repriced(items: map<ItemId, CartItem>, k: ItemId, quantity: int, price: int): map<ItemId, CartItem>
  {
    if k in items then items[k := items[k].(quantity := quantity, subtotal := Subtotal(quantity, price))] else items
  }

  /**
   * Re-pricing creates and removes no line and changes no other line; line `k`
   * stays in its cart for its product, and only its quantity and subtotal change.
   */
  lemma RepricedWrites(items: map<ItemId, CartItem>, k: ItemId, quantity: int, price: int)
    ensures Repriced(items, k, quantity, price).Keys == items.Keys
    ensures forall j :: j in items && j != k ==> Repriced(items, k, quantity, price)[j] == items[j]
    ensures k in items ==>
              var line := Repriced(items, k, quantity, price)[k];
              && line.cartId == items[k].cartId && line.productId == items[k].productId
              && line.quantity == quantity && line.subtotal == quantity * price
  {
  }

  /** Every stored id was handed out before. */
  ghost predicate IdsIssued(carts: map<CartId, Cart>, items: map<ItemId, CartItem>, nextCartId: nat, nextItemId: nat)
  {
    && (forall c :: c in carts ==> c < nextCartId)
    && (forall k :: k in items ==> k < nextItemId)
  }

  /** At most one cart per user (the unique index on `userId`). */
  ghost predicate OneCartPerUser(carts: map<CartId, Cart>)
  {
    forall a, b {:trigger carts[a].userId, carts[b].userId} ::
      a in carts && b in carts && carts[a].userId == carts[b].userId ==> a == b
  }

  /** At most one line per (cart, product) pair. */
  ghost predicate OneLinePerProduct(items: map<ItemId, CartItem>)
  {
    forall a, b {:trigger items[a].productId, items[b].productId} ::
      a in items && b in items && items[a].cartId == items[b].cartId && items[a].productId == items[b].productId
      ==> a == b
  }

  /** Every line belongs to a stored cart and holds at least one unit. */
  ghost predicate LinesWellFormed(carts: map<CartId, Cart>, items: map<ItemId, CartItem>)
  {
    forall k :: k in items ==> items[k].cartId in carts && items[k].quantity >= 1
  }

  /** Each cart's id list names all its lines (and possibly deleted ones) in creation order. */
  ghost predicate ItemListsTrack(carts: map<CartId, Cart>, items: map<ItemId, CartItem>, nextItemId: nat)
  {
    forall c :: c in carts ==> ListsLinesOf(carts[c].items, items, c, nextItemId)
  }

  /** Everything the store keeps consistent apart from the totals. */
  ghost predicate Shape(carts: map<CartId, Cart>, items: map<ItemId, CartItem>, nextCartId: nat, nextItemId: nat)
  {
    && IdsIssued(carts, items, nextCartId, nextItemId)
    && OneCartPerUser(carts)
    && OneLinePerProduct(items)
    && LinesWellFormed(carts, items)
    && ItemListsTrack(carts, items, nextItemId)
  }

  /** Each cart's stored total is the sum of its lines' subtotals. */
  ghost predicate TotalsAreSums(carts: map<CartId, Cart>, items: map<ItemId, CartItem>, nextItemId: nat)
  {
    forall c :: c in carts ==> carts[c].total == CartSum(items, c, nextItemId)
  }

  /** The same, for every cart but `x`, whose total is being recomputed. */
  ghost predicate TotalsAreSumsBut(carts: map<CartId, Cart>, items: map<ItemId, CartItem>, nextItemId: nat, x: CartId)
  {
    forall c :: c in carts && c != x ==> carts[c].total == CartSum(items, c, nextItemId)
  }

  /** Writing a cart's total touches nothing the shape depends on. */
  lemma ShapeIgnoresTotal(carts: map<CartId, Cart>, items: map<ItemId, CartItem>, nc: nat, ni: nat, c: CartId, t: int)
    requires c in carts && Shape(carts, items, nc, ni)
    ensures Shape(carts[c := carts[c].(total := t)], items, nc, ni)
  {
  }

  /** Recomputing the one stale total makes every total a sum again. */
  lemma TotalsAfterRecompute(carts: map<CartId, Cart>, items: map<ItemId, CartItem>, ni: nat, c: CartId)
    requires c in carts && TotalsAreSumsBut(carts, items, ni, c)
    ensures TotalsAreSums(carts[c := carts[c].(total := CartSum(items, c, ni))], items, ni)
  {
  }

  /** Inserting an empty cart for a user who has none keeps the shape and the totals. */
  lemma CreateKeeps(carts: map<CartId, Cart>, items: map<ItemId, CartItem>, nc: nat, ni: nat, userId: UserId)
    requires Shape(carts, items, nc, ni) && TotalsAreSums(carts, items, ni)
    requires forall c :: c in carts ==> carts[c].userId != userId
    ensures Shape(carts[nc := NewCart(userId)], items, nc + 1, ni)
    ensures TotalsAreSums(carts[nc := NewCart(userId)], items, ni)
  {
    var carts' := carts[nc := NewCart(userId)];
    assert nc !in carts;
    assert forall k :: k in items ==> items[k].cartId != nc;
    NoLinesSumZero(items, nc, ni);
    EmptyListing(items, nc, ni);
    assert forall d :: d in carts' && d != nc ==> carts'[d] == carts[d];
  }

  /** Rewriting a line's quantity and subtotal, with at least one unit left, keeps the shape. */
  lemma ReplaceKeepsShape(carts: map<CartId, Cart>, items: map<ItemId, CartItem>, nc: nat, ni: nat, k: ItemId, line: CartItem)
    requires Shape(carts, items, nc, ni)
    requires k in items && line.cartId == items[k].cartId && line.productId == items[k].productId
    requires line.quantity >= 1
    ensures Shape(carts, items[k := line], nc, ni)
  {
    var items' := items[k := line];
    assert forall j :: j in items' ==> j in items && items'[j].cartId == items[j].cartId
                                       && items'[j].productId == items[j].productId;
    forall d | d in carts
      ensures ListsLinesOf(carts[d].items, items', d, ni)
    {
      ListingKept(carts[d].items, items, items', d, ni);
    }
  }

  /** Rewriting a line leaves the sum of every other cart as it was. */
  lemma ReplaceKeepsOtherTotals(carts: map<CartId, Cart>, items: map<ItemId, CartItem>, ni: nat, k: ItemId, line: CartItem)
    requires TotalsAreSums(carts, items, ni)
    requires k in items && line.cartId == items[k].cartId
    ensures TotalsAreSumsBut(carts, items[k := line], ni, line.cartId)
  {
    forall c | c in carts && c != line.cartId
      ensures carts[c].total == CartSum(items[k := line], c, ni)
    {
      CartSumAgree(items[k := line], items, c, ni);
    }
  }

  /** Creating the first line of a product in a cart, under the next id, and listing it last keeps the shape. */
  lemma InsertKeepsShape(carts: map<CartId, Cart>, items: map<ItemId, CartItem>, nc: nat, ni: nat, line: CartItem)
    requires Shape(carts, items, nc, ni)
    requires line.cartId in carts && line.quantity >= 1
    requires forall j :: j in items ==> !IsLine(items, j, line.cartId, line.productId)
    ensures var c := line.cartId;
            Shape(carts[c := carts[c].(items := carts[c].items + [ni])], items[ni := line], nc, ni + 1)
  {
    var c := line.cartId;
    var carts' := carts[c := carts[c].(items := carts[c].items + [ni])];
    var items' := items[ni := line];
    forall d | d in carts'
      ensures ListsLinesOf(carts'[d].items, items', d, ni + 1)
    {
      var ids := carts[d].items;
      ListingKept(ids, items, items', d, ni);
      if d == c {
        assert (ids + [ni])[..|ids|] == ids;
      } else {
        ListingMeans(ids, items, d, ni);
        assert carts'[d].items == ids;
      }
    }
  }

  /** Storing a new line leaves the sum of every other cart as it was. */
  lemma InsertKeepsOtherTotals(carts: map<CartId, Cart>, items: map<ItemId, CartItem>, nc: nat, ni: nat, line: CartItem)
    requires IdsIssued(carts, items, nc, ni) && TotalsAreSums(carts, items, ni)
    requires line.cartId in carts
    ensures var c := line.cartId;
            TotalsAreSumsBut(carts[c := carts[c].(items := carts[c].items + [ni])], items[ni := line], ni + 1, c)
  {
    forall d | d in carts && d != line.cartId
      ensures carts[d].total == CartSum(items[ni := line], d, ni + 1)
    {
      CartSumAgree(items[ni := line], items, d, ni);
    }
  }

  /** Deleting a line keeps the shape, though its id stays on its cart's list. */
  lemma DeleteLineKeepsShape(carts: map<CartId, Cart>, items: map<ItemId, CartItem>, nc: nat, ni: nat, k: ItemId)
    requires Shape(carts, items, nc, ni) && k in items
    ensures Shape(carts, items - {k}, nc, ni)
  {
    forall d | d in carts
      ensures ListsLinesOf(carts[d].items, items - {k}, d, ni)
    {
      ListingKept(carts[d].items, items, items - {k}, d, ni);
    }
  }

  /** Deleting a line leaves the sum of every other cart as it was. */
  lemma DeleteLineKeepsOtherTotals(carts: map<CartId, Cart>, items: map<ItemId, CartItem>, ni: nat, k: ItemId)
    requires TotalsAreSums(carts, items, ni) && k in items
    ensures TotalsAreSumsBut(carts, items - {k}, ni, items[k].cartId)
  {
    forall c | c in carts && c != items[k].cartId
      ensures carts[c].total == CartSum(items - {k}, c, ni)
    {
      CartSumAgree(items - {k}, items, c, ni);
    }
  }

  /** Deleting a cart after all of its lines keeps the shape and every remaining total. */
  lemma DeleteCartKeeps(carts: map<CartId, Cart>, items: map<ItemId, CartItem>, nc: nat, ni: nat, c: CartId)
    requires Shape(carts, items, nc, ni) && TotalsAreSums(carts, items, ni)
    ensures Shape(carts - {c}, DropLinesOf(items, c), nc, ni)
    ensures TotalsAreSums(carts - {c}, DropLinesOf(items, c), ni)
  {
    var items' := DropLinesOf(items, c);
    forall d | d in carts - {c}
      ensures ListsLinesOf(carts[d].items, items', d, ni)
      ensures carts[d].total == CartSum(items', d, ni)
    {
      ListingKept(carts[d].items, items, items', d, ni);
      CartSumAgree(items', items, d, ni);
    }
  }

  /**
   * The whole new-line write of `addItemToCart`: store `line` under the next id,
   * list the id last on its cart, and raise the cart's total by its subtotal;
   * the store stays consistent, and the raised total is the cart's new sum.
   */
  lemma InsertStep(carts: map<CartId, Cart>, items: map<ItemId, CartItem>, nc: nat, ni: nat, line: CartItem)
    requires Shape(carts, items, nc, ni) && TotalsAreSums(carts, items, ni)
    requires line.cartId in carts && line.quantity >= 1
    requires forall j :: j in items ==> !IsLine(items, j, line.cartId, line.productId)
    ensures var carts' := Recomputed(Listed(carts, line.cartId, ni), items[ni := line], ni + 1, line.cartId);
            && Shape(carts', items[ni := line], nc, ni + 1)
            && TotalsAreSums(carts', items[ni := line], ni + 1)
  {
    var c := line.cartId;
    var listed := Listed(carts, c, ni);
    var items' := items[ni := line];
    var total := CartSum(items', c, ni + 1);
    assert Shape(listed[c := listed[c].(total := total)], items', nc, ni + 1) by {
      InsertKeepsShape(carts, items, nc, ni, line);
      ShapeIgnoresTotal(listed, items', nc, ni + 1, c, total);
    }
    assert TotalsAreSums(listed[c := listed[c].(total := total)], items', ni + 1) by {
      InsertKeepsOtherTotals(carts, items, nc, ni, line);
      TotalsAfterRecompute(listed, items', ni + 1, c);
    }
  }

  /** After a new line is inserted and its id pushed, recomputing the cart's total raises it by the line's subtotal. */
  lemma InsertRaisesTotal(carts: map<CartId, Cart>, items: map<ItemId, CartItem>, nc: nat, ni: nat, line: CartItem)
    requires IdsIssued(carts, items, nc, ni) && TotalsAreSums(carts, items, ni)
    requires line.cartId in carts
    ensures var c := line.cartId;
            Recomputed(Listed(carts, c, ni), items[ni := line], ni + 1, c)
            == carts[c := carts[c].(items := carts[c].items + [ni], total := carts[c].total + line.subtotal)]
  {
    SumAfterInsert(items, ni, line);
  }

  /**
   * The existing-line write of `addItemToCart` and of the decrement branch of
   * `removeItemFromCart`: store `line` under `k`, then recompute the cart's
   * total; the store stays consistent.
   */
  lemma ReplaceStep(carts: map<CartId, Cart>, items: map<ItemId, CartItem>, nc: nat, ni: nat, k: ItemId, line: CartItem)
    requires Shape(carts, items, nc, ni) && TotalsAreSums(carts, items, ni)
    requires k in items && line.cartId == items[k].cartId && line.productId == items[k].productId
    requires line.quantity >= 1
    ensures var carts' := Recomputed(carts, items[k := line], ni, line.cartId);
            && Shape(carts', items[k := line], nc, ni)
            && TotalsAreSums(carts', items[k := line], ni)
  {
    var c := line.cartId;
    ReplaceKeepsShape(carts, items, nc, ni, k, line);
    ReplaceKeepsOtherTotals(carts, items, ni, k, line);
    ShapeIgnoresTotal(carts, items[k := line], nc, ni, c, CartSum(items[k := line], c, ni));
    TotalsAfterRecompute(carts, items[k := line], ni, c);
  }

  /** After line `k` is rewritten, recomputing its cart's total moves it by the change in subtotal. */
  lemma ReplaceMovesTotal(carts: map<CartId, Cart>, items: map<ItemId, CartItem>, ni: nat, k: ItemId, line: CartItem)
    requires TotalsAreSums(carts, items, ni)
    requires k in items && k < ni && line.cartId == items[k].cartId && line.cartId in carts
    ensures var c := line.cartId;
            Recomputed(carts, items[k := line], ni, c)
            == carts[c := carts[c].(total := carts[c].total - items[k].subtotal + line.subtotal)]
  {
    SumAfterReplace(items, ni, k, line);
  }

  /**
   * The quantity-one branch of `removeItemFromCart`: delete line `k`, then
   * recompute its cart's total; the store stays consistent. The cart's id
   * list is left as it was.
   */
  lemma DeleteLineStep(carts: map<CartId, Cart>, items: map<ItemId, CartItem>, nc: nat, ni: nat, k: ItemId)
    requires Shape(carts, items, nc, ni) && TotalsAreSums(carts, items, ni)
    requires k in items
    ensures var carts' := Recomputed(carts, items - {k}, ni, items[k].cartId);
            && Shape(carts', items - {k}, nc, ni)
            && TotalsAreSums(carts', items - {k}, ni)
  {
    var c := items[k].cartId;
    DeleteLineKeepsShape(carts, items, nc, ni, k);
    DeleteLineKeepsOtherTotals(carts, items, ni, k);
    ShapeIgnoresTotal(carts, items - {k}, nc, ni, c, CartSum(items - {k}, c, ni));
    TotalsAfterRecompute(carts, items - {k}, ni, c);
  }

  /** After line `k` is deleted, recomputing its cart's total lowers it by the line's subtotal. */
  lemma DeleteLowersTotal(carts: map<CartId, Cart>, items: map<ItemId, CartItem>, ni: nat, k: ItemId)
    requires TotalsAreSums(carts, items, ni)
    requires k in items && k < ni && items[k].cartId in carts
    ensures var c := items[k].cartId;
            Recomputed(carts, items - {k}, ni, c) == carts[c := carts[c].(total := carts[c].total - items[k].subtotal)]
  {
    SumAfterDelete(items, ni, k);
  }

  /**
   * `addItemToCart` of one more unit of a product the cart holds, then
   * `removeItemFromCart` of it: the removal finds the same line, which holds more
   * than one unit, and the decrement at the same price restores both collections.
   */
  lemma AddThenRemoveExisting(carts: map<CartId, Cart>, items: map<ItemId, CartItem>, nc: nat, ni: nat,
                              k: ItemId, price: int)
    requires Shape(carts, items, nc, ni) && TotalsAreSums(carts, items, ni)
    requires k in items && items[k].subtotal == Subtotal(items[k].quantity, price)
    ensures var c, p := items[k].cartId, items[k].productId;
            var items1 := Repriced(items, k, items[k].quantity + 1, price);
            var carts1 := Recomputed(carts, items1, ni, c);
            && FindLine(items1, c, p, ni) == Some(k)
            && items1[k].quantity != 1
            && Repriced(items1, k, items1[k].quantity - 1, price) == items
            && Recomputed(carts1, items, ni, c) == carts
  {
    var c, p := items[k].cartId, items[k].productId;
    var items1 := Repriced(items, k, items[k].quantity + 1, price);
    ReplaceKeepsShape(carts, items, nc, ni, k, items1[k]);
    FindLineFindsTheLine(items1, c, p, ni, k);
    assert Repriced(items1, k, items1[k].quantity - 1, price) == items;
  }

  /**
   * `addItemToCart` of one unit of a product the cart lacks, then
   * `removeItemFromCart` of it: the removal finds the new line and deletes it, so
   * the lines are as before and every total is as before, but the new id stays
   * at the end of the cart's list.
   */
  lemma AddThenRemoveNew(carts: map<CartId, Cart>, items: map<ItemId, CartItem>, nc: nat, ni: nat,
                         c: CartId, p: ProductId, price: int)
    requires Shape(carts, items, nc, ni) && TotalsAreSums(carts, items, ni)
    requires c in carts && forall j :: j in items ==> !IsLine(items, j, c, p)
    ensures var items1 := items[ni := CartItem(c, p, 1, Subtotal(1, price))];
            var carts1 := Recomputed(Listed(carts, c, ni), items1, ni + 1, c);
            && FindLine(items1, c, p, ni + 1) == Some(ni)
            && items1[ni].quantity == 1
            && items1 - {ni} == items
            && Recomputed(carts1, items, ni + 1, c) == Listed(carts, c, ni)
  {
    assert ni !in items;
    var items1 := items[ni := CartItem(c, p, 1, Subtotal(1, price))];
    assert items1 - {ni} == items;
    assert CartSum(items, c, ni + 1) == carts[c].total;
  }
}
