/**
 * The cart service: a store of carts and cart lines that its six operations read
 * and update in place, keeping every cart's total equal to the sum of its lines'
 * subtotals.
 */
module CartEngine {
  import opened Outcomes
  import opened CartSchemas
  import opened CartTotals
  import opened CartView
  import opened CartStore

  /** Which record a NotFound is about. */
  datatype Entity = CartRecord | ProductRecord | ItemRecord

  /**
   * The exceptions the service throws; `Uncaught` is the runtime error of
   * reading a field of a product that `populate` left empty.
   */
  datatype Error = BadRequest | Conflict | NotFound(missing: Entity) | Uncaught

  /** An operation's outcome: its value, or the exception it threw. */
  datatype Result<T> = Ok(value: T) | Err(error: Error)

  /** The product id of an add request: an object-id string, or a JSON number (refused). */
  datatype ProductRef = ObjectIdRef(id: ProductId) | NumberRef(n: int)

  class CartService {
    /** The cart collection. */
    var carts: map<CartId, Cart>
    /** The cart-item collection. */
    var items: map<ItemId, CartItem>
    /** The next ids the store hands out to a new cart and to a new line. */
    var nextCartId: nat
    var nextItemId: nat

    ghost predicate Valid()
      reads this
    {
      Shape(carts, items, nextCartId, nextItemId) && TotalsAreSums(carts, items, nextItemId)
    }

    /** An empty store. */
    constructor ()
      ensures Valid()
      ensures carts == map[] && items == map[]
    {
      carts, items := map[], map[];
      nextCartId, nextItemId := 0, 0;
    }

    /** `findOne({ userId })` on the cart collection. */
    method FindCartByUser(userId: UserId) returns (r: Option<CartId>)
      ensures r.Some? ==> r.value in carts && carts[r.value].userId == userId
      ensures r.None? ==> forall c :: c in carts ==> carts[c].userId != userId
    {
      if c :| c in carts && carts[c].userId == userId {
        r := Some(c);
      } else {
        r := None;
      }
    }

    /** `createCart`: refuse an empty user id or a second cart for the user, else insert an empty cart. */
    method CreateCart(userId: UserId) returns (r: Result<(CartId, Cart)>)
      requires Valid()
      modifies this
      ensures Valid()
      ensures userId == [] ==> r == Err(BadRequest)
      ensures userId != [] && (exists c :: c in old(carts) && old(carts)[c].userId == userId) ==> r == Err(Conflict)
      // a non-empty user id without a cart is always accepted
      ensures r.Ok? <==> userId != [] && (forall c :: c in old(carts) ==> old(carts)[c].userId != userId)
      ensures r.Err? ==> carts == old(carts) && nextCartId == old(nextCartId)
      // exactly one cart is added, under a fresh id: the user's, with total 0 and no items
      ensures r.Ok? ==>
                && r.value.0 !in old(carts)
                && r.value.1.userId == userId && r.value.1.total == 0 && r.value.1.items == []
                && carts == old(carts)[r.value.0 := r.value.1]
                && nextCartId == old(nextCartId) + 1
      ensures items == old(items) && nextItemId == old(nextItemId)
    {
      if userId == [] {
        return Err(BadRequest);
      }
      var existing := FindCartByUser(userId);
      if existing.Some? {
        return Err(Conflict);
      }
      var id := nextCartId;
      var cart := NewCart(userId);
      CreateKeeps(carts, items, nextCartId, nextItemId, userId);
      carts := carts[id := cart];
      nextCartId := nextCartId + 1;
      r := Ok((id, cart));
    }

    /**
     * `updateCartTotal`: collect the lines of the cart (`find({ cartId })`), sum
     * their subtotals and write the sum onto the cart, if there is one.
     */
    method UpdateCartTotal(cartId: CartId)
      modifies this
      ensures carts == Recomputed(old(carts), items, nextItemId, cartId)
      ensures items == old(items) && nextCartId == old(nextCartId) && nextItemId == old(nextItemId)
      // on a consistent store the total is already the sum, so the call changes nothing
      ensures old(Valid()) ==> Valid() && carts == old(carts)
    {
      var lines: seq<CartItem> := [];
      var i := 0;
      while i < nextItemId
        invariant 0 <= i <= nextItemId
        invariant lines == LinesOf(items, cartId, i)
      {
        if i in items && items[i].cartId == cartId {
          lines := lines + [items[i]];
        }
        i := i + 1;
      }
      var total := SumSubtotals(lines);
      FoldIsCartSum(items, cartId, nextItemId);
      if Valid() {
        RecomputeIdempotent(carts, items, nextItemId, cartId);
      }
      if cartId in carts {
        carts := carts[cartId := carts[cartId].(total := total)];
      }
    }

    /**
     * `addItemToCart`: find the cart and the product; then raise the quantity of
     * the cart's line for that product, or create the line and push its id onto
     * the cart; finally recompute the total. Returns the line's id and record.
     */
    method AddItemToCart(id: Option<CartId>, product: ProductRef, quantity: int, catalog: map<ProductId, Product>)
      returns (r: Result<(ItemId, CartItem)>)
      requires Valid()
      requires quantity > 0
      modifies this
      ensures Valid()
      ensures id.None? ==> r == Err(BadRequest)
      ensures id.Some? && id.value !in old(carts) ==> r == Err(NotFound(CartRecord))
      ensures id.Some? && id.value in old(carts) && product.NumberRef? ==> r == Err(BadRequest)
      ensures id.Some? && id.value in old(carts) && product.ObjectIdRef? && product.id !in catalog
              ==> r == Err(NotFound(ProductRecord))
      ensures r.Ok? <==> id.Some? && id.value in old(carts) && product.ObjectIdRef? && product.id in catalog
      ensures r.Err? ==> carts == old(carts) && items == old(items) && nextItemId == old(nextItemId)
      ensures nextCartId == old(nextCartId)
      // the returned document is the stored line
      ensures r.Ok? ==> r.value.0 in items && r.value.1 == items[r.value.0]
      // the returned line is an existing one exactly when the cart already held a line for the product
      ensures r.Ok? ==> (r.value.0 in old(items) <==> exists k :: IsLine(old(items), k, id.value, product.id))
      // that line grows by exactly the requested quantity and is re-priced; no line is added
      ensures r.Ok? && r.value.0 in old(items) ==>
                var k := r.value.0;
                && IsLine(old(items), k, id.value, product.id)
                && items == Repriced(old(items), k, old(items)[k].quantity + quantity, catalog[product.id].price)
                && nextItemId == old(nextItemId)
                && carts == Recomputed(old(carts), items, nextItemId, id.value)
      // otherwise a new line holds the requested quantity, and its id goes last on the cart's list
      ensures r.Ok? && r.value.0 !in old(items) ==>
                var k := r.value.0;
                var line := CartItem(id.value, product.id, quantity, Subtotal(quantity, catalog[product.id].price));
                && k == old(nextItemId)
                && items == old(items)[k := line]
                && nextItemId == old(nextItemId) + 1
                && carts == Recomputed(Listed(old(carts), id.value, k), items, nextItemId, id.value)
    {
      if id.None? {
        return Err(BadRequest);
      }
      var cartId := id.value;
      if cartId !in carts {
        return Err(NotFound(CartRecord));
      }
      if product.NumberRef? {
        return Err(BadRequest);
      }
      var productId := product.id;
      if productId !in catalog {
        return Err(NotFound(ProductRecord));
      }
      var itemId := PutLine(cartId, productId, quantity, catalog[productId].price);
      r := Ok((itemId, items[itemId]));
    }

    /**
     * The writes of `addItemToCart` once the cart and the product are found: raise
     * the quantity of the cart's line for the product, or create the line and push
     * its id onto the cart; then recompute the total.
     */
    method PutLine(c: CartId, p: ProductId, quantity: int, price: int) returns (k: ItemId)
      requires Valid()
      requires c in carts && quantity > 0
      modifies this
      ensures Valid()
      ensures nextCartId == old(nextCartId)
      ensures k in old(items) <==> exists j :: IsLine(old(items), j, c, p)
      ensures k in old(items) ==>
                && IsLine(old(items), k, c, p)
                && items == Repriced(old(items), k, old(items)[k].quantity + quantity, price)
                && nextItemId == old(nextItemId)
                && carts == Recomputed(old(carts), items, nextItemId, c)
      ensures k !in old(items) ==>
                var line := CartItem(c, p, quantity, Subtotal(quantity, price));
                && k == old(nextItemId)
                && items == old(items)[k := line]
                && nextItemId == old(nextItemId) + 1
                && carts == Recomputed(Listed(old(carts), c, k), items, nextItemId, c)
    {
      var found := FindLine(items, c, p, nextItemId);
      if found.Some? {
        k := found.value;
        RepriceLine(k, items[k].quantity + quantity, price);
      } else {
        k := InsertLine(CartItem(c, p, quantity, Subtotal(quantity, price)));
      }
    }

    /**
     * The existing-line write of `addItemToCart` and of the decrement branch of
     * `removeItemFromCart`: set line `k` to `quantity` units priced at `price`,
     * then recompute its cart's total.
     */
    method RepriceLine(k: ItemId, quantity: int, price: int)
      requires Valid()
      requires k in items && quantity >= 1
      modifies this
      ensures items == Repriced(old(items), k, quantity, price)
      ensures carts == Recomputed(old(carts), items, nextItemId, old(items)[k].cartId)
      ensures nextCartId == old(nextCartId) && nextItemId == old(nextItemId)
      ensures Valid()
    {
      var line := items[k].(quantity := quantity, subtotal := Subtotal(quantity, price));
      ReplaceStep(carts, items, nextCartId, nextItemId, k, line);
      items := items[k := line];
      UpdateCartTotal(line.cartId);
    }

    /** The new-line branch of `addItemToCart`: store `line` under the next id, push the id onto its cart, recompute the total. */
    method InsertLine(line: CartItem) returns (k: ItemId)
      requires Valid()
      requires line.cartId in carts && line.quantity >= 1
      requires forall j :: j in items ==> !IsLine(items, j, line.cartId, line.productId)
      modifies this
      ensures k == old(nextItemId) && nextItemId == old(nextItemId) + 1
      ensures items == old(items)[k := line]
      ensures carts == Recomputed(Listed(old(carts), line.cartId, k), items, nextItemId, line.cartId)
      ensures nextCartId == old(nextCartId)
      ensures Valid()
    {
      k := nextItemId;
      InsertStep(carts, items, nextCartId, nextItemId, line);
      carts, items, nextItemId := Listed(carts, line.cartId, k), items[k := line], nextItemId + 1;
      UpdateCartTotal(line.cartId);
    }

    /** The line-deletion branch of `removeItemFromCart`: delete line `k`, then recompute its cart's total. */
    method DeleteLine(k: ItemId)
      requires Valid()
      requires k in items
      modifies this
      ensures items == old(items) - {k}
      ensures carts == Recomputed(old(carts), items, nextItemId, old(items)[k].cartId)
      ensures nextCartId == old(nextCartId) && nextItemId == old(nextItemId)
      ensures Valid()
    {
      var c := items[k].cartId;
      DeleteLineStep(carts, items, nextCartId, nextItemId, k);
      items := items - {k};
      UpdateCartTotal(c);
    }

    /**
     * `removeItemFromCart`: find the cart and its line for the product; delete a
     * line holding one unit, otherwise take one unit off and re-price it at the
     * product's current price; then recompute the total. The deleted line's id
     * stays on the cart's list, and a product missing from the catalogue aborts
     * the decrement before anything is written.
     */
    method RemoveItemFromCart(id: Option<CartId>, productId: ProductId, catalog: map<ProductId, Product>)
      returns (r: Result<()>)
      requires Valid()
      modifies this
      ensures Valid()
      ensures id.None? ==> r == Err(BadRequest)
      ensures id.Some? && id.value !in old(carts) ==> r == Err(NotFound(CartRecord))
      ensures id.Some? && id.value in old(carts) ==>
                var found := FindLine(old(items), id.value, productId, old(nextItemId));
                && (found.None? ==> r == Err(NotFound(ItemRecord)))
                && (found.Some? ==>
                      var k := found.value;
                      var quantity := old(items)[k].quantity;
                      && (quantity == 1 ==> r == Ok(()) && items == old(items) - {k})
                      && (quantity != 1 && productId !in catalog ==> r == Err(NotFound(ProductRecord)))
                      && (quantity != 1 && productId in catalog ==>
                            && r == Ok(())
                            && items == Repriced(old(items), k, quantity - 1, catalog[productId].price)))
      ensures r.Err? ==> carts == old(carts) && items == old(items)
      ensures r.Ok? ==> carts == Recomputed(old(carts), items, nextItemId, id.value)
      ensures nextCartId == old(nextCartId) && nextItemId == old(nextItemId)
    {
      if id.None? {
        return Err(BadRequest);
      }
      var cartId := id.value;
      if cartId !in carts {
        return Err(NotFound(CartRecord));
      }
      var found := FindLine(items, cartId, productId, nextItemId);
      if found.None? {
        return Err(NotFound(ItemRecord));
      }
      var k := found.value;
      if items[k].quantity == 1 {
        DeleteLine(k);
      } else {
        if productId !in catalog {
          return Err(NotFound(ProductRecord));
        }
        RepriceLine(k, items[k].quantity - 1, catalog[productId].price);
      }
      r := Ok(());
    }

    /**
     * `deleteCart`: find the cart, delete every line of it (`deleteMany`), then
     * delete the cart itself.
     */
    method DeleteCart(id: Option<CartId>) returns (r: Result<()>)
      requires Valid()
      modifies this
      ensures Valid()
      ensures id.None? ==> r == Err(BadRequest)
      ensures id.Some? && id.value !in old(carts) ==> r == Err(NotFound(CartRecord))
      ensures r.Ok? <==> id.Some? && id.value in old(carts)
      ensures r.Err? ==> carts == old(carts) && items == old(items)
      ensures r.Ok? ==> items == DropLinesOf(old(items), id.value) && carts == old(carts) - {id.value}
      // no line of the cart is left, every other line is kept unchanged, and no line is added
      ensures r.Ok? ==> forall k :: k in items ==> k in old(items) && items[k] == old(items)[k] && items[k].cartId != id.value
      ensures r.Ok? ==> forall k :: k in old(items) && old(items)[k].cartId != id.value ==> k in items
      ensures nextCartId == old(nextCartId) && nextItemId == old(nextItemId)
    {
      if id.None? {
        return Err(BadRequest);
      }
      var cartId := id.value;
      if cartId !in carts {
        return Err(NotFound(CartRecord));
      }
      DeleteCartKeeps(carts, items, nextCartId, nextItemId, cartId);
      items := DropLinesOf(items, cartId);
      carts := carts - {cartId};
      r := Ok(());
    }

    /**
     * `getCart`: the user's cart, if any, with its listed lines joined to their
     * products and re-priced at the current catalogue price, and its stored total.
     */
    method GetCart(id: Option<UserId>, catalog: map<ProductId, Product>) returns (r: Result<Option<CartResponse>>)
      requires Valid()
      ensures id.None? ==> r == Err(BadRequest)
      ensures id.Some? && (forall c :: c in carts ==> carts[c].userId != id.value) ==> r == Ok(None)
      ensures id.Some? ==> forall c :: c in carts && carts[c].userId == id.value ==>
                var ids := carts[c].items;
                && (!ProductsFound(ids, items, catalog) ==> r == Err(Uncaught))
                && (ProductsFound(ids, items, catalog) ==>
                      r == Ok(Some(CartResponse(c, id.value, ItemResponses(ids, items, catalog), carts[c].total))))
      // one entry per line of the cart, in creation order, whatever deleted ids its list still holds
      ensures r.Ok? && r.value.Some? ==>
                var c := r.value.value.id;
                var lines := LinesOf(items, c, nextItemId);
                && c in carts
                && |r.value.value.items| == |lines|
                && (forall j :: 0 <= j < |lines| ==> Some(r.value.value.items[j]) == ProjectLine(lines[j], catalog))
      // the entries add up to the stored total unless some line was priced before the product's price changed
      ensures r.Ok? && r.value.Some? ==>
                var c := r.value.value.id;
                && c in carts
                && (PricedAtCatalog(items, catalog, c) ==> ResponseSum(r.value.value.items) == r.value.value.total)
    {
      if id.None? {
        return Err(BadRequest);
      }
      var found := FindCartByUser(id.value);
      if found.None? {
        return Ok(None);
      }
      var c := found.value;
      var ids := carts[c].items;
      if !ProductsFound(ids, items, catalog) {
        return Err(Uncaught);
      }
      ResponsesFollowLines(ids, items, catalog, c, nextItemId);
      CartLinesPriced(ids, items, catalog, c, nextItemId);
      LineResponsesWhenPriced(LinesOf(items, c, nextItemId), catalog);
      if PricedAtCatalog(items, catalog, c) {
        ResponsesAgreeWithSum(ids, items, catalog, c, nextItemId);
      }
      r := Ok(Some(CartResponse(c, id.value, ItemResponses(ids, items, catalog), carts[c].total)));
    }
  }
}
