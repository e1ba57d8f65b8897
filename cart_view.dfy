/**
 * The read projection of `getCart`: each item id the cart lists is joined with
 * its stored line and its catalogue product and re-priced at the current price.
 */
module CartView {
  import opened Outcomes
  import opened CartSchemas
  import opened CartTotals
  import opened CartListing

  /** One entry of the projected cart. */
  datatype CartItemResponse =
    CartItemResponse(productId: ProductId, productName: string, price: int, quantity: int, subtotal: int)

  /** The projected cart: its id, owner, entries in list order, and the stored total. */
  datatype CartResponse = CartResponse(id: CartId, userId: UserId, items: seq<CartItemResponse>, total: int)

  /**
   * The entry for one stored line joined with its catalogue product: None when
   * the product is gone from the catalogue.
   */
  function ProjectLine(line: CartItem, catalog: map<ProductId, Product>): Option<CartItemResponse>
  {
    if line.productId in catalog then
      var product := catalog[line.productId];
      Some(CartItemResponse(line.productId, product.name, product.price, line.quantity, Subtotal(line.quantity, product.price)))
    else
      None
  }

  /**
   * The entry for one listed id: None when the id no longer names a stored line
   * (the line was deleted) or its product is gone from the catalogue.
   */
  function ItemResponse(items: map<ItemId, CartItem>, catalog: map<ProductId, Product>, id: ItemId): Option<CartItemResponse>
  {
    if id in items then ProjectLine(items[id], catalog) else None
  }

  /** Every listed id that names a stored line names one whose product is in the catalogue. */
  predicate ProductsFound(ids: seq<ItemId>, items: map<ItemId, CartItem>, catalog: map<ProductId, Product>)
  {
    forall j :: 0 <= j < |ids| && ids[j] in items ==> items[ids[j]].productId in catalog
  }

  /** An optional entry as a list of zero or one entries. */
  function Entries(e: Option<CartItemResponse>): seq<CartItemResponse>
  {
    if e.Some? then [e.value] else []
  }

  /** The entries for a list of item ids, in list order, skipping ids that do not resolve. */
  function ItemResponses(ids: seq<ItemId>, items: map<ItemId, CartItem>, catalog: map<ProductId, Product>): (r: seq<CartItemResponse>)
    ensures |r| <= |ids|
    // every entry is priced at the current catalogue price, not echoed from the stored subtotal
    ensures forall k :: 0 <= k < |r| ==> r[k].subtotal == r[k].quantity * r[k].price
  {
    if ids == [] then []
    else ItemResponses(ids[..|ids| - 1], items, catalog) + Entries(ItemResponse(items, catalog, ids[|ids| - 1]))
  }

  /** Projecting a concatenation of id lists concatenates the projections. */
  lemma {:induction false} ItemResponsesAppend(a: seq<ItemId>, b: seq<ItemId>, items: map<ItemId, CartItem>, catalog: map<ProductId, Product>)
    ensures ItemResponses(a + b, items, catalog) == ItemResponses(a, items, catalog) + ItemResponses(b, items, catalog)
    decreases |b|
  {
    if b == [] {
      assert a + b == a;
    } else {
      var b' := b[..|b| - 1];
      assert (a + b)[..|a + b| - 1] == a + b';
      assert (a + b)[|a + b| - 1] == b[|b| - 1];
      ItemResponsesAppend(a, b', items, catalog);
    }
  }

  /** The positions of `ids` whose id resolves to an entry, in increasing order. */
  function ResolvedPositions(ids: seq<ItemId>, items: map<ItemId, CartItem>, catalog: map<ProductId, Product>): seq<nat>
  {
    if ids == [] then []
    else
      var last := |ids| - 1;
      ResolvedPositions(ids[..last], items, catalog) + (if ItemResponse(items, catalog, ids[last]).Some? then [last] else [])
  }

  /** The resolving positions lie in the list, increase, and include every position whose id resolves. */
  lemma {:induction false} ResolvedPositionsSpan(ids: seq<ItemId>, items: map<ItemId, CartItem>, catalog: map<ProductId, Product>)
    ensures forall k :: 0 <= k < |ResolvedPositions(ids, items, catalog)| ==> ResolvedPositions(ids, items, catalog)[k] < |ids|
    ensures forall k, l :: 0 <= k < l < |ResolvedPositions(ids, items, catalog)| ==>
              ResolvedPositions(ids, items, catalog)[k] < ResolvedPositions(ids, items, catalog)[l]
    ensures forall j :: 0 <= j < |ids| && ItemResponse(items, catalog, ids[j]).Some? ==>
              j in ResolvedPositions(ids, items, catalog)
  {
    if ids != [] {
      var last := |ids| - 1;
      var front := ids[..last];
      ResolvedPositionsSpan(front, items, catalog);
      var pos0 := ResolvedPositions(front, items, catalog);
      var pos := ResolvedPositions(ids, items, catalog);
      assert pos == pos0 + (if ItemResponse(items, catalog, ids[last]).Some? then [last] else []);
      forall j | 0 <= j < last && ItemResponse(items, catalog, ids[j]).Some?
        ensures j in pos
      {
        assert ids[j] == front[j];
      }
    }
  }

  /** The k-th entry is the entry of the id at the k-th resolving position. */
  lemma {:induction false} ResolvedPositionsEntries(ids: seq<ItemId>, items: map<ItemId, CartItem>, catalog: map<ProductId, Product>)
    ensures |ResolvedPositions(ids, items, catalog)| == |ItemResponses(ids, items, catalog)|
    ensures forall k :: 0 <= k < |ResolvedPositions(ids, items, catalog)| ==>
              ResolvedPositions(ids, items, catalog)[k] < |ids| &&
              ItemResponse(items, catalog, ids[ResolvedPositions(ids, items, catalog)[k]]) == Some(ItemResponses(ids, items, catalog)[k])
  {
    if ids != [] {
      var last := |ids| - 1;
      var front := ids[..last];
      ResolvedPositionsEntries(front, items, catalog);
      ResolvedPositionsSpan(front, items, catalog);
      var pos0, r0 := ResolvedPositions(front, items, catalog), ItemResponses(front, items, catalog);
      var pos, r := ResolvedPositions(ids, items, catalog), ItemResponses(ids, items, catalog);
      var e := ItemResponse(items, catalog, ids[last]);
      assert r == r0 + Entries(e);
      assert pos == pos0 + (if e.Some? then [last] else []);
      forall k | 0 <= k < |pos|
        ensures pos[k] < |ids| && ItemResponse(items, catalog, ids[pos[k]]) == Some(r[k])
      {
        if k < |pos0| {
          assert pos[k] == pos0[k] && r[k] == r0[k] && ids[pos0[k]] == front[pos0[k]];
        }
      }
    }
  }

  /** The entries for a sequence of stored lines, in order, skipping lines whose product is gone. */
  function LineResponses(lines: seq<CartItem>, catalog: map<ProductId, Product>): (r: seq<CartItemResponse>)
    ensures |r| <= |lines|
  {
    if lines == [] then []
    else LineResponses(lines[..|lines| - 1], catalog) + Entries(ProjectLine(lines[|lines| - 1], catalog))
  }

  /** Projecting a concatenation of lines concatenates the projections. */
  lemma {:induction false} LineResponsesAppend(a: seq<CartItem>, b: seq<CartItem>, catalog: map<ProductId, Product>)
    ensures LineResponses(a + b, catalog) == LineResponses(a, catalog) + LineResponses(b, catalog)
    decreases |b|
  {
    if b == [] {
      assert a + b == a;
    } else {
      var b' := b[..|b| - 1];
      assert (a + b)[..|a + b| - 1] == a + b';
      assert (a + b)[|a + b| - 1] == b[|b| - 1];
      LineResponsesAppend(a, b', catalog);
    }
  }

  /** When every line's product is in the catalogue, there is exactly one entry per line, in order. */
  lemma {:induction false} LineResponsesWhenPriced(lines: seq<CartItem>, catalog: map<ProductId, Product>)
    requires forall j :: 0 <= j < |lines| ==> lines[j].productId in catalog
    ensures |LineResponses(lines, catalog)| == |lines|
    ensures forall j :: 0 <= j < |lines| ==> Some(LineResponses(lines, catalog)[j]) == ProjectLine(lines[j], catalog)
  {
    if lines != [] {
      var front := lines[..|lines| - 1];
      assert forall j :: 0 <= j < |front| ==> front[j] == lines[j];
      LineResponsesWhenPriced(front, catalog);
    }
  }

  /** The sum of the entries' subtotals. */
  function ResponseSum(rs: seq<CartItemResponse>): int
  {
    if rs == [] then 0 else ResponseSum(rs[..|rs| - 1]) + rs[|rs| - 1].subtotal
  }

  /** Every line of cart `c` has a catalogue product, and its stored subtotal is priced at that product's price. */
  ghost predicate PricedAtCatalog(items: map<ItemId, CartItem>, catalog: map<ProductId, Product>, c: CartId)
  {
    forall k :: k in items && items[k].cartId == c ==>
      items[k].productId in catalog && items[k].subtotal == items[k].quantity * catalog[items[k].productId].price
  }

  /** Adding zero or one entry adds its subtotal to the sum. */
  lemma ResponseSumExtend(rs: seq<CartItemResponse>, e: Option<CartItemResponse>)
    ensures ResponseSum(rs + Entries(e)) == ResponseSum(rs) + (if e.Some? then e.value.subtotal else 0)
  {
    if e.Some? {
      assert (rs + [e.value])[..|rs|] == rs;
    } else {
      assert rs + Entries(e) == rs;
    }
  }

  /**
   * When no line of the cart has drifted from its catalogue price, the re-priced
   * entries add up to the cart's sum of stored subtotals.
   */
  lemma {:induction false} ResponsesAgreeWithSum(
    ids: seq<ItemId>, items: map<ItemId, CartItem>, catalog: map<ProductId, Product>, c: CartId, n: nat)
    requires ListsLinesOf(ids, items, c, n)
    requires PricedAtCatalog(items, catalog, c)
    ensures ResponseSum(ItemResponses(ids, items, catalog)) == CartSum(items, c, n)
  {
    if n > 0 {
      var last := n - 1;
      if ids != [] && ids[|ids| - 1] == last {
        var front := ids[..|ids| - 1];
        ResponsesAgreeWithSum(front, items, catalog, c, last);
        ResponseSumExtend(ItemResponses(front, items, catalog), ItemResponse(items, catalog, last));
      } else {
        ResponsesAgreeWithSum(ids, items, catalog, c, last);
      }
    }
  }

  /** The entry of an id that holds no line of another cart is the projection of the cart's line there, if any. */
  lemma EntryOfListedId(items: map<ItemId, CartItem>, catalog: map<ProductId, Product>, c: CartId, i: ItemId)
    requires !Foreign(items, c, i)
    ensures Entries(ItemResponse(items, catalog, i)) == LineResponses(LineAt(items, c, i), catalog)
  {
    if i in items {
      assert LineAt(items, c, i) == [items[i]];
      assert [items[i]][..0] == [];
    }
  }

  /**
   * Projecting a cart's id list, deleted ids and all, gives one entry per line
   * of the cart whose product is in the catalogue, in creation order: the same
   * as projecting the lines `find({ cartId })` returns.
   */
  lemma {:induction false} ResponsesFollowLines(
    ids: seq<ItemId>, items: map<ItemId, CartItem>, catalog: map<ProductId, Product>, c: CartId, n: nat)
    requires ListsLinesOf(ids, items, c, n)
    ensures ItemResponses(ids, items, catalog) == LineResponses(LinesOf(items, c, n), catalog)
  {
    if n > 0 {
      var last := n - 1;
      var before := LinesOf(items, c, last);
      assert LinesOf(items, c, n) == before + LineAt(items, c, last);
      LineResponsesAppend(before, LineAt(items, c, last), catalog);
      if ids != [] && ids[|ids| - 1] == last {
        var front := ids[..|ids| - 1];
        ResponsesFollowLines(front, items, catalog, c, last);
        EntryOfListedId(items, catalog, c, last);
        assert ItemResponses(ids, items, catalog) == ItemResponses(front, items, catalog) + Entries(ItemResponse(items, catalog, last));
      } else {
        ResponsesFollowLines(ids, items, catalog, c, last);
        assert LineAt(items, c, last) == [];
      }
    } else {
      assert ids == [];
    }
  }

  /**
   * When every listed line has its product in the catalogue, so does every line
   * of the cart: the list names them all.
   */
  lemma CartLinesPriced(ids: seq<ItemId>, items: map<ItemId, CartItem>, catalog: map<ProductId, Product>, c: CartId, n: nat)
    requires ListsLinesOf(ids, items, c, n) && ProductsFound(ids, items, catalog)
    ensures forall j :: 0 <= j < |LinesOf(items, c, n)| ==> LinesOf(items, c, n)[j].productId in catalog
  {
    ListingMeans(ids, items, c, n);
    LinesOfExactly(items, c, n);
    forall j | 0 <= j < |LinesOf(items, c, n)|
      ensures LinesOf(items, c, n)[j].productId in catalog
    {
      assert StoredBelow(items, n, LinesOf(items, c, n)[j]);
      var i :| 0 <= i < n && i in items && items[i] == LinesOf(items, c, n)[j];
      assert Owns(items, c, i);
      var m :| 0 <= m < |ids| && ids[m] == i;
    }
  }

  /** Two units of a product priced 50.00 project to one entry with subtotal 100.00 (amounts in cents). */
  lemma OneLineProjection()
    ensures ItemResponses([12], map[12 := CartItem(11, 13, 2, 10000)], map[13 := Product("Product A", 5000)])
            == [CartItemResponse(13, "Product A", 5000, 2, 10000)]
  {
  }
}
