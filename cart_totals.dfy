/**
 * The cart total as the service computes it: the lines of one cart, in the
 * order the store returns them, folded into the sum of their subtotals; and
 * the same sum stated id by id, which the consistency rules of the store use.
 */
module CartTotals {
  import opened CartSchemas

  /** The line stored under id `i`, if it belongs to cart `c`, as a list of zero or one line. */
  function LineAt(items: map<ItemId, CartItem>, c: CartId, i: ItemId): seq<CartItem>
  {
    if i in items && items[i].cartId == c then [items[i]] else []
  }

  /** The lines of cart `c` among the ids below `n`, in increasing id (insertion) order. */
  function LinesOf(items: map<ItemId, CartItem>, c: CartId, n: nat): (r: seq<CartItem>)
    ensures |r| <= n
    ensures forall j :: 0 <= j < |r| ==> r[j].cartId == c
  {
    if n == 0 then [] else LinesOf(items, c, n - 1) + LineAt(items, c, n - 1)
  }

  /** The left fold `reduce((sum, item) => sum + item.subtotal, 0)`. */
  function SumSubtotals(lines: seq<CartItem>): (r: int)
    // lines that charge nothing negative add up to a total that is not negative
    ensures (forall j :: 0 <= j < |lines| ==> lines[j].subtotal >= 0) ==> r >= 0
  {
    if lines == [] then 0 else SumSubtotals(lines[..|lines| - 1]) + lines[|lines| - 1].subtotal
  }

  /** What the line under id `i` adds to cart `c`'s total: its subtotal if it is one of the cart's lines. */
  function LineShare(items: map<ItemId, CartItem>, c: CartId, i: ItemId): int
  {
    if i in items && items[i].cartId == c then items[i].subtotal else 0
  }

  /** The total cart `c` should carry: the subtotals of its lines stored under ids below `n`. */
  function CartSum(items: map<ItemId, CartItem>, c: CartId, n: nat): (r: int)
    ensures (forall i :: i in items ==> items[i].subtotal >= 0) ==> r >= 0
  {
    if n == 0 then 0 else CartSum(items, c, n - 1) + LineShare(items, c, n - 1)
  }

  /** The cart collection after `updateCartTotal(c)`: cart `c`, if stored, carries the sum of its lines. */
  function Recomputed(carts: map<CartId, Cart>, items: map<ItemId, CartItem>, n: nat, c: CartId): map<CartId, Cart>
  {
    if c in carts then carts[c := carts[c].(total := CartSum(items, c, n))] else carts
  }

  /**
   * `updateCartTotal(c)` creates and removes no cart and changes no other cart;
   * cart `c` keeps its owner and id list, and its total becomes the fold of the
   * lines `find({ cartId })` returns.
   */
  lemma RecomputedWrites(carts: map<CartId, Cart>, items: map<ItemId, CartItem>, n: nat, c: CartId)
    ensures Recomputed(carts, items, n, c).Keys == carts.Keys
    ensures forall d :: d in carts && d != c ==> Recomputed(carts, items, n, c)[d] == carts[d]
    ensures c in carts ==>
              var cart := Recomputed(carts, items, n, c)[c];
              && cart.userId == carts[c].userId && cart.items == carts[c].items
              && cart.total == SumSubtotals(LinesOf(items, c, n))
  {
    FoldIsCartSum(items, c, n);
  }

  /** Recomputing a total that already is the sum of the cart's lines changes nothing. */
  lemma RecomputeIdempotent(carts: map<CartId, Cart>, items: map<ItemId, CartItem>, n: nat, c: CartId)
    requires c in carts ==> carts[c].total == CartSum(items, c, n)
    ensures Recomputed(carts, items, n, c) == carts
  {
  }

  /** Recomputing twice is recomputing once. */
  lemma RecomputeTwice(carts: map<CartId, Cart>, items: map<ItemId, CartItem>, n: nat, c: CartId)
    ensures Recomputed(Recomputed(carts, items, n, c), items, n, c) == Recomputed(carts, items, n, c)
  {
  }

  /** Summing a concatenation sums the parts. */
  lemma {:induction false} SumSubtotalsAppend(a: seq<CartItem>, b: seq<CartItem>)
    ensures SumSubtotals(a + b) == SumSubtotals(a) + SumSubtotals(b)
    decreases |b|
  {
    if b == [] {
      assert a + b == a;
    } else {
      var b' := b[..|b| - 1];
      assert (a + b)[..|a + b| - 1] == a + b';
      SumSubtotalsAppend(a, b');
    }
  }

  /** Folding the cart's lines, as `find` returns them, gives the cart's sum. */
  lemma {:induction false} FoldIsCartSum(items: map<ItemId, CartItem>, c: CartId, n: nat)
    ensures SumSubtotals(LinesOf(items, c, n)) == CartSum(items, c, n)
  {
    if n > 0 {
      FoldIsCartSum(items, c, n - 1);
      SumSubtotalsAppend(LinesOf(items, c, n - 1), LineAt(items, c, n - 1));
      var one := LineAt(items, c, n - 1);
      assert SumSubtotals(one) == LineShare(items, c, n - 1) by {
        if one != [] {
          assert one[..0] == [];
        }
      }
    }
  }

  /** `line` is stored under some id below `n`. */
  ghost predicate StoredBelow(items: map<ItemId, CartItem>, n: nat, line: CartItem)
  {
    exists i :: 0 <= i < n && i in items && items[i] == line
  }

  /**
   * `LinesOf` lists the lines of cart `c` stored under ids below `n`, and nothing
   * else: every entry is a stored line of the cart and every such line is listed.
   */
  lemma {:induction false} LinesOfExactly(items: map<ItemId, CartItem>, c: CartId, n: nat)
    ensures forall j :: 0 <= j < |LinesOf(items, c, n)| ==> StoredBelow(items, n, LinesOf(items, c, n)[j])
    ensures forall i :: 0 <= i < n && i in items && items[i].cartId == c ==> items[i] in LinesOf(items, c, n)
  {
    if n > 0 {
      LinesOfExactly(items, c, n - 1);
      var front := LinesOf(items, c, n - 1);
      forall j | 0 <= j < |LinesOf(items, c, n)|
        ensures StoredBelow(items, n, LinesOf(items, c, n)[j])
      {
        if j < |front| {
          assert LinesOf(items, c, n)[j] == front[j];
          var i :| 0 <= i < n - 1 && i in items && items[i] == front[j];
          assert 0 <= i < n && i in items && items[i] == LinesOf(items, c, n)[j];
        } else {
          assert items[n - 1] == LinesOf(items, c, n)[j];
        }
      }
    }
  }

  /** Two stores that agree on what each id below `n` adds to cart `c` give it the same sum. */
  lemma {:induction false} CartSumAgree(a: map<ItemId, CartItem>, b: map<ItemId, CartItem>, c: CartId, n: nat)
    requires forall i :: 0 <= i < n ==> LineShare(a, c, i) == LineShare(b, c, i)
    ensures CartSum(a, c, n) == CartSum(b, c, n)
  {
    if n > 0 {
      CartSumAgree(a, b, c, n - 1);
    }
  }

  /** A cart that owns no line sums to 0. */
  lemma {:induction false} NoLinesSumZero(items: map<ItemId, CartItem>, c: CartId, n: nat)
    requires forall i :: i in items ==> items[i].cartId != c
    ensures CartSum(items, c, n) == 0
  {
    if n > 0 {
      NoLinesSumZero(items, c, n - 1);
    }
  }

  /** Storing a new line under the first unused id adds its subtotal to its cart's sum. */
  lemma SumAfterInsert(items: map<ItemId, CartItem>, n: nat, line: CartItem)
    requires forall i :: i in items ==> i < n
    ensures CartSum(items[n := line], line.cartId, n + 1) == CartSum(items, line.cartId, n) + line.subtotal
  {
    CartSumAgree(items[n := line], items, line.cartId, n);
  }

  /** Rewriting one line of cart `c` moves the cart's sum by exactly the change in that line's subtotal. */
  lemma {:induction false} SumAfterReplace(items: map<ItemId, CartItem>, n: nat, k: ItemId, line: CartItem)
    requires k in items && k < n && line.cartId == items[k].cartId
    ensures CartSum(items[k := line], line.cartId, n)
            == CartSum(items, line.cartId, n) - items[k].subtotal + line.subtotal
  {
    if k == n - 1 {
      CartSumAgree(items[k := line], items, line.cartId, n - 1);
    } else {
      SumAfterReplace(items, n - 1, k, line);
    }
  }

  /** Deleting one line of cart `c` lowers the cart's sum by exactly that line's subtotal. */
  lemma {:induction false} SumAfterDelete(items: map<ItemId, CartItem>, n: nat, k: ItemId)
    requires k in items && k < n
    ensures CartSum(items - {k}, items[k].cartId, n) == CartSum(items, items[k].cartId, n) - items[k].subtotal
  {
    if k == n - 1 {
      CartSumAgree(items - {k}, items, items[k].cartId, n - 1);
    } else {
      SumAfterDelete(items, n - 1, k);
    }
  }

  /** Three lines of 100.00, 200.00 and 150.00 fold to a total of 450.00 (amounts in cents). */
  lemma ThreeLinesTotal(c: CartId)
    ensures SumSubtotals([CartItem(c, 1, 1, 10000), CartItem(c, 2, 1, 20000), CartItem(c, 3, 1, 15000)]) == 45000
  {
    var a, b, d := CartItem(c, 1, 1, 10000), CartItem(c, 2, 1, 20000), CartItem(c, 3, 1, 15000);
    assert [a][..0] == [];
    assert SumSubtotals([a]) == 10000;
    assert [a, b][..1] == [a];
    assert SumSubtotals([a, b]) == 30000;
    assert [a, b, d][..2] == [a, b];
  }
}
