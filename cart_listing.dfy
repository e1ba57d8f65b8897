/**
 * The rule that ties a cart's list of item ids to the lines stored for it: the
 * ids are pushed in creation order, and deleting a line leaves its id behind.
 */
module CartListing {
  import opened CartSchemas

  /** Id `i` holds a line of cart `c`. */
  predicate Owns(items: map<ItemId, CartItem>, c: CartId, i: ItemId)
  {
    i in items && items[i].cartId == c
  }

  /** Id `i` holds a line of some cart other than `c`. */
  predicate Foreign(items: map<ItemId, CartItem>, c: CartId, i: ItemId)
  {
    i in items && items[i].cartId != c
  }

  /**
   * `ids` is what cart `c`'s id list holds once the ids below `n` have been
   * handed out: in increasing order, every line of the cart, no line of another
   * cart, and possibly ids whose lines were deleted since.
   */
  ghost predicate ListsLinesOf(ids: seq<ItemId>, items: map<ItemId, CartItem>, c: CartId, n: nat): (r: bool)
    ensures r ==> |ids| <= n
  {
    if n == 0 then ids == []
    else if ids != [] && ids[|ids| - 1] == n - 1 then
      !Foreign(items, c, n - 1) && ListsLinesOf(ids[..|ids| - 1], items, c, n - 1)
    else
      !Owns(items, c, n - 1) && ListsLinesOf(ids, items, c, n - 1)
  }

  /** What a listing says, position by position. */
  lemma {:induction false} ListingMeans(ids: seq<ItemId>, items: map<ItemId, CartItem>, c: CartId, n: nat)
    requires ListsLinesOf(ids, items, c, n)
    ensures forall i, j :: 0 <= i < j < |ids| ==> ids[i] < ids[j]
    ensures forall j :: 0 <= j < |ids| ==> ids[j] < n
    ensures forall j :: 0 <= j < |ids| ==> !Foreign(items, c, ids[j])
    ensures forall k :: 0 <= k < n && Owns(items, c, k) ==> k in ids
  {
    if n > 0 {
      if ids != [] && ids[|ids| - 1] == n - 1 {
        var front := ids[..|ids| - 1];
        ListingMeans(front, items, c, n - 1);
        assert forall j :: 0 <= j < |front| ==> ids[j] == front[j];
        assert forall k :: k in front ==> k in ids;
      } else {
        ListingMeans(ids, items, c, n - 1);
      }
    }
  }

  /** A cart that owns no line below `n` is listed by the empty list. */
  lemma {:induction false} EmptyListing(items: map<ItemId, CartItem>, c: CartId, n: nat)
    requires forall i :: 0 <= i < n ==> !Owns(items, c, i)
    ensures ListsLinesOf([], items, c, n)
  {
    if n > 0 {
      EmptyListing(items, c, n - 1);
    }
  }

  /**
   * A listing stays one when no id below `n` gains a line of the cart and no id
   * gains a line of another cart: lines may be rewritten in place or deleted.
   */
  lemma {:induction false} ListingKept(ids: seq<ItemId>, a: map<ItemId, CartItem>, b: map<ItemId, CartItem>, c: CartId, n: nat)
    requires ListsLinesOf(ids, a, c, n)
    requires forall i :: 0 <= i < n ==> (Owns(b, c, i) ==> Owns(a, c, i)) && (Foreign(b, c, i) ==> Foreign(a, c, i))
    ensures ListsLinesOf(ids, b, c, n)
  {
    if n > 0 {
      if ids != [] && ids[|ids| - 1] == n - 1 {
        ListingKept(ids[..|ids| - 1], a, b, c, n - 1);
      } else {
        ListingKept(ids, a, b, c, n - 1);
      }
    }
  }
}
