/** The cart line table as a sequence of rows, and what the cart endpoints do
    to it. A cart's contents are summarised by `Quantity`: how many copies of
    a (track, tier) pair a cart holds, summed over its rows. */
module CartLines {
  import opened Wrappers
  import opened Models

  /** The position of the row for (cart, track, tier), if there is one. */
  function FindLine(items: seq<CartItem>, cart: CartId, track: TrackId, tier: TierId): (r: Option<nat>)
    ensures r.Some? ==> r.value < |items| && IsLine(items[r.value], cart, track, tier)
    ensures r.None? ==> forall i :: 0 <= i < |items| ==> !IsLine(items[i], cart, track, tier)
    decreases |items|
  {
    if items == [] then None
    else if IsLine(items[|items| - 1], cart, track, tier) then Some(|items| - 1)
    else FindLine(items[..|items| - 1], cart, track, tier)
  }

  /** What one row contributes to the (cart, track, tier) count. */
  function Held(it: CartItem, cart: CartId, track: TrackId, tier: TierId): nat {
    if IsLine(it, cart, track, tier) then it.quantity else 0
  }

  /** Copies of `track` under `tier` held in `cart`, over all rows. */
  function Quantity(items: seq<CartItem>, cart: CartId, track: TrackId, tier: TierId): nat
    decreases |items|
  {
    if items == [] then 0
    else Quantity(items[..|items| - 1], cart, track, tier) + Held(items[|items| - 1], cart, track, tier)
  }

  /** The rows of one cart (`cart.items.all()`), in table order. */
  function LinesOf(items: seq<CartItem>, cart: CartId): (r: seq<CartItem>)
    ensures forall it :: it in r <==> it in items && it.cart == cart
    ensures |r| <= |items|
    decreases |items|
  {
    if items == [] then []
    else
      var rest := LinesOf(items[..|items| - 1], cart);
      if items[|items| - 1].cart == cart then rest + [items[|items| - 1]] else rest
  }

  /** The table after `cart.items.all().delete()`. */
  function WithoutCart(items: seq<CartItem>, cart: CartId): (r: seq<CartItem>)
    ensures forall it :: it in r <==> it in items && it.cart != cart
    ensures |r| <= |items|
    decreases |items|
  {
    if items == [] then []
    else
      var rest := WithoutCart(items[..|items| - 1], cart);
      if items[|items| - 1].cart != cart then rest + [items[|items| - 1]] else rest
  }

  /** The table after `add_item`: the existing row for the pair grows by
      `quantity`, or a new row with `quantity` is appended. */
  function MergeLine(items: seq<CartItem>, cart: CartId, track: TrackId, tier: TierId, quantity: nat): (r: seq<CartItem>)
    ensures |r| == |items| || |r| == |items| + 1
  {
    match FindLine(items, cart, track, tier)
    case Some(k) => items[k := items[k].(quantity := items[k].quantity + quantity)]
    case None => items + [CartItem(cart, track, tier, quantity)]
  }

  /** The table after deleting the row at position `k`. */
  function RemoveAt(items: seq<CartItem>, k: nat): (r: seq<CartItem>)
    requires k < |items|
    ensures |r| == |items| - 1
    ensures forall i :: 0 <= i < k ==> r[i] == items[i]
    ensures forall i :: k <= i < |r| ==> r[i] == items[i + 1]
  {
    items[..k] + items[k + 1..]
  }

  // ---------------------------------------------------------------------------
  // Quantity

  lemma {:induction false} QuantityConcat(a: seq<CartItem>, b: seq<CartItem>, cart: CartId, track: TrackId, tier: TierId)
    ensures Quantity(a + b, cart, track, tier) == Quantity(a, cart, track, tier) + Quantity(b, cart, track, tier)
    decreases |b|
  {
    if b == [] {
      assert a + b == a;
    } else {
      var b' := b[..|b| - 1];
      assert (a + b)[..|a + b| - 1] == a + b';
      QuantityConcat(a, b', cart, track, tier);
    }
  }

  lemma QuantitySingle(x: CartItem, cart: CartId, track: TrackId, tier: TierId)
    ensures Quantity([x], cart, track, tier) == Held(x, cart, track, tier)
  {
    assert [x][..0] == [];
  }

  /** A cart without a row for the pair holds none of it. */
  lemma {:induction false} QuantityAbsent(items: seq<CartItem>, cart: CartId, track: TrackId, tier: TierId)
    requires FindLine(items, cart, track, tier).None?
    ensures Quantity(items, cart, track, tier) == 0
    decreases |items|
  {
    if items != [] {
      QuantityAbsent(items[..|items| - 1], cart, track, tier);
    }
  }

  /** Replacing one row changes the count by what that row held. */
  lemma QuantityUpdate(items: seq<CartItem>, k: nat, x: CartItem, cart: CartId, track: TrackId, tier: TierId)
    requires k < |items|
    ensures Quantity(items[k := x], cart, track, tier)
         == Quantity(items, cart, track, tier) - Held(items[k], cart, track, tier) + Held(x, cart, track, tier)
  {
    assert items == items[..k] + [items[k]] + items[k + 1..];
    assert items[k := x] == items[..k] + [x] + items[k + 1..];
    QuantityConcat(items[..k] + [items[k]], items[k + 1..], cart, track, tier);
    QuantityConcat(items[..k], [items[k]], cart, track, tier);
    QuantityConcat(items[..k] + [x], items[k + 1..], cart, track, tier);
    QuantityConcat(items[..k], [x], cart, track, tier);
    QuantitySingle(items[k], cart, track, tier);
    QuantitySingle(x, cart, track, tier);
  }

  /** Deleting one row changes the count by what that row held. */
  lemma QuantityRemove(items: seq<CartItem>, k: nat, cart: CartId, track: TrackId, tier: TierId)
    requires k < |items|
    ensures Quantity(RemoveAt(items, k), cart, track, tier)
         == Quantity(items, cart, track, tier) - Held(items[k], cart, track, tier)
  {
    assert items == items[..k] + [items[k]] + items[k + 1..];
    QuantityConcat(items[..k] + [items[k]], items[k + 1..], cart, track, tier);
    QuantityConcat(items[..k], [items[k]], cart, track, tier);
    QuantityConcat(items[..k], items[k + 1..], cart, track, tier);
    QuantitySingle(items[k], cart, track, tier);
  }

  /** With unique rows, the count for a pair is the quantity of its one row. */
  lemma QuantityOfUniqueLine(items: seq<CartItem>, k: nat)
    requires LinesUnique(items) && k < |items|
    ensures Quantity(items, items[k].cart, items[k].track, items[k].tier) == items[k].quantity
  {
    var it := items[k];
    var before, after := items[..k], items[k + 1..];
    assert items == before + [it] + after;
    QuantityConcat(before + [it], after, it.cart, it.track, it.tier);
    QuantityConcat(before, [it], it.cart, it.track, it.tier);
    QuantitySingle(it, it.cart, it.track, it.tier);
    forall i | 0 <= i < |before| ensures !IsLine(before[i], it.cart, it.track, it.tier) {
      assert !IsLine(items[k], items[i].cart, items[i].track, items[i].tier);
    }
    QuantityAbsent(before, it.cart, it.track, it.tier);
    forall i | 0 <= i < |after| ensures !IsLine(after[i], it.cart, it.track, it.tier) {
      assert after[i] == items[k + 1 + i];
    }
    QuantityAbsent(after, it.cart, it.track, it.tier);
  }

  /** `add_item` merges: the pair's count grows by `quantity` and every other
      count (other pairs, other carts) is unchanged. */
  lemma MergeLineQuantity(items: seq<CartItem>, cart: CartId, track: TrackId, tier: TierId, quantity: nat,
                          c: CartId, t: TrackId, p: TierId)
    ensures Quantity(MergeLine(items, cart, track, tier, quantity), c, t, p)
         == Quantity(items, c, t, p) + (if c == cart && t == track && p == tier then quantity else 0)
  {
    match FindLine(items, cart, track, tier)
    case Some(k) =>
      QuantityUpdate(items, k, items[k].(quantity := items[k].quantity + quantity), c, t, p);
    case None =>
      QuantityConcat(items, [CartItem(cart, track, tier, quantity)], c, t, p);
      QuantitySingle(CartItem(cart, track, tier, quantity), c, t, p);
  }

  /** Appending a row for a pair the table does not hold keeps rows unique. */
  lemma AppendLineUnique(items: seq<CartItem>, x: CartItem)
    requires LinesUnique(items)
    requires FindLine(items, x.cart, x.track, x.tier).None?
    ensures LinesUnique(items + [x])
  {
    var r := items + [x];
    forall i, j | 0 <= i < j < |r| ensures !IsLine(r[j], r[i].cart, r[i].track, r[i].tier) {
      assert r[i] == items[i];
      if j < |items| {
        assert r[j] == items[j];
      }
    }
  }

  /** Merging keeps at most one row per (cart, track, tier), and afterwards the
      pair has its row. */
  lemma MergeLineUnique(items: seq<CartItem>, cart: CartId, track: TrackId, tier: TierId, quantity: nat)
    requires LinesUnique(items)
    ensures LinesUnique(MergeLine(items, cart, track, tier, quantity))
    ensures FindLine(MergeLine(items, cart, track, tier, quantity), cart, track, tier).Some?
  {
    var r := MergeLine(items, cart, track, tier, quantity);
    match FindLine(items, cart, track, tier)
    case Some(k) =>
      assert forall i :: 0 <= i < |r| ==> IsLine(r[i], items[i].cart, items[i].track, items[i].tier);
      assert IsLine(r[k], cart, track, tier);
    case None =>
      AppendLineUnique(items, CartItem(cart, track, tier, quantity));
      assert IsLine(r[|items|], cart, track, tier);
  }

  /** `remove_item` drops exactly the pair: its count becomes zero and every
      other count is unchanged. */
  lemma RemoveLineQuantity(items: seq<CartItem>, k: nat, c: CartId, t: TrackId, p: TierId)
    requires LinesUnique(items) && k < |items|
    ensures Quantity(RemoveAt(items, k), c, t, p)
         == if IsLine(items[k], c, t, p) then 0 else Quantity(items, c, t, p)
  {
    QuantityRemove(items, k, c, t, p);
    if IsLine(items[k], c, t, p) {
      QuantityOfUniqueLine(items, k);
    }
  }

  /** Every row after a merge is an old row or the row for the merged key. */
  lemma MergeLineKeys(items: seq<CartItem>, cart: CartId, track: TrackId, tier: TierId, quantity: nat)
    ensures forall it :: it in MergeLine(items, cart, track, tier, quantity) ==> it in items || IsLine(it, cart, track, tier)
  {
    var r := MergeLine(items, cart, track, tier, quantity);
    match FindLine(items, cart, track, tier)
    case Some(k) =>
      forall it | it in r ensures it in items || IsLine(it, cart, track, tier) {
        var i :| 0 <= i < |r| && r[i] == it;
        if i != k {
          assert r[i] == items[i];
        }
      }
    case None =>
  }

  lemma RemoveAtUnique(items: seq<CartItem>, k: nat)
    requires LinesUnique(items) && k < |items|
    ensures LinesUnique(RemoveAt(items, k))
  {
    var r := RemoveAt(items, k);
    forall i, j | 0 <= i < j < |r|
      ensures !IsLine(r[j], r[i].cart, r[i].track, r[i].tier)
    {
      var i' := if i < k then i else i + 1;
      var j' := if j < k then j else j + 1;
      assert r[i] == items[i'] && r[j] == items[j'] && i' < j';
    }
  }

  /** `clear` empties the cart and leaves every other cart as it was. */
  lemma {:induction false} WithoutCartQuantity(items: seq<CartItem>, cart: CartId, c: CartId, t: TrackId, p: TierId)
    ensures Quantity(WithoutCart(items, cart), c, t, p) == if c == cart then 0 else Quantity(items, c, t, p)
    decreases |items|
  {
    if items != [] {
      var init := items[..|items| - 1];
      var last := items[|items| - 1];
      WithoutCartQuantity(init, cart, c, t, p);
      if last.cart != cart {
        QuantityConcat(WithoutCart(init, cart), [last], c, t, p);
        QuantitySingle(last, c, t, p);
      }
    }
  }

  /** Keeping only some rows, in order, keeps them unique. */
  lemma {:induction false} WithoutCartUnique(items: seq<CartItem>, cart: CartId)
    requires LinesUnique(items)
    ensures LinesUnique(WithoutCart(items, cart))
    decreases |items|
  {
    if items != [] {
      var init := items[..|items| - 1];
      var last := items[|items| - 1];
      assert LinesUnique(init);
      WithoutCartUnique(init, cart);
      if last.cart != cart {
        var rest := WithoutCart(init, cart);
        var r := rest + [last];
        forall i | 0 <= i < |rest|
          ensures !IsLine(last, rest[i].cart, rest[i].track, rest[i].tier)
        {
          assert rest[i] in init;
          var j :| 0 <= j < |init| && init[j] == rest[i];
          assert items[j] == rest[i];
        }
        assert LinesUnique(r);
      }
    }
  }

  /** Clearing a cart twice is the same as clearing it once. */
  lemma {:induction false} WithoutCartIdempotent(items: seq<CartItem>, cart: CartId)
    ensures WithoutCart(WithoutCart(items, cart), cart) == WithoutCart(items, cart)
    decreases |items|
  {
    if items != [] {
      var init := items[..|items| - 1];
      var last := items[|items| - 1];
      WithoutCartIdempotent(init, cart);
      var w := WithoutCart(init, cart);
      if last.cart != cart {
        assert (w + [last])[..|w + [last]| - 1] == w;
      }
    }
  }

  lemma {:induction false} LinesOfNone(items: seq<CartItem>, cart: CartId)
    requires forall it :: it in items ==> it.cart != cart
    ensures LinesOf(items, cart) == []
  {
    if LinesOf(items, cart) != [] {
      assert LinesOf(items, cart)[0] in LinesOf(items, cart);
    }
  }
}
