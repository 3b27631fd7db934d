/** The order list: which orders a caller sees, newest first. */
module OrderListing {
  import opened Models

  /** Orders ordered by creation time, newest first (`order_by('-created_at')`). */
  predicate NewestFirst(s: seq<Order>) {
    forall i, j :: 0 <= i < j < |s| ==> s[i].createdAt >= s[j].createdAt
  }

  /** The orders a caller may list: all of them for a legal reviewer,
      otherwise those the caller owns. */
  function VisibleTo(orders: seq<Order>, caller: UserId, reviewer: bool): (r: seq<Order>)
    ensures forall o :: o in r <==> o in orders && (reviewer || o.user == caller)
    ensures reviewer ==> r == orders
    decreases |orders|
  {
    if reviewer || orders == [] then orders
    else
      var rest := VisibleTo(orders[..|orders| - 1], caller, reviewer);
      if orders[|orders| - 1].user == caller then rest + [orders[|orders| - 1]] else rest
  }

  /** Places `o` into a newest-first list, before the first order that is
      not newer than it. */
  function InsertByDate(o: Order, s: seq<Order>): seq<Order>
    decreases |s|
  {
    if s == [] || o.createdAt >= s[0].createdAt then [o] + s
    else [s[0]] + InsertByDate(o, s[1..])
  }

  /** Sorts orders newest first (insertion sort); ties keep no particular
      order. The result is a newest-first permutation of `s`. */
  function SortNewestFirst(s: seq<Order>): (r: seq<Order>)
    ensures NewestFirst(r)
    ensures multiset(r) == multiset(s)
    decreases |s|
  {
    if s == [] then []
    else
      var rest := SortNewestFirst(s[1..]);
      InsertStep(s[0], rest, s);
      InsertByDate(s[0], rest)
  }

  /** One step of the sort: inserting the head of `s` into a newest-first
      permutation of its tail gives a newest-first permutation of `s`. */
  lemma InsertStep(o: Order, rest: seq<Order>, s: seq<Order>)
    requires s != [] && o == s[0]
    requires NewestFirst(rest) && multiset(rest) == multiset(s[1..])
    ensures NewestFirst(InsertByDate(o, rest))
    ensures multiset(InsertByDate(o, rest)) == multiset(s)
  {
    InsertByDateSorted(o, rest);
    InsertByDateAdds(o, rest);
    assert s == [s[0]] + s[1..];
  }

  /** Inserting adds exactly `o`. */
  lemma {:induction false} InsertByDateAdds(o: Order, s: seq<Order>)
    ensures multiset(InsertByDate(o, s)) == multiset(s) + multiset{o}
    decreases |s|
  {
    if s != [] && o.createdAt < s[0].createdAt {
      assert s == [s[0]] + s[1..];
      InsertByDateAdds(o, s[1..]);
    }
  }

  /** Inserting into orders no newer than `t` an order no newer than `t`
      yields orders no newer than `t`. */
  lemma {:induction false} InsertByDateBounded(o: Order, s: seq<Order>, t: Timestamp)
    requires o.createdAt <= t
    requires forall i :: 0 <= i < |s| ==> s[i].createdAt <= t
    ensures forall i :: 0 <= i < |InsertByDate(o, s)| ==> InsertByDate(o, s)[i].createdAt <= t
    ensures |InsertByDate(o, s)| == |s| + 1
    decreases |s|
  {
    if s != [] && o.createdAt < s[0].createdAt {
      InsertByDateBounded(o, s[1..], t);
    }
  }

  /** Inserting keeps a list newest first. */
  lemma {:induction false} InsertByDateSorted(o: Order, s: seq<Order>)
    requires NewestFirst(s)
    ensures NewestFirst(InsertByDate(o, s))
    decreases |s|
  {
    var r := InsertByDate(o, s);
    if s == [] {
    } else if o.createdAt >= s[0].createdAt {
      forall i, j | 0 <= i < j < |r| ensures r[i].createdAt >= r[j].createdAt {
        assert r[j] == s[j - 1];
        if i > 0 {
          assert r[i] == s[i - 1];
        } else {
          assert s[0].createdAt >= s[j - 1].createdAt;
        }
      }
    } else {
      var tail := s[1..];
      assert NewestFirst(tail);
      InsertByDateSorted(o, tail);
      InsertByDateBounded(o, tail, s[0].createdAt);
      var rest := InsertByDate(o, tail);
      assert r == [s[0]] + rest;
      forall i, j | 0 <= i < j < |r| ensures r[i].createdAt >= r[j].createdAt {
        assert r[j] == rest[j - 1];
        if i > 0 {
          assert r[i] == rest[i - 1];
        }
      }
    }
  }
}
