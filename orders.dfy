/** Orders: the snapshot taken at checkout, the review state machine, the
    licences issued on approval, and the invariant that ties licences to
    approved orders. */
module Orders {
  import opened Wrappers
  import opened Models

  // ---------------------------------------------------------------------------
  // Checkout

  /** The order lines `checkout` creates for the cart lines `lines`: one per
      line, copying track, tier and quantity, priced at the tier's price now. */
  function Snapshot(lines: seq<CartItem>, tiers: map<TierId, PricingTier>, order: OrderId): (r: seq<OrderItem>)
    requires forall it :: it in lines ==> it.tier in tiers
    ensures |r| == |lines|
    ensures forall i :: 0 <= i < |lines| ==>
      && r[i].order == order
      && r[i].track == lines[i].track
      && r[i].tier == lines[i].tier
      && r[i].quantity == lines[i].quantity
      && r[i].priceCentsSnapshot == tiers[lines[i].tier].priceCents
    decreases |lines|
  {
    if lines == [] then []
    else
      var last := lines[|lines| - 1];
      Snapshot(lines[..|lines| - 1], tiers, order)
        + [OrderItem(order, last.track, last.tier, tiers[last.tier].priceCents, last.quantity)]
  }

  /** The lines of one order (`order.items.all()`), in table order. */
  function ItemsOf(items: seq<OrderItem>, order: OrderId): (r: seq<OrderItem>)
    ensures forall it :: it in r <==> it in items && it.order == order
    ensures |r| <= |items|
    decreases |items|
  {
    if items == [] then []
    else
      var rest := ItemsOf(items[..|items| - 1], order);
      if items[|items| - 1].order == order then rest + [items[|items| - 1]] else rest
  }

  /** Appending lines that all belong to `order` adds exactly them to
      `order`'s lines and leaves every other order's lines as they were. */
  lemma {:induction false} ItemsOfAppend(items: seq<OrderItem>, extra: seq<OrderItem>, order: OrderId, other: OrderId)
    requires forall it :: it in extra ==> it.order == order
    ensures ItemsOf(items + extra, order) == ItemsOf(items, order) + extra
    ensures other != order ==> ItemsOf(items + extra, other) == ItemsOf(items, other)
    decreases |extra|
  {
    if extra == [] {
      assert items + extra == items;
    } else {
      var init := extra[..|extra| - 1];
      assert (items + extra)[..|items + extra| - 1] == items + init;
      assert (items + extra)[|items + extra| - 1] == extra[|extra| - 1];
      ItemsOfAppend(items, init, order, other);
      assert ItemsOf(items, order) + init + [extra[|extra| - 1]] == ItemsOf(items, order) + extra;
    }
  }

  lemma {:induction false} ItemsOfNone(items: seq<OrderItem>, order: OrderId)
    requires forall it :: it in items ==> it.order != order
    ensures ItemsOf(items, order) == []
  {
    if ItemsOf(items, order) != [] {
      assert ItemsOf(items, order)[0] in ItemsOf(items, order);
    }
  }

  // ---------------------------------------------------------------------------
  // Review state machine

  datatype Decision = ApproveOrder | RejectOrder

  function Outcome(d: Decision): OrderStatus {
    match d
    case ApproveOrder => Approved
    case RejectOrder => Rejected
  }

  /** The order after a review decision. Only an order pending review can be
      decided; anything else is refused with 400 (`BadRequest`). */
  function Review(o: Order, d: Decision, reviewer: UserId, at: Timestamp, notes: string): (r: Result<Order, Failure>)
    ensures r.Ok? <==> o.status == PendingReview
    ensures r.Err? ==> r.error == BadRequest
    ensures r.Ok? ==> r.value.status == Outcome(d) && r.value.status != PendingReview
    ensures r.Ok? ==> r.value.id == o.id && r.value.user == o.user && r.value.createdAt == o.createdAt
    ensures r.Ok? ==> r.value.reviewedBy == Some(reviewer) && r.value.reviewedAt == Some(at) && r.value.reviewNotes == notes
  {
    if o.status != PendingReview then Err(BadRequest)
    else Ok(o.(status := Outcome(d), reviewedBy := Some(reviewer), reviewedAt := Some(at), reviewNotes := notes))
  }

  /** One call of the approve or reject endpoint on an order. */
  datatype Attempt = Attempt(decision: Decision, reviewer: UserId, at: Timestamp, notes: string)

  /** The order after a series of review calls, and how many of them succeeded. */
  function RunReviews(o: Order, attempts: seq<Attempt>): (Order, nat)
    decreases |attempts|
  {
    if attempts == [] then (o, 0)
    else
      var (prev, n) := RunReviews(o, attempts[..|attempts| - 1]);
      var a := attempts[|attempts| - 1];
      match Review(prev, a.decision, a.reviewer, a.at, a.notes)
      case Ok(next) => (next, n + 1)
      case Err(_) => (prev, n)
  }

  /** Approved and rejected are terminal: whatever review calls are made, at
      most one succeeds, and it is the first one if the order was pending. */
  lemma {:induction false} AtMostOneDecision(o: Order, attempts: seq<Attempt>)
    ensures RunReviews(o, attempts).1 <= 1
    ensures o.status != PendingReview ==> RunReviews(o, attempts) == (o, 0)
    ensures o.status == PendingReview && attempts != [] ==>
      RunReviews(o, attempts).1 == 1 && RunReviews(o, attempts).0.status == Outcome(attempts[0].decision)
    decreases |attempts|
  {
    if attempts != [] {
      var init := attempts[..|attempts| - 1];
      AtMostOneDecision(o, init);
      if init != [] {
        assert init[0] == attempts[0];
      }
    }
  }

  // ---------------------------------------------------------------------------
  // Licence issuance

  /** The licence `approve` issues for one order line. */
  function Grant(it: OrderItem, o: Order, today: Date, now: Timestamp): (l: License)
    ensures IssuedFor(l, it, o)
    ensures l.status == Active && l.startsAt == Some(today) && l.endsAt == None
  {
    License(o.user, it.track, it.tier, Active, Some(today), None, now)
  }

  /** The licences `approve` issues for the lines `items` of order `o`: one
      per line, to the order's owner, active from today, with no end date. */
  function Grants(items: seq<OrderItem>, o: Order, today: Date, now: Timestamp): (r: seq<License>)
    ensures |r| == |items|
    ensures forall i :: 0 <= i < |items| ==>
      && r[i].buyer == o.user
      && r[i].track == items[i].track
      && r[i].tier == items[i].tier
      && r[i].status == Active
      && r[i].startsAt == Some(today)
      && r[i].endsAt == None
    decreases |items|
  {
    if items == [] then []
    else Grants(items[..|items| - 1], o, today, now) + [Grant(items[|items| - 1], o, today, now)]
  }

  /** Positions in the order line table of the lines of `order`, in table order. */
  ghost function Positions(items: seq<OrderItem>, order: OrderId): seq<nat>
    decreases |items|
  {
    if items == [] then []
    else
      var rest := Positions(items[..|items| - 1], order);
      if items[|items| - 1].order == order then rest + [|items| - 1] else rest
  }

  /** The positions pick out exactly the lines `ItemsOf` lists, in order. */
  lemma {:induction false} PositionsAlign(items: seq<OrderItem>, order: OrderId)
    ensures |Positions(items, order)| == |ItemsOf(items, order)|
    ensures forall i :: 0 <= i < |Positions(items, order)| ==>
      Positions(items, order)[i] < |items| && items[Positions(items, order)[i]] == ItemsOf(items, order)[i]
    decreases |items|
  {
    if items != [] {
      var init := items[..|items| - 1];
      PositionsAlign(init, order);
      var p := Positions(init, order);
      assert forall i :: 0 <= i < |p| ==> p[i] < |init| && items[p[i]] == init[p[i]];
    }
  }

  /** The positions are strictly increasing and below `|items|`. */
  lemma {:induction false} PositionsIncrease(items: seq<OrderItem>, order: OrderId)
    ensures forall i :: 0 <= i < |Positions(items, order)| ==> Positions(items, order)[i] < |items|
    ensures forall i, k :: 0 <= i < k < |Positions(items, order)| ==> Positions(items, order)[i] < Positions(items, order)[k]
    decreases |items|
  {
    if items != [] {
      PositionsIncrease(items[..|items| - 1], order);
    }
  }

  /** Every line of `order` has its position listed. */
  lemma {:induction false} PositionsCover(items: seq<OrderItem>, order: OrderId)
    ensures forall j :: 0 <= j < |items| && items[j].order == order ==> j in Positions(items, order)
    decreases |items|
  {
    if items != [] {
      var init := items[..|items| - 1];
      PositionsCover(init, order);
      assert forall j :: 0 <= j < |init| ==> items[j] == init[j];
    }
  }

  // ---------------------------------------------------------------------------
  // Store-wide invariants of the order tables

  /** Order ids are assigned 1, 2, 3, … and every order line belongs to an order. */
  ghost predicate OrderTables(orders: seq<Order>, items: seq<OrderItem>) {
    && (forall i :: 0 <= i < |orders| ==> orders[i].id == i + 1)
    && (forall j :: 0 <= j < |items| ==> 1 <= items[j].order <= |orders|)
  }

  ghost predicate IsApproved(orders: seq<Order>, id: OrderId) {
    1 <= id <= |orders| && orders[id - 1].status == Approved
  }

  /** Licence `l` was issued for line `it` of order `o`. */
  ghost predicate IssuedFor(l: License, it: OrderItem, o: Order) {
    l.buyer == o.user && l.track == it.track && l.tier == it.tier
  }

  /** Each licence names (in `source`) an order line of an approved order,
      and was issued to that order's owner for that line's track and tier. */
  ghost predicate SourcesApproved(orders: seq<Order>, items: seq<OrderItem>, licenses: seq<License>, source: seq<nat>)
    requires |source| == |licenses|
  {
    forall i :: 0 <= i < |source| ==>
      && source[i] < |items|
      && IsApproved(orders, items[source[i]].order)
      && IssuedFor(licenses[i], items[source[i]], orders[items[source[i]].order - 1])
  }

  /** No order line has two licences. */
  ghost predicate SourcesDistinct(source: seq<nat>) {
    forall i, k :: 0 <= i < k < |source| ==> source[i] != source[k]
  }

  /** Every line of an approved order has a licence. */
  ghost predicate SourcesCover(orders: seq<Order>, items: seq<OrderItem>, source: seq<nat>) {
    forall j :: 0 <= j < |items| && IsApproved(orders, items[j].order) ==> j in source
  }

  /** `source[i]` is the order line licence i was issued for. Licences exist
      exactly for the lines of approved orders, one licence per line. */
  ghost predicate LicencesMatchApprovals(orders: seq<Order>, items: seq<OrderItem>, licenses: seq<License>, source: seq<nat>) {
    && |source| == |licenses|
    && SourcesApproved(orders, items, licenses, source)
    && SourcesDistinct(source)
    && SourcesCover(orders, items, source)
  }

  /** The empty tables: no order, no line, no licence. */
  lemma EmptyTables(orders: seq<Order>, items: seq<OrderItem>, licenses: seq<License>, source: seq<nat>)
    requires orders == [] && items == [] && licenses == [] && source == []
    ensures OrderTables(orders, items) && LicencesMatchApprovals(orders, items, licenses, source)
  {
  }

  /** Checkout appends a pending order and its lines: no licence is owed for
      them, and the existing licences keep their lines. */
  lemma CheckoutKeepsLicences(orders: seq<Order>, items: seq<OrderItem>, licenses: seq<License>, source: seq<nat>,
                              o: Order, extra: seq<OrderItem>)
    requires OrderTables(orders, items) && LicencesMatchApprovals(orders, items, licenses, source)
    requires o.id == |orders| + 1 && o.status == PendingReview
    requires forall it :: it in extra ==> it.order == o.id
    ensures OrderTables(orders + [o], items + extra)
    ensures LicencesMatchApprovals(orders + [o], items + extra, licenses, source)
  {
    var orders', items' := orders + [o], items + extra;
    assert forall i :: 0 <= i < |orders| ==> orders'[i] == orders[i];
    assert forall j :: 0 <= j < |items| ==> items'[j] == items[j] && items[j] in items;
    forall j | |items| <= j < |items'| ensures !IsApproved(orders', items'[j].order) {
      assert items'[j] == extra[j - |items|] && extra[j - |items|] in extra;
    }
  }

  lemma OldLicencesStay(orders: seq<Order>, items: seq<OrderItem>, licenses: seq<License>, source: seq<nat>,
                        id: OrderId, o': Order, extra: seq<License>, more: seq<nat>)
    requires OrderTables(orders, items) && LicencesMatchApprovals(orders, items, licenses, source)
    requires 1 <= id <= |orders| && orders[id - 1].status == PendingReview && o'.status != PendingReview
    requires |extra| == |more|
    ensures forall i :: 0 <= i < |source| ==> items[source[i]].order != id
    ensures forall i :: 0 <= i < |source| ==>
      && (source + more)[i] < |items|
      && IsApproved(orders[id - 1 := o'], items[(source + more)[i]].order)
      && IssuedFor((licenses + extra)[i], items[(source + more)[i]], orders[id - 1 := o'][items[(source + more)[i]].order - 1])
  {
  }

  /** The licences issued for order `id` line up with the positions of its
      lines, which are increasing and cover every line of the order. */
  lemma NewLicencesFit(items: seq<OrderItem>, id: OrderId, o': Order, today: Date, now: Timestamp)
    requires o'.id == id
    ensures |Positions(items, id)| == |Grants(ItemsOf(items, id), o', today, now)|
    ensures forall n :: 0 <= n < |Positions(items, id)| ==>
      && Positions(items, id)[n] < |items|
      && items[Positions(items, id)[n]].order == id
      && IssuedFor(Grants(ItemsOf(items, id), o', today, now)[n], items[Positions(items, id)[n]], o')
    ensures forall n, m :: 0 <= n < m < |Positions(items, id)| ==> Positions(items, id)[n] < Positions(items, id)[m]
    ensures forall j :: 0 <= j < |items| && items[j].order == id ==> j in Positions(items, id)
  {
    var mine := ItemsOf(items, id);
    var p := Positions(items, id);
    PositionsAlign(items, id);
    PositionsIncrease(items, id);
    PositionsCover(items, id);
    forall n | 0 <= n < |p|
      ensures items[p[n]].order == id
    {
      assert items[p[n]] == mine[n] && mine[n] in mine;
    }
  }

  /** The approval step, stated over the new licences `extra` and their lines
      `p` as far as the proof needs them. */
  lemma ApprovalStep(orders: seq<Order>, items: seq<OrderItem>, licenses: seq<License>, source: seq<nat>,
                     id: OrderId, o': Order, extra: seq<License>, p: seq<nat>)
    requires OrderTables(orders, items) && LicencesMatchApprovals(orders, items, licenses, source)
    requires 1 <= id <= |orders| && orders[id - 1].status == PendingReview
    requires o'.id == id && o'.user == orders[id - 1].user && o'.status == Approved
    requires |extra| == |p|
    requires forall n :: 0 <= n < |p| ==>
      p[n] < |items| && items[p[n]].order == id && IssuedFor(extra[n], items[p[n]], o')
    requires forall n, m :: 0 <= n < m < |p| ==> p[n] < p[m]
    requires forall j :: 0 <= j < |items| && items[j].order == id ==> j in p
    ensures LicencesMatchApprovals(orders[id - 1 := o'], items, licenses + extra, source + p)
  {
    var orders' := orders[id - 1 := o'];
    var licenses', source' := licenses + extra, source + p;
    OldLicencesStay(orders, items, licenses, source, id, o', extra, p);
    assert SourcesApproved(orders', items, licenses', source') by {
      forall i | |source| <= i < |source'|
        ensures source'[i] < |items| && IsApproved(orders', items[source'[i]].order)
        ensures IssuedFor(licenses'[i], items[source'[i]], orders'[items[source'[i]].order - 1])
      {
        assert source'[i] == p[i - |source|] && licenses'[i] == extra[i - |source|];
      }
    }
    assert SourcesDistinct(source') by {
      forall i, m | 0 <= i < m < |source'| ensures source'[i] != source'[m] {
        if i < |source| && m >= |source| {
          assert source'[m] == p[m - |source|];
        } else if i >= |source| {
          assert source'[i] == p[i - |source|] && source'[m] == p[m - |source|];
        }
      }
    }
    assert SourcesCover(orders', items, source') by {
      forall j | 0 <= j < |items| && IsApproved(orders', items[j].order)
        ensures j in source'
      {
        if items[j].order != id {
          assert IsApproved(orders, items[j].order);
        }
      }
    }
  }

  /** Replacing an order by its reviewed version keeps ids and line references. */
  lemma ReviewKeepsOrderTables(orders: seq<Order>, items: seq<OrderItem>, id: OrderId, o': Order)
    requires OrderTables(orders, items)
    requires 1 <= id <= |orders| && o'.id == id
    ensures OrderTables(orders[id - 1 := o'], items)
  {
  }

  /** Checkout of `lines` as order `o`: the order tables and licences stay
      consistent, and the lines of `o` are exactly the priced copies. */
  lemma CheckoutStep(orders: seq<Order>, items: seq<OrderItem>, licenses: seq<License>, source: seq<nat>,
                     o: Order, lines: seq<CartItem>, tiers: map<TierId, PricingTier>)
    requires OrderTables(orders, items) && LicencesMatchApprovals(orders, items, licenses, source)
    requires o.id == |orders| + 1 && o.status == PendingReview
    requires forall it :: it in lines ==> it.tier in tiers
    ensures OrderTables(orders + [o], items + Snapshot(lines, tiers, o.id))
    ensures LicencesMatchApprovals(orders + [o], items + Snapshot(lines, tiers, o.id), licenses, source)
    ensures ItemsOf(items + Snapshot(lines, tiers, o.id), o.id) == Snapshot(lines, tiers, o.id)
  {
    var snapshot := Snapshot(lines, tiers, o.id);
    assert forall it :: it in snapshot ==> it.order == o.id;
    forall it | it in items ensures it.order != o.id {
      var j :| 0 <= j < |items| && items[j] == it;
    }
    ItemsOfNone(items, o.id);
    ItemsOfAppend(items, snapshot, o.id, o.id);
    CheckoutKeepsLicences(orders, items, licenses, source, o, snapshot);
  }

  /** Approving the pending order `id` and issuing one licence per line keeps
      licences in step with approvals. */
  lemma ApproveKeepsLicences(orders: seq<Order>, items: seq<OrderItem>, licenses: seq<License>, source: seq<nat>,
                             id: OrderId, o': Order, today: Date, now: Timestamp)
    requires OrderTables(orders, items) && LicencesMatchApprovals(orders, items, licenses, source)
    requires 1 <= id <= |orders| && orders[id - 1].status == PendingReview
    requires o'.id == id && o'.user == orders[id - 1].user && o'.status == Approved
    ensures OrderTables(orders[id - 1 := o'], items)
    ensures LicencesMatchApprovals(orders[id - 1 := o'], items, licenses + Grants(ItemsOf(items, id), o', today, now),
                                   source + Positions(items, id))
  {
    NewLicencesFit(items, id, o', today, now);
    ApprovalStep(orders, items, licenses, source, id, o', Grants(ItemsOf(items, id), o', today, now), Positions(items, id));
    ReviewKeepsOrderTables(orders, items, id, o');
  }

  /** Rejecting the pending order `id` issues nothing and keeps
      licences in step with approvals. */
  lemma RejectKeepsLicences(orders: seq<Order>, items: seq<OrderItem>, licenses: seq<License>, source: seq<nat>,
                            id: OrderId, o': Order)
    requires OrderTables(orders, items) && LicencesMatchApprovals(orders, items, licenses, source)
    requires 1 <= id <= |orders| && orders[id - 1].status == PendingReview
    requires o'.id == id && o'.user == orders[id - 1].user && o'.status == Rejected
    ensures OrderTables(orders[id - 1 := o'], items)
    ensures LicencesMatchApprovals(orders[id - 1 := o'], items, licenses, source)
  {
    var orders' := orders[id - 1 := o'];
    ReviewKeepsOrderTables(orders, items, id, o');
    OldLicencesStay(orders, items, licenses, source, id, o', [], []);
    assert source + [] == source && licenses + [] == licenses;
    forall j | 0 <= j < |items| && IsApproved(orders', items[j].order)
      ensures j in source
    {
      assert IsApproved(orders, items[j].order);
    }
  }

  /** Under the invariant every licence comes from a line of an approved
      order, was issued to that order's owner for the line's track and tier,
      and no pending or rejected order has a licence. */
  lemma LicencesOnlyForApproved(orders: seq<Order>, items: seq<OrderItem>, licenses: seq<License>, source: seq<nat>,
                                id: OrderId)
    requires LicencesMatchApprovals(orders, items, licenses, source)
    requires 1 <= id <= |orders| && orders[id - 1].status != Approved
    ensures forall i :: 0 <= i < |licenses| ==> source[i] < |items|
    ensures forall i :: 0 <= i < |licenses| ==>
      && IsApproved(orders, items[source[i]].order)
      && IssuedFor(licenses[i], items[source[i]], orders[items[source[i]].order - 1])
    ensures forall i :: 0 <= i < |licenses| ==> items[source[i]].order != id
  {
  }
}
