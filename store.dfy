/** The commerce store: the profile, tier, cart, order and licence tables,
    and one method per cart and order endpoint. The caller's identity, the
    clock and today's date are parameters. */
module Commerce {
  import opened Wrappers
  import opened Models
  import opened Permissions
  import opened CartLines
  import opened Orders
  import opened OrderListing
  import Signals

  /** The cart table after `get_cart` for `user`: unchanged when the user has
      a cart, otherwise extended by a new cart with a fresh id. */
  ghost predicate CartFetched(before: map<UserId, CartId>, nextBefore: CartId,
                              after: map<UserId, CartId>, nextAfter: CartId, user: UserId)
  {
    && user in after
    && if user in before then after == before && nextAfter == nextBefore
       else after == before[user := nextBefore] && nextAfter == nextBefore + 1
  }

  /** Tier ids are allocated below `next`; (name, duration) is unique. */
  ghost predicate TablesOfTiers(tiers: map<TierId, PricingTier>, next: TierId) {
    && (forall t :: t in tiers ==> t < next)
    && TiersUnique(tiers)
  }

  /** Cart ids are allocated below `next`; no two users share a cart. */
  ghost predicate TablesOfCarts(carts: map<UserId, CartId>, next: CartId) {
    && (forall u :: u in carts ==> carts[u] < next)
    && (forall u, v :: u in carts && v in carts && u != v ==> carts[u] != carts[v])
  }

  /** Every cart line refers to an existing cart, track and tier, and a cart
      holds at most one line per (track, tier). */
  ghost predicate TableOfLines(items: seq<CartItem>, carts: map<UserId, CartId>, tracks: set<TrackId>,
                               tiers: map<TierId, PricingTier>) {
    && (forall it :: it in items ==> it.cart in carts.Values && it.track in tracks && it.tier in tiers)
    && LinesUnique(items)
  }

  /** Every order line refers to an existing track and tier (the order
      reference itself is part of `OrderTables`). */
  ghost predicate OrderLineKeys(items: seq<OrderItem>, tracks: set<TrackId>, tiers: map<TierId, PricingTier>) {
    forall j :: 0 <= j < |items| ==> items[j].track in tracks && items[j].tier in tiers
  }

  /** Snapshotting cart lines with resolvable keys keeps the order lines' keys resolvable. */
  lemma SnapshotKeepsOrderLineKeys(items: seq<OrderItem>, lines: seq<CartItem>, tracks: set<TrackId>,
                                   tiers: map<TierId, PricingTier>, order: OrderId)
    requires OrderLineKeys(items, tracks, tiers)
    requires forall it :: it in lines ==> it.track in tracks && it.tier in tiers
    ensures OrderLineKeys(items + Snapshot(lines, tiers, order), tracks, tiers)
  {
    var all := items + Snapshot(lines, tiers, order);
    forall j | 0 <= j < |all| ensures all[j].track in tracks && all[j].tier in tiers {
      if j >= |items| {
        assert lines[j - |items|] in lines;
      }
    }
  }

  lemma NewCartKeepsLineTable(items: seq<CartItem>, carts: map<UserId, CartId>, tracks: set<TrackId>,
                              tiers: map<TierId, PricingTier>, user: UserId, cart: CartId)
    requires TableOfLines(items, carts, tracks, tiers) && user !in carts
    ensures TableOfLines(items, carts[user := cart], tracks, tiers)
  {
    forall it | it in items ensures it.cart in carts[user := cart].Values {
      var u :| u in carts && carts[u] == it.cart;
      assert carts[user := cart][u] == it.cart;
    }
  }

  lemma MergeKeepsLineTable(items: seq<CartItem>, carts: map<UserId, CartId>, tracks: set<TrackId>,
                            tiers: map<TierId, PricingTier>, cart: CartId, track: TrackId, tier: TierId, quantity: nat)
    requires TableOfLines(items, carts, tracks, tiers)
    requires cart in carts.Values && track in tracks && tier in tiers
    ensures TableOfLines(MergeLine(items, cart, track, tier, quantity), carts, tracks, tiers)
  {
    MergeLineKeys(items, cart, track, tier, quantity);
    MergeLineUnique(items, cart, track, tier, quantity);
  }

  lemma RemoveKeepsLineTable(items: seq<CartItem>, carts: map<UserId, CartId>, tracks: set<TrackId>,
                             tiers: map<TierId, PricingTier>, k: nat)
    requires TableOfLines(items, carts, tracks, tiers) && k < |items|
    ensures TableOfLines(RemoveAt(items, k), carts, tracks, tiers)
  {
    RemoveAtUnique(items, k);
    forall it | it in RemoveAt(items, k) ensures it in items {
      var i :| 0 <= i < |RemoveAt(items, k)| && RemoveAt(items, k)[i] == it;
      if i >= k {
        assert items[i + 1] == it;
      }
    }
  }

  lemma DropKeepsLineTable(items: seq<CartItem>, carts: map<UserId, CartId>, tracks: set<TrackId>,
                           tiers: map<TierId, PricingTier>, cart: CartId)
    requires TableOfLines(items, carts, tracks, tiers)
    ensures TableOfLines(WithoutCart(items, cart), carts, tracks, tiers)
  {
    WithoutCartUnique(items, cart);
  }

  class Store {
    /** Ids of the catalogue's tracks (the track table is not changed here). */
    const tracks: set<TrackId>
    /** The profile table: one role per user (one-to-one with users). */
    var profiles: map<UserId, Role>
    var tiers: map<TierId, PricingTier>
    var nextTierId: TierId
    /** The cart table: one cart per user (one-to-one with users). */
    var carts: map<UserId, CartId>
    var nextCartId: CartId
    var cartItems: seq<CartItem>
    var orders: seq<Order>
    var orderItems: seq<OrderItem>
    var licenses: seq<License>
    /** For each licence, the position of the order line it was issued for. */
    ghost var licenseSource: seq<nat>

    ghost predicate Valid()
      reads this
    {
      && TablesOfTiers(tiers, nextTierId)
      && TablesOfCarts(carts, nextCartId)
      && TableOfLines(cartItems, carts, tracks, tiers)
      && OrderTables(orders, orderItems)
      && OrderLineKeys(orderItems, tracks, tiers)
      && LicencesMatchApprovals(orders, orderItems, licenses, licenseSource)
    }

    /** An empty store over a catalogue of tracks. */
    constructor (tracks: set<TrackId>)
      ensures Valid()
      ensures this.tracks == tracks
      ensures profiles == map[] && tiers == map[] && carts == map[]
      ensures cartItems == [] && orders == [] && orderItems == [] && licenses == []
    {
      this.tracks := tracks;
      profiles, tiers, nextTierId := map[], map[], 1;
      carts, nextCartId := map[], 1;
      cartItems, orders, orderItems, licenses := [], [], [], [];
      licenseSource := [];
      new;
      assert orders == [] && orderItems == [] && licenses == [] && licenseSource == [];
      EmptyTables(orders, orderItems, licenses, licenseSource);
    }

    // -------------------------------------------------------------------------
    // Cart endpoints (the caller is an authenticated user)

    /** `get_cart`: the caller's cart, created empty on first use. */
    method GetCart(user: UserId) returns (cart: CartId)
      requires Valid()
      modifies this`carts, this`nextCartId
      ensures Valid()
      ensures CartFetched(old(carts), old(nextCartId), carts, nextCartId, user)
      ensures cart == carts[user]
      ensures user in old(carts) ==> cart == old(carts)[user]
      ensures user !in old(carts) ==> LinesOf(cartItems, cart) == []
    {
      if user in carts {
        cart := carts[user];
      } else {
        cart := nextCartId;
        LinesOfNone(cartItems, cart);
        carts := carts[user := cart];
        nextCartId := nextCartId + 1;
        NewCartKeepsLineTable(cartItems, old(carts), tracks, tiers, user, cart);
      }
    }

    /** `add_item`: adds `quantity` (default 1) copies of (track, tier) to the
        caller's cart, merging into the existing line. Unknown track or tier
        ids are refused with 400 after the cart is fetched. */
    method AddItem(user: UserId, track: TrackId, tier: TierId, quantity: Option<nat>)
      returns (r: Result<seq<CartItem>, Failure>)
      requires Valid()
      modifies this`carts, this`nextCartId, this`cartItems
      ensures Valid()
      ensures CartFetched(old(carts), old(nextCartId), carts, nextCartId, user)
      ensures r.Err? <==> track !in tracks || tier !in tiers
      ensures r.Err? ==> r.error == BadRequest && cartItems == old(cartItems)
      ensures r.Ok? ==> cartItems == MergeLine(old(cartItems), carts[user], track, tier, quantity.GetOr(DefaultQuantity))
      ensures r.Ok? ==> r.value == LinesOf(cartItems, carts[user])
      ensures r.Ok? ==> FindLine(cartItems, carts[user], track, tier).Some?
      ensures r.Ok? ==> (forall c, t, p :: Quantity(cartItems, c, t, p)
                          == Quantity(old(cartItems), c, t, p) + (if c == carts[user] && t == track && p == tier then quantity.GetOr(DefaultQuantity) else 0))
    {
      var cart := GetCart(user);
      if track !in tracks || tier !in tiers {
        return Err(BadRequest);
      }
      MergeIntoCart(cart, track, tier, quantity.GetOr(DefaultQuantity));
      r := Ok(LinesOf(cartItems, cart));
    }

    /** `remove_item`: deletes the caller's line for (track, tier); 404 when
        there is none, 400 for unknown ids. */
    method RemoveItem(user: UserId, track: TrackId, tier: TierId) returns (r: Result<seq<CartItem>, Failure>)
      requires Valid()
      modifies this`carts, this`nextCartId, this`cartItems
      ensures Valid()
      ensures CartFetched(old(carts), old(nextCartId), carts, nextCartId, user)
      ensures track !in tracks || tier !in tiers ==> r == Err(BadRequest)
      ensures track in tracks && tier in tiers ==>
        (r == Err(NotFound) <==> FindLine(old(cartItems), carts[user], track, tier).None?)
      ensures r.Err? <==> track !in tracks || tier !in tiers || FindLine(old(cartItems), carts[user], track, tier).None?
      ensures r.Err? ==> cartItems == old(cartItems)
      ensures r == Err(NotFound) ==> Quantity(cartItems, carts[user], track, tier) == 0
      ensures r.Ok? ==> (FindLine(old(cartItems), carts[user], track, tier).Some?
                          && cartItems == RemoveAt(old(cartItems), FindLine(old(cartItems), carts[user], track, tier).value))
      ensures r.Ok? ==> r.value == LinesOf(cartItems, carts[user])
      ensures r.Ok? ==> (forall c, t, p :: Quantity(cartItems, c, t, p)
                          == if c == carts[user] && t == track && p == tier then 0 else Quantity(old(cartItems), c, t, p))
    {
      var cart := GetCart(user);
      if track !in tracks || tier !in tiers {
        return Err(BadRequest);
      }
      var found := FindLine(cartItems, cart, track, tier);
      if found.None? {
        QuantityAbsent(cartItems, cart, track, tier);
        return Err(NotFound);
      }
      DeleteLine(found.value);
      r := Ok(LinesOf(cartItems, cart));
    }

    /** `clear`: deletes every line of the caller's cart; never fails. */
    method Clear(user: UserId) returns (lines: seq<CartItem>)
      requires Valid()
      modifies this`carts, this`nextCartId, this`cartItems
      ensures Valid()
      ensures CartFetched(old(carts), old(nextCartId), carts, nextCartId, user)
      ensures cartItems == WithoutCart(old(cartItems), carts[user])
      ensures lines == LinesOf(cartItems, carts[user]) && lines == []
      ensures forall c, t, p ::
                Quantity(cartItems, c, t, p) == if c == carts[user] then 0 else Quantity(old(cartItems), c, t, p)
    {
      var cart := GetCart(user);
      DropCart(cart);
      lines := LinesOf(cartItems, cart);
    }

    /** Adds `quantity` to the line of `cart` for (track, tier), creating the
        line when there is none (`get_or_create` followed by `save`). */
    method MergeIntoCart(cart: CartId, track: TrackId, tier: TierId, quantity: nat)
      requires Valid()
      requires cart in carts.Values && track in tracks && tier in tiers
      modifies this`cartItems
      ensures Valid()
      ensures cartItems == MergeLine(old(cartItems), cart, track, tier, quantity)
      ensures FindLine(cartItems, cart, track, tier).Some?
      ensures forall c, t, p :: Quantity(cartItems, c, t, p)
                == Quantity(old(cartItems), c, t, p) + (if c == cart && t == track && p == tier then quantity else 0)
    {
      var found := FindLine(cartItems, cart, track, tier);
      if found.Some? {
        var k := found.value;
        cartItems := cartItems[k := cartItems[k].(quantity := cartItems[k].quantity + quantity)];
      } else {
        cartItems := cartItems + [CartItem(cart, track, tier, quantity)];
      }
      MergeKeepsLineTable(old(cartItems), carts, tracks, tiers, cart, track, tier, quantity);
      MergeLineUnique(old(cartItems), cart, track, tier, quantity);
      forall c, t, p
        ensures Quantity(cartItems, c, t, p) == Quantity(old(cartItems), c, t, p) + (if c == cart && t == track && p == tier then quantity else 0)
      {
        MergeLineQuantity(old(cartItems), cart, track, tier, quantity, c, t, p);
      }
    }

    /** Deletes the cart line at position `k` of the line table. */
    method DeleteLine(k: nat)
      requires Valid() && k < |cartItems|
      modifies this`cartItems
      ensures Valid()
      ensures cartItems == RemoveAt(old(cartItems), k)
      ensures forall c, t, p :: Quantity(cartItems, c, t, p)
                == if IsLine(old(cartItems)[k], c, t, p) then 0 else Quantity(old(cartItems), c, t, p)
    {
      cartItems := cartItems[..k] + cartItems[k + 1..];
      RemoveKeepsLineTable(old(cartItems), carts, tracks, tiers, k);
      forall c, t, p
        ensures Quantity(cartItems, c, t, p) == if IsLine(old(cartItems)[k], c, t, p) then 0 else Quantity(old(cartItems), c, t, p)
      {
        RemoveLineQuantity(old(cartItems), k, c, t, p);
      }
    }

    /** Deletes every line of `cart` (`cart.items.all().delete()`). */
    method DropCart(cart: CartId)
      requires Valid()
      modifies this`cartItems
      ensures Valid()
      ensures cartItems == WithoutCart(old(cartItems), cart)
      ensures LinesOf(cartItems, cart) == []
      ensures forall c, t, p ::
                Quantity(cartItems, c, t, p) == if c == cart then 0 else Quantity(old(cartItems), c, t, p)
    {
      cartItems := WithoutCart(cartItems, cart);
      DropKeepsLineTable(old(cartItems), carts, tracks, tiers, cart);
      LinesOfNone(cartItems, cart);
      forall c, t, p
        ensures Quantity(cartItems, c, t, p) == if c == cart then 0 else Quantity(old(cartItems), c, t, p)
      {
        WithoutCartQuantity(old(cartItems), cart, c, t, p);
      }
    }

    /** `checkout`: 400 for an empty cart. Otherwise creates an order pending
        review owned by the caller, one order line per cart line priced at
        the tier's current price, and empties the cart. */
    method Checkout(user: UserId, now: Timestamp) returns (r: Result<Order, Failure>)
      requires Valid()
      modifies this`carts, this`nextCartId, this`cartItems, this`orders, this`orderItems
      ensures Valid()
      ensures CartFetched(old(carts), old(nextCartId), carts, nextCartId, user)
      ensures forall it :: it in LinesOf(old(cartItems), carts[user]) ==> it.track in tracks && it.tier in tiers
      ensures LinesOf(old(cartItems), carts[user]) == [] ==>
        r == Err(BadRequest) && cartItems == old(cartItems) && orders == old(orders) && orderItems == old(orderItems)
      ensures LinesOf(old(cartItems), carts[user]) != [] ==>
        var o := Order(|old(orders)| + 1, user, DefaultOrderStatus, now, None, None, "");
        var lines := LinesOf(old(cartItems), carts[user]);
        && r == Ok(o)
        && orders == old(orders) + [o]
        && orderItems == old(orderItems) + Snapshot(lines, tiers, o.id)
        && ItemsOf(orderItems, o.id) == Snapshot(lines, tiers, o.id)
        && cartItems == WithoutCart(old(cartItems), carts[user])
        && LinesOf(cartItems, carts[user]) == []
    {
      var cart := GetCart(user);
      var lines := LinesOf(cartItems, cart);
      if |lines| == 0 {
        return Err(BadRequest);
      }
      var order := PlaceOrder(user, lines, now);
      DropCart(cart);
      r := Ok(order);
    }

    /** The order-creating part of `checkout`: a new order pending review and
        a priced copy of each of `lines` as its order lines. */
    method PlaceOrder(user: UserId, lines: seq<CartItem>, now: Timestamp) returns (order: Order)
      requires Valid()
      requires forall it :: it in lines ==> it.track in tracks && it.tier in tiers
      modifies this`orders, this`orderItems
      ensures Valid()
      ensures order == Order(|old(orders)| + 1, user, DefaultOrderStatus, now, None, None, "")
      ensures orders == old(orders) + [order]
      ensures orderItems == old(orderItems) + Snapshot(lines, tiers, order.id)
      ensures ItemsOf(orderItems, order.id) == Snapshot(lines, tiers, order.id)
    {
      order := Order(|orders| + 1, user, DefaultOrderStatus, now, None, None, "");
      orders := orders + [order];
      AppendSnapshot(lines, order.id);
      CheckoutStep(old(orders), old(orderItems), licenses, licenseSource, order, lines, tiers);
      SnapshotKeepsOrderLineKeys(old(orderItems), lines, tracks, tiers, order.id);
    }

    // -------------------------------------------------------------------------
    // Order endpoints

    /** `get_queryset`: every order for a legal reviewer, the caller's own
        orders otherwise, newest first. */
    method ListOrders(caller: UserId) returns (r: seq<Order>)
      ensures NewestFirst(r)
      ensures multiset(r) == multiset(VisibleTo(orders, caller, IsLegalReviewer(User(caller), profiles)))
      ensures forall o :: o in r <==> o in orders && (IsLegalReviewer(User(caller), profiles) || o.user == caller)
    {
      var reviewer := IsLegalReviewer(User(caller), profiles);
      var visible := VisibleTo(orders, caller, reviewer);
      r := SortNewestFirst(visible);
      assert forall o :: o in r <==> o in multiset(r);
      assert forall o :: o in visible <==> o in multiset(visible);
    }

    /** `approve`: for a legal reviewer only (403), on an existing order (404)
        that is pending review (400). Marks it approved with reviewer, time and
        notes (default empty), then issues one active licence per order line
        to the order's owner, starting today with no end date. */
    method Approve(caller: RequestUser, orderId: int, notes: Option<string>, now: Timestamp, today: Date)
      returns (r: Result<Order, Failure>)
      requires Valid()
      modifies this`orders, this`licenses, this`licenseSource
      ensures Valid()
      ensures !IsLegalReviewer(caller, profiles) ==> r == Err(Forbidden)
      ensures IsLegalReviewer(caller, profiles) && !(1 <= orderId <= |old(orders)|) ==> r == Err(NotFound)
      ensures IsLegalReviewer(caller, profiles) && 1 <= orderId <= |old(orders)| ==>
        r == Review(old(orders)[orderId - 1], ApproveOrder, caller.id, now, notes.GetOr(""))
      ensures r.Err? ==> orders == old(orders) && licenses == old(licenses)
      ensures r.Ok? ==> (&& 1 <= orderId <= |old(orders)|
                         && orders == old(orders)[orderId - 1 := r.value]
                         && licenses == old(licenses) + Grants(ItemsOf(orderItems, orderId), r.value, today, now))
    {
      if !IsLegalReviewer(caller, profiles) {
        return Err(Forbidden);
      }
      if !(1 <= orderId <= |orders|) {
        return Err(NotFound);
      }
      var k := orderId - 1;
      var reviewed := Review(orders[k], ApproveOrder, caller.id, now, notes.GetOr(""));
      if reviewed.Err? {
        return reviewed;
      }
      ApprovePending(orderId, reviewed.value, today, now);
      r := reviewed;
    }

    /** The approval of the pending order `id`: the order is replaced by its
        approved version `o` and one licence per order line is appended. */
    method ApprovePending(id: OrderId, o: Order, today: Date, now: Timestamp)
      requires Valid()
      requires 1 <= id <= |orders| && orders[id - 1].status == PendingReview
      requires o.id == id && o.user == orders[id - 1].user && o.status == Approved
      modifies this`orders, this`licenses, this`licenseSource
      ensures Valid()
      ensures orders == old(orders)[id - 1 := o]
      ensures licenses == old(licenses) + Grants(ItemsOf(orderItems, id), o, today, now)
    {
      var items := ItemsOf(orderItems, id);
      PositionsAlign(orderItems, id);
      ghost var before := orders;
      orders := orders[id - 1 := o];
      IssueLicences(items, Positions(orderItems, id), o, today, now);
      assert unchanged(this`tiers, this`nextTierId, this`carts, this`nextCartId, this`cartItems, this`orderItems);
      ApproveKeepsLicences(before, orderItems, old(licenses), old(licenseSource), id, o, today, now);
    }

    /** `reject`: the same guards as `approve`; marks the order rejected with
        reviewer, time and notes and issues no licence. */
    method Reject(caller: RequestUser, orderId: int, notes: Option<string>, now: Timestamp)
      returns (r: Result<Order, Failure>)
      requires Valid()
      modifies this`orders
      ensures Valid()
      ensures !IsLegalReviewer(caller, profiles) ==> r == Err(Forbidden)
      ensures IsLegalReviewer(caller, profiles) && !(1 <= orderId <= |old(orders)|) ==> r == Err(NotFound)
      ensures IsLegalReviewer(caller, profiles) && 1 <= orderId <= |old(orders)| ==>
        r == Review(old(orders)[orderId - 1], RejectOrder, caller.id, now, notes.GetOr(""))
      ensures r.Err? ==> orders == old(orders)
      ensures r.Ok? ==> 1 <= orderId <= |old(orders)| && orders == old(orders)[orderId - 1 := r.value]
    {
      if !IsLegalReviewer(caller, profiles) {
        return Err(Forbidden);
      }
      if !(1 <= orderId <= |orders|) {
        return Err(NotFound);
      }
      var k := orderId - 1;
      var reviewed := Review(orders[k], RejectOrder, caller.id, now, notes.GetOr(""));
      if reviewed.Err? {
        return reviewed;
      }
      orders := orders[k := reviewed.value];
      RejectKeepsLicences(old(orders), orderItems, licenses, licenseSource, orderId, reviewed.value);
      r := reviewed;
    }

    /** The loop of `checkout` that copies the cart lines into order lines,
        snapshotting each tier's current price. */
    method AppendSnapshot(lines: seq<CartItem>, order: OrderId)
      requires forall it :: it in lines ==> it.tier in tiers
      modifies this`orderItems
      ensures orderItems == old(orderItems) + Snapshot(lines, tiers, order)
    {
      var i := 0;
      while i < |lines|
        modifies this`orderItems
        invariant 0 <= i <= |lines|
        invariant orderItems == old(orderItems) + Snapshot(lines[..i], tiers, order)
      {
        var line := lines[i];
        orderItems := orderItems + [OrderItem(order, line.track, line.tier, tiers[line.tier].priceCents, line.quantity)];
        assert lines[..i + 1][..i] == lines[..i];
        i := i + 1;
      }
      assert lines[..i] == lines;
    }

    /** The loop of `approve` that issues one licence per order line; the
        ghost `positions` records which order line each licence comes from. */
    method IssueLicences(items: seq<OrderItem>, ghost positions: seq<nat>, o: Order, today: Date, now: Timestamp)
      requires |positions| == |items|
      modifies this`licenses, this`licenseSource
      ensures licenses == old(licenses) + Grants(items, o, today, now)
      ensures licenseSource == old(licenseSource) + positions
    {
      var i := 0;
      while i < |items|
        modifies this`licenses, this`licenseSource
        invariant 0 <= i <= |items|
        invariant licenses == old(licenses) + Grants(items[..i], o, today, now)
        invariant licenseSource == old(licenseSource) + positions[..i]
      {
        licenses := licenses + [Grant(items[i], o, today, now)];
        licenseSource := licenseSource + [positions[i]];
        assert items[..i + 1][..i] == items[..i];
        i := i + 1;
      }
      assert items[..i] == items && positions[..i] == positions;
    }

    // -------------------------------------------------------------------------
    // Profiles

    /** The `post_save` receiver for users: provisions a buyer profile for a
        newly created user that has none. */
    method CreateUserProfile(user: UserId, created: bool)
      requires Valid()
      modifies this`profiles
      ensures Valid()
      ensures profiles == Signals.ProvisionProfile(old(profiles), user, created)
    {
      if created && user !in profiles {
        profiles := profiles[user := DefaultRole];
      }
    }

    /** Changes the role of an existing profile; false when the user has none. */
    method SetRole(user: UserId, role: Role) returns (ok: bool)
      requires Valid()
      modifies this`profiles
      ensures Valid()
      ensures ok <==> user in old(profiles)
      ensures profiles == if ok then old(profiles)[user := role] else old(profiles)
    {
      ok := user in profiles;
      if ok {
        profiles := profiles[user := role];
      }
    }

    // -------------------------------------------------------------------------
    // Raw table inserts, checked by the database constraints

    /** Inserting a tier: refused when a tier with the same name and duration exists. */
    method InsertTier(tier: PricingTier) returns (r: Result<TierId, Failure>)
      requires Valid()
      modifies this`tiers, this`nextTierId
      ensures Valid()
      ensures r.Err? <==> exists t :: t in old(tiers) && old(tiers)[t].name == tier.name && old(tiers)[t].durationMonths == tier.durationMonths
      ensures r.Err? ==> r.error == IntegrityError && tiers == old(tiers)
      ensures r.Ok? ==> r.value !in old(tiers) && tiers == old(tiers)[r.value := tier]
    {
      if exists t :: t in tiers && tiers[t].name == tier.name && tiers[t].durationMonths == tier.durationMonths {
        return Err(IntegrityError);
      }
      var id := nextTierId;
      tiers := tiers[id := tier];
      nextTierId := nextTierId + 1;
      r := Ok(id);
    }

    /** Inserting a cart line directly: refused when its cart, track or tier
        does not exist, or when the cart already has a line for the pair. */
    method InsertCartItem(item: CartItem) returns (r: Result<(), Failure>)
      requires Valid()
      modifies this`cartItems
      ensures Valid()
      ensures r.Err? <==> item.cart !in carts.Values || item.track !in tracks || item.tier !in tiers
                          || FindLine(old(cartItems), item.cart, item.track, item.tier).Some?
      ensures r.Err? ==> r.error == IntegrityError && cartItems == old(cartItems)
      ensures r.Ok? ==> cartItems == old(cartItems) + [item]
    {
      if item.cart !in carts.Values || item.track !in tracks || item.tier !in tiers {
        return Err(IntegrityError);
      }
      if FindLine(cartItems, item.cart, item.track, item.tier).Some? {
        return Err(IntegrityError);
      }
      AppendLineUnique(cartItems, item);
      cartItems := cartItems + [item];
      r := Ok(());
    }
  }
}
