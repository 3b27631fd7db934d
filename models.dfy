/** The commerce tables of the storefront: identifiers, the choice enums with
    their stored values and defaults, the row types, and the uniqueness
    constraints the tables must keep. */
module Models {
  import opened Wrappers

  type UserId = nat
  type TrackId = nat
  type TierId = nat
  type CartId = nat
  type OrderId = nat
  /** A point in time as returned by the clock (`timezone.now()`). */
  type Timestamp = int
  /** A calendar day (`timezone.now().date()`). */
  type Date = int

  /** Width of the `role` and `status` character columns. */
  const ChoiceMaxLength: nat := 20

  // ---------------------------------------------------------------------------
  // UserProfile.Role

  datatype Role = Buyer | Contributor | Legal

  const DefaultRole: Role := Buyer

  /** The value stored in the `role` column. */
  function RoleValue(r: Role): (v: string)
    ensures 0 < |v| <= ChoiceMaxLength
  {
    match r
    case Buyer => "buyer"
    case Contributor => "contributor"
    case Legal => "legal"
  }

  /** The choice a stored `role` value denotes; None for a value outside the choices. */
  function ParseRole(v: string): (r: Option<Role>)
    ensures r.Some? ==> RoleValue(r.value) == v
    ensures r.None? ==> forall x :: RoleValue(x) != v
  {
    if v == "buyer" then Some(Buyer)
    else if v == "contributor" then Some(Contributor)
    else if v == "legal" then Some(Legal)
    else None
  }

  /** Every role survives a trip through its stored value. */
  lemma RoleRoundTrip(r: Role)
    ensures ParseRole(RoleValue(r)) == Some(r)
  {
  }

  // ---------------------------------------------------------------------------
  // Order.Status

  datatype OrderStatus = PendingReview | Approved | Rejected

  const DefaultOrderStatus: OrderStatus := PendingReview

  function OrderStatusValue(s: OrderStatus): (v: string)
    ensures 0 < |v| <= ChoiceMaxLength
  {
    match s
    case PendingReview => "pending_review"
    case Approved => "approved"
    case Rejected => "rejected"
  }

  function ParseOrderStatus(v: string): (s: Option<OrderStatus>)
    ensures s.Some? ==> OrderStatusValue(s.value) == v
    ensures s.None? ==> forall x :: OrderStatusValue(x) != v
  {
    if v == "pending_review" then Some(PendingReview)
    else if v == "approved" then Some(Approved)
    else if v == "rejected" then Some(Rejected)
    else None
  }

  lemma OrderStatusRoundTrip(s: OrderStatus)
    ensures ParseOrderStatus(OrderStatusValue(s)) == Some(s)
  {
  }

  // ---------------------------------------------------------------------------
  // License.Status

  datatype LicenseStatus = Draft | Active | Expired | Revoked

  /** The column default; approval never relies on it, since it issues
      licences as `Active` explicitly. */
  const DefaultLicenseStatus: LicenseStatus := Draft

  function LicenseStatusValue(s: LicenseStatus): (v: string)
    ensures 0 < |v| <= ChoiceMaxLength
  {
    match s
    case Draft => "draft"
    case Active => "active"
    case Expired => "expired"
    case Revoked => "revoked"
  }

  function ParseLicenseStatus(v: string): (s: Option<LicenseStatus>)
    ensures s.Some? ==> LicenseStatusValue(s.value) == v
    ensures s.None? ==> forall x :: LicenseStatusValue(x) != v
  {
    if v == "draft" then Some(Draft)
    else if v == "active" then Some(Active)
    else if v == "expired" then Some(Expired)
    else if v == "revoked" then Some(Revoked)
    else None
  }

  lemma LicenseStatusRoundTrip(s: LicenseStatus)
    ensures ParseLicenseStatus(LicenseStatusValue(s)) == Some(s)
  {
  }

  // ---------------------------------------------------------------------------
  // Rows

  /** A licensing tier; its id is the key of the tier table. */
  datatype PricingTier = PricingTier(name: string, priceCents: nat, durationMonths: nat, allowedUsages: string)

  /** One cart line: `quantity` copies of `track` under `tier` in cart `cart`. */
  datatype CartItem = CartItem(cart: CartId, track: TrackId, tier: TierId, quantity: nat)

  const DefaultQuantity: nat := 1

  datatype Order = Order(
    id: OrderId,
    user: UserId,
    status: OrderStatus,
    createdAt: Timestamp,
    reviewedBy: Option<UserId>,
    reviewedAt: Option<Timestamp>,
    reviewNotes: string)

  /** An order line, with the tier price frozen at checkout. */
  datatype OrderItem = OrderItem(order: OrderId, track: TrackId, tier: TierId, priceCentsSnapshot: nat, quantity: nat)

  datatype License = License(
    buyer: UserId,
    track: TrackId,
    tier: TierId,
    status: LicenseStatus,
    startsAt: Option<Date>,
    endsAt: Option<Date>,
    createdAt: Timestamp)

  /** How an operation fails: the HTTP 400, 404 and 403 responses of the
      endpoints, and the database's refusal of a row that breaks a constraint. */
  datatype Failure = BadRequest | NotFound | Forbidden | IntegrityError

  // ---------------------------------------------------------------------------
  // Uniqueness constraints

  /** `unique_together = ("name", "duration_months")` on the tier table. */
  ghost predicate TiersUnique(tiers: map<TierId, PricingTier>) {
    forall a, b :: a in tiers && b in tiers && a != b ==>
      tiers[a].name != tiers[b].name || tiers[a].durationMonths != tiers[b].durationMonths
  }

  /** True when `it` is the line for (cart, track, tier). */
  predicate IsLine(it: CartItem, cart: CartId, track: TrackId, tier: TierId) {
    it.cart == cart && it.track == track && it.tier == tier
  }

  /** `unique_together = ("cart", "track", "tier")` on the cart line table. */
  ghost predicate LinesUnique(items: seq<CartItem>) {
    forall i, j :: 0 <= i < j < |items| ==> !IsLine(items[j], items[i].cart, items[i].track, items[i].tier)
  }
}
