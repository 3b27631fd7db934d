# Media-licensing storefront: cart, orders, review and licences

This project models the commerce core of a Django media-licensing storefront:

- **Cart.** A buyer keeps one cart, created on first use. Lines in the cart are
  keyed by (track, pricing tier). Adding a (track, tier) pair that is already
  there raises that line's quantity instead of adding a second line.
- **Checkout.** Turns a non-empty cart into an order that is pending review.
  Each order line is a copy of a cart line, with the tier's price frozen at
  checkout time. Checkout then empties the cart.
- **Review.** A legal reviewer approves or rejects a pending order at most once;
  an order nobody reviews stays pending.
  Approval issues one active, open-ended licence per order line to the
  order's owner.
- **Order listing.** Lists orders newest first: every order for a legal
  reviewer, only their own orders for anyone else.
- **Supporting code.**
  - the two permission classes;
  - the signal that gives every new user a buyer profile;
  - the uuid-based upload path helpers;
  - the enumerations, defaults and uniqueness constraints of the models.

The database is the class `Commerce.Store`. Its fields are the tables it
touches:

- profiles;
- pricing tiers;
- carts;
- cart lines;
- orders;
- order lines;
- licences.

Each endpoint is a method that changes those fields. `Valid()` holds the
constraints the schema enforces:

- at most one cart per user;
- at most one line per (cart, track, tier);
- at most one tier per (name, duration);
- the cart, track and tier of every cart line exist;
- the order, track and tier of every order line exist.

The model also assumes that order ids are the order's position plus one
(auto-increment ids, no order ever deleted).

`Valid()` also holds one invariant that the modelled endpoints keep
without stating it:

- every licence was issued for exactly one line of an approved order;
- every line of an approved order has exactly one licence.

A ghost field records, for each licence, the order line it came from.

Each method states its effect against a specification function on values.
These functions are in the modules `CartLines`, `Orders` and `OrderListing`.
The properties of those functions are lemmas:

- quantity accounting per (cart, track, tier);
- uniqueness of lines;
- the snapshot at checkout;
- at most one review decision per order;
- the licence provenance invariant;
- the sort order of the listing.

Identifiers, timestamps and dates are integers. The current time, today's
date and the generated uuid are parameters.

## Model

| member | source | states |
|---|---|---|
| Commerce.Store.constructor | app/models.py:131-147 | An empty database satisfies every table constraint and the licence invariant. |
| Commerce.Store.GetCart | app/api.py:65-67 | A user who has a cart gets that same cart. Otherwise exactly one new cart with no lines is created, under a fresh id. Nothing else changes. |
| Commerce.Store.AddItem | app/api.py:73-87 | Unknown track or tier gives 400 with the lines unchanged. Otherwise the (track, tier) line's quantity grows by the given amount (default 1), a line for the pair exists, and every other (cart, track, tier) quantity is unchanged. The reply is the cart's lines. The table constraints are kept. |
| Commerce.Store.MergeIntoCart | app/api.py:78-86 | The get-or-create-then-increment step. The lines become MergeLine of the old lines, the target quantity grows by exactly q, and all other quantities are kept. |
| CartLines.MergeLineQuantity | app/api.py:78-86 | Merging q into a table with unique lines adds q to the target (cart, track, tier) quantity and leaves every other quantity unchanged. |
| CartLines.MergeLineUnique | app/models.py:146-147 | Merging keeps (cart, track, tier) unique: an existing line is updated in place, otherwise one line is appended. |
| CartLines.MergeLineKeys | app/api.py:78-86 | Every line after a merge was already there or is the merged (cart, track, tier) line. |
| CartLines.FindLine | app/api.py:95-99 | The lookup of the row for (cart, track, tier): a found position holds that row, and None means no row matches. It is also the lookup half of get_or_create (app/api.py:78-83). |
| CartLines.MergeLine | app/api.py:78-86 | The table after add_item: the table keeps its length (existing row incremented) or grows by one row (new row). Its quantities are stated by MergeLineQuantity. |
| CartLines.RemoveAt | app/api.py:102 | The table after deleting row k: one row shorter, earlier rows kept, later rows shifted down by one. |
| Commerce.Store.RemoveItem | app/api.py:89-103 | Fails exactly when the track or tier is unknown (400) or the cart has no line for the pair (404), with the lines unchanged. Otherwise it succeeds and deletes exactly the matching line: its quantity becomes 0 and every other quantity is kept. |
| Commerce.Store.DeleteLine | app/api.py:102 | Deleting row k zeroes the quantity of that row's (cart, track, tier) and keeps every other quantity. |
| CartLines.RemoveLineQuantity | app/api.py:102 | In a table with unique lines, removing row k zeroes exactly that row's key. |
| CartLines.RemoveAtUnique | app/models.py:146-147 | Deleting a row keeps the lines unique. |
| Commerce.Store.Clear | app/api.py:105-109 | Never fails. Afterwards the caller's cart has no lines, the quantities of other carts are unchanged, and the reply is the empty line list. |
| CartLines.LinesOf | app/api.py:114-118 | `cart.items.all()`: a row is listed exactly when it is in the table and belongs to the cart. |
| CartLines.WithoutCart | app/api.py:108 | `cart.items.all().delete()`: a row survives exactly when it belongs to another cart. |
| Commerce.Store.DropCart | app/api.py:108 | The lines become WithoutCart of the old lines. The cart's quantities become 0 and other carts' quantities are kept. |
| CartLines.WithoutCartQuantity | app/api.py:108 | Removing a cart's lines zeroes every quantity of that cart and keeps every other cart's quantities. |
| CartLines.WithoutCartIdempotent | app/api.py:105-109 | Clearing twice is the same as clearing once. |
| CartLines.WithoutCartUnique | app/models.py:146-147 | Removing a cart's lines keeps the lines unique. |
| CartLines.LinesOfNone | app/api.py:66 | A cart id that no line references has no lines, so a newly created cart is empty. |
| Commerce.Store.Checkout | app/api.py:111-127 | A cart with no lines gives 400 and changes no cart line, order or order line. Otherwise it creates one new order, owned by the caller and pending review, with id = previous count + 1. The order's lines are exactly the snapshot of the cart lines, and the cart ends with no lines. |
| Commerce.Store.PlaceOrder | app/api.py:117-125 | Appends the new pending order and its snapshot lines. The order's lines are exactly the snapshot. The licence invariant is kept. |
| Commerce.Store.AppendSnapshot | app/api.py:118-125 | The loop appends exactly Snapshot(lines) to the order-line table. |
| Orders.Snapshot | app/api.py:118-125 | One order line per cart line, in order, copying track, tier and quantity, with the price taken from the tier's current price. |
| Orders.CheckoutStep | app/api.py:117-126 | Adding a pending order and its lines keeps the order-table invariant and the licence invariant. The new order's lines are exactly its snapshot. |
| Orders.CheckoutKeepsLicences | app/api.py:117-125 | No licence is added or changed by checkout, and the licence invariant holds over the extended tables. |
| Orders.ItemsOf | app/api.py:153 | The lines of an order are exactly the table rows that reference it. |
| Orders.ItemsOfAppend | app/api.py:119-125 | Appending lines of one order leaves the lines of every other order unchanged. |
| Orders.ItemsOfNone | app/api.py:117 | An order id that no row references has no lines. |
| Orders.Review | app/api.py:145-151 | Succeeds exactly when the order is pending review; otherwise 400. On success the status is approved or rejected (never pending), reviewer, time and notes are set, and id, owner and creation time are kept. |
| Orders.AtMostOneDecision | app/api.py:145-146 | Over any sequence of approve/reject attempts at most one succeeds. A reviewed order never changes again. A pending order takes the first attempt's decision. |
| Commerce.Store.Approve | app/api.py:142-162 | A non-reviewer gets 403, an unknown id gets 404, and a non-pending order gets 400; each of these leaves orders and licences unchanged. Otherwise the order becomes approved with reviewer, time and notes (default empty). One licence per order line is appended, and the licence invariant is kept. |
| Commerce.Store.ApprovePending | app/api.py:147-161 | Replaces the order by its approved version and appends Grants of its lines. |
| Commerce.Store.IssueLicences | app/api.py:153-161 | The loop appends exactly Grants(items), one licence per line. |
| Orders.Grant | app/api.py:154-161 | The licence for one order line goes to the order's owner for that line's track and tier, active, starting today, with no end date. |
| Orders.Grants | app/api.py:153-161 | One licence per order line, in order: buyer is the order owner, same track and tier, status active, starts today, no end date. |
| Orders.PositionsAlign | app/api.py:153 | The table positions of an order's lines correspond one to one with its lines. |
| Orders.PositionsIncrease | app/api.py:153 | Those positions are strictly increasing, so no line is licensed twice. |
| Orders.PositionsCover | app/api.py:153 | Every row of the order appears among its positions. |
| Orders.NewLicencesFit | app/api.py:153-161 | The licences issued for an approved order each match one distinct line of that order, and every line gets one. |
| Orders.ApproveKeepsLicences | app/api.py:147-161 | Approving a pending order and appending the grants of its lines keeps the order-table invariant and the licence invariant: licences exist exactly for lines of approved orders, one each. |
| Orders.RejectKeepsLicences | app/api.py:169-173 | Rejecting a pending order keeps both invariants without adding licences. |
| Orders.LicencesOnlyForApproved | app/api.py:142-174 | Under the invariant, every licence comes from a line of an approved order and was issued to that order's owner for the line's track and tier, so a pending or rejected order has no licence. |
| Orders.EmptyTables | app/models.py:153-175 | Empty order, line and licence tables satisfy both invariants. |
| Commerce.Store.Reject | app/api.py:164-174 | A non-reviewer gets 403, an unknown id gets 404, and a non-pending order gets 400, each with orders unchanged. Otherwise only that order changes, to rejected with reviewer, time and notes. No licence is issued. |
| Commerce.Store.ListOrders | app/api.py:134-140 | The result is newest first. It holds exactly the visible orders: all of them for a legal reviewer, otherwise the caller's own. |
| OrderListing.VisibleTo | app/api.py:136-140 | An order is visible exactly when the caller is a reviewer or owns it. A reviewer sees the whole table. |
| OrderListing.SortNewestFirst | app/api.py:138-140 | `order_by('-created_at')`: the result is newest first and a permutation of its input. |
| OrderListing.InsertStep | app/api.py:138 | Inserting the head into a newest-first permutation of the tail gives a newest-first permutation of the whole. |
| OrderListing.InsertByDateSorted | app/api.py:138 | Inserting into a newest-first list keeps it newest first. |
| OrderListing.InsertByDateAdds | app/api.py:138 | Inserting adds exactly the one order. |
| OrderListing.InsertByDateBounded | app/api.py:138 | Inserting an order no newer than t into orders no newer than t keeps them all no newer than t. |
| Uploads.UuidFilename | app/models.py:7-9 | The path is subdir, a slash, the uuid, then the stored extension. |
| Uploads.StoredExtension | app/models.py:8 | The lower-cased suffix of the final path component: empty or a dot followed by dot-free text, with no slash and no upper-case letter. |
| Uploads.DottedName | app/models.py:8 | An ordinary name `base.e` (no slash, `e` without a dot) is stored with extension `.` + lower-cased `e`, so `song.MP3` keeps `.mp3`. |
| Uploads.SuffixOfDotted | app/models.py:8 | The suffix of `base.e`, with `e` dot-free and both parts non-empty, is `.e`. |
| Uploads.LastIndexOfAppend | app/models.py:8 | Appending text without the character does not move its last occurrence. |
| Uploads.LastIndexOf | app/models.py:8 | `str.rfind`: -1 exactly when the character is absent, otherwise a position holding it with none after it. |
| Uploads.PathName | app/models.py:8 | The final path component has no slash, is never ".", and a plain name is its own final component. |
| Uploads.Suffix | app/models.py:8 | When the last dot is neither the first nor the last character, the suffix is the text from that dot. Otherwise it is empty: no dot, a trailing dot, or a name whose only dot leads. |
| Uploads.Lower | app/models.py:8 | Lower-casing keeps the length and maps each character through ASCII lower-casing. |
| Uploads.ExtensionOfFinalComponent | app/models.py:8 | Only the final path component's extension matters: a directory prefix does not change the stored name. |
| Uploads.NoExtension | app/models.py:7-9 | A file name without a dot is stored as subdir/uuid. |
| Uploads.ArtistImageUploadTo | app/models.py:12-13 | Stored as artists/ + uuid + extension. |
| Uploads.AlbumCoverUploadTo | app/models.py:16-17 | Stored as albums/ + uuid + extension. |
| Uploads.TrackAudioUploadTo | app/models.py:20-21 | Stored as tracks/ + uuid + extension. |
| Uploads.AdVideoUploadTo | app/models.py:24-25 | Stored as ads/ + uuid + extension. |
| Models.RoleValue | app/models.py:87-93 | The stored role strings are non-empty and fit the 20-character column. |
| Models.ParseRole | app/models.py:87-93 | A stored string parses to the role it encodes, and anything else is rejected. |
| Models.RoleRoundTrip | app/models.py:87-90 | Parsing a role's stored string gives back that role. |
| Models.OrderStatusValue | app/models.py:154-160 | The stored status strings fit the column. |
| Models.ParseOrderStatus | app/models.py:154-157 | A stored status string parses back, and others are rejected. |
| Models.OrderStatusRoundTrip | app/models.py:154-157 | Parsing the stored string gives back the status. |
| Models.LicenseStatusValue | app/models.py:113-122 | The stored licence status strings fit the column. |
| Models.ParseLicenseStatus | app/models.py:113-117 | A stored licence status string parses back, and others are rejected. |
| Models.LicenseStatusRoundTrip | app/models.py:113-117 | Parsing the stored string gives back the licence status. |
| Commerce.Store.InsertTier | app/models.py:105-106 | Inserting a tier whose (name, duration) already exists fails with an integrity error and leaves the table unchanged. Otherwise the tier is stored under a fresh id. |
| Commerce.Store.InsertCartItem | app/models.py:146-147 | A raw insert whose (cart, track, tier) already exists, or whose foreign key does not resolve, fails with an integrity error and leaves the table unchanged. Otherwise the row is appended. |
| Commerce.Store.CreateUserProfile | app/signals.py:14-18 | The profile table becomes ProvisionProfile of the old one. |
| Signals.ProvisionProfile | app/signals.py:14-18 | Nothing happens unless the save created the user. A new user without a profile gets one with role buyer. Existing profiles keep their role. |
| Signals.ProvisionIdempotent | app/signals.py:18 | Running the signal twice is the same as running it once, so each user has at most one profile. |
| Commerce.Store.SetRole | app/tests.py:116-118 | An existing profile's role is overwritten. A user without a profile is refused and nothing changes. |
| Permissions.IsLegalReviewer | app/permissions.py:7-12 | No user, or an anonymous one, is denied. A user without a profile is denied. Otherwise the user is allowed exactly when the profile's role is legal. |
| Permissions.OwnerOf | app/permissions.py:20 | The owner is the object's user, falling back to its buyer when the user is empty. |
| Permissions.IsOwnerOrReadOnly | app/permissions.py:16-21 | Safe methods are always allowed. For other methods, access is allowed exactly when an authenticated user equals the owner. An object with no owner, or a request with no authenticated user, is denied. |
| Commerce.Store.Valid | app/models.py:105-147 | The store invariant: unique (name, duration) tiers, one cart per user, unique cart lines with existing keys, order lines with existing keys, and licences in step with approved order lines. |
| Models.TiersUnique | app/models.py:105-106 | No two tiers share (name, duration_months). |
| Models.LinesUnique | app/models.py:146-147 | No two cart lines share (cart, track, tier). |
| Commerce.NewCartKeepsLineTable | app/models.py:131-132 | Adding a cart with a fresh id for a user without one keeps the cart-line constraints. |
| Commerce.MergeKeepsLineTable | app/models.py:146-147 | A merge with resolvable keys keeps the cart-line constraints. |
| Commerce.RemoveKeepsLineTable | app/models.py:146-147 | Deleting a row keeps the cart-line constraints. |
| Commerce.SnapshotKeepsOrderLineKeys | app/models.py:170-175 | Order lines copied from cart lines whose track and tier exist also have existing tracks and tiers. |
| Commerce.DropKeepsLineTable | app/models.py:146-147 | Removing a cart's rows keeps the cart-line constraints. |

## Left out

- Transactions and concurrency. Each endpoint is one sequential step, and the model claims no atomicity.
  - Checkout and approval run without an atomic block in the code.
  - A unique-key violation on insert is not retried as an increment.
- IsOwnerOrReadOnly is imported but attached to no endpoint. It is modelled as a standalone predicate.
- Commerce.Store.AddItem: quantity is a natural number and 0 is accepted, as PositiveIntegerField accepts it and the endpoint does not check it. The 2147483647 upper bound of the database column is not modelled.
- Request validation by the serializers is reduced to one check: track and tier ids must exist (400 otherwise).
- Authentication (IsAuthenticated on both view sets) is reduced to a caller id:
  - the cart and order endpoints take an authenticated user id;
  - approve and reject take a RequestUser and answer 403 for any caller that is not a legal reviewer;
  - the 401/403 split for an unauthenticated caller is not modelled.
- The inherited order destroy endpoint is not modelled. It would break the licence invariant in `Valid()`: a buyer may delete an approved order of their own, the delete cascades to its order lines, and its licences stay, because a licence has no key to its order.
- An order id that does not exist gives 404. The model's order ids are positions plus one, and orders are never deleted.
- Licence expiry: approval leaves the end date empty whatever the tier's duration. No expiry policy is modelled, and licences never move to expired or revoked.
- Time, date and uuid:
  - The several `timezone.now()` calls in one approval are modelled as one `now` and one `today`.
  - `uuid.uuid4()` is a parameter.
  - Creation times are parameters, so ties in creation time are possible and the listing orders tied orders arbitrarily.
- Row order: `cart.items.all()` and `order.items.all()` are taken in table order.
- Uploads:
  - Path handling follows POSIX pathlib (Python 3.12) on file names.
  - Lower-casing is ASCII only; Unicode case mapping is not modelled.
- The rest of the repository is not part of this model:
  - inherited ModelViewSet create/update/destroy on orders and the catalog;
  - the catalog view sets;
  - HTML views and e-mail;
  - serializers, admin, forms, URL routing and app config;
  - the payment and contract stubs;
  - the fake-data command (network, randomness, WAV writing);
  - `PricingTier.__str__`, which uses floating-point formatting.
