/** The two permission checks of the API: a role check against the caller's
    profile, and an object-level owner check for writes. */
module Permissions {
  import opened Wrappers
  import opened Models

  /** The `user` attribute of a request: absent, the anonymous user, or an
      authenticated account. */
  datatype RequestUser = NoUser | Anonymous | User(id: UserId)

  /** `IsLegalReviewer.has_permission`: the caller is signed in and their
      profile's role column holds "legal". `profiles` is the profile table. */
  function IsLegalReviewer(user: RequestUser, profiles: map<UserId, Role>): (allowed: bool)
    ensures !user.User? ==> !allowed
    ensures user.User? && user.id !in profiles ==> !allowed
    ensures allowed <==> user.User? && user.id in profiles && profiles[user.id] == Legal
  {
    if !user.User? then false
    else
      var profile := if user.id in profiles then Some(profiles[user.id]) else None;
      profile.Some? && RoleValue(profile.value) == "legal"
  }

  /** Request methods that never change anything. */
  const SafeMethods: set<string> := {"GET", "HEAD", "OPTIONS"}

  /** The owner attributes an object may carry: `user` (carts, orders) or
      `buyer` (licences); None where the attribute is missing or empty. */
  datatype Owned = Owned(user: Option<UserId>, buyer: Option<UserId>)

  /** `getattr(obj, 'user', None) or getattr(obj, 'buyer', None)`. */
  function OwnerOf(obj: Owned): (owner: Option<UserId>)
    ensures obj.user.Some? ==> owner == obj.user
    ensures obj.user.None? ==> owner == obj.buyer
  {
    if obj.user.Some? then obj.user else obj.buyer
  }

  /** `IsOwnerOrReadOnly.has_object_permission`. The anonymous user is never
      equal to an owner. */
  function IsOwnerOrReadOnly(httpMethod: string, user: RequestUser, obj: Owned): (allowed: bool)
    ensures httpMethod in SafeMethods ==> allowed
    ensures httpMethod !in SafeMethods && obj.user.None? && obj.buyer.None? ==> !allowed
    ensures httpMethod !in SafeMethods && !user.User? ==> !allowed
    ensures httpMethod !in SafeMethods ==>
      (allowed <==> user.User? && (obj.user == Some(user.id) || (obj.user.None? && obj.buyer == Some(user.id))))
  {
    if httpMethod in SafeMethods then true
    else
      var owner := OwnerOf(obj);
      user.User? && owner.Some? && owner.value == user.id
  }
}
