/** Profile provisioning on user creation. */
module Signals {
  import opened Models

  /** The profile table after a user row was saved: a new user (`created`)
      without a profile gets one with the default role; in every other case
      the table is left as it was. */
  function ProvisionProfile(profiles: map<UserId, Role>, user: UserId, created: bool): (r: map<UserId, Role>)
    ensures !created ==> r == profiles
    ensures r.Keys == if created then profiles.Keys + {user} else profiles.Keys
    ensures forall u :: u in profiles ==> r[u] == profiles[u]
    ensures created && user !in profiles ==> r[user] == Buyer
  {
    if created && user !in profiles then profiles[user := DefaultRole] else profiles
  }

  /** Saving the same user again, or repeating the signal, changes nothing more. */
  lemma ProvisionIdempotent(profiles: map<UserId, Role>, user: UserId, created: bool, again: bool)
    ensures ProvisionProfile(ProvisionProfile(profiles, user, created), user, again)
         == ProvisionProfile(profiles, user, created || again)
  {
  }
}
