/**
 * Account rules shared by the landing pages and the profile page: guest
 * accounts are recognised by the `guest_` email prefix, and only a
 * signed-in, non-guest user is switched to the host dashboard on load.
 */
module Accounts {
  import opened Strings
  import opened Wrappers

  const GuestPrefix: string := "guest_"

  /** `email.startsWith('guest_')`. */
  predicate IsGuestEmail(email: string) {
    StartsWith(email, GuestPrefix)
  }

  /** The part of the signed-in user record the pages read ("" = absent). */
  datatype AuthUser = AuthUser(id: string, email: string)

  /** The load-time check `isAuthenticated() && user && user.email &&
      !user.email.startsWith('guest_')` that switches to host mode. */
  function ShouldAutoHost(authenticated: bool, user: Option<AuthUser>): (r: bool)
    ensures r ==> authenticated && user.Some?
    ensures user.Some? ==>
              (r <==> authenticated && user.value.email != "" && !IsGuestEmail(user.value.email))
  {
    authenticated && user.Some? && user.value.email != "" && !IsGuestEmail(user.value.email)
  }

  /** Every address made of the guest prefix and any suffix is a guest
      address, and such an account is never switched to the dashboard. */
  lemma GuestNeverAutoHosts(suffix: string, id: string, authenticated: bool)
    ensures IsGuestEmail(GuestPrefix + suffix)
    ensures !ShouldAutoHost(authenticated, Some(AuthUser(id, GuestPrefix + suffix)))
  {
    assert (GuestPrefix + suffix)[..|GuestPrefix|] == GuestPrefix;
  }

  /** An address shorter than the prefix, or differing from it in one of
      its first six characters, is not a guest address. */
  lemma NotGuestEmail(email: string, k: nat)
    requires k < |GuestPrefix| && (k >= |email| || email[k] != GuestPrefix[k])
    ensures !IsGuestEmail(email)
  {
    if |GuestPrefix| <= |email| {
      assert email[..|GuestPrefix|][k] == email[k];
    }
  }
}
