/** The role and expiry predicates of the `useAuth` hook
    (src/hooks/useAuth.tsx), with the current time `now` (milliseconds, as
    `Date.now()` gives it) as a parameter, and what `handleLogout` does. */
module UseAuth {
  import opened Common
  import opened AuthSlice

  /** Five minutes in milliseconds: `5 * 60 * 1000`. */
  const RefreshMargin := 300000

  const LogoutPath := "/login"

  /** `hasRole(role)`: `user?.role === role`. */
  predicate HasRole(user: Option<User>, role: string)
    ensures HasRole(user, role) ==> user.Some?
  {
    user.Some? && user.value.role == role
  }

  /** `hasAnyRole(roles)`: `user ? roles.includes(user.role) : false`. */
  predicate HasAnyRole(user: Option<User>, roles: seq<string>)
    ensures HasAnyRole(user, roles) ==> user.Some? && roles != []
  {
    user.Some? && user.value.role in roles
  }

  /** `isTokenExpired()`: a missing or zero expiry counts as expired;
      otherwise the token is expired from five minutes before its expiry on. */
  predicate IsTokenExpired(tokenExpiry: Option<int>, now: int)
    ensures tokenExpiry.Some? && tokenExpiry.value != 0 && now + RefreshMargin < tokenExpiry.value ==>
      !IsTokenExpired(tokenExpiry, now)
    ensures tokenExpiry.Some? && now >= tokenExpiry.value ==> IsTokenExpired(tokenExpiry, now)
  {
    tokenExpiry.None? || tokenExpiry.value == 0 || now >= tokenExpiry.value - RefreshMargin
  }

  /** The first effect's trigger: authenticated, expired, and holding a
      (truthy) refresh token. */
  predicate ShouldAutoRefresh(isAuthenticated: bool, tokenExpiry: Option<int>, refreshToken: Option<string>, now: int)
    ensures ShouldAutoRefresh(isAuthenticated, tokenExpiry, refreshToken, now) ==>
      isAuthenticated && refreshToken.Some? && refreshToken.value != ""
  {
    isAuthenticated && IsTokenExpired(tokenExpiry, now) && Truthy(refreshToken)
  }

  /** What the periodic-refresh effect does: nothing, refresh at once, or
      set a timer for the given delay. */
  datatype Schedule = NoTimer | RefreshNow | RefreshAfter(delay: int)

  /** The periodic-refresh effect: without a session or an expiry nothing is
      scheduled; else the delay is `tokenExpiry - now - 5 minutes`, and a
      delay that is not positive refreshes at once. `setTimeout` fires at
      once for a delay above 2^31 - 1 ms (about 24.8 days); that is not
      modelled, and no reachable session has an expiry to schedule (see
      `UnsetExpiryAlwaysRefreshes`). */
  function RefreshSchedule(isAuthenticated: bool, tokenExpiry: Option<int>, now: int): (r: Schedule)
    ensures r == NoTimer <==> !isAuthenticated || tokenExpiry.None? || tokenExpiry.value == 0
    ensures r.RefreshAfter? ==> r.delay > 0 && tokenExpiry.Some? && now + r.delay == tokenExpiry.value - RefreshMargin
  {
    if !isAuthenticated || tokenExpiry.None? || tokenExpiry.value == 0 then NoTimer
    else
      var timeUntilExpiry := tokenExpiry.value - now;
      var refreshTime := timeUntilExpiry - RefreshMargin;
      if refreshTime <= 0 then RefreshNow else RefreshAfter(refreshTime)
  }

  /** `hasRole` is `hasAnyRole` of a one-element list. */
  lemma HasRoleIsSingletonAnyRole(user: Option<User>, role: string)
    ensures HasRole(user, role) <==> HasAnyRole(user, [role])
  {
  }

  /** Without a user no role check passes. */
  lemma NoUserNoRole(role: string, roles: seq<string>)
    ensures !HasRole(None, role) && !HasAnyRole(None, roles)
  {
  }

  /** Expiry is monotone in time: once expired, a token stays expired. */
  lemma ExpiryIsMonotone(tokenExpiry: Option<int>, t1: int, t2: int)
    requires t1 <= t2 && IsTokenExpired(tokenExpiry, t1)
    ensures IsTokenExpired(tokenExpiry, t2)
  {
  }

  /** For an authenticated session with a set expiry, the refresh is
      immediate exactly when the token counts as expired, and otherwise the
      timer fires exactly when it starts to count as expired. */
  lemma ImmediateIffExpired(tokenExpiry: int, now: int)
    requires tokenExpiry != 0
    ensures RefreshSchedule(true, Some(tokenExpiry), now) == RefreshNow <==> IsTokenExpired(Some(tokenExpiry), now)
    ensures RefreshSchedule(true, Some(tokenExpiry), now).RefreshAfter? ==>
      && !IsTokenExpired(Some(tokenExpiry), now + RefreshSchedule(true, Some(tokenExpiry), now).delay - 1)
      && IsTokenExpired(Some(tokenExpiry), now + RefreshSchedule(true, Some(tokenExpiry), now).delay)
  {
  }

  /** No reducer ever sets `tokenExpiry`, so in every reachable session the
      token counts as expired at every time, no timer is ever set, and the
      auto-refresh fires whenever an authenticated session has a refresh
      token. */
  lemma UnsetExpiryAlwaysRefreshes(s: AuthState, now: int)
    requires s.tokenExpiry == None
    ensures IsTokenExpired(s.tokenExpiry, now)
    ensures RefreshSchedule(s.isAuthenticated, s.tokenExpiry, now) == NoTimer
    ensures ShouldAutoRefresh(s.isAuthenticated, s.tokenExpiry, s.refreshToken, now) <==>
      s.isAuthenticated && Truthy(s.refreshToken)
  {
  }

  /** `handleLogout`: dispatch `logout` and navigate to "/login". The thunk
      catches a failing logout call itself, and the catch branch navigates to
      the same place, so the outcome is the same either way. */
  method HandleLogout(store: AuthStore, apiFails: bool) returns (navigatedTo: string)
    requires store.Valid()
    modifies store
    ensures store.Valid()
    ensures navigatedTo == LogoutPath
    ensures store.storage == old(store.storage) - SessionKeys
    ensures !store.isAuthenticated && store.user == None
  {
    store.Logout(apiFails);
    navigatedTo := LogoutPath;
  }
}
