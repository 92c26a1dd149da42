/** `ProtectedRoute` (src/routes/ProtectedRoute.tsx): what the guard renders
    for the session in the store and the route's optional `allowedRoles`. */
module ProtectedRoute {
  import opened Common
  import opened AuthSlice

  const LoginPath := "/auth/login"
  const UnauthorizedPath := "/unauthorized"

  /** `user?.role` is truthy: there is a user and its role is non-empty. */
  predicate HasTruthyRole(user: Option<User>)
    ensures HasTruthyRole(user) <==> user.Some? && Truthy(Some(user.value.role))
  {
    user.Some? && user.value.role != ""
  }

  /** The guard's decision. An `allowedRoles` array is truthy even when empty. */
  function Guard(s: AuthState, allowedRoles: Option<seq<string>>): (r: Rendered)
    ensures !s.isAuthenticated ==> r == Redirect(LoginPath)
    ensures s.isAuthenticated ==> r != Loader && r != Redirect(LoginPath)
    ensures r == Redirect(UnauthorizedPath) <==>
      s.isAuthenticated && allowedRoles.Some? && HasTruthyRole(s.user) && s.user.value.role !in allowedRoles.value
  {
    if !s.isAuthenticated then Redirect(LoginPath)
    else if allowedRoles.Some? && HasTruthyRole(s.user) && s.user.value.role !in allowedRoles.value then
      Redirect(UnauthorizedPath)
    else Children
  }

  /** An authenticated session reaches the children exactly when no role
      list is given, the user or its role is missing, or the role is listed:
      a missing user is let through even when roles are required. */
  lemma ChildrenCases(s: AuthState, allowedRoles: Option<seq<string>>)
    requires s.isAuthenticated
    ensures Guard(s, allowedRoles) == Children <==>
      allowedRoles.None? || !HasTruthyRole(s.user) || s.user.value.role in allowedRoles.value
    ensures allowedRoles.None? ==> Guard(s, allowedRoles) == Children
    ensures s.user.None? ==> Guard(s, allowedRoles) == Children
  {
  }

  /** Without authentication the role list makes no difference. */
  lemma UnauthenticatedIgnoresRoles(s: AuthState, a: Option<seq<string>>, b: Option<seq<string>>)
    requires !s.isAuthenticated
    ensures Guard(s, a) == Guard(s, b) == Redirect(LoginPath)
  {
  }
}
