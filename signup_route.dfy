/** `SignupRoute` (src/routes/SignUpRoute.tsx): the guard around the
    post-signup pages. */
module SignupRoute {
  import opened Common
  import opened AuthSlice

  const SignupPath := "/auth/organization/signup"

  /** The guard's decision from `loading` and `signedupUser` alone. */
  function Guard(loading: bool, signedupUser: Option<SignedupUser>): (r: Rendered)
    ensures loading ==> r == Loader
    ensures !loading && signedupUser.None? ==> r == Redirect(SignupPath)
    ensures r == Children <==> !loading && signedupUser.Some?
  {
    if loading then Loader
    else if signedupUser.None? then Redirect(SignupPath)
    else Children
  }

}
