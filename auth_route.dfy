/** The login-state guard of `src/components/ProtectedRoute/index.js`:
    pages that need a session send visitors to the login page, pages for
    visitors only (such as the login page) send signed-in users back where
    they came from. */
module AuthRoute {
  import opened Common
  import opened Text
  import opened AuthContext
  import opened Navigation

  /** The guard's decision at `location`; `fromState` is
      `location.state?.from?.pathname`. `requireAuth` defaults to true. */
  function Guard(s: AuthState, location: string, fromState: Option<string>, requireAuth: bool := true): (r: Screen)
    ensures s.loading ==> r == Spinner
    ensures !s.loading && requireAuth && !s.isAuthenticated ==> r == Redirect(LoginPath, Some(location))
    ensures !s.loading && !requireAuth && s.isAuthenticated ==> r == Redirect(OrElse(fromState.GetOr(""), HomePath), None)
    ensures r == Children <==> !s.loading && s.isAuthenticated == requireAuth
    ensures r.Redirect? ==> r.to != ""
  {
    if s.loading then Spinner
    else if requireAuth && !s.isAuthenticated then Redirect(LoginPath, Some(location))
    else if !requireAuth && s.isAuthenticated then Redirect(OrElse(fromState.GetOr(""), HomePath), None)
    else Children
  }

  /** With the default `requireAuth`, a signed-in user always gets the
      children once loading is over, and the redirect target is the login
      page otherwise. */
  lemma DefaultRequiresSession(s: AuthState, location: string, fromState: Option<string>)
    requires !s.loading
    ensures Guard(s, location, fromState) == (if s.isAuthenticated then Children else Redirect(LoginPath, Some(location)))
  {
  }

  /** A round trip through the login page: the visitor is sent there with
      `from` set to the protected location and, once signed in, the login
      page's guard sends them back to it. */
  lemma LoginRoundTrip(visitor: AuthState, member: AuthState, location: string)
    requires !visitor.loading && !visitor.isAuthenticated
    requires !member.loading && member.isAuthenticated
    requires location != ""
    ensures Guard(visitor, location, None).from == Some(location)
    ensures Guard(member, LoginPath, Guard(visitor, location, None).from, false) == Redirect(location, None)
  {
  }
}
