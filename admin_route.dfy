/** The admin-area guard of `src/components/AdminRoute/index.js`: a spinner
    while the session loads, a redirect to the login page (remembering
    where the visitor was going) for a visitor, the access-denied panel for
    a user without admin access, and the children otherwise. */
module AdminRoute {
  import opened Common
  import opened AuthContext
  import opened Navigation
  import RoleRoute

  /** The guard's decision at the current location `location`. */
  function Guard(s: AuthState, location: string): (r: Screen)
    ensures s.loading ==> r == Spinner
    ensures !s.loading && !s.isAuthenticated ==> r == Redirect(LoginPath, Some(location))
    ensures !s.loading && s.isAuthenticated && !CanAccessAdmin(s.user) ==> r == AccessDenied
    ensures r == Children <==> !s.loading && s.isAuthenticated && CanAccessAdmin(s.user)
  {
    if s.loading then Spinner
    else if !s.isAuthenticated then Redirect(LoginPath, Some(location))
    else if !CanAccessAdmin(s.user) then AccessDenied
    else Children
  }

  /** For users without the `admin` flag, the admin guard lets through
      exactly those the role guard lets through for the admin and manager
      roles. */
  lemma AgreesWithRoleGuard(s: AuthState, location: string)
    requires s.user.Some? ==> !s.user.value.admin
    ensures Guard(s, location) == Children <==> RoleRoute.Guard(s, [AdminRole, ManagerRole]) == Children
  {
    var roles := [AdminRole, ManagerRole];
    if RoleRoute.AnyRole(s.user, roles) {
      var i :| 0 <= i < |roles| && HasRole(s.user, roles[i]);
    }
    if CanAccessAdmin(s.user) {
      if HasRole(s.user, AdminRole) {
        assert HasRole(s.user, roles[0]);
      } else {
        assert HasRole(s.user, roles[1]);
      }
    }
  }
}
