/** The role-checking guard of `src/routes/ProtectedRoute.js`: a spinner
    while the session loads, a redirect for a visitor, a redirect to the
    unauthorised page when roles are required and none matches, and the
    children otherwise. */
module RoleRoute {
  import opened Common
  import opened AuthContext
  import opened Navigation

  /** `allowedRoles.some(role => hasRole(role))`. */
  predicate AnyRole(user: Option<User>, allowedRoles: seq<string>) {
    exists i :: 0 <= i < |allowedRoles| && HasRole(user, allowedRoles[i])
  }

  /** The guard's decision. `redirectTo` defaults to the login page. */
  function Guard(s: AuthState, allowedRoles: seq<string>, redirectTo: string := LoginPath): (r: Screen)
    ensures s.loading ==> r == Spinner
    ensures !s.loading && !s.isAuthenticated ==> r == Redirect(redirectTo, None)
    ensures !s.loading && s.isAuthenticated && |allowedRoles| > 0 && !AnyRole(s.user, allowedRoles) ==>
              r == Redirect(UnauthorizedPath, None)
    ensures r == Children <==>
              !s.loading && s.isAuthenticated && (allowedRoles == [] || AnyRole(s.user, allowedRoles))
    ensures !r.AccessDenied?
  {
    if s.loading then Spinner
    else if !s.isAuthenticated then Redirect(redirectTo, None)
    else if |allowedRoles| > 0 && !AnyRole(s.user, allowedRoles) then Redirect(UnauthorizedPath, None)
    else Children
  }

  /** With roles required, the children are shown only to a user whose role
      is among them; the `admin` flag alone does not count. */
  lemma RolesMeanRoleField(s: AuthState, allowedRoles: seq<string>, redirectTo: string)
    requires |allowedRoles| > 0
    requires Guard(s, allowedRoles, redirectTo) == Children
    ensures s.user.Some? && s.user.value.role.Some? && s.user.value.role.value in allowedRoles
  {
    var i :| 0 <= i < |allowedRoles| && HasRole(s.user, allowedRoles[i]);
  }

  /** A user with the `admin` flag but no role is turned away from a route
      that requires the admin role. */
  lemma AdminFlagAloneIsUnauthorized(u: User)
    requires u.role == None && u.admin
    ensures Guard(AuthState(Some(u), true, false, None), [AdminRole]) == Redirect(UnauthorizedPath, None)
  {
  }
}
