/** What a route guard renders in place of its children. */
module Navigation {
  import opened Common

  /** A loading spinner, a `<Navigate replace>` to `to` (with
      `state.from` set to `from` when given), the access-denied panel, or
      the protected children. */
  datatype Screen = Spinner | Redirect(to: string, from: Option<string>) | AccessDenied | Children

  const LoginPath := "/login"
  const UnauthorizedPath := "/unauthorized"
  const HomePath := "/"
}
