/**
 * The admin route guard of src/routes/AdminRoute.tsx: a decision over the
 * provider's `isLoading`, `isAuthenticated` and `user?.role`, and the location
 * the visitor asked for.
 */
module AdminRoute {
  import opened Wrappers
  import opened UserRecord
  import opened AuthContext

  /** The location `useLocation` returns. */
  datatype Location = Location(pathname: string, search: string, hash: string)

  /** What the guard renders. */
  datatype Rendered =
    | ShowLoading                                          // the loading placeholder
    | Redirect(to: string, from: Location, replace: bool)  // `<Navigate to state={{from}} replace />`
    | RenderChildren                                       // the protected subtree

  const UnauthorizedPath := "/unauthorized"
  const AdminRole := "admin"

  /** `user?.role === 'admin'`. */
  predicate IsAdmin(user: Option<User>) {
    user.Some? && user.value.role == Some(AdminRole)
  }

  /** The guard's decision. Every visitor who is not admitted goes to `/unauthorized`. */
  function Decide(isLoading: bool, isAuthenticated: bool, user: Option<User>, location: Location): (r: Rendered)
    ensures r.ShowLoading? <==> isLoading
    ensures r.RenderChildren? <==> !isLoading && isAuthenticated && IsAdmin(user)
    ensures r.Redirect? ==> r == Redirect(UnauthorizedPath, location, true)
  {
    if isLoading then ShowLoading
    else if !isAuthenticated || !IsAdmin(user) then Redirect(UnauthorizedPath, location, true)
    else RenderChildren
  }

  /** A user without a role, or with any role other than admin, is never admitted. */
  lemma NonAdminNeverAdmitted(isLoading: bool, isAuthenticated: bool, u: User, location: Location)
    requires u.role != Some(AdminRole)
    ensures !Decide(isLoading, isAuthenticated, Some(u), location).RenderChildren?
  {
  }

  /**
   * The guard as mounted: it reads the provider's state and changes nothing,
   * so it never logs in, logs out or re-checks the session.
   */
  method Guard(p: AuthProvider, location: Location) returns (r: Rendered)
    ensures r == Decide(p.isLoading, p.isAuthenticated, p.user, location)
  {
    r := Decide(p.isLoading, p.isAuthenticated, p.user, location);
  }

  /** Right after `logout` the guard redirects, whatever the visitor asked for. */
  method GuardAfterLogout(p: AuthProvider, location: Location) returns (r: Rendered)
    requires !p.isLoading
    modifies p
    ensures r == Redirect(UnauthorizedPath, location, true)
  {
    p.Logout();
    r := Guard(p, location);
  }

  /** On mount over an empty store, the guard first shows loading, then redirects. */
  method GuardOnFreshStart(location: Location) returns (first: Rendered, second: Rendered)
    ensures first == ShowLoading
    ensures second == Redirect(UnauthorizedPath, location, true)
  {
    var p := new AuthProvider(map[]);
    first := Guard(p, location);
    p.InitAuth();
    second := Guard(p, location);
  }
}
