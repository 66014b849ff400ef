/**
 * The access decision of src/components/ProtectedRoute.tsx: go to the login page
 * (remembering where the user was), go home, or render the nested route.
 */
module ProtectedRoute {
  import opened Wrappers
  import opened Types

  const LoginPath := "/login"
  const HomePath := "/"

  /** `<Navigate to=... state={{from}}>` or `<Outlet />`. */
  datatype Decision = Redirect(to: string, from: Option<string>) | Allow

  /**
   * The guard for the current `user` (absent when logged out), the optional
   * `allowedRoles` list and the current location.
   */
  function Guard(user: Option<User>, allowedRoles: Option<seq<Role>>, location: string): (d: Decision)
    ensures user.None? <==> d == Redirect(LoginPath, Some(location))
    ensures d == Allow <==> user.Some? && (allowedRoles.None? || user.value.role in allowedRoles.value)
    ensures d == Redirect(HomePath, None) <==>
      user.Some? && allowedRoles.Some? && user.value.role !in allowedRoles.value
  {
    if user.None? then Redirect(LoginPath, Some(location))
    else if allowedRoles.Some? && user.value.role !in allowedRoles.value then Redirect(HomePath, None)
    else Allow
  }

  /** The login check comes first: without a user the roles are never consulted. */
  lemma LoggedOutIgnoresRoles(allowed: Option<seq<Role>>, other: Option<seq<Role>>, location: string)
    ensures Guard(None, allowed, location) == Guard(None, other, location)
  {
  }

  /** A present but empty list lets nobody in: every logged-in user is sent home. */
  lemma EmptyRolesSendEveryoneHome(user: User, location: string)
    ensures Guard(Some(user), Some([]), location) == Redirect(HomePath, None)
  {
  }

  /** Widening the list never locks anyone out. */
  lemma WiderRolesAllowMore(user: Option<User>, a: seq<Role>, b: seq<Role>, location: string)
    requires forall x :: x in a ==> x in b
    ensures Guard(user, Some(a), location) == Allow ==> Guard(user, Some(b), location) == Allow
  {
  }
}
