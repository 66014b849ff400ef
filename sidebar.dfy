/**
 * The navigation of src/components/Sidebar.tsx: a role-dependent menu, the
 * active-item test, and the open/closed flag of the mobile drawer.
 */
module Sidebar {
  import opened Wrappers
  import opened Types
  import Auth
  import ProtectedRoute

  datatype MenuItem = MenuItem(path: string, caption: string)

  const Overview := MenuItem("/", "Overview")
  const Projects := MenuItem("/projects", "Projects")
  const UserManagement := MenuItem("/users", "User Management")

  /** Overview and Projects for everyone, User Management appended for an admin. */
  function MenuItems(user: Option<User>): (items: seq<MenuItem>)
    ensures |items| >= 2 && items[0] == Overview && items[1] == Projects
    ensures IsAdmin(user) ==> |items| == 3 && items[2] == UserManagement
    ensures !IsAdmin(user) ==> |items| == 2
  {
    [Overview, Projects] + (if IsAdmin(user) then [UserManagement] else [])
  }

  /** `location.pathname === path`: exact equality, so `/projects/7` activates nothing. */
  predicate IsActive(pathname: string, path: string)
  {
    pathname == path
  }

  /** The menu's paths are distinct, so at most one item is highlighted. */
  lemma AtMostOneActive(user: Option<User>, pathname: string, i: nat, j: nat)
    requires i < j < |MenuItems(user)|
    ensures !(IsActive(pathname, MenuItems(user)[i].path) && IsActive(pathname, MenuItems(user)[j].path))
  {
    var items := MenuItems(user);
    assert items[0].path[1..] == "";
    assert items[1].path[1] == 'p';
    if |items| == 3 {
      assert items[2].path[1] == 'u';
    }
  }

  /**
   * The User Management link is shown exactly to the users whom a guard
   * admitting only admins would let through.
   */
  lemma UsersLinkMatchesAdminGuard(user: Option<User>, location: string)
    ensures UserManagement in MenuItems(user) <==>
      ProtectedRoute.Guard(user, Some([ADMIN]), location) == ProtectedRoute.Allow
  {
    if !IsAdmin(user) {
      assert MenuItems(user) == [Overview, Projects];
      assert UserManagement != Overview && UserManagement != Projects by {
        assert UserManagement.path[1] == 'u';
      }
    }
  }

  /** The drawer's `isOpen` state and its handlers. */
  class SidebarState {
    var isOpen: bool

    constructor ()
      ensures !isOpen
    {
      isOpen := false;
    }

    /** The menu button: `setIsOpen(!isOpen)`. */
    method Toggle()
      modifies this
      ensures isOpen == !old(isOpen)
    {
      isOpen := !isOpen;
    }

    /** A click on the overlay, which is rendered while the drawer is open. */
    method ClickOverlay()
      modifies this
      ensures !isOpen
    {
      isOpen := false;
    }

    /** A click on any menu link closes the drawer; the navigation itself is the router's. */
    method ClickLink(item: MenuItem)
      modifies this
      ensures !isOpen
    {
      isOpen := false;
    }

    /** Sign Out dispatches `logout()` and nothing else; the drawer is left as it is. */
    method SignOut() returns (actions: seq<Auth.Action>)
      ensures actions == [Auth.Logout]
    {
      actions := [Auth.Logout];
    }
  }
}
