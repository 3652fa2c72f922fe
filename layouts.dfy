/** The portal layouts: the role check each layout makes before drawing its sidebar, the
    instructor portal's navigation highlight, and the administrators' menu. */
module Layouts {
  import opened Wrappers
  import opened Constants
  import opened Records
  import opened Auth
  import opened Paths
  import opened Routes

  // ---------------------------------------------------------------------------
  // Layout guards
  // ---------------------------------------------------------------------------

  /** The check every portal layout makes: a spinner while the session loads, the sign-in page
      when there is no user or the role is not one of `roles`, the layout otherwise. Unlike the
      role guard, a wrong role is sent to the sign-in page and not to its own dashboard. */
  function LayoutGuard(s: Session, roles: set<string>): (d: Decision)
    ensures s.loading <==> d == Spinner
    ensures d == Render <==> !s.loading && s.user.Some? && s.user.value.role in roles
    ensures d != Spinner && d != Render ==> d == Redirect(Login, None)
  {
    if s.loading then Spinner
    else if s.user.None? || s.user.value.role !in roles then Redirect(Login, None)
    else Render
  }

  /** The administration layout admits the administrator and the super administrator. */
  function AdminLayout(s: Session): (d: Decision)
    ensures s.loading <==> d == Spinner
    ensures d == Render <==> !s.loading && s.user.Some? && (s.user.value.role == RoleAdmin || s.user.value.role == RoleSuperAdmin)
    ensures d != Spinner && d != Render ==> d == Redirect(Login, None)
  {
    LayoutGuard(s, {RoleAdmin, RoleSuperAdmin})
  }

  /** The customer layout admits only the customer. */
  function UserLayout(s: Session): (d: Decision)
    ensures s.loading <==> d == Spinner
    ensures d == Render <==> !s.loading && s.user.Some? && s.user.value.role == RoleUser
    ensures d != Spinner && d != Render ==> d == Redirect(Login, None)
  {
    LayoutGuard(s, {RoleUser})
  }

  /** The instructor layout admits only the instructor. */
  function InstructorLayout(s: Session): (d: Decision)
    ensures s.loading <==> d == Spinner
    ensures d == Render <==> !s.loading && s.user.Some? && s.user.value.role == RoleInstructor
    ensures d != Spinner && d != Render ==> d == Redirect(Login, None)
  {
    LayoutGuard(s, {RoleInstructor})
  }

  /** Each layout lets in exactly the sessions the role guard of its pages lets in, so a page
      that passed its guards is always drawn inside its layout. */
  lemma LayoutsAgreeWithRoleGuards(s: Session)
    ensures AdminLayout(s) == Render <==> RoleRoute(s, Admins) == Render
    ensures UserLayout(s) == Render <==> RoleRoute(s, OnlyUser) == Render
    ensures InstructorLayout(s) == Render <==> RoleRoute(s, OnlyInstructor) == Render
  {
  }

  // ---------------------------------------------------------------------------
  // Instructor navigation
  // ---------------------------------------------------------------------------

  /** A link of a portal's navigation. */
  datatype NavItem = NavItem(name: string, href: Path)

  /** The instructor portal's navigation. */
  const InstructorNavigation: seq<NavItem> := [NavItem("Dashboard", InstructorDashboard)]

  /** Which links are highlighted at `pathname`: those whose target is exactly the pathname. */
  function ActiveLinks(pathname: Path, nav: seq<NavItem>): (active: seq<bool>)
    ensures |active| == |nav|
    ensures forall i :: 0 <= i < |nav| ==> (active[i] <==> nav[i].href == pathname)
  {
    if nav == [] then []
    else [nav[0].href == pathname] + ActiveLinks(pathname, nav[1..])
  }

  /** Links with distinct targets: at most one is highlighted at any pathname. */
  lemma AtMostOneActive(pathname: Path, nav: seq<NavItem>, i: int, j: int)
    requires forall a, b :: 0 <= a < b < |nav| ==> nav[a].href != nav[b].href
    requires 0 <= i < |nav| && 0 <= j < |nav|
    requires ActiveLinks(pathname, nav)[i] && ActiveLinks(pathname, nav)[j]
    ensures i == j
  {
  }

  /** The instructor's Dashboard link is highlighted exactly on the instructor dashboard, and
      not on the pages below it. */
  lemma InstructorDashboardHighlight(pathname: Path)
    ensures ActiveLinks(pathname, InstructorNavigation) == [pathname == InstructorDashboard]
    ensures ActiveLinks(InstructorDashboard + ["schedules"], InstructorNavigation) == [false]
  {
    assert InstructorDashboard + ["schedules"] != InstructorDashboard by {
      assert |InstructorDashboard + ["schedules"]| == 3;
    }
  }

  // ---------------------------------------------------------------------------
  // Administrators' menu
  // ---------------------------------------------------------------------------

  /** An entry of the administrators' menu. */
  datatype MenuItem = MenuItem(title: string, path: Path)

  /** `user?.role === 'super_admin'`. */
  predicate ViewerIsSuperAdmin(user: Option<Person>) {
    user.Some? && user.value.role == RoleSuperAdmin
  }

  /** The entries every administrator sees after the dashboard, in order. */
  const SectionItems: seq<MenuItem> := [
    MenuItem("Manage Users", AdminUsers),
    MenuItem("Services", AdminServices),
    MenuItem("Instructors", AdminInstructors),
    MenuItem("Schedules", AdminSchedules),
    MenuItem("Bookings", AdminBookings)]

  const ManageAdmins: MenuItem := MenuItem("Manage Admins", AdminAdmins)

  /** The menu: the dashboard (the super administrator's own when the viewer is one), the
      administrator accounts for the super administrator only, then the five sections. */
  function MenuItems(user: Option<Person>): (items: seq<MenuItem>)
    ensures |items| == if ViewerIsSuperAdmin(user) then 7 else 6
    ensures items[0].title == "Dashboard"
    ensures items[0].path == if ViewerIsSuperAdmin(user) then SuperAdminDashboard else AdminDashboard
    ensures ManageAdmins in items <==> ViewerIsSuperAdmin(user)
    ensures items[|items| - 5..] == SectionItems
  {
    var dashboard := MenuItem("Dashboard", if ViewerIsSuperAdmin(user) then SuperAdminDashboard else AdminDashboard);
    var items := [dashboard] + (if ViewerIsSuperAdmin(user) then [ManageAdmins] else []) + SectionItems;
    assert items[|items| - 5..] == SectionItems;
    assert ViewerIsSuperAdmin(user) ==> items[1] == ManageAdmins;
    items
  }

  /** Every section entry leads to a page admitting both administrator roles. */
  lemma SectionItemsAdmitAdmins(i: int)
    requires 0 <= i < |SectionItems|
    ensures Resolve(SectionItems[i].path) == Some(RolePage(Admins))
  {
    ManagementPage(SectionItems[i].path);
  }

  /** Every entry of the menu leads to a page whose role guard lets the viewer in, so no entry
      of the administrators' menu bounces its viewer. */
  lemma MenuAdmitsViewer(user: Option<Person>, i: int)
    requires user.Some? && user.value.role in {RoleAdmin, RoleSuperAdmin}
    requires 0 <= i < |MenuItems(user)|
    ensures Admits(MenuItems(user)[i].path, user.value.role)
  {
    var items := MenuItems(user);
    var role := user.value.role;
    if i == 0 {
      if role == RoleSuperAdmin {
        SuperAdminDashboardPage(items[0].path);
      } else {
        AdminDashboardPage(items[0].path);
      }
    } else if i < |items| - 5 {
      assert items[i] == ManageAdmins;
      AccountsPage(items[i].path);
    } else {
      assert items[i] == SectionItems[i - (|items| - 5)];
      SectionItemsAdmitAdmins(i - (|items| - 5));
    }
  }
}
