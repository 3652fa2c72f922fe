/** Navigation decisions: the authentication guard, the role guard with its per-role fallback,
    the role-based dashboard redirect, the application's route table, and the return to the
    requested page after signing in. */
module Routes {
  import opened Wrappers
  import opened Constants
  import opened Records
  import opened Auth
  import opened Paths
  import opened Text
  import H = Helpers

  /** What a guard or route renders: a loading spinner, a redirect (with the location to come
      back to, when one is passed along), or the page itself. */
  datatype Decision = Spinner | Redirect(to: Path, from: Option<Path>) | Render

  // ---------------------------------------------------------------------------
  // Guards
  // ---------------------------------------------------------------------------

  /** `ProtectedRoute` at `location`: a spinner while the session loads, the sign-in page
      (remembering `location`) without an authenticated session, the page otherwise. */
  function ProtectedRoute(s: Session, location: Path): (d: Decision)
    ensures s.loading ==> d == Spinner
    ensures !s.loading && !IsAuthenticated(s) ==> d == Redirect(Login, Some(location))
    ensures !s.loading && IsAuthenticated(s) ==> d == Render
  {
    if s.loading then Spinner
    else if !IsAuthenticated(s) then Redirect(Login, Some(location))
    else Render
  }

  /** Where `RoleRoute` sends a signed-in user whose role is not allowed. */
  function RoleFallback(role: string): (target: Path)
    ensures role in {RoleSuperAdmin, RoleAdmin} ==> target == AdminDashboard
    ensures role == RoleInstructor ==> target == InstructorDashboard
    ensures role == RoleUser ==> target == UserDashboard
    ensures role !in KnownRoles ==> target == Home
  {
    if role == RoleSuperAdmin || role == RoleAdmin then AdminDashboard
    else if role == RoleInstructor then InstructorDashboard
    else if role == RoleUser then UserDashboard
    else Home
  }

  /** `RoleRoute` with `allowedRoles`: a spinner while loading, the sign-in page without a user,
      the role's fallback for a role not allowed, the page otherwise. */
  function RoleRoute(s: Session, allowed: seq<string>): (d: Decision)
    ensures s.loading ==> d == Spinner
    ensures !s.loading && s.user.None? ==> d == Redirect(Login, None)
    ensures !s.loading && s.user.Some? && s.user.value.role !in allowed ==>
      d == Redirect(RoleFallback(s.user.value.role), None)
    ensures !s.loading && s.user.Some? && s.user.value.role in allowed ==> d == Render
  {
    if s.loading then Spinner
    else if s.user.None? then Redirect(Login, None)
    else if !HasRole(s.user, H.AnyOf(allowed)) then Redirect(RoleFallback(s.user.value.role), None)
    else Render
  }

  /** The dashboard each role owns. */
  function DashboardTarget(role: string): (target: Path)
    ensures role == RoleSuperAdmin ==> target == SuperAdminDashboard
    ensures role == RoleAdmin ==> target == AdminDashboard
    ensures role == RoleInstructor ==> target == InstructorDashboard
    ensures role == RoleUser ==> target == UserDashboard
    ensures role !in KnownRoles ==> target == Home
  {
    if role == RoleSuperAdmin then SuperAdminDashboard
    else if role == RoleAdmin then AdminDashboard
    else if role == RoleInstructor then InstructorDashboard
    else if role == RoleUser then UserDashboard
    else Home
  }

  /** `DashboardRedirect`: the sign-in page without a user, the role's dashboard otherwise. */
  function DashboardRedirect(user: Option<Person>): (d: Decision)
    ensures d.Redirect? && d.from.None?
    ensures user.None? ==> d.to == Login
    ensures user.Some? ==> d.to == DashboardTarget(user.value.role)
  {
    if user.None? then Redirect(Login, None) else Redirect(DashboardTarget(user.value.role), None)
  }

  // ---------------------------------------------------------------------------
  // The route table
  // ---------------------------------------------------------------------------

  /** What a route renders: a page open to everyone, the dashboard redirect behind the
      authentication guard, or a page behind both guards with its allowed roles. */
  datatype Page = PublicPage | DashboardRedirectPage | RolePage(allowed: seq<string>)

  /** A route: its pattern of segments, where ":id" stands for any non-empty segment. */
  datatype Route = Route(pattern: Path, page: Page)

  const OnlyUser: seq<string> := [RoleUser]
  const OnlyInstructor: seq<string> := [RoleInstructor]
  const OnlySuperAdmin: seq<string> := [RoleSuperAdmin]
  const Admins: seq<string> := [RoleAdmin, RoleSuperAdmin]

  // The table in declaration order, cut into groups that share a leading segment and a page.

  const HomeRoutes: seq<Route> := [Route([], PublicPage)]

  const PublicRoutes: seq<Route> := [
    Route(["services"], PublicPage),
    Route(["services", ":id"], PublicPage),
    Route(["instructors"], PublicPage),
    Route(["about"], PublicPage),
    Route(["login"], PublicPage),
    Route(["register"], PublicPage)]

  const DashboardRoutes: seq<Route> := [Route(["dashboard"], DashboardRedirectPage)]

  const UserRoutes: seq<Route> := [
    Route(["user", "dashboard"], RolePage(OnlyUser)),
    Route(["user", "bookings"], RolePage(OnlyUser)),
    Route(["user", "bookings", "create"], RolePage(OnlyUser)),
    Route(["user", "reviews"], RolePage(OnlyUser)),
    Route(["user", "reviews", "create"], RolePage(OnlyUser)),
    Route(["user", "reviews", "edit", ":id"], RolePage(OnlyUser)),
    Route(["user", "classes"], RolePage(OnlyUser))]

  const InstructorRoutes: seq<Route> := [
    Route(["instructor", "dashboard"], RolePage(OnlyInstructor)),
    Route(["instructor", "schedules"], RolePage(OnlyInstructor))]

  const SuperAdminRoutes: seq<Route> := [Route(["super-admin", "dashboard"], RolePage(OnlySuperAdmin))]

  const AdminDashboardRoutes: seq<Route> := [Route(["admin", "dashboard"], RolePage(Admins))]

  /** Managing administrator accounts. */
  const AdminAccountRoutes: seq<Route> := [
    Route(["admin", "admins"], RolePage(OnlySuperAdmin)),
    Route(["admin", "admins", "create"], RolePage(OnlySuperAdmin)),
    Route(["admin", "admins", ":id", "edit"], RolePage(OnlySuperAdmin))]

  /** Managing users, services, instructors, schedules and bookings. */
  const ManagementRoutes: seq<Route> := [
    Route(["admin", "users"], RolePage(Admins)),
    Route(["admin", "users", "create"], RolePage(Admins)),
    Route(["admin", "users", ":id", "history"], RolePage(Admins)),
    Route(["admin", "services"], RolePage(Admins)),
    Route(["admin", "services", "create"], RolePage(Admins)),
    Route(["admin", "services", ":id", "edit"], RolePage(Admins)),
    Route(["admin", "instructors"], RolePage(Admins)),
    Route(["admin", "instructors", "create"], RolePage(Admins)),
    Route(["admin", "instructors", ":id", "edit"], RolePage(Admins)),
    Route(["admin", "schedules"], RolePage(Admins)),
    Route(["admin", "schedules", "create"], RolePage(Admins)),
    Route(["admin", "schedules", ":id", "edit"], RolePage(Admins)),
    Route(["admin", "bookings"], RolePage(Admins))]

  /** Every route, in the order they are declared. */
  function Table(): seq<Route> {
    HomeRoutes + (PublicRoutes + (DashboardRoutes + (UserRoutes + (InstructorRoutes +
      (SuperAdminRoutes + (AdminDashboardRoutes + (AdminAccountRoutes + ManagementRoutes)))))))
  }

  /** One segment fits a pattern segment: the parameter ":id" takes any non-empty segment,
      any other pattern segment only itself. */
  predicate SegmentFits(pattern: string, segment: string) {
    if pattern == ":id" then segment != "" else pattern == segment
  }

  /** A path fits a pattern: as many segments, each fitting its pattern segment. */
  predicate Fits(pattern: Path, path: Path) {
    if pattern == [] || path == [] then pattern == path
    else SegmentFits(pattern[0], path[0]) && Fits(pattern[1..], path[1..])
  }

  /** React Router compares a visited path with a route's pattern without regard to case
      (`caseSensitive` is off unless a route asks for it): a parameter segment takes any
      non-empty segment, any other segment fits when the two agree once lower-cased. */
  predicate FitsIgnoringCase(pattern: Path, path: Path) {
    && |pattern| == |path|
    && forall i :: 0 <= i < |path| ==>
         if pattern[i] == ":id" then path[i] != "" else Lower(pattern[i]) == Lower(path[i])
  }

  /** The path with every segment lower-cased. */
  function Fold(path: Path): (r: Path)
    ensures |r| == |path|
    ensures forall i :: 0 <= i < |path| ==> r[i] == Lower(path[i])
  {
    seq(|path|, i requires 0 <= i < |path| => Lower(path[i]))
  }

  /** A pattern written in lower case. */
  predicate LowerCase(pattern: Path) {
    forall i :: 0 <= i < |pattern| ==> NoUpper(pattern[i])
  }

  /** A lower-case path is its own folded form. */
  lemma FoldLowerCase(path: Path)
    requires LowerCase(path)
    ensures Fold(path) == path
  {
    forall i | 0 <= i < |path| ensures Fold(path)[i] == path[i] {
      LowerKeepsNoUpper(path[i]);
    }
  }

  /** For a lower-case pattern, React Router's case-blind comparison is the exact comparison
      with the folded path, so the table can be consulted with `Fold(path)`. */
  lemma {:induction false} FitsFolded(pattern: Path, path: Path)
    requires LowerCase(pattern)
    ensures FitsIgnoringCase(pattern, path) <==> Fits(pattern, Fold(path))
  {
    if pattern != [] && path != [] {
      assert LowerCase(pattern[1..]) by {
        forall i | 0 <= i < |pattern[1..]| ensures NoUpper(pattern[1..][i]) {
          assert pattern[1..][i] == pattern[i + 1];
        }
      }
      LowerKeepsNoUpper(pattern[0]);
      FitsFolded(pattern[1..], path[1..]);
      assert Fold(path)[1..] == Fold(path[1..]);
      assert SegmentFits(pattern[0], Fold(path)[0]) <==>
        (if pattern[0] == ":id" then path[0] != "" else Lower(pattern[0]) == Lower(path[0])) by {
        assert |Lower(path[0])| == |path[0]|;
      }
      if FitsIgnoringCase(pattern, path) {
        assert FitsIgnoringCase(pattern[1..], path[1..]) by {
          forall i | 0 <= i < |path[1..]|
            ensures if pattern[1..][i] == ":id" then path[1..][i] != "" else Lower(pattern[1..][i]) == Lower(path[1..][i])
          {
            assert pattern[1..][i] == pattern[i + 1] && path[1..][i] == path[i + 1];
          }
        }
      }
      if Fits(pattern, Fold(path)) {
        forall i | 0 <= i < |path|
          ensures if pattern[i] == ":id" then path[i] != "" else Lower(pattern[i]) == Lower(path[i])
        {
          LowerKeepsNoUpper(pattern[i]);
          if i > 0 {
            assert pattern[1..][i - 1] == pattern[i] && path[1..][i - 1] == path[i];
          }
        }
      }
    }
  }

  /** The first route a path fits; `None` falls through to the catch-all. */
  function Match(path: Path, routes: seq<Route>): (r: Option<Page>)
    ensures r.Some? ==> exists i :: 0 <= i < |routes| && routes[i].page == r.value && Fits(routes[i].pattern, path)
    ensures r.None? ==> forall i :: 0 <= i < |routes| ==> !Fits(routes[i].pattern, path)
  {
    if routes == [] then None
    else if Fits(routes[0].pattern, path) then Some(routes[0].page)
    else
      var r := Match(path, routes[1..]);
      assert forall i :: 1 <= i < |routes| ==> routes[i] == routes[1..][i - 1];
      r
  }

  /** The first of two lookups that finds something. */
  function OrElse(a: Option<Page>, b: Option<Page>): Option<Page> {
    if a.Some? then a else b
  }

  /** The route a path selects, taken group by group. */
  function Resolve(path: Path): Option<Page> {
    OrElse(Match(path, HomeRoutes), OrElse(Match(path, PublicRoutes), OrElse(Match(path, DashboardRoutes),
    OrElse(Match(path, UserRoutes), OrElse(Match(path, InstructorRoutes), OrElse(Match(path, SuperAdminRoutes),
    OrElse(Match(path, AdminDashboardRoutes), OrElse(Match(path, AdminAccountRoutes), Match(path, ManagementRoutes)))))))))
  }

  /** Matching against two tables in turn is matching against the first, then the second. */
  lemma {:induction false} MatchAppend(path: Path, a: seq<Route>, b: seq<Route>)
    ensures Match(path, a + b) == OrElse(Match(path, a), Match(path, b))
  {
    if a != [] {
      assert (a + b)[0] == a[0];
      assert (a + b)[1..] == a[1..] + b;
      MatchAppend(path, a[1..], b);
    } else {
      assert a + b == b;
    }
  }

  /** Taking the table group by group is taking the first route of the whole table. */
  lemma ResolveIsFirstMatch(path: Path)
    ensures Resolve(path) == Match(path, Table())
  {
    MatchAppend(path, AdminAccountRoutes, ManagementRoutes);
    MatchAppend(path, AdminDashboardRoutes, AdminAccountRoutes + ManagementRoutes);
    MatchAppend(path, SuperAdminRoutes, AdminDashboardRoutes + (AdminAccountRoutes + ManagementRoutes));
    MatchAppend(path, InstructorRoutes, SuperAdminRoutes + (AdminDashboardRoutes + (AdminAccountRoutes + ManagementRoutes)));
    MatchAppend(path, UserRoutes, InstructorRoutes + (SuperAdminRoutes + (AdminDashboardRoutes + (AdminAccountRoutes + ManagementRoutes))));
    MatchAppend(path, DashboardRoutes, UserRoutes + (InstructorRoutes + (SuperAdminRoutes + (AdminDashboardRoutes + (AdminAccountRoutes + ManagementRoutes)))));
    MatchAppend(path, PublicRoutes, DashboardRoutes + (UserRoutes + (InstructorRoutes + (SuperAdminRoutes + (AdminDashboardRoutes + (AdminAccountRoutes + ManagementRoutes))))));
    MatchAppend(path, HomeRoutes, PublicRoutes + (DashboardRoutes + (UserRoutes + (InstructorRoutes + (SuperAdminRoutes + (AdminDashboardRoutes + (AdminAccountRoutes + ManagementRoutes)))))));
  }

  /** The decision for a route's element: the public page itself, or the guards nested as the
      table nests them, the authentication guard outermost. */
  function PageDecision(page: Page, path: Path, s: Session): (d: Decision)
    ensures d.Redirect? && d.from.Some? ==> d.to == Login && d.from.value == path
  {
    match page
    case PublicPage => Render
    case DashboardRedirectPage =>
      var outer := ProtectedRoute(s, path);
      if outer.Render? then DashboardRedirect(s.user) else outer
    case RolePage(allowed) =>
      var outer := ProtectedRoute(s, path);
      if outer.Render? then RoleRoute(s, allowed) else outer
  }

  /** What visiting `path` shows: the table is consulted with the folded path (`FitsFolded`,
      `TableLowerCase`), the guards remember the path as typed, and an unmatched path goes
      home. */
  function Navigate(path: Path, s: Session): (d: Decision)
    ensures Resolve(Fold(path)).None? ==> d == Redirect(Home, None)
    ensures Resolve(Fold(path)) == Some(PublicPage) ==> d == Render
    ensures d.Redirect? && d.from.Some? ==> d.to == Login && d.from.value == path
  {
    match Resolve(Fold(path))
    case None => Redirect(Home, None)
    case Some(page) => PageDecision(page, path, s)
  }

  /** Every pattern of a group is written in lower case. */
  predicate GroupLowerCase(routes: seq<Route>) {
    forall i :: 0 <= i < |routes| ==> LowerCase(routes[i].pattern)
  }

  /** The segments the patterns are made of. */
  const Segments: set<string> := {"services", ":id", "instructors", "about", "login", "register",
    "dashboard", "user", "bookings", "create", "reviews", "edit", "classes", "instructor",
    "schedules", "super-admin", "admin", "admins", "users", "history"}

  /** Every pattern of a group is made of known segments. */
  predicate GroupSegments(routes: seq<Route>) {
    forall i, j :: 0 <= i < |routes| && 0 <= j < |routes[i].pattern| ==> routes[i].pattern[j] in Segments
  }

  lemma SegmentsLowerCase()
    ensures forall w :: w in Segments ==> NoUpper(w)
  {
  }

  lemma GroupSegmentsLowerCase(routes: seq<Route>)
    requires GroupSegments(routes)
    ensures GroupLowerCase(routes)
  {
    SegmentsLowerCase();
  }

  lemma OpenGroupsLowerCase()
    ensures GroupLowerCase(HomeRoutes) && GroupLowerCase(PublicRoutes) && GroupLowerCase(DashboardRoutes)
  {
    assert GroupSegments(PublicRoutes);
    GroupSegmentsLowerCase(PublicRoutes);
    assert GroupSegments(DashboardRoutes);
    GroupSegmentsLowerCase(DashboardRoutes);
  }

  lemma MemberGroupsLowerCase()
    ensures GroupLowerCase(UserRoutes) && GroupLowerCase(InstructorRoutes)
  {
    assert GroupSegments(UserRoutes);
    GroupSegmentsLowerCase(UserRoutes);
    assert GroupSegments(InstructorRoutes);
    GroupSegmentsLowerCase(InstructorRoutes);
  }

  lemma AdminGroupsLowerCase()
    ensures GroupLowerCase(SuperAdminRoutes) && GroupLowerCase(AdminDashboardRoutes)
    ensures GroupLowerCase(AdminAccountRoutes)
  {
    assert GroupSegments(SuperAdminRoutes);
    GroupSegmentsLowerCase(SuperAdminRoutes);
    assert GroupSegments(AdminDashboardRoutes);
    GroupSegmentsLowerCase(AdminDashboardRoutes);
    assert GroupSegments(AdminAccountRoutes);
    GroupSegmentsLowerCase(AdminAccountRoutes);
  }

  lemma ManagementLowerCase()
    ensures GroupLowerCase(ManagementRoutes)
  {
    assert GroupSegments(ManagementRoutes);
    GroupSegmentsLowerCase(ManagementRoutes);
  }

  /** Every pattern of the table is lower case, so (by `FitsFolded`) a route fits a visited path
      in React Router's case-blind sense exactly when it fits the folded path. */
  lemma TableLowerCase()
    ensures GroupLowerCase(Table())
    ensures forall path: Path, i :: 0 <= i < |Table()| ==>
      (FitsIgnoringCase(Table()[i].pattern, path) <==> Fits(Table()[i].pattern, Fold(path)))
  {
    OpenGroupsLowerCase();
    MemberGroupsLowerCase();
    AdminGroupsLowerCase();
    ManagementLowerCase();
    forall path: Path, i | 0 <= i < |Table()|
      ensures FitsIgnoringCase(Table()[i].pattern, path) <==> Fits(Table()[i].pattern, Fold(path))
    {
      FitsFolded(Table()[i].pattern, path);
    }
  }

  /** Two spellings of a path that differ only in case lead to the same page; only the path a
      guard remembers for the return from sign-in keeps the spelling that was typed. */
  lemma CaseDoesNotMatter(p: Path, q: Path, s: Session)
    requires Fold(p) == Fold(q)
    ensures Navigate(p, s) == Navigate(q, s) ||
      (Navigate(p, s) == Redirect(Login, Some(p)) && Navigate(q, s) == Redirect(Login, Some(q)))
  {
  }

  /** "/Login" is the sign-in page, as "/login" is. */
  lemma CapitalisedLoginRenders(s: Session)
    ensures Navigate(["Login"], s) == Render
  {
    assert Lower("Login") == "login";
    assert Fold(["Login"]) == Login;
    LoginIsOpen(Login);
  }

  // ---------------------------------------------------------------------------
  // Properties of the table
  // ---------------------------------------------------------------------------

  /** Every route of the group starts with one of `heads`. */
  predicate HeadsIn(routes: seq<Route>, heads: set<string>) {
    forall i :: 0 <= i < |routes| ==> routes[i].pattern != [] && routes[i].pattern[0] in heads
  }

  /** Every route of the group has a second segment among `seconds`. */
  predicate SecondsIn(routes: seq<Route>, seconds: set<string>) {
    forall i :: 0 <= i < |routes| ==> |routes[i].pattern| >= 2 && routes[i].pattern[1] in seconds
  }

  /** Every route of the group renders `page`. */
  predicate AllRender(routes: seq<Route>, page: Page) {
    forall i :: 0 <= i < |routes| ==> routes[i].page == page
  }

  /** A path whose first segment no route of the group starts with matches none of them. */
  lemma {:induction false} MissByHead(path: Path, routes: seq<Route>, heads: set<string>)
    requires HeadsIn(routes, heads) && ":id" !in heads
    requires path != [] && path[0] !in heads
    ensures Match(path, routes) == None
  {
    if routes != [] {
      assert routes[0].pattern[0] in heads;
      assert !Fits(routes[0].pattern, path);
      assert HeadsIn(routes[1..], heads) by {
        forall i | 0 <= i < |routes[1..]| ensures routes[1..][i].pattern != [] && routes[1..][i].pattern[0] in heads {
          assert routes[1..][i] == routes[i + 1];
        }
      }
      MissByHead(path, routes[1..], heads);
    }
  }

  /** A path whose second segment no route of the group has matches none of them. */
  lemma {:induction false} MissBySecond(path: Path, routes: seq<Route>, seconds: set<string>)
    requires SecondsIn(routes, seconds) && ":id" !in seconds
    requires |path| >= 2 && path[1] !in seconds
    ensures Match(path, routes) == None
  {
    if routes != [] {
      var p := routes[0].pattern;
      assert p[1] in seconds;
      assert !Fits(p[1..], path[1..]);
      assert !Fits(p, path);
      assert SecondsIn(routes[1..], seconds) by {
        forall i | 0 <= i < |routes[1..]| ensures |routes[1..][i].pattern| >= 2 && routes[1..][i].pattern[1] in seconds {
          assert routes[1..][i] == routes[i + 1];
        }
      }
      MissBySecond(path, routes[1..], seconds);
    }
  }

  /** A group whose routes all render one page yields that page or nothing. */
  lemma HitRenders(path: Path, routes: seq<Route>, page: Page)
    requires AllRender(routes, page)
    ensures Match(path, routes) == None || Match(path, routes) == Some(page)
  {
  }

  /** The shape of each group: its leading segments, its second segments, its page. */
  lemma PublicShape()
    ensures HeadsIn(PublicRoutes, {"services", "instructors", "about", "login", "register"})
    ensures HeadsIn(DashboardRoutes, {"dashboard"})
  {
  }

  lemma MemberShape()
    ensures HeadsIn(UserRoutes, {"user"}) && AllRender(UserRoutes, RolePage(OnlyUser))
    ensures HeadsIn(InstructorRoutes, {"instructor"}) && AllRender(InstructorRoutes, RolePage(OnlyInstructor))
  {
  }

  lemma AdminShape()
    ensures HeadsIn(SuperAdminRoutes, {"super-admin"}) && AllRender(SuperAdminRoutes, RolePage(OnlySuperAdmin))
    ensures HeadsIn(AdminDashboardRoutes, {"admin"}) && SecondsIn(AdminDashboardRoutes, {"dashboard"})
    ensures AllRender(AdminDashboardRoutes, RolePage(Admins))
    ensures HeadsIn(AdminAccountRoutes, {"admin"}) && SecondsIn(AdminAccountRoutes, {"admins"})
    ensures AllRender(AdminAccountRoutes, RolePage(OnlySuperAdmin))
  {
  }

  lemma ManagementShape()
    ensures HeadsIn(ManagementRoutes, {"admin"}) && SecondsIn(ManagementRoutes, Sections)
    ensures AllRender(ManagementRoutes, RolePage(Admins))
  {
  }

  /** Public, sign-in and dashboard-redirect routes never match a path in a members' or
      administrators' area. */
  lemma {:induction false} OpenMiss(path: Path)
    requires path != [] && path[0] in {"user", "instructor", "admin", "super-admin"}
    ensures Match(path, HomeRoutes) == None
    ensures Match(path, PublicRoutes) == None
    ensures Match(path, DashboardRoutes) == None
  {
    assert !Fits(HomeRoutes[0].pattern, path);
    PublicShape();
    MissByHead(path, PublicRoutes, {"services", "instructors", "about", "login", "register"});
    MissByHead(path, DashboardRoutes, {"dashboard"});
  }

  /** Administration routes never match a path under /user/ or /instructor/. */
  lemma {:induction false} AdminMiss(path: Path)
    requires path != [] && path[0] in {"user", "instructor"}
    ensures Match(path, SuperAdminRoutes) == None
    ensures Match(path, AdminDashboardRoutes) == None
    ensures Match(path, AdminAccountRoutes) == None
    ensures Match(path, ManagementRoutes) == None
  {
    AdminShape();
    ManagementShape();
    MissByHead(path, SuperAdminRoutes, {"super-admin"});
    MissByHead(path, AdminDashboardRoutes, {"admin"});
    MissByHead(path, AdminAccountRoutes, {"admin"});
    MissByHead(path, ManagementRoutes, {"admin"});
  }

  /** Every page under /user/ admits exactly the customer. */
  lemma {:induction false} UserArea(path: Path)
    requires path != [] && path[0] == "user"
    ensures Resolve(path) == Match(path, UserRoutes)
    ensures Resolve(path) == None || Resolve(path) == Some(RolePage(OnlyUser))
  {
    OpenMiss(path);
    AdminMiss(path);
    MemberShape();
    MissByHead(path, InstructorRoutes, {"instructor"});
    HitRenders(path, UserRoutes, RolePage(OnlyUser));
  }

  /** Every page under /instructor/ admits exactly the instructor. */
  lemma {:induction false} InstructorArea(path: Path)
    requires path != [] && path[0] == "instructor"
    ensures Resolve(path) == Match(path, InstructorRoutes)
    ensures Resolve(path) == None || Resolve(path) == Some(RolePage(OnlyInstructor))
  {
    OpenMiss(path);
    AdminMiss(path);
    MemberShape();
    MissByHead(path, UserRoutes, {"user"});
    HitRenders(path, InstructorRoutes, RolePage(OnlyInstructor));
  }

  /** Member routes never match a path in the administrators' area. */
  lemma {:induction false} MemberMiss(path: Path)
    requires path != [] && path[0] in {"admin", "super-admin"}
    ensures Match(path, UserRoutes) == None
    ensures Match(path, InstructorRoutes) == None
  {
    MemberShape();
    MissByHead(path, UserRoutes, {"user"});
    MissByHead(path, InstructorRoutes, {"instructor"});
  }

  /** Every page under /super-admin/ admits exactly the super administrator. */
  lemma {:induction false} SuperAdminArea(path: Path)
    requires path != [] && path[0] == "super-admin"
    ensures Resolve(path) == None || Resolve(path) == Some(RolePage(OnlySuperAdmin))
  {
    OpenMiss(path);
    MemberMiss(path);
    AdminShape();
    ManagementShape();
    HitRenders(path, SuperAdminRoutes, RolePage(OnlySuperAdmin));
    MissByHead(path, AdminDashboardRoutes, {"admin"});
    MissByHead(path, AdminAccountRoutes, {"admin"});
    MissByHead(path, ManagementRoutes, {"admin"});
  }

  /** Under /admin/ only the three administration groups can match. */
  lemma {:induction false} AdminPrefix(path: Path)
    requires path != [] && path[0] == "admin"
    ensures Resolve(path) == OrElse(Match(path, AdminDashboardRoutes),
                             OrElse(Match(path, AdminAccountRoutes), Match(path, ManagementRoutes)))
  {
    OpenMiss(path);
    MemberMiss(path);
    AdminShape();
    MissByHead(path, SuperAdminRoutes, {"super-admin"});
  }

  /** The management sections. */
  const Sections: set<string> := {"users", "services", "instructors", "schedules", "bookings"}

  /** No management route matches a path outside the management sections. */
  lemma ManagementMiss(path: Path, sections: set<string>)
    requires SecondsIn(ManagementRoutes, sections) && ":id" !in sections
    requires |path| >= 2 && path[1] !in sections
    ensures Match(path, ManagementRoutes) == None
  {
    MissBySecond(path, ManagementRoutes, sections);
  }

  /** Under /admin/, every page outside the dashboard and the management sections admits
      exactly the super administrator. */
  lemma {:induction false} AdminOtherArea(path: Path)
    requires |path| >= 2 && path[0] == "admin" && path[1] != "dashboard" && path[1] !in Sections
    ensures Resolve(path) == None || Resolve(path) == Some(RolePage(OnlySuperAdmin))
  {
    AdminPrefix(path);
    AdminShape();
    ManagementShape();
    MissBySecond(path, AdminDashboardRoutes, {"dashboard"});
    HitRenders(path, AdminAccountRoutes, RolePage(OnlySuperAdmin));
    ManagementMiss(path, Sections);
  }

  /** Every page under /admin/admins/ admits exactly the super administrator. */
  lemma AdminAccountsArea(path: Path)
    requires |path| >= 2 && path[0] == "admin" && path[1] == "admins"
    ensures Resolve(path) == None || Resolve(path) == Some(RolePage(OnlySuperAdmin))
  {
    AdminOtherArea(path);
  }

  /** Every other page under /admin/ admits exactly the two administrator roles. */
  lemma {:induction false} AdminArea(path: Path)
    requires |path| >= 2 && path[0] == "admin" && path[1] != "admins"
    ensures Resolve(path) == None || Resolve(path) == Some(RolePage(Admins))
  {
    AdminPrefix(path);
    AdminShape();
    ManagementShape();
    HitRenders(path, AdminDashboardRoutes, RolePage(Admins));
    MissBySecond(path, AdminAccountRoutes, {"admins"});
    HitRenders(path, ManagementRoutes, RolePage(Admins));
  }

  /** The home page is open. */
  lemma HomeIsOpen()
    ensures Resolve(Home) == Some(PublicPage)
  {
  }

  /** The sign-in page is open. */
  lemma LoginIsOpen(path: Path)
    requires path == ["login"]
    ensures Resolve(path) == Some(PublicPage)
  {
    assert !Fits(HomeRoutes[0].pattern, path);
    assert !Fits(PublicRoutes[0].pattern, path);
    assert !Fits(PublicRoutes[1].pattern, path);
    assert !Fits(PublicRoutes[2].pattern, path);
    assert !Fits(PublicRoutes[3].pattern, path);
    assert Fits(PublicRoutes[4].pattern, path);
  }

  /** /dashboard is the dashboard redirect. */
  lemma DashboardIsRedirect(path: Path)
    requires |path| == 1 && path[0] == "dashboard"
    ensures Resolve(path) == Some(DashboardRedirectPage)
  {
    assert !Fits(HomeRoutes[0].pattern, path);
    PublicShape();
    MissByHead(path, PublicRoutes, {"services", "instructors", "about", "login", "register"});
    assert Fits(DashboardRoutes[0].pattern, path);
  }

  /** Each role's dashboard resolves to a page admitting exactly its owners. */
  lemma UserDashboardPage(path: Path)
    requires |path| == 2 && path[0] == "user" && path[1] == "dashboard"
    ensures Resolve(path) == Some(RolePage(OnlyUser))
  {
    UserArea(path);
    assert Fits(UserRoutes[0].pattern, path);
  }

  lemma InstructorDashboardPage(path: Path)
    requires |path| == 2 && path[0] == "instructor" && path[1] == "dashboard"
    ensures Resolve(path) == Some(RolePage(OnlyInstructor))
  {
    InstructorArea(path);
    assert Fits(InstructorRoutes[0].pattern, path);
  }

  lemma AdminDashboardPage(path: Path)
    requires |path| == 2 && path[0] == "admin" && path[1] == "dashboard"
    ensures Resolve(path) == Some(RolePage(Admins))
  {
    AdminArea(path);
    assert Fits(AdminDashboardRoutes[0].pattern, path);
  }

  lemma SuperAdminDashboardPage(path: Path)
    requires |path| == 2 && path[0] == "super-admin" && path[1] == "dashboard"
    ensures Resolve(path) == Some(RolePage(OnlySuperAdmin))
  {
    SuperAdminArea(path);
    assert Fits(SuperAdminRoutes[0].pattern, path);
  }

  /** The list page of a management section, reached through the route at index `k`. */
  lemma {:induction false} SectionList(path: Path, k: nat)
    requires |path| == 2 && path[0] == "admin" && path[1] in Sections
    requires k < |ManagementRoutes| && Fits(ManagementRoutes[k].pattern, path)
    ensures Resolve(path) == Some(RolePage(Admins))
  {
    AdminArea(path);
    AdminPrefix(path);
  }

  lemma UsersList(path: Path)
    requires |path| == 2 && path[0] == "admin" && path[1] == "users"
    ensures Resolve(path) == Some(RolePage(Admins))
  {
    SectionList(path, 0);
  }

  lemma ServicesList(path: Path)
    requires |path| == 2 && path[0] == "admin" && path[1] == "services"
    ensures Resolve(path) == Some(RolePage(Admins))
  {
    SectionList(path, 3);
  }

  lemma InstructorsList(path: Path)
    requires |path| == 2 && path[0] == "admin" && path[1] == "instructors"
    ensures Resolve(path) == Some(RolePage(Admins))
  {
    SectionList(path, 6);
  }

  lemma SchedulesList(path: Path)
    requires |path| == 2 && path[0] == "admin" && path[1] == "schedules"
    ensures Resolve(path) == Some(RolePage(Admins))
  {
    SectionList(path, 9);
  }

  lemma BookingsList(path: Path)
    requires |path| == 2 && path[0] == "admin" && path[1] == "bookings"
    ensures Resolve(path) == Some(RolePage(Admins))
  {
    SectionList(path, 12);
  }

  /** The list page of every management section admits exactly the two administrator roles. */
  lemma ManagementPage(path: Path)
    requires |path| == 2 && path[0] == "admin" && path[1] in Sections
    ensures Resolve(path) == Some(RolePage(Admins))
  {
    if path[1] == "users" {
      UsersList(path);
    } else if path[1] == "services" {
      ServicesList(path);
    } else if path[1] == "instructors" {
      InstructorsList(path);
    } else if path[1] == "schedules" {
      SchedulesList(path);
    } else {
      BookingsList(path);
    }
  }

  /** The administrator list admits exactly the super administrator. */
  lemma AccountsPage(path: Path)
    requires |path| == 2 && path[0] == "admin" && path[1] == "admins"
    ensures Resolve(path) == Some(RolePage(OnlySuperAdmin))
  {
    AdminAccountsArea(path);
    AdminPrefix(path);
    assert Fits(AdminAccountRoutes[0].pattern, path);
  }

  /** The four dashboards, each admitting exactly its owners. */
  lemma Dashboards()
    ensures Resolve(UserDashboard) == Some(RolePage(OnlyUser))
    ensures Resolve(InstructorDashboard) == Some(RolePage(OnlyInstructor))
    ensures Resolve(AdminDashboard) == Some(RolePage(Admins))
    ensures Resolve(SuperAdminDashboard) == Some(RolePage(OnlySuperAdmin))
  {
    UserDashboardPage(UserDashboard);
    InstructorDashboardPage(InstructorDashboard);
    AdminDashboardPage(AdminDashboard);
    SuperAdminDashboardPage(SuperAdminDashboard);
  }

  /** `path` is a page behind the role guard that lets `role` in. */
  predicate Admits(path: Path, role: string) {
    Resolve(path).Some? && Resolve(path).value.RolePage? && role in Resolve(path).value.allowed
  }

  lemma UserLanding(role: string)
    requires role == RoleUser
    ensures Admits(RoleFallback(role), role) && Admits(DashboardTarget(role), role)
  {
    Dashboards();
  }

  lemma InstructorLanding(role: string)
    requires role == RoleInstructor
    ensures Admits(RoleFallback(role), role) && Admits(DashboardTarget(role), role)
  {
    Dashboards();
  }

  lemma AdminLanding(role: string)
    requires role == RoleAdmin
    ensures Admits(RoleFallback(role), role) && Admits(DashboardTarget(role), role)
  {
    Dashboards();
  }

  lemma SuperAdminLanding(role: string)
    requires role == RoleSuperAdmin
    ensures Admits(RoleFallback(role), role) && Admits(DashboardTarget(role), role)
  {
    Dashboards();
  }

  /** Each known role's fallback and each known role's dashboard are pages that admit that
      role. */
  lemma LandingAdmitsRole(role: string)
    requires role in KnownRoles
    ensures Admits(RoleFallback(role), role)
    ensures Admits(DashboardTarget(role), role)
  {
    if role == RoleUser {
      UserLanding(role);
    } else if role == RoleInstructor {
      InstructorLanding(role);
    } else if role == RoleAdmin {
      AdminLanding(role);
    } else {
      SuperAdminLanding(role);
    }
  }

  // ---------------------------------------------------------------------------
  // Properties of navigation
  // ---------------------------------------------------------------------------

  /** The places a redirect leads to are written in lower case, so they are looked up as
      written. */
  lemma LandingsLowerCase(role: string)
    ensures Fold(Home) == Home && Fold(Login) == Login && Fold(Dashboard) == Dashboard
    ensures Fold(RoleFallback(role)) == RoleFallback(role)
    ensures Fold(DashboardTarget(role)) == DashboardTarget(role)
  {
    FoldsAsWritten(Home);
    FoldsAsWritten(Login);
    FoldsAsWritten(Dashboard);
    FoldsAsWritten(UserDashboard);
    FoldsAsWritten(InstructorDashboard);
    FoldsAsWritten(AdminDashboard);
    FoldsAsWritten(SuperAdminDashboard);
  }

  lemma FoldsAsWritten(path: Path)
    requires path in {Home, Login, Dashboard, UserDashboard, InstructorDashboard, AdminDashboard, SuperAdminDashboard}
    ensures Fold(path) == path
  {
    assert LowerCase(path);
    FoldLowerCase(path);
  }

  /** A signed-in session that is done loading. */
  predicate SignedIn(s: Session) {
    !s.loading && IsAuthenticated(s)
  }

  /** Every role guard sits behind the authentication guard: a guarded page shows a spinner
      while the session loads and, without a session, sends to the sign-in page carrying the
      page's path. */
  lemma GuardedPagesNeedSession(path: Path, s: Session)
    requires Resolve(Fold(path)).Some? && !Resolve(Fold(path)).value.PublicPage?
    ensures s.loading ==> Navigate(path, s) == Spinner
    ensures !s.loading && !IsAuthenticated(s) ==> Navigate(path, s) == Redirect(Login, Some(path))
  {
  }

  /** No bouncing: for a signed-in user with a known role, wherever a visit redirects, the
      target renders. */
  lemma {:induction false} NoBounce(path: Path, s: Session)
    requires SignedIn(s) && s.user.value.role in KnownRoles
    requires Navigate(path, s).Redirect?
    ensures Navigate(Navigate(path, s).to, s) == Render
  {
    HomeIsOpen();
    LandingsLowerCase(s.user.value.role);
    match Resolve(Fold(path))
    case None =>
    case Some(page) =>
      match page
      case PublicPage =>
      case DashboardRedirectPage =>
        DashboardTargetRenders(s);
      case RolePage(allowed) =>
        FallbackRenders(s);
  }

  /** A known role's dashboard renders for it. */
  lemma DashboardTargetRenders(s: Session)
    requires SignedIn(s) && s.user.value.role in KnownRoles
    ensures Navigate(DashboardTarget(s.user.value.role), s) == Render
  {
    var target := DashboardTarget(s.user.value.role);
    LandingsLowerCase(s.user.value.role);
    LandingAdmitsRole(s.user.value.role);
    assert Navigate(target, s) == PageDecision(Resolve(target).value, target, s);
  }

  /** A known role's fallback renders for it. */
  lemma FallbackRenders(s: Session)
    requires SignedIn(s) && s.user.value.role in KnownRoles
    ensures Navigate(RoleFallback(s.user.value.role), s) == Render
  {
    var target := RoleFallback(s.user.value.role);
    LandingsLowerCase(s.user.value.role);
    LandingAdmitsRole(s.user.value.role);
    assert Navigate(target, s) == PageDecision(Resolve(target).value, target, s);
  }

  /** Where the sign-in page continues: the remembered page, or /dashboard. */
  function AfterLogin(from: Option<Path>): (target: Path)
    ensures from.Some? ==> target == from.value
    ensures from.None? ==> target == Dashboard
  {
    if from.Some? then from.value else Dashboard
  }

  /** The round trip through the sign-in page: a visitor without a session is sent to sign in
      with the page remembered; once signed in as a role the page admits, the sign-in page
      continues to that page and it renders. */
  lemma LoginRoundTrip(path: Path, before: Session, after: Session)
    requires !before.loading && !IsAuthenticated(before)
    requires Resolve(Fold(path)).Some? && Resolve(Fold(path)).value.RolePage?
    requires SignedIn(after) && after.user.value.role in Resolve(Fold(path)).value.allowed
    ensures Navigate(path, before) == Redirect(Login, Some(path))
    ensures Navigate(AfterLogin(Navigate(path, before).from), after) == Render
  {
  }

  /** Without a remembered page the sign-in page continues to /dashboard, which sends a known
      role to its own dashboard, which renders. */
  lemma LoginWithoutOrigin(s: Session)
    requires SignedIn(s) && s.user.value.role in KnownRoles
    ensures Navigate(AfterLogin(None), s) == Redirect(DashboardTarget(s.user.value.role), None)
    ensures Navigate(DashboardTarget(s.user.value.role), s) == Render
  {
    LandingsLowerCase(s.user.value.role);
    DashboardIsRedirect(Dashboard);
    assert Navigate(Dashboard, s) == PageDecision(DashboardRedirectPage, Dashboard, s);
    DashboardTargetRenders(s);
  }
}
