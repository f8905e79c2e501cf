/** The route table (src/App.tsx). Paths are matched as exact strings;
    the first matching entry wins and `*` catches everything else. */
module AppRoutes {
  import opened Wrappers
  import opened Types
  import RouteGuard

  datatype Page =
    | LoginPage | UnauthorizedPage
    | DashboardPage | UsersPage | PartnersPage | OrdersPage | MenuPage
    | DeliveryPage | FinancePage | OffersPage | NotificationsPage | CMSPage
    | AnalyticsPage | SettingsPage | AdminUsersPage
    | NotFound

  /** The props a `<ProtectedRoute>` wrapper is given. */
  datatype GuardProps = GuardProps(requiredRoles: Option<seq<UserRole>>, requiredPermission: Option<string>)

  /** One `<Route>`: its path, the guard wrapping its element (if any) and
      the page it shows. */
  datatype Route = Route(path: string, guard: Option<GuardProps>, page: Page)

  const Unrestricted: GuardProps := GuardProps(None, None)

  const RouteTable: seq<Route> := [
    Route("/login", None, LoginPage),
    Route("/unauthorized", None, UnauthorizedPage),
    Route("/", Some(Unrestricted), DashboardPage),
    Route("/users", Some(Unrestricted), UsersPage),
    Route("/partners", Some(Unrestricted), PartnersPage),
    Route("/orders", Some(Unrestricted), OrdersPage),
    Route("/menu", Some(Unrestricted), MenuPage),
    Route("/delivery", Some(Unrestricted), DeliveryPage),
    Route("/finance", Some(Unrestricted), FinancePage),
    Route("/offers", Some(Unrestricted), OffersPage),
    Route("/notifications", Some(Unrestricted), NotificationsPage),
    Route("/cms", Some(Unrestricted), CMSPage),
    Route("/analytics", Some(Unrestricted), AnalyticsPage),
    Route("/settings", Some(Unrestricted), SettingsPage),
    Route("/admin-users", Some(Unrestricted), AdminUsersPage)
  ]

  /** The thirteen dashboard paths, in the order of the table. */
  const DashboardPaths: seq<string> := [
    "/", "/users", "/partners", "/orders", "/menu", "/delivery", "/finance",
    "/offers", "/notifications", "/cms", "/analytics", "/settings", "/admin-users"
  ]

  /** The first route of `routes` whose path is `path`, if any. */
  function FindRoute(routes: seq<Route>, path: string): (r: Option<Route>)
    ensures r.Some? ==> r.value in routes && r.value.path == path
    ensures r.None? <==> forall i :: 0 <= i < |routes| ==> routes[i].path != path
    decreases |routes|
  {
    if routes == [] then None
    else if routes[0].path == path then Some(routes[0])
    else FindRoute(routes[1..], path)
  }

  /** What the router shows for a path. */
  datatype Outcome =
    | Show(page: Page)
    | RedirectToLogin(from: string)
    | RedirectToUnauthorized

  /** Resolve `path` against the table and, for a guarded route, run the
      guard with the current session. */
  function Navigate(path: string, isAuthenticated: bool, user: Option<AdminUser>): (o: Outcome)
    ensures FindRoute(RouteTable, path).None? ==> o == Show(NotFound)
    ensures o.RedirectToLogin? ==> !isAuthenticated && o.from == path
  {
    match FindRoute(RouteTable, path)
    case None => Show(NotFound)
    case Some(route) =>
      if route.guard.None? then Show(route.page)
      else
        match RouteGuard.ProtectedRoute(isAuthenticated, user, route.guard.value.requiredRoles,
                                        route.guard.value.requiredPermission, path)
        case RedirectToLogin(from) => RedirectToLogin(from)
        case RedirectToUnauthorized => RedirectToUnauthorized
        case RenderChildren => Show(route.page)
  }

  /** FindRoute returns the entry at `k` when its path occurs nowhere
      earlier in the table. */
  lemma {:induction false} FindRouteFirst(routes: seq<Route>, k: nat)
    requires k < |routes|
    requires forall i :: 0 <= i < k ==> routes[i].path != routes[k].path
    ensures FindRoute(routes, routes[k].path) == Some(routes[k])
    decreases k
  {
    if k > 0 {
      FindRouteFirst(routes[1..], k - 1);
    }
  }

  /** The table has one entry per path, so the first match is the only
      one; its entries after the first two are the dashboard paths. */
  lemma RouteTableShape()
    ensures |RouteTable| == |DashboardPaths| + 2
    ensures RouteTable[0].path == "/login" && RouteTable[1].path == "/unauthorized"
    ensures forall k :: 0 <= k < |DashboardPaths| ==> RouteTable[k + 2].path == DashboardPaths[k]
    ensures forall i, j :: 0 <= i < j < |RouteTable| ==> RouteTable[i].path != RouteTable[j].path
  {
  }

  /** /login and /unauthorized are not guarded: they show with or without
      a session. */
  lemma PublicRoutes(path: string, isAuthenticated: bool, user: Option<AdminUser>)
    requires path == "/login" || path == "/unauthorized"
    ensures path == "/login" ==> Navigate(path, isAuthenticated, user) == Show(LoginPage)
    ensures path == "/unauthorized" ==> Navigate(path, isAuthenticated, user) == Show(UnauthorizedPage)
  {
    RouteTableShape();
    FindRouteFirst(RouteTable, 0);
    FindRouteFirst(RouteTable, 1);
  }

  /** The guarded paths are exactly the thirteen dashboard paths, and no
      guard on them passes requiredRoles or requiredPermission. */
  lemma GuardedRoutesAreUnrestricted()
    ensures forall i :: 0 <= i < |RouteTable| ==> (RouteTable[i].guard.Some? <==> i >= 2)
    ensures forall i :: 0 <= i < |RouteTable| && RouteTable[i].guard.Some? ==> RouteTable[i].guard.value == Unrestricted
  {
  }

  /** Any signed-in user, of any role, reaches every dashboard page;
      without a session each of them redirects to /login. */
  lemma DashboardPathsOpenToEverySession(k: nat, user: Option<AdminUser>)
    requires k < |DashboardPaths|
    ensures Navigate(DashboardPaths[k], true, user) == Show(RouteTable[k + 2].page)
    ensures Navigate(DashboardPaths[k], false, user) == RedirectToLogin(DashboardPaths[k])
  {
    RouteTableShape();
    GuardedRoutesAreUnrestricted();
    FindRouteFirst(RouteTable, k + 2);
  }

  /** A path missing from the table shows NotFound, signed in or not. */
  lemma UnlistedPathIsNotFound(path: string, isAuthenticated: bool, user: Option<AdminUser>)
    requires path != "/login" && path != "/unauthorized" && path !in DashboardPaths
    ensures Navigate(path, isAuthenticated, user) == Show(NotFound)
  {
    RouteTableShape();
    forall i | 0 <= i < |RouteTable| ensures RouteTable[i].path != path {
      if i >= 2 {
        assert RouteTable[i].path == DashboardPaths[i - 2];
      }
    }
  }
}
