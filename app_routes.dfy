/**
 * The application's route table: which page each path shows, and which roles the guard around
 * it lets in. The root path forwards to `/dashboard`, `/login` is open, every other route is
 * guarded; the path prefix decides the allowed roles.
 */
module AppRoutes {
  import opened Common
  import opened Permissions
  import opened ProtectedRoute

  /** Open, or wrapped in a guard with the given `allowedRoles` (`None` when it lists none). */
  datatype Access = Open | Guarded(allowedRoles: Option<seq<Role>>)

  /** What a route renders once it is let through: a redirect or a named page component. */
  datatype Element = NavigateTo(target: string) | Component(name: string)

  datatype Route = Route(access: Access, element: Element)

  /** The admin pages, under `/admin/`. */
  function AdminPaths(): seq<string> {
    ["/admin/users", "/admin/create-user", "/admin/products", "/admin/categories", "/admin/reports",
     "/admin/settings"]
  }

  /** The manager pages, under `/manager/`. */
  function ManagerPaths(): seq<string> {
    ["/manager/inventory", "/manager/purchase-orders", "/manager/staff", "/manager/reports",
     "/manager/suppliers", "/manager/stock-movements"]
  }

  /** The staff pages, under `/staff/`. */
  function StaffPaths(): seq<string> {
    ["/staff/inventory", "/staff/tasks"]
  }

  /** The root, the login page and the four dashboards. */
  function EntryPaths(): seq<string> {
    ["/", "/login", "/admin-dashboard", "/manager-dashboard", "/staff-dashboard", "/dashboard"]
  }

  /** The route declared for exactly this path, if any; there is no catch-all route. */
  function RouteFor(path: string): (r: Option<Route>)
  {
    match path
    case "/" => Some(Route(Open, NavigateTo("/dashboard")))
    case "/login" => Some(Route(Open, Component("Login")))
    case "/admin-dashboard" => Some(Route(Guarded(Some([Admin])), Component("AdminDashboard")))
    case "/manager-dashboard" => Some(Route(Guarded(Some([Manager])), Component("ManagerDashboard")))
    case "/staff-dashboard" => Some(Route(Guarded(Some([Staff])), Component("StaffDashboard")))
    case "/dashboard" => Some(Route(Guarded(None), Component("Dashboard")))
    case "/admin/users" => Some(Route(Guarded(Some([Admin])), Component("UserManagement")))
    case "/admin/create-user" => Some(Route(Guarded(Some([Admin])), Component("CreateUser")))
    case "/admin/products" => Some(Route(Guarded(Some([Admin])), Component("ProductManagement")))
    case "/admin/categories" => Some(Route(Guarded(Some([Admin])), Component("CategoryManagement")))
    case "/admin/reports" => Some(Route(Guarded(Some([Admin])), Component("Reports")))
    case "/admin/settings" => Some(Route(Guarded(Some([Admin])), Component("SystemSettings")))
    case "/manager/inventory" => Some(Route(Guarded(Some([Manager, Admin])), Component("InventoryManagement")))
    case "/manager/purchase-orders" => Some(Route(Guarded(Some([Manager, Admin])), Component("PurchaseOrders")))
    case "/manager/staff" => Some(Route(Guarded(Some([Manager, Admin])), Component("StaffOversight")))
    case "/manager/reports" => Some(Route(Guarded(Some([Manager, Admin])), Component("ManagerReports")))
    case "/manager/suppliers" => Some(Route(Guarded(Some([Manager, Admin])), Component("SuppliersManagement")))
    case "/manager/stock-movements" => Some(Route(Guarded(Some([Manager, Admin])), Component("StockMovements")))
    case "/staff/inventory" => Some(Route(Guarded(Some([Staff, Manager, Admin])), Component("InventoryViewer")))
    case "/staff/tasks" => Some(Route(Guarded(Some([Staff, Manager, Admin])), Component("TaskManagement")))
    case _ => None
  }

  /** The admin pages are guarded for admin alone. */
  lemma AdminGroup(i: nat)
    requires i < |AdminPaths()|
    ensures RouteFor(AdminPaths()[i]).Some? && RouteFor(AdminPaths()[i]).value.access == Guarded(Some([Admin]))
  {
  }

  /** The manager pages are guarded for manager and admin. */
  lemma ManagerGroup(i: nat)
    requires i < |ManagerPaths()|
    ensures RouteFor(ManagerPaths()[i]).Some? && RouteFor(ManagerPaths()[i]).value.access == Guarded(Some([Manager, Admin]))
  {
  }

  /** The staff pages are guarded for all three roles. */
  lemma StaffGroup(i: nat)
    requires i < |StaffPaths()|
    ensures RouteFor(StaffPaths()[i]).Some? && RouteFor(StaffPaths()[i]).value.access == Guarded(Some([Staff, Manager, Admin]))
  {
  }

  /** What a visit to a path shows: nothing for an unrouted path, else the guard's view or the element. */
  datatype Screen = Blank | Loading | Redirected(path: string) | Shown(element: Element)

  function Visit(auth: AuthState, path: string): (s: Screen)
    ensures RouteFor(path).None? <==> s == Blank
    ensures RouteFor(path).Some? && RouteFor(path).value.access.Open? ==> s == Shown(RouteFor(path).value.element)
    ensures s.Shown? ==> s.element == RouteFor(path).value.element
    ensures RouteFor(path).Some? && RouteFor(path).value.access.Guarded? ==>
      (s.Shown? <==> Guard(auth, RouteFor(path).value.access.allowedRoles) == RenderChildren)
  {
    match RouteFor(path)
    case None => Blank
    case Some(route) =>
      match route.access
      case Open => Shown(route.element)
      case Guarded(allowed) =>
        match Guard(auth, allowed)
        case LoadingScreen => Loading
        case RedirectTo(p) => Redirected(p)
        case RenderChildren => Shown(route.element)
  }

  /** The home page a role is sent to: its own dashboard, guarded for that role alone. */
  lemma OwnDashboardRoute(r: Role)
    ensures RouteFor(HomeFor(RoleName(r))).Some?
    ensures RouteFor(HomeFor(RoleName(r))).value.access == Guarded(Some([r]))
  {
  }

  /**
   * No redirect loop: a signed-in user that a guarded route refuses is sent to a page that
   * shows at once.
   */
  lemma RefusedUserLandsOnOwnDashboard(r: Role, path: string)
    requires Visit(SignedIn(r), path).Redirected?
    ensures Visit(SignedIn(r), Visit(SignedIn(r), path).path).Shown?
  {
    var allowed := RouteFor(path).value.access.allowedRoles.value;
    GuardForRole(r, allowed);
    OwnDashboardRoute(r);
    GuardForRole(r, [r]);
  }

  /** The role dashboards admit their own role and refuse the other two. */
  lemma RoleDashboardsAdmitOwnRoleOnly(r: Role, s: Role)
    ensures Visit(SignedIn(s), HomeFor(RoleName(r))).Shown? <==> s == r
  {
    OwnDashboardRoute(r);
    GuardForRole(s, [r]);
  }

  /** A signed-in user of any role sees the admin pages exactly when the role is admin. */
  lemma AdminPagesForAdminOnly(r: Role, path: string)
    requires path in AdminPaths()
    ensures Visit(SignedIn(r), path).Shown? <==> r == Admin
  {
    var i :| 0 <= i < |AdminPaths()| && AdminPaths()[i] == path;
    AdminGroup(i);
    GuardForRole(r, [Admin]);
  }

  /** The manager pages are for managers and admins. */
  lemma ManagerPagesClosedToStaff(r: Role, path: string)
    requires path in ManagerPaths()
    ensures Visit(SignedIn(r), path).Shown? <==> r != Staff
  {
    var i :| 0 <= i < |ManagerPaths()| && ManagerPaths()[i] == path;
    ManagerGroup(i);
    GuardForRole(r, [Manager, Admin]);
  }

  /** The staff pages are open to every role. */
  lemma StaffPagesOpenToEveryRole(r: Role, path: string)
    requires path in StaffPaths()
    ensures Visit(SignedIn(r), path).Shown?
  {
    var i :| 0 <= i < |StaffPaths()| && StaffPaths()[i] == path;
    StaffGroup(i);
    GuardForRole(r, [Staff, Manager, Admin]);
  }

  /** `/dashboard` lists no roles: once the session is restored, every signed-in user passes. */
  lemma DashboardRouteOpenToSignedIn(auth: AuthState)
    requires !auth.isLoading && auth.isAuthenticated
    ensures Visit(auth, "/dashboard") == Shown(Component("Dashboard"))
  {
  }

  /** Without a session, every guarded route sends the visitor to the login page, which is open. */
  lemma GuestsSentToLogin(path: string)
    requires RouteFor(path).Some? && RouteFor(path).value.access.Guarded?
    ensures Visit(AuthState(false, false, None), path) == Redirected("/login")
    ensures Visit(AuthState(false, false, None), "/login") == Shown(Component("Login"))
  {
  }
}
