/**
 * The `/dashboard` page: it renders the dashboard component of the signed-in user's role in
 * place, and sends everyone else to the login page.
 */
module DashboardPage {
  import opened Common
  import opened Permissions
  import opened ProtectedRoute
  import opened AppRoutes

  /** What `/dashboard` renders: the loading screen, a redirect, or a role's dashboard component. */
  datatype DashboardView = DashboardLoading | DashboardRedirect(path: string) | ShowDashboard(component: string)

  /**
   * `Dashboard`: loading first; no session or no user goes to the login page; a known role sees
   * the same component its own dashboard route shows; any other role name goes to the login page.
   */
  function DashboardFor(auth: AuthState): (v: DashboardView)
    ensures auth.isLoading <==> v == DashboardLoading
    ensures v.DashboardRedirect? ==> v.path == "/login"
    ensures v.ShowDashboard? <==>
      !auth.isLoading && auth.isAuthenticated && auth.user.Some? && ParseRole(auth.user.value.role).Some?
    ensures v.ShowDashboard? ==>
      RouteFor(HomeFor(auth.user.value.role)) ==
        Some(Route(Guarded(Some([ParseRole(auth.user.value.role).value])), Component(v.component)))
  {
    if auth.isLoading then DashboardLoading
    else if !auth.isAuthenticated || auth.user.None? then DashboardRedirect("/login")
    else
      match auth.user.value.role
      case "admin" => ShowDashboard("AdminDashboard")
      case "manager" => ShowDashboard("ManagerDashboard")
      case "staff" => ShowDashboard("StaffDashboard")
      case _ => DashboardRedirect("/login")
  }

  /**
   * A user of a known role that a guard refuses is sent to a page showing the very component
   * `/dashboard` shows that user, and it is the dashboard whose permission the role holds.
   */
  lemma DashboardAgreesWithGuard(r: Role, allowed: seq<Role>)
    requires r !in allowed
    ensures DashboardFor(SignedIn(r)).ShowDashboard?
    ensures Guard(SignedIn(r), Some(allowed)).RedirectTo?
    ensures Visit(SignedIn(r), Guard(SignedIn(r), Some(allowed)).path) ==
            Shown(Component(DashboardFor(SignedIn(r)).component))
    ensures HasPermission(r, DashboardPermission(r))
  {
    GuardForRole(r, allowed);
    ParseRoleName(r);
    OwnDashboardRoute(r);
    GuardForRole(r, [r]);
  }

  /** The three roles see three different dashboard components at `/dashboard`. */
  lemma DashboardsDiffer(r: Role, s: Role)
    requires r != s
    ensures DashboardFor(SignedIn(r)).ShowDashboard? && DashboardFor(SignedIn(s)).ShowDashboard?
    ensures DashboardFor(SignedIn(r)).component != DashboardFor(SignedIn(s)).component
  {
    ParseRoleName(r);
    ParseRoleName(s);
  }
}
