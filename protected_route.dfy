/**
 * The route guard: while the session is being restored it shows a loading screen; without a
 * session it sends the visitor to the login page; a signed-in user whose role is not among the
 * route's allowed roles is sent to the dashboard of their own role.
 */
module ProtectedRoute {
  import opened Common
  import opened Permissions

  /** The signed-in user as the session holds it: the role is a stored string, not checked. */
  datatype User = User(role: string)

  /** What the authentication context offers the guards. */
  datatype AuthState = AuthState(isLoading: bool, isAuthenticated: bool, user: Option<User>)

  /** What a guard renders. */
  datatype GuardView = LoadingScreen | RedirectTo(path: string) | RenderChildren

  /** The names of the allowed roles, as `allowedRoles.includes(user.role)` compares them. */
  function RoleNames(roles: seq<Role>): (names: seq<string>)
    ensures |names| == |roles|
    ensures forall i :: 0 <= i < |roles| ==> names[i] == RoleName(roles[i])
  {
    seq(|roles|, i requires 0 <= i < |roles| => RoleName(roles[i]))
  }

  /** A stored role name is among the allowed roles exactly when it names one of them. */
  lemma RoleNamesMembership(roles: seq<Role>, name: string)
    ensures name in RoleNames(roles) <==> ParseRole(name).Some? && ParseRole(name).value in roles
  {
    if name in RoleNames(roles) {
      var i :| 0 <= i < |roles| && RoleNames(roles)[i] == name;
      ParseRoleName(roles[i]);
    }
    if ParseRole(name).Some? && ParseRole(name).value in roles {
      var i :| 0 <= i < |roles| && roles[i] == ParseRole(name).value;
      assert RoleNames(roles)[i] == name;
    }
  }

  /** Where a refused user is sent: the dashboard named after the role, or the login page for any other role name. */
  function HomeFor(role: string): (path: string)
    ensures ParseRole(role).Some? ==> path == "/" + role + "-dashboard"
    ensures ParseRole(role).None? ==> path == "/login"
  {
    if role == "admin" then "/admin-dashboard"
    else if role == "manager" then "/manager-dashboard"
    else if role == "staff" then "/staff-dashboard"
    else "/login"
  }

  /**
   * `ProtectedRoute`, with `allowedRoles` `None` when the route gives none. An empty list is
   * still a list: it refuses every role. A session that is authenticated but has no user lets
   * the children through.
   */
  function Guard(auth: AuthState, allowedRoles: Option<seq<Role>>): (v: GuardView)
    ensures auth.isLoading ==> v == LoadingScreen
    ensures !auth.isLoading && !auth.isAuthenticated ==> v == RedirectTo("/login")
    ensures !auth.isLoading && auth.isAuthenticated ==>
      (v == RenderChildren <==>
         allowedRoles.None? || auth.user.None? ||
         (ParseRole(auth.user.value.role).Some? && ParseRole(auth.user.value.role).value in allowedRoles.value))
    ensures v.RedirectTo? && auth.isAuthenticated ==>
      auth.user.Some? && v.path == HomeFor(auth.user.value.role)
  {
    if auth.isLoading then LoadingScreen
    else if !auth.isAuthenticated then RedirectTo("/login")
    else if allowedRoles.Some? && auth.user.Some? && auth.user.value.role !in RoleNames(allowedRoles.value) then
      RoleNamesMembership(allowedRoles.value, auth.user.value.role);
      RedirectTo(HomeFor(auth.user.value.role))
    else
      (if allowedRoles.Some? && auth.user.Some? then RoleNamesMembership(allowedRoles.value, auth.user.value.role); RenderChildren
       else RenderChildren)
  }

  /** The session of a signed-in user with the given role. */
  function SignedIn(r: Role): (auth: AuthState)
    ensures !auth.isLoading && auth.isAuthenticated && auth.user == Some(User(RoleName(r)))
  {
    AuthState(false, true, Some(User(RoleName(r))))
  }

  /** A signed-in user of a known role passes a guard exactly when the role is allowed, and is otherwise sent to that role's dashboard. */
  lemma GuardForRole(r: Role, allowed: seq<Role>)
    ensures Guard(SignedIn(r), Some(allowed)) == RenderChildren <==> r in allowed
    ensures r !in allowed ==> Guard(SignedIn(r), Some(allowed)) == RedirectTo("/" + RoleName(r) + "-dashboard")
  {
    ParseRoleName(r);
  }

  /** A user whose stored role is none of the three is sent to the login page by every guard that lists roles. */
  lemma UnknownRoleSentToLogin(role: string, allowed: seq<Role>)
    requires ParseRole(role).None?
    ensures Guard(AuthState(false, true, Some(User(role))), Some(allowed)) == RedirectTo("/login")
  {
  }
}
