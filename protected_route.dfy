/** The route guard: what a protected route shows for a given session snapshot. */
module ProtectedRoute {
  import opened Wrappers
  import opened Types
  import opened Storage
  import AuthContext

  datatype Decision = ShowSpinner | RedirectToLogin | RedirectToDashboard | RenderChildren

  /** Loading first, then authentication, then the admin role when the route asks for it. */
  function Guard(auth: AuthState, requiredRole: Option<Role>): (d: Decision)
    ensures auth.isLoading ==> d == ShowSpinner
    ensures !auth.isLoading && !auth.isAuthenticated ==> d == RedirectToLogin
    ensures d == RedirectToDashboard <==>
      !auth.isLoading && auth.isAuthenticated && requiredRole == Some(AdminRole) &&
      (auth.user == None || auth.user.value.role != AdminRole)
    ensures d == RenderChildren ==> auth.isAuthenticated && !auth.isLoading
    ensures !auth.isLoading && auth.isAuthenticated && requiredRole != Some(AdminRole) ==> d == RenderChildren
    ensures !auth.isLoading && auth.isAuthenticated && auth.user.Some? && auth.user.value.role == AdminRole ==>
      d == RenderChildren
  {
    if auth.isLoading then ShowSpinner
    else if !auth.isAuthenticated then RedirectToLogin
    else if requiredRole == Some(AdminRole) && (auth.user == None || auth.user.value.role != AdminRole) then
      RedirectToDashboard
    else RenderChildren
  }

  /** For a consistent snapshot, a rendered route always has both a user and a token behind it. */
  lemma RenderedRouteHasSession(auth: AuthState, requiredRole: Option<Role>)
    requires Consistent(auth)
    requires Guard(auth, requiredRole) == RenderChildren
    ensures auth.user.Some? && auth.token.Some?
  {
  }

  /**
   * The guard over a session's life: a spinner before start-up ends, the login page for a
   * visitor with nothing stored, the admin page for a logged-in admin, the login page again
   * after logout.
   */
  method AdminRouteAcrossSession(codec: ProfileCodec, password: string)
    returns (starting: Decision, visitor: Decision, admin: Decision, afterLogout: Decision)
    ensures starting == ShowSpinner
    ensures visitor == RedirectToLogin
    ensures admin == RenderChildren
    ensures afterLogout == RedirectToLogin
  {
    var session := new AuthContext.AuthProvider(map[], codec);
    starting := Guard(session.state, Some(AdminRole));
    session.Init();
    visitor := Guard(session.state, Some(AdminRole));
    var outcome := session.Login(LoginCredentials("admin@nexus.com", password, false));
    admin := Guard(session.state, Some(AdminRole));
    session.Logout();
    afterLogout := Guard(session.state, Some(AdminRole));
  }
}
