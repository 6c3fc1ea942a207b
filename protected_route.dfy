/**
 * The guard around every dashboard page. It sends a visitor without a
 * session to the login page, asks the server to confirm the token, sends
 * a visitor whose role is not admitted to the dashboard, and only then
 * shows the page; until then a spinner is shown.
 */
module ProtectedRoute {
  import opened Wrappers
  import opened ClientSession

  const LoginPath: string := "/login"
  const DashboardPath: string := "/dashboard"

  /** How the call to the verify endpoint ended. */
  datatype VerifyResult = VerifyOk | VerifyNotOk | VerifyThrew

  /** What `verifyAuth` decides. */
  datatype Decision =
    | RedirectLogin          // no session: straight to the login page
    | LogoutRedirectLogin    // the server refused the token, or the call failed
    | RedirectDashboard      // the role is not admitted
    | RenderChildren         // every check passed

  /** A token the guard accepts to send: present and not empty. */
  predicate HasToken(token: Option<string>) {
    token.Some? && token.value != ""
  }

  /** `requiredRole && usuario && !requiredRole.includes(usuario.rol)`. */
  predicate RoleRefused(requiredRole: Option<seq<string>>, usuario: Option<SessionUser>) {
    requiredRole.Some? && usuario.Some? && usuario.value.rol !in requiredRole.value
  }

  /**
   * The decision chain. `verify` stands for the request to the verify
   * endpoint with the token as bearer; it is consulted only when a
   * session exists.
   */
  function Decide(token: Option<string>, isAuthenticated: bool, usuario: Option<SessionUser>,
                  requiredRole: Option<seq<string>>, verify: string -> VerifyResult): (d: Decision)
    ensures !HasToken(token) || !isAuthenticated ==> d == RedirectLogin
    ensures d == LogoutRedirectLogin <==>
      HasToken(token) && isAuthenticated && verify(token.value) != VerifyOk
    ensures d == RedirectDashboard <==>
      HasToken(token) && isAuthenticated && verify(token.value) == VerifyOk && RoleRefused(requiredRole, usuario)
    ensures d == RenderChildren <==>
      HasToken(token) && isAuthenticated && verify(token.value) == VerifyOk && !RoleRefused(requiredRole, usuario)
  {
    if !HasToken(token) || !isAuthenticated then RedirectLogin
    else match verify(token.value)
      case VerifyThrew => LogoutRedirectLogin
      case VerifyNotOk => LogoutRedirectLogin
      case VerifyOk => if RoleRefused(requiredRole, usuario) then RedirectDashboard else RenderChildren
  }

  /** Without a session the verify endpoint is never asked: the decision is the same whatever it would say. */
  lemma NoSessionSkipsVerify(token: Option<string>, isAuthenticated: bool, usuario: Option<SessionUser>,
                             requiredRole: Option<seq<string>>, v1: string -> VerifyResult, v2: string -> VerifyResult)
    requires !HasToken(token) || !isAuthenticated
    ensures Decide(token, isAuthenticated, usuario, requiredRole, v1) == Decide(token, isAuthenticated, usuario, requiredRole, v2)
  {
  }

  /** Without a role list, or without a stored user, a confirmed token shows the page. */
  lemma NoRoleCheck(token: Option<string>, usuario: Option<SessionUser>, requiredRole: Option<seq<string>>,
                    verify: string -> VerifyResult)
    requires requiredRole.None? || usuario.None?
    requires HasToken(token) && verify(token.value) == VerifyOk
    ensures Decide(token, true, usuario, requiredRole, verify) == RenderChildren
  {
  }

  /** The guard's own state: whether the spinner is still shown. */
  class Guard {
    var isVerifying: bool

    constructor ()
      ensures isVerifying
    {
      isVerifying := true;
    }

    /** The page's children are shown once verification has passed. */
    predicate ShowsChildren()
      reads this
    {
      !isVerifying
    }

    /**
     * Run `verifyAuth` against the session: log out and go to the login
     * page when the server refuses, go to the login page or the dashboard
     * when a check fails, and stop verifying only when all checks pass.
     */
    method VerifyAuth(s: Session, requiredRole: Option<seq<string>>, verify: string -> VerifyResult)
      returns (d: Decision)
      modifies this, s
      ensures d == Decide(old(s.token), old(s.isAuthenticated), old(s.usuario), requiredRole, verify)
      ensures d == RedirectLogin || d == LogoutRedirectLogin ==> s.visited == old(s.visited) + [LoginPath]
      ensures d == RedirectDashboard ==> s.visited == old(s.visited) + [DashboardPath]
      ensures d == RenderChildren ==> s.visited == old(s.visited)
      ensures d == LogoutRedirectLogin ==> s.token.None? && s.usuario.None? && !s.isAuthenticated
      ensures d != LogoutRedirectLogin ==>
        s.token == old(s.token) && s.usuario == old(s.usuario) && s.isAuthenticated == old(s.isAuthenticated)
      ensures isVerifying == (old(isVerifying) && d != RenderChildren)
    {
      d := Decide(s.token, s.isAuthenticated, s.usuario, requiredRole, verify);
      match d
      case RedirectLogin =>
        s.Push(LoginPath);
      case LogoutRedirectLogin =>
        s.Logout();
        s.Push(LoginPath);
      case RedirectDashboard =>
        s.Push(DashboardPath);
      case RenderChildren =>
        isVerifying := false;
    }
  }
}
