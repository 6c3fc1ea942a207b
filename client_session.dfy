/**
 * The browser-side session the guard and the layout act on: the stored
 * token and user, the authenticated flag, and the paths the router was
 * sent to. The authentication hook that owns this state is not part of
 * this model; its `logout` is taken to clear the stored session.
 */
module ClientSession {
  import opened Wrappers

  /** The signed-in user as the client keeps it: name and role name. */
  datatype SessionUser = SessionUser(nombre: string, rol: string)

  class Session {
    var token: Option<string>
    var usuario: Option<SessionUser>
    var isAuthenticated: bool
    /** Every `router.push`, oldest first. */
    var visited: seq<string>

    constructor (token: Option<string>, usuario: Option<SessionUser>, isAuthenticated: bool)
      ensures this.token == token && this.usuario == usuario && this.isAuthenticated == isAuthenticated
      ensures visited == []
    {
      this.token := token;
      this.usuario := usuario;
      this.isAuthenticated := isAuthenticated;
      visited := [];
    }

    /** `logout()`: forget the token and the user. */
    method Logout()
      modifies this
      ensures token.None? && usuario.None? && !isAuthenticated
      ensures visited == old(visited)
    {
      token := None;
      usuario := None;
      isAuthenticated := false;
    }

    /** `router.push(path)`. */
    method Push(path: string)
      modifies this
      ensures visited == old(visited) + [path]
      ensures token == old(token) && usuario == old(usuario) && isAuthenticated == old(isAuthenticated)
    {
      visited := visited + [path];
    }
  }
}
