/**
 * The bearer gate every protected route runs first: the `authorization`
 * header must start with `Bearer `, the token is what follows those seven
 * characters, and the token service must accept it. The token service
 * itself (signature and expiry checks) is a parameter, `verifyToken`,
 * that yields the claims of a valid token and None otherwise.
 */
module Authz {
  import opened Wrappers

  /** The claims a session token carries. */
  datatype Claims = Claims(userId: int, email: string, rolId: int, rolNombre: string)

  const BearerPrefix: string := "Bearer "

  const Administrador: string := "Administrador"

  /** The role check the routes make on the claims (`payload.rolNombre === "Administrador"`). */
  predicate IsAdmin(claims: Claims) {
    claims.rolNombre == Administrador
  }

  /** The outcome of the gate: 401 "No autorizado", or the caller's claims. */
  datatype Gate = Denied | Allowed(claims: Claims)

  predicate HasBearerPrefix(header: string) {
    |BearerPrefix| <= |header| && header[..|BearerPrefix|] == BearerPrefix
  }

  /**
   * `authHeader.startsWith("Bearer ")`, then `verifyToken(authHeader.substring(7))`.
   * A missing header and an empty one are both rejected.
   */
  function Authorize(header: Option<string>, verifyToken: string -> Option<Claims>): (r: Gate)
    ensures header.None? || !HasBearerPrefix(header.value) ==> r == Denied
    ensures r.Allowed? ==> header.Some? && HasBearerPrefix(header.value)
  {
    if header.None? || !HasBearerPrefix(header.value) then Denied
    else
      match verifyToken(header.value[|BearerPrefix|..])
      case None => Denied
      case Some(claims) => Allowed(claims)
  }

  /** A header built from a token passes the gate exactly when the token service accepts that token. */
  lemma AuthorizeBearer(token: string, verifyToken: string -> Option<Claims>)
    ensures Authorize(Some(BearerPrefix + token), verifyToken).Allowed? <==> verifyToken(token).Some?
    ensures verifyToken(token).Some? ==>
      Authorize(Some(BearerPrefix + token), verifyToken) == Allowed(verifyToken(token).value)
  {
    var h := BearerPrefix + token;
    assert h[..|BearerPrefix|] == BearerPrefix;
    assert h[|BearerPrefix|..] == token;
  }

  /** Whatever the token service would say, a header without the prefix never reaches it. */
  lemma AuthorizeWithoutPrefix(header: Option<string>, v1: string -> Option<Claims>, v2: string -> Option<Claims>)
    requires header.None? || !HasBearerPrefix(header.value)
    ensures Authorize(header, v1) == Authorize(header, v2) == Denied
  {
  }

  /** Every allowed header is `Bearer ` followed by a token the service accepted, with those claims. */
  lemma AuthorizeAllowed(header: Option<string>, verifyToken: string -> Option<Claims>)
    requires Authorize(header, verifyToken).Allowed?
    ensures exists token :: header == Some(BearerPrefix + token)
                            && verifyToken(token) == Some(Authorize(header, verifyToken).claims)
  {
    var token := header.value[|BearerPrefix|..];
    assert header.value == BearerPrefix + token;
  }
}
