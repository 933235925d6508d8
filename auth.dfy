/**
 * The `withAuth` role gate (middleware/authMiddleware.ts): a request needs a `token` cookie
 * that verifies, and, when the route names any roles, a role among them; then the wrapped
 * handler runs on the unchanged request.
 */
module Auth {
  import opened Common
  import opened Http

  const NOT_AUTHENTICATED: string := "Not authenticated"
  const INVALID_TOKEN: string := "Invalid token"
  const NOT_AUTHORIZED: string := "Not authorized"

  /**
   * `jwt.verify(token, JWT_SECRET)`: the payload of a decodable token whose signature checks
   * and whose validity window has not run out (a token dated in the future is not refused);
   * `None` where the library throws. The library decodes base64url, so whether the segment
   * is also plain base64 plays no part.
   */
  function Verify(t: Token): (c: Option<Claims>)
    ensures c.Some? <==> t.payload.Some? && t.signedWithSecret && t.age < t.expiresIn
    ensures c.Some? ==> c == t.payload
    ensures c.Some? && t.plainBase64 ==> c == Decode(t)
    ensures c.Some? && !t.plainBase64 ==> Decode(t).None?
  {
    if t.payload.Some? && t.signedWithSecret && t.age < t.expiresIn then t.payload else None
  }

  /** `allowedRoles.length > 0 && !allowedRoles.includes(role)` is the refusal; a missing role is never included. */
  predicate RoleAllowed(allowedRoles: seq<string>, role: Option<string>) {
    |allowedRoles| == 0 || (role.Some? && role.value in allowedRoles)
  }

  /** The gate's decision: let the handler run, with the verified payload, or answer at once. */
  datatype Gate = Admit(claims: Claims) | Deny(response: Response)

  function Authorize(cookie: Option<Token>, allowedRoles: seq<string>): (g: Gate)
    ensures cookie.None? ==> g == Deny(Fail(Unauthorized, NOT_AUTHENTICATED))
    ensures cookie.Some? && Verify(cookie.value).None? ==> g == Deny(Fail(Unauthorized, INVALID_TOKEN))
    ensures g.Deny? ==> g.response.status == Unauthorized || g.response.status == Forbidden
    ensures (g.Deny? && g.response.status == Forbidden) ==>
              cookie.Some? && Verify(cookie.value).Some?
                  && !RoleAllowed(allowedRoles, Verify(cookie.value).value.role)
    ensures g.Admit? <==> cookie.Some? && Verify(cookie.value).Some?
                          && RoleAllowed(allowedRoles, Verify(cookie.value).value.role)
    ensures g.Admit? ==> Verify(cookie.value) == Some(g.claims)
  {
    if cookie.None? then Deny(Fail(Unauthorized, NOT_AUTHENTICATED))
    else
      match Verify(cookie.value)
      case None => Deny(Fail(Unauthorized, INVALID_TOKEN))
      case Some(claims) =>
        if !RoleAllowed(allowedRoles, claims.role) then Deny(Fail(Forbidden, NOT_AUTHORIZED))
        else Admit(claims)
  }

  /** `withAuth(handler, allowedRoles)` applied to a request, for a handler that only reads. */
  function WithAuth<B>(handler: Request<B> -> Response, allowedRoles: seq<string>, req: Request<B>): Response {
    match Authorize(req.cookie, allowedRoles)
    case Deny(r) => r
    case Admit(_) => handler(req)
  }

  /**
   * A request the gate lets through reaches the handler unchanged and the handler's answer is
   * the route's; a request it refuses gets 401 or 403 whatever the handler would have done.
   */
  lemma WithAuthDelegates<B>(handler: Request<B> -> Response, other: Request<B> -> Response,
                             allowedRoles: seq<string>, req: Request<B>)
    ensures Authorize(req.cookie, allowedRoles).Admit? ==> WithAuth(handler, allowedRoles, req) == handler(req)
    ensures Authorize(req.cookie, allowedRoles).Deny? ==>
              WithAuth(handler, allowedRoles, req) == WithAuth(other, allowedRoles, req)
                  && WithAuth(handler, allowedRoles, req).status.Code() in {401, 403}
  {
  }

  /** With no roles named (the default) every verified token is let through. */
  lemma EmptyRoleListAdmitsVerified(cookie: Option<Token>)
    requires cookie.Some? && Verify(cookie.value).Some?
    ensures Authorize(cookie, []) == Admit(Verify(cookie.value).value)
  {
  }
}
