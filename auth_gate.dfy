/** The authentication middleware: `requireAuth` takes a bearer token from
    the `Authorization` header and verifies it; `requireRole` checks the
    caller's role against an allow-list. Token verification (a signed JWT
    checked against the server secret) is an oracle `verify`. */
module AuthGate {
  import opened Js
  import opened JsString

  /** The claims of a session token: the login payload plus whatever else the
      token carries (issue and expiry times among them). */
  datatype Claims = Claims(
    id: string,
    email: Option<string>,
    name: Option<string>,
    role: Option<string>,
    extra: map<string, Scalar>)

  /** The outcome of a middleware: `next()` is called with the request's user
      (`Pass`), or a reply `{ message }` with a status is sent (`Deny`). */
  datatype Gate = Pass(user: Claims) | Deny(status: nat, message: string)

  const BearerPrefix: string := "Bearer "
  const DefaultRole: string := "student"

  /** The token of an `Authorization` header (`undefined` reads as `""`):
      what follows `"Bearer "`, when that is not empty. */
  function BearerToken(header: Option<string>): (token: Option<string>)
    ensures token.Some? <==>
              header.Some? && StartsWith(header.value, BearerPrefix) && |header.value| > |BearerPrefix|
    ensures token.Some? ==> token.value != "" && header.value == BearerPrefix + token.value
  {
    var h := if header.Some? then header.value else "";
    if StartsWith(h, BearerPrefix) && h[7..] != "" then Some(h[7..]) else None
  }

  lemma BearerTokenOfHeader(token: string)
    requires token != ""
    ensures BearerToken(Some(BearerPrefix + token)) == Some(token)
  {
    var h := BearerPrefix + token;
    assert h[..7] == BearerPrefix && h[7..] == token;
  }

  /** `requireAuth`. */
  function RequireAuth(header: Option<string>, verify: string -> Option<Claims>): (g: Gate)
    ensures BearerToken(header).None? ==> g == Deny(401, "Unauthorized")
    ensures BearerToken(header).Some? && verify(BearerToken(header).value).None? ==>
              g == Deny(401, "Invalid token")
    ensures g.Pass? <==> BearerToken(header).Some? && verify(BearerToken(header).value).Some?
    ensures g.Pass? ==> Some(g.user) == verify(BearerToken(header).value)
  {
    match BearerToken(header)
    case None => Deny(401, "Unauthorized")
    case Some(token) =>
      match verify(token)
      case None => Deny(401, "Invalid token")
      case Some(claims) => Pass(claims)
  }

  /** `req.user?.role || 'student'`. */
  function EffectiveRole(user: Claims): (role: string)
    ensures role != ""
    ensures Truthy(user.role) ==> role == user.role.value
    ensures !Truthy(user.role) ==> role == DefaultRole
  {
    OrDefault(user.role, DefaultRole)
  }

  /** `requireRole(roles)` run on an authenticated request. */
  function RequireRole(roles: seq<string>, user: Claims): (g: Gate)
    ensures g.Pass? <==> EffectiveRole(user) in roles
    ensures g.Pass? ==> g.user == user
    ensures g.Deny? ==> g == Deny(403, "Forbidden")
  {
    if EffectiveRole(user) in roles then Pass(user) else Deny(403, "Forbidden")
  }

  /** `requireAuth` followed by `requireRole(roles)`. */
  function Guard(header: Option<string>, verify: string -> Option<Claims>, roles: seq<string>): Gate
  {
    match RequireAuth(header, verify)
    case Deny(status, message) => Deny(status, message)
    case Pass(user) => RequireRole(roles, user)
  }

  /** A caller passes the guard exactly when its token verifies and its
      effective role is allowed; the claims reach the handler unchanged. */
  lemma GuardPasses(header: Option<string>, verify: string -> Option<Claims>, roles: seq<string>)
    ensures Guard(header, verify, roles).Deny? ==>
              Guard(header, verify, roles) in {Deny(401, "Unauthorized"), Deny(401, "Invalid token"), Deny(403, "Forbidden")}
    ensures Guard(header, verify, roles).Pass? <==>
              BearerToken(header).Some? && verify(BearerToken(header).value).Some? &&
              EffectiveRole(verify(BearerToken(header).value).value) in roles
    ensures Guard(header, verify, roles).Pass? ==>
              Some(Guard(header, verify, roles).user) == verify(BearerToken(header).value)
  {
  }
}
