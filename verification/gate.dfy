/** Access control: the page middleware in front of `/admin`, and the admin check each
    mutating API handler repeats before it touches the database. */
module Gate {
  import opened Js

  /** `jwt.verify(token, secret)` with the secret fixed: the decoded payload, or `None`
      when it throws (bad signature, expired, malformed). */
  type Verifier = string -> Option<Val>

  /** `request.cookies.get('token')?.value`: `None` when there is no cookie. */
  type Cookie = Option<string>

  /** `!token` holds for a missing cookie and for an empty one. */
  predicate HasToken(cookie: Cookie)
  {
    cookie.Some? && cookie.value != ""
  }

  /** `!decoded || decoded.role !== 'admin'`, negated. */
  predicate IsAdminPayload(decoded: Val)
  {
    Truthy(decoded) && Get(decoded, "role") == Str("admin")
  }

  /** The parts of `request.nextUrl` a redirect keeps or replaces. */
  datatype Url = Url(origin: string, pathname: string, search: string)

  datatype PageDecision = Next | Redirect(target: Url)

  /** The clone of the request URL with its pathname replaced by `/login`. */
  function LoginUrl(u: Url): (r: Url)
    ensures r.pathname == "/login" && r.origin == u.origin && r.search == u.search
  {
    u.(pathname := "/login")
  }

  /** `middleware(request)` for a path the matcher let through. */
  function Middleware(u: Url, cookie: Cookie, verify: Verifier): (d: PageDecision)
    ensures d.Next? <==> HasToken(cookie) && verify(cookie.value).Some?
                         && IsAdminPayload(verify(cookie.value).value)
    ensures d.Redirect? ==> d.target == LoginUrl(u)
  {
    if !HasToken(cookie) then Redirect(LoginUrl(u))
    else match verify(cookie.value)
      case None => Redirect(LoginUrl(u))
      case Some(decoded) => if IsAdminPayload(decoded) then Next else Redirect(LoginUrl(u))
  }

  /** The decision reads the cookie only: two requests with the same cookie are decided
      alike whatever their paths, and a redirect always lands on `/login` of the same origin. */
  lemma MiddlewareIgnoresPath(u1: Url, u2: Url, cookie: Cookie, verify: Verifier)
    ensures Middleware(u1, cookie, verify).Next? == Middleware(u2, cookie, verify).Next?
    ensures Middleware(u1, cookie, verify).Redirect? ==>
              Middleware(u1, cookie, verify).target.pathname == "/login"
  {
  }

  /** `config.matcher`: `/admin` and `/admin/:path*`. */
  predicate Gated(path: string)
  {
    path == "/admin" || "/admin/" <= path
  }

  lemma GatedPaths(path: string)
    ensures Gated(path) <==> (|path| >= 6 && path[..6] == "/admin" && (|path| == 6 || path[6] == '/'))
  {
    if |path| >= 7 && path[..6] == "/admin" && path[6] == '/' {
      assert path[..7] == "/admin/";
    }
  }

  /** The outcome of the check at the top of every admin-only handler. */
  datatype ApiGate =
    | Unauthorized           // 401, no cookie
    | Forbidden              // 403, payload without role admin
    | VerifyThrew            // caught by the handler's own catch: 500
    | Authorized(decoded: Val)

  function AdminCheck(cookie: Cookie, verify: Verifier): (g: ApiGate)
    ensures g.Unauthorized? <==> !HasToken(cookie)
    ensures g.VerifyThrew? <==> HasToken(cookie) && verify(cookie.value).None?
    ensures g.Forbidden? <==> HasToken(cookie) && verify(cookie.value).Some?
                              && !IsAdminPayload(verify(cookie.value).value)
    ensures g.Authorized? ==> IsAdminPayload(g.decoded) && verify(cookie.value) == Some(g.decoded)
  {
    if !HasToken(cookie) then Unauthorized
    else match verify(cookie.value)
      case None => VerifyThrew
      case Some(decoded) => if IsAdminPayload(decoded) then Authorized(decoded) else Forbidden
  }

  /** The HTTP status a refused request gets. */
  function GateStatus(g: ApiGate): (s: int)
    requires !g.Authorized?
    ensures s == 401 || s == 403 || s == 500
    ensures s == 500 <==> g.VerifyThrew?
  {
    match g
    case Unauthorized => 401
    case Forbidden => 403
    case VerifyThrew => 500
  }

  /** The two layers let the same requests through; they differ on a token that does not
      verify, which the page gate turns into a redirect and the API into a server error. */
  lemma LayersAgree(u: Url, cookie: Cookie, verify: Verifier)
    ensures Middleware(u, cookie, verify).Next? <==> AdminCheck(cookie, verify).Authorized?
    ensures HasToken(cookie) && verify(cookie.value).None? ==>
              Middleware(u, cookie, verify) == Redirect(LoginUrl(u))
              && GateStatus(AdminCheck(cookie, verify)) == 500
  {
  }

  /** The check of `POST /api/artists/categories`: a non-empty cookie is all it asks for. */
  predicate PresenceCheck(cookie: Cookie)
  {
    HasToken(cookie)
  }

  /** Whatever `verify` says, the presence check admits every request with a token, so it
      admits strictly more than the admin check whenever some token fails that check. */
  lemma PresenceWeakerThanAdmin(cookie: Cookie, verify: Verifier)
    ensures AdminCheck(cookie, verify).Authorized? ==> PresenceCheck(cookie)
    ensures HasToken(cookie) && verify(cookie.value).None? ==>
              PresenceCheck(cookie) && !AdminCheck(cookie, verify).Authorized?
  {
  }
}
