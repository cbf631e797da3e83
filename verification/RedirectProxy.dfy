/** The navigation proxy of the frontend (frontend/src/proxy.ts with lib/auth/sr-marker.ts,
    lib/auth/login-redirect.ts and lib/config/roles.ts): which page a request gets and where
    it is redirected. */
module RedirectProxy {
  import opened Basics

  // ---- URLs ----------------------------------------------------------------------------------

  /** A URL on this site, after normalisation by the URL parser. */
  datatype Url = Url(path: string, query: seq<Param>, hash: string)

  datatype Param = Param(name: string, value: Value)

  /** A parameter's text: `Link` if it reads as a path on this site, `Count` if JavaScript's
      Number reads it as an integer, else `Text`. */
  datatype Value = Text(text: string) | Count(n: int) | Link(url: Url)

  function Get(q: seq<Param>, name: string): Option<Value> {
    if q == [] then None else if q[0].name == name then Some(q[0].value) else Get(q[1..], name)
  }

  function GetAll(q: seq<Param>, name: string): seq<Value> {
    if q == [] then [] else if q[0].name == name then [q[0].value] + GetAll(q[1..], name) else GetAll(q[1..], name)
  }

  function Delete(q: seq<Param>, name: string): seq<Param> {
    if q == [] then [] else if q[0].name == name then Delete(q[1..], name) else [q[0]] + Delete(q[1..], name)
  }

  // The page `p` itself or one below it.
  predicate IsUnder(p: string, path: string) {
    p <= path && (|path| == |p| || path[|p|] == '/')
  }

  predicate IsAuthPath(path: string) {
    || IsUnder("/login", path) || IsUnder("/register", path) || IsUnder("/forgot-password", path)
    || IsUnder("/reset-password", path) || IsUnder("/session-refresh", path)
  }

  // No scheme, no backslash, no second leading slash, no encoded slash or backslash.
  predicate IsPlainPath(path: string) {
    && path != "" && path[0] == '/' && !("//" <= path) && ':' !in path && '\\' !in path
    && forall i :: 0 <= i < |path| - 2 ==> !IsEncodedSlash(path, i)
  }

  predicate IsEncodedSlash(path: string, i: nat)
    requires i < |path| - 2
  {
    path[i] == '%' && path[i + 1..i + 3] in ["2f", "2F", "5c", "5C"]
  }

  predicate IsValidRedirect(v: Value) {
    v.Link? && IsPlainPath(v.url.path) && !IsAuthPath(v.url.path)
  }

  function StripRsc(u: Url): Url {
    u.(query := Delete(u.query, "_rsc"))
  }

  // ---- the round counter `_sr` (sr-marker.ts) ----------------------------------------------------

  const SR_MAX := 2

  function ParseSr(u: Url): (n: nat)
    ensures n <= SR_MAX
  {
    var all := GetAll(u.query, "_sr");
    if |all| != 1 || !all[0].Count? || all[0].n < 0 then 0 else Min(all[0].n, SR_MAX)
  }

  function WithSr(u: Url, n: nat): Url {
    u.(query := Delete(u.query, "_sr") + [Param("_sr", Count(Min(n, SR_MAX)))])
  }

  function StripSr(u: Url): Url {
    u.(query := Delete(u.query, "_sr"))
  }

  lemma {:induction false} DeleteLeavesOthers(q: seq<Param>, name: string, other: string)
    ensures GetAll(Delete(q, name), name) == []
    ensures other != name ==> GetAll(Delete(q, name), other) == GetAll(q, other)
  {
    if q != [] {
      DeleteLeavesOthers(q[1..], name, other);
      var head := if q[0].name == name then [] else [q[0]];
      GetAllAppend(head, Delete(q[1..], name), name);
      GetAllAppend(head, Delete(q[1..], name), other);
    }
  }

  lemma {:induction false} GetAllAppend(a: seq<Param>, b: seq<Param>, name: string)
    ensures GetAll(a + b, name) == GetAll(a, name) + GetAll(b, name)
  {
    if a == [] {
      assert a + b == b;
    } else {
      HeadAndTail(a, b);
      GetAllAppend(a[1..], b, name);
    }
  }

  lemma {:induction false} DeleteAppend(a: seq<Param>, b: seq<Param>, name: string)
    ensures Delete(a + b, name) == Delete(a, name) + Delete(b, name)
  {
    if a == [] {
      assert a + b == b;
    } else {
      HeadAndTail(a, b);
      DeleteAppend(a[1..], b, name);
    }
  }

  lemma HeadAndTail(a: seq<Param>, b: seq<Param>)
    requires a != []
    ensures (a + b)[0] == a[0] && (a + b)[1..] == a[1..] + b
  {
  }

  lemma {:induction false} DeleteTwice(q: seq<Param>, name: string)
    ensures Delete(Delete(q, name), name) == Delete(q, name)
  {
    if q != [] {
      DeleteTwice(q[1..], name);
      var head := if q[0].name == name then [] else [q[0]];
      DeleteAppend(head, Delete(q[1..], name), name);
    }
  }

  // What is written is read back, whatever was there before, and taking it off restores the
  // rest; `_rsc` and `_sr` do not get in each other's way.
  lemma CounterRoundTrip(u: Url, n: nat)
    ensures ParseSr(WithSr(u, n)) == Min(n, SR_MAX)
    ensures StripSr(WithSr(u, n)) == StripSr(u)
    ensures ParseSr(StripSr(u)) == 0 && GetAll(StripSr(u).query, "_sr") == []
    ensures ParseSr(StripRsc(u)) == ParseSr(u)
  {
    var mark := [Param("_sr", Count(Min(n, SR_MAX)))];
    DeleteLeavesOthers(u.query, "_sr", "_sr");
    GetAllAppend(Delete(u.query, "_sr"), mark, "_sr");
    DeleteAppend(Delete(u.query, "_sr"), mark, "_sr");
    DeleteTwice(u.query, "_sr");
    assert mark[1..] == [] && Delete(mark, "_sr") == [] && GetAll(mark, "_sr") == [Count(Min(n, SR_MAX))];
    DeleteLeavesOthers(u.query, "_rsc", "_sr");
    assert "_rsc" != "_sr" by { assert |"_rsc"| == 4 && |"_sr"| == 3; }
  }

  // ---- tokens ------------------------------------------------------------------------------------

  /** The `exp` claim in milliseconds: missing or 0, a number, a text that reads as one, or
      something no clock ever reaches. */
  datatype Expiry = NoExpiry | At(ms: int) | AtText(ms: int) | Unreachable

  datatype Jti = NoJti | JtiText(id: string) | JtiOther(id: string)

  datatype Payload = Payload(kind: string, exp: Expiry, jti: Jti, role: string)

  // The access cookie: not a JWT, or one with this payload (the signature is not looked at).
  datatype Token = Malformed | Decoded(payload: Payload)

  datatype Cookies = Cookies(access: Option<Token>, refresh: bool, csrf: bool)

  predicate IsExpired(p: Payload, now: int) {
    match p.exp
    case NoExpiry => true
    case At(ms) => now >= ms
    case AtText(ms) => now >= ms
    case Unreachable => false
  }

  const REFRESH_TOKEN_LIFETIME := 30 * 24 * 60 * 60 * 1000

  // Expired for so long that the refresh token must have expired as well.
  predicate IsDead(p: Payload, now: int) {
    match p.exp
    case NoExpiry => true
    case At(ms) => now - ms >= REFRESH_TOKEN_LIFETIME
    case AtText(ms) => now - ms >= REFRESH_TOKEN_LIFETIME
    case Unreachable => false
  }

  // `usableAccessToken`: the jti of a token that may be trusted for navigation.
  function UsableJti(c: Cookies, now: int): Option<string> {
    if c.access.None? || c.access.value.Malformed? then None
    else
      var p := c.access.value.payload;
      if p.kind == "access" && p.exp.At? && !IsExpired(p, now) && p.jti.JtiText? && p.jti.id != "" then Some(p.jti.id)
      else None
  }

  // ---- routes --------------------------------------------------------------------------------------

  const PUBLIC_ROUTE_PREFIXES := [
    "/login", "/register", "/register-ctv", "/forgot-password", "/reset-password", "/tuyen-sinh",
    "/confirm", "/magic-link", "/lp", "/session-refresh"]

  datatype Route = Ignored | SessionRefresh | Auth(login: bool) | Public | Protected(admin: bool, finance: bool)

  predicate IsPublic(path: string) {
    path == "/" || exists r <- PUBLIC_ROUTE_PREFIXES :: r <= path
  }

  predicate IsAuthRoute(path: string) {
    IsUnder("/login", path) || IsUnder("/register", path)
  }

  function RouteOf(path: string): Route {
    if "/.well-known" <= path then Ignored
    else if path == "/session-refresh" then SessionRefresh
    else if IsAuthRoute(path) then Auth(path == "/login")
    else if IsPublic(path) then Public
    else Protected("/admin" <= path, "/finance" <= path)
  }

  predicate HasAdminAccess(role: string) {
    role == "admin" || role == "manager"
  }

  predicate HasFinanceAccess(role: string) {
    role == "accountant" || role == "manager" || role == "admin"
  }

  function Page(path: string): Url {
    Url(path, [], "")
  }

  function HomeOf(role: string): Url {
    if role == "officer" then Page("/dashboard/officer")
    else if role == "collaborator" then Page("/ctv")
    else Page("/dashboard")
  }

  // ---- the proxy -------------------------------------------------------------------------------------

  // `prefetch`: the router only prefetches this page.
  datatype Request = Request(url: Url, prefetch: bool)

  datatype Answer =
    | Pass(cookies: Cookies)                  // the page is rendered
    | BootstrapPage                           // the page that refreshes the session
    | NoContent
    | Redirect(to: Url, cookies: Cookies)

  function RedirectParam(v: Value): seq<Param> {
    if IsValidRedirect(v) then [Param("redirect", v)] else []
  }

  // `buildSessionRefreshUrl`; `at` is the fingerprint of the token that has expired.
  function SessionRefreshUrl(returnTo: Url, at: string): Url {
    Url("/session-refresh",
        (if IsValidRedirect(Link(returnTo)) then [Param("redirect", Link(StripRsc(returnTo)))] else [])
        + (if at != "" then [Param("at", Text(at))] else []), "")
  }

  function LoginUrl(returnTo: Url): Url {
    Url("/login", RedirectParam(Link(returnTo)), "")
  }

  function ReauthUrl(target: Url): Url {
    Url("/login", [Param("reauth", Text("true"))] + RedirectParam(Link(StripSr(target))), "")
  }

  function TargetOf(u: Url): (t: Url)
    ensures t == Page("/dashboard") || (IsPlainPath(t.path) && !IsAuthPath(t.path))
  {
    var raw := Get(u.query, "redirect");
    if raw.Some? && IsValidRedirect(raw.value) then StripRsc(raw.value.url) else Page("/dashboard")
  }

  // `handleSessionRefresh`
  function HandleSessionRefresh(fp: string -> string, now: int, u: Url, c: Cookies): Answer {
    var target := TargetOf(u);
    var hops := ParseSr(target);
    if hops >= SR_MAX then Redirect(ReauthUrl(target), c)
    else if Get(u.query, "source") == Some(Text("server_401")) then BootstrapPage
    else
      var jti := UsableJti(c, now);
      var at := Get(u.query, "at");
      if jti.Some? && at.Some? && at != Some(Text("")) && at != Some(Text(fp(jti.value)))
      then Redirect(WithSr(target, hops + 1), c)
      else BootstrapPage
  }

  predicate IsFlagged(u: Url, flag: string) {
    Get(u.query, flag) == Some(Text("true"))
  }

  function HandleAuth(now: int, u: Url, login: bool, c: Cookies): Answer {
    if login && IsFlagged(u, "reauth") && !IsFlagged(u, "force_login") then Pass(c.(access := None))
    else if IsFlagged(u, "force_login") then Pass(Cookies(None, false, false))
    else if c.access.Some? && c.access.value.Decoded? && !IsExpired(c.access.value.payload, now)
    then Redirect(HomeOf(c.access.value.payload.role), c)
    else Pass(c)
  }

  function HandleProtected(fp: string -> string, now: int, req: Request, admin: bool, finance: bool,
                           c: Cookies): Answer {
    var here := req.url.(hash := "");
    if c.access.None? then
      if req.prefetch then NoContent else Redirect(SessionRefreshUrl(here, ""), c)
    else if c.access.value.Malformed? then Redirect(LoginUrl(here), c.(access := None))
    else
      var p := c.access.value.payload;
      if IsExpired(p, now) then
        if IsDead(p, now) then Redirect(LoginUrl(here), c.(access := None))
        else if req.prefetch then NoContent
        else Redirect(SessionRefreshUrl(here, if p.jti.NoJti? || p.jti.id == "" then "" else fp(p.jti.id)), c)
      else if admin && !HasAdminAccess(p.role) then Redirect(Page("/dashboard"), c)
      else if finance && !HasFinanceAccess(p.role) then Redirect(Page("/dashboard"), c)
      else if here.path == "/dashboard" && p.role in ["collaborator", "officer"] then Redirect(HomeOf(p.role), c)
      else Pass(c)
  }

  function Proxy(fp: string -> string, now: int, req: Request, c: Cookies): Answer {
    match RouteOf(req.url.path)
    case Ignored => Pass(c)
    case SessionRefresh => HandleSessionRefresh(fp, now, req.url, c)
    case Auth(login) => HandleAuth(now, req.url, login, c)
    case Public => Pass(c)
    case Protected(admin, finance) => HandleProtected(fp, now, req, admin, finance, c)
  }

  // The browser follows a redirect; the fragment stays with it.
  function Follow(req: Request, to: Url): Request {
    Request(to.(hash := ""), req.prefetch)
  }
}
