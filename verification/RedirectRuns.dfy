/** Where the navigation proxy's redirects lead: chains of redirects with everything fixed, and
    whole browsing runs in which clock and cookies change as they like. */
module RedirectRuns {
  import opened Basics
  import opened RedirectProxy

  // ---- what the fixed pages are ----------------------------------------------------------------

  lemma NotPublic(path: string)
    requires |path| > 2 && path[0] == '/' && path[1] !in "lrftcms"
    ensures !IsPublic(path)
  {
    forall r <- PUBLIC_ROUTE_PREFIXES ensures !(r <= path) {
      assert r[1] in "lrftcms";
      assert |r| > 1;
    }
  }

  lemma FixedRoutes()
    ensures RouteOf("/dashboard") == Protected(false, false)
    ensures RouteOf("/dashboard/officer") == Protected(false, false)
    ensures RouteOf("/ctv") == Protected(false, false)
    ensures RouteOf("/login") == Auth(true)
    ensures RouteOf("/session-refresh") == SessionRefresh
  {
    NotPublic("/dashboard");
    NotPublic("/dashboard/officer");
  }

  // Nobody is sent back to an authentication page.
  lemma TargetsAreNoAuthPages(u: Url)
    ensures RouteOf(TargetOf(u).path).Ignored? || RouteOf(TargetOf(u).path).Public?
            || RouteOf(TargetOf(u).path).Protected?
  {
    FixedRoutes();
    assert !IsAuthRoute(TargetOf(u).path) && TargetOf(u).path != "/session-refresh";
  }

  lemma SlashAfter(p: string, path: string)
    ensures IsUnder(p, path) <==> path == p || p + "/" <= path
  {
    if p <= path && |path| > |p| {
      assert p + "/" <= path <==> path[|p|] == '/';
    }
  }

  // A path of this site in plain writing: no scheme, no other host, nothing encoded that would
  // make one of it.
  predicate StaysHere(path: string) {
    && "/" <= path && !("//" <= path) && ':' !in path && '\\' !in path
    && forall i :: 0 <= i < |path| - 2 ==> !IsSlashCode(path, i)
  }

  predicate IsSlashCode(path: string, i: nat)
    requires i < |path| - 2
  {
    path[i] == '%' && ((path[i + 1] == '2' && path[i + 2] in "fF") || (path[i + 1] == '5' && path[i + 2] in "cC"))
  }

  predicate IsAuthPage(path: string) {
    exists p <- ["/login", "/register", "/forgot-password", "/reset-password", "/session-refresh"] ::
      path == p || p + "/" <= path
  }

  // A link to go back to is kept, without its `_rsc`, if and only if it stays on this site and is
  // no authentication page; instead of any other the target is the dashboard.
  lemma TargetIsKeptExactly(u: Url, t: Url)
    requires Get(u.query, "redirect") == Some(Link(t))
    ensures TargetOf(u) == if StaysHere(t.path) && !IsAuthPage(t.path) then StripRsc(t) else Page("/dashboard")
  {
    AuthPathExactly(t.path);
    PlainExactly(t.path);
  }

  lemma AuthPathExactly(path: string)
    ensures IsAuthPath(path) <==> IsAuthPage(path)
  {
    var all := ["/login", "/register", "/forgot-password", "/reset-password", "/session-refresh"];
    assert all[0] == "/login" && all[1] == "/register" && all[2] == "/forgot-password";
    forall p <- all ensures IsUnder(p, path) <==> path == p || p + "/" <= path {
      SlashAfter(p, path);
    }
    assert all[0] in all && all[1] in all && all[2] in all && all[3] in all && all[4] in all;
  }

  lemma PlainExactly(path: string)
    ensures IsPlainPath(path) <==> StaysHere(path)
  {
    forall i | 0 <= i < |path| - 2
      ensures IsEncodedSlash(path, i) <==> IsSlashCode(path, i)
    {
      assert path[i + 1..i + 3] == [path[i + 1], path[i + 2]];
    }
    assert "/" <= path <==> path != "" && path[0] == '/';
  }

  // ---- a chain of redirects, clock and cookies fixed -----------------------------------------------

  // A token that decodes and has not expired.
  predicate IsLive(now: int, c: Cookies) {
    c.access.Some? && c.access.value.Decoded? && !IsExpired(c.access.value.payload, now)
  }

  // How many redirects can follow.
  function Rank(now: int, path: string, c: Cookies): (n: nat)
    ensures n <= 3
  {
    match RouteOf(path)
    case Ignored => 0
    case Public => 0
    case SessionRefresh => if IsLive(now, c) then 3 else 1
    case Auth(_) => if IsLive(now, c) then 2 else 0
    case Protected(admin, finance) =>
      if !IsLive(now, c) then 2 else if admin || finance then 2 else if path == "/dashboard" then 1 else 0
  }

  lemma RefreshDescends(fp: string -> string, now: int, u: Url, c: Cookies)
    requires HandleSessionRefresh(fp, now, u, c).Redirect?
    ensures var a := HandleSessionRefresh(fp, now, u, c);
            a.cookies == c && Rank(now, a.to.path, c) < (if IsLive(now, c) then 3 else 1)
  {
    FixedRoutes();
    TargetsAreNoAuthPages(u);
  }

  predicate IsOwnPage(u: Url) {
    u == Page("/ctv") || u == Page("/dashboard/officer")
  }

  // From a protected page: without a live token to the refresh page or the login page, with
  // one to the dashboard or from there to the role's own.
  lemma ProtectedLeads(fp: string -> string, now: int, req: Request, admin: bool, finance: bool, c: Cookies)
    requires HandleProtected(fp, now, req, admin, finance, c).Redirect?
    ensures var a := HandleProtected(fp, now, req, admin, finance, c);
            if IsLive(now, c) then
              a.cookies == c && if admin || finance then a.to == Page("/dashboard") || IsOwnPage(a.to)
                                else req.url.path == "/dashboard" && IsOwnPage(a.to)
            else (a.to.path == "/session-refresh" && a.cookies == c)
                 || (a.to.path == "/login" && a.cookies.access.None?)
  {
  }

  lemma ProtectedDescends(fp: string -> string, now: int, req: Request, admin: bool, finance: bool, c: Cookies)
    requires RouteOf(req.url.path) == Protected(admin, finance)
    requires HandleProtected(fp, now, req, admin, finance, c).Redirect?
    ensures var a := HandleProtected(fp, now, req, admin, finance, c);
            Rank(now, a.to.path, a.cookies) < Rank(now, req.url.path, c)
  {
    ProtectedLeads(fp, now, req, admin, finance, c);
    FixedRoutes();
  }

  // Every redirect leads to a page from which fewer can follow.
  lemma RedirectDescends(fp: string -> string, now: int, req: Request, c: Cookies)
    requires Proxy(fp, now, req, c).Redirect?
    ensures var a := Proxy(fp, now, req, c); Rank(now, a.to.path, a.cookies) < Rank(now, req.url.path, c)
  {
    FixedRoutes();
    match RouteOf(req.url.path)
    case SessionRefresh => RefreshDescends(fp, now, req.url, c);
    case Protected(admin, finance) => ProtectedDescends(fp, now, req, admin, finance, c);
    case _ =>
  }

  // The browser follows redirects until there is a page; this many. With clock and cookies
  // fixed, but for what the proxy itself deletes, never more than three.
  function Chain(fp: string -> string, now: int, req: Request, c: Cookies): (n: nat)
    ensures n <= Rank(now, req.url.path, c) <= 3
    decreases Rank(now, req.url.path, c)
  {
    var a := Proxy(fp, now, req, c);
    if !a.Redirect? then 0
    else
      RedirectDescends(fp, now, req, c);
      1 + Chain(fp, now, Follow(req, a.to), a.cookies)
  }

  // An officer's live token with id "new".
  function OfficerCookies(now: int): Cookies {
    Cookies(Some(Decoded(Payload("access", At(now + 1), JtiText("new"), "officer"))), true, true)
  }

  function ReturnToAdmin(): Url {
    Url("/session-refresh", [Param("redirect", Link(Page("/admin"))), Param("at", Text("old"))], "")
  }

  lemma ReturnToAdminIsShortcut(fp: string -> string, now: int)
    requires fp("new") != "old"
    ensures HandleSessionRefresh(fp, now, ReturnToAdmin(), OfficerCookies(now)) ==
              Redirect(WithSr(Page("/admin"), 1), OfficerCookies(now))
  {
    assert "/admin"[1] == 'a' && IsPlainPath("/admin");
    assert IsValidRedirect(Link(Page("/admin")));
    ReadsBack(Page("/admin"), "old");
    assert StripRsc(Page("/admin")) == Page("/admin") && SessionRefreshUrl(Page("/admin"), "old") == ReturnToAdmin();
    RefreshAnswer(fp, now, ReturnToAdmin(), "old", OfficerCookies(now), "new");
  }

  lemma OfficerLeavesAdmin(fp: string -> string, now: int, req: Request)
    requires req.url.path == "/admin"
    ensures Chain(fp, now, req, OfficerCookies(now)) == 2
  {
    FixedRoutes();
    NotPublic("/admin");
    var c := OfficerCookies(now);
    assert Proxy(fp, now, req, c) == Redirect(Page("/dashboard"), c);
    var second := Follow(req, Page("/dashboard"));
    assert Proxy(fp, now, second, c) == Redirect(Page("/dashboard/officer"), c);
    var third := Follow(second, Page("/dashboard/officer"));
    assert Proxy(fp, now, third, c) == Pass(c);
    assert Chain(fp, now, second, c) == 1 + Chain(fp, now, third, c);
  }

  // Three do happen: an officer with a new token comes back to an admin page.
  lemma ThreeRedirectsHappen(fp: string -> string, now: int)
    requires fp("new") != "old"
    ensures Chain(fp, now, Request(ReturnToAdmin(), false), OfficerCookies(now)) == 3
  {
    FixedRoutes();
    var first := Request(ReturnToAdmin(), false);
    var c := OfficerCookies(now);
    ReturnToAdminIsShortcut(fp, now);
    var second := Follow(first, WithSr(Page("/admin"), 1));
    OfficerLeavesAdmin(fp, now, second);
    assert Proxy(fp, now, first, c) == Redirect(WithSr(Page("/admin"), 1), c);
  }

  // ---- what a page needs -----------------------------------------------------------------------------

  // A protected page is rendered exactly for a live token whose role may see it (and is not
  // sent to a dashboard of its own).
  lemma ProtectedPageExactly(fp: string -> string, now: int, req: Request, c: Cookies)
    requires RouteOf(req.url.path).Protected?
    ensures Proxy(fp, now, req, c).Pass? <==>
              && IsLive(now, c)
              && var role := c.access.value.payload.role;
                 && ("/admin" <= req.url.path ==> role == "admin" || role == "manager")
                 && ("/finance" <= req.url.path ==> role == "admin" || role == "manager" || role == "accountant")
                 && (req.url.path == "/dashboard" ==> role != "officer" && role != "collaborator")
    ensures Proxy(fp, now, req, c).NoContent? <==>
              req.prefetch && !IsLive(now, c)
              && (c.access.Some? ==> c.access.value.Decoded? && !IsDead(c.access.value.payload, now))
  {
  }

  // The authentication pages are these two and what is below them.
  lemma AuthPagesExactly(path: string)
    ensures RouteOf(path).Auth? <==>
              path == "/login" || path == "/register" || "/login/" <= path || "/register/" <= path
  {
    assert path == "/login" || "/login/" <= path <==> IsUnder("/login", path) by {
      SlashAfter("/login", path);
    }
    assert path == "/register" || "/register/" <= path <==> IsUnder("/register", path) by {
      SlashAfter("/register", path);
    }
    assert "/.well-known"[1] == '.' && "/login"[1] == 'l' && "/register"[1] == 'r' && "/session-refresh"[1] == 's';
  }

  // A live token on a page that its role may not see goes to the dashboard. From there, and from
  // the authentication pages, an officer and a collaborator go to their own.
  lemma LiveTokenGoesHome(fp: string -> string, now: int, req: Request, c: Cookies)
    requires IsLive(now, c)
    ensures var role := c.access.value.payload.role;
            var own := if role == "officer" then "/dashboard/officer" else if role == "collaborator" then "/ctv"
                       else "/dashboard";
            && (RouteOf(req.url.path).Protected? && !Proxy(fp, now, req, c).Pass? ==>
                  Proxy(fp, now, req, c) ==
                    Redirect(Page(if req.url.path == "/dashboard" then own else "/dashboard"), c))
            && (RouteOf(req.url.path).Auth? && !IsFlagged(req.url, "force_login")
                && !(req.url.path == "/login" && IsFlagged(req.url, "reauth")) ==>
                  Proxy(fp, now, req, c) == Redirect(Page(own), c))
  {
    assert "/dashboard"[1] == 'd' && "/admin"[1] == 'a' && "/finance"[1] == 'f';
  }

  // Without one, a protected page that is not just prefetched leads to the login page if the
  // session must be over, and else to the refresh page; and both know the way back.
  lemma WithoutLiveTokenGoesOut(fp: string -> string, now: int, req: Request, c: Cookies)
    requires RouteOf(req.url.path).Protected? && !req.prefetch && !IsLive(now, c)
    ensures var a := Proxy(fp, now, req, c);
            var here := req.url.(hash := "");
            var over := c.access.Some? && (c.access.value.Malformed? || IsDead(c.access.value.payload, now));
            && a.Redirect? && a.to.path == (if over then "/login" else "/session-refresh")
            && TargetOf(a.to) == if IsValidRedirect(Link(here)) then StripRsc(here) else Page("/dashboard")
  {
    var here := req.url.(hash := "");
    DeleteTwice(here.query, "_rsc");
    assert |"redirect"| == 8 && |"at"| == 2;
    assert Get([], "redirect") == None;
    forall at ensures Get(SessionRefreshUrl(here, at).query, "redirect") ==
                        if IsValidRedirect(Link(here)) then Some(Link(StripRsc(here))) else None
    {
      if !IsValidRedirect(Link(here)) && at != "" {
        assert [Param("at", Text(at))][1..] == [];
      }
    }
  }

  // ---- what becomes of the cookies ---------------------------------------------------------------

  function CookiesAfter(a: Answer, c: Cookies): Cookies {
    match a
    case Pass(d) => d
    case Redirect(_, d) => d
    case _ => c
  }

  // The full logout: an authentication page with this flag.
  predicate IsLogout(u: Url) {
    RouteOf(u.path).Auth? && IsFlagged(u, "force_login")
  }

  // The refresh and CSRF cookies are given up by the full logout, and by nothing else.
  lemma SessionIsKept(fp: string -> string, now: int, req: Request, c: Cookies)
    ensures var d := CookiesAfter(Proxy(fp, now, req, c), c);
            && (d.refresh <==> c.refresh && !IsLogout(req.url))
            && (d.csrf <==> c.csrf && !IsLogout(req.url))
  {
  }

  // The access cookie is deleted by the full logout, by the login page that keeps the session,
  // and on a protected page if it is no token or so old that the session must be over; by
  // nothing else, and nothing ever sets or changes it.
  lemma AccessIsDeletedExactly(fp: string -> string, now: int, req: Request, c: Cookies)
    ensures CookiesAfter(Proxy(fp, now, req, c), c).access ==
              if || IsLogout(req.url)
                 || (req.url.path == "/login" && IsFlagged(req.url, "reauth"))
                 || (RouteOf(req.url.path).Protected? && c.access.Some?
                     && (c.access.value.Malformed? || IsDead(c.access.value.payload, now)))
              then None else c.access
  {
    FixedRoutes();
  }

  // After the full logout, whose page is rendered, nothing is left: every request from then on
  // comes without a token, sees no protected page, and still has no cookie afterwards.
  lemma LogoutLeavesNothing(fp: string -> string, now: int, req: Request, c: Cookies, next: Request, then': int)
    requires IsLogout(req.url)
    ensures Proxy(fp, now, req, c) == Pass(Cookies(None, false, false))
    ensures var d := CookiesAfter(Proxy(fp, now, req, c), c);
            && UsableJti(d, then') == None
            && (RouteOf(next.url.path).Protected? ==> !Proxy(fp, then', next, d).Pass?)
            && CookiesAfter(Proxy(fp, then', next, d), d) == Cookies(None, false, false)
  {
    var d := Cookies(None, false, false);
    SessionIsKept(fp, then', next, d);
    AccessIsDeletedExactly(fp, then', next, d);
    if RouteOf(next.url.path).Protected? {
      ProtectedPageExactly(fp, then', next, d);
    }
  }

  // ---- the cap on rescue rounds ------------------------------------------------------------------------

  // The target as it comes back after n rounds through the refresh page.
  function AfterRounds(target: Url, n: nat): Url {
    if n == 0 then target
    else
      var t := AfterRounds(target, n - 1);
      WithSr(t, ParseSr(t) + 1)
  }

  lemma {:induction false} RoundsAreCounted(target: Url, n: nat)
    ensures ParseSr(AfterRounds(target, n)) == Min(ParseSr(target) + n, SR_MAX)
    ensures StripSr(AfterRounds(target, n)) == StripSr(target)
  {
    if n > 0 {
      RoundsAreCounted(target, n - 1);
      var t := AfterRounds(target, n - 1);
      CounterRoundTrip(t, ParseSr(t) + 1);
    }
  }

  // Whatever clock and cookies do: a target gets its shortcut or its bootstrap page exactly
  // SR_MAX times; then comes the login page, which knows the target without the counter.
  lemma CapClosesAfterTwo(fp: string -> string, now: int, u: Url, target: Url, n: nat, c: Cookies)
    requires TargetOf(u) == AfterRounds(target, n)
    ensures var a := HandleSessionRefresh(fp, now, u, c);
            if ParseSr(target) + n < SR_MAX
            then a == BootstrapPage || a == Redirect(AfterRounds(target, n + 1), c)
            else a == Redirect(ReauthUrl(target), c)
  {
    RoundsAreCounted(target, n);
  }

  // And there it ends: that page is rendered whatever the cookies are by then, and without
  // giving up the session.
  lemma ReauthIsFinal(fp: string -> string, now: int, target: Url, prefetch: bool, c: Cookies)
    ensures Proxy(fp, now, Request(ReauthUrl(target), prefetch), c) == Pass(c.(access := None))
    ensures GetAll(StripSr(target).query, "_sr") == []
  {
    FixedRoutes();
    CounterRoundTrip(target, 0);
    FlagsOfReauth(target);
  }

  lemma FlagsOfReauth(target: Url)
    ensures IsFlagged(ReauthUrl(target), "reauth") && !IsFlagged(ReauthUrl(target), "force_login")
  {
    var q := ReauthUrl(target).query;
    assert q[0] == Param("reauth", Text("true"));
    assert q[1..] == RedirectParam(Link(StripSr(target)));
    assert |"redirect"| == 8 && |"reauth"| == 6 && |"force_login"| == 11;
    assert Get(q, "force_login") == Get(q[1..], "force_login");
    if q[1..] != [] {
      assert q[1..][1..] == [];
      assert Get(q[1..], "force_login") == Get(q[1..][1..], "force_login");
    }
  }

  // ---- there and back ---------------------------------------------------------------------------------------

  // A page whose token has expired is sent to the refresh page under the token's
  // fingerprint. Coming back with a usable token, it goes straight to where it was, one round
  // up, if and only if that token is another one.
  lemma RescueRoundTrip(fp: string -> string, now: int, req: Request, c: Cookies, now': int, c': Cookies, next: string)
    requires RouteOf(req.url.path).Protected? && !req.prefetch && IsValidRedirect(Link(req.url.(hash := "")))
    requires c.access.Some? && c.access.value.Decoded? && ParseSr(req.url) < SR_MAX
    requires var p := c.access.value.payload;
             IsExpired(p, now) && !IsDead(p, now) && p.jti.JtiText? && p.jti.id != "" && fp(p.jti.id) != ""
    requires UsableJti(c', now') == Some(next)
    ensures var a := Proxy(fp, now, req, c);
            && a.Redirect? && a.cookies == c
            && Proxy(fp, now', Follow(req, a.to), c') ==
                 if fp(next) == fp(c.access.value.payload.jti.id) then BootstrapPage
                 else Redirect(WithSr(StripRsc(req.url.(hash := "")), ParseSr(req.url) + 1), c')
  {
    var here := req.url.(hash := "");
    var at := fp(c.access.value.payload.jti.id);
    SentOut(fp, now, req, c);
    StraightBack(fp, now', Follow(req, SessionRefreshUrl(here, at)), here, at, c', next);
  }

  lemma StraightBack(fp: string -> string, now: int, req: Request, here: Url, at: string, c: Cookies, next: string)
    requires req.url == SessionRefreshUrl(here, at) && !req.prefetch && at != ""
    requires IsValidRedirect(Link(here)) && ParseSr(here) < SR_MAX && UsableJti(c, now) == Some(next)
    ensures Proxy(fp, now, req, c) ==
              if fp(next) == at then BootstrapPage else Redirect(WithSr(StripRsc(here), ParseSr(here) + 1), c)
  {
    ReadsBack(here, at);
    CounterRoundTrip(here, 0);
    RefreshAnswer(fp, now, req.url, at, c, next);
    RefreshRoute(fp, now, req, c);
  }

  lemma RefreshRoute(fp: string -> string, now: int, req: Request, c: Cookies)
    requires req.url.path == "/session-refresh"
    ensures Proxy(fp, now, req, c) == HandleSessionRefresh(fp, now, req.url, c)
  {
    FixedRoutes();
  }

  lemma RefreshAnswer(fp: string -> string, now: int, u: Url, at: string, c: Cookies, next: string)
    requires ParseSr(TargetOf(u)) < SR_MAX && UsableJti(c, now) == Some(next)
    requires Get(u.query, "at") == Some(Text(at)) && at != "" && Get(u.query, "source") == None
    ensures HandleSessionRefresh(fp, now, u, c) ==
              if fp(next) == at then BootstrapPage else Redirect(WithSr(TargetOf(u), ParseSr(TargetOf(u)) + 1), c)
  {
  }

  lemma SentOut(fp: string -> string, now: int, req: Request, c: Cookies)
    requires RouteOf(req.url.path).Protected? && !req.prefetch
    requires c.access.Some? && c.access.value.Decoded? && ParseSr(req.url) < SR_MAX
    requires var p := c.access.value.payload;
             IsExpired(p, now) && !IsDead(p, now) && p.jti.JtiText? && p.jti.id != "" && fp(p.jti.id) != ""
    ensures Proxy(fp, now, req, c) ==
              Redirect(SessionRefreshUrl(req.url.(hash := ""), fp(c.access.value.payload.jti.id)), c)
  {
  }

  lemma ReadsBack(here: Url, at: string)
    requires IsValidRedirect(Link(here)) && at != ""
    ensures var u := SessionRefreshUrl(here, at);
            && TargetOf(u) == StripRsc(here)
            && Get(u.query, "at") == Some(Text(at)) && Get(u.query, "source") == None
  {
    var q := SessionRefreshUrl(here, at).query;
    assert |"redirect"| == 8 && |"source"| == 6 && |"at"| == 2;
    assert q == [Param("redirect", Link(StripRsc(here))), Param("at", Text(at))];
    assert q[1..] == [Param("at", Text(at))] && q[1..][1..] == [];
    assert Get(q[1..], "source") == Get(q[1..][1..], "source") == None;
    DeleteTwice(here.query, "_rsc");
  }

  // The refresh page goes straight back, before the cap, exactly for an access token that has not
  // expired, is named, and is another one than the one that did expire.
  lemma ShortcutExactly(fp: string -> string, now: int, u: Url, c: Cookies)
    requires ParseSr(TargetOf(u)) < SR_MAX
    ensures HandleSessionRefresh(fp, now, u, c).Redirect? <==>
              && Get(u.query, "source") != Some(Text("server_401"))
              && c.access.Some? && c.access.value.Decoded?
              && var p := c.access.value.payload;
                 && p.kind == "access" && p.exp.At? && now < p.exp.ms && p.jti.JtiText? && p.jti.id != ""
                 && Get(u.query, "at").Some?
                 && Get(u.query, "at").value !in [Text(""), Text(fp(p.jti.id))]
  {
  }

  // A page that the server refused never gets the shortcut, whatever its token.
  lemma RefusedTakesNoShortcut(fp: string -> string, now: int, page: Url, c: Cookies)
    ensures var u := ServerRefusedUrl(page);
            HandleSessionRefresh(fp, now, u, c) ==
              if ParseSr(TargetOf(u)) >= SR_MAX then Redirect(ReauthUrl(TargetOf(u)), c) else BootstrapPage
  {
    var q := ServerRefusedUrl(page).query;
    assert |"redirect"| == 8 && |"source"| == 6;
    assert q[1..] == [Param("source", Text("server_401"))];
    assert Get(q, "source") == Get(q[1..], "source");
  }

  // ---- whole runs -------------------------------------------------------------------------------------------

  // What happens on a page after it was answered, besides following redirects.
  datatype Deed =
    | Nothing
    | ServerRefused    // its server components got a 401 from the API (lib/api/server.ts)
    | Refreshed        // the bootstrap page got a new token (SessionRefreshBootstrap.tsx)
    | SessionOver      // or was told that the session has ended
    | AskedToLogin     // or failed for the moment, and the user chose to log in again

  /** One step of a run: what clock and cookies are at that moment, and the deed. */
  datatype Moment = Moment(now: int, cookies: Cookies, deed: Deed)

  function BootstrapTarget(u: Url): Url {
    var raw := Get(u.query, "redirect");
    if raw.Some? && IsValidRedirect(raw.value) then raw.value.url else Page("/dashboard")
  }

  function ForcedLoginUrl(target: Url): Url {
    Url("/login", [Param("force_login", Text("true")), Param("reason", Text("session_expired"))]
                  + RedirectParam(Link(StripSr(target))), "")
  }

  // The proxy hands the path on to server components of protected pages only.
  function ServerRefusedUrl(u: Url): Url {
    var here := u.(hash := "");
    var target := if RouteOf(u.path).Protected? && IsValidRedirect(Link(here)) then StripRsc(here)
                  else Page("/dashboard");
    Url("/session-refresh", [Param("redirect", Link(target)), Param("source", Text("server_401"))], "")
  }

  // The next request, if there is one.
  function NextRequest(fp: string -> string, req: Request, m: Moment): Option<Request> {
    match Proxy(fp, m.now, req, m.cookies)
    case Redirect(to, _) => Some(Follow(req, to))
    case NoContent => None
    case BootstrapPage => AfterBootstrap(req, m.deed)
    case Pass(_) =>
      if m.deed.ServerRefused? && (RouteOf(req.url.path).Protected? || RouteOf(req.url.path).Public?)
      then Some(Follow(req, ServerRefusedUrl(req.url))) else None
  }

  function AfterBootstrap(req: Request, deed: Deed): Option<Request> {
    var target := BootstrapTarget(req.url);
    match deed
    case Refreshed => Some(Request(WithSr(target, ParseSr(target) + 1).(hash := ""), false))
    case SessionOver => Some(Request(ForcedLoginUrl(target), false))
    case AskedToLogin => Some(Request(ReauthUrl(target), false))
    case _ => None
  }

  // The token is no token, or so old that the session is over: the proxy asks for a login.
  predicate TokenIsLost(req: Request, m: Moment) {
    && RouteOf(req.url.path).Protected? && m.cookies.access.Some?
    && (m.cookies.access.value.Malformed? || IsDead(m.cookies.access.value.payload, m.now))
  }

  // How far down the pages a run can still go: pages that are no return target, pages for
  // some roles, the dashboard, all others.
  function Depth(path: string): (n: nat)
    ensures n <= 3
  {
    match RouteOf(path)
    case Ignored => 0
    case Protected(admin, finance) =>
      if !IsPlainPath(path) then 3 else if admin || finance then 2 else if path == "/dashboard" then 1 else 0
    case _ => 3
  }

  predicate StaysOnLogin(u: Url, login: bool) {
    IsFlagged(u, "force_login") || (login && IsFlagged(u, "reauth"))
  }

  // Two steps for each round that is left on a page, five for each page further down.
  function Potential(req: Request): (n: nat)
    ensures n <= 22
  {
    match RouteOf(req.url.path)
    case SessionRefresh => 5 * Depth(TargetOf(req.url).path) + 2 * (SR_MAX - ParseSr(TargetOf(req.url))) + 1
    case Auth(login) => if StaysOnLogin(req.url, login) then 0 else 22
    case _ => 5 * Depth(req.url.path) + 2 * (SR_MAX - ParseSr(req.url)) + 2
  }

  lemma ProtectedIsNoAuthPath(path: string)
    requires RouteOf(path).Protected?
    ensures !IsAuthPath(path)
  {
    var r := PUBLIC_ROUTE_PREFIXES;
    assert r[0] == "/login" && r[1] == "/register" && r[3] == "/forgot-password" && r[4] == "/reset-password"
      && r[9] == "/session-refresh";
    assert forall i :: 0 <= i < 10 ==> r[i] in r;
  }

  // A page and the target made of it count the same rounds on the same page.
  lemma RefreshUrlKeepsTarget(here: Url, rest: seq<Param>)
    requires IsValidRedirect(Link(here))
    ensures var u := Url("/session-refresh", [Param("redirect", Link(StripRsc(here)))] + rest, "");
            TargetOf(u).path == here.path && ParseSr(TargetOf(u)) == ParseSr(here)
  {
    var u := Url("/session-refresh", [Param("redirect", Link(StripRsc(here)))] + rest, "");
    assert u.query[0] == Param("redirect", Link(StripRsc(here)));
    CounterRoundTrip(here, 0);
    CounterRoundTrip(StripRsc(here), 0);
  }

  lemma PlainPage(path: string)
    requires RouteOf(path) == Protected(false, false) && IsPlainPath(path)
    ensures Depth(path) == if path == "/dashboard" then 1 else 0
    ensures forall b :: Potential(Request(Page(path), b)) == if path == "/dashboard" then 11 else 6
  {
  }

  lemma DashboardPage()
    ensures Depth("/dashboard") == 1
    ensures forall b :: Potential(Request(Page("/dashboard"), b)) == 11
  {
    FixedRoutes();
    assert "/dashboard"[1] == 'd';
    PlainPage("/dashboard");
  }

  lemma OwnPages()
    ensures forall u, b :: IsOwnPage(u) ==> Potential(Request(u, b)) == 6
  {
    FixedRoutes();
    assert "/dashboard/officer"[1] == 'd' && "/ctv"[1] == 'c';
    PlainPage("/dashboard/officer");
    PlainPage("/ctv");
  }

  // The refresh page with nothing better to go back to than the dashboard.
  lemma RefreshOfDashboard(u: Url, b: bool)
    requires u.path == "/session-refresh" && TargetOf(u) == Page("/dashboard")
    ensures Potential(Request(u, b)) == 10
  {
    FixedRoutes();
    DashboardPage();
  }

  lemma LoginPagesAreFinal(target: Url, prefetch: bool)
    ensures Potential(Request(ReauthUrl(target), prefetch)) == 0
    ensures Potential(Request(ForcedLoginUrl(target), prefetch)) == 0
  {
    FixedRoutes();
    FlagsOfReauth(target);
    assert IsFlagged(ForcedLoginUrl(target), "force_login");
  }

  // Back on the page there is one round less to go.
  lemma BackOnPage(u: Url, t: Url, prefetch: bool)
    requires t.path == TargetOf(u).path && ParseSr(t) == ParseSr(TargetOf(u)) < SR_MAX
    ensures Potential(Request(WithSr(t, ParseSr(t) + 1).(hash := ""), prefetch)) + 1
            == 5 * Depth(TargetOf(u).path) + 2 * (SR_MAX - ParseSr(TargetOf(u))) + 1
  {
    TargetsAreNoAuthPages(u);
    CounterRoundTrip(t, ParseSr(t) + 1);
  }

  lemma SameTarget(u: Url)
    ensures BootstrapTarget(u).path == TargetOf(u).path && ParseSr(BootstrapTarget(u)) == ParseSr(TargetOf(u))
  {
    CounterRoundTrip(BootstrapTarget(u), 0);
  }

  lemma AfterBootstrapDescends(req: Request, deed: Deed)
    requires ParseSr(TargetOf(req.url)) < SR_MAX && AfterBootstrap(req, deed).Some?
    ensures Potential(AfterBootstrap(req, deed).value)
            < 5 * Depth(TargetOf(req.url).path) + 2 * (SR_MAX - ParseSr(TargetOf(req.url))) + 1
  {
    if deed.Refreshed? {
      RefreshedDescends(req.url);
    } else {
      LoginPagesAreFinal(BootstrapTarget(req.url), false);
    }
  }

  lemma RefreshedDescends(u: Url)
    requires ParseSr(TargetOf(u)) < SR_MAX
    ensures var t := BootstrapTarget(u);
            Potential(Request(WithSr(t, ParseSr(t) + 1).(hash := ""), false))
            < 5 * Depth(TargetOf(u).path) + 2 * (SR_MAX - ParseSr(TargetOf(u))) + 1
  {
    SameTarget(u);
    BackOnPage(u, BootstrapTarget(u), false);
  }

  lemma RefreshPageDescends(fp: string -> string, req: Request, m: Moment)
    requires RouteOf(req.url.path).SessionRefresh? && NextRequest(fp, req, m).Some?
    ensures Potential(NextRequest(fp, req, m).value) < Potential(req)
  {
    var u := req.url;
    var a := HandleSessionRefresh(fp, m.now, u, m.cookies);
    assert Proxy(fp, m.now, req, m.cookies) == a;
    if ParseSr(TargetOf(u)) >= SR_MAX {
      LoginPagesAreFinal(TargetOf(u), req.prefetch);
      assert Follow(req, a.to) == Request(ReauthUrl(TargetOf(u)), req.prefetch);
    } else if a.Redirect? {
      BackOnPage(u, TargetOf(u), req.prefetch);
    } else {
      AfterBootstrapDescends(req, m.deed);
    }
  }

  lemma AuthPageDescends(fp: string -> string, req: Request, m: Moment)
    requires RouteOf(req.url.path).Auth? && NextRequest(fp, req, m).Some?
    ensures Potential(NextRequest(fp, req, m).value) < Potential(req)
  {
    DashboardPage();
    OwnPages();
  }

  // From a valid page to the refresh page.
  lemma ToRefreshOfPage(here: Url, rest: seq<Param>, prefetch: bool)
    requires RouteOf(here.path).Protected? && IsValidRedirect(Link(here))
    ensures var u := Url("/session-refresh", [Param("redirect", Link(StripRsc(here)))] + rest, "");
            Potential(Request(u, prefetch)) < Potential(Request(here, prefetch))
  {
    FixedRoutes();
    RefreshUrlKeepsTarget(here, rest);
  }

  // From a page that is no return target.
  lemma ToRefreshOfDashboard(here: Url, u: Url, prefetch: bool)
    requires RouteOf(here.path).Protected? && !IsValidRedirect(Link(here))
    requires u.path == "/session-refresh" && TargetOf(u) == Page("/dashboard")
    ensures Potential(Request(u, prefetch)) < Potential(Request(here, prefetch))
  {
    ProtectedIsNoAuthPath(here.path);
    RefreshOfDashboard(u, prefetch);
  }

  lemma FallbackTarget(at: string)
    ensures TargetOf(Url("/session-refresh", if at != "" then [Param("at", Text(at))] else [], "")) ==
              Page("/dashboard")
  {
    assert |"redirect"| == 8 && |"at"| == 2;
    if at != "" {
      var q := [Param("at", Text(at))];
      assert q[1..] == [] && q[0].name == "at";
      assert Get(q, "redirect") == Get(q[1..], "redirect") == None;
    }
  }

  lemma DashboardTarget(rest: seq<Param>)
    ensures TargetOf(Url("/session-refresh", [Param("redirect", Link(Page("/dashboard")))] + rest, "")) ==
              Page("/dashboard")
  {
    var q := [Param("redirect", Link(Page("/dashboard")))] + rest;
    assert q[0] == Param("redirect", Link(Page("/dashboard")));
  }

  // From a protected page to the refresh page, by the proxy.
  lemma ToRefreshDescends(here: Url, prefetch: bool, at: string)
    requires RouteOf(here.path).Protected? && here.hash == ""
    ensures Potential(Request(SessionRefreshUrl(here, at), prefetch)) < Potential(Request(here, prefetch))
  {
    var rest := if at != "" then [Param("at", Text(at))] else [];
    if IsValidRedirect(Link(here)) {
      ToRefreshOfPage(here, rest, prefetch);
    } else {
      assert [] + rest == rest;
      FallbackTarget(at);
      ToRefreshOfDashboard(here, SessionRefreshUrl(here, at), prefetch);
    }
  }

  // The same by the server.
  lemma RefusalDescends(here: Url, prefetch: bool)
    requires RouteOf(here.path).Protected? && here.hash == ""
    ensures Potential(Request(ServerRefusedUrl(here), prefetch)) < Potential(Request(here, prefetch))
  {
    var source := [Param("source", Text("server_401"))];
    if IsValidRedirect(Link(here)) {
      ToRefreshOfPage(here, source, prefetch);
      assert ServerRefusedUrl(here).query == [Param("redirect", Link(StripRsc(here)))] + source;
    } else {
      DashboardTarget(source);
      assert ServerRefusedUrl(here).query == [Param("redirect", Link(Page("/dashboard")))] + source;
      ToRefreshOfDashboard(here, ServerRefusedUrl(here), prefetch);
    }
  }

  lemma PublicPageDescends(fp: string -> string, req: Request, m: Moment)
    requires RouteOf(req.url.path).Public? && NextRequest(fp, req, m).Some?
    ensures Potential(NextRequest(fp, req, m).value) < Potential(req)
  {
    var u := ServerRefusedUrl(req.url);
    assert NextRequest(fp, req, m).value == Request(u, req.prefetch);
    DashboardTarget([Param("source", Text("server_401"))]);
    assert u.query == [Param("redirect", Link(Page("/dashboard")))] + [Param("source", Text("server_401"))];
    RefreshOfDashboard(u, req.prefetch);
  }

  // Without a live token: to the refresh page, unless the token is lost.
  lemma DeadLeads(fp: string -> string, req: Request, admin: bool, finance: bool, m: Moment)
    requires RouteOf(req.url.path).Protected? && !IsLive(m.now, m.cookies) && !TokenIsLost(req, m)
    requires HandleProtected(fp, m.now, req, admin, finance, m.cookies).Redirect?
    ensures exists at :: HandleProtected(fp, m.now, req, admin, finance, m.cookies).to ==
              SessionRefreshUrl(req.url.(hash := ""), at)
  {
    var here := req.url.(hash := "");
    var c := m.cookies;
    if c.access.None? {
      assert HandleProtected(fp, m.now, req, admin, finance, c).to == SessionRefreshUrl(here, "");
    } else {
      var p := c.access.value.payload;
      var at := if p.jti.NoJti? || p.jti.id == "" then "" else fp(p.jti.id);
      assert HandleProtected(fp, m.now, req, admin, finance, c).to == SessionRefreshUrl(here, at);
    }
  }

  lemma ProtectedPageDescends(fp: string -> string, req: Request, admin: bool, finance: bool, m: Moment)
    requires RouteOf(req.url.path) == Protected(admin, finance) && !TokenIsLost(req, m)
    requires HandleProtected(fp, m.now, req, admin, finance, m.cookies).Redirect?
    ensures Potential(Follow(req, HandleProtected(fp, m.now, req, admin, finance, m.cookies).to)) < Potential(req)
  {
    DashboardPage();
    OwnPages();
    var here := req.url.(hash := "");
    var a := HandleProtected(fp, m.now, req, admin, finance, m.cookies);
    assert Potential(Request(here, req.prefetch)) == Potential(req);
    ProtectedLeads(fp, m.now, req, admin, finance, m.cookies);
    if !IsLive(m.now, m.cookies) {
      DeadLeads(fp, req, admin, finance, m);
      var at :| a.to == SessionRefreshUrl(here, at);
      ToRefreshDescends(here, req.prefetch, at);
    }
  }

  lemma ServerRefusedDescends(fp: string -> string, req: Request, m: Moment)
    requires RouteOf(req.url.path).Protected? && Proxy(fp, m.now, req, m.cookies).Pass? && NextRequest(fp, req, m).Some?
    ensures Potential(NextRequest(fp, req, m).value) < Potential(req)
  {
    var here := req.url.(hash := "");
    RefusalDescends(here, req.prefetch);
    assert ServerRefusedUrl(req.url) == ServerRefusedUrl(here);
    assert NextRequest(fp, req, m).value == Request(ServerRefusedUrl(req.url), req.prefetch);
    assert Potential(Request(here, req.prefetch)) == Potential(req);
  }

  // Every step of a run gets further down, except when the token is lost.
  lemma StepDescends(fp: string -> string, req: Request, m: Moment)
    requires NextRequest(fp, req, m).Some? && !TokenIsLost(req, m)
    ensures Potential(NextRequest(fp, req, m).value) < Potential(req)
  {
    match RouteOf(req.url.path)
    case Ignored =>
    case SessionRefresh => RefreshPageDescends(fp, req, m);
    case Auth(_) => AuthPageDescends(fp, req, m);
    case Public => PublicPageDescends(fp, req, m);
    case Protected(admin, finance) =>
      ProtectedStepDescends(fp, req, admin, finance, m);
  }

  lemma ProtectedStepDescends(fp: string -> string, req: Request, admin: bool, finance: bool, m: Moment)
    requires RouteOf(req.url.path) == Protected(admin, finance) && NextRequest(fp, req, m).Some? && !TokenIsLost(req, m)
    ensures Potential(NextRequest(fp, req, m).value) < Potential(req)
  {
    var a := Proxy(fp, m.now, req, m.cookies);
    assert a == HandleProtected(fp, m.now, req, admin, finance, m.cookies);
    if a.Redirect? {
      ProtectedPageDescends(fp, req, admin, finance, m);
    } else if a.Pass? {
      ServerRefusedDescends(fp, req, m);
    }
  }

  // The steps a run takes, and on how many of them the token was lost.
  function Steps(fp: string -> string, req: Request, ms: seq<Moment>): nat
    decreases |ms|
  {
    if ms == [] || NextRequest(fp, req, ms[0]).None? then 0
    else 1 + Steps(fp, NextRequest(fp, req, ms[0]).value, ms[1..])
  }

  function Losses(fp: string -> string, req: Request, ms: seq<Moment>): nat
    decreases |ms|
  {
    if ms == [] || NextRequest(fp, req, ms[0]).None? then 0
    else (if TokenIsLost(req, ms[0]) then 1 else 0) + Losses(fp, NextRequest(fp, req, ms[0]).value, ms[1..])
  }

  // However clock, cookies, servers and refreshes behave: a run that never loses its token
  // ends within 22 steps, and each loss allows for at most 23 more.
  lemma {:induction false} RunsEnd(fp: string -> string, req: Request, ms: seq<Moment>)
    ensures Steps(fp, req, ms) <= Potential(req) + 23 * Losses(fp, req, ms) <= 22 + 23 * Losses(fp, req, ms)
    decreases |ms|
  {
    if ms != [] && NextRequest(fp, req, ms[0]).Some? {
      RunsEnd(fp, NextRequest(fp, req, ms[0]).value, ms[1..]);
      if !TokenIsLost(req, ms[0]) {
        StepDescends(fp, req, ms[0]);
      }
    }
  }

  // A cookie that is no token, then a good one, over and over.
  function Flapping(n: nat): seq<Moment> {
    if n == 0 then []
    else
      [Moment(0, Cookies(Some(Malformed), true, true), Nothing),
       Moment(0, Cookies(Some(Decoded(Payload("access", At(1), JtiText("a"), "manager"))), true, true), Nothing)]
         + Flapping(n - 1)
  }

  // One turn of the flapping: to the login page and back.
  lemma LossAndReturn(fp: string -> string)
    ensures var dashboard := Request(Page("/dashboard"), false);
            && NextRequest(fp, dashboard, Flapping(1)[0]) == Some(Request(LoginUrl(Page("/dashboard")), false))
            && NextRequest(fp, Request(LoginUrl(Page("/dashboard")), false), Flapping(1)[1]) == Some(dashboard)
  {
    FixedRoutes();
    LoginHasNoFlags(Page("/dashboard"));
    assert Flapping(1) == Flapping(1)[..2] + Flapping(0);
  }

  lemma FlappingUnrolls(n: nat)
    requires n > 0
    ensures var ms := Flapping(n);
            |ms| >= 2 && ms[0] == Flapping(1)[0] && ms[1] == Flapping(1)[1] && ms[2..] == Flapping(n - 1)
  {
  }

  lemma TwoSteps(fp: string -> string, a: Request, b: Request, ms: seq<Moment>)
    requires |ms| >= 2 && NextRequest(fp, a, ms[0]) == Some(b) && NextRequest(fp, b, ms[1]) == Some(a)
    ensures Steps(fp, a, ms) == 2 + Steps(fp, a, ms[2..])
  {
    assert ms[1..][0] == ms[1] && ms[1..][1..] == ms[2..];
    assert Steps(fp, b, ms[1..]) == 1 + Steps(fp, a, ms[2..]);
  }

  lemma {:induction false} BackAndForth(fp: string -> string, a: Request, b: Request, n: nat)
    requires NextRequest(fp, a, Flapping(1)[0]) == Some(b) && NextRequest(fp, b, Flapping(1)[1]) == Some(a)
    ensures Steps(fp, a, Flapping(n)) == 2 * n
    decreases n
  {
    if n > 0 {
      FlappingUnrolls(n);
      BackAndForth(fp, a, b, n - 1);
      TwoSteps(fp, a, b, Flapping(n));
    }
  }

  // Losses have to be counted: with a cookie that flaps, a run goes on for as long as it does,
  // between the dashboard and the login page.
  lemma LossesCanGoOn(fp: string -> string, n: nat)
    ensures Steps(fp, Request(Page("/dashboard"), false), Flapping(n)) == 2 * n
  {
    LossAndReturn(fp);
    BackAndForth(fp, Request(Page("/dashboard"), false), Request(LoginUrl(Page("/dashboard")), false), n);
  }

  lemma LoginHasNoFlags(returnTo: Url)
    ensures !IsFlagged(LoginUrl(returnTo), "reauth") && !IsFlagged(LoginUrl(returnTo), "force_login")
  {
    var q := LoginUrl(returnTo).query;
    assert |"redirect"| == 8 && |"reauth"| == 6 && |"force_login"| == 11;
    if q != [] {
      assert q[1..] == [];
      assert Get(q, "reauth") == Get(q[1..], "reauth") && Get(q, "force_login") == Get(q[1..], "force_login");
    }
  }
}
