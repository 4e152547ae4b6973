/** proxy.ts: the route gate run before a page is served. It looks up the
    first configured route the path falls under, then decides from the
    `accessToken` and `userRole` cookies whether to let the request through
    or redirect it to the login page. */
module Proxy {
  import opened Js

  datatype RouteConfig = RouteConfig(route: string, requiresAuth: bool, allowedRoles: seq<string>)

  /** `routeConfig`, in the order `Object.entries` lists it. */
  const RouteTable: seq<RouteConfig> := [
    RouteConfig("/posts", true, ["user", "admin", "superadmin"]),
    RouteConfig("/chat", true, ["user", "admin", "superadmin"]),
    RouteConfig("/dashboard", true, ["admin", "superadmin"]),
    RouteConfig("/lazy-loading", false, [])
  ]

  const AccessTokenCookie := "accessToken"
  const UserRoleCookie := "userRole"

  /** The response: let the request through, or redirect to the login page
      with `?redirect=<path>` or with `?error=unauthorized`. */
  datatype Decision = Next | RedirectToLogin(redirect: string) | RedirectUnauthorized

  /** A path falls under a route when it is the route or lies below it. */
  predicate Matches(pathname: string, route: string) {
    pathname == route || StartsWith(pathname, route + "/")
  }

  /** The `find` over the table: the first route the path falls under. */
  function FindRoute(table: seq<RouteConfig>, pathname: string): (r: Option<RouteConfig>)
    ensures r.Some? ==> r.value in table && Matches(pathname, r.value.route)
    ensures r.None? <==> forall c | c in table :: !Matches(pathname, c.route)
  {
    if table == [] then None
    else if Matches(pathname, table[0].route) then Some(table[0])
    else FindRoute(table[1..], pathname)
  }

  /** A cookie's value, `undefined` when it is not set. */
  function Cookie(cookies: map<string, string>, name: string): (r: Option<string>)
    ensures r.Some? <==> name in cookies
    ensures r.Some? ==> r.value == cookies[name]
  {
    if name in cookies then Some(cookies[name]) else None
  }

  /** `proxy(request)` for the request's path and cookie jar. Paths under
      no configured route pass; only a missing access token sends a client
      to the login page, with the path to come back to; a role cookie is
      needed to be refused, so a token without one always passes. */
  function Gate(pathname: string, cookies: map<string, string>): (d: Decision)
    ensures (forall c | c in RouteTable :: !Matches(pathname, c.route)) ==> d == Next
    ensures d.RedirectToLogin? ==> d.redirect == pathname && !Truthy(Cookie(cookies, AccessTokenCookie))
    ensures d.RedirectUnauthorized? ==>
      Truthy(Cookie(cookies, AccessTokenCookie)) && Truthy(Cookie(cookies, UserRoleCookie))
    ensures Truthy(Cookie(cookies, AccessTokenCookie)) && !Truthy(Cookie(cookies, UserRoleCookie)) ==> d == Next
  {
    var accessToken := Cookie(cookies, AccessTokenCookie);
    var userRole := Cookie(cookies, UserRoleCookie);
    match FindRoute(RouteTable, pathname)
    case None => Next
    case Some(config) =>
      if !config.requiresAuth then Next
      else if !Truthy(accessToken) then RedirectToLogin(pathname)
      else if |config.allowedRoles| > 0 && Truthy(userRole) && userRole.value !in config.allowedRoles then RedirectUnauthorized
      else Next
  }

  /** No route is a prefix of another. */
  predicate PrefixFree(table: seq<RouteConfig>) {
    forall i, j | 0 <= i < |table| && 0 <= j < |table| && i != j :: !(table[i].route <= table[j].route)
  }

  lemma RouteTableIsPrefixFree()
    ensures PrefixFree(RouteTable)
  {
    forall i, j | 0 <= i < |RouteTable| && 0 <= j < |RouteTable| && i != j
      ensures !(RouteTable[i].route <= RouteTable[j].route)
    {
      var a, b := RouteTable[i].route, RouteTable[j].route;
      // the second characters p, c, d, l tell the routes apart
      assert a[1] != b[1] by {
        assert RouteTable[0].route[1] == 'p' && RouteTable[1].route[1] == 'c';
        assert RouteTable[2].route[1] == 'd' && RouteTable[3].route[1] == 'l';
      }
    }
  }

  /** Two routes a path falls under are prefixes of one another. */
  lemma MatchesArePrefixes(pathname: string, r1: string, r2: string)
    requires Matches(pathname, r1) && Matches(pathname, r2) && |r1| <= |r2|
    ensures r1 <= r2
  {
    assert pathname[..|r1|] == r1 by {
      if pathname != r1 {
        assert (r1 + "/")[..|r1|] == r1;
      }
    }
    assert pathname[..|r2|] == r2 by {
      if pathname != r2 {
        assert (r2 + "/")[..|r2|] == r2;
      }
    }
    assert r2[..|r1|] == pathname[..|r1|];
  }

  /** In a prefix-free table a path falls under at most one route, so the
      order of the table does not matter: the route found is any route the
      path falls under. */
  lemma {:induction false} FoundRouteIsTheMatch(table: seq<RouteConfig>, pathname: string, k: nat)
    requires PrefixFree(table) && k < |table| && Matches(pathname, table[k].route)
    ensures FindRoute(table, pathname) == Some(table[k])
    decreases |table|
  {
    if k == 0 {
    } else if Matches(pathname, table[0].route) {
      var r0, rk := table[0].route, table[k].route;
      if |r0| <= |rk| {
        MatchesArePrefixes(pathname, r0, rk);
      } else {
        MatchesArePrefixes(pathname, rk, r0);
      }
      assert false;
    } else {
      var tail := table[1..];
      assert PrefixFree(tail) by {
        forall i, j | 0 <= i < |tail| && 0 <= j < |tail| && i != j ensures !(tail[i].route <= tail[j].route) {
          assert tail[i] == table[i + 1] && tail[j] == table[j + 1];
        }
      }
      assert tail[k - 1] == table[k];
      FoundRouteIsTheMatch(tail, pathname, k - 1);
    }
  }

  /** The route a path falls under, looked up by name. */
  lemma GateUnder(pathname: string, k: nat)
    requires k < |RouteTable| && Matches(pathname, RouteTable[k].route)
    ensures FindRoute(RouteTable, pathname) == Some(RouteTable[k])
  {
    RouteTableIsPrefixFree();
    FoundRouteIsTheMatch(RouteTable, pathname, k);
  }

  /** A path under no configured route passes whatever the cookies say;
      `/postsX` is such a path. */
  lemma UnmatchedPathsPass(pathname: string, cookies: map<string, string>)
    requires forall c | c in RouteTable :: !Matches(pathname, c.route)
    ensures Gate(pathname, cookies) == Next
  {
  }

  lemma PostsXIsUnmatched()
    ensures forall c | c in RouteTable :: !Matches("/postsX", c.route)
  {
    var p := "/postsX";
    assert p[6] == 'X' && ("/posts" + "/")[6] == '/';
    forall c | c in RouteTable ensures !Matches(p, c.route) {
      if c.route != "/posts" {
        assert c.route[1] != p[1];
        assert (c.route + "/")[1] == c.route[1];
      }
    }
  }

  /** The lazy-loading page and everything under it is public. */
  lemma LazyLoadingIsPublic(pathname: string, cookies: map<string, string>)
    requires Matches(pathname, "/lazy-loading")
    ensures Gate(pathname, cookies) == Next
  {
    GateUnder(pathname, 3);
  }

  /** The protected areas: posts, chat and the dashboard. */
  predicate Protected(pathname: string) {
    Matches(pathname, "/posts") || Matches(pathname, "/chat") || Matches(pathname, "/dashboard")
  }

  /** The roles let into a protected path. */
  function AllowedRoles(pathname: string): (roles: seq<string>)
    requires Protected(pathname)
    ensures "admin" in roles && "superadmin" in roles
  {
    if Matches(pathname, "/posts") then ["user", "admin", "superadmin"]
    else if Matches(pathname, "/chat") then ["user", "admin", "superadmin"]
    else ["admin", "superadmin"]
  }

  /** The whole gate on a protected path: no non-empty access token
      redirects to the login page with the path to come back to; a
      non-empty role cookie naming a role not allowed there redirects as
      unauthorized; a missing or empty role cookie is not checked; anything
      else passes. */
  lemma ProtectedPathDecision(pathname: string, cookies: map<string, string>)
    requires Protected(pathname)
    ensures var token := Cookie(cookies, AccessTokenCookie);
      var role := Cookie(cookies, UserRoleCookie);
      Gate(pathname, cookies) ==
        if !Truthy(token) then RedirectToLogin(pathname)
        else if Truthy(role) && role.value !in AllowedRoles(pathname) then RedirectUnauthorized
        else Next
  {
    if Matches(pathname, "/posts") {
      GateUnder(pathname, 0);
    } else if Matches(pathname, "/chat") {
      GateUnder(pathname, 1);
    } else {
      GateUnder(pathname, 2);
    }
  }

  /** A path falls under at most one of two routes neither of which is a
      prefix of the other. */
  lemma UnderAtMostOne(pathname: string, r1: string, r2: string)
    requires !(r1 <= r2) && !(r2 <= r1)
    ensures !(Matches(pathname, r1) && Matches(pathname, r2))
  {
    if Matches(pathname, r1) && Matches(pathname, r2) {
      if |r1| <= |r2| {
        MatchesArePrefixes(pathname, r1, r2);
      } else {
        MatchesArePrefixes(pathname, r2, r1);
      }
    }
  }

  /** The dashboard is neither under posts nor under chat. */
  lemma DashboardIsItsOwnArea(pathname: string)
    ensures Matches(pathname, "/dashboard") ==> !Matches(pathname, "/posts") && !Matches(pathname, "/chat")
  {
    assert "/posts"[1] != "/dashboard"[1] && "/chat"[1] != "/dashboard"[1];
    UnderAtMostOne(pathname, "/posts", "/dashboard");
    UnderAtMostOne(pathname, "/chat", "/dashboard");
  }

  /** Only admins and superadmins reach the dashboard when a role is set. */
  lemma DashboardNeedsAdmin(pathname: string, cookies: map<string, string>)
    requires Matches(pathname, "/dashboard")
    requires AccessTokenCookie in cookies && cookies[AccessTokenCookie] != ""
    requires UserRoleCookie in cookies && cookies[UserRoleCookie] != ""
    ensures Gate(pathname, cookies) == Next <==> cookies[UserRoleCookie] in ["admin", "superadmin"]
    ensures Gate(pathname, cookies) != Next ==> Gate(pathname, cookies) == RedirectUnauthorized
  {
    DashboardIsItsOwnArea(pathname);
    ProtectedPathDecision(pathname, cookies);
  }
}
