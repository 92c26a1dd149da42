/** The route tables and their lookups (src/routes/routes.ts). The lookups
    over the dashboard table are written for any table, so that what they do
    is stated for tables with routes in them too; the shipped table is
    empty. Lazy page components are left out. */
module Routes {
  import opened Common

  /** `RouteConfig` without its lazy component (`label` is `sidebarLabel`). */
  datatype RouteConfig = RouteConfig(
    path: string, title: string, allowedRoles: Option<seq<string>>,
    sidebarLabel: Option<string>, icon: Option<string>, showInSidebar: Option<bool>)

  function AuthRoute(path: string, title: string): RouteConfig {
    RouteConfig(path, title, None, None, None, None)
  }

  /** `authRoutes`. */
  const AuthRoutes: seq<RouteConfig> := [
    AuthRoute("login", "Login"),
    AuthRoute("signup", "Sign Up"),
    AuthRoute("verify-email", "Verify Email"),
    AuthRoute("reset-password/:uidb64/:token", "Reset Password"),
    AuthRoute("forgot-password", "Forgot Password"),
    AuthRoute("password-link-sent", "Forgot Password Link Sent")
  ]

  /** `dashboardRoutes`: every entry is commented out. */
  const DashboardRoutes: seq<RouteConfig> := []

  /** `route.allowedRoles?.includes(role)`, with `undefined` read as false. */
  predicate Allows(route: RouteConfig, role: string) {
    route.allowedRoles.Some? && role in route.allowedRoles.value
  }

  /** `route.showInSidebar && route.allowedRoles?.includes(role)`. */
  predicate InSidebar(route: RouteConfig, role: string) {
    route.showInSidebar == Some(true) && Allows(route, role)
  }

  /** `table.filter(route => route.allowedRoles?.includes(role))`: the
      routes that allow the role, each as often as in the table, in table
      order. */
  function RoutesFor(table: seq<RouteConfig>, role: string): (r: seq<RouteConfig>)
    ensures |r| <= |table|
    ensures forall x :: x in r <==> x in table && Allows(x, role)
    ensures forall x :: multiset(r)[x] == if Allows(x, role) then multiset(table)[x] else 0
    ensures Subsequence(r, table)
  {
    if table == [] then []
    else
      var rest := RoutesFor(table[1..], role);
      assert table == [table[0]] + table[1..];
      if Allows(table[0], role) then
        assert ([table[0]] + rest)[1..] == rest;
        [table[0]] + rest
      else rest
  }

  /** `getSidebarItemsForRole`, over a given dashboard table: the routes shown
      in the sidebar that allow the role, each as often as in the table, in
      table order. */
  function SidebarItemsFor(table: seq<RouteConfig>, role: string): (r: seq<RouteConfig>)
    ensures |r| <= |table|
    ensures forall x :: x in r <==> x in table && InSidebar(x, role)
    ensures forall x :: multiset(r)[x] == if InSidebar(x, role) then multiset(table)[x] else 0
    ensures Subsequence(r, table)
  {
    if table == [] then []
    else
      var rest := SidebarItemsFor(table[1..], role);
      assert table == [table[0]] + table[1..];
      if InSidebar(table[0], role) then
        assert ([table[0]] + rest)[1..] == rest;
        [table[0]] + rest
      else rest
  }

  /** Some route of the table has this path. */
  predicate HasPath(table: seq<RouteConfig>, path: string) {
    exists i :: 0 <= i < |table| && table[i].path == path
  }

  /** `table.find(r => r.path === path)`: the first route with that path. */
  function FindByPath(table: seq<RouteConfig>, path: string): (r: Option<RouteConfig>)
    ensures r.None? <==> !HasPath(table, path)
    ensures r.Some? ==> exists i ::
      && 0 <= i < |table| && table[i] == r.value && r.value.path == path
      && forall j :: 0 <= j < i ==> table[j].path != path
  {
    if table == [] then None
    else if table[0].path == path then Some(table[0])
    else
      var r := FindByPath(table[1..], path);
      assert HasPath(table, path) ==> HasPath(table[1..], path) by {
        if HasPath(table, path) {
          var i :| 0 <= i < |table| && table[i].path == path;
          assert table[1..][i - 1].path == path;
        }
      }
      assert r.Some? ==> exists i ::
        && 0 <= i < |table| && table[i] == r.value && r.value.path == path
        && forall j :: 0 <= j < i ==> table[j].path != path
      by {
        if r.Some? {
          var i :| 0 <= i < |table[1..]| && table[1..][i] == r.value && r.value.path == path
            && forall j :: 0 <= j < i ==> table[1..][j].path != path;
          assert table[i + 1] == r.value;
          forall j | 0 <= j < i + 1 ensures table[j].path != path {
            if j > 0 { assert table[j] == table[1..][j - 1]; }
          }
        }
      }
      r
  }

  /** `canAccessRoute`, over a given dashboard table: the first route with
      the path exists and its `allowedRoles` include the role. */
  predicate CanAccessRouteIn(table: seq<RouteConfig>, path: string, role: string)
    ensures CanAccessRouteIn(table, path, role) ==>
      exists i :: 0 <= i < |table| && table[i].path == path && Allows(table[i], role)
  {
    var route := FindByPath(table, path);
    route.Some? && Allows(route.value, role)
  }

  /** `getRouteByPath`, over a given dashboard table: auth routes first. */
  function RouteByPathIn(table: seq<RouteConfig>, path: string): (r: Option<RouteConfig>)
    ensures HasPath(AuthRoutes, path) ==> r == FindByPath(AuthRoutes, path)
    ensures !HasPath(AuthRoutes, path) ==> r == FindByPath(table, path)
  {
    FindAppend(AuthRoutes, table, path);
    FindByPath(AuthRoutes + table, path)
  }

  /** `path === route.path || path.startsWith("/" + route.path)`. */
  predicate PathMatches(route: RouteConfig, path: string) {
    path == route.path || StartsWith(path, "/" + route.path)
  }

  /** `table.some(route => PathMatches(route, path))`. */
  function SomeMatch(table: seq<RouteConfig>, path: string): (b: bool)
    ensures b <==> exists i :: 0 <= i < |table| && PathMatches(table[i], path)
  {
    if table == [] then false
    else if PathMatches(table[0], path) then true
    else
      var b := SomeMatch(table[1..], path);
      assert b <==> exists i :: 1 <= i < |table| && PathMatches(table[i], path) by {
        if b {
          var i :| 0 <= i < |table[1..]| && PathMatches(table[1..][i], path);
          assert PathMatches(table[i + 1], path);
        }
        if exists i :: 1 <= i < |table| && PathMatches(table[i], path) {
          var i :| 1 <= i < |table| && PathMatches(table[i], path);
          assert PathMatches(table[1..][i - 1], path);
        }
      }
      b
  }

  /** `isAuthRoute`: some auth route matches the path exactly or by prefix. */
  predicate IsAuthRoute(path: string)
    ensures IsAuthRoute(path) <==> exists i :: 0 <= i < |AuthRoutes| && PathMatches(AuthRoutes[i], path)
  {
    SomeMatch(AuthRoutes, path)
  }

  /** `isProtectedRoute`, over a given dashboard table: some route matches
      the path exactly or by prefix. */
  predicate IsProtectedRouteIn(table: seq<RouteConfig>, path: string)
    ensures IsProtectedRouteIn(table, path) <==> exists i :: 0 <= i < |table| && PathMatches(table[i], path)
  {
    SomeMatch(table, path)
  }

  /** `a` is a subsequence of `b`: its elements occur in `b` in the same order. */
  predicate Subsequence(a: seq<RouteConfig>, b: seq<RouteConfig>)
    decreases |b|
  {
    a == [] || (b != [] && ((a[0] == b[0] && Subsequence(a[1..], b[1..])) || Subsequence(a, b[1..])))
  }

  /** A find over two tables joined searches the first one first. */
  lemma {:induction false} FindAppend(a: seq<RouteConfig>, b: seq<RouteConfig>, path: string)
    ensures HasPath(a, path) ==> FindByPath(a + b, path) == FindByPath(a, path)
    ensures !HasPath(a, path) ==> FindByPath(a + b, path) == FindByPath(b, path)
  {
    if a == [] {
      assert a + b == b;
    } else {
      assert (a + b)[0] == a[0];
      assert (a + b)[1..] == a[1..] + b;
      FindAppend(a[1..], b, path);
      if a[0].path != path && HasPath(a, path) {
        var i :| 0 <= i < |a| && a[i].path == path;
        assert a[1..][i - 1].path == path;
      }
    }
  }

  /** The sidebar items for a role are the role's routes that are shown in
      the sidebar, in table order: a subsequence of `getRoutesForRole`. */
  lemma {:induction false} SidebarWithinRoutes(table: seq<RouteConfig>, role: string)
    ensures Subsequence(SidebarItemsFor(table, role), RoutesFor(table, role))
  {
    if table != [] {
      SidebarWithinRoutes(table[1..], role);
      var s := SidebarItemsFor(table[1..], role);
      var r := RoutesFor(table[1..], role);
      if InSidebar(table[0], role) {
        assert SidebarItemsFor(table, role) == [table[0]] + s;
        assert RoutesFor(table, role) == [table[0]] + r;
        assert ([table[0]] + s)[1..] == s && ([table[0]] + r)[1..] == r;
      } else if Allows(table[0], role) {
        assert SidebarItemsFor(table, role) == s;
        assert RoutesFor(table, role) == [table[0]] + r;
        SkipHead(s, table[0], r);
      } else {
        assert SidebarItemsFor(table, role) == s;
        assert RoutesFor(table, role) == r;
      }
    }
  }

  /** A subsequence of `b` is a subsequence of `[x] + b`. */
  lemma SkipHead(a: seq<RouteConfig>, x: RouteConfig, b: seq<RouteConfig>)
    requires Subsequence(a, b)
    ensures Subsequence(a, [x] + b)
  {
    assert ([x] + b)[1..] == b;
  }

  /** The access check: false when no route has the path or the first such
      route has no `allowedRoles`, role membership otherwise. */
  lemma CanAccessCases(table: seq<RouteConfig>, path: string, role: string)
    ensures !HasPath(table, path) ==> !CanAccessRouteIn(table, path, role)
    ensures HasPath(table, path) ==>
      (CanAccessRouteIn(table, path, role) <==>
        FindByPath(table, path).value.allowedRoles.Some? && role in FindByPath(table, path).value.allowedRoles.value)
  {
  }

  /** The prefix test has no segment boundary: "/signup-x" counts as the
      "signup" route. */
  lemma PrefixWithoutBoundary()
    ensures IsAuthRoute("/signup-x")
  {
    assert PathMatches(AuthRoutes[1], "/signup-x");
  }

  /** The prefix test is literal: a concrete reset link does not start with
      "/reset-password/:uidb64/:token", so it is not an auth route. */
  lemma ConcreteResetLinkIsNotAuth()
    ensures !IsAuthRoute("/reset-password/abc/def")
  {
    var p := "/reset-password/abc/def";
    forall i | 0 <= i < |AuthRoutes| ensures !PathMatches(AuthRoutes[i], p) {
      var q := AuthRoutes[i].path;
      assert p[0] == '/' && q[0] != '/';
      if i == 3 {
        assert |"/" + q| == 30 > |p|;
      } else {
        assert q[0] != 'r' && ("/" + q)[1] == q[0] && p[1] == 'r';
      }
    }
  }

  /** With the dashboard table as shipped (empty), no route is accessible or
      protected, and every role has no routes and no sidebar items. */
  lemma EmptyDashboard(path: string, role: string)
    ensures !CanAccessRouteIn(DashboardRoutes, path, role)
    ensures !IsProtectedRouteIn(DashboardRoutes, path)
    ensures RoutesFor(DashboardRoutes, role) == []
    ensures SidebarItemsFor(DashboardRoutes, role) == []
    ensures RouteByPathIn(DashboardRoutes, path) == FindByPath(AuthRoutes, path)
  {
  }
}
