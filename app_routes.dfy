/** src/route.ts: the same decision as `LibRoutes.ShouldRedirect` over an `/auth/*` configuration,
    combined with the `/login`-based predicates it imports from `AuthRoutes`. */
module AppRoutes {
  import opened Base
  import opened AuthRoutes
  import LibRoutes

  type RouteConfig = LibRoutes.RouteConfig

  const AppPages: map<string, string> := map["home" := "/", "dashboard" := "/dashboard", "settings" := "/settings"] + AuthPages

  const Redirects: map<string, string> := AuthRedirects + map["default" := "/", "notFound" := "/404", "serverError" := "/500"]

  const RouteConfigs: map<string, RouteConfig> := map[
    "/" := LibRoutes.RouteConfig("/", false, false, None),
    "/dashboard" := LibRoutes.RouteConfig("/dashboard", true, true, Some("/auth/login")),
    "/auth/login" := LibRoutes.RouteConfig("/auth/login", false, false, None),
    "/auth/register" := LibRoutes.RouteConfig("/auth/register", false, false, None),
    "/auth/profile" := LibRoutes.RouteConfig("/auth/profile", true, true, Some("/auth/login"))]

  function GetRouteConfig(pathname: string): (r: Option<RouteConfig>)
    ensures r.Some? <==> pathname in {"/", "/dashboard", "/auth/login", "/auth/register", "/auth/profile"}
    ensures r.Some? ==> r.value.path == pathname && (r.value.requiresAuth <==> r.value.redirectTo.Some?)
  {
    if pathname in RouteConfigs then Some(RouteConfigs[pathname]) else None
  }

  /** No configured path is one of the imported auth paths, so a signed-in user is never sent
      anywhere, and a signed-out one only to `/auth/login`. */
  function ShouldRedirect(pathname: string, isAuthenticated: bool): (r: Option<string>)
    ensures isAuthenticated ==> r == None
    ensures r.Some? <==> !isAuthenticated && (pathname == "/dashboard" || pathname == "/auth/profile")
    ensures r.Some? ==> r.value == "/auth/login"
  {
    var config := GetRouteConfig(pathname);
    if config.None? then None
    else if config.value.requiresAuth && !isAuthenticated && Truthy(config.value.redirectTo) then config.value.redirectTo
    else if IsAuthRoute(pathname) && isAuthenticated && pathname != "/auth/profile" then Some(Redirects["afterLogin"])
    else None
  }

  /** Checks only the lists of `AuthRoutes`, not this module's configuration. */
  function ValidateRoute(pathname: string): (b: bool)
    ensures b <==> IsPublicRoute(pathname) || IsProtectedRoute(pathname)
  {
    pathname in PublicRoutes || SomePrefix(ProtectedRoutes, pathname)
  }

  lemma ConfigAndValidationDisagree()
    ensures GetRouteConfig("/auth/login").Some? && !ValidateRoute("/auth/login")
    ensures ValidateRoute("/login") && GetRouteConfig("/login").None?
  {
  }

  lemma UnconfiguredPathsNeverRedirect(isAuthenticated: bool)
    ensures ShouldRedirect("/login", isAuthenticated) == None && ShouldRedirect("/profile", isAuthenticated) == None
    ensures ShouldRedirect("/dashboard", false) == Some("/auth/login") && ShouldRedirect("/auth/profile", false) == Some("/auth/login")
  {
  }

  lemma TablesExtendAuthTables()
    ensures forall k :: k in AuthPages ==> k in AppPages && AppPages[k] == AuthPages[k]
    ensures forall k :: k in AuthRedirects ==> k in Redirects && Redirects[k] == AuthRedirects[k]
    ensures Redirects["default"] == "/" && Redirects["notFound"] == "/404" && Redirects["serverError"] == "/500"
  {
  }
}
