/** src/lib/routes.ts: its first 46 lines repeat src/lib/auth-routes.ts, modelled once in
    `AuthRoutes`; this module adds the application tables, the route configuration and the
    redirect decision over `/login`-based paths. */
module LibRoutes {
  import opened Base
  import opened AuthRoutes

  datatype RouteConfig = RouteConfig(path: string, isProtected: bool, requiresAuth: bool, redirectTo: Option<string>)

  /** `appRoutes`: three application pages plus every entry of `authRoutes`. */
  const AppPages: map<string, string> := map["home" := "/", "dashboard" := "/dashboard", "settings" := "/settings"] + AuthPages

  /** `redirects`: every entry of `authRedirects` plus three fixed targets. */
  const Redirects: map<string, string> := AuthRedirects + map["default" := "/", "notFound" := "/404", "serverError" := "/500"]

  const RouteConfigs: map<string, RouteConfig> := map[
    "/" := RouteConfig("/", false, false, None),
    "/dashboard" := RouteConfig("/dashboard", true, true, Some("/login")),
    "/login" := RouteConfig("/login", false, false, None),
    "/register" := RouteConfig("/register", false, false, None),
    "/profile" := RouteConfig("/profile", true, true, Some("/login"))]

  function GetRouteConfig(pathname: string): (r: Option<RouteConfig>)
    ensures r.Some? <==> pathname in {"/", "/dashboard", "/login", "/register", "/profile"}
    ensures r.Some? ==> r.value.path == pathname && (r.value.requiresAuth <==> r.value.redirectTo.Some?)
  {
    if pathname in RouteConfigs then Some(RouteConfigs[pathname]) else None
  }

  function ShouldRedirect(pathname: string, isAuthenticated: bool): (r: Option<string>)
    ensures r.Some? ==> r.value == "/login" || r.value == "/dashboard"
    ensures GetRouteConfig(pathname).None? ==> r == None
  {
    var config := GetRouteConfig(pathname);
    if config.None? then None
    else if config.value.requiresAuth && !isAuthenticated && Truthy(config.value.redirectTo) then config.value.redirectTo
    else if IsAuthRoute(pathname) && isAuthenticated && pathname != "/profile" then Some(Redirects["afterLogin"])
    else None
  }

  function ValidateRoute(pathname: string): (b: bool)
    ensures b <==> IsPublicRoute(pathname) || IsProtectedRoute(pathname)
  {
    pathname in PublicRoutes || SomePrefix(ProtectedRoutes, pathname)
  }

  /** Exactly when each redirect happens. */
  lemma ShouldRedirectIff(pathname: string, isAuthenticated: bool)
    ensures ShouldRedirect(pathname, isAuthenticated) == Some("/login")
      <==> !isAuthenticated && (pathname == "/dashboard" || pathname == "/profile")
    ensures ShouldRedirect(pathname, isAuthenticated) == Some("/dashboard")
      <==> isAuthenticated && (pathname == "/login" || pathname == "/register")
  {
  }

  lemma ShouldRedirectExamples()
    ensures ShouldRedirect("/dashboard", false) == Some("/login") && ShouldRedirect("/profile", false) == Some("/login")
    ensures ShouldRedirect("/login", true) == Some("/dashboard") && ShouldRedirect("/register", true) == Some("/dashboard")
    ensures ShouldRedirect("/settings", false) == None && ShouldRedirect("/passwdReset", true) == None
    ensures ShouldRedirect("/profile", true) == None
  {
    ShouldRedirectIff("/dashboard", false);
    ShouldRedirectIff("/profile", false);
    ShouldRedirectIff("/login", true);
    ShouldRedirectIff("/register", true);
  }

  lemma TablesExtendAuthTables()
    ensures forall k :: k in AuthPages ==> k in AppPages && AppPages[k] == AuthPages[k]
    ensures forall k :: k in AuthRedirects ==> k in Redirects && Redirects[k] == AuthRedirects[k]
    ensures Redirects["default"] == "/" && Redirects["notFound"] == "/404" && Redirects["serverError"] == "/500"
  {
  }
}
