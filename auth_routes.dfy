/** The route tables and predicates of src/lib/auth-routes.ts. */
module AuthRoutes {
  /** `authRoutes`: the pages of the authentication flow by name. */
  const AuthPages: map<string, string> := map[
    "login" := "/login", "register" := "/register", "passwordReset" := "/passwdReset",
    "passwordUpdate" := "/passwdupdate", "profile" := "/profile", "logout" := "/logout"]

  const ProtectedRoutes: seq<string> := ["/dashboard", "/profile", "/settings"]
  const PublicRoutes: seq<string> := ["/", "/login", "/register", "/passwdReset", "/passwdupdate"]
  const AuthPaths: seq<string> := ["/login", "/register", "/passwdReset", "/passwdupdate"]

  /** `authRedirects`. */
  const AuthRedirects: map<string, string> := map[
    "afterLogin" := "/dashboard", "afterLogout" := "/login", "afterRegister" := "/login",
    "afterPasswordReset" := "/login", "requireAuth" := "/login"]

  /** `routes.some(route => pathname.startsWith(route))`. */
  function SomePrefix(routes: seq<string>, pathname: string): (b: bool)
    ensures b <==> exists i :: 0 <= i < |routes| && routes[i] <= pathname
  {
    if routes == [] then false
    else routes[0] <= pathname || SomePrefix(routes[1..], pathname)
  }

  function IsProtectedRoute(pathname: string): (b: bool)
    ensures b <==> "/dashboard" <= pathname || "/profile" <= pathname || "/settings" <= pathname
  {
    assert ProtectedRoutes[0] == "/dashboard" && ProtectedRoutes[1] == "/profile" && ProtectedRoutes[2] == "/settings";
    SomePrefix(ProtectedRoutes, pathname)
  }

  function IsPublicRoute(pathname: string): (b: bool)
    ensures b <==> pathname in {"/", "/login", "/register", "/passwdReset", "/passwdupdate"}
  {
    pathname in PublicRoutes
  }

  function IsAuthRoute(pathname: string): (b: bool)
    ensures b <==> pathname in {"/login", "/register", "/passwdReset", "/passwdupdate"}
  {
    pathname in AuthPaths
  }

  /** The key's type admits only the five names of `authRedirects`. */
  function GetRedirectUrl(key: string): (url: string)
    requires key in AuthRedirects
    ensures url == "/dashboard" <==> key == "afterLogin"
    ensures key != "afterLogin" ==> url == "/login"
  {
    AuthRedirects[key]
  }

  /** Protection is a prefix test: sub-paths and look-alike names are covered too. */
  lemma ProtectionIsPrefix()
    ensures IsProtectedRoute("/profile/edit") && IsProtectedRoute("/dashboard2")
    ensures !IsProtectedRoute("/") && !IsProtectedRoute("/login")
  {
    assert "/profile" <= "/profile/edit";
    assert "/dashboard" <= "/dashboard2";
  }

  /** Public and auth membership are exact: a trailing slash leaves both. */
  lemma MembershipIsExact()
    ensures !IsPublicRoute("/login/") && !IsAuthRoute("/login/")
    ensures IsPublicRoute("/") && !IsAuthRoute("/")
  {
  }

  lemma AuthRoutesArePublic(pathname: string)
    ensures IsAuthRoute(pathname) ==> IsPublicRoute(pathname)
  {
  }

  /** Two strings that differ at a common position are not prefixes of one another. */
  lemma DifferAt(a: string, b: string, i: nat)
    requires i < |a| && i < |b| && a[i] != b[i]
    ensures !(a <= b)
  {
  }

  lemma PublicIsNotProtected(pathname: string)
    ensures IsPublicRoute(pathname) ==> !IsProtectedRoute(pathname)
  {
    if pathname == "/register" {
      DifferAt("/dashboard", pathname, 1);
      DifferAt("/profile", pathname, 1);
      DifferAt("/settings", pathname, 1);
    } else if pathname == "/passwdReset" || pathname == "/passwdupdate" {
      DifferAt("/dashboard", pathname, 1);
      DifferAt("/profile", pathname, 2);
      DifferAt("/settings", pathname, 1);
    }
  }

  /** Every auth page other than the profile is reached without signing in. */
  lemma AuthPagesClassified()
    ensures forall k :: k in AuthPages && k != "profile" && k != "logout" ==> IsPublicRoute(AuthPages[k])
    ensures IsProtectedRoute(AuthPages["profile"])
  {
    assert "/profile" <= AuthPages["profile"];
  }
}
