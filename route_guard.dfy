/**
 * The edge route guard of the web client: for a request path and the two session
 * cookies it either lets the request through or redirects it. It runs only for the
 * paths of its matcher list ("/", "/login", "/signup"); every other path reaches its
 * page untouched.
 */
module RouteGuard {
  import opened Wrappers

  datatype Decision = Next | Redirect(target: string)

  const Home: string := "/"
  const Login: string := "/login"
  const Signup: string := "/signup"

  /** The paths the guard is registered for. */
  const Matcher: set<string> := {Home, Login, Signup}

  /**
   * A cookie counts as a credential when it is set and non-empty: the guard tests the
   * cookie values for JavaScript truthiness, and the empty string is falsy.
   */
  predicate Present(cookie: Option<string>) {
    cookie.Some? && cookie.value != ""
  }

  predicate IsLoginOrSignup(pathname: string) {
    pathname == Login || pathname == Signup
  }

  predicate IsProtectedRoute(pathname: string) {
    pathname == Home
  }

  /**
   * The guard's decision. "Authenticated" means an access token is present; a refresh
   * token alone is enough to reach the protected route but not to be sent away from
   * the login and signup pages.
   */
  function Middleware(pathname: string, accessToken: Option<string>, refreshToken: Option<string>): (d: Decision)
    ensures d.Redirect? ==> d.target == Home || d.target == Login
    ensures d.Redirect? ==> d.target != pathname
  {
    var isAuthenticated := Present(accessToken);
    if IsProtectedRoute(pathname) && !Present(accessToken) && !Present(refreshToken) then
      Redirect(Login)
    else if IsLoginOrSignup(pathname) && isAuthenticated then
      Redirect(Home)
    else
      Next
  }

  /** What a request to `pathname` meets: the guard on matched paths, nothing elsewhere. */
  function Route(pathname: string, accessToken: Option<string>, refreshToken: Option<string>): (d: Decision)
    ensures pathname !in Matcher ==> d == Next
    ensures pathname in Matcher ==> d == Middleware(pathname, accessToken, refreshToken)
  {
    if pathname in Matcher then Middleware(pathname, accessToken, refreshToken) else Next
  }

  /** The protected route without any credential is sent to the login page, and only then. */
  lemma ProtectedRouteNeedsSomeToken(accessToken: Option<string>, refreshToken: Option<string>)
    ensures Route(Home, accessToken, refreshToken) == Redirect(Login)
            <==> !Present(accessToken) && !Present(refreshToken)
    ensures Present(accessToken) || Present(refreshToken) ==> Route(Home, accessToken, refreshToken) == Next
  {
  }

  /** The login and signup pages redirect home exactly when an access token is present. */
  lemma LoginPagesRedirectWhenAuthenticated(pathname: string, accessToken: Option<string>, refreshToken: Option<string>)
    requires IsLoginOrSignup(pathname)
    ensures Route(pathname, accessToken, refreshToken) == Redirect(Home) <==> Present(accessToken)
    ensures !Present(accessToken) ==> Route(pathname, accessToken, refreshToken) == Next
  {
  }

  /** No path outside "/", "/login" and "/signup" is ever redirected, whatever the cookies. */
  lemma UnguardedPathsPass(pathname: string, accessToken: Option<string>, refreshToken: Option<string>)
    requires pathname != Home && !IsLoginOrSignup(pathname)
    ensures Middleware(pathname, accessToken, refreshToken) == Next
    ensures Route(pathname, accessToken, refreshToken) == Next
  {
  }

  /** With the same cookies, the target of any redirect is itself let through: no redirect loop. */
  lemma NoRedirectLoop(pathname: string, accessToken: Option<string>, refreshToken: Option<string>)
    ensures var d := Route(pathname, accessToken, refreshToken);
            d.Redirect? ==> d.target in Matcher && Route(d.target, accessToken, refreshToken) == Next
  {
  }

  /**
   * The two redirect conditions never hold together, so checking them in the other
   * order gives the same decision.
   */
  lemma RedirectConditionsExclusive(pathname: string, accessToken: Option<string>, refreshToken: Option<string>)
    ensures !(IsProtectedRoute(pathname) && !Present(accessToken) && !Present(refreshToken)
              && IsLoginOrSignup(pathname) && Present(accessToken))
    ensures Middleware(pathname, accessToken, refreshToken) ==
            (if IsLoginOrSignup(pathname) && Present(accessToken) then Redirect(Home)
             else if IsProtectedRoute(pathname) && !Present(accessToken) && !Present(refreshToken) then Redirect(Login)
             else Next)
  {
  }
}
