/**
 * The gate policy of the plugin's three routes. Every route uses the
 * `session` strategy in mode `try`: a request without a valid session is not
 * rejected outright; the route-level `redirectTo` option decides whether it
 * is sent to the login page or runs the handler unauthenticated. Whether a
 * session was resolved is an input.
 */
module RouteGate {

  datatype Route = AuthRoute | RestrictedRoute | LoginRoute

  /** The route-level `hapi-auth-cookie` option (strategy `session`, mode `try` on every route). */
  datatype GateConfig = GateConfig(redirectTo: bool)

  /** What happens to a request before its handler. */
  datatype GateDecision = RunHandler(authenticated: bool) | RedirectToLogin

  /** The reply of the two GET routes. */
  datatype PageReply = Page(html: string) | LoginRedirect

  const AuthGreeting: string := "<div>Hello auth-dev working</div>"
  const RestrictedContent: string := "<div>You accessed restricted data.</div>"

  function ConfigOf(route: Route): GateConfig
  {
    match route
    case AuthRoute => GateConfig(false)
    case RestrictedRoute => GateConfig(true)
    case LoginRoute => GateConfig(false)
  }

  /**
   * Mode `try`: a resolved session always runs the handler with identity; an
   * unresolved one redirects exactly when the route asks for redirection, and
   * otherwise runs the handler without identity.
   */
  function Decide(config: GateConfig, isAuthenticated: bool): (d: GateDecision)
    ensures isAuthenticated ==> d == RunHandler(true)
    ensures !isAuthenticated ==> (d == RedirectToLogin <==> config.redirectTo)
    ensures d.RunHandler? ==> d.authenticated == isAuthenticated
  {
    if isAuthenticated then RunHandler(true)
    else if config.redirectTo then RedirectToLogin
    else RunHandler(false)
  }

  /**
   * A GET of `/auth` or `/restricted`: `/auth` greets whoever asks, and the
   * restricted content is served exactly to requests that hold a session.
   */
  function ServePage(route: Route, isAuthenticated: bool): (r: PageReply)
    requires route != LoginRoute
    ensures route == AuthRoute ==> r == Page(AuthGreeting)
    ensures route == RestrictedRoute ==> (r == Page(RestrictedContent) <==> isAuthenticated)
    ensures route == RestrictedRoute ==> (r == LoginRedirect <==> !isAuthenticated)
  {
    match Decide(ConfigOf(route), isAuthenticated)
    case RedirectToLogin => LoginRedirect
    case RunHandler(_) => Page(if route == AuthRoute then AuthGreeting else RestrictedContent)
  }

  /** `/login` never redirects before its handler: the handler itself deals with signed-in requests. */
  lemma LoginAlwaysReachesHandler(isAuthenticated: bool)
    ensures Decide(ConfigOf(LoginRoute), isAuthenticated) == RunHandler(isAuthenticated)
  {
  }
}
