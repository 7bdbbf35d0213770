/** The route guard of the `useAuth` hook: from the store's loading and
    authenticated flags and the hook's options, the page it redirects to,
    if any. The effects that call `checkAuth` and push the route are not
    modelled. */
module AuthHooks {
  import opened Common

  const LOGIN_ROUTE: string := "/login"
  const DASHBOARD_ROUTE: string := "/dashboard"

  /** The hook's options; `redirectIfFound` left out is `false`. */
  datatype RouteOptions = RouteOptions(redirectTo: Option<string>, redirectIfFound: bool)

  /** The redirect the second effect performs: nothing while loading; the
      `redirectTo` target (when truthy) for a visitor who is not
      authenticated; otherwise the dashboard for an authenticated visitor
      when `redirectIfFound` is set; otherwise nothing. */
  function RedirectTarget(isLoading: bool, options: RouteOptions, isAuthenticated: bool): (target: Option<string>)
    ensures isLoading ==> target.None?
    ensures !isLoading && TruthyString(options.redirectTo) && !isAuthenticated ==>
      target == options.redirectTo
    ensures !isLoading && !(TruthyString(options.redirectTo) && !isAuthenticated)
            && options.redirectIfFound && isAuthenticated ==>
      target == Some(DASHBOARD_ROUTE)
    ensures target.None? <==>
      isLoading || (!(TruthyString(options.redirectTo) && !isAuthenticated) && !(options.redirectIfFound && isAuthenticated))
  {
    if isLoading then None
    else if TruthyString(options.redirectTo) && !isAuthenticated then options.redirectTo
    else if options.redirectIfFound && isAuthenticated then Some(DASHBOARD_ROUTE)
    else None
  }

  /** The options of `useRequireAuth`: a truthy `redirectTo` of `/login`,
      `redirectIfFound` left out. */
  function RequireAuthOptions(): (o: RouteOptions)
    ensures TruthyString(o.redirectTo) && o.redirectTo == Some(LOGIN_ROUTE)
    ensures !o.redirectIfFound
  {
    RouteOptions(Some(LOGIN_ROUTE), false)
  }

  /** The options of `usePublicRoute`: `redirectIfFound` set, no `redirectTo`. */
  function PublicRouteOptions(): (o: RouteOptions)
    ensures !TruthyString(o.redirectTo)
    ensures o.redirectIfFound
  {
    RouteOptions(None, true)
  }

  /** A protected route sends exactly the visitors who are not
      authenticated to the login page, once loading has finished. */
  lemma RequireAuthRedirectsGuests(isLoading: bool, isAuthenticated: bool)
    ensures RedirectTarget(isLoading, RequireAuthOptions(), isAuthenticated).Some? <==> !isLoading && !isAuthenticated
    ensures RedirectTarget(isLoading, RequireAuthOptions(), isAuthenticated).Some? ==>
      RedirectTarget(isLoading, RequireAuthOptions(), isAuthenticated) == Some(LOGIN_ROUTE)
  {
  }

  /** A public route sends exactly the authenticated visitors to the
      dashboard, once loading has finished. */
  lemma PublicRouteRedirectsMembers(isLoading: bool, isAuthenticated: bool)
    ensures RedirectTarget(isLoading, PublicRouteOptions(), isAuthenticated).Some? <==> !isLoading && isAuthenticated
    ensures RedirectTarget(isLoading, PublicRouteOptions(), isAuthenticated).Some? ==>
      RedirectTarget(isLoading, PublicRouteOptions(), isAuthenticated) == Some(DASHBOARD_ROUTE)
  {
  }

  /** With both options set, the `redirectTo` branch wins for a visitor who
      is not authenticated, and an authenticated one goes to the dashboard. */
  lemma BothOptionsPrecedence(target: string, isAuthenticated: bool)
    requires target != ""
    ensures RedirectTarget(false, RouteOptions(Some(target), true), isAuthenticated)
      == if isAuthenticated then Some(DASHBOARD_ROUTE) else Some(target)
  {
  }
}
