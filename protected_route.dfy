/**
 * The route guard (src/components/ProtectedRoute.jsx): a loading screen
 * while the session check runs, a replacing redirect to the login route
 * without a session, the protected children otherwise.
 */
module ProtectedRoute {
  /** What the guard renders; `from` is the location the redirect carries in its state. */
  datatype Outcome<Location> =
    | ShowLoading
    | RedirectToLogin(to: string, replace: bool, from: Location)
    | RenderChildren

  const LoginPath: string := "/login"

  function Guard<Location>(loading: bool, isAuthenticated: bool, location: Location): (r: Outcome<Location>)
    ensures r.ShowLoading? <==> loading
    ensures r.RedirectToLogin? <==> !loading && !isAuthenticated
    ensures r.RenderChildren? <==> !loading && isAuthenticated
    ensures r.RedirectToLogin? ==> r.to == LoginPath && r.replace && r.from == location
  {
    if loading then ShowLoading
    else if !isAuthenticated then RedirectToLogin(LoginPath, true, location)
    else RenderChildren
  }

  /** The children never render without a session, whatever the loading flag says. */
  lemma NoSessionNoChildren<Location>(loading: bool, location: Location)
    ensures !Guard(loading, false, location).RenderChildren?
  {
  }

  /** While loading, the session value does not matter. */
  lemma LoadingIgnoresSession<Location>(a: bool, b: bool, location: Location)
    ensures Guard(true, a, location) == Guard(true, b, location)
  {
  }
}
