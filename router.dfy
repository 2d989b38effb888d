/**
 * The stand-alone entry script (src/index.js): a path-to-page router over a
 * mutable route table and location, its three registered pages, and the
 * outcomes of the login form and the logout button. Page markup is not
 * modelled; a page is named by what it shows.
 */
module Router {
  import opened Common
  import AuthService

  datatype Page = HomePage | LoginPage | DashboardPage

  /** What a route resolution leaves on screen. */
  datatype Screen = Shown(page: Page) | NotFound

  /** `routes[path] || routes['/']`, and the 404 page when neither exists. */
  function Resolve(routes: map<string, Page>, path: string): (s: Screen)
    ensures path in routes ==> s == Shown(routes[path])
    ensures path !in routes && "/" in routes ==> s == Shown(routes["/"])
    ensures s == NotFound <==> path !in routes && "/" !in routes
  {
    if path in routes then Shown(routes[path])
    else if "/" in routes then Shown(routes["/"])
    else NotFound
  }

  /** Before any route is added, every path is a 404. */
  lemma EmptyTableIsNotFound(path: string)
    ensures Resolve(map[], path) == NotFound
  {
  }

  /** Once the root is registered, no path is a 404. */
  lemma RootRulesOutNotFound(routes: map<string, Page>, path: string)
    requires "/" in routes
    ensures Resolve(routes, path) != NotFound
  {
  }

  /** The table the script registers. */
  const AppRoutes: map<string, Page> := map["/" := HomePage, "/login" := LoginPage, "/dashboard" := DashboardPage]

  /** The three registered paths show their pages, and an unknown path shows the home page. */
  lemma AppRoutesResolve(path: string)
    ensures Resolve(AppRoutes, "/") == Shown(HomePage)
    ensures Resolve(AppRoutes, "/login") == Shown(LoginPage)
    ensures Resolve(AppRoutes, "/dashboard") == Shown(DashboardPage)
    ensures path !in {"/", "/login", "/dashboard"} ==> Resolve(AppRoutes, path) == Shown(HomePage)
  {
  }

  // ---------------------------------------------------------------------
  // The pathname `pushState` leaves in `window.location` (same-origin paths only).

  predicate IsDelimiter(ch: char) {
    ch == '?' || ch == '#'
  }

  /** The part of a URL before its query or fragment. */
  function PathPart(url: string): (r: string)
    ensures r <= url
    ensures forall i :: 0 <= i < |r| ==> !IsDelimiter(r[i])
    ensures |r| < |url| ==> IsDelimiter(url[|r|])
  {
    if url == [] || IsDelimiter(url[0]) then [] else [url[0]] + PathPart(url[1..])
  }

  /** The directory of a pathname: everything up to and including its last `/`. */
  function Directory(pathname: string): (r: string)
    ensures r <= pathname
    ensures r == [] || r[|r| - 1] == '/'
    ensures forall i :: |r| <= i < |pathname| ==> pathname[i] != '/'
  {
    if pathname == [] then []
    else if pathname[|pathname| - 1] == '/' then pathname
    else Directory(pathname[..|pathname| - 1])
  }

  /**
   * The pathname after `pushState({}, '', path)` from `current`: a query or
   * fragment alone keeps the pathname, an absolute path replaces it, and a
   * relative path replaces the last segment of the current directory.
   */
  function ResolvePath(current: string, path: string): string {
    if PathPart(path) == [] then current
    else if path[0] == '/' then PathPart(path)
    else Directory(current) + PathPart(path)
  }

  /** A URL without query or fragment is its own path part. */
  lemma PathPartOfPlain(s: string)
    requires forall i :: 0 <= i < |s| ==> !IsDelimiter(s[i])
    ensures PathPart(s) == s
  {
  }

  /** The query or fragment that follows a plain path is dropped. */
  lemma PathPartStopsAtDelimiter(s: string, rest: string)
    requires forall i :: 0 <= i < |s| ==> !IsDelimiter(s[i])
    requires rest != [] && IsDelimiter(rest[0])
    ensures PathPart(s + rest) == s
  {
    var u := s + rest;
    var r := PathPart(u);
    assert forall i :: 0 <= i < |s| ==> u[i] == s[i];
    assert IsDelimiter(u[|s|]);
    assert |r| <= |s|;
  }

  /** The directory of a directory followed by a last segment is that directory. */
  lemma DirectoryOfSegment(dir: string, segment: string)
    requires dir != [] && dir[|dir| - 1] == '/'
    requires forall i :: 0 <= i < |segment| ==> segment[i] != '/'
    ensures Directory(dir + segment) == dir
  {
    var p := dir + segment;
    var r := Directory(p);
    assert p[|dir| - 1] == '/';
    assert forall j :: |dir| <= j < |p| ==> p[j] == segment[j - |dir|];
    assert |r| >= |dir|;
  }

  /** A query or fragment after an absolute path does not reach the pathname. */
  lemma QueryIsIgnored(current: string, path: string, query: string)
    requires path != [] && path[0] == '/'
    requires forall i :: 0 <= i < |path| ==> !IsDelimiter(path[i])
    requires query != [] && IsDelimiter(query[0])
    ensures ResolvePath(current, path + query) == path
  {
    PathPartStopsAtDelimiter(path, query);
  }

  /** A relative path replaces the last segment of the current pathname. */
  lemma RelativeReplacesSegment(dir: string, segment: string, path: string)
    requires dir != [] && dir[|dir| - 1] == '/'
    requires forall i :: 0 <= i < |segment| ==> segment[i] != '/'
    requires path != [] && path[0] != '/'
    requires forall i :: 0 <= i < |path| ==> !IsDelimiter(path[i])
    ensures ResolvePath(dir + segment, path) == dir + path
  {
    PathPartOfPlain(path);
    DirectoryOfSegment(dir, segment);
  }

  class SimpleRouter {
    var routes: map<string, Page>
    /** `window.location.pathname`. */
    var location: string
    /** What the last resolution showed; `None` before the first one. */
    var screen: Option<Screen>

    /**
     * `new SimpleRouter()`: an empty table; when the document has finished
     * loading the current path is resolved at once, otherwise on
     * `DOMContentLoaded` (a later `HandleRoute`).
     */
    constructor (location: string, documentReady: bool)
      ensures routes == map[] && this.location == location
      ensures documentReady ==> screen == Some(NotFound)
      ensures !documentReady ==> screen == None
    {
      routes := map[];
      this.location := location;
      screen := if documentReady then Some(Resolve(map[], location)) else None;
    }

    /** `addRoute(path, handler)`: sets or replaces the handler of exactly that path. */
    method AddRoute(path: string, page: Page)
      modifies this`routes
      ensures routes == old(routes)[path := page]
      ensures forall p :: p != path ==> (p in routes <==> p in old(routes))
      ensures forall p :: p != path && p in routes ==> routes[p] == old(routes)[p]
    {
      routes := routes[path := page];
    }

    /** `handleRoute()`: resolves the current path. */
    method HandleRoute()
      modifies this`screen
      ensures screen == Some(Resolve(routes, location))
    {
      screen := Some(Resolve(routes, location));
    }

    /** `navigate(path)`: pushes the path, then resolves the new pathname. */
    method Navigate(path: string)
      modifies this`location, this`screen
      ensures location == ResolvePath(old(location), path)
      ensures screen == Some(Resolve(routes, location))
    {
      location := ResolvePath(location, path);
      HandleRoute();
    }

    /** The `popstate` listener: the browser has moved to `path`; resolve it. */
    method OnPopState(path: string)
      modifies this`location, this`screen
      ensures location == path && screen == Some(Resolve(routes, path))
    {
      location := path;
      HandleRoute();
    }
  }

  /** The script body: create the router, register the three pages, resolve the current path. */
  method Start(location: string, documentReady: bool) returns (router: SimpleRouter)
    ensures fresh(router)
    ensures router.routes == AppRoutes && router.location == location
    ensures router.screen == Some(Resolve(AppRoutes, location)) && router.screen != Some(NotFound)
  {
    router := new SimpleRouter(location, documentReady);
    router.AddRoute("/", HomePage);
    router.AddRoute("/login", LoginPage);
    router.AddRoute("/dashboard", DashboardPage);
    router.HandleRoute();
  }

  // ---------------------------------------------------------------------
  // The login form and the logout button.

  const DefaultRedirect: string := "/dashboard"
  const LoginSucceeded: string := "Login successful! Redirecting..."

  /** `urlParams.get('redirect') || '/dashboard'`. */
  function RedirectTarget(redirect: Option<string>): (r: string)
    ensures r == DefaultRedirect <==> redirect.None? || redirect.value == "" || redirect.value == DefaultRedirect
    ensures Truthy(redirect) ==> r == redirect.value
  {
    OrElse(redirect, DefaultRedirect)
  }

  /** What the login endpoint answered: `response.ok` and the `error` of its JSON body. */
  datatype LoginReply = LoginReply(ok: bool, error: Option<string>)

  /** The message line the form shows. */
  function LoginMessage(call: CallOutcome<LoginReply>): (r: string)
    ensures call.Returned? && call.value.ok ==> r == LoginSucceeded
    ensures call.Returned? && !call.value.ok ==> r == "Login failed: " + OrElse(call.value.error, "Unknown error")
    ensures call.Threw? ==> r == "Login failed: Network error"
  {
    match call
    case Threw(_) => "Login failed: Network error"
    case Returned(reply) =>
      if reply.ok then LoginSucceeded else "Login failed: " + OrElse(reply.error, "Unknown error")
  }

  /**
   * The submit handler: posts the credentials, shows the message, and after
   * a successful login navigates to the redirect target (the one-second
   * delay is not modelled). `call` is the outcome of the request and of
   * reading its JSON body.
   */
  method SubmitLogin(router: SimpleRouter, username: string, password: string,
                     redirect: Option<string>, call: CallOutcome<LoginReply>)
    returns (sent: AuthService.LoginBody, message: string)
    modifies router`location, router`screen
    ensures sent == AuthService.LoginRequest(username, password)
    ensures message == LoginMessage(call)
    ensures call.Returned? && call.value.ok ==>
      router.location == ResolvePath(old(router.location), RedirectTarget(redirect)) &&
      router.screen == Some(Resolve(router.routes, router.location))
    ensures !(call.Returned? && call.value.ok) ==>
      router.location == old(router.location) && router.screen == old(router.screen)
  {
    sent := AuthService.LoginRequest(username, password);
    message := LoginMessage(call);
    if call.Returned? && call.value.ok {
      router.Navigate(RedirectTarget(redirect));
    }
  }

  /** `window.logout`: whether or not the logout request succeeds, the login page is shown. */
  method Logout(router: SimpleRouter, call: CallOutcome<Json>)
    modifies router`location, router`screen
    ensures router.location == "/login"
    ensures router.screen == Some(Resolve(router.routes, "/login"))
  {
    PathPartOfPlain("/login");
    match call {
      case Returned(_) =>
        router.Navigate("/login");
      case Threw(_) =>
        router.Navigate("/login");
    }
  }

  /** The API test panel: what one answer of `/api/users` prints. */
  datatype ApiReply = ApiReply(ok: bool, status: nat, message: Option<string>, error: Option<string>)

  /**
   * `testApiCall`'s line: success, the status with the first truthy of
   * `message` and `error`, or the rejection's message (`undefined` printed
   * as such when it has none).
   */
  function ApiTestLine(call: CallOutcome<ApiReply>): (r: string)
    ensures call.Returned? && call.value.ok ==> r == "API call successful!"
    ensures call.Returned? && !call.value.ok && Truthy(call.value.message) ==>
      r == "API returned: " + NatText(call.value.status) + " - " + call.value.message.value
    ensures call.Returned? && !call.value.ok && !Truthy(call.value.message) ==>
      r == "API returned: " + NatText(call.value.status) + " - " + OrElse(call.value.error, "Unknown error")
    ensures call.Threw? ==> r == "API call failed: " + (if call.message.Some? then call.message.value else "undefined")
  {
    match call
    case Threw(message) => "API call failed: " + (if message.Some? then message.value else "undefined")
    case Returned(reply) =>
      if reply.ok then "API call successful!"
      else "API returned: " + NatText(reply.status) + " - " + OrElse(reply.message, OrElse(reply.error, "Unknown error"))
  }

  /** `checkAuthStatus`'s label, when the user-info element is on the page. */
  function AuthStatusLabel(userInfoPresent: bool, call: CallOutcome<bool>): (r: Option<string>)
    ensures r.None? <==> !userInfoPresent
    ensures userInfoPresent && call.Returned? ==>
      r == Some(if call.value then "Authenticated" else "Not authenticated")
    ensures userInfoPresent && call.Threw? ==> r == Some("Error checking status")
  {
    if !userInfoPresent then None
    else
      match call
      case Returned(ok) => Some(if ok then "Authenticated" else "Not authenticated")
      case Threw(_) => Some("Error checking status")
  }
}
