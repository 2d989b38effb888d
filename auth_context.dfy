/**
 * The router-aware authentication provider (src/context/AuthContext.jsx):
 * `isAuthenticated`, `loading` and `error`, updated by `login`, `logout` and
 * `checkAuthStatus` in their try / catch / finally order. The outcome of the
 * underlying `authService` call is a parameter; `navigate` is recorded.
 */
module AuthContext {
  import opened Common
  import AuthService

  const LoginRoute: string := "/login"
  const LoginFailed: string := "Login failed"
  const OutsideProvider: string := "useAuth must be used within AuthProvider"

  class Provider {
    var isAuthenticated: bool
    var loading: bool
    var error: Option<string>
    /** The paths passed to `navigate`, oldest first. */
    var navigations: seq<string>

    constructor ()
      ensures !isAuthenticated && !loading && error == None && navigations == []
    {
      isAuthenticated := false;
      loading := false;
      error := None;
      navigations := [];
    }

    /**
     * `login(username, password)` given the outcome of `authService.login`:
     * success authenticates and returns the response; failure records the
     * message (or a default) and rethrows it.
     */
    method Login(service: CallOutcome<Json>) returns (result: CallOutcome<Json>)
      modifies this`isAuthenticated, this`loading, this`error
      ensures !loading
      ensures result == service
      ensures service.Returned? ==> isAuthenticated && error == None
      ensures service.Threw? ==>
        isAuthenticated == old(isAuthenticated) && error == Some(OrElse(service.message, LoginFailed))
    {
      loading := true;
      error := None;
      match service {
        case Returned(response) =>
          isAuthenticated := true;
          result := Returned(response);
        case Threw(message) =>
          error := Some(OrElse(message, LoginFailed));
          result := Threw(message);
      }
      loading := false;
    }

    /**
     * `logout()` given the outcome of `authService.logout`: success signs out
     * and navigates to the login route; a failure is only logged.
     */
    method Logout(service: CallOutcome<()>)
      modifies this`isAuthenticated, this`loading, this`navigations
      ensures !loading
      ensures service.Returned? ==> !isAuthenticated && navigations == old(navigations) + [LoginRoute]
      ensures service.Threw? ==> isAuthenticated == old(isAuthenticated) && navigations == old(navigations)
    {
      loading := true;
      if service.Returned? {
        isAuthenticated := false;
        navigations := navigations + [LoginRoute];
      }
      loading := false;
    }

    /**
     * `checkAuthStatus()` given the outcome of `authService.checkStatus`:
     * authenticated exactly when the response is not `null`.
     */
    method CheckAuthStatus(service: CallOutcome<Json>) returns (response: Json)
      modifies this`isAuthenticated
      ensures service.Returned? ==> response == service.value && isAuthenticated == (response != JNull)
      ensures service.Threw? ==> response == JNull && !isAuthenticated
    {
      match service {
        case Returned(r) =>
          isAuthenticated := r != JNull;
          response := r;
        case Threw(_) =>
          isAuthenticated := false;
          response := JNull;
      }
    }
  }

  /** With the real service underneath, `logout` always signs out and goes to the login route. */
  method LogoutWithService(provider: Provider, call: CallOutcome<Json>)
    modifies provider
    ensures !provider.isAuthenticated && !provider.loading
    ensures provider.navigations == old(provider.navigations) + [LoginRoute]
  {
    provider.Logout(AuthService.Logout(call));
  }

  /** With the real service underneath, a failed status request signs the user out. */
  method CheckWithService(provider: Provider, call: CallOutcome<Json>) returns (response: Json)
    modifies provider
    ensures call.Threw? ==> response == JNull && !provider.isAuthenticated
    ensures call.Returned? ==> response == call.value && provider.isAuthenticated == (call.value != JNull)
  {
    response := provider.CheckAuthStatus(AuthService.CheckStatus(call));
  }

  /** `useAuth()`: the provider's value, or the error thrown outside a provider. */
  function UseAuth(context: Option<Provider>): (r: Result<Provider>)
    ensures r.Ok? <==> context.Some?
    ensures r.Ok? ==> r.value == context.value
    ensures r.Err? ==> r.error == OutsideProvider
  {
    if context.None? then Err(OutsideProvider) else Ok(context.value)
  }
}
