/**
 * The authentication hook: whether the session is authenticated, loading, and
 * the login error, kept in step with the session service.
 */
module UseAuth {
  import opened Wrappers
  import opened JsValues
  import opened Http
  import opened Auth

  /** `useAuth()` over the session service `service`. */
  class AuthHookView {
    const service: AuthService
    var isAuthenticated: bool
    var isLoading: bool
    var error: Option<string>

    constructor (service: AuthService)
      ensures this.service == service && !isAuthenticated && isLoading && error == None
    {
      this.service := service;
      isAuthenticated := false;
      isLoading := true;
      error := None;
    }

    /** The mount effect: the session check at time `now`, loading done. */
    method Mount(decodeExp: string -> Option<int>, now: int)
      modifies this`isAuthenticated, this`isLoading, this`error
      ensures isAuthenticated == service.IsAuthenticated(decodeExp, now) && !isLoading && error == None
    {
      isAuthenticated := service.IsAuthenticated(decodeExp, now);
      isLoading := false;
      error := None;
    }

    /** `login` starts: loading, no error, the authentication flag as it was. */
    method StartLogin()
      modifies this`isLoading, this`error
      ensures isLoading && error == None
    {
      isLoading := true;
      error := None;
    }

    /**
     * `login(credentials)`: after the service call, authenticated exactly when it
     * succeeded; a failure shows the error's message, or `'Login failed'` for a
     * thrown value that is not an error.
     */
    method Login(credentials: JsValue, fetch: Request -> FetchOutcome) returns (ok: bool)
      modifies this`isAuthenticated, this`isLoading, this`error, service
      ensures var outcome := LoginOutcome(fetch(LoginRequest(service.apiBaseUrl, credentials)));
        (ok <==> outcome.Ok?) && isAuthenticated == ok && !isLoading &&
        (outcome.Ok? ==> error == None && service.storage == old(service.storage)[TokenKey := outcome.value.1]) &&
        (outcome.Err? ==> error == Some(MessageOr(outcome.error, LoginFailed)) && service.storage == old(service.storage))
    {
      StartLogin();
      var r := service.Login(credentials, fetch);
      match r {
        case Ok(_) =>
          isAuthenticated, isLoading, error := true, false, None;
          ok := true;
        case Err(e) =>
          isAuthenticated, isLoading, error := false, false, Some(MessageOr(e, LoginFailed));
          ok := false;
      }
    }

    /** `logout()`: the token is removed and the hook is signed out. */
    method Logout()
      modifies this`isAuthenticated, this`isLoading, this`error, service
      ensures !isAuthenticated && !isLoading && error == None
      ensures service.storage == old(service.storage) - {TokenKey} && service.GetToken() == None
    {
      service.Logout();
      isAuthenticated, isLoading, error := false, false, None;
    }
  }
}
