/**
 * The admin session: login stores the token the server returns under one
 * storage key, logout removes it, and the other operations only read it.
 */
module Auth {
  import opened Wrappers
  import opened Text
  import opened JsValues
  import opened Http

  /** The storage key of the session token. */
  const TokenKey: string := "admin_token"

  const LoginFailed: string := "Login failed"
  const NoTokenReceived: string := "No token received from server"

  /** The request `login` sends: a JSON POST of the credentials to `/auth/login`. */
  function LoginRequest(apiBaseUrl: string, credentials: JsValue): (req: Request)
    ensures req.url == apiBaseUrl + "/auth/login" && req.verb == POST
    ensures req.headers == map["Content-Type" := "application/json"] && req.body == Some(credentials)
  {
    Request(apiBaseUrl + "/auth/login", POST, JsonContentType, Some(credentials))
  }

  /**
   * The error a non-2xx login throws: `new Error(error.error?.message || 'Login failed')`
   * where `error` is the body, or `{}` when it is not JSON. A `null` body makes
   * the read of `error.error` itself throw.
   */
  function LoginFailure(body: Body): (e: Thrown)
    ensures body.Json? && IsNullish(body.value) ==> e.TypeError?
    ensures !(body.Json? && IsNullish(body.value)) ==> e.PlainError?
  {
    var error := ReadJsonOr(body, Obj(map[]));
    match Get(error, "error")
    case Err(te) => te
    case Ok(inner) => PlainError(ErrorMessageOf(Or(GetOptional(inner, "message"), Str(LoginFailed))))
  }

  /** `data.token || data.data?.token || data.access_token`; reading `data.token` throws when `data` is null. */
  function ExtractToken(data: JsValue): (r: Result<JsValue, Thrown>)
    ensures r.Err? <==> IsNullish(data)
    ensures r.Ok? && Truthy(Field(data, "token")) ==> r.value == Field(data, "token")
    ensures r.Ok? && !Truthy(Field(data, "token")) && Truthy(GetOptional(Field(data, "data"), "token")) ==>
      r.value == GetOptional(Field(data, "data"), "token")
    ensures r.Ok? && !Truthy(Field(data, "token")) && !Truthy(GetOptional(Field(data, "data"), "token")) ==>
      r.value == Field(data, "access_token")
  {
    match Get(data, "token")
    case Err(te) => Err(te)
    case Ok(token) => Ok(Or(Or(token, GetOptional(Field(data, "data"), "token")), Field(data, "access_token")))
  }

  /**
   * What `login` makes of the answer to its request: the returned body and the
   * string `setItem` stores, or the error it throws.
   */
  function LoginOutcome(outcome: FetchOutcome): (r: Result<(JsValue, string), Thrown>)
    ensures outcome.Err? ==> r == Err(outcome.error)
    ensures outcome.Ok? && !IsOk(outcome.value.status) ==> r == Err(LoginFailure(outcome.value.body))
    ensures outcome.Ok? && IsOk(outcome.value.status) && outcome.value.body.NotJson? ==>
      r == Err(SyntaxError(outcome.value.body.parseError))
  {
    match outcome
    case Err(e) => Err(e)
    case Ok(response) =>
      if !IsOk(response.status) then Err(LoginFailure(response.body))
      else
        match ReadJson(response.body)
        case Err(e) => Err(e)
        case Ok(data) =>
          match ExtractToken(data)
          case Err(e) => Err(e)
          case Ok(token) =>
            if !Truthy(token) then Err(PlainError(NoTokenReceived)) else Ok((data, ToJsString(token)))
  }

  /** The session service; `storage` is the browser's local storage. */
  class AuthService {
    const apiBaseUrl: string
    var storage: map<string, string>

    constructor (apiBaseUrl: string, storage: map<string, string>)
      ensures this.apiBaseUrl == apiBaseUrl && this.storage == storage
    {
      this.apiBaseUrl := apiBaseUrl;
      this.storage := storage;
    }

    /** `login(credentials)`: on success the token is stored and the body returned; on any error storage is untouched. */
    method Login(credentials: JsValue, fetch: Request -> FetchOutcome) returns (r: Result<JsValue, Thrown>)
      modifies this
      ensures var outcome := LoginOutcome(fetch(LoginRequest(apiBaseUrl, credentials)));
        match outcome
        case Ok((data, token)) => r == Ok(data) && storage == old(storage)[TokenKey := token]
        case Err(e) => r == Err(e) && storage == old(storage)
    {
      var outcome := LoginOutcome(fetch(LoginRequest(apiBaseUrl, credentials)));
      match outcome
      case Err(e) =>
        r := Err(e);
      case Ok((data, token)) =>
        storage := storage[TokenKey := token];
        r := Ok(data);
    }

    /** `logout()`: removes the token and nothing else. */
    method Logout()
      modifies this
      ensures storage == old(storage) - {TokenKey}
      ensures GetToken() == None
    {
      storage := storage - {TokenKey};
    }

    /** `getToken()`: the stored token, `null` when there is none. */
    function GetToken(): (token: Option<string>)
      reads this
      ensures token.Some? <==> TokenKey in storage
      ensures token.Some? ==> token.value == storage[TokenKey]
    {
      if TokenKey in storage then Some(storage[TokenKey]) else None
    }

    /**
     * `isAuthenticated()` at time `now` (milliseconds); `decodeExp` stands for
     * reading `exp` out of the token's payload, `None` when that throws or gives no number.
     */
    function IsAuthenticated(decodeExp: string -> Option<int>, now: int): (ok: bool)
      reads this
      ensures ok <==> (TokenKey in storage && storage[TokenKey] != "" &&
                       decodeExp(storage[TokenKey]).Some? && decodeExp(storage[TokenKey]).value * 1000 > now)
    {
      match GetToken()
      case None => false
      case Some(token) =>
        if token == "" then false
        else
          match decodeExp(token)
          case None => false
          case Some(exp) => exp * 1000 > now
    }

    /** `getAuthHeaders()`: the bearer header exactly when the token is a non-empty string, else `{}`. */
    function GetAuthHeaders(): (headers: map<string, string>)
      reads this
      ensures "Authorization" in headers <==> TokenKey in storage && storage[TokenKey] != ""
      ensures "Authorization" in headers ==> headers["Authorization"] == "Bearer " + storage[TokenKey]
      ensures headers.Keys <= {"Authorization"}
    {
      match GetToken()
      case Some(token) => if token != "" then map["Authorization" := "Bearer " + token] else map[]
      case None => map[]
    }
  }

  /** Each of the three response shapes delivers its token; a top-level `token` wins over the others. */
  lemma ThreeTokenShapes(t: string, other: string)
    requires t != ""
    ensures ExtractToken(Obj(map["token" := Str(t)])) == Ok(Str(t))
    ensures ExtractToken(Obj(map["data" := Obj(map["token" := Str(t)])])) == Ok(Str(t))
    ensures ExtractToken(Obj(map["access_token" := Str(t)])) == Ok(Str(t))
    ensures ExtractToken(Obj(map["token" := Str(t), "access_token" := Str(other)])) == Ok(Str(t))
  {
  }

  /** A 2xx login whose body carries a token stores it and returns the body. */
  lemma LoginStoresToken(status: int, data: JsValue)
    requires IsOk(status) && !IsNullish(data)
    requires ExtractToken(data).Ok? && Truthy(ExtractToken(data).value)
    ensures LoginOutcome(Ok(Response(status, Json(data)))) == Ok((data, ToJsString(ExtractToken(data).value)))
  {
  }

  /** A 2xx login without any of the three token fields fails with the fixed message. */
  lemma LoginWithoutToken(status: int, fields: map<string, JsValue>)
    requires IsOk(status) && "token" !in fields && "data" !in fields && "access_token" !in fields
    ensures LoginOutcome(Ok(Response(status, Json(Obj(fields))))) == Err(PlainError(NoTokenReceived))
  {
  }

  /** A rejected login throws the server's message when there is one, `'Login failed'` otherwise. */
  lemma RejectedLoginMessage(status: int, message: string, parseError: string)
    requires !IsOk(status)
    ensures message != "" ==>
      LoginOutcome(Ok(Response(status, Json(Obj(map["error" := Obj(map["message" := Str(message)])]))))) == Err(PlainError(message))
    ensures LoginOutcome(Ok(Response(status, Json(Obj(map["error" := Obj(map["message" := Str("")])]))))) == Err(PlainError(LoginFailed))
    ensures LoginOutcome(Ok(Response(status, NotJson(parseError)))) == Err(PlainError(LoginFailed))
  {
  }

  /** Authentication only expires: authenticated at some time means authenticated at every earlier time. */
  lemma AuthenticatedEarlier(auth: AuthService, decodeExp: string -> Option<int>, earlier: int, now: int)
    requires earlier <= now && auth.IsAuthenticated(decodeExp, now)
    ensures auth.IsAuthenticated(decodeExp, earlier)
  {
  }

  /** Without a stored token nobody is authenticated, and no header is sent. */
  lemma NoTokenNoSession(auth: AuthService, decodeExp: string -> Option<int>, now: int)
    requires auth.GetToken() == None || auth.GetToken() == Some("")
    ensures !auth.IsAuthenticated(decodeExp, now) && auth.GetAuthHeaders() == map[]
  {
  }
}
