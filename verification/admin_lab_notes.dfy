/**
 * The admin lab-notes service: every call goes through an authenticated fetch
 * that adds the bearer header, logs out and redirects on 401, and turns other
 * failures into plain errors.
 */
module AdminLabNotes {
  import opened Wrappers
  import opened Text
  import opened JsValues
  import opened Http
  import opened Auth

  /** Where a 401 sends the browser. */
  const LoginPath: string := "/admin/login"

  const Unauthorized: string := "Unauthorized"

  /** The limit `getAll` uses when the caller gives none. */
  const DefaultLimit: int := 100

  /**
   * The headers of an authenticated request: `{ 'Content-Type', ...authHeaders, ...options.headers }`,
   * so caller headers win over the auth header, which wins over the content type.
   */
  function AuthHeaders(authHeaders: map<string, string>, callerHeaders: map<string, string>): (h: map<string, string>)
    ensures h.Keys == {"Content-Type"} + authHeaders.Keys + callerHeaders.Keys
    ensures forall k :: k in callerHeaders ==> h[k] == callerHeaders[k]
    ensures forall k :: k in authHeaders && k !in callerHeaders ==> h[k] == authHeaders[k]
    ensures "Content-Type" !in authHeaders && "Content-Type" !in callerHeaders ==> h["Content-Type"] == "application/json"
  {
    Spread(Spread(JsonContentType, authHeaders), callerHeaders)
  }

  /** The error of a non-2xx, non-401 response: the server's `error.message`, else `Request failed: <status>`. */
  function RequestFailure(status: int, body: Body): (e: Thrown)
    ensures body.Json? && IsNullish(body.value) ==> e.TypeError?
    ensures !(body.Json? && IsNullish(body.value)) ==> e.PlainError?
  {
    var error := ReadJsonOr(body, Obj(map[]));
    match Get(error, "error")
    case Err(te) => te
    case Ok(inner) => PlainError(ErrorMessageOf(Or(GetOptional(inner, "message"), Str("Request failed: " + IntToDecimal(status)))))
  }

  /** What `authFetch` returns or throws for the answer to its request: 401 first, then any other failure, then 204, then the body. */
  function Settle(outcome: FetchOutcome): (r: Result<JsValue, Thrown>)
    ensures outcome.Err? ==> r == Err(outcome.error)
    ensures outcome.Ok? && outcome.value.status == 401 ==> r == Err(PlainError(Unauthorized))
    ensures outcome.Ok? && outcome.value.status != 401 && !IsOk(outcome.value.status) ==>
      r == Err(RequestFailure(outcome.value.status, outcome.value.body))
    ensures outcome.Ok? && outcome.value.status == 204 ==> r == Ok(Obj(map[]))
    ensures outcome.Ok? && IsOk(outcome.value.status) && outcome.value.status != 204 ==> r == ReadJson(outcome.value.body)
  {
    match outcome
    case Err(e) => Err(e)
    case Ok(response) =>
      if response.status == 401 then Err(PlainError(Unauthorized))
      else if !IsOk(response.status) then Err(RequestFailure(response.status, response.body))
      else if response.status == 204 then Ok(Obj(map[]))
      else ReadJson(response.body)
  }

  /** Whether the answer is the 401 that logs the user out. */
  predicate IsUnauthorized(outcome: FetchOutcome) {
    outcome.Ok? && outcome.value.status == 401
  }

  /** The five service calls. */
  datatype Operation =
    | GetAll(limit: Option<int>)
    | GetById(id: string)
    | Create(data: JsValue)
    | Update(id: string, data: JsValue)
    | Delete(id: string)

  /** The URL and options of each call. */
  function Route(apiBaseUrl: string, op: Operation): (route: (string, Options))
    ensures op.GetAll? ==> route == (apiBaseUrl + "/admin/lab-notes?limit=" + IntToDecimal(op.limit.GetOr(DefaultLimit)), NoOptions)
    ensures op.GetById? ==> route == (apiBaseUrl + "/admin/lab-notes/" + op.id, NoOptions)
    ensures op.Create? ==> route == (apiBaseUrl + "/admin/lab-notes", Options(POST, map[], Some(op.data)))
    ensures op.Update? ==> route == (apiBaseUrl + "/admin/lab-notes/" + op.id, Options(PUT, map[], Some(op.data)))
    ensures op.Delete? ==> route == (apiBaseUrl + "/admin/lab-notes/" + op.id, Options(DELETE, map[], None))
  {
    match op
    case GetAll(limit) => (apiBaseUrl + "/admin/lab-notes?limit=" + IntToDecimal(limit.GetOr(DefaultLimit)), NoOptions)
    case GetById(id) => (apiBaseUrl + "/admin/lab-notes/" + id, NoOptions)
    case Create(data) => (apiBaseUrl + "/admin/lab-notes", Options(POST, map[], Some(data)))
    case Update(id, data) => (apiBaseUrl + "/admin/lab-notes/" + id, Options(PUT, map[], Some(data)))
    case Delete(id) => (apiBaseUrl + "/admin/lab-notes/" + id, Options(DELETE, map[], None))
  }

  /** A 401 is reported as `Unauthorized` whatever its body says. */
  lemma UnauthorizedIgnoresBody(b1: Body, b2: Body)
    ensures Settle(Ok(Response(401, b1))) == Settle(Ok(Response(401, b2))) == Err(PlainError(Unauthorized))
  {
  }

  /** Any other failure reports the server's message when it has one, the status otherwise. */
  lemma FailureMessage(status: int, message: string, parseError: string)
    requires !IsOk(status) && status != 401
    ensures message != "" ==>
      Settle(Ok(Response(status, Json(Obj(map["error" := Obj(map["message" := Str(message)])]))))) == Err(PlainError(message))
    ensures Settle(Ok(Response(status, NotJson(parseError)))) == Err(PlainError("Request failed: " + IntToDecimal(status)))
  {
  }

  /** `getAll()` without a limit asks for 100 notes. */
  lemma GetAllDefaultsToHundred(apiBaseUrl: string)
    ensures Route(apiBaseUrl, GetAll(None)).0 == apiBaseUrl + "/admin/lab-notes?limit=100"
  {
    HundredInDecimal();
  }

  lemma HundredInDecimal()
    ensures IntToDecimal(100) == "100"
  {
    assert NatToDecimal(1) == "1";
    assert NatToDecimal(10) == NatToDecimal(1) + [DigitChar(0)];
    assert NatToDecimal(100) == NatToDecimal(10) + [DigitChar(0)];
  }

  /** The service, with the session it authenticates with and the browser location it may change. */
  class AdminLabNotesService {
    const apiBaseUrl: string
    const auth: AuthService
    var location: string

    constructor (apiBaseUrl: string, auth: AuthService, location: string)
      ensures this.apiBaseUrl == apiBaseUrl && this.auth == auth && this.location == location
    {
      this.apiBaseUrl := apiBaseUrl;
      this.auth := auth;
      this.location := location;
    }

    /**
     * `authFetch(url, options)`: only a 401 logs out and moves the browser to
     * the login page; everything else leaves the session and location alone.
     */
    method AuthFetch(url: string, options: Options, fetch: Request -> FetchOutcome) returns (r: Result<JsValue, Thrown>)
      modifies this, auth
      ensures var outcome := fetch(Request(url, options.verb, AuthHeaders(old(auth.GetAuthHeaders()), options.headers), options.body));
        r == Settle(outcome) &&
        (if IsUnauthorized(outcome)
         then auth.storage == old(auth.storage) - {TokenKey} && location == LoginPath
         else auth.storage == old(auth.storage) && location == old(location))
    {
      var request := Request(url, options.verb, AuthHeaders(auth.GetAuthHeaders(), options.headers), options.body);
      var outcome := fetch(request);
      if IsUnauthorized(outcome) {
        auth.Logout();
        location := LoginPath;
      }
      r := Settle(outcome);
    }

    /** One service call: its route through `authFetch`; `delete` resolves to `undefined`. */
    method Call(op: Operation, fetch: Request -> FetchOutcome) returns (r: Result<JsValue, Thrown>)
      modifies this, auth
      ensures var route := Route(apiBaseUrl, op);
        var outcome := fetch(Request(route.0, route.1.verb, AuthHeaders(old(auth.GetAuthHeaders()), route.1.headers), route.1.body));
        r == (if op.Delete? && Settle(outcome).Ok? then Ok(Undefined) else Settle(outcome)) &&
        (if IsUnauthorized(outcome)
         then auth.storage == old(auth.storage) - {TokenKey} && location == LoginPath
         else auth.storage == old(auth.storage) && location == old(location))
    {
      var route := Route(apiBaseUrl, op);
      r := AuthFetch(route.0, route.1, fetch);
      if op.Delete? && r.Ok? {
        r := Ok(Undefined);
      }
    }
  }
}
