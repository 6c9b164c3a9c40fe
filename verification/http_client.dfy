/**
 * The public API client: the request each call sends (URL, method, headers,
 * body, query string) and how a response is turned into a value or an error.
 */
module HttpClient {
  import opened Wrappers
  import opened Text
  import opened JsValues
  import opened Http
  import opened ApiTypes

  /** A query parameter: the key and the value (`undefined` when the caller left it unset). */
  type Param = (string, JsValue)

  /** The body `response.json().catch(...)` falls back to when an error response is not JSON. */
  function UnknownErrorData(status: int): JsValue {
    Obj(map["error" := Obj(map["code" := Str("UNKNOWN_ERROR"), "message" := Str("HTTP error " + IntToDecimal(status))])])
  }

  /**
   * `throw new ApiRequestError(errorData.error.message, errorData.error.code, status, errorData.error.details)`:
   * the arguments are read left to right, so a missing `error` object (or a
   * `null` body) throws the TypeError of the first read instead.
   */
  function ErrorFromData(status: int, errorData: JsValue): (e: Thrown)
    ensures IsNullish(errorData) || IsNullish(Field(errorData, "error")) ==> e.TypeError?
    ensures !IsNullish(errorData) && !IsNullish(Field(errorData, "error")) ==>
      var inner := Field(errorData, "error");
      e == ApiRequestError(ErrorMessageOf(Field(inner, "message")), Field(inner, "code"), status, Field(inner, "details"))
  {
    match Get(errorData, "error")
    case Err(te) => te
    case Ok(inner) =>
      match Get(inner, "message")
      case Err(te) => te
      case Ok(message) => ApiRequestError(ErrorMessageOf(message), Field(inner, "code"), status, Field(inner, "details"))
  }

  /**
   * The outcome of `request` once `fetch` has answered: the error check comes
   * first, then 204 gives `{}` without reading the body, then the parsed body.
   */
  function Classify(response: Response): (r: Result<JsValue, Thrown>)
    ensures !IsOk(response.status) ==> r.Err?
    ensures IsOk(response.status) && response.status == 204 ==> r == Ok(Obj(map[]))
    ensures IsOk(response.status) && response.status != 204 ==> r == ReadJson(response.body)
  {
    if !IsOk(response.status) then
      Err(ErrorFromData(response.status, ReadJsonOr(response.body, UnknownErrorData(response.status))))
    else if response.status == 204 then
      Ok(Obj(map[]))
    else
      ReadJson(response.body)
  }

  /** What `request` makes of `await fetch(...)`: a rejection propagates, a response is classified. */
  function Answer(outcome: FetchOutcome): (r: Result<JsValue, Thrown>)
    ensures outcome.Err? ==> r == Err(outcome.error)
    ensures outcome.Ok? ==> r == Classify(outcome.value)
  {
    match outcome
    case Err(e) => Err(e)
    case Ok(response) => Classify(response)
  }

  /** The parameters whose value is not `undefined`, as strings (`String(value)`), in their order. */
  function DefinedPairs(params: seq<Param>): (pairs: seq<(string, string)>)
    ensures |pairs| <= |params|
  {
    if params == [] then []
    else
      var last := params[|params| - 1];
      DefinedPairs(params[..|params| - 1]) + if last.1.Undefined? then [] else [(last.0, ToJsString(last.1))]
  }

  /** `URLSearchParams.toString()` on keys and values that need no escaping: `k=v` joined by `&`. */
  function Serialize(pairs: seq<(string, string)>): (query: string)
    ensures query == [] <==> pairs == []
  {
    if pairs == [] then []
    else if |pairs| == 1 then pairs[0].0 + "=" + pairs[0].1
    else pairs[0].0 + "=" + pairs[0].1 + "&" + Serialize(pairs[1..])
  }

  /** The endpoint `get` requests: a `?` and the query only when the query is not empty. */
  function GetEndpoint(endpoint: string, params: Option<seq<Param>>): (r: string)
    ensures params.None? ==> r == endpoint
  {
    match params
    case None => endpoint
    case Some(ps) =>
      var query := Serialize(DefinedPairs(ps));
      if query != [] then endpoint + "?" + query else endpoint
  }

  /** `data ? JSON.stringify(data) : undefined`: a body only for a truthy `data`. */
  function BodyOf(data: JsValue): (body: Option<JsValue>)
    ensures body.Some? <==> Truthy(data)
    ensures body.Some? ==> body.value == data
  {
    if Truthy(data) then Some(data) else None
  }

  /** Appending parameters filters each part on its own: the order of the parameters is kept. */
  lemma {:induction false} DefinedPairsAppend(a: seq<Param>, b: seq<Param>)
    ensures DefinedPairs(a + b) == DefinedPairs(a) + DefinedPairs(b)
    decreases |b|
  {
    if b == [] {
      assert a + b == a;
    } else {
      var b' := b[..|b| - 1];
      assert (a + b)[..|a + b| - 1] == a + b';
      assert (a + b)[|a + b| - 1] == b[|b| - 1];
      DefinedPairsAppend(a, b');
    }
  }

  /** An `undefined` parameter adds nothing to the query, wherever it sits. */
  lemma UndefinedParamIsSkipped(a: seq<Param>, key: string, b: seq<Param>)
    ensures DefinedPairs(a + [(key, Undefined)] + b) == DefinedPairs(a + b)
  {
    DefinedPairsAppend(a + [(key, Undefined)], b);
    DefinedPairsAppend(a, [(key, Undefined)]);
    DefinedPairsAppend(a, b);
    assert [(key, Undefined)][..0] == [];
  }

  /** When every value is defined, every parameter appears once, in order, with `String(value)`. */
  lemma {:induction false} DefinedParamsAreAllKept(params: seq<Param>)
    requires forall i :: 0 <= i < |params| ==> !params[i].1.Undefined?
    ensures |DefinedPairs(params)| == |params|
    ensures forall i :: 0 <= i < |params| ==> DefinedPairs(params)[i] == (params[i].0, ToJsString(params[i].1))
  {
    if params != [] {
      DefinedParamsAreAllKept(params[..|params| - 1]);
    }
  }

  /** No pair at all exactly when every value is `undefined`. */
  lemma {:induction false} NoPairsIffAllUndefined(params: seq<Param>)
    ensures DefinedPairs(params) == [] <==> forall i :: 0 <= i < |params| ==> params[i].1.Undefined?
  {
    if params != [] {
      var init := params[..|params| - 1];
      NoPairsIffAllUndefined(init);
      assert forall i :: 0 <= i < |init| ==> init[i] == params[i];
    }
  }

  /** `get` adds `?` and the query exactly when some parameter is defined, and never otherwise. */
  lemma QueryOnlyForDefinedParams(endpoint: string, params: seq<Param>)
    ensures GetEndpoint(endpoint, Some(params)) == endpoint <==> forall i :: 0 <= i < |params| ==> params[i].1.Undefined?
    ensures (exists i :: 0 <= i < |params| && !params[i].1.Undefined?) ==>
      GetEndpoint(endpoint, Some(params)) == endpoint + "?" + Serialize(DefinedPairs(params))
  {
    NoPairsIffAllUndefined(params);
    var query := Serialize(DefinedPairs(params));
    if query != [] {
      assert |endpoint + "?" + query| > |endpoint|;
    }
  }

  /** An error response carrying the envelope becomes an ApiRequestError with its code, message, details and the status. */
  lemma EnvelopeBecomesApiRequestError(status: int, code: string, message: string, details: JsValue)
    requires !IsOk(status)
    ensures Classify(Response(status, Json(Obj(map["error" := Obj(map["code" := Str(code), "message" := Str(message), "details" := details])]))))
         == Err(ApiRequestError(message, Str(code), status, details))
  {
  }

  /** An error response carrying a typed `ApiError` envelope becomes the ApiRequestError with its fields. */
  lemma TypedEnvelopeBecomesApiRequestError(status: int, e: ApiError)
    requires !IsOk(status)
    ensures Classify(Response(status, Json(ApiErrorJson(e))))
         == Err(ApiRequestError(e.message, Str(e.code), status,
                                if e.details.Some? then FieldErrorsJson(e.details.value) else Undefined))
  {
  }

  /** An error response whose body is not JSON reports UNKNOWN_ERROR and `HTTP error <status>`, without details. */
  lemma UnparsableErrorBody(status: int, parseError: string)
    requires !IsOk(status)
    ensures Classify(Response(status, NotJson(parseError)))
         == Err(ApiRequestError("HTTP error " + IntToDecimal(status), Str("UNKNOWN_ERROR"), status, Undefined))
  {
  }

  /** An error response whose JSON body has no `error` object throws a TypeError, not an ApiRequestError. */
  lemma ErrorBodyWithoutEnvelope(status: int, data: JsValue)
    requires !IsOk(status) && IsNullish(Field(data, "error"))
    ensures Classify(Response(status, Json(data))).Err?
    ensures Classify(Response(status, Json(data))).error.TypeError?
  {
  }

  /** The API client: every request goes to `baseUrl` followed by the endpoint. */
  class ApiClient {
    const baseUrl: string

    /** `new ApiClient(baseUrl = API_BASE_URL)` */
    constructor (baseUrl: string)
      ensures this.baseUrl == baseUrl
    {
      this.baseUrl := baseUrl;
    }

    /** The request `request(endpoint, options)` hands to `fetch`: caller headers override the JSON content type. */
    function Config(endpoint: string, options: Options): (req: Request)
      ensures req.url == baseUrl + endpoint
      ensures req.verb == options.verb && req.body == options.body
      ensures req.headers.Keys == options.headers.Keys + {"Content-Type"}
      ensures forall k :: k in options.headers ==> req.headers[k] == options.headers[k]
      ensures "Content-Type" !in options.headers ==> req.headers["Content-Type"] == "application/json"
    {
      Request(baseUrl + endpoint, options.verb, Spread(JsonContentType, options.headers), options.body)
    }

    /** `request(endpoint, options)`: the answer to the configured request. */
    function Send(endpoint: string, options: Options, fetch: Request -> FetchOutcome): (r: Result<JsValue, Thrown>)
      ensures r == Answer(fetch(Request(baseUrl + endpoint, options.verb, Spread(JsonContentType, options.headers), options.body)))
    {
      Answer(fetch(Config(endpoint, options)))
    }

    /** The query string of `get`: one `append` per defined value, in order, then `toString()`. */
    method QueryString(params: seq<Param>) returns (query: string)
      ensures query == Serialize(DefinedPairs(params))
    {
      var pairs: seq<(string, string)> := [];
      var i := 0;
      while i < |params|
        invariant 0 <= i <= |params|
        invariant pairs == DefinedPairs(params[..i])
      {
        assert params[..i + 1][..i] == params[..i];
        if !params[i].1.Undefined? {
          pairs := pairs + [(params[i].0, ToJsString(params[i].1))];
        }
        i := i + 1;
      }
      assert params[..i] == params;
      query := Serialize(pairs);
    }

    /** `get(endpoint, params)` */
    method Get(endpoint: string, params: Option<seq<Param>>, fetch: Request -> FetchOutcome) returns (r: Result<JsValue, Thrown>)
      ensures r == Answer(fetch(Request(baseUrl + GetEndpoint(endpoint, params), GET, JsonContentType, None)))
    {
      var finalEndpoint := endpoint;
      if params.Some? {
        var query := QueryString(params.value);
        finalEndpoint := if query != [] then endpoint + "?" + query else endpoint;
      }
      r := Send(finalEndpoint, NoOptions, fetch);
    }

    /** `post(endpoint, data)`: POST, with a body only for a truthy `data`. */
    function Post(endpoint: string, data: JsValue, fetch: Request -> FetchOutcome): (r: Result<JsValue, Thrown>)
      ensures r == Answer(fetch(Request(baseUrl + endpoint, POST, JsonContentType, if Truthy(data) then Some(data) else None)))
    {
      Send(endpoint, Options(POST, map[], BodyOf(data)), fetch)
    }

    /** `put(endpoint, data)`: PUT, with a body only for a truthy `data`. */
    function Put(endpoint: string, data: JsValue, fetch: Request -> FetchOutcome): (r: Result<JsValue, Thrown>)
      ensures r == Answer(fetch(Request(baseUrl + endpoint, PUT, JsonContentType, if Truthy(data) then Some(data) else None)))
    {
      Send(endpoint, Options(PUT, map[], BodyOf(data)), fetch)
    }

    /** `patch(endpoint, data)`: PATCH, with a body only for a truthy `data`. */
    function Patch(endpoint: string, data: JsValue, fetch: Request -> FetchOutcome): (r: Result<JsValue, Thrown>)
      ensures r == Answer(fetch(Request(baseUrl + endpoint, PATCH, JsonContentType, if Truthy(data) then Some(data) else None)))
    {
      Send(endpoint, Options(PATCH, map[], BodyOf(data)), fetch)
    }

    /** `delete(endpoint)`: DELETE, never a body. */
    function Delete(endpoint: string, fetch: Request -> FetchOutcome): (r: Result<JsValue, Thrown>)
      ensures r == Answer(fetch(Request(baseUrl + endpoint, DELETE, JsonContentType, None)))
    {
      Send(endpoint, Options(DELETE, map[], None), fetch)
    }
  }
}
