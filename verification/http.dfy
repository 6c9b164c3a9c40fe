/**
 * What the services hand to `fetch` and what they get back, reduced to the parts
 * the code looks at: the URL, the method, the header record and the value that is
 * JSON-encoded as the body; the status and whether the body parses as JSON.
 */
module Http {
  import opened Wrappers
  import opened Text
  import opened JsValues

  /** The request methods the services use; `fetch` defaults to GET when `init.method` is absent. */
  datatype Method = GET | POST | PUT | PATCH | DELETE

  /** A request: the body is the value before `JSON.stringify`, `None` when no body is sent. */
  datatype Request = Request(url: string, verb: Method, headers: map<string, string>, body: Option<JsValue>)

  /** The `RequestInit` a service passes: method, caller headers and body. */
  datatype Options = Options(verb: Method, headers: map<string, string>, body: Option<JsValue>)

  /** The `{}` default of an options parameter. */
  const NoOptions: Options := Options(GET, map[], None)

  /** A response body: JSON text (already parsed), or text on which `JSON.parse` fails with the given message. */
  datatype Body = Json(value: JsValue) | NotJson(parseError: string)

  datatype Response = Response(status: int, body: Body)

  /** `await fetch(...)`: a response, or the rejection (a TypeError on a network failure). */
  type FetchOutcome = Result<Response, Thrown>

  /** The default base URL, used when the build-time variable is unset or empty. */
  const DefaultApiBaseUrl: string := "https://api.yarikama.com/api/v1"

  /** The header record every service starts from. */
  const JsonContentType: map<string, string> := map["Content-Type" := "application/json"]

  /** `import.meta.env.VITE_API_BASE_URL || default`: the variable when it is set and non-empty. */
  function ApiBaseUrl(env: Option<string>): (url: string)
    ensures env.Some? && env.value != "" ==> url == env.value
    ensures env.None? || env.value == "" ==> url == DefaultApiBaseUrl
  {
    if env.Some? && env.value != "" then env.value else DefaultApiBaseUrl
  }

  /** `response.ok` */
  predicate IsOk(status: int) {
    200 <= status <= 299
  }

  /** `await response.json()`: the parsed value, or the SyntaxError `JSON.parse` throws. */
  function ReadJson(body: Body): (r: Result<JsValue, Thrown>)
    ensures r.Ok? <==> body.Json?
    ensures r.Ok? ==> r.value == body.value
    ensures r.Err? ==> r.error == SyntaxError(body.parseError)
  {
    match body
    case Json(v) => Ok(v)
    case NotJson(m) => Err(SyntaxError(m))
  }

  /** `await response.json().catch(() => fallback)` */
  function ReadJsonOr(body: Body, fallback: JsValue): JsValue {
    match body
    case Json(v) => v
    case NotJson(_) => fallback
  }

  /** `{ ...base, ...over }` on header records: every key of either, and a key of `over` wins. */
  function Spread(base: map<string, string>, over: map<string, string>): (r: map<string, string>)
    ensures r.Keys == base.Keys + over.Keys
    ensures forall k :: k in over ==> r[k] == over[k]
    ensures forall k :: k in base && k !in over ==> r[k] == base[k]
    ensures over == map[] ==> r == base
  {
    base + over
  }
}
