/**
 * The JavaScript values the services pass around: parsed JSON bodies, their
 * truthiness, property reads (which throw on `null` and `undefined`), `String(v)`,
 * and the error objects that are thrown.
 */
module JsValues {
  import opened Wrappers
  import opened Text

  /** A value produced by `JSON.parse` (numbers restricted to integers), plus `undefined`. */
  datatype JsValue =
    | Undefined
    | Null
    | Bool(b: bool)
    | Num(n: int)
    | Str(s: string)
    | Arr(items: seq<JsValue>)
    | Obj(fields: map<string, JsValue>)

  predicate IsNullish(v: JsValue) {
    v.Undefined? || v.Null?
  }

  /** JavaScript truthiness: `undefined`, `null`, `false`, `0` and `''` are falsy. */
  predicate Truthy(v: JsValue) {
    match v
    case Undefined => false
    case Null => false
    case Bool(b) => b
    case Num(n) => n != 0
    case Str(s) => s != ""
    case Arr(_) => true
    case Obj(_) => true
  }

  /** `a || b` */
  function Or(a: JsValue, b: JsValue): JsValue {
    if Truthy(a) then a else b
  }

  /** An error thrown by the code or by the runtime. */
  datatype Thrown =
    | PlainError(message: string)     // `new Error(message)`
    | TypeError(message: string)      // a property read on null/undefined, a call of a non-function, a failed fetch
    | SyntaxError(message: string)    // `response.json()` on a body that is not JSON
    | ApiRequestError(message: string, code: JsValue, status: int, details: JsValue)
    | NotAnError(value: JsValue)      // a thrown value that is not an `Error` instance
  {
    /** `err instanceof Error` */
    predicate IsErrorInstance() {
      !NotAnError?
    }
  }

  /** `err instanceof Error ? err.message : fallback` */
  function MessageOr(err: Thrown, fallback: string): (m: string)
    ensures err.IsErrorInstance() ==> m == err.message
    ensures !err.IsErrorInstance() ==> m == fallback
  {
    if err.IsErrorInstance() then err.message else fallback
  }

  /** `err instanceof Error ? err : new Error(fallback)` */
  function AsError(err: Thrown, fallback: string): (e: Thrown)
    ensures e.IsErrorInstance()
    ensures err.IsErrorInstance() ==> e == err
    ensures !err.IsErrorInstance() ==> e == PlainError(fallback)
  {
    if err.IsErrorInstance() then err else PlainError(fallback)
  }

  /** The message V8 gives the TypeError of a property read on null or undefined. */
  function NullishReadMessage(base: JsValue, key: string): string
    requires IsNullish(base)
  {
    "Cannot read properties of " + (if base.Null? then "null" else "undefined") + " (reading '" + key + "')"
  }

  /** The value of `v.key` once `v` is known not to be null or undefined. */
  function Field(v: JsValue, key: string): JsValue {
    if v.Obj? && key in v.fields then v.fields[key] else Undefined
  }

  /** `v.key`: throws a TypeError when `v` is null or undefined. */
  function Get(v: JsValue, key: string): (r: Result<JsValue, Thrown>)
    ensures r.Err? <==> IsNullish(v)
    ensures r.Ok? ==> r.value == Field(v, key)
  {
    if IsNullish(v) then Err(TypeError(NullishReadMessage(v, key))) else Ok(Field(v, key))
  }

  /** `v?.key`: undefined when `v` is null or undefined. */
  function GetOptional(v: JsValue, key: string): JsValue {
    if IsNullish(v) then Undefined else Field(v, key)
  }

  /** `String(v)` */
  function ToJsString(v: JsValue): string
    decreases v, 1
  {
    match v
    case Undefined => "undefined"
    case Null => "null"
    case Bool(b) => if b then "true" else "false"
    case Num(n) => IntToDecimal(n)
    case Str(s) => s
    case Arr(items) => JoinItems(v, items)
    case Obj(_) => "[object Object]"
  }

  /** `items.join(',')` as `Array.prototype.toString` does it: null and undefined print as ''. */
  function JoinItems(parent: JsValue, items: seq<JsValue>): string
    requires forall x :: x in items ==> x < parent
    decreases parent, 0, |items|
  {
    if items == [] then ""
    else
      assert items[0] in items && forall x :: x in items[1..] ==> x in items;
      var first := if IsNullish(items[0]) then "" else ToJsString(items[0]);
      if |items| == 1 then first else first + "," + JoinItems(parent, items[1..])
  }

  /** The message of `new Error(v)`: '' for undefined, `String(v)` otherwise. */
  function ErrorMessageOf(v: JsValue): string {
    if v.Undefined? then "" else ToJsString(v)
  }
}
