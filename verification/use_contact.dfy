/**
 * The contact-form hook: submitting, success, the error message, and the
 * dictionary of per-field messages taken from the server's error details.
 */
module UseContact {
  import opened Wrappers
  import opened JsValues

  const UnexpectedError: string := "An unexpected error occurred. Please try again."

  /** The message V8 gives when `details` is truthy but has no `forEach` method. */
  const NotIterable: string := "error.details.forEach is not a function"

  /** The dictionary key `fieldErrors[detail.field]` writes: the field as a property key. */
  function KeyOf(detail: JsValue): string {
    ToJsString(Field(detail, "field"))
  }

  /**
   * The field-error dictionary built from the detail items in order, a later item
   * overwriting an earlier one with the same field; a null or undefined item throws.
   */
  function FieldErrorMap(details: seq<JsValue>): Result<map<string, JsValue>, Thrown> {
    if details == [] then Ok(map[])
    else
      match FieldErrorMap(details[..|details| - 1])
      case Err(e) => Err(e)
      case Ok(m) =>
        var detail := details[|details| - 1];
        if IsNullish(detail) then Err(TypeError(NullishReadMessage(detail, "field")))
        else Ok(m[KeyOf(detail) := Field(detail, "message")])
  }

  /** The dictionary is built exactly when no item is null or undefined, and then its keys are the items' fields. */
  lemma {:induction false} FieldErrorKeys(details: seq<JsValue>)
    ensures FieldErrorMap(details).Ok? <==> forall i :: 0 <= i < |details| ==> !IsNullish(details[i])
    ensures FieldErrorMap(details).Ok? ==>
      FieldErrorMap(details).value.Keys == set i | 0 <= i < |details| :: KeyOf(details[i])
  {
    if details != [] {
      var init := details[..|details| - 1];
      FieldErrorKeys(init);
      assert forall i :: 0 <= i < |init| ==> init[i] == details[i];
      if FieldErrorMap(details).Ok? {
        var keys := set i | 0 <= i < |details| :: KeyOf(details[i]);
        var initKeys := set i | 0 <= i < |init| :: KeyOf(init[i]);
        assert keys == initKeys + {KeyOf(details[|details| - 1])} by {
          forall k | k in keys ensures k in initKeys + {KeyOf(details[|details| - 1])} {
            var i :| 0 <= i < |details| && KeyOf(details[i]) == k;
            if i < |init| {
              assert KeyOf(init[i]) == k;
            }
          }
        }
      }
    }
  }

  /** The last item naming a field decides its message. */
  lemma {:induction false} LastDetailWins(details: seq<JsValue>, i: nat)
    requires i < |details| && FieldErrorMap(details).Ok?
    requires forall j :: i < j < |details| ==> KeyOf(details[j]) != KeyOf(details[i])
    ensures KeyOf(details[i]) in FieldErrorMap(details).value
    ensures FieldErrorMap(details).value[KeyOf(details[i])] == Field(details[i], "message")
  {
    var init := details[..|details| - 1];
    if i < |init| {
      assert forall j :: i < j < |init| ==> init[j] == details[j];
      LastDetailWins(init, i);
      assert init[i] == details[i];
    }
  }

  /** `if (error.details) error.details.forEach(...)`: falsy details give `{}`, a non-array throws. */
  function FieldErrorsOf(details: JsValue): (r: Result<map<string, JsValue>, Thrown>)
    ensures !Truthy(details) ==> r == Ok(map[])
    ensures Truthy(details) && !details.Arr? ==> r == Err(TypeError(NotIterable))
    ensures details.Arr? ==> r == FieldErrorMap(details.items)
  {
    if !Truthy(details) then Ok(map[])
    else if details.Arr? then FieldErrorMap(details.items)
    else Err(TypeError(NotIterable))
  }

  /** `error.details.forEach((detail) => { fieldErrors[detail.field] = detail.message })` */
  method CollectFieldErrors(details: seq<JsValue>) returns (r: Result<map<string, JsValue>, Thrown>)
    ensures r == FieldErrorMap(details)
  {
    var fieldErrors: map<string, JsValue> := map[];
    var k := 0;
    while k < |details|
      invariant 0 <= k <= |details|
      invariant FieldErrorMap(details[..k]) == Ok(fieldErrors)
    {
      assert details[..k + 1][..k] == details[..k];
      var detail := details[k];
      if IsNullish(detail) {
        ThrowStops(details, k + 1);
        return Err(TypeError(NullishReadMessage(detail, "field")));
      }
      fieldErrors := fieldErrors[KeyOf(detail) := Field(detail, "message")];
      k := k + 1;
    }
    assert details[..k] == details;
    r := Ok(fieldErrors);
  }

  /** Once an item throws, the items after it change nothing: the same error comes out. */
  lemma {:induction false} ThrowStops(details: seq<JsValue>, n: nat)
    requires 0 < n <= |details| && FieldErrorMap(details[..n]).Err?
    ensures FieldErrorMap(details) == FieldErrorMap(details[..n])
    decreases |details| - n
  {
    if n < |details| {
      var init := details[..|details| - 1];
      assert init[..n] == details[..n];
      ThrowStops(init, n);
    } else {
      assert details[..n] == details;
    }
  }

  /** `useContactForm()` */
  class ContactFormView {
    var isSubmitting: bool
    var isSuccess: bool
    var error: Option<string>
    var fieldErrors: map<string, JsValue>

    constructor ()
      ensures !isSubmitting && !isSuccess && error == None && fieldErrors == map[]
    {
      isSubmitting := false;
      isSuccess := false;
      error := None;
      fieldErrors := map[];
    }

    /** `submit` starts: submitting, with every earlier outcome cleared. */
    method StartSubmit()
      modifies this
      ensures isSubmitting && !isSuccess && error == None && fieldErrors == map[]
    {
      isSubmitting := true;
      isSuccess := false;
      error := None;
      fieldErrors := map[];
    }

    /**
     * `submit` settles with the outcome of the post: success; an API error with its
     * message and field errors; any other error with the fixed message. When building
     * the field errors throws, `submit` rejects and the state stays as it was.
     */
    method FinishSubmit(outcome: Result<JsValue, Thrown>) returns (r: Result<bool, Thrown>)
      modifies this
      ensures outcome.Ok? ==> r == Ok(true) && !isSubmitting && isSuccess && error == None && fieldErrors == map[]
      ensures outcome.Err? && !outcome.error.ApiRequestError? ==>
        r == Ok(false) && !isSubmitting && !isSuccess && error == Some(UnexpectedError) && fieldErrors == map[]
      ensures outcome.Err? && outcome.error.ApiRequestError? ==>
        match FieldErrorsOf(outcome.error.details)
        case Ok(m) => r == Ok(false) && !isSubmitting && !isSuccess && error == Some(outcome.error.message) && fieldErrors == m
        case Err(e) => r == Err(e) && isSubmitting == old(isSubmitting) && isSuccess == old(isSuccess)
                       && error == old(error) && fieldErrors == old(fieldErrors)
    {
      match outcome {
        case Ok(_) =>
          isSubmitting, isSuccess, error, fieldErrors := false, true, None, map[];
          r := Ok(true);
        case Err(e) =>
          if e.ApiRequestError? {
            var collected: Result<map<string, JsValue>, Thrown>;
            if !Truthy(e.details) {
              collected := Ok(map[]);
            } else if e.details.Arr? {
              collected := CollectFieldErrors(e.details.items);
            } else {
              collected := Err(TypeError(NotIterable));
            }
            match collected {
              case Ok(m) =>
                isSubmitting, isSuccess, error, fieldErrors := false, false, Some(e.message), m;
                r := Ok(false);
              case Err(t) =>
                r := Err(t);
            }
          } else {
            isSubmitting, isSuccess, error, fieldErrors := false, false, Some(UnexpectedError), map[];
            r := Ok(false);
          }
      }
    }

    /** `reset()`: back to the initial state. */
    method Reset()
      modifies this
      ensures !isSubmitting && !isSuccess && error == None && fieldErrors == map[]
    {
      isSubmitting, isSuccess, error, fieldErrors := false, false, None, map[];
    }
  }
}
