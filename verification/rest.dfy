/** The classifier for generic REST API errors: a status plus one of the common body shapes. */
module RestSource {
  import opened Wrappers
  import opened JsValue
  import opened Types
  import opened ErrorRecord
  import opened MessageExtract
  import opened StatusExtract
  import opened HttpStatus

  const ValidationErrorsMessage: string := "Validation errors occurred"

  /** Worth retrying only for a transient status; a missing status is not. */
  function RestRetryable(status: Option<int>): (b: bool)
    ensures b <==> StatusType(FromNumber(status), UnknownError) in TransientTypes
    ensures !Truthy(FromNumber(status)) ==> !b
  {
    var s := FromNumber(status);
    if !Truthy(s) then false
    else if AtLeast500(s) then true
    else s == Num(429)
  }

  /**
   * The body to read: `response.data` when the error has an object response
   * whose data is truthy; otherwise the error itself.
   */
  function RestPayload(e: Value): (d: Value)
    ensures IsObject(e) && IsObject(Get(e, "response")) && Truthy(Get(Get(e, "response"), "data")) ==>
      d == Get(Get(e, "response"), "data")
    ensures !(IsObject(e) && IsObject(Get(e, "response")) && Truthy(Get(Get(e, "response"), "data"))) ==>
      d == e
    ensures Truthy(e) ==> Truthy(d)
  {
    if IsObject(e) && IsObject(Get(e, "response")) then Or(Get(Get(e, "response"), "data"), e) else e
  }

  /** An object body with no string under `error`, `message` or `detail`. */
  predicate NoNamedMessage(d: Value) {
    IsObject(d) && !Get(d, "error").Str? && !Get(d, "message").Str? && !Get(d, "detail").Str?
  }

  /** The `errors`-array step answers: the array is empty, or its first entry is a string or has a string `message`. */
  predicate ArrayStepAnswers(errors: Value) {
    errors.Arr?
    && (|errors.elems| == 0 || errors.elems[0].Str?
        || (IsObject(errors.elems[0]) && Get(errors.elems[0], "message").Str?))
  }

  /** The `errors`-object step answers: its first value is a string or a non-empty array. */
  predicate ObjectStepAnswers(errors: Value) {
    FirstValue(errors).Some?
    && (FirstValue(errors).value.Str?
        || (FirstValue(errors).value.Arr? && |FirstValue(errors).value.elems| > 0))
  }

  /**
   * The message as the source computes it. Every branch yields a string
   * except one: for an `errors` object whose first value is a non-empty
   * array, the array's first element is returned whatever its type.
   */
  function RestMessageValue(d: Value): (r: Value)
    ensures d == Null || d == Undefined ==> r == Str(RequestFailedMessage)
    ensures !IsObject(d) && d != Null && d != Undefined ==> r == Str(SafeMessage(d))
    // The named fields, in order.
    ensures IsObject(d) && Get(d, "error").Str? ==> r == Get(d, "error")
    ensures IsObject(d) && !Get(d, "error").Str? && Get(d, "message").Str? ==> r == Get(d, "message")
    ensures IsObject(d) && !Get(d, "error").Str? && !Get(d, "message").Str? && Get(d, "detail").Str? ==>
      r == Get(d, "detail")
    // An `errors` array: its own text when empty, else a first string, else a first object's string `message`.
    ensures NoNamedMessage(d) && Get(d, "errors").Arr? && |Get(d, "errors").elems| == 0 ==>
      r == Str(ValidationErrorsMessage)
    ensures (NoNamedMessage(d) && Get(d, "errors").Arr? && |Get(d, "errors").elems| > 0
             && Get(d, "errors").elems[0].Str?) ==>
      r == Get(d, "errors").elems[0]
    ensures (NoNamedMessage(d) && Get(d, "errors").Arr? && |Get(d, "errors").elems| > 0
             && !Get(d, "errors").elems[0].Str? && IsObject(Get(d, "errors").elems[0])
             && Get(Get(d, "errors").elems[0], "message").Str?) ==>
      r == Get(Get(d, "errors").elems[0], "message")
    // An `errors` object: its first value when a string, else that value's first element.
    ensures NoNamedMessage(d) && FirstValue(Get(d, "errors")).Some? && FirstValue(Get(d, "errors")).value.Str? ==>
      r == FirstValue(Get(d, "errors")).value
    ensures (NoNamedMessage(d) && FirstValue(Get(d, "errors")).Some? && FirstValue(Get(d, "errors")).value.Arr?
             && |FirstValue(Get(d, "errors")).value.elems| > 0) ==>
      r == FirstValue(Get(d, "errors")).value.elems[0]
    // Nothing answered.
    ensures NoNamedMessage(d) && !ArrayStepAnswers(Get(d, "errors")) && !ObjectStepAnswers(Get(d, "errors")) ==>
      r == Str(RequestFailedMessage)
    // The one way a non-string comes out.
    ensures !r.Str? ==>
      && IsObject(d) && FirstValue(Get(d, "errors")).Some?
      && FirstValue(Get(d, "errors")).value.Arr?
      && |FirstValue(Get(d, "errors")).value.elems| > 0
      && r == FirstValue(Get(d, "errors")).value.elems[0]
  {
    if d == Null || d == Undefined then Str(RequestFailedMessage)
    else if !IsObject(d) then Str(SafeMessage(d))
    else if Get(d, "error").Str? then Get(d, "error")
    else if Get(d, "message").Str? then Get(d, "message")
    else if Get(d, "detail").Str? then Get(d, "detail")
    else
      var errors := Get(d, "errors");
      if errors.Arr? && |errors.elems| == 0 then Str(ValidationErrorsMessage)
      else if errors.Arr? && errors.elems[0].Str? then errors.elems[0]
      else if errors.Arr? && IsObject(errors.elems[0]) && Get(errors.elems[0], "message").Str? then
        Get(errors.elems[0], "message")
      else
        match FirstValue(errors)
        case Some(Str(m)) => Str(m)
        case Some(Arr(xs)) => if |xs| > 0 then xs[0] else Str(RequestFailedMessage)
        case _ => Str(RequestFailedMessage)
  }

  /**
   * The message the classifier records: the source's message, except that a
   * first field error that is an array of non-strings falls through to the
   * fallback instead of leaking a non-string.
   */
  function ExtractMessageFromRestError(d: Value): (r: string)
    ensures RestMessageValue(d).Str? ==> r == RestMessageValue(d).s
    // Where the source would leak a non-string, the fallback text instead.
    ensures !RestMessageValue(d).Str? ==> r == RequestFailedMessage
    // Provenance: a fixed text, or a string read from the payload.
    ensures
      || r == RequestFailedMessage || r == ValidationErrorsMessage || r == SafeMessage(d)
      || Get(d, "error") == Str(r) || Get(d, "message") == Str(r) || Get(d, "detail") == Str(r)
      || (Get(d, "errors").Arr? && |Get(d, "errors").elems| > 0
          && (Get(d, "errors").elems[0] == Str(r) || Get(Get(d, "errors").elems[0], "message") == Str(r)))
      || (FirstValue(Get(d, "errors")).Some?
          && (FirstValue(Get(d, "errors")).value == Str(r)
              || (FirstValue(Get(d, "errors")).value.Arr?
                  && |FirstValue(Get(d, "errors")).value.elems| > 0
                  && FirstValue(Get(d, "errors")).value.elems[0] == Str(r))))
  {
    match RestMessageValue(d)
    case Str(m) => m
    case _ => RequestFailedMessage
  }

  /**
   * The offending field: the first key of an `errors` object, otherwise a
   * string `field`; an `errors` array names no field.
   */
  function ExtractFieldFromRestError(d: Value): (r: Option<string>)
    ensures !IsObject(d) ==> r.None?
    ensures IsObject(d) && IsObject(Get(d, "errors")) && |Get(d, "errors").props| > 0 ==>
      r == Some(Get(d, "errors").props[0].0)
    ensures r.Some? ==>
      FirstKey(Get(d, "errors")) == r
      || (FirstKey(Get(d, "errors")).None? && Get(d, "field") == Str(r.value))
    // No key in `errors` (not an object, or an empty one): a string `field`.
    ensures IsObject(d) && FirstKey(Get(d, "errors")).None? ==> r == StringOf(Get(d, "field"))
  {
    if !IsObject(d) then None
    else
      var errors := Get(d, "errors");
      if IsObject(errors) && FirstKey(errors).Some? then FirstKey(errors)
      else StringOf(Get(d, "field"))
  }

  /** `normalizeRestError`. */
  function NormalizeRestError(e: Value): (r: NormalizedError)
    ensures r.source == Rest && r.original == Some(e)
    ensures r.code.None? && r.details.None?
    ensures r.status == GetStatus(e)
    ensures r.errorType == StatusType(FromNumber(GetStatus(e)), UnknownError)
    // Retryable exactly for the transient categories, so never without a status.
    ensures r.retryable <==> r.errorType in TransientTypes
    ensures !Truthy(FromNumber(GetStatus(e))) ==> r.errorType == UnknownError && !r.retryable
    ensures r.message == ExtractMessageFromRestError(RestPayload(e))
    ensures r.field == ExtractFieldFromRestError(RestPayload(e))
  {
    var status := GetStatus(e);
    var payload := RestPayload(e);
    CreateError(Options(StatusType(FromNumber(status), UnknownError), ExtractMessageFromRestError(payload)).(
      status := status,
      field := ExtractFieldFromRestError(payload),
      retryable := Some(RestRetryable(status)),
      source := Some(Rest),
      original := Some(e)))
  }

  /**
   * As written, an `errors` object whose first field holds `[42]` yields the
   * number 42 as the message.
   */
  lemma NonStringFieldErrorLeaks()
    ensures RestMessageValue(Obj(PlainObject, [("errors", Obj(PlainObject, [("email", Arr([Num(42)]))]))]))
      == Num(42)
  {
  }

  /** The corrected extraction gives the fallback text for the same payload. */
  lemma NonStringFieldErrorFallsBack()
    ensures ExtractMessageFromRestError(Obj(PlainObject, [("errors", Obj(PlainObject, [("email", Arr([Num(42)]))]))]))
      == RequestFailedMessage
  {
    NonStringFieldErrorLeaks();
  }
}
