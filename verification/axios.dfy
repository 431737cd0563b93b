/** The classifier for errors raised by the axios HTTP client. */
module AxiosSource {
  import opened Wrappers
  import opened JsValue
  import opened Types
  import opened ErrorRecord
  import opened MessageExtract
  import opened HttpStatus

  const AbortedCode: string := "ECONNABORTED"

  /** The markers axios puts on a request that timed out. */
  predicate HasTimeoutMarker(e: Value) {
    IsObject(e) && (Get(e, "code") == Str(AbortedCode) || Get(e, "name") == Str("TimeoutError"))
  }

  /**
   * Whether a failed axios request is worth retrying: no status at all, a
   * transient status, or a timeout marker on the error.
   */
  function AxiosRetryable(status: Value, e: Value): (b: bool)
    ensures b <==>
      StatusType(status, NetworkError) == NetworkError
      || StatusType(status, NetworkError) in TransientTypes
      || HasTimeoutMarker(e)
  {
    if !Truthy(status) then true
    else if AtLeast500(status) then true
    else if status == Num(429) then true
    else HasTimeoutMarker(e)
  }

  /** `error.response.data`, when the error, its response and the data are all objects. */
  predicate HasDataObject(e: Value) {
    IsObject(e) && IsObject(Get(e, "response")) && IsObject(Get(Get(e, "response"), "data"))
  }

  function ResponseData(e: Value): Value {
    Get(Get(e, "response"), "data")
  }

  /**
   * The server's message in the response body: `data.message`, then
   * `data.error`, then the value under the first key of a `data.errors`
   * object; each only when it is a string.
   */
  function ExtractMessageFromAxiosResponse(e: Value): (r: Option<string>)
    ensures r.Some? ==> HasDataObject(e)
    ensures HasDataObject(e) && Get(ResponseData(e), "message").Str? ==>
      r == Some(Get(ResponseData(e), "message").s)
    ensures HasDataObject(e) && !Get(ResponseData(e), "message").Str? && Get(ResponseData(e), "error").Str? ==>
      r == Some(Get(ResponseData(e), "error").s)
    // Provenance: one of the three places, the later ones only when the earlier are not strings.
    ensures r.Some? ==>
      || Get(ResponseData(e), "message") == Str(r.value)
      || (!Get(ResponseData(e), "message").Str? && Get(ResponseData(e), "error") == Str(r.value))
      || (!Get(ResponseData(e), "message").Str? && !Get(ResponseData(e), "error").Str?
          && FirstValue(Get(ResponseData(e), "errors")) == Some(Str(r.value)))
    ensures r.None? <==>
      !HasDataObject(e)
      || (!Get(ResponseData(e), "message").Str? && !Get(ResponseData(e), "error").Str?
          && !(FirstValue(Get(ResponseData(e), "errors")).Some? && FirstValue(Get(ResponseData(e), "errors")).value.Str?))
  {
    if HasDataObject(e) then
      var data := ResponseData(e);
      if Get(data, "message").Str? then Some(Get(data, "message").s)
      else if Get(data, "error").Str? then Some(Get(data, "error").s)
      else
        match FirstValue(Get(data, "errors"))
        case Some(Str(m)) => Some(m)
        case _ => None
    else None
  }

  /**
   * The offending field: the first key of a `data.errors` object, whatever
   * its value; otherwise a string `data.field`.
   */
  function ExtractFieldFromResponse(e: Value): (r: Option<string>)
    ensures r.Some? ==> HasDataObject(e)
    ensures HasDataObject(e) && IsObject(Get(ResponseData(e), "errors")) && |Get(ResponseData(e), "errors").props| > 0 ==>
      r == Some(Get(ResponseData(e), "errors").props[0].0)
    ensures r.Some? ==>
      FirstKey(Get(ResponseData(e), "errors")) == r
      || (FirstKey(Get(ResponseData(e), "errors")).None? && Get(ResponseData(e), "field") == Str(r.value))
    ensures HasDataObject(e) && FirstKey(Get(ResponseData(e), "errors")).None? ==>
      r == StringOf(Get(ResponseData(e), "field"))
  {
    if HasDataObject(e) then
      var data := ResponseData(e);
      var errors := Get(data, "errors");
      if IsObject(errors) && FirstKey(errors).Some? then FirstKey(errors)
      else StringOf(Get(data, "field"))
    else None
  }

  /** The request timed out: checked first, with or without a response. */
  predicate IsTimedOut(e: Value) {
    IsObject(e) && Get(e, "code") == Str(AbortedCode)
  }

  /** A request was sent but no response came back. */
  predicate NoResponseReceived(e: Value) {
    IsObject(e) && Truthy(Get(e, "request")) && !Truthy(Get(e, "response"))
  }

  /** The server answered. */
  predicate HasResponse(e: Value) {
    IsObject(e) && Truthy(Get(e, "response"))
  }

  /** `normalizeAxiosError`. */
  function NormalizeAxiosError(e: Value): (r: NormalizedError)
    ensures r.source == Axios && r.original == Some(e)
    ensures r.code.None? && r.details.None?
    // Timeout wins over everything, with the error's own message.
    ensures r.errorType == Timeout <==> IsTimedOut(e)
    ensures IsTimedOut(e) ==>
      r.retryable && r.message == SafeMessage(e) && r.status.None? && r.field.None?
    // No response: a retryable network error.
    ensures !IsTimedOut(e) && NoResponseReceived(e) ==>
      r.errorType == NetworkError && r.retryable && r.message == SafeMessage(e)
      && r.status.None? && r.field.None?
    // A response: the status table on `response.status`, the body's message before the error's.
    ensures !IsTimedOut(e) && HasResponse(e) ==>
      var status := Get(Get(e, "response"), "status");
      && r.errorType == StatusType(status, NetworkError)
      && r.status == NumberOf(status)
      && (r.retryable <==>
            r.errorType in {NetworkError, ServerError, RateLimited} || Get(e, "name") == Str("TimeoutError"))
      && r.message == OrString(ExtractMessageFromAxiosResponse(e).GetOr(""), SafeMessage(e))
      && r.field == ExtractFieldFromResponse(e)
    // Nothing recognised: an unknown error that is not retryable.
    ensures r.errorType == UnknownError <==> !IsTimedOut(e) && !NoResponseReceived(e) && !HasResponse(e)
    ensures r.errorType == UnknownError ==>
      !r.retryable && r.message == SafeMessage(e) && r.status.None? && r.field.None?
  {
    if IsTimedOut(e) then
      CreateError(Options(Timeout, SafeMessage(e)).(
        retryable := Some(true), source := Some(Axios), original := Some(e)))
    else if NoResponseReceived(e) then
      CreateError(Options(NetworkError, SafeMessage(e)).(
        retryable := Some(true), source := Some(Axios), original := Some(e)))
    else if HasResponse(e) then
      var status := Get(Get(e, "response"), "status");
      var message := OrString(ExtractMessageFromAxiosResponse(e).GetOr(""), SafeMessage(e));
      CreateError(Options(StatusType(status, NetworkError), message).(
        status := NumberOf(status),
        field := ExtractFieldFromResponse(e),
        retryable := Some(AxiosRetryable(status, e)),
        source := Some(Axios),
        original := Some(e)))
    else
      CreateError(Options(UnknownError, SafeMessage(e)).(source := Some(Axios), original := Some(e)))
  }
}
