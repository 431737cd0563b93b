/** The classifier for the Fetch API: rejected fetches, aborts and non-ok responses. */
module FetchSource {
  import opened Wrappers
  import opened JsValue
  import opened Types
  import opened ErrorRecord
  import opened MessageExtract
  import opened StatusExtract
  import opened HttpStatus

  const NetworkFailedMessage: string := "Network request failed"
  const TimedOutMessage: string := "Request timed out"

  predicate HasTimeoutName(e: Value) {
    IsObject(e) && Get(e, "name") == Str("TimeoutError")
  }

  /** Whether a failed fetch is worth retrying: no status, a transient status, or a timeout. */
  function FetchRetryable(status: Option<int>, e: Value): (b: bool)
    ensures b <==>
      StatusType(FromNumber(status), NetworkError) == NetworkError
      || StatusType(FromNumber(status), NetworkError) in TransientTypes
      || HasTimeoutName(e)
  {
    var s := FromNumber(status);
    if !Truthy(s) then true
    else if AtLeast500(s) then true
    else if s == Num(429) then true
    else HasTimeoutName(e)
  }

  /** The fetch itself was rejected: no usable status and a TypeError. */
  predicate IsNetworkFailure(e: Value) {
    !Truthy(FromNumber(GetStatus(e))) && IsTypeErrorInstance(e)
  }

  /** The request was aborted (any object named AbortError). */
  predicate IsAborted(e: Value) {
    IsObject(e) && Get(e, "name") == Str("AbortError")
  }

  /** `normalizeFetchError`. */
  function NormalizeFetchError(e: Value): (r: NormalizedError)
    ensures r.source == Fetch && r.original == Some(e)
    ensures r.code.None? && r.field.None? && r.details.None?
    // Every fetch record has a non-empty message.
    ensures r.message != ""
    ensures IsNetworkFailure(e) ==>
      r.errorType == NetworkError && r.message == NetworkFailedMessage && r.retryable && r.status.None?
    // An abort is a timeout, and is recognised before the status is looked at.
    ensures r.errorType == Timeout <==> !IsNetworkFailure(e) && IsAborted(e)
    ensures r.errorType == Timeout ==> r.message == TimedOutMessage && r.retryable && r.status.None?
    ensures !IsNetworkFailure(e) && !IsAborted(e) ==>
      && r.status == GetStatus(e)
      && r.errorType == StatusType(FromNumber(GetStatus(e)), NetworkError)
      && r.message == OrString(SafeMessage(e), RequestFailedMessage)
      && (r.retryable <==>
            r.errorType in {NetworkError, ServerError, RateLimited} || HasTimeoutName(e))
  {
    var status := GetStatus(e);
    if IsNetworkFailure(e) then
      CreateError(Options(NetworkError, NetworkFailedMessage).(
        retryable := Some(true), source := Some(Fetch), original := Some(e)))
    else if IsAborted(e) then
      CreateError(Options(Timeout, TimedOutMessage).(
        retryable := Some(true), source := Some(Fetch), original := Some(e)))
    else
      CreateError(Options(StatusType(FromNumber(status), NetworkError), OrString(SafeMessage(e), RequestFailedMessage)).(
        status := status,
        retryable := Some(FetchRetryable(status, e)),
        source := Some(Fetch),
        original := Some(e)))
  }

  /**
   * A response-like object with a status and nothing else to say gets the
   * generic fallback message, not "Request failed": the fallback text is
   * never empty, so the `||` never fires for it.
   */
  lemma StatusOnlyObjectMessage(e: Value)
    requires IsObject(e) && !Get(e, "message").Str? && !IsAborted(e) && !IsTypeErrorInstance(e)
    ensures NormalizeFetchError(e).message == UnknownErrorMessage
  {
  }
}
