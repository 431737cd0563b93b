/** The catch-all classifier for native exceptions, strings and anything unrecognised. */
module RuntimeSource {
  import opened Wrappers
  import opened JsValue
  import opened Types
  import opened ErrorRecord
  import opened MessageExtract

  /**
   * `normalizeRuntimeError`: always an unknown error, never retryable (the
   * constructor's default), with the safe message of the input.
   */
  function NormalizeRuntimeError(e: Value): (r: NormalizedError)
    ensures r.errorType == UnknownError && !r.retryable
    ensures r.message == SafeMessage(e)
    ensures r.source == Runtime && r.original == Some(e)
    ensures r.status.None? && r.code.None? && r.field.None? && r.details.None?
  {
    CreateError(Options(UnknownError, SafeMessage(e)).(source := Some(Runtime), original := Some(e)))
  }
}
