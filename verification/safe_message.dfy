/** `safeMessage`: a human-readable message for any value, with a fixed fallback. */
module MessageExtract {
  import opened JsValue

  const UnknownErrorMessage: string := "An unknown error occurred"

  /** The fallback text of the fetch and rest classifiers. */
  const RequestFailedMessage: string := "Request failed"

  /**
   * A string is its own message; otherwise an object's string `message`
   * (native errors inherit "" when they have none of their own); otherwise
   * the fallback.
   */
  function SafeMessage(e: Value): (r: string)
    ensures e.Str? ==> r == e.s
    ensures IsObject(e) && Get(e, "message").Str? ==> r == Get(e, "message").s
    // Provenance: the fallback, or a string read from the input.
    ensures r == UnknownErrorMessage || e == Str(r) || (IsObject(e) && Get(e, "message") == Str(r))
    // Null, undefined, numbers, booleans and arrays have no message.
    ensures !e.Str? && !IsObject(e) ==> r == UnknownErrorMessage
    ensures IsObject(e) && !Get(e, "message").Str? ==> r == UnknownErrorMessage
  {
    if e.Str? then e.s
    else if IsObject(e) && Get(e, "message").Str? then Get(e, "message").s
    else UnknownErrorMessage
  }

  /** A native error with no `message` of its own reports the inherited empty message. */
  lemma NativeErrorWithoutMessage(e: Value)
    requires IsErrorInstance(e)
    requires forall i :: 0 <= i < |e.props| ==> e.props[i].0 != "message"
    ensures SafeMessage(e) == ""
  {
    LookupFindsFirstEntry(e.props, "message");
  }
}
