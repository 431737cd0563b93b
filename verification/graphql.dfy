/** The classifier for GraphQL errors: a response's `errors` list, or a single error object. */
module GraphQLSource {
  import opened Wrappers
  import opened JsValue
  import opened JsString
  import opened Types
  import opened ErrorRecord
  import opened HttpStatus

  const GenericMessage: string := "GraphQL error occurred"

  /** The error codes the classifier knows, in upper case. */
  const CodeTable: map<string, ErrorType> := map[
    "UNAUTHENTICATED" := AuthenticationError,
    "FORBIDDEN" := AuthorizationError,
    "NOT_FOUND" := NotFound,
    "VALIDATION_ERROR" := ValidationError,
    "BAD_USER_INPUT" := ValidationError,
    "INTERNAL_ERROR" := ServerError,
    "RATE_LIMITED" := RateLimited]

  /** `mapGraphQLErrorCode`: a missing or empty code, or one not in the table, is unknown. */
  function MapGraphQLErrorCode(code: Option<string>): (t: ErrorType)
    ensures code.None? ==> t == UnknownError
    ensures code.Some? && ToUpperCase(code.value) !in CodeTable ==> t == UnknownError
    ensures code.Some? && ToUpperCase(code.value) in CodeTable ==> t == CodeTable[ToUpperCase(code.value)]
  {
    match code
    case None => UnknownError
    case Some(c) =>
      if c == "" then UnknownError
      else
        var u := ToUpperCase(c);
        if u == "UNAUTHENTICATED" then AuthenticationError
        else if u == "FORBIDDEN" then AuthorizationError
        else if u == "NOT_FOUND" then NotFound
        else if u == "VALIDATION_ERROR" || u == "BAD_USER_INPUT" then ValidationError
        else if u == "INTERNAL_ERROR" then ServerError
        else if u == "RATE_LIMITED" then RateLimited
        else UnknownError
  }

  /** Codes are matched without regard to case. */
  lemma MapCodeIgnoresCase(s: string)
    ensures MapGraphQLErrorCode(Some(s)) == MapGraphQLErrorCode(Some(ToUpperCase(s)))
  {
    ToUpperCaseIdempotent(s);
  }

  /** Only server errors and rate limiting are worth retrying. */
  function GraphQLRetryable(t: ErrorType): (b: bool)
    ensures b <==> t in TransientTypes
  {
    match t
    case ServerError => true
    case RateLimited => true
    case _ => false
  }

  /** The error's string `extensions.code`, as given (case kept). */
  function ErrorCode(v: Value): (r: Option<string>)
    ensures r.Some? ==> IsObject(v) && Get(Get(v, "extensions"), "code") == Str(r.value)
    ensures IsObject(v) && IsObject(Get(v, "extensions")) && Get(Get(v, "extensions"), "code").Str? ==> r.Some?
  {
    if IsObject(v) && IsObject(Get(v, "extensions")) then StringOf(Get(Get(v, "extensions"), "code")) else None
  }

  /**
   * `extractFieldFromGraphQLError`: a string `extensions.field`, else the
   * last segment of a non-empty `path` when that segment is a string.
   */
  function ExtractFieldFromGraphQLError(v: Value): (r: Option<string>)
    ensures IsObject(v) && IsObject(Get(v, "extensions")) && Get(Get(v, "extensions"), "field").Str? ==>
      r == Some(Get(Get(v, "extensions"), "field").s)
    ensures r.Some? ==>
      Get(Get(v, "extensions"), "field") == Str(r.value)
      || (Get(v, "path").Arr? && |Get(v, "path").elems| > 0
          && Get(v, "path").elems[|Get(v, "path").elems| - 1] == Str(r.value))
    ensures r.None? ==>
      !IsObject(v)
      || (!(IsObject(Get(v, "extensions")) && Get(Get(v, "extensions"), "field").Str?)
          && !(Get(v, "path").Arr? && |Get(v, "path").elems| > 0
               && Get(v, "path").elems[|Get(v, "path").elems| - 1].Str?))
  {
    var ext := Get(v, "extensions");
    var path := Get(v, "path");
    if IsObject(v) && IsObject(ext) && Get(ext, "field").Str? then Some(Get(ext, "field").s)
    else if IsObject(v) && path.Arr? && |path.elems| > 0 && path.elems[|path.elems| - 1].Str? then
      Some(path.elems[|path.elems| - 1].s)
    else None
  }

  /** A response carrying a non-empty `errors` list. */
  predicate HasErrorList(e: Value) {
    IsObject(e) && Get(e, "errors").Arr? && |Get(e, "errors").elems| > 0
  }

  /** The first error of a non-empty list. */
  function FirstError(e: Value): Value
    requires HasErrorList(e)
  {
    Get(e, "errors").elems[0]
  }

  /** The record for one GraphQL error `err`, found in `original`. */
  function ErrorRecordFor(err: Value, message: string, original: Value): NormalizedError {
    var t := MapGraphQLErrorCode(ErrorCode(err));
    CreateError(Options(t, message).(
      code := ErrorCode(err),
      field := ExtractFieldFromGraphQLError(err),
      retryable := Some(GraphQLRetryable(t)),
      source := Some(GraphQL),
      original := Some(original)))
  }

  /** `normalizeGraphQLError`. */
  function NormalizeGraphQLError(e: Value): (r: NormalizedError)
    ensures r.source == GraphQL && r.original == Some(e)
    ensures r.status.None? && r.details.None?
    // The category is the code's, and retryable exactly for the transient ones.
    ensures r.errorType == MapGraphQLErrorCode(r.code)
    ensures r.retryable <==> r.errorType in TransientTypes
    // With a list, only the first error counts.
    ensures HasErrorList(e) ==>
      && r.code == ErrorCode(FirstError(e))
      && r.field == ExtractFieldFromGraphQLError(FirstError(e))
      && r.message == (if IsObject(FirstError(e)) && Get(FirstError(e), "message").Str?
                       then Get(FirstError(e), "message").s else GenericMessage)
    // Otherwise a single error object with a string message (an empty list included).
    ensures !HasErrorList(e) && IsObject(e) && Get(e, "message").Str? ==>
      && r.message == Get(e, "message").s
      && r.code == ErrorCode(e)
      && r.field == ExtractFieldFromGraphQLError(e)
    ensures !HasErrorList(e) && !(IsObject(e) && Get(e, "message").Str?) ==>
      && r.errorType == UnknownError && r.message == GenericMessage && !r.retryable
      && r.code.None? && r.field.None?
  {
    if HasErrorList(e) then
      var first := FirstError(e);
      var message := if IsObject(first) && Get(first, "message").Str? then Get(first, "message").s else GenericMessage;
      ErrorRecordFor(first, message, e)
    else if IsObject(e) && Get(e, "message").Str? then
      ErrorRecordFor(e, Get(e, "message").s, e)
    else
      CreateError(Options(UnknownError, GenericMessage).(source := Some(GraphQL), original := Some(e)))
  }
}
