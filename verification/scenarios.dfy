/**
 * Worked inputs from the library's test suite,
 * stated about the whole pipeline. Each input has a lemma for what its
 * classifier returns, and one for what the entry point returns.
 */
module Scenarios {
  import opened Wrappers
  import opened JsValue
  import opened Types
  import opened AxiosSource
  import opened FetchSource
  import opened GraphQLSource
  import opened RestSource
  import opened RuntimeSource
  import opened Dispatch
  import opened StatusExtract

  const NoOptions: NormalizeOptions := NormalizeOptions(None, None)

  /** A record with no details, as every classifier builds it. */
  function Record(t: ErrorType, message: string, status: Option<int>, code: Option<string>,
                  field: Option<string>, retryable: bool, source: ErrorSource, original: Value): NormalizedError {
    NormalizedError(t, message, status, code, field, None, retryable, source, Some(original))
  }

  function Plain(props: seq<(string, Value)>): Value {
    Obj(PlainObject, props)
  }

  /** tests/axios.test.ts:22-37: a timed-out axios request keeps its own message. */
  function AxiosTimeoutInput(): Value {
    Plain([("isAxiosError", Bool(true)), ("code", Str("ECONNABORTED")), ("message", Str("timeout of 5000ms exceeded"))])
  }

  lemma AxiosTimeoutClassified()
    ensures NormalizeAxiosError(AxiosTimeoutInput()) == Record(Timeout, "timeout of 5000ms exceeded", None, None, None, true, Axios, AxiosTimeoutInput())
  {
  }

  lemma AxiosTimeoutDetected()
    ensures DetectErrorSource(AxiosTimeoutInput()) == Axios
  {
  }

  lemma AxiosTimeout()
    ensures NormalizeError(AxiosTimeoutInput(), NoOptions) == Record(Timeout, "timeout of 5000ms exceeded", None, None, None, true, Axios, AxiosTimeoutInput())
  {
    AxiosTimeoutDetected();
    AxiosTimeoutClassified();
  }

  /** An axios request that got no response. */
  function AxiosNetworkErrorInput(): Value {
    Plain([("isAxiosError", Bool(true)), ("request", Plain([])), ("message", Str("Network Error"))])
  }

  lemma AxiosNetworkErrorClassified()
    ensures NormalizeAxiosError(AxiosNetworkErrorInput()) == Record(NetworkError, "Network Error", None, None, None, true, Axios, AxiosNetworkErrorInput())
  {
  }

  lemma AxiosNetworkErrorDetected()
    ensures DetectErrorSource(AxiosNetworkErrorInput()) == Axios
  {
  }

  lemma AxiosNetworkError()
    ensures NormalizeError(AxiosNetworkErrorInput(), NoOptions) == Record(NetworkError, "Network Error", None, None, None, true, Axios, AxiosNetworkErrorInput())
  {
    AxiosNetworkErrorDetected();
    AxiosNetworkErrorClassified();
  }

  /** An axios 422 whose body names the field in an errors object. */
  function AxiosValidationFieldInput(): Value {
    Plain([("isAxiosError", Bool(true)), ("response", Plain([("status", Num(422)), ("data", Plain([("errors", Plain([("email", Str("Invalid email format"))]))]))]))])
  }

  lemma AxiosValidationFieldClassified()
    ensures NormalizeAxiosError(AxiosValidationFieldInput()) == Record(ValidationError, "Invalid email format", Some(422), None, Some("email"), false, Axios, AxiosValidationFieldInput())
  {
  }

  lemma AxiosValidationFieldDetected()
    ensures DetectErrorSource(AxiosValidationFieldInput()) == Axios
  {
  }

  lemma AxiosValidationField()
    ensures NormalizeError(AxiosValidationFieldInput(), NoOptions) == Record(ValidationError, "Invalid email format", Some(422), None, Some("email"), false, Axios, AxiosValidationFieldInput())
  {
    AxiosValidationFieldDetected();
    AxiosValidationFieldClassified();
  }

  /** tests/fetch.test.ts:77-89: a status-and-message object is a fetch error; 429 is retryable. */
  function FetchRateLimitedInput(): Value {
    Plain([("status", Num(429)), ("message", Str("Too Many Requests"))])
  }

  lemma FetchRateLimitedClassified()
    ensures NormalizeFetchError(FetchRateLimitedInput()) == Record(RateLimited, "Too Many Requests", Some(429), None, None, true, Fetch, FetchRateLimitedInput())
  {
  }

  lemma FetchRateLimitedDetected()
    ensures DetectErrorSource(FetchRateLimitedInput()) == Fetch
  {
  }

  lemma FetchRateLimited()
    ensures NormalizeError(FetchRateLimitedInput(), NoOptions) == Record(RateLimited, "Too Many Requests", Some(429), None, None, true, Fetch, FetchRateLimitedInput())
  {
    FetchRateLimitedDetected();
    FetchRateLimitedClassified();
  }

  /** A TypeError is a failed fetch. */
  function FetchTypeErrorInput(): Value {
    Obj(TypeErrorInstance, [("message", Str("Failed to fetch"))])
  }

  lemma FetchTypeErrorClassified()
    ensures NormalizeFetchError(FetchTypeErrorInput()) == Record(NetworkError, "Network request failed", None, None, None, true, Fetch, FetchTypeErrorInput())
  {
  }

  lemma FetchTypeErrorDetected()
    ensures DetectErrorSource(FetchTypeErrorInput()) == Fetch
  {
  }

  lemma FetchTypeError()
    ensures NormalizeError(FetchTypeErrorInput(), NoOptions) == Record(NetworkError, "Network request failed", None, None, None, true, Fetch, FetchTypeErrorInput())
  {
    FetchTypeErrorDetected();
    FetchTypeErrorClassified();
  }

  /** An AbortError DOMException is a fetch timeout. */
  function FetchAbortInput(): Value {
    Obj(DOMExceptionInstance, [("message", Str("The operation was aborted.")), ("name", Str("AbortError"))])
  }

  lemma FetchAbortClassified()
    ensures NormalizeFetchError(FetchAbortInput()) == Record(Timeout, "Request timed out", None, None, None, true, Fetch, FetchAbortInput())
  {
  }

  lemma FetchAbortDetected()
    ensures DetectErrorSource(FetchAbortInput()) == Fetch
  {
  }

  lemma FetchAbort()
    ensures NormalizeError(FetchAbortInput(), NoOptions) == Record(Timeout, "Request timed out", None, None, None, true, Fetch, FetchAbortInput())
  {
    FetchAbortDetected();
    FetchAbortClassified();
  }

  /** A status without a message gets the generic fallback, not "Request failed". */
  function FetchStatusOnlyInput(): Value {
    Plain([("status", Num(404)), ("statusText", Str("Not Found"))])
  }

  lemma FetchStatusOnlyClassified()
    ensures NormalizeFetchError(FetchStatusOnlyInput()) == Record(NotFound, "An unknown error occurred", Some(404), None, None, false, Fetch, FetchStatusOnlyInput())
  {
  }

  lemma FetchStatusOnlyDetected()
    ensures DetectErrorSource(FetchStatusOnlyInput()) == Fetch
  {
  }

  lemma FetchStatusOnly()
    ensures NormalizeError(FetchStatusOnlyInput(), NoOptions) == Record(NotFound, "An unknown error occurred", Some(404), None, None, false, Fetch, FetchStatusOnlyInput())
  {
    FetchStatusOnlyDetected();
    FetchStatusOnlyClassified();
  }

  /** tests/graphql.test.ts:28-51: the first GraphQL error's code and extensions field. */
  function GraphQLValidationInput(): Value {
    Plain([("errors", Arr([Plain([("message", Str("Email is required")), ("extensions", Plain([("code", Str("VALIDATION_ERROR")), ("field", Str("email"))]))])]))])
  }

  lemma GraphQLValidationClassified()
    ensures NormalizeGraphQLError(GraphQLValidationInput()) == Record(ValidationError, "Email is required", None, Some("VALIDATION_ERROR"), Some("email"), false, GraphQL, GraphQLValidationInput())
  {
    var first := FirstError(GraphQLValidationInput());
    assert ErrorCode(first) == Some("VALIDATION_ERROR");
    assert ExtractFieldFromGraphQLError(first) == Some("email");
  }

  lemma GraphQLValidationDetected()
    ensures DetectErrorSource(GraphQLValidationInput()) == GraphQL
  {
  }

  lemma GraphQLValidation()
    ensures NormalizeError(GraphQLValidationInput(), NoOptions) == Record(ValidationError, "Email is required", None, Some("VALIDATION_ERROR"), Some("email"), false, GraphQL, GraphQLValidationInput())
  {
    GraphQLValidationDetected();
    GraphQLValidationClassified();
  }

  /** Without extensions.field, the field is the last path segment. */
  function GraphQLFieldFromPathInput(): Value {
    Plain([("errors", Arr([PathError()]))])
  }

  lemma GraphQLFieldFromPathClassified()
    ensures NormalizeGraphQLError(GraphQLFieldFromPathInput()) == Record(ValidationError, "Invalid input", None, Some("BAD_USER_INPUT"), Some("email"), false, GraphQL, GraphQLFieldFromPathInput())
  {
    PathErrorParts();
  }

  lemma GraphQLFieldFromPathDetected()
    ensures DetectErrorSource(GraphQLFieldFromPathInput()) == GraphQL
  {
  }

  lemma GraphQLFieldFromPath()
    ensures NormalizeError(GraphQLFieldFromPathInput(), NoOptions) == Record(ValidationError, "Invalid input", None, Some("BAD_USER_INPUT"), Some("email"), false, GraphQL, GraphQLFieldFromPathInput())
  {
    GraphQLFieldFromPathDetected();
    GraphQLFieldFromPathClassified();
  }

  /** An empty errors list is still GraphQL, and falls back. */
  function GraphQLEmptyErrorsInput(): Value {
    Plain([("errors", Arr([]))])
  }

  lemma GraphQLEmptyErrorsClassified()
    ensures NormalizeGraphQLError(GraphQLEmptyErrorsInput()) == Record(UnknownError, "GraphQL error occurred", None, None, None, false, GraphQL, GraphQLEmptyErrorsInput())
  {
  }

  lemma GraphQLEmptyErrorsDetected()
    ensures DetectErrorSource(GraphQLEmptyErrorsInput()) == GraphQL
  {
  }

  lemma GraphQLEmptyErrors()
    ensures NormalizeError(GraphQLEmptyErrorsInput(), NoOptions) == Record(UnknownError, "GraphQL error occurred", None, None, None, false, GraphQL, GraphQLEmptyErrorsInput())
  {
    GraphQLEmptyErrorsDetected();
    GraphQLEmptyErrorsClassified();
  }

  /** tests/rest.test.ts:68-91: a REST 422 with an errors object; the first field wins. */
  function RestValidationObjectInput(): Value {
    Plain([("response", Plain([("status", Num(422)), ("data", Plain([("errors", Plain([("email", Str("Invalid email format")), ("password", Str("Too short"))]))]))]))])
  }

  lemma RestValidationObjectClassified()
    ensures NormalizeRestError(RestValidationObjectInput()) == Record(ValidationError, "Invalid email format", Some(422), None, Some("email"), false, Rest, RestValidationObjectInput())
  {
    var data := Get(Get(RestValidationObjectInput(), "response"), "data");
    assert GetStatus(RestValidationObjectInput()) == Some(422);
    assert RestPayload(RestValidationObjectInput()) == data;
    assert ExtractMessageFromRestError(data) == "Invalid email format";
    assert ExtractFieldFromRestError(data) == Some("email");
  }

  lemma RestValidationObjectDetected()
    ensures DetectErrorSource(RestValidationObjectInput()) == Rest
  {
  }

  lemma RestValidationObject()
    ensures NormalizeError(RestValidationObjectInput(), NoOptions) == Record(ValidationError, "Invalid email format", Some(422), None, Some("email"), false, Rest, RestValidationObjectInput())
  {
    RestValidationObjectDetected();
    RestValidationObjectClassified();
  }

  /** An errors array gives its first string and no field. */
  function RestErrorsArrayInput(): Value {
    Plain([("response", Plain([("status", Num(400)), ("data", Plain([("errors", Arr([Str("First error"), Str("Second error")]))]))]))])
  }

  lemma RestErrorsArrayClassified()
    ensures NormalizeRestError(RestErrorsArrayInput()) == Record(ClientError, "First error", Some(400), None, None, false, Rest, RestErrorsArrayInput())
  {
  }

  lemma RestErrorsArrayDetected()
    ensures DetectErrorSource(RestErrorsArrayInput()) == Rest
  {
  }

  lemma RestErrorsArray()
    ensures NormalizeError(RestErrorsArrayInput(), NoOptions) == Record(ClientError, "First error", Some(400), None, None, false, Rest, RestErrorsArrayInput())
  {
    RestErrorsArrayDetected();
    RestErrorsArrayClassified();
  }

  /** An empty errors array has its own message. */
  function RestEmptyErrorsArrayInput(): Value {
    Plain([("response", Plain([("status", Num(422)), ("data", Plain([("errors", Arr([]))]))]))])
  }

  lemma RestEmptyErrorsArrayClassified()
    ensures NormalizeRestError(RestEmptyErrorsArrayInput()) == Record(ValidationError, "Validation errors occurred", Some(422), None, None, false, Rest, RestEmptyErrorsArrayInput())
  {
  }

  lemma RestEmptyErrorsArrayDetected()
    ensures DetectErrorSource(RestEmptyErrorsArrayInput()) == Rest
  {
  }

  lemma RestEmptyErrorsArray()
    ensures NormalizeError(RestEmptyErrorsArrayInput(), NoOptions) == Record(ValidationError, "Validation errors occurred", Some(422), None, None, false, Rest, RestEmptyErrorsArrayInput())
  {
    RestEmptyErrorsArrayDetected();
    RestEmptyErrorsArrayClassified();
  }

  /** tests/rest.test.ts:215-232: null data leaves the error itself as the payload, which has no message of its own. */
  function RestNullDataInput(): Value {
    Plain([("response", Plain([("status", Num(400)), ("data", Null)]))])
  }

  lemma RestNullDataClassified()
    ensures NormalizeRestError(RestNullDataInput()) == Record(ClientError, "Request failed", Some(400), None, None, false, Rest, RestNullDataInput())
  {
  }

  lemma RestNullDataDetected()
    ensures DetectErrorSource(RestNullDataInput()) == Rest
  {
  }

  lemma RestNullData()
    ensures NormalizeError(RestNullDataInput(), NoOptions) == Record(ClientError, "Request failed", Some(400), None, None, false, Rest, RestNullDataInput())
  {
    RestNullDataDetected();
    RestNullDataClassified();
  }

  /** A plain error body without a status is an unknown, non-retryable rest error. */
  function RestPlainErrorBodyInput(): Value {
    Plain([("error", Str("Something went wrong"))])
  }

  lemma RestPlainErrorBodyClassified()
    ensures NormalizeRestError(RestPlainErrorBodyInput()) == Record(UnknownError, "Something went wrong", None, None, None, false, Rest, RestPlainErrorBodyInput())
  {
  }

  lemma RestPlainErrorBodyDetected()
    ensures DetectErrorSource(RestPlainErrorBodyInput()) == Rest
  {
  }

  lemma RestPlainErrorBody()
    ensures NormalizeError(RestPlainErrorBodyInput(), NoOptions) == Record(UnknownError, "Something went wrong", None, None, None, false, Rest, RestPlainErrorBodyInput())
  {
    RestPlainErrorBodyDetected();
    RestPlainErrorBodyClassified();
  }

  /** tests/runtime.test.ts:44-55: `null` is an unknown runtime error. */
  function RuntimeNullInput(): Value {
    Null
  }

  lemma RuntimeNullClassified()
    ensures NormalizeRuntimeError(RuntimeNullInput()) == Record(UnknownError, "An unknown error occurred", None, None, None, false, Runtime, RuntimeNullInput())
  {
  }

  lemma RuntimeNullDetected()
    ensures DetectErrorSource(RuntimeNullInput()) == Runtime
  {
  }

  lemma RuntimeNull()
    ensures NormalizeError(RuntimeNullInput(), NoOptions) == Record(UnknownError, "An unknown error occurred", None, None, None, false, Runtime, RuntimeNullInput())
  {
    RuntimeNullDetected();
    RuntimeNullClassified();
  }

  /** A native Error without a special shape. */
  function RuntimeNativeErrorInput(): Value {
    Obj(ErrorInstance, [("message", Str("Something went wrong"))])
  }

  lemma RuntimeNativeErrorClassified()
    ensures NormalizeRuntimeError(RuntimeNativeErrorInput()) == Record(UnknownError, "Something went wrong", None, None, None, false, Runtime, RuntimeNativeErrorInput())
  {
  }

  lemma RuntimeNativeErrorDetected()
    ensures DetectErrorSource(RuntimeNativeErrorInput()) == Runtime
  {
  }

  lemma RuntimeNativeError()
    ensures NormalizeError(RuntimeNativeErrorInput(), NoOptions) == Record(UnknownError, "Something went wrong", None, None, None, false, Runtime, RuntimeNativeErrorInput())
  {
    RuntimeNativeErrorDetected();
    RuntimeNativeErrorClassified();
  }

  /** The empty string is its own message, so a record's message can be empty. */
  function RuntimeEmptyStringInput(): Value {
    Str("")
  }

  lemma RuntimeEmptyStringClassified()
    ensures NormalizeRuntimeError(RuntimeEmptyStringInput()) == Record(UnknownError, "", None, None, None, false, Runtime, RuntimeEmptyStringInput())
  {
  }

  lemma RuntimeEmptyStringDetected()
    ensures DetectErrorSource(RuntimeEmptyStringInput()) == Runtime
  {
  }

  lemma RuntimeEmptyString()
    ensures NormalizeError(RuntimeEmptyStringInput(), NoOptions) == Record(UnknownError, "", None, None, None, false, Runtime, RuntimeEmptyStringInput())
  {
    RuntimeEmptyStringDetected();
    RuntimeEmptyStringClassified();
  }

  /** The one error of the path-field input: a code, no `extensions.field`, a path. */
  function PathError(): Value {
    Plain([("message", Str("Invalid input")), ("extensions", Plain([("code", Str("BAD_USER_INPUT"))])),
           ("path", Arr([Str("user"), Str("email")]))])
  }

  lemma PathErrorParts()
    ensures Get(PathError(), "message") == Str("Invalid input")
    ensures ErrorCode(PathError()) == Some("BAD_USER_INPUT")
    ensures MapGraphQLErrorCode(Some("BAD_USER_INPUT")) == ValidationError
    ensures ExtractFieldFromGraphQLError(PathError()) == Some("email")
  {
    PathErrorCode();
    BadUserInputIsValidation();
    PathErrorField();
  }

  lemma PathErrorCode()
    ensures Get(PathError(), "message") == Str("Invalid input")
    ensures ErrorCode(PathError()) == Some("BAD_USER_INPUT")
  {
    assert Get(PathError(), "extensions") == Plain([("code", Str("BAD_USER_INPUT"))]);
  }

  /** The code table is read in upper case, so an upper-case code maps directly. */
  lemma BadUserInputIsValidation()
    ensures MapGraphQLErrorCode(Some("BAD_USER_INPUT")) == ValidationError
  {
  }

  /** Without `extensions.field`, the path's last segment names the field. */
  lemma PathErrorField()
    ensures ExtractFieldFromGraphQLError(PathError()) == Some("email")
  {
    var ext := Get(PathError(), "extensions");
    assert ext == Plain([("code", Str("BAD_USER_INPUT"))]);
    assert Get(ext, "field") == Undefined;
    assert Get(PathError(), "path") == Arr([Str("user"), Str("email")]);
  }

  /** A custom override is classified as runtime, even on an axios-flagged input. */
  lemma CustomOverrideOnAxiosShape()
    ensures NormalizeError(AxiosTimeoutInput(), NormalizeOptions(Some(Custom), None)) ==
      Record(UnknownError, "timeout of 5000ms exceeded", None, None, None, false, Runtime, AxiosTimeoutInput())
  {
  }
}
