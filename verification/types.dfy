/** The normalized error record and the two closed vocabularies it is built from. */
module Types {
  import opened Wrappers
  import opened JsValue

  /** The semantic category of an error: a closed set of eleven tags. */
  datatype ErrorType =
    | NetworkError
    | Timeout
    | ValidationError
    | AuthenticationError
    | AuthorizationError
    | NotFound
    | Conflict
    | RateLimited
    | ServerError
    | ClientError
    | UnknownError

  /** Which classification path produced a record; `Custom` for hand-built ones. */
  datatype ErrorSource = Fetch | Axios | GraphQL | Rest | Runtime | Custom

  /**
   * `NormalizedError`, the record every classifier returns. `errorType`, `message`, `retryable` and `source`
   * are always present; the rest are optional. `original` is the raw input,
   * compared by value.
   */
  datatype NormalizedError = NormalizedError(
    errorType: ErrorType,
    message: string,
    status: Option<int>,
    code: Option<string>,
    field: Option<string>,
    details: Option<Value>,
    retryable: bool,
    source: ErrorSource,
    original: Option<Value>)

  /** Options of the dispatcher; `defaultRetryable` is accepted but never read. */
  datatype NormalizeOptions = NormalizeOptions(source: Option<ErrorSource>, defaultRetryable: Option<bool>)

  /** The string tag JavaScript callers see for each category. */
  function ErrorTypeTag(t: ErrorType): string {
    match t
    case NetworkError => "network_error"
    case Timeout => "timeout"
    case ValidationError => "validation_error"
    case AuthenticationError => "authentication_error"
    case AuthorizationError => "authorization_error"
    case NotFound => "not_found"
    case Conflict => "conflict"
    case RateLimited => "rate_limited"
    case ServerError => "server_error"
    case ClientError => "client_error"
    case UnknownError => "unknown_error"
  }

  /** The category a string tag names, if any. */
  function ParseErrorType(s: string): (r: Option<ErrorType>)
    ensures r.Some? ==> ErrorTypeTag(r.value) == s
  {
    if s == "network_error" then Some(NetworkError)
    else if s == "timeout" then Some(Timeout)
    else if s == "validation_error" then Some(ValidationError)
    else if s == "authentication_error" then Some(AuthenticationError)
    else if s == "authorization_error" then Some(AuthorizationError)
    else if s == "not_found" then Some(NotFound)
    else if s == "conflict" then Some(Conflict)
    else if s == "rate_limited" then Some(RateLimited)
    else if s == "server_error" then Some(ServerError)
    else if s == "client_error" then Some(ClientError)
    else if s == "unknown_error" then Some(UnknownError)
    else None
  }

  /** Every category's tag reads back as that category, so the eleven tags are distinct. */
  lemma ErrorTypeTagRoundTrip(t: ErrorType)
    ensures ParseErrorType(ErrorTypeTag(t)) == Some(t)
  {
  }

  /** The string tag JavaScript callers see for each source. */
  function ErrorSourceTag(s: ErrorSource): string {
    match s
    case Fetch => "fetch"
    case Axios => "axios"
    case GraphQL => "graphql"
    case Rest => "rest"
    case Runtime => "runtime"
    case Custom => "custom"
  }

  /** The source a string tag names, if any. */
  function ParseErrorSource(s: string): (r: Option<ErrorSource>)
    ensures r.Some? ==> ErrorSourceTag(r.value) == s
  {
    if s == "fetch" then Some(Fetch)
    else if s == "axios" then Some(Axios)
    else if s == "graphql" then Some(GraphQL)
    else if s == "rest" then Some(Rest)
    else if s == "runtime" then Some(Runtime)
    else if s == "custom" then Some(Custom)
    else None
  }

  /** Every source's tag reads back as that source, so the six tags are distinct. */
  lemma ErrorSourceTagRoundTrip(s: ErrorSource)
    ensures ParseErrorSource(ErrorSourceTag(s)) == Some(s)
  {
  }

  const AllErrorTypes: set<ErrorType> :=
    {NetworkError, Timeout, ValidationError, AuthenticationError, AuthorizationError,
     NotFound, Conflict, RateLimited, ServerError, ClientError, UnknownError}

  const AllErrorSources: set<ErrorSource> := {Fetch, Axios, GraphQL, Rest, Runtime, Custom}

  /** The category vocabulary is closed and has exactly eleven members. */
  lemma ErrorTypesClosed(t: ErrorType)
    ensures t in AllErrorTypes
    ensures |AllErrorTypes| == 11
  {
  }

  /** The source vocabulary is closed and has exactly six members. */
  lemma ErrorSourcesClosed(s: ErrorSource)
    ensures s in AllErrorSources
    ensures |AllErrorSources| == 6
  {
  }
}
