/**
 * The status-to-category table the axios, fetch and rest classifiers share,
 * and the "transient" categories their retry policies are built around.
 */
module HttpStatus {
  import opened JsValue
  import opened Types

  /** The statuses the table names one by one. */
  const NamedStatuses: map<int, ErrorType> := map[
    400 := ClientError,
    401 := AuthenticationError,
    403 := AuthorizationError,
    404 := NotFound,
    409 := Conflict,
    422 := ValidationError,
    429 := RateLimited]

  /** Categories whose cause may go away by itself: a 5xx or a 429. */
  const TransientTypes: set<ErrorType> := {ServerError, RateLimited}

  /**
   * `status >= 500` on a status value. A number compares as itself; any other
   * truthy value is taken not to reach 500.
   */
  predicate AtLeast500(status: Value) {
    status.Num? && status.n >= 500
  }

  /**
   * The category of a status value: `whenMissing` for a falsy status (absent
   * or 0), the named entry of the table, any status from 500 up a server
   * error, and every other status a client error.
   */
  function StatusType(status: Value, whenMissing: ErrorType): (t: ErrorType)
    ensures !Truthy(status) ==> t == whenMissing
    ensures Truthy(status) && !status.Num? ==> t == ClientError
    // A present status is transient exactly when it is 429 or at least 500.
    ensures Truthy(status) ==> (t in TransientTypes <==> status == Num(429) || AtLeast500(status))
  {
    if !Truthy(status) then whenMissing
    else if status == Num(400) then ClientError
    else if status == Num(401) then AuthenticationError
    else if status == Num(403) then AuthorizationError
    else if status == Num(404) then NotFound
    else if status == Num(409) then Conflict
    else if status == Num(422) then ValidationError
    else if status == Num(429) then RateLimited
    else if AtLeast500(status) then ServerError
    else ClientError
  }

  /**
   * The if-chain is the table: a nonzero numeric status gets its named entry
   * when it has one, else server error from 500 up, else client error.
   */
  lemma StatusTypeMatchesTable(n: int, whenMissing: ErrorType)
    requires n != 0
    ensures StatusType(Num(n), whenMissing) ==
      (if n in NamedStatuses then NamedStatuses[n]
       else if n >= 500 then ServerError
       else ClientError)
  {
  }

  /**
   * The table on the common statuses 400 to 503 and on an unlisted status
   * (418, tests/fetch.test.ts:105-117), the same whatever category a
   * classifier gives a missing status.
   */
  lemma StatusTableOnCommonStatuses(missing: ErrorType)
    ensures StatusType(Num(400), missing) == ClientError
    ensures StatusType(Num(401), missing) == AuthenticationError
    ensures StatusType(Num(403), missing) == AuthorizationError
    ensures StatusType(Num(404), missing) == NotFound
    ensures StatusType(Num(409), missing) == Conflict
    ensures StatusType(Num(422), missing) == ValidationError
    ensures StatusType(Num(429), missing) == RateLimited
    ensures StatusType(Num(500), missing) == ServerError
    ensures StatusType(Num(503), missing) == ServerError
    ensures StatusType(Num(418), missing) == ClientError
  {
  }
}
