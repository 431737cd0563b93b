/** The single constructor every classifier goes through. */
module ErrorRecord {
  import opened Wrappers
  import opened JsValue
  import opened Types

  /** The caller-supplied fields; `None` stands for an omitted property. */
  datatype CreateErrorOptions = CreateErrorOptions(
    errorType: ErrorType,
    message: string,
    status: Option<int>,
    code: Option<string>,
    field: Option<string>,
    retryable: Option<bool>,
    details: Option<Value>,
    source: Option<ErrorSource>,
    original: Option<Value>)

  /** Options with only the two mandatory fields given. */
  function Options(t: ErrorType, message: string): CreateErrorOptions {
    CreateErrorOptions(t, message, None, None, None, None, None, None, None)
  }

  /**
   * `createError`: copies every given field, and fills `retryable` with false
   * and `source` with custom when they are omitted.
   */
  function CreateError(o: CreateErrorOptions): (r: NormalizedError)
    ensures r.errorType == o.errorType && r.message == o.message
    ensures r.status == o.status && r.code == o.code && r.field == o.field
    ensures r.details == o.details && r.original == o.original
    ensures r.retryable == o.retryable.GetOr(false)
    ensures r.source == o.source.GetOr(Custom)
    ensures o.retryable.None? ==> !r.retryable
    ensures o.source.None? ==> r.source == Custom
  {
    NormalizedError(
      o.errorType, o.message, o.status, o.code, o.field, o.details,
      o.retryable.GetOr(false), o.source.GetOr(Custom), o.original)
  }

  /** The options that describe a record completely, every optional flag given. */
  function OptionsOf(r: NormalizedError): CreateErrorOptions {
    CreateErrorOptions(
      r.errorType, r.message, r.status, r.code, r.field,
      Some(r.retryable), r.details, Some(r.source), r.original)
  }

  /** Every record is what createError builds from its own fields. */
  lemma CreateErrorFromRecord(r: NormalizedError)
    ensures CreateError(OptionsOf(r)) == r
  {
  }

  /**
   * Rebuilding the options from a created record gives back the options,
   * with exactly the two defaults filled in.
   */
  lemma OptionsOfCreateError(o: CreateErrorOptions)
    ensures OptionsOf(CreateError(o)) ==
      o.(retryable := Some(o.retryable.GetOr(false)), source := Some(o.source.GetOr(Custom)))
    ensures o.retryable.Some? && o.source.Some? ==> OptionsOf(CreateError(o)) == o
  {
  }
}
