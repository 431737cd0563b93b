/**
 * The entry point: guess where an error came from (unless the caller says),
 * then hand it to that origin's classifier.
 */
module Dispatch {
  import opened Wrappers
  import opened JsValue
  import opened Types
  import opened FirstMatch
  import opened AxiosSource
  import opened FetchSource
  import opened GraphQLSource
  import opened RestSource
  import opened RuntimeSource

  // The shapes the detector looks for, most specific first.

  /** 1. The axios client's marker flag. */
  predicate AxiosFlagged(e: Value) {
    IsObject(e) && Get(e, "isAxiosError") == Bool(true)
  }

  /** 2. A GraphQL response: an `errors` array, empty or not. */
  predicate GraphQLErrorArray(e: Value) {
    IsObject(e) && Get(e, "errors").Arr?
  }

  /** 3. A fetch Response: boolean `ok` and numeric `status`. */
  predicate FetchResponseShape(e: Value) {
    IsObject(e) && Get(e, "ok").Bool? && Get(e, "status").Num?
  }

  /** 4. A TypeError, which is how fetch reports a failed network request. */
  predicate NetworkTypeError(e: Value) {
    IsTypeErrorInstance(e)
  }

  /** 5. An abort signalled through a DOMException named AbortError. */
  predicate AbortException(e: Value) {
    IsDOMExceptionInstance(e) && Get(e, "name") == Str("AbortError")
  }

  /** 6. An HTTP client error with an object response carrying truthy data. */
  predicate RestResponseData(e: Value) {
    IsObject(e) && IsObject(Get(e, "response")) && Truthy(Get(Get(e, "response"), "data"))
  }

  /** 7. A single GraphQL error: an object `extensions`. */
  predicate GraphQLExtensions(e: Value) {
    IsObject(e) && IsObject(Get(e, "extensions"))
  }

  /** 8. Anything else with a numeric `status`. */
  predicate NumericStatus(e: Value) {
    IsObject(e) && Get(e, "status").Num?
  }

  /** 9. A plain API error body: a truthy `response`, `error`, `detail` or `errors`. */
  predicate RestErrorFields(e: Value) {
    IsObject(e)
    && (Truthy(Get(e, "response")) || Truthy(Get(e, "error")) || Truthy(Get(e, "detail")) || Truthy(Get(e, "errors")))
  }

  /** The detector as an explicit decision list; anything unmatched is runtime. */
  const DetectionRules: seq<(Value -> bool, ErrorSource)> := [
    (AxiosFlagged, Axios),
    (GraphQLErrorArray, GraphQL),
    (FetchResponseShape, Fetch),
    (NetworkTypeError, Fetch),
    (AbortException, Fetch),
    (RestResponseData, Rest),
    (GraphQLExtensions, GraphQL),
    (NumericStatus, Fetch),
    (RestErrorFields, Rest)]

  /** `detectErrorSource`: nine ordered tests, first match wins. */
  function DetectErrorSource(e: Value): (s: ErrorSource)
    ensures s != Custom
    // The axios flag beats every other shape.
    ensures s == Axios <==> AxiosFlagged(e)
    // An errors array means GraphQL unless the axios flag is set.
    ensures !AxiosFlagged(e) && GraphQLErrorArray(e) ==> s == GraphQL
    // Runtime is what is left when no shape matches.
    ensures s == Runtime <==>
      !AxiosFlagged(e) && !GraphQLErrorArray(e) && !FetchResponseShape(e) && !NetworkTypeError(e)
      && !AbortException(e) && !RestResponseData(e) && !GraphQLExtensions(e) && !NumericStatus(e)
      && !RestErrorFields(e)
    ensures !IsObject(e) ==> s == Runtime
  {
    if AxiosFlagged(e) then Axios
    else if GraphQLErrorArray(e) then GraphQL
    else if FetchResponseShape(e) then Fetch
    else if NetworkTypeError(e) then Fetch
    else if AbortException(e) then Fetch
    else if RestResponseData(e) then Rest
    else if GraphQLExtensions(e) then GraphQL
    else if NumericStatus(e) then Fetch
    else if RestErrorFields(e) then Rest
    else Runtime
  }

  /** The if-chain is the decision list: the same answer for every input. */
  lemma DetectIsDecisionList(e: Value)
    ensures DetectErrorSource(e) == Decide(DetectionRules, e, Runtime)
  {
    var k := FirstMatchIndex(DetectionRules, e);
    assert DetectionRules[0].0 == AxiosFlagged;
    assert DetectionRules[1].0 == GraphQLErrorArray;
    assert DetectionRules[2].0 == FetchResponseShape;
    assert DetectionRules[3].0 == NetworkTypeError;
    assert DetectionRules[4].0 == AbortException;
    assert DetectionRules[5].0 == RestResponseData;
    assert DetectionRules[6].0 == GraphQLExtensions;
    assert DetectionRules[7].0 == NumericStatus;
    assert DetectionRules[8].0 == RestErrorFields;
  }

  /** The classifier each source is routed to; sources without one fall back to runtime. */
  function Classify(source: ErrorSource, e: Value): NormalizedError {
    match source
    case Axios => NormalizeAxiosError(e)
    case Fetch => NormalizeFetchError(e)
    case GraphQL => NormalizeGraphQLError(e)
    case Rest => NormalizeRestError(e)
    case Runtime => NormalizeRuntimeError(e)
    case Custom => NormalizeRuntimeError(e)
  }

  /** `normalizeError`: an explicit source wins; otherwise the detected one. */
  function NormalizeError(e: Value, options: NormalizeOptions): (r: NormalizedError)
    ensures r.original == Some(e)
    ensures r.source != Custom
    // An override other than custom is the record's source, whatever the shape.
    ensures options.source.Some? && options.source.value != Custom ==> r.source == options.source.value
    // A custom override goes to the runtime classifier.
    ensures options.source == Some(Custom) ==> r == NormalizeRuntimeError(e)
    ensures options.source.None? ==> r.source == DetectErrorSource(e)
    // Without an override the record is the one the detected origin's classifier builds.
    ensures options.source.None? ==> r == Classify(DetectErrorSource(e), e)
  {
    var source := match options.source
      case Some(s) => s
      case None => DetectErrorSource(e);
    Classify(source, e)
  }

  /** An override skips detection: the result depends on the override alone, not on the shape's guess. */
  lemma OverrideSkipsDetection(e: Value, options: NormalizeOptions)
    requires options.source.Some?
    ensures NormalizeError(e, options) == Classify(options.source.value, e)
  {
  }

  /** `defaultRetryable` is never read. */
  lemma DefaultRetryableIgnored(e: Value, source: Option<ErrorSource>, a: Option<bool>, b: Option<bool>)
    ensures NormalizeError(e, NormalizeOptions(source, a)) == NormalizeError(e, NormalizeOptions(source, b))
  {
  }

  /**
   * Normalizing a record's `original` again gives the same record. This is
   * immediate from `original` being the input itself (`r.original == Some(e)`),
   * so it says the input is kept unchanged, not that classification is stable
   * on records.
   */
  lemma RenormalizeOriginal(e: Value, options: NormalizeOptions)
    ensures NormalizeError(e, options).original.Some?
    ensures NormalizeError(NormalizeError(e, options).original.value, options) == NormalizeError(e, options)
  {
  }
}
