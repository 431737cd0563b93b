/** Guard projections callers use to branch on a record's meaning. */
module Guards {
  import opened Wrappers
  import opened Types
  import opened ErrorRecord

  /** `isRetryable`: reads the flag and nothing else. */
  predicate IsRetryable(e: NormalizedError) {
    e.retryable
  }

  /** `isValidationError`: the record is in the validation category. */
  predicate IsValidationError(e: NormalizedError) {
    e.errorType == ValidationError
  }

  /**
   * The guards on a created record: retryable exactly when the caller asked
   * for it, so omitting the flag gives a non-retryable record; a validation
   * error exactly when the caller said so.
   */
  lemma GuardsOnCreatedRecord(o: CreateErrorOptions)
    ensures IsRetryable(CreateError(o)) <==> o.retryable == Some(true)
    ensures o.retryable.None? ==> !IsRetryable(CreateError(o))
    ensures IsValidationError(CreateError(o)) <==> o.errorType == ValidationError
  {
  }

  /**
   * Read against the tags callers see: the category test is the string
   * comparison with "validation_error", which no other category's tag passes.
   */
  lemma GuardsReadTags(e: NormalizedError)
    ensures IsRetryable(e) == e.retryable
    ensures IsValidationError(e) <==> ErrorTypeTag(e.errorType) == "validation_error"
  {
  }
}
