/** `getStatus`: the HTTP-like status of an error, from the first of four places that has one. */
module StatusExtract {
  import opened Wrappers
  import opened JsValue
  import opened JsNumber

  /** The value of `code` read through parseInt, when `code` is a string that parses. */
  function ParsedCode(e: Value): Option<int> {
    match Get(e, "code")
    case Str(c) => ParseInt(c)
    case _ => None
  }

  /**
   * Tries `status`, then `response.status`, then `statusCode` (each only when
   * it is a number), then `code` parsed as a base-10 integer. A non-object has
   * no status.
   */
  function GetStatus(e: Value): (r: Option<int>)
    ensures !IsObject(e) ==> r.None?
    // A numeric top-level status wins over every other location.
    ensures IsObject(e) && Get(e, "status").Num? ==> r == Some(Get(e, "status").n)
  {
    if IsObject(e) then
      var response := Get(e, "response");
      if Get(e, "status").Num? then Some(Get(e, "status").n)
      else if IsObject(response) && Get(response, "status").Num? then Some(Get(response, "status").n)
      else if Get(e, "statusCode").Num? then Some(Get(e, "statusCode").n)
      else ParsedCode(e)
    else None
  }

  /**
   * The priority order, both ways: a found status comes from the first
   * location that holds a number (the code only when the three numeric
   * locations are all empty), and nothing is found only when no location
   * yields one.
   */
  lemma GetStatusPriority(e: Value)
    // Where the answer came from: one of the four locations, in priority order.
    ensures GetStatus(e).Some? ==>
      || Get(e, "status") == Num(GetStatus(e).value)
      || (!Get(e, "status").Num? && IsObject(Get(e, "response"))
          && Get(Get(e, "response"), "status") == Num(GetStatus(e).value))
      || (!Get(e, "status").Num? && !(IsObject(Get(e, "response")) && Get(Get(e, "response"), "status").Num?)
          && Get(e, "statusCode") == Num(GetStatus(e).value))
      || (!Get(e, "status").Num? && !(IsObject(Get(e, "response")) && Get(Get(e, "response"), "status").Num?)
          && !Get(e, "statusCode").Num? && ParsedCode(e) == GetStatus(e))
    // Nothing is found only when no location yields a number.
    ensures GetStatus(e).None? <==>
      || !IsObject(e)
      || (!Get(e, "status").Num? && !(IsObject(Get(e, "response")) && Get(Get(e, "response"), "status").Num?)
          && !Get(e, "statusCode").Num? && ParsedCode(e).None?)
  {
  }

  /** A status kept as the decimal string in `code` is recovered exactly. */
  lemma StatusFromDecimalCode(e: Value, n: int)
    requires IsObject(e) && Get(e, "code") == Str(IntToString(n))
    requires !Get(e, "status").Num? && !Get(Get(e, "response"), "status").Num?
    requires !Get(e, "statusCode").Num?
    ensures GetStatus(e) == Some(n)
  {
    ParseIntOfIntToString(n);
  }

  /**
   * A status kept in `code` the way parseInt reads it leniently (white
   * space, a sign, leading zeros, a trailing phrase such as " Not Found") is
   * the value of its digit run, negated only for a minus sign.
   */
  lemma StatusFromLenientCode(e: Value, w: string, sign: string, ds: string, rest: string)
    requires forall i :: 0 <= i < |w| ==> IsWhiteSpace(w[i])
    requires |sign| <= 1 && (|sign| == 1 ==> sign[0] == '+' || sign[0] == '-')
    requires |ds| > 0 && forall i :: 0 <= i < |ds| ==> IsDigit(ds[i])
    requires |rest| == 0 || !IsDigit(rest[0])
    requires IsObject(e) && Get(e, "code") == Str(w + sign + ds + rest)
    requires !Get(e, "status").Num? && !Get(Get(e, "response"), "status").Num?
    requires !Get(e, "statusCode").Num?
    ensures GetStatus(e) == Some(if |sign| == 1 && sign[0] == '-' then -(DigitsValue(ds) as int) else DigitsValue(ds))
  {
    ParseIntReadsDigitRun(w, sign, ds, rest);
  }

  /** A code such as "ECONNABORTED" is not a status. */
  lemma NoStatusFromWordCode(e: Value)
    requires IsObject(e) && Get(e, "code").Str?
    requires |Get(e, "code").s| > 0 && 'A' <= Get(e, "code").s[0] <= 'Z'
    requires !Get(e, "status").Num? && !Get(Get(e, "response"), "status").Num?
    requires !Get(e, "statusCode").Num?
    ensures GetStatus(e) == None
  {
    ParseIntOfLetterStart(Get(e, "code").s);
  }
}
