/**
 * `parseInt(s, 10)` and the decimal rendering of integers it inverts.
 *
 * parseInt skips leading white space, reads an optional sign, then the
 * longest run of decimal digits; with no digit it yields NaN, which the
 * model writes as `None`.
 */
module JsNumber {
  import opened Wrappers

  /** The white space and line terminators parseInt skips (ECMAScript StrWhiteSpaceChar). */
  predicate IsWhiteSpace(c: char) {
    || c == '\t' || c == '\n' || c == '\U{000B}' || c == '\U{000C}' || c == '\r'
    || c == ' ' || c == '\U{00A0}' || c == '\U{1680}'
    || ('\U{2000}' <= c <= '\U{200A}')
    || c == '\U{2028}' || c == '\U{2029}' || c == '\U{202F}' || c == '\U{205F}'
    || c == '\U{3000}' || c == '\U{FEFF}'
  }

  predicate IsDigit(c: char) {
    '0' <= c <= '9'
  }

  function DigitValue(c: char): (d: nat)
    requires IsDigit(c)
    ensures d < 10
  {
    (c as int) - ('0' as int)
  }

  function DigitChar(d: nat): (c: char)
    requires d < 10
    ensures IsDigit(c) && DigitValue(c) == d
  {
    (('0' as int) + d) as char
  }

  /** `s` without its leading white space. */
  function TrimStart(s: string): (r: string)
    ensures |r| <= |s|
    ensures |r| > 0 ==> !IsWhiteSpace(r[0])
    ensures forall i :: 0 <= i < |s| - |r| ==> IsWhiteSpace(s[i])
  {
    if |s| > 0 && IsWhiteSpace(s[0]) then TrimStart(s[1..]) else s
  }

  /** What TrimStart keeps is a suffix of its input. */
  lemma {:induction false} TrimStartIsSuffix(s: string)
    ensures TrimStart(s) == s[|s| - |TrimStart(s)|..]
    decreases |s|
  {
    if |s| > 0 && IsWhiteSpace(s[0]) {
      TrimStartIsSuffix(s[1..]);
    }
  }

  /** The longest prefix of `s` made of decimal digits. */
  function LeadingDigits(s: string): (ds: string)
    ensures |ds| <= |s| && ds == s[..|ds|]
    ensures forall i :: 0 <= i < |ds| ==> IsDigit(ds[i])
    ensures |ds| < |s| ==> !IsDigit(s[|ds|])
  {
    if |s| > 0 && IsDigit(s[0]) then [s[0]] + LeadingDigits(s[1..]) else []
  }

  /** The number a digit string denotes, most significant digit first. */
  function DigitsValue(ds: string): nat
    requires forall i :: 0 <= i < |ds| ==> IsDigit(ds[i])
  {
    if |ds| == 0 then 0
    else DigitsValue(ds[..|ds| - 1]) * 10 + DigitValue(ds[|ds| - 1])
  }

  /** `parseInt(s, 10)`, with `None` for NaN. */
  function ParseInt(s: string): (r: Option<int>)
    ensures r.Some? <==>
      var t := TrimStart(s);
      var u := if |t| > 0 && (t[0] == '+' || t[0] == '-') then t[1..] else t;
      |u| > 0 && IsDigit(u[0])
  {
    var t := TrimStart(s);
    var negative := |t| > 0 && t[0] == '-';
    var u := if |t| > 0 && (t[0] == '+' || t[0] == '-') then t[1..] else t;
    var ds := LeadingDigits(u);
    var magnitude: int := if |ds| == 0 then 0 else DigitsValue(ds);
    if |ds| == 0 then None
    else if negative then Some(-magnitude)
    else Some(magnitude)
  }

  /** The decimal digits of a natural number, without leading zeros. */
  function NatToString(n: nat): (s: string)
    ensures |s| > 0
    ensures forall i :: 0 <= i < |s| ==> IsDigit(s[i])
  {
    if n < 10 then [DigitChar(n)] else NatToString(n / 10) + [DigitChar(n % 10)]
  }

  /** `String(n)` for an integer: a minus sign for negatives, then the digits. */
  function IntToString(n: int): string {
    if n < 0 then "-" + NatToString(-n) else NatToString(n)
  }

  lemma {:induction false} DigitsValueOfNatToString(n: nat)
    ensures DigitsValue(NatToString(n)) == n
    decreases n
  {
    var s := NatToString(n);
    if n >= 10 {
      DigitsValueOfNatToString(n / 10);
      assert s[..|s| - 1] == NatToString(n / 10);
    }
  }

  lemma {:induction false} LeadingDigitsOfDigits(s: string)
    requires forall i :: 0 <= i < |s| ==> IsDigit(s[i])
    ensures LeadingDigits(s) == s
    decreases |s|
  {
    if |s| > 0 {
      LeadingDigitsOfDigits(s[1..]);
    }
  }

  /** parseInt reads back every integer that String renders. */
  lemma ParseIntOfIntToString(n: int)
    ensures ParseInt(IntToString(n)) == Some(n)
  {
    var m: nat := if n < 0 then -n else n;
    var ds := NatToString(m);
    var s := IntToString(n);
    LeadingDigitsOfDigits(ds);
    DigitsValueOfNatToString(m);
    assert s[0] == '-' || IsDigit(s[0]);
    assert !IsWhiteSpace(s[0]);
    assert TrimStart(s) == s;
    if n < 0 {
      assert s[1..] == ds;
    } else {
      assert s == ds;
    }
  }

  /** Leading white space is skipped up to the first other character. */
  lemma {:induction false} TrimStartSkipsWhiteSpace(w: string, x: string)
    requires forall i :: 0 <= i < |w| ==> IsWhiteSpace(w[i])
    requires |x| > 0 && !IsWhiteSpace(x[0])
    ensures TrimStart(w + x) == x
    decreases |w|
  {
    if |w| > 0 {
      assert (w + x)[1..] == w[1..] + x;
      TrimStartSkipsWhiteSpace(w[1..], x);
    } else {
      assert w + x == x;
    }
  }

  /** The digit run ends at the first non-digit, whatever follows it. */
  lemma {:induction false} LeadingDigitsStopsAtNonDigit(ds: string, rest: string)
    requires forall i :: 0 <= i < |ds| ==> IsDigit(ds[i])
    requires |rest| == 0 || !IsDigit(rest[0])
    ensures LeadingDigits(ds + rest) == ds
    decreases |ds|
  {
    if |ds| > 0 {
      assert (ds + rest)[1..] == ds[1..] + rest;
      LeadingDigitsStopsAtNonDigit(ds[1..], rest);
    } else {
      assert ds + rest == rest;
    }
  }

  /** parseInt ignores leading white space. */
  lemma {:induction false} ParseIntSkipsWhiteSpace(w: string, x: string)
    requires forall i :: 0 <= i < |w| ==> IsWhiteSpace(w[i])
    requires |x| > 0 && !IsWhiteSpace(x[0])
    ensures ParseInt(w + x) == ParseInt(x)
  {
    TrimStartSkipsWhiteSpace(w, x);
    assert TrimStart(x) == x;
  }

  /** parseInt in terms of its three stages: trimming, the sign, the digit run. */
  lemma {:induction false} ParseIntByStages(s: string, t: string, u: string, ds: string)
    requires t == TrimStart(s)
    requires u == if |t| > 0 && (t[0] == '+' || t[0] == '-') then t[1..] else t
    requires ds == LeadingDigits(u) && |ds| > 0
    ensures ParseInt(s) == Some(if t[0] == '-' then -(DigitsValue(ds) as int) else DigitsValue(ds))
  {
  }

  /** parseInt on an optional sign, a digit run, then a tail that is not a digit. */
  lemma {:induction false} ParseIntOfSignedRun(sign: string, ds: string, rest: string)
    requires |sign| <= 1 && (|sign| == 1 ==> sign[0] == '+' || sign[0] == '-')
    requires |ds| > 0 && forall i :: 0 <= i < |ds| ==> IsDigit(ds[i])
    requires |rest| == 0 || !IsDigit(rest[0])
    ensures ParseInt(sign + ds + rest) == Some(if |sign| == 1 && sign[0] == '-' then -(DigitsValue(ds) as int) else DigitsValue(ds))
  {
    var y := ds + rest;
    assert y[0] == ds[0];
    var x := sign + y;
    assert sign + ds + rest == x;
    if |sign| > 0 {
      assert x[0] == sign[0];
      assert x[1..] == y;
    } else {
      assert x == y;
    }
    assert !IsWhiteSpace(x[0]);
    assert TrimStart(x) == x;
    LeadingDigitsStopsAtNonDigit(ds, rest);
    ParseIntByStages(x, x, y, ds);
  }

  /**
   * parseInt on the lenient inputs it accepts: leading white space, an
   * optional sign, a digit run (leading zeros allowed), then anything that
   * does not start with a digit. The value is the digit run's, negated
   * exactly for a minus sign.
   */
  lemma {:induction false} ParseIntReadsDigitRun(w: string, sign: string, ds: string, rest: string)
    requires forall i :: 0 <= i < |w| ==> IsWhiteSpace(w[i])
    requires |sign| <= 1 && (|sign| == 1 ==> sign[0] == '+' || sign[0] == '-')
    requires |ds| > 0 && forall i :: 0 <= i < |ds| ==> IsDigit(ds[i])
    requires |rest| == 0 || !IsDigit(rest[0])
    ensures ParseInt(w + sign + ds + rest) == Some(if |sign| == 1 && sign[0] == '-' then -(DigitsValue(ds) as int) else DigitsValue(ds))
  {
    var x := sign + ds + rest;
    assert w + sign + ds + rest == w + x;
    assert x[0] == '+' || x[0] == '-' || IsDigit(x[0]) by {
      if |sign| > 0 { assert x[0] == sign[0]; } else { assert x[0] == ds[0]; }
    }
    ParseIntSkipsWhiteSpace(w, x);
    ParseIntOfSignedRun(sign, ds, rest);
  }

  /** An integer's decimal form is its sign, then the digits of its magnitude. */
  lemma {:induction false} IntToStringSplits(w: string, n: int, rest: string)
    ensures w + IntToString(n) + rest
         == w + (if n < 0 then "-" else "") + NatToString(if n < 0 then -n else n) + rest
  {
    var sign := if n < 0 then "-" else "";
    var v := IntToString(n);
    assert v == sign + NatToString(if n < 0 then -n else n);
    assert w + v == w + sign + NatToString(if n < 0 then -n else n);
  }

  /** Every integer's decimal form, after white space and before a non-digit tail, reads back. */
  lemma {:induction false} ParseIntOfPaddedIntToString(w: string, n: int, rest: string)
    requires forall i :: 0 <= i < |w| ==> IsWhiteSpace(w[i])
    requires |rest| == 0 || !IsDigit(rest[0])
    ensures ParseInt(w + IntToString(n) + rest) == Some(n)
  {
    var m: nat := if n < 0 then -n else n;
    IntToStringSplits(w, n, rest);
    DigitsValueOfNatToString(m);
    ParseIntReadsDigitRun(w, if n < 0 then "-" else "", NatToString(m), rest);
  }

  /** An explicit plus sign reads the same number as no sign. */
  lemma {:induction false} ParseIntOfPlusSign(w: string, n: nat, rest: string)
    requires forall i :: 0 <= i < |w| ==> IsWhiteSpace(w[i])
    requires |rest| == 0 || !IsDigit(rest[0])
    ensures ParseInt(w + "+" + NatToString(n) + rest) == Some(n)
  {
    DigitsValueOfNatToString(n);
    ParseIntReadsDigitRun(w, "+", NatToString(n), rest);
  }

  /** The decimal rendering of 404, digit by digit. */
  lemma NatToString404()
    ensures NatToString(404) == "404"
  {
    assert NatToString(4) == "4";
    assert NatToString(40) == NatToString(4) + "0";
    assert NatToString(404) == NatToString(40) + "4";
  }

  /** parseInt stops at the reason phrase of a status line. */
  lemma ParseIntOfStatusLine()
    ensures ParseInt("404 Not Found") == Some(404)
  {
    NatToString404();
    assert "" + IntToString(404) + " Not Found" == "404 Not Found";
    ParseIntOfPaddedIntToString("", 404, " Not Found");
  }

  /** parseInt accepts an explicit plus sign. */
  lemma ParseIntOfPlusStatus()
    ensures ParseInt("+404") == Some(404)
  {
    NatToString404();
    assert "" + "+" + NatToString(404) + "" == "+404";
    ParseIntOfPlusSign("", 404, "");
  }

  /** parseInt skips padding and reads leading zeros as decimal. */
  lemma ParseIntOfPaddedZeroStatus()
    ensures ParseInt(" 0404") == Some(404)
  {
    assert "0404"[..3] == "040" && "040"[..2] == "04" && "04"[..1] == "0" && "0"[..0] == "";
    assert DigitsValue("04") == 4;
    assert DigitsValue("040") == 40;
    assert DigitsValue("0404") == 404;
    assert " " + "" + "0404" + "" == " 0404";
    ParseIntReadsDigitRun(" ", "", "0404", "");
  }

  /** A string that starts with a letter is not a number to parseInt. */
  lemma ParseIntOfLetterStart(s: string)
    requires |s| > 0 && ('A' <= s[0] <= 'Z' || 'a' <= s[0] <= 'z')
    ensures ParseInt(s) == None
  {
    assert !IsWhiteSpace(s[0]);
    assert TrimStart(s) == s;
    assert !IsDigit(s[0]) && s[0] != '+' && s[0] != '-';
  }
}
