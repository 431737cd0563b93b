/** Ordered decision lists: a list of guarded answers, evaluated top to bottom, first match wins. */
module FirstMatch {

  /** The position of the first rule whose guard holds, or the list's length when none does. */
  function FirstMatchIndex<T, R>(rules: seq<(T -> bool, R)>, x: T): (k: nat)
    ensures k <= |rules|
    ensures forall j :: 0 <= j < k ==> !rules[j].0(x)
    ensures k < |rules| ==> rules[k].0(x)
    decreases |rules|
  {
    if |rules| == 0 then 0
    else if rules[0].0(x) then 0
    else 1 + FirstMatchIndex(rules[1..], x)
  }

  /** The answer of the first rule whose guard holds, or `otherwise`. */
  function Decide<T, R>(rules: seq<(T -> bool, R)>, x: T, otherwise: R): R {
    var k := FirstMatchIndex(rules, x);
    if k < |rules| then rules[k].1 else otherwise
  }
}
