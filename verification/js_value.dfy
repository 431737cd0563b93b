/**
 * A weakly-typed JavaScript value, as the normalizer inspects it.
 *
 * Objects carry a class tag that stands in for the prototype chain: it decides
 * `instanceof Error`, `instanceof TypeError` and `instanceof DOMException`, and
 * supplies the inherited `message` and `name` of native error objects.
 * Properties are an ordered list of entries in insertion order, and
 * `Object.keys` is taken to report them in that order (JavaScript lists
 * integer-like keys first; the model does not).
 */
module JsValue {
  import opened Wrappers

  /** Which native constructor built an object (`PlainObject` for literals). */
  datatype ObjectClass = PlainObject | ErrorInstance | TypeErrorInstance | DOMExceptionInstance

  datatype Value =
    | Undefined
    | Null
    | Bool(b: bool)
    | Num(n: int)
    | Str(s: string)
    | Arr(elems: seq<Value>)
    | Obj(cls: ObjectClass, props: seq<(string, Value)>)

  /** JavaScript truthiness: `undefined`, `null`, `false`, `0` and `""` are falsy. */
  predicate Truthy(v: Value) {
    match v
    case Undefined => false
    case Null => false
    case Bool(b) => b
    case Num(n) => n != 0
    case Str(s) => s != ""
    case Arr(_) => true
    case Obj(_, _) => true
  }

  /**
   * `isObject`: a non-null object that is not an array. The helper that the
   * source imports for this test is not part of this model; this is the
   * reading its callers rely on.
   */
  predicate IsObject(v: Value) {
    v.Obj?
  }

  /** `v instanceof Error`; every native error class inherits from Error. */
  predicate IsErrorInstance(v: Value) {
    v.Obj? && v.cls != PlainObject
  }

  /** `v instanceof TypeError`. */
  predicate IsTypeErrorInstance(v: Value) {
    v.Obj? && v.cls == TypeErrorInstance
  }

  /** `v instanceof DOMException`. */
  predicate IsDOMExceptionInstance(v: Value) {
    v.Obj? && v.cls == DOMExceptionInstance
  }

  /** The own entry for `key`; the first entry wins when a key repeats. */
  function Lookup(props: seq<(string, Value)>, key: string): Option<Value> {
    if |props| == 0 then None
    else if props[0].0 == key then Some(props[0].1)
    else Lookup(props[1..], key)
  }

  /**
   * Lookup finds an entry exactly when the key occurs, and what it finds is
   * the value of the first entry with that key.
   */
  lemma {:induction false} LookupFindsFirstEntry(props: seq<(string, Value)>, key: string)
    ensures Lookup(props, key).None? <==> forall i :: 0 <= i < |props| ==> props[i].0 != key
    ensures Lookup(props, key).Some? ==>
      exists i :: 0 <= i < |props| && props[i] == (key, Lookup(props, key).value)
        && forall j :: 0 <= j < i ==> props[j].0 != key
  {
    if |props| > 0 && props[0].0 != key {
      LookupFindsFirstEntry(props[1..], key);
      assert forall i :: 1 <= i < |props| ==> props[i] == props[1..][i - 1];
      if Lookup(props, key).Some? {
        var i :| 0 <= i < |props[1..]| && props[1..][i] == (key, Lookup(props, key).value)
          && forall j :: 0 <= j < i ==> props[1..][j].0 != key;
        assert props[i + 1] == (key, Lookup(props, key).value);
      }
    }
  }

  /** The `name` a native error class supplies through its prototype. */
  function ClassName(c: ObjectClass): string {
    match c
    case PlainObject => ""
    case ErrorInstance => "Error"
    case TypeErrorInstance => "TypeError"
    case DOMExceptionInstance => "Error"
  }

  /** The value inherited from the prototype when an object has no own `key`. */
  function Inherited(c: ObjectClass, key: string): Value {
    if c == PlainObject then Undefined
    else if key == "message" then Str("")
    else if key == "name" then Str(ClassName(c))
    else Undefined
  }

  /**
   * Property read `v[key]`: an own entry first, then the prototype's value.
   * Reading any property of a non-object yields `undefined` here (the
   * normalizer reads no property of a primitive or array other than the
   * ones it reaches through sequence operations).
   */
  function Get(v: Value, key: string): Value {
    if v.Obj? then
      match Lookup(v.props, key)
      case Some(x) => x
      case None => Inherited(v.cls, key)
    else Undefined
  }

  /** `Object.keys(v)`: the keys of the object's entries, in order. */
  function Keys(v: Value): (ks: seq<string>)
    ensures v.Obj? ==> |ks| == |v.props|
    ensures v.Obj? ==> forall i :: 0 <= i < |ks| ==> ks[i] == v.props[i].0
    ensures !v.Obj? ==> ks == []
  {
    if v.Obj? then seq(|v.props|, i requires 0 <= i < |v.props| => v.props[i].0) else []
  }

  /** `Object.keys(v)[0]`, when the object has at least one key. */
  function FirstKey(v: Value): Option<string> {
    if |Keys(v)| > 0 then Some(Keys(v)[0]) else None
  }

  /**
   * `v[Object.keys(v)[0]]` for an object with at least one key: reading the
   * first key back yields the first entry's value, whatever came after it.
   */
  function FirstValue(v: Value): (r: Option<Value>)
    ensures r.Some? <==> v.Obj? && |v.props| > 0
    ensures r.Some? ==> FirstKey(v) == Some(v.props[0].0) && r.value == v.props[0].1
  {
    if IsObject(v) && FirstKey(v).Some? then Some(Get(v, FirstKey(v).value)) else None
  }

  /** `typeof v === 'number'` read as an optional integer. */
  function NumberOf(v: Value): (r: Option<int>)
    ensures r.Some? <==> v.Num?
    ensures r.Some? ==> v == Num(r.value)
  {
    if v.Num? then Some(v.n) else None
  }

  /** `typeof v === 'string'` read as an optional string. */
  function StringOf(v: Value): (r: Option<string>)
    ensures r.Some? <==> v.Str?
    ensures r.Some? ==> v == Str(r.value)
  {
    if v.Str? then Some(v.s) else None
  }

  /** `a || b` on values. */
  function Or(a: Value, b: Value): (r: Value)
    ensures Truthy(a) ==> r == a
    ensures !Truthy(a) ==> r == b
  {
    if Truthy(a) then a else b
  }

  /** `a || b` on strings: the empty string counts as missing. */
  function OrString(a: string, b: string): (r: string)
    ensures a != "" ==> r == a
    ensures a == "" ==> r == b
  {
    if a != "" then a else b
  }

  /** The value an optional integer stands for: `undefined` when absent. */
  function FromNumber(o: Option<int>): (v: Value)
    ensures o.None? ==> v == Undefined
    ensures o.Some? ==> v == Num(o.value)
  {
    match o
    case None => Undefined
    case Some(n) => Num(n)
  }
}
