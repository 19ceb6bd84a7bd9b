/** JavaScript values as they reach the tools (arguments decoded from JSON,
    response bodies) and the few JavaScript operators the core applies to them. */
module Json {
  import opened Prelude

  /** A JavaScript value reachable from decoded JSON, plus `undefined`.
      Numbers are integers here; objects are their own enumerable properties. */
  datatype Value =
    | Undefined
    | Null
    | Bool(b: bool)
    | Num(n: int)
    | Str(s: string)
    | Arr(elems: seq<Value>)
    | Obj(fields: map<string, Value>)

  /** `JSON.parse`, supplied from outside: None when the text is not JSON. */
  type Parser = string -> Option<Value>

  /** Text produced from a value: a string used as is, or the output of
      `JSON.stringify(v, null, indent)`, which the model leaves uninterpreted. */
  datatype Rendered = Verbatim(s: string) | Stringify(v: Value, indent: nat)

  /** `JSON.stringify(v, null, indent)`, supplied from outside. */
  type Stringifier = (Value, nat) -> string

  /** The text of a rendering, given how values are stringified. */
  function Text(x: Rendered, stringify: Stringifier): string
  {
    match x
    case Verbatim(s) => s
    case Stringify(v, indent) => stringify(v, indent)
  }

  /** JavaScript truthiness: `!v` is false exactly for these values. */
  predicate Truthy(v: Value)
  {
    match v
    case Undefined => false
    case Null => false
    case Bool(b) => b
    case Num(n) => n != 0
    case Str(s) => s != ""
    case Arr(_) => true
    case Obj(_) => true
  }

  predicate Nullish(v: Value)
  {
    v.Undefined? || v.Null?
  }

  /** Reading property `key` of a non-nullish value: an object's own property,
      `undefined` otherwise. */
  function Prop(v: Value, key: string): Value
  {
    if v.Obj? && key in v.fields then v.fields[key] else Undefined
  }

  /** `a || b`. */
  function Or(a: Value, b: Value): (r: Value)
    ensures Truthy(a) ==> r == a
    ensures !Truthy(a) ==> r == b
  {
    if Truthy(a) then a else b
  }

  /** `typeof v === "string" ? v : JSON.stringify(v)`, the error-detail rule. */
  function Detail(v: Value): (r: Rendered)
    ensures v.Str? ==> r == Verbatim(v.s)
    ensures !v.Str? ==> r == Stringify(v, 0)
  {
    if v.Str? then Verbatim(v.s) else Stringify(v, 0)
  }

  /** `String(v)`, also what a template literal `${v}` inserts. */
  function ToJsString(v: Value): string
    decreases v
  {
    match v
    case Undefined => "undefined"
    case Null => "null"
    case Bool(b) => if b then "true" else "false"
    case Num(n) => IntToString(n)
    case Str(s) => s
    case Arr(xs) =>
      Join(seq(|xs|, i requires 0 <= i < |xs| => if Nullish(xs[i]) then "" else ToJsString(xs[i])), ",")
    case Obj(_) => "[object Object]"
  }

  /** The properties `Object.assign({}, x)` copies from an array or string:
      one per index, keyed by the index written in decimal. */
  function IndexProps(xs: seq<Value>): map<string, Value>
    decreases |xs|
  {
    if |xs| == 0 then map[]
    else IndexProps(xs[..|xs| - 1])[NatToString(|xs| - 1) := xs[|xs| - 1]]
  }

  /** Every index of `xs`, written in decimal, is a key of `IndexProps(xs)`
      holding that element. */
  lemma {:induction false} IndexPropsHoldElements(xs: seq<Value>)
    ensures forall i :: 0 <= i < |xs| ==> NatToString(i) in IndexProps(xs) && IndexProps(xs)[NatToString(i)] == xs[i]
    decreases |xs|
  {
    if |xs| > 0 {
      var n := |xs| - 1;
      IndexPropsHoldElements(xs[..n]);
      forall i | 0 <= i < n
        ensures NatToString(i) in IndexProps(xs) && IndexProps(xs)[NatToString(i)] == xs[i]
      {
        if NatToString(i) == NatToString(n) {
          NatToStringInjective(i, n);
        }
        assert xs[..n][i] == xs[i];
      }
    }
  }

  /** `k` is one of the indices below `n`, written in decimal. */
  predicate IsIndexName(k: string, n: nat)
  {
    exists i :: 0 <= i < n && k == NatToString(i)
  }

  /** `IndexProps(xs)` has no key other than an index of `xs` in decimal. */
  lemma {:induction false} IndexPropsOnlyIndices(xs: seq<Value>)
    ensures forall k :: k in IndexProps(xs) ==> IsIndexName(k, |xs|)
    decreases |xs|
  {
    if |xs| > 0 {
      var n := |xs| - 1;
      IndexPropsOnlyIndices(xs[..n]);
      assert IndexProps(xs) == IndexProps(xs[..n])[NatToString(n) := xs[n]];
      forall k | k in IndexProps(xs) ensures IsIndexName(k, |xs|) {
        if k == NatToString(n) {
          assert 0 <= n < |xs| && k == NatToString(n);
        } else {
          assert IsIndexName(k, n);
          var i :| 0 <= i < n && k == NatToString(i);
          assert 0 <= i < |xs| && k == NatToString(i);
        }
      }
    }
  }

  /** `Object.assign({}, v)`: the own enumerable properties of `v`. */
  function ShallowCopy(v: Value): (r: map<string, Value>)
    ensures v.Obj? ==> r == v.fields
    ensures v.Arr? ==> r == IndexProps(v.elems)
    ensures !v.Obj? && !v.Arr? && !v.Str? ==> r == map[]
  {
    match v
    case Obj(m) => m
    case Arr(xs) => IndexProps(xs)
    case Str(s) => IndexProps(seq(|s|, i requires 0 <= i < |s| => Str([s[i]])))
    case _ => map[]
  }
}
