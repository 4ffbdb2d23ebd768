/** The few pieces of JavaScript semantics the plugin relies on: values and their
    truthiness, `||`, string conversion, `Number(...)`, property lookup on a plain
    object, and `String.prototype.indexOf`. */
module Js {
  import Decimal

  /** `null`-or-value, for host results that may be missing. */
  datatype Option<+T> = None | Some(value: T)

  /** A JavaScript value as far as the plugin's options can hold one. Numbers are
      integers here; fractional numbers and NaN are not part of the model. */
  datatype Value = Undefined | Null | Bool(b: bool) | Num(n: int) | Str(s: string)

  /** ToBoolean: what `if (v)` and `v || w` test. */
  predicate Truthy(v: Value) {
    match v
    case Undefined => false
    case Null => false
    case Bool(b) => b
    case Num(n) => n != 0
    case Str(s) => s != ""
  }

  /** `a || b`: the first operand when it is truthy, otherwise the second. */
  function Or(a: Value, b: Value): (r: Value)
    ensures Truthy(r) <==> Truthy(a) || Truthy(b)
    ensures r == a || r == b
    ensures Truthy(a) ==> r == a
    ensures !Truthy(a) ==> r == b
  {
    if Truthy(a) then a else b
  }

  /** `e0 || e1 || ... || en`: the first truthy operand, or the last operand when none is. */
  function OrChain(ops: seq<Value>): (r: Value)
    requires |ops| >= 1
    ensures Truthy(r) <==> exists i :: 0 <= i < |ops| && Truthy(ops[i])
    ensures Truthy(r) ==> exists k :: 0 <= k < |ops| && ops[k] == r && forall j :: 0 <= j < k ==> !Truthy(ops[j])
    ensures !Truthy(r) ==> r == ops[|ops| - 1]
  {
    if |ops| == 1 || Truthy(ops[0]) then ops[0]
    else
      var r := OrChain(ops[1..]);
      assert forall i :: 1 <= i < |ops| ==> ops[i] == ops[1..][i - 1];
      if Truthy(r) then
        var k :| 0 <= k < |ops[1..]| && ops[1..][k] == r && forall j :: 0 <= j < k ==> !Truthy(ops[1..][j]);
        assert ops[k + 1] == r;
        r
      else r
  }

  /** Property lookup on a plain object: a missing property reads as `undefined`. */
  function Get(obj: map<string, Value>, key: string): (v: Value)
    ensures key !in obj ==> v == Undefined
    ensures key in obj ==> v == obj[key]
  {
    if key in obj then obj[key] else Undefined
  }

  /** ToString, as `'prefix' + v` applies it. */
  function ToString(v: Value): string {
    match v
    case Undefined => "undefined"
    case Null => "null"
    case Bool(b) => if b then "true" else "false"
    case Num(n) => Decimal.FromInt(n)
    case Str(s) => s
  }

  /** ToNumber, as `v * 3600000` applies it; `None` stands for NaN. Strings are read as
      plain decimal numerals only (the empty string is 0). */
  function ToNumber(v: Value): Option<int> {
    match v
    case Undefined => None
    case Null => Some(0)
    case Bool(b) => Some(if b then 1 else 0)
    case Num(n) => Some(n)
    case Str(s) => if Decimal.AllDigits(s) then Some(Decimal.Parse(s)) else None
  }

  /** `v + n` for a number `n`, written as text: string concatenation when `v` is a
      string, numeric addition otherwise (`true` is 1, `null` and `false` are 0, and
      `undefined` gives NaN). */
  function PlusNumber(v: Value, n: int): string {
    match v
    case Str(s) => s + Decimal.FromInt(n)
    case Num(m) => Decimal.FromInt(m + n)
    case Bool(b) => Decimal.FromInt((if b then 1 else 0) + n)
    case Null => Decimal.FromInt(n)
    case Undefined => "NaN"
  }

  /** `needle` occurs in `hay` starting at position `i`. */
  predicate OccursAt(hay: string, needle: string, i: int) {
    0 <= i && i + |needle| <= |hay| && hay[i..i + |needle|] == needle
  }

  predicate Contains(hay: string, needle: string) {
    exists i :: 0 <= i <= |hay| && OccursAt(hay, needle, i)
  }

  /** `hay.indexOf(needle)`: the first position where `needle` occurs, or -1. */
  function IndexOf(hay: string, needle: string): (r: int)
    ensures r == -1 <==> !Contains(hay, needle)
    ensures r != -1 ==> OccursAt(hay, needle, r) && forall j :: 0 <= j < r ==> !OccursAt(hay, needle, j)
  {
    IndexFrom(hay, needle, 0)
  }

  function IndexFrom(hay: string, needle: string, from: nat): (r: int)
    requires from <= |hay| + 1
    requires forall j :: 0 <= j < from ==> !OccursAt(hay, needle, j)
    ensures r == -1 <==> !Contains(hay, needle)
    ensures r != -1 ==> from <= r && OccursAt(hay, needle, r) && forall j :: 0 <= j < r ==> !OccursAt(hay, needle, j)
    decreases |hay| + 1 - from
  {
    if from + |needle| > |hay| then -1
    else if hay[from..from + |needle|] == needle then assert OccursAt(hay, needle, from); from
    else IndexFrom(hay, needle, from + 1)
  }

  lemma OccursInSelf(s: string)
    ensures OccursAt(s, s, 0)
  {
    assert s[0..|s|] == s;
  }

  /** Both parts of a concatenation occur in it. */
  lemma OccursInConcat(a: string, b: string)
    ensures OccursAt(a + b, a, 0) && OccursAt(a + b, b, |a|)
  {
    assert (a + b)[0..|a|] == a;
    assert (a + b)[|a|..|a| + |b|] == b;
  }

  /** An occurrence survives adding text on either side. */
  lemma {:induction false} OccursInContext(pre: string, s: string, post: string, needle: string, i: int)
    requires OccursAt(s, needle, i)
    ensures OccursAt(pre + s + post, needle, |pre| + i)
  {
    var w := pre + s + post;
    assert w[|pre| + i..|pre| + i + |needle|] == s[i..i + |needle|];
  }
}
