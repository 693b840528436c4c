/**
 * The small part of JavaScript's value semantics that the modelled code relies on:
 * strings as sequences of UTF-16 code units, ASCII `toLowerCase`, `includes`,
 * `Math.round`, truthiness, and the dynamically typed values that provider
 * responses decode to.
 */
module Js {

  /** One UTF-16 code unit, what `charCodeAt` returns. */
  newtype CodeUnit = x: int | 0 <= x < 0x1_0000

  /** A JavaScript string: a sequence of UTF-16 code units. */
  type JsString = seq<CodeUnit>

  /**
   * The code units of a string literal of the source. Every literal there lies in the
   * Basic Multilingual Plane, where a character is exactly one code unit; a character
   * beyond it (never used) would stand as U+FFFD.
   */
  function Utf16(s: string): (r: JsString)
    ensures |r| == |s|
  {
    seq(|s|, i requires 0 <= i < |s| => if s[i] as int < 0x1_0000 then s[i] as int as CodeUnit else 0xFFFD)
  }

  /** ASCII lower-casing of one code unit: 'A'..'Z' become 'a'..'z', everything else is kept. */
  function LowerUnit(c: CodeUnit): (r: CodeUnit)
    ensures 65 <= c <= 90 ==> r == c + 32
    ensures !(65 <= c <= 90) ==> r == c
    ensures !(65 <= r <= 90)
  {
    if 65 <= c <= 90 then c + 32 else c
  }

  /** `s.toLowerCase()`, restricted to ASCII letters. */
  function Lower(s: JsString): (r: JsString)
    ensures |r| == |s|
    ensures forall i :: 0 <= i < |s| ==> r[i] == LowerUnit(s[i])
  {
    seq(|s|, i requires 0 <= i < |s| => LowerUnit(s[i]))
  }

  /** `k` occurs in `s` starting at code unit `i`. */
  predicate OccursAt(s: JsString, k: JsString, i: int) {
    0 <= i && i + |k| <= |s| && s[i..i + |k|] == k
  }

  /** `s.includes(k)`: `k` occurs in `s` as a contiguous run of code units. */
  predicate Contains(s: JsString, k: JsString) {
    exists i :: 0 <= i <= |s| - |k| && OccursAt(s, k, i)
  }

  /** A witness for `Contains`. */
  lemma ContainsAt(s: JsString, k: JsString, i: nat)
    requires OccursAt(s, k, i)
    ensures Contains(s, k)
  {
  }

  /** Every code unit of an occurring key also occurs in the string. */
  lemma ContainsUnit(s: JsString, k: JsString, j: nat)
    requires Contains(s, k) && j < |k|
    ensures k[j] in s
  {
    var i :| 0 <= i <= |s| - |k| && OccursAt(s, k, i);
    assert s[i + j] == k[j];
  }

  /** An occurrence inside a prefix or suffix is an occurrence in the whole. */
  lemma ContainsConcat(a: JsString, b: JsString, k: JsString)
    ensures Contains(a, k) ==> Contains(a + b, k)
    ensures Contains(b, k) ==> Contains(a + b, k)
  {
    if Contains(a, k) {
      var i :| 0 <= i <= |a| - |k| && OccursAt(a, k, i);
      assert (a + b)[i..i + |k|] == k;
      assert OccursAt(a + b, k, i);
    }
    if Contains(b, k) {
      var i :| 0 <= i <= |b| - |k| && OccursAt(b, k, i);
      assert (a + b)[|a| + i..|a| + i + |k|] == k;
      assert OccursAt(a + b, k, |a| + i);
    }
  }

  /** `Math.round(x)`: the nearest integer, halves rounded up. */
  function Round(x: real): (r: int)
    ensures r as real <= x + 0.5 < r as real + 1.0
  {
    (x + 0.5).Floor
  }

  /** `Math.max(a, b)` on integers. */
  function Max(a: int, b: int): (r: int)
    ensures r >= a && r >= b && (r == a || r == b)
  {
    if a >= b then a else b
  }

  /** `Math.min(a, b)` on reals. */
  function MinReal(a: real, b: real): (r: real)
    ensures r <= a && r <= b && (r == a || r == b)
  {
    if a <= b then a else b
  }

  /**
   * A dynamically typed JavaScript value as produced by `res.json()`.
   * An array carries, besides its elements, any named properties attached to it.
   * Numbers are finite (JSON has no NaN).
   */
  datatype Value =
    | Undefined
    | Null
    | Bool(b: bool)
    | Num(n: real)
    | Str(s: JsString)
    | Arr(elems: seq<Value>, props: map<JsString, Value>)
    | Obj(fields: map<JsString, Value>)

  /** JavaScript truthiness. */
  predicate Truthy(v: Value) {
    match v
    case Undefined => false
    case Null => false
    case Bool(b) => b
    case Num(n) => n != 0.0
    case Str(s) => s != []
    case Arr(_, _) => true
    case Obj(_) => true
  }

  /** `null` or `undefined`, the values `??` skips and property access throws on. */
  predicate Nullish(v: Value) {
    v.Undefined? || v.Null?
  }

  /** `v?.key`: the named property, or `undefined` when there is none. */
  function Prop(v: Value, key: JsString): (r: Value)
    ensures v.Obj? && key in v.fields ==> r == v.fields[key]
    ensures v.Arr? && key in v.props ==> r == v.props[key]
    ensures !(v.Obj? && key in v.fields) && !(v.Arr? && key in v.props) ==> r == Undefined
  {
    match v
    case Obj(fields) => if key in fields then fields[key] else Undefined
    case Arr(_, props) => if key in props then props[key] else Undefined
    case _ => Undefined
  }

  /** `a || b || ... || last`: the first truthy value of `vs`, else `last`. */
  function FirstTruthy(vs: seq<Value>, last: Value): (r: Value)
    ensures (exists i :: 0 <= i < |vs| && Truthy(vs[i])) ==> Truthy(r) && r in vs
    ensures (forall i :: 0 <= i < |vs| ==> !Truthy(vs[i])) ==> r == last
    ensures |vs| > 0 && Truthy(vs[0]) ==> r == vs[0]
    ensures forall i :: 0 <= i < |vs| && Truthy(vs[i]) && (forall j :: 0 <= j < i ==> !Truthy(vs[j])) ==> r == vs[i]
    decreases |vs|
  {
    if vs == [] then last
    else if Truthy(vs[0]) then vs[0]
    else
      assert forall i :: 1 <= i < |vs| ==> vs[1..][i - 1] == vs[i];
      FirstTruthy(vs[1..], last)
  }

  /** `a ?? b ?? ... ?? last`: the first value of `vs` that is neither null nor undefined, else `last`. */
  function Coalesce(vs: seq<Value>, last: Value): (r: Value)
    ensures (exists i :: 0 <= i < |vs| && !Nullish(vs[i])) ==> !Nullish(r) && r in vs
    ensures (forall i :: 0 <= i < |vs| ==> Nullish(vs[i])) ==> r == last
    ensures |vs| > 0 && !Nullish(vs[0]) ==> r == vs[0]
    ensures forall i :: 0 <= i < |vs| && !Nullish(vs[i]) && (forall j :: 0 <= j < i ==> Nullish(vs[j])) ==> r == vs[i]
    decreases |vs|
  {
    if vs == [] then last
    else if !Nullish(vs[0]) then vs[0]
    else
      assert forall i :: 1 <= i < |vs| ==> vs[1..][i - 1] == vs[i];
      Coalesce(vs[1..], last)
  }

  /** A leading (high) surrogate code unit. */
  predicate IsHighSurrogate(c: CodeUnit) {
    0xD800 <= c <= 0xDBFF
  }

  /** A trailing (low) surrogate code unit. */
  predicate IsLowSurrogate(c: CodeUnit) {
    0xDC00 <= c <= 0xDFFF
  }

  /**
   * What `for (const c of s)` visits: the string split into code points, a surrogate
   * pair forming one two-unit piece and every other code unit a piece of its own.
   */
  function CodePoints(s: JsString): (r: seq<JsString>)
    ensures Concat(r) == s
    ensures forall i :: 0 <= i < |r| ==> 1 <= |r[i]| <= 2
    ensures |r| <= |s| && (|s| > 0 ==> |r| > 0 && r[0][0] == s[0])
    ensures forall i :: 0 <= i < |r| && |r[i]| == 2 ==> IsHighSurrogate(r[i][0]) && IsLowSurrogate(r[i][1])
    ensures forall i :: 0 <= i < |r| - 1 && |r[i]| == 1 && IsHighSurrogate(r[i][0]) ==> !IsLowSurrogate(r[i + 1][0])
    decreases |s|
  {
    if s == [] then []
    else if |s| >= 2 && IsHighSurrogate(s[0]) && IsLowSurrogate(s[1]) then
      assert s == s[..2] + s[2..];
      [s[..2]] + CodePoints(s[2..])
    else
      assert s == s[..1] + s[1..];
      [s[..1]] + CodePoints(s[1..])
  }

  /** The pieces of `ps` joined end to end. */
  function Concat(ps: seq<JsString>): JsString {
    if ps == [] then [] else ps[0] + Concat(ps[1..])
  }
}
