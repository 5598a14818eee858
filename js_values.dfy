/** The JavaScript values the dashboard script reads from a telemetry payload,
    with the few built-in operations it applies to them: `Number.isFinite`,
    unary minus, `String.prototype.toLowerCase` and `Math.round`. */
module JsValues {

  /** A numeric reading field. `Null` is the value a record holds before any
      reading was loaded; `NonFinite` stands for NaN, the two infinities and
      `undefined` (a field missing from the payload), which behave alike under
      every operation the script applies. */
  datatype JsNum = Null | Finite(r: real) | NonFinite

  /** `gridStatus`: a string, a number, or anything else (null, undefined,
      NaN, ...) that can never equal a sentinel. */
  datatype Status = Str(s: string) | NumV(r: real) | Absent

  /** `Number.isFinite(v)`: no coercion, so `null` is not finite. */
  predicate IsFinite(v: JsNum) {
    v.Finite?
  }

  /** `Number.isFinite` does not coerce while unary minus does: `null`
      and the non-finite values fail the test, yet `-null` passes it. */
  lemma NullNotFinite(x: real)
    ensures IsFinite(Finite(x))
    ensures !IsFinite(Null) && !IsFinite(NonFinite)
    ensures IsFinite(Negate(Null))
  {
  }

  /** Unary minus. It coerces: `-null` is the finite number 0 (a negative
      zero, which compares like 0 everywhere in the script). */
  function Negate(v: JsNum): (r: JsNum)
    ensures IsFinite(r) <==> !v.NonFinite?
    ensures v.Finite? ==> r.r == -v.r
    ensures v.Null? ==> r == Finite(0.0)
    ensures v.NonFinite? ==> r == NonFinite
  {
    match v
    case Null => Finite(0.0)
    case Finite(x) => Finite(-x)
    case NonFinite => NonFinite
  }

  /** Lower-casing of one character. Only `A`-`Z` are folded. Under full
      Unicode lower-casing two more characters land in ASCII: the Kelvin
      sign becomes `k`, which no grid sentinel contains, and U+0130 becomes
      `i` followed by the combining mark U+0307, which no sentinel contains
      either; so comparisons with the sentinels come out the same. */
  function LowerChar(c: char): (d: char)
    ensures 'A' <= c <= 'Z' ==> 'a' <= d <= 'z' && d as int - c as int == 32
    ensures !('A' <= c <= 'Z') ==> d == c
  {
    if 'A' <= c <= 'Z' then (c as int + 32) as char else c
  }

  /** `s.toLowerCase()`, one character at a time. */
  function ToLower(s: string): (r: string)
    ensures |r| == |s|
    ensures forall i :: 0 <= i < |s| ==> r[i] == LowerChar(s[i])
  {
    if s == [] then [] else [LowerChar(s[0])] + ToLower(s[1..])
  }

  /** A text that lower-casing leaves unchanged. */
  predicate IsLowerCase(t: string) {
    forall i :: 0 <= i < |t| ==> LowerChar(t[i]) == t[i]
  }

  /** `s` and `t` spell the same word up to the case of `A`-`Z`. */
  predicate SameIgnoringCase(s: string, t: string) {
    |s| == |t| && forall i :: 0 <= i < |s| ==> LowerChar(s[i]) == LowerChar(t[i])
  }

  /** Comparing `s.toLowerCase()` with a lower-case word is a case-insensitive
      comparison, in both directions. */
  lemma {:induction false} ToLowerEqualsWord(s: string, t: string)
    requires IsLowerCase(t)
    ensures ToLower(s) == t <==> SameIgnoringCase(s, t)
  {
    if SameIgnoringCase(s, t) {
      assert forall i :: 0 <= i < |s| ==> ToLower(s)[i] == t[i];
    }
  }

  /** Lower-casing is idempotent. */
  lemma ToLowerIdempotent(s: string)
    ensures ToLower(ToLower(s)) == ToLower(s)
  {
    assert forall i :: 0 <= i < |s| ==> ToLower(ToLower(s))[i] == ToLower(s)[i];
  }

  /** `Math.round(x)`: the nearest integer, halves rounded up. */
  function Round(x: real): (n: int)
    ensures x - 0.5 < n as real <= x + 0.5
  {
    (x + 0.5).Floor
  }

  /** `Math.min` of two numbers. */
  function Min(a: real, b: real): (m: real)
    ensures m <= a && m <= b
    ensures m == a || m == b
  {
    if a <= b then a else b
  }

  /** `Math.max` of two numbers. */
  function Max(a: real, b: real): (m: real)
    ensures m >= a && m >= b
    ensures m == a || m == b
  {
    if a >= b then a else b
  }
}
