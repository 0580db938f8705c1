/** The few pieces of ECMAScript semantics the backend leans on: the index
    clamping of `Array.prototype.slice` / `%TypedArray%.prototype.slice`
    (sections 23.1.3.28 and 23.2.3.27 of ECMA-262) and the `ToInt32`
    conversion (section 7.1.6) applied when numbers are stored into an
    `Int32Array`. */
module JsSemantics {
  import opened Wrappers

  const TwoTo31: int := 0x8000_0000
  const TwoTo32: int := 0x1_0000_0000

  /** A relative slice bound resolved against a length: negative values count
      from the end, and the result is clamped to `[0, len]`. */
  function RelativeIndex(rel: int, len: nat): (k: nat)
    ensures k <= len
    ensures 0 <= rel <= len ==> k == rel
    ensures rel < 0 && -rel <= len ==> k + (-rel) == len
    ensures (rel < 0 && -rel > len) ==> k == 0
    ensures rel > len ==> k == len
  {
    if rel < 0 then (if len + rel < 0 then 0 else len + rel)
    else if rel > len then len
    else rel
  }

  /** `s.slice(start, end)`; `None` stands for an omitted (undefined) bound. */
  function Slice<T>(s: seq<T>, start: Option<int>, end: Option<int>): (r: seq<T>)
    ensures |r| <= |s|
    ensures start.None? && end.None? ==> r == s
  {
    var k := if start.None? then 0 else RelativeIndex(start.value, |s|);
    var f := if end.None? then |s| else RelativeIndex(end.value, |s|);
    if k < f then s[k..f] else []
  }

  /** Bounds inside the sequence select exactly that subrange. */
  lemma SliceInRange<T>(s: seq<T>, a: int, b: int)
    requires 0 <= a <= b <= |s|
    ensures Slice(s, Some(a), Some(b)) == s[a..b]
  {
  }

  /** Omitting both bounds, or giving `0` and anything at or past the end,
      copies the whole sequence. */
  lemma SliceWhole<T>(s: seq<T>, start: Option<int>, end: Option<int>)
    requires start.None? || start == Some(0)
    requires end.None? || end.value >= |s|
    ensures Slice(s, start, end) == s
  {
  }

  /** ECMAScript `ToInt32` on an integral number: wrap modulo 2^32 into the
      signed 32-bit range. */
  function ToInt32(x: int): (r: int)
    ensures -TwoTo31 <= r < TwoTo31
    ensures (x - r) % TwoTo32 == 0
  {
    var u := x % TwoTo32;
    if u >= TwoTo31 then u - TwoTo32 else u
  }

  /** Values already in the signed 32-bit range are left alone. */
  lemma ToInt32Identity(x: int)
    requires -TwoTo31 <= x < TwoTo31
    ensures ToInt32(x) == x
  {
  }
}
