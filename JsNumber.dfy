/** The part of JavaScript's number semantics that the reader, the geometry and the
    gain model depend on. A number is an exact real (rounding and the infinities are
    not modelled), NaN, or `undefined` — the value a memory read without a default
    returns. `undefined` and NaN behave alike under every operator used here except
    strict equality, where `undefined === undefined` holds and `NaN === NaN` does not. */
module JsNumber {

  datatype JsNum = Undefined | NaN | Num(v: real)

  /** `isNaN(a)`: true of NaN and of `undefined` (which converts to NaN). */
  predicate IsNaN(a: JsNum) { !a.Num? }

  function Plus(a: JsNum, b: JsNum): JsNum {
    if a.Num? && b.Num? then Num(a.v + b.v) else NaN
  }

  function Minus(a: JsNum, b: JsNum): JsNum {
    if a.Num? && b.Num? then Num(a.v - b.v) else NaN
  }

  function Times(a: JsNum, b: JsNum): JsNum {
    if a.Num? && b.Num? then Num(a.v * b.v) else NaN
  }

  function Negate(a: JsNum): JsNum {
    if a.Num? then Num(-a.v) else NaN
  }

  /** Relational operators are false as soon as either side is NaN or `undefined`. */
  predicate Lt(a: JsNum, b: JsNum) { a.Num? && b.Num? && a.v < b.v }
  predicate Le(a: JsNum, b: JsNum) { a.Num? && b.Num? && a.v <= b.v }
  predicate Gt(a: JsNum, b: JsNum) { a.Num? && b.Num? && a.v > b.v }

  /** `a === b` on numbers and `undefined` (also `a == b`, since no null or string meets these). */
  predicate StrictEq(a: JsNum, b: JsNum) {
    (a.Undefined? && b.Undefined?) || (a.Num? && b.Num? && a.v == b.v)
  }

  /** Truthiness, as used by `if (x)` and `!x`. */
  predicate Truthy(a: JsNum) { a.Num? && a.v != 0.0 }

  /** `Math.min(a, b)`: NaN if either argument is not a number. */
  function MathMin(a: JsNum, b: JsNum): (r: JsNum)
    ensures r.Num? <==> a.Num? && b.Num?
    ensures r.Num? ==> r.v <= a.v && r.v <= b.v && (r.v == a.v || r.v == b.v)
  {
    if a.Num? && b.Num? then Num(if a.v <= b.v then a.v else b.v) else NaN
  }

  function MathAbs(a: JsNum): JsNum {
    if a.Num? then Num(if a.v < 0.0 then -a.v else a.v) else NaN
  }

  function MathSign(a: JsNum): JsNum {
    if !a.Num? then NaN else if a.v > 0.0 then Num(1.0) else if a.v < 0.0 then Num(-1.0) else Num(0.0)
  }

  /** Truncation toward zero. */
  function Trunc(x: real): (t: int)
    ensures x >= 0.0 ==> t as real <= x < t as real + 1.0
    ensures x < 0.0 ==> t as real - 1.0 < x <= t as real
  {
    if x >= 0.0 then x.Floor else -((-x).Floor)
  }

  const TwoTo32: int := 0x1_0000_0000
  const TwoTo31: int := 0x8000_0000

  /** ToInt32: the signed 32-bit integer `a | 0` (also `a & 0xffffffff`) yields. */
  function ToInt32(a: JsNum): (r: int)
    ensures -TwoTo31 <= r < TwoTo31
    ensures (r - (if a.Num? then Trunc(a.v) else 0)) % TwoTo32 == 0
  {
    if !a.Num? then 0
    else
      var t := Trunc(a.v) % TwoTo32;
      if t >= TwoTo31 then t - TwoTo32 else t
  }

  /** The shift count of `x << a`: ToUint32(a) & 31, the truncation modulo 32 (so
      `1 << 32` is bit 0), and 0 for NaN and `undefined`. */
  function ShiftCount(a: JsNum): (s: nat)
    ensures s < 32
    ensures a.Num? ==> (s - Trunc(a.v)) % 32 == 0
    ensures !a.Num? ==> s == 0
  {
    if a.Num? then Trunc(a.v) % 32 else 0
  }

  /** A 32-bit mask, as its bits: element k is bit k, the bit of the value `1 << k`. */
  type Mask = m: seq<bool> | |m| == 32 witness seq(32, k => false)

  /** The mask 0. */
  function NoBits(): Mask {
    seq(32, k => false)
  }

  /** The mask -1: all 32 bits set. */
  function AllOnes(): Mask {
    seq(32, k => true)
  }

  /** The all-ones mask is nonzero. */
  lemma AllOnesNonZero()
    ensures AllOnes() != NoBits()
  {
    assert AllOnes()[0] != NoBits()[0];
  }

  /** The mask with the single bit k. */
  function OneBit(k: nat): Mask {
    seq(32, j => j == k)
  }

  /** A single bit is a nonzero mask. */
  lemma OneBitNonZero(k: nat)
    requires k < 32
    ensures OneBit(k) != NoBits()
  {
    assert OneBit(k)[k] != NoBits()[k];
  }

  /** `1 << a`: the single bit at the shift count of a. */
  function Shl1(a: JsNum): Mask {
    OneBit(ShiftCount(a))
  }

  /** A loop counter below 32 is its own shift count. */
  lemma ShiftCountOfIndex(i: nat)
    requires i < 32
    ensures ShiftCount(Num(i as real)) == i
  {
    assert Trunc(i as real) == i;
  }

  /** `m & ~(1 << a)`: m with the bit at the shift count of a cleared. */
  function ClearShl1(m: Mask, a: JsNum): Mask {
    m[ShiftCount(a) := false]
  }
}
