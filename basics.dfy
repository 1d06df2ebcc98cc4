/** Numeric vocabulary shared by every model: JavaScript's Math.max, Math.min,
 *  Math.floor, Math.round, Math.sign and the `| 0` conversion to a signed
 *  32-bit integer, stated over exact reals and unbounded integers. */
module Basics {

  datatype Option<+T> = None | Some(value: T)

  /** Math.max and Math.min over money, prices and pixel offsets, which
   *  the models keep as exact reals. */
  function Max(a: real, b: real): (r: real)
    ensures r >= a && r >= b
    ensures r == a || r == b
  {
    if a >= b then a else b
  }

  function Min(a: real, b: real): (r: real)
    ensures r <= a && r <= b
    ensures r == a || r == b
  {
    if a <= b then a else b
  }

  /** The same two operations over `int`, for counts, lengths and indices.
   *  Dafny does not convert between `int` and `real` implicitly, so
   *  `Max`/`Min` cannot serve these callers without a cast at every use
   *  and back again. */
  function IntMax(a: int, b: int): (r: int)
    ensures r >= a && r >= b
    ensures r == a || r == b
  {
    if a >= b then a else b
  }

  function IntMin(a: int, b: int): (r: int)
    ensures r <= a && r <= b
    ensures r == a || r == b
  {
    if a <= b then a else b
  }

  /** Math.round: the nearest integer, halves rounded up. */
  function Round(x: real): (r: int)
    ensures x - 0.5 < r as real <= x + 0.5
  {
    (x + 0.5).Floor
  }

  /** Math.sign on a real, as -1, 0 or 1. */
  function Sign(x: real): (s: int)
    ensures s == -1 || s == 0 || s == 1
    ensures s > 0 <==> x > 0.0
    ensures s < 0 <==> x < 0.0
  {
    if x > 0.0 then 1 else if x < 0.0 then -1 else 0
  }

  function Abs(x: int): (r: nat)
    ensures r == x || r == -x
  {
    if x < 0 then -x else x
  }

  const TWO_31: int := 0x8000_0000
  const TWO_32: int := 0x1_0000_0000

  predicate IsInt32(x: int) {
    -TWO_31 <= x < TWO_31
  }

  /** ECMAScript ToInt32: wrap an integer into the signed 32-bit range. */
  function ToInt32(x: int): (r: int)
    ensures IsInt32(r)
    ensures (x - r) % TWO_32 == 0
    ensures IsInt32(x) ==> r == x
  {
    (x + TWO_31) % TWO_32 - TWO_31
  }

  /** ToInt32 only looks at its argument modulo 2^32. */
  lemma ToInt32Congruent(a: int, b: int)
    requires (a - b) % TWO_32 == 0
    ensures ToInt32(a) == ToInt32(b)
  {
    var k := (a - b) / TWO_32;
    assert a == b + k * TWO_32;
    assert (a + TWO_31) % TWO_32 == (b + TWO_31 + k * TWO_32) % TWO_32;
    ModShift(b + TWO_31, k);
  }

  lemma ModShift(x: int, k: int)
    ensures (x + k * TWO_32) % TWO_32 == x % TWO_32
  {
    var q := x / TWO_32;
    var m := x % TWO_32;
    assert x == q * TWO_32 + m && 0 <= m < TWO_32;
    assert x + k * TWO_32 == (q + k) * TWO_32 + m;
  }

  /** Math.round(x * 100) / 100, and Number(x.toFixed(2)) on exact reals:
   *  the nearest whole number of cents, halves rounded up. */
  function RoundCents(x: real): (r: real)
    ensures x - 0.005 < r <= x + 0.005
  {
    Round(x * 100.0) as real / 100.0
  }

  /** A whole number of cents. */
  predicate IsCents(x: real) {
    (x * 100.0).Floor as real == x * 100.0
  }

  /** Rounding to cents lands on a whole number of cents. */
  lemma RoundCentsIsCents(x: real)
    ensures IsCents(RoundCents(x))
  {
    var k := Round(x * 100.0);
    assert RoundCents(x) * 100.0 == k as real;
    assert (k as real).Floor == k;
  }

  /** A whole number of cents is left unchanged. */
  lemma RoundCentsFixes(x: real)
    ensures IsCents(x) ==> RoundCents(x) == x
  {
    if IsCents(x) {
      var n := (x * 100.0).Floor;
      assert n as real <= x * 100.0 + 0.5 < n as real + 1.0;
      assert (x * 100.0 + 0.5).Floor == n;
    }
  }

  /** Rounding to cents never reverses the order of two amounts. */
  lemma RoundCentsMonotone(x: real, y: real)
    requires x <= y
    ensures RoundCents(x) <= RoundCents(y)
  {
    assert x * 100.0 + 0.5 <= y * 100.0 + 0.5;
    assert Round(x * 100.0) <= Round(y * 100.0);
  }
}
