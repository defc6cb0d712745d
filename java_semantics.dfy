/** The Java arithmetic the chart view relies on: 32-bit `int` wrap-around,
    the `(int)` cast of a `double`, and `int` division by two, which
    truncates toward zero. */
module JavaSemantics {
  const INT_MIN: int := -0x8000_0000
  const INT_MAX: int := 0x7fff_ffff
  const TWO_TO_32: int := 0x1_0000_0000

  predicate IsInt32(x: int) { INT_MIN <= x <= INT_MAX }

  /** The value a Java `int` expression holds when its exact value is `x`:
      the one `int` that is congruent to `x` modulo 2^32. */
  function Int32(x: int): (r: int)
    ensures IsInt32(r)
    ensures (x - r) % TWO_TO_32 == 0
    ensures IsInt32(x) ==> r == x
  {
    (x - INT_MIN) % TWO_TO_32 + INT_MIN
  }

  /** Two exact values that are congruent modulo 2^32 wrap to the same `int`. */
  lemma Int32OfCongruent(a: int, b: int)
    requires (a - b) % TWO_TO_32 == 0
    ensures Int32(a) == Int32(b)
  {
    var ra, rb := Int32(a), Int32(b);
    var d := (a - b) / TWO_TO_32;
    var p := (a - ra) / TWO_TO_32;
    var q := (b - rb) / TWO_TO_32;
    assert a - b == TWO_TO_32 * d;
    assert a - ra == TWO_TO_32 * p;
    assert b - rb == TWO_TO_32 * q;
    var m := d - p + q;
    assert ra - rb == TWO_TO_32 * m;
  }

  /** Wrapping the left operand of a sum first does not change the wrapped sum,
      so a chain of `int` additions wraps like one addition. */
  lemma Int32AddWrapped(a: int, b: int)
    ensures Int32(Int32(a) + b) == Int32(a + b)
  {
    var ra := Int32(a);
    assert (a - ra) % TWO_TO_32 == 0;
    var p := (a - ra) / TWO_TO_32;
    assert (Int32(a) + b) - (a + b) == TWO_TO_32 * (-p);
    Int32OfCongruent(Int32(a) + b, a + b);
  }

  /** Wrapping the subtrahend first does not change the wrapped difference. */
  lemma Int32SubWrapped(a: int, b: int)
    ensures Int32(a - Int32(b)) == Int32(a - b)
  {
    var rb := Int32(b);
    var p := (b - rb) / TWO_TO_32;
    assert (a - Int32(b)) - (a - b) == TWO_TO_32 * p;
    Int32OfCongruent(a - Int32(b), a - b);
  }

  /** Java's `(int)` cast of a `double`: the value rounded toward zero,
      saturated at the bounds of `int`. */
  function D2I(x: real): (r: int)
    ensures IsInt32(r)
    ensures x >= INT_MAX as real ==> r == INT_MAX
    ensures x <= INT_MIN as real ==> r == INT_MIN
    ensures 0.0 <= x < INT_MAX as real ==> r as real <= x < r as real + 1.0
    ensures INT_MIN as real < x <= 0.0 ==> r as real - 1.0 < x <= r as real
  {
    if x >= INT_MAX as real then INT_MAX
    else if x <= INT_MIN as real then INT_MIN
    else if x >= 0.0 then x.Floor
    else -((-x).Floor)
  }

  /** The cast leaves a whole number of `int` range unchanged. */
  lemma D2IOfInt(n: int)
    requires IsInt32(n)
    ensures D2I(n as real) == n
  {
  }

  /** A non-negative `int` plus a fraction below 1 casts back to the `int`. */
  lemma D2IDropsFraction(n: int, c: real)
    requires 0 <= n < INT_MAX && 0.0 <= c < 1.0
    ensures D2I(n as real + c) == n
  {
    var r := D2I(n as real + c);
    assert r as real <= n as real + c < r as real + 1.0;
  }

  /** Java's `a / 2` on `int`: the half of `a` rounded toward zero. */
  function DivTwo(a: int): (r: int)
    ensures 0 <= a ==> 0 <= a - 2 * r <= 1
    ensures a <= 0 ==> -1 <= a - 2 * r <= 0
  {
    if a >= 0 then a / 2 else -((-a) / 2)
  }
}
