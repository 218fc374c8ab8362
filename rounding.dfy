/** The rounding operations the app applies to numbers, on the exact value
    of their argument: JavaScript's `Math.round` and
    `Number.prototype.toFixed`, which settle an exact half upwards and away
    from zero respectively, and
    Python's `int()`, `round(x, 2)` and `:.2f` formatting, which settle it
    towards the even neighbour. */
module Rounding {

  /** `Math.round`: the nearest integer, halves rounded up. */
  function Round(x: real): (r: int)
    ensures x - 0.5 < r as real <= x + 0.5
  {
    (x + 0.5).Floor
  }

  /** The rounding inside `toFixed`: the magnitude is rounded to the nearest
      integer, the larger one at an exact half, and the sign put back, so an
      exact half goes away from zero. */
  function RoundHalfAway(x: real): (r: int)
    ensures x - 0.5 <= r as real <= x + 0.5
    ensures r as real - x == 0.5 ==> 0.0 < x
    ensures x - r as real == 0.5 ==> x < 0.0
  {
    if x < 0.0 then -Round(-x) else Round(x)
  }

  /** `x.toFixed(2)` read back as a number: the nearest multiple of 0.01,
      the one further from zero at an exact half. */
  function Fixed2(x: real): (r: real)
    ensures x - 0.005 <= r <= x + 0.005
    ensures r - x == 0.005 ==> 0.0 < x
    ensures x - r == 0.005 ==> x < 0.0
  {
    var n := RoundHalfAway(x * 100.0);
    assert (n as real / 100.0) * 100.0 == n as real;
    n as real / 100.0
  }

  /** `x.toFixed(1)` read back as a number: the nearest multiple of 0.1, the
      one further from zero at an exact half. */
  function Fixed1(x: real): (r: real)
    ensures x - 0.05 <= r <= x + 0.05
    ensures r - x == 0.05 ==> 0.0 < x
    ensures x - r == 0.05 ==> x < 0.0
  {
    var n := RoundHalfAway(x * 10.0);
    assert (n as real / 10.0) * 10.0 == n as real;
    n as real / 10.0
  }

  /** Python's `int(x)`: truncation toward zero. */
  function Trunc(x: real): (r: int)
    ensures 0.0 <= x ==> r as real <= x < r as real + 1.0
    ensures x < 0.0 ==> r as real - 1.0 < x <= r as real
  {
    if x >= 0.0 then x.Floor else -((-x).Floor)
  }

  /** Python's rounding to a whole number: the nearest integer, an exact
      half going to the even neighbour. */
  function RoundHalfEven(x: real): (r: int)
    ensures x - 0.5 <= r as real <= x + 0.5
    ensures (r as real - x == 0.5 || x - r as real == 0.5) ==> r % 2 == 0
  {
    var f := x.Floor;
    var frac := x - f as real;
    if frac < 0.5 then f
    else if frac > 0.5 then f + 1
    else if f % 2 == 0 then f
    else f + 1
  }

  /** Python's `round(x, 2)`, and the number `f'{x:.2f}'` writes: the nearest
      multiple of 0.01, the even number of hundredths at an exact half. */
  function PyRound2(x: real): (r: real)
    ensures x - 0.005 <= r <= x + 0.005
    ensures (r - x == 0.005 || x - r == 0.005) ==> (r * 100.0).Floor % 2 == 0
  {
    var n := RoundHalfEven(x * 100.0);
    assert (n as real / 100.0) * 100.0 == n as real;
    n as real / 100.0
  }

  /** At an exact half the two languages part ways: 10.125 is written 10.13
      by `toFixed(2)` and 10.12 by Python's `round(x, 2)`; and `toFixed`
      writes -0.125 as -0.13, away from zero, where `Math.round` would settle
      the half upwards. */
  lemma RoundingAtAHalf()
    ensures Fixed2(10.125) == 10.13
    ensures PyRound2(10.125) == 10.12
    ensures Fixed2(-0.125) == -0.13
  {
    assert 10.125 * 100.0 == 1012.5;
    assert (1012.5).Floor == 1012;
    assert (1013.0).Floor == 1013;
    assert -0.125 * 100.0 == -12.5 && (13.0).Floor == 13;
  }

  /** Python's two-decimal rounding of a value at most a whole number `k`
      is at most `k`. */
  lemma PyRound2AtMostWhole(x: real, k: int)
    requires x <= k as real
    ensures PyRound2(x) <= k as real
  {
    var n := RoundHalfEven(x * 100.0);
    assert n as real <= 100.0 * k as real + 0.5;
    assert n <= 100 * k;
  }

  /** `Math.max` on integers. */
  function Max(a: int, b: int): (r: int)
    ensures r >= a && r >= b && (r == a || r == b)
  {
    if a >= b then a else b
  }

  /** `Math.max` on reals. Dafny's `int` and `real` share no ordered type, so
      the app's `Math.max` is modelled once for the whole-number fuel floor of
      the success band and once for the real-valued fuel floor of the failure
      bands. */
  function MaxReal(a: real, b: real): (r: real)
    ensures r >= a && r >= b && (r == a || r == b)
  {
    if a >= b then a else b
  }

  lemma RoundMonotone(x: real, y: real)
    requires x <= y
    ensures Round(x) <= Round(y)
  {
  }

  lemma RoundOfInteger(k: int)
    ensures Round(k as real) == k
  {
  }

  /** Rounding cannot leave an interval whose ends are whole numbers. */
  lemma RoundWithin(x: real, lo: int, hi: int)
    requires lo as real <= x <= hi as real
    ensures lo <= Round(x) <= hi
  {
    RoundMonotone(lo as real, x);
    RoundMonotone(x, hi as real);
    RoundOfInteger(lo);
    RoundOfInteger(hi);
  }

  lemma RoundHalfAwayMonotone(x: real, y: real)
    requires x <= y
    ensures RoundHalfAway(x) <= RoundHalfAway(y)
  {
    if y < 0.0 {
      RoundMonotone(-y, -x);
    } else if 0.0 <= x {
      RoundMonotone(x, y);
    } else {
      RoundMonotone(0.0, -x);
      RoundMonotone(0.0, y);
    }
  }

  lemma RoundHalfAwayOfInteger(k: int)
    ensures RoundHalfAway(k as real) == k
  {
    RoundOfInteger(k);
    RoundOfInteger(-k);
  }

  lemma Fixed2Monotone(x: real, y: real)
    requires x <= y
    ensures Fixed2(x) <= Fixed2(y)
  {
    RoundHalfAwayMonotone(x * 100.0, y * 100.0);
  }

  /** Two-decimal rounding cannot leave an interval whose ends have at most
      two decimals: the ends are given in hundredths. */
  lemma Fixed2Within(x: real, lo: int, hi: int)
    requires lo as real / 100.0 <= x <= hi as real / 100.0
    ensures lo as real / 100.0 <= Fixed2(x) <= hi as real / 100.0
  {
    RoundHalfAwayMonotone(lo as real, x * 100.0);
    RoundHalfAwayMonotone(x * 100.0, hi as real);
    RoundHalfAwayOfInteger(lo);
    RoundHalfAwayOfInteger(hi);
  }

  /** `Math.round((part / whole) * 100)`: a share as a whole percentage. */
  function Percentage(part: nat, whole: nat): (r: int)
    requires 0 < whole && part <= whole
    ensures 0 <= r <= 100
    ensures part == whole ==> r == 100
    ensures part == 0 ==> r == 0
  {
    var share := part as real / whole as real;
    assert 0.0 <= share <= 1.0 by {
      assert share * whole as real == part as real;
    }
    assert part == whole ==> share == 1.0;
    RoundWithin(share * 100.0, 0, 100);
    Round(share * 100.0)
  }
}
