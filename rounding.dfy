/** Python's `round` on exact reals. CPython rounds a float to the nearest
    integer (or to the nearest tenth with `round(x, 1)`) and breaks ties
    towards the even neighbour; the model applies that rule to the exact
    real value, ignoring binary floating-point representation. */
module Rounding {

  /** `round(x)`: nearest integer, ties to even. */
  function RoundHalfEven(x: real): (n: int)
    ensures x - 0.5 <= n as real <= x + 0.5
    ensures x - x.Floor as real == 0.5 ==> n % 2 == 0
  {
    var f := x.Floor;
    var frac := x - f as real;
    if frac < 0.5 then f
    else if frac > 0.5 then f + 1
    else if f % 2 == 0 then f
    else f + 1
  }

  /** A whole number of tenths. */
  predicate IsTenth(r: real)
  {
    (r * 10.0).Floor as real == r * 10.0
  }

  /** `round(x, 1)` and `round(x * 10) / 10`: nearest tenth, ties to even. */
  function RoundTenth(x: real): (r: real)
    ensures IsTenth(r)
    ensures x - 0.05 <= r <= x + 0.05
    ensures x * 10.0 - (x * 10.0).Floor as real == 0.5 ==> (r * 10.0).Floor % 2 == 0
  {
    RoundHalfEven(x * 10.0) as real / 10.0
  }

  /** The contract of `RoundHalfEven` determines it: the only integer
      within 0.5 of `x` that is even on a tie is `round(x)`. */
  lemma RoundHalfEvenUnique(x: real, m: int)
    requires x - 0.5 <= m as real <= x + 0.5
    requires x - x.Floor as real == 0.5 ==> m % 2 == 0
    ensures m == RoundHalfEven(x)
  {
    var f := x.Floor;
    assert f <= m <= f + 1;
  }

  /** The contract of `RoundTenth` determines it: the only whole number
      of tenths within 0.05 of `x`, with an even count of tenths on a
      tie, is `round(x, 1)`. */
  lemma RoundTenthUnique(x: real, r: real)
    requires IsTenth(r)
    requires x - 0.05 <= r <= x + 0.05
    requires x * 10.0 - (x * 10.0).Floor as real == 0.5 ==> (r * 10.0).Floor % 2 == 0
    ensures r == RoundTenth(x)
  {
    var m := (r * 10.0).Floor;
    RoundHalfEvenUnique(x * 10.0, m);
  }

  /** Python's `int(x)`: truncation toward zero. */
  function Truncate(x: real): (n: int)
    ensures x >= 0.0 ==> n as real <= x < n as real + 1.0
    ensures x < 0.0 ==> n as real - 1.0 < x <= n as real
  {
    if x >= 0.0 then x.Floor else -((-x).Floor)
  }

  /** Rounding never reverses the order of two values. */
  lemma RoundHalfEvenMonotone(x: real, y: real)
    requires x <= y
    ensures RoundHalfEven(x) <= RoundHalfEven(y)
  {
    if x.Floor < y.Floor {
      assert RoundHalfEven(x) <= x.Floor + 1 <= y.Floor <= RoundHalfEven(y);
    }
  }

  lemma RoundTenthMonotone(x: real, y: real)
    requires x <= y
    ensures RoundTenth(x) <= RoundTenth(y)
  {
    RoundHalfEvenMonotone(x * 10.0, y * 10.0);
  }

  /** Whole numbers are left unchanged. */
  lemma RoundHalfEvenOfInt(n: int)
    ensures RoundHalfEven(n as real) == n
  {
    assert (n as real).Floor == n;
  }

  /** A value already rounded to a tenth is left unchanged by rounding again. */
  lemma RoundTenthIdempotent(x: real)
    ensures RoundTenth(RoundTenth(x)) == RoundTenth(x)
  {
    var n := RoundHalfEven(x * 10.0);
    assert RoundTenth(x) * 10.0 == n as real;
    RoundHalfEvenOfInt(n);
  }

  /** Rounding a non-negative value gives a non-negative value. */
  lemma RoundTenthNonNegative(x: real)
    requires x >= 0.0
    ensures RoundTenth(x) >= 0.0
  {
    RoundTenthMonotone(0.0, x);
    RoundHalfEvenOfInt(0);
  }

  /** Rounding to a tenth keeps the sign of its argument (zero counts as
      either). */
  lemma RoundTenthSign(x: real)
    ensures x >= 0.0 ==> RoundTenth(x) >= 0.0
    ensures x <= 0.0 ==> RoundTenth(x) <= 0.0
  {
    RoundHalfEvenOfInt(0);
    if x >= 0.0 {
      RoundTenthMonotone(0.0, x);
    } else {
      RoundTenthMonotone(x, 0.0);
    }
  }
}
