/** Python's built-in `round(x, ndigits)`, taken over the exact real value of `x`:
    the result is the multiple of 10^-ndigits nearest to `x`, and a tie goes to
    the even multiple ("banker's rounding"). */
module Rounding {

  /** 10 raised to `k`. */
  function Pow10(k: nat): (p: nat)
    ensures p >= 1
  {
    if k == 0 then 1 else 10 * Pow10(k - 1)
  }

  /** The factor that moves the `digits`-th decimal to the units place. */
  function Scale(digits: nat): (s: real)
    ensures s >= 1.0
  {
    Pow10(digits) as real
  }

  /** The integer nearest to `s`; of two equally near integers, the even one. */
  function RoundHalfEven(s: real): (n: int)
    ensures s - 0.5 <= n as real <= s + 0.5
    ensures (n as real - s == 0.5 || s - n as real == 0.5) ==> n % 2 == 0
  {
    var f := s.Floor;
    var frac := s - f as real;
    if frac < 0.5 then f
    else if frac > 0.5 then f + 1
    else if f % 2 == 0 then f
    else f + 1
  }

  /** `x` to the nearest multiple of `1 / scale`, ties to even. */
  function RoundAtScale(x: real, scale: real): (y: real)
    requires scale >= 1.0
    ensures x - 0.5 / scale <= y <= x + 0.5 / scale
  {
    ScaleDown(x, RoundHalfEven(x * scale) as real, scale);
    var n := RoundHalfEven(x * scale) as real;
    assert (n / scale) * scale == n;
    n / scale
  }

  /** `round(x, digits)`: `x` to the nearest multiple of 10^-digits, ties to even. */
  function Round(x: real, digits: nat): (y: real)
    ensures x - 0.5 / Scale(digits) <= y <= x + 0.5 / Scale(digits)
  {
    RoundAtScale(x, Scale(digits))
  }

  /** The rounded value has `digits` decimals: scaled back up it is the integer that
      `RoundHalfEven` picks for the scaled input, so a tie goes to the even multiple. */
  lemma RoundOnGrid(x: real, digits: nat)
    ensures Round(x, digits) * Scale(digits) == RoundHalfEven(x * Scale(digits)) as real
  {
    RoundAtScaleOnGrid(x, Scale(digits));
  }

  lemma RoundAtScaleOnGrid(x: real, scale: real)
    requires scale >= 1.0
    ensures RoundAtScale(x, scale) * scale == RoundHalfEven(x * scale) as real
  {
  }

  /** Dividing the bounds `x * p - 1/2 <= n <= x * p + 1/2` by `p`. */
  lemma ScaleDown(x: real, n: real, p: real)
    requires p >= 1.0
    requires x * p - 0.5 <= n <= x * p + 0.5
    ensures x - 0.5 / p <= n / p <= x + 0.5 / p
  {
    assert n / p - x == (n - x * p) / p;
    assert (n - x * p) / p <= 0.5 / p;
    assert -0.5 / p <= (n - x * p) / p;
  }

  lemma {:induction false} RoundHalfEvenMonotone(s: real, t: real)
    requires s <= t
    ensures RoundHalfEven(s) <= RoundHalfEven(t)
  {
    var fs, ft := s.Floor, t.Floor;
    assert fs <= ft;
    if fs == ft {
      assert s - fs as real <= t - ft as real;
    } else {
      assert RoundHalfEven(s) <= fs + 1 <= ft <= RoundHalfEven(t);
    }
  }

  lemma RoundAtScaleMonotone(x: real, y: real, scale: real)
    requires x <= y && scale >= 1.0
    ensures RoundAtScale(x, scale) <= RoundAtScale(y, scale)
  {
    ScaleMonotone(x, y, scale);
    RoundHalfEvenMonotone(x * scale, y * scale);
    DivideMonotone(RoundHalfEven(x * scale) as real, RoundHalfEven(y * scale) as real, scale);
  }

  /** Rounding never reverses the order of two values. */
  lemma RoundMonotone(x: real, y: real, digits: nat)
    requires x <= y
    ensures Round(x, digits) <= Round(y, digits)
  {
    RoundAtScaleMonotone(x, y, Scale(digits));
  }

  lemma ScaleMonotone(x: real, y: real, p: real)
    requires x <= y && p >= 0.0
    ensures x * p <= y * p
  {
    assert y * p - x * p == (y - x) * p;
  }

  lemma DivideMonotone(m: real, n: real, p: real)
    requires m <= n && p > 0.0
    ensures m / p <= n / p
  {
    assert n / p - m / p == (n - m) / p;
  }

  /** A non-negative value never rounds to a negative one. */
  lemma RoundNonNegative(x: real, digits: nat)
    requires x >= 0.0
    ensures Round(x, digits) >= 0.0
  {
    RoundMonotone(0.0, x, digits);
    assert RoundHalfEven(0.0) == 0;
  }
}
