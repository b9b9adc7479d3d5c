/** The retained-probability series that every projection sums over.

    The fitted power-law curve `a * day^(-b)` (`FindNewY`) is taken as given:
    `retention(day)` is its value on `day`. Day 0 is never evaluated; the series
    is seeded with a certain day 0 (value 1) instead. */
module Retention {

  /** The fitted retention curve, evaluated on days 1, 2, ... */
  type Curve = int -> real

  /** Entry `day` of the seeded series: 1 on day 0, the curve on every later day. */
  function Term(retention: Curve, day: nat): real
  {
    if day == 0 then 1.0 else retention(day)
  }

  /** Python's `sum` over a list: the entries added from the front. */
  function Sum(s: seq<real>): real
  {
    if s == [] then 0.0 else Sum(s[..|s| - 1]) + s[|s| - 1]
  }

  /** The first `n` terms of the seeded series added up (days 0 .. n-1). */
  function Cumulative(retention: Curve, n: nat): real
  {
    if n == 0 then 0.0 else Cumulative(retention, n - 1) + Term(retention, n - 1)
  }

  /** The curve summed over `range(1, endDay)`: expected active days after install. */
  function ActiveDays(retention: Curve, endDay: int): (days: real)
    ensures endDay <= 1 ==> days == 0.0
    ensures (forall i :: 1 <= i < endDay ==> retention(i) >= 0.0) ==> days >= 0.0
    decreases endDay
  {
    if endDay <= 1 then 0.0 else ActiveDays(retention, endDay - 1) + retention(endDay - 1)
  }

  /** Appending one entry adds it to the sum. */
  lemma SumAppend(s: seq<real>, x: real)
    ensures Sum(s + [x]) == Sum(s) + x
  {
    assert (s + [x])[..|s|] == s;
  }

  /** A list that holds the seeded series from day 0 sums to its cumulative value. */
  lemma {:induction false} SumOfSeries(s: seq<real>, retention: Curve)
    requires forall j :: 0 <= j < |s| ==> s[j] == Term(retention, j)
    ensures Sum(s) == Cumulative(retention, |s|)
  {
    if s != [] {
      SumOfSeries(s[..|s| - 1], retention);
    }
  }

  /** The `n`-term prefix is the day-0 seed plus the active days of `range(1, n)`. */
  lemma {:induction false} CumulativeIsSeedPlusActiveDays(retention: Curve, n: nat)
    requires n >= 1
    ensures Cumulative(retention, n) == 1.0 + ActiveDays(retention, n)
  {
    if n > 1 {
      CumulativeIsSeedPlusActiveDays(retention, n - 1);
    }
  }

  /** With a non-negative curve a longer prefix never sums to less. */
  lemma {:induction false} CumulativeMonotone(retention: Curve, m: nat, n: nat)
    requires m <= n
    requires forall i :: 1 <= i < n ==> retention(i) >= 0.0
    ensures Cumulative(retention, m) <= Cumulative(retention, n)
  {
    if m < n {
      CumulativeMonotone(retention, m, n - 1);
      assert Term(retention, n - 1) >= 0.0;
    }
  }

  /** A curve that stays within [0, 1] gives between 0 and `endDay - 1` active days. */
  lemma {:induction false} ActiveDaysBounded(retention: Curve, endDay: int)
    requires endDay >= 1
    requires forall i :: 1 <= i < endDay ==> 0.0 <= retention(i) <= 1.0
    ensures 0.0 <= ActiveDays(retention, endDay) <= (endDay - 1) as real
  {
    if endDay > 1 {
      ActiveDaysBounded(retention, endDay - 1);
    }
  }
}
