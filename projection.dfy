/** The LTV / ROAS projection engine: every figure is a prefix sum of the seeded
    retention series, times ARPDAU, rounded for display. */
module Projection {
  import opened Rounding
  import opened Retention

  /** The one failure the engine can raise: `ROASCalculator` on a plain Python float
      with a CPI of zero (`ZeroDivisionError`). */
  datatype Error = DivisionByZero

  datatype Result<T> = Ok(value: T) | Err(error: Error)

  /** The search horizon of the tables and of the break-even search: days 1 .. 720. */
  const LastDay: nat := 720

  /** The days reported by the standard LTV table, in reporting order. */
  const StandardDays: seq<nat> := [1, 3, 7, 14, 30, 60, 90, 360]

  /** `sum_list = [1]` followed by the curve on each day of `range(1, stop)`. */
  method BuildSumList(retention: Curve, stop: int) returns (sumList: seq<real>)
    ensures |sumList| == if stop < 1 then 1 else stop
    ensures forall j :: 0 <= j < |sumList| ==> sumList[j] == Term(retention, j)
  {
    sumList := [1.0];
    var i := 1;
    while i < stop
      invariant 1 <= i && (i <= stop || i == 1)
      invariant |sumList| == i
      invariant forall j :: 0 <= j < i ==> sumList[j] == Term(retention, j)
    {
      sumList := sumList + [retention(i)];
      i := i + 1;
    }
  }

  /** Revenue per user from `days` expected active days at `arpdau` a day. */
  function Revenue(days: real, arpdau: real): real
  {
    days * arpdau
  }

  /** How many terms of the series `GetLTV` adds for `endDay`: the seed and days
      1 .. endDay-1, so `endDay` terms, but never fewer than the seed alone. */
  function TermsSummed(endDay: int): nat
  {
    if endDay < 1 then 1 else endDay
  }

  /** LTV over `endDay` days: the first `TermsSummed(endDay)` terms of the series, times ARPDAU. */
  method GetLTV(arpdau: real, endDay: int, retention: Curve) returns (ltv: real)
    ensures ltv == Round(Revenue(Cumulative(retention, TermsSummed(endDay)), arpdau), 3)
  {
    var sumList := BuildSumList(retention, endDay);
    SumOfSeries(sumList, retention);
    ltv := Revenue(Sum(sumList), arpdau);
    ltv := Round(ltv, 3);
  }

  /** Expected active days: the curve on days 1 .. endDay-1, without the seed. */
  method GetLifetimeDays(endDay: int, retention: Curve) returns (lifetime: real)
    ensures lifetime == Round(ActiveDays(retention, endDay), 3)
  {
    var sumList: seq<real> := [];
    var i := 1;
    while i < endDay
      invariant 1 <= i && (i <= endDay || i == 1)
      invariant Sum(sumList) == ActiveDays(retention, i)
    {
      SumAppend(sumList, retention(i));
      sumList := sumList + [retention(i)];
      i := i + 1;
    }
    lifetime := Round(Sum(sumList), 3);
  }

  /** The LTV of each standard day `x`: the first `x + 1` terms of the series. */
  method GetStandardDayLTV(arpdau: real, retention: Curve) returns (ltvDict: map<nat, real>)
    ensures ltvDict.Keys == {1, 3, 7, 14, 30, 60, 90, 360}
    ensures forall x :: x in ltvDict ==> ltvDict[x] == Round(Revenue(Cumulative(retention, x + 1), arpdau), 2)
  {
    var dayList := StandardDays;
    var sumList := BuildSumList(retention, LastDay + 1);
    ltvDict := map[];
    for k := 0 to |dayList|
      invariant forall x :: x in ltvDict <==> x in dayList[..k]
      invariant forall x :: x in ltvDict ==> ltvDict[x] == Round(Revenue(Cumulative(retention, x + 1), arpdau), 2)
    {
      var x := dayList[k];
      assert x <= 360;
      var prefix := sumList[0..x + 1];
      SumOfSeries(prefix, retention);
      var ltvEstimate := Revenue(Sum(prefix), arpdau);
      ltvDict := ltvDict[x := Round(ltvEstimate, 2)];
    }
    assert dayList[..|dayList|] == dayList;
  }

  /** The LTV of every day `x` in `range(endDayObj)`; a slice past the 721-entry
      list stops at its end, as Python's slicing does. */
  method GetDetailedDayLTV(arpdau: real, retention: Curve, endDayObj: int) returns (ltvDict: map<nat, real>)
    ensures forall x: nat :: x in ltvDict <==> x < endDayObj
    ensures forall x :: x in ltvDict ==>
      ltvDict[x] == Round(Revenue(Cumulative(retention, if x < LastDay then x + 1 else LastDay + 1), arpdau), 2)
  {
    var sumList := BuildSumList(retention, LastDay + 1);
    ltvDict := map[];
    var x := 0;
    while x < endDayObj
      invariant 0 <= x && (x <= endDayObj || x == 0)
      invariant forall y: nat :: y in ltvDict <==> y < x
      invariant forall y :: y in ltvDict ==>
        ltvDict[y] == Round(Revenue(Cumulative(retention, if y < LastDay then y + 1 else LastDay + 1), arpdau), 2)
    {
      var stop := if x + 1 <= |sumList| then x + 1 else |sumList|;
      var prefix := sumList[0..stop];
      SumOfSeries(prefix, retention);
      var ltvEstimate := Revenue(Sum(prefix), arpdau);
      ltvDict := ltvDict[x := Round(ltvEstimate, 2)];
      x := x + 1;
    }
  }

  /** ROAS in percent, `ltv / cpi * 100` to three decimals; division by a zero CPI fails. */
  function ROASCalculator(ltv: real, cpi: real): (roas: Result<real>)
    ensures roas.Err? <==> cpi == 0.0
    ensures roas.Ok? ==> ltv / cpi * 100.0 - 0.0005 <= roas.value <= ltv / cpi * 100.0 + 0.0005
  {
    if cpi == 0.0 then Err(DivisionByZero)
    else
      assert Scale(3) == 1000.0;
      Ok(Round(ltv / cpi * 100.0, 3))
  }

  /** A numpy `float64` as the break-even loop meets it: dividing by zero gives an
      infinity or NaN instead of raising. */
  datatype Float = Finite(value: real) | PosInf | NegInf | NaN

  /** `ROASCalculator` on the numpy LTV of the break-even loop: IEEE division, so a
      zero CPI gives +inf, -inf or NaN by the sign of the LTV, and `round` keeps them. */
  function NumpyROAS(ltv: real, cpi: real): (roas: Float)
    ensures roas.Finite? <==> cpi != 0.0
    ensures roas.Finite? ==> ROASCalculator(ltv, cpi) == Ok(roas.value)
    ensures roas == PosInf <==> cpi == 0.0 && ltv > 0.0
    ensures roas == NegInf <==> cpi == 0.0 && ltv < 0.0
    ensures roas == NaN <==> cpi == 0.0 && ltv == 0.0
  {
    if cpi != 0.0 then Finite(ROASCalculator(ltv, cpi).value)
    else if ltv > 0.0 then PosInf
    else if ltv < 0.0 then NegInf
    else NaN
  }

  /** IEEE `roas >= goal` for a finite goal: an infinity compares by its sign, NaN never holds. */
  predicate AtLeast(roas: Float, goal: real)
  {
    match roas
    case Finite(v) => v >= goal
    case PosInf => true
    case NegInf => false
    case NaN => false
  }

  /** The unrounded LTV the break-even loop computes on `day`: `day + 1` terms. */
  function DayLtv(retention: Curve, arpdau: real, day: nat): real
  {
    Revenue(Cumulative(retention, day + 1), arpdau)
  }

  /** Whether the rounded ROAS of the `day + 1`-term LTV reaches the goal. */
  predicate GoalMetOn(retention: Curve, roasGoal: real, arpdau: real, cpi: real, day: nat)
  {
    AtLeast(NumpyROAS(DayLtv(retention, arpdau, day), cpi), roasGoal)
  }

  /** With a zero CPI the goal is met exactly on the days with a positive LTV (ROAS +inf),
      whatever the goal: -inf and NaN never compare as at least the goal. */
  lemma ZeroCpiGoalMet(retention: Curve, roasGoal: real, arpdau: real, day: nat)
    ensures GoalMetOn(retention, roasGoal, arpdau, 0.0, day) <==> DayLtv(retention, arpdau, day) > 0.0
  {
  }

  /** The first day in 1 .. 720 whose ROAS reaches the goal, or 0 when none does. */
  method CalculateBreakEvenDay(retention: Curve, roasGoal: real, arpdau: real, cpi: real)
    returns (breakEven: nat)
    ensures breakEven <= LastDay
    ensures breakEven > 0 ==>
      GoalMetOn(retention, roasGoal, arpdau, cpi, breakEven) &&
      forall i :: 1 <= i < breakEven ==> !GoalMetOn(retention, roasGoal, arpdau, cpi, i)
    ensures breakEven == 0 <==> forall i :: 1 <= i <= LastDay ==> !GoalMetOn(retention, roasGoal, arpdau, cpi, i)
    ensures roasGoal <= 0.0 && cpi > 0.0 && arpdau >= 0.0 && retention(1) >= 0.0 ==> breakEven == 1
    ensures cpi == 0.0 && arpdau > 0.0 && retention(1) >= 0.0 ==> breakEven == 1
  {
    var sumList := [1.0];
    breakEven := 0;
    for i := 1 to LastDay + 1
      invariant Sum(sumList) == Cumulative(retention, i)
      invariant breakEven == 0
      invariant forall j :: 1 <= j < i ==> !GoalMetOn(retention, roasGoal, arpdau, cpi, j)
    {
      SumAppend(sumList, retention(i));
      sumList := sumList + [retention(i)];
      var ltv := Revenue(Sum(sumList), arpdau);
      assert ltv == DayLtv(retention, arpdau, i);
      var roas := NumpyROAS(ltv, cpi);
      if AtLeast(roas, roasGoal) {
        assert GoalMetOn(retention, roasGoal, arpdau, cpi, i);
        breakEven := i;
        break;
      } else {
        assert !GoalMetOn(retention, roasGoal, arpdau, cpi, i);
        breakEven := 0;
      }
    }
    if roasGoal <= 0.0 && cpi > 0.0 && arpdau >= 0.0 && retention(1) >= 0.0 {
      ZeroGoalMetOnDayOne(retention, roasGoal, arpdau, cpi);
    }
    if cpi == 0.0 && arpdau > 0.0 && retention(1) >= 0.0 {
      ZeroCpiMetOnDayOne(retention, roasGoal, arpdau);
    }
  }

  /** With a zero CPI every day with a positive LTV has ROAS +inf, so day 1 breaks even
      as soon as ARPDAU is positive and the curve is not negative on day 1. */
  lemma ZeroCpiMetOnDayOne(retention: Curve, roasGoal: real, arpdau: real)
    requires arpdau > 0.0 && retention(1) >= 0.0
    ensures GoalMetOn(retention, roasGoal, arpdau, 0.0, 1)
  {
    assert Cumulative(retention, 2) == 1.0 + retention(1);
    PositiveRevenue(Cumulative(retention, 2), arpdau);
  }

  lemma PositiveRevenue(days: real, arpdau: real)
    requires days > 0.0 && arpdau > 0.0
    ensures Revenue(days, arpdau) > 0.0
  {
  }

  /** With a positive CPI, a larger LTV never gives a smaller ROAS. */
  lemma RoasMonotone(ltv1: real, ltv2: real, cpi: real)
    requires ltv1 <= ltv2 && cpi > 0.0
    ensures ROASCalculator(ltv1, cpi).value <= ROASCalculator(ltv2, cpi).value
  {
    DivideMonotone(ltv1, ltv2, cpi);
    ScaleMonotone(ltv1 / cpi, ltv2 / cpi, 100.0);
    RoundMonotone(ltv1 / cpi * 100.0, ltv2 / cpi * 100.0, 3);
  }

  /** With a non-negative curve and ARPDAU, the cumulative LTV of the break-even
      loop never decreases from one day to a later one. */
  lemma LtvNonDecreasing(retention: Curve, arpdau: real, m: nat, n: nat)
    requires m <= n && arpdau >= 0.0
    requires forall i :: 1 <= i < n ==> retention(i) >= 0.0
    ensures Revenue(Cumulative(retention, m), arpdau) <= Revenue(Cumulative(retention, n), arpdau)
  {
    CumulativeMonotone(retention, m, n);
    RevenueMonotone(Cumulative(retention, m), Cumulative(retention, n), arpdau);
  }

  lemma RevenueMonotone(days1: real, days2: real, arpdau: real)
    requires days1 <= days2 && arpdau >= 0.0
    ensures Revenue(days1, arpdau) <= Revenue(days2, arpdau)
  {
    ScaleMonotone(days1, days2, arpdau);
  }

  /** Once the goal is met it stays met on every later day, so a search for the
      first crossing may rely on a monotone predicate. */
  lemma GoalStaysMet(retention: Curve, roasGoal: real, arpdau: real, cpi: real, d: nat, j: nat)
    requires cpi > 0.0 && arpdau >= 0.0
    requires forall i :: 1 <= i <= j ==> retention(i) >= 0.0
    requires d <= j
    requires GoalMetOn(retention, roasGoal, arpdau, cpi, d)
    ensures GoalMetOn(retention, roasGoal, arpdau, cpi, j)
  {
    LtvNonDecreasing(retention, arpdau, d + 1, j + 1);
    RoasMonotone(Revenue(Cumulative(retention, d + 1), arpdau), Revenue(Cumulative(retention, j + 1), arpdau), cpi);
  }

  /** A goal of at most 0 % is met on day 1 whenever nothing is negative. */
  lemma ZeroGoalMetOnDayOne(retention: Curve, roasGoal: real, arpdau: real, cpi: real)
    requires roasGoal <= 0.0 && cpi > 0.0 && arpdau >= 0.0 && retention(1) >= 0.0
    ensures GoalMetOn(retention, roasGoal, arpdau, cpi, 1)
  {
    var ltv := Revenue(Cumulative(retention, 2), arpdau);
    assert ltv >= 0.0;
    assert ltv / cpi * 100.0 >= 0.0;
    RoundNonNegative(ltv / cpi * 100.0, 3);
  }

  /** Unrounded LTV lies between one day's revenue and `endDay` days of revenue when
      the curve stays within [0, 1]. */
  lemma LtvWithinHorizon(retention: Curve, arpdau: real, endDay: int)
    requires endDay >= 1 && arpdau >= 0.0
    requires forall i :: 1 <= i < endDay ==> 0.0 <= retention(i) <= 1.0
    ensures arpdau <= Revenue(Cumulative(retention, TermsSummed(endDay)), arpdau) <= endDay as real * arpdau
  {
    ActiveDaysBounded(retention, endDay);
    CumulativeIsSeedPlusActiveDays(retention, endDay);
    RevenueMonotone(1.0, Cumulative(retention, endDay), arpdau);
    RevenueMonotone(Cumulative(retention, endDay), endDay as real, arpdau);
  }

  /** Before rounding, LTV is ARPDAU times one (the install day) plus the lifetime
      days over the same horizon; for a horizon of 0 or 1 it is exactly ARPDAU. */
  lemma {:induction false} LtvIsSeedPlusLifetime(retention: Curve, arpdau: real, endDay: int)
    ensures Revenue(Cumulative(retention, TermsSummed(endDay)), arpdau) == Revenue(1.0 + ActiveDays(retention, endDay), arpdau)
    ensures endDay <= 1 ==> Revenue(Cumulative(retention, TermsSummed(endDay)), arpdau) == arpdau
  {
    CumulativeIsSeedPlusActiveDays(retention, TermsSummed(endDay));
  }

  /** Before rounding, entry `x` of a table is ARPDAU times the install day plus the
      active days its slice covers: `range(1, x + 1)` for every standard-table entry and
      for day-by-day entries below 720, `range(1, 721)` for the day-by-day entries past
      the list's end. */
  lemma TableEntryIsLtv(retention: Curve, arpdau: real, x: nat)
    ensures Revenue(Cumulative(retention, x + 1), arpdau) == Revenue(1.0 + ActiveDays(retention, x + 1), arpdau)
    ensures var n := if x < LastDay then x + 1 else LastDay + 1;
      Revenue(Cumulative(retention, n), arpdau) == Revenue(1.0 + ActiveDays(retention, n), arpdau)
  {
    CumulativeIsSeedPlusActiveDays(retention, x + 1);
    CumulativeIsSeedPlusActiveDays(retention, LastDay + 1);
  }
}
