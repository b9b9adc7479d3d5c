# LTV / ROAS projection engine

A Dafny model of the projection core of the LTV Prediction dashboard
(`ltv-prediction-main/streamlit_app.py`). A fitted retention curve is turned into
cumulative figures for a mobile-app cohort:

- lifetime value (LTV) over a horizon (`GetLTV`);
- expected active days (`GetLifetimeDays`);
- a standard-day LTV table (`GetStandardDayLTV`) and a day-by-day table (`GetDetailedDayLTV`);
- ROAS in percent (`ROASCalculator`);
- the first day, in 1 .. 720, on which ROAS reaches a goal (`CalculateBreakEvenDay`).

Every one of these sums a prefix of one series. The series is seeded with `1` for the
install day (day 0). Entry `i >= 1` is the curve on day `i`. The sum is then multiplied
by ARPDAU. The model pins down the off-by-one conventions of the source:

- `GetLTV(endDay)` adds `endDay` terms, but always at least the seed.
- Table entry `x` adds `x + 1` terms.
- Break-even day `i` adds `i + 1` terms.

Files:

- `rounding.dfy` (module `Rounding`): Python's `round(x, n)` on the exact real value.
  It rounds to the nearest multiple of 10^-n, and a tie goes to the even multiple.
- `retention.dfy` (module `Retention`): the seeded series (`Term`), Python's `sum`
  (`Sum`), the prefix sums (`Cumulative`, `ActiveDays`) and their lemmas.
- `projection.dfy` (module `Projection`): the six operations and the lemmas about them.
  The LTV, lifetime, table and break-even operations are methods with the loops the
  source writes (`GetLTV`'s loop is the list-building `BuildSumList`); `ROASCalculator`
  has no loop and is a function.

The fitted curve `a * day^(-b)` is a parameter `retention: int -> real`. `FindNewY(a, b, i)`
is `retention(i)`. The source refits the curve inside every loop iteration, but the fit
is deterministic, so one fixed curve stands for all of those calls. The source's
`x_values, y_values` arguments are replaced by this curve. Python floats are `real`.
`ROASCalculator` called on a plain Python float with a CPI of zero raises
`ZeroDivisionError`; the model returns `Err(DivisionByZero)`. Inside
`CalculateBreakEvenDay` the LTV is a numpy `float64` (the fitted curve's values are numpy
scalars), so a zero CPI does not raise there: the ROAS is +inf, -inf or NaN by the sign of
the LTV (`NumpyROAS`), and `>=` compares it as IEEE does (`AtLeast`). With a zero CPI the
search therefore returns the first day whose LTV is positive, or 0.

The model follows the code where a looser description of the engine might suggest
otherwise:

- The ROAS goal is in percent (120 means 120 %), as `ROASCalculator` multiplies by 100.
- The break-even comparison is made against the ROAS rounded to three decimals.
- "First crossing" means that no day from 1 up to the returned day minus one meets the
  goal. Day 0 (the seed alone) is never checked.
- No horizon range is checked (see "Left out").
- A zero CPI does not stop the break-even search: the numpy ROAS is +inf, -inf or NaN.

## Model

| member | source | states |
|---|---|---|
| `Rounding.RoundHalfEven` | ltv-prediction-main/streamlit_app.py:137 | the result is an integer within 1/2 of the input, and the even one on a tie |
| `Rounding.Round` | ltv-prediction-main/streamlit_app.py:137 | `round(x, n)` lies within half a unit of the n-th decimal of `x` |
| `Rounding.RoundOnGrid` | ltv-prediction-main/streamlit_app.py:137 | `round(x, n)` has `n` decimals: times 10^n it is the integer nearest to `x * 10^n`, the even one on a tie |
| `Rounding.RoundMonotone` | ltv-prediction-main/streamlit_app.py:178 | rounding never reverses the order of two values |
| `Rounding.RoundNonNegative` | ltv-prediction-main/streamlit_app.py:178 | a non-negative value never rounds to a negative one |
| `Retention.ActiveDays` | ltv-prediction-main/streamlit_app.py:171-173 | the curve summed over `range(1, endDay)` is 0 when `endDay <= 1` and non-negative when the curve is |
| `Retention.SumAppend` | ltv-prediction-main/streamlit_app.py:188-189 | appending one term to the list adds it to `sum` |
| `Retention.SumOfSeries` | ltv-prediction-main/streamlit_app.py:131-136 | a list holding `[1, r(1), ..., r(n-1)]` sums to the `n`-term prefix of the seeded series |
| `Retention.CumulativeIsSeedPlusActiveDays` | ltv-prediction-main/streamlit_app.py:145-151 | the `n`-term prefix (`n >= 1`) is 1 plus the curve over days 1 .. n-1 |
| `Retention.CumulativeMonotone` | ltv-prediction-main/streamlit_app.py:184-189 | with a non-negative curve, a longer prefix never sums to less |
| `Retention.ActiveDaysBounded` | ltv-prediction-main/streamlit_app.py:169-175 | a curve within [0, 1] gives between 0 and `endDay - 1` active days |
| `Projection.BuildSumList` | ltv-prediction-main/streamlit_app.py:159-163 | the list built by seeding with 1 and appending the curve on `range(1, stop)` has `max(stop, 1)` entries, entry `j` being term `j` of the seeded series |
| `Projection.GetLTV` | ltv-prediction-main/streamlit_app.py:130-138 | LTV is `round(ARPDAU * sum of the first max(endDay, 1) terms, 3)` |
| `Projection.GetLifetimeDays` | ltv-prediction-main/streamlit_app.py:169-175 | lifetime is `round(curve summed over days 1 .. endDay-1, 3)`, with no seed term |
| `Projection.GetStandardDayLTV` | ltv-prediction-main/streamlit_app.py:140-155 | the keys are exactly {1, 3, 7, 14, 30, 60, 90, 360}; entry `x` is `round(ARPDAU * (x+1)-term prefix, 2)`; every slice lies inside the 721-entry list |
| `Projection.GetDetailedDayLTV` | ltv-prediction-main/streamlit_app.py:157-167 | the keys are exactly `0 .. endDayObj-1`; entry `x` is `round(ARPDAU * (x+1)-term prefix, 2)`, capped at the 721-entry list as Python slicing caps it |
| `Projection.ROASCalculator` | ltv-prediction-main/streamlit_app.py:177-179 | fails exactly when CPI is 0; otherwise within 0.0005 of `ltv / cpi * 100` |
| `Projection.NumpyROAS` | ltv-prediction-main/streamlit_app.py:177-179 | on the loop's numpy LTV: finite exactly when CPI is non-zero, and then equal to `ROASCalculator`'s value; with a zero CPI +inf for a positive LTV, -inf for a negative one, NaN for 0 |
| `Projection.CalculateBreakEvenDay` | ltv-prediction-main/streamlit_app.py:181-200 | returns 0 or a day `D` in 1 .. 720; `D > 0` meets the goal and no earlier day does; 0 exactly when no day in 1 .. 720 meets it; a goal of at most 0 with a positive CPI and nothing negative gives day 1; a zero CPI with a positive ARPDAU and a non-negative day-1 retention gives day 1 |
| `Projection.ZeroCpiGoalMet` | ltv-prediction-main/streamlit_app.py:189-191 | with a zero CPI a day meets any goal exactly when its LTV is positive (ROAS +inf) |
| `Projection.ZeroCpiMetOnDayOne` | ltv-prediction-main/streamlit_app.py:186-196 | with a zero CPI, a positive ARPDAU and a non-negative day-1 retention, day 1 meets the goal |
| `Projection.RoasMonotone` | ltv-prediction-main/streamlit_app.py:177-179 | with a positive CPI, a larger LTV never gives a smaller rounded ROAS |
| `Projection.LtvNonDecreasing` | ltv-prediction-main/streamlit_app.py:184-189 | with a non-negative curve and ARPDAU, the cumulative LTV of the break-even loop never decreases |
| `Projection.GoalStaysMet` | ltv-prediction-main/streamlit_app.py:186-196 | once a day meets the goal, every later day up to 720 meets it too, given a positive CPI and nothing negative |
| `Projection.ZeroGoalMetOnDayOne` | ltv-prediction-main/streamlit_app.py:191 | a ROAS goal of at most 0 % is met on day 1 when CPI is positive and nothing is negative |
| `Projection.LtvWithinHorizon` | ltv-prediction-main/streamlit_app.py:130-136 | with a curve in [0, 1], unrounded LTV lies between ARPDAU and `endDay * ARPDAU` |
| `Projection.LtvIsSeedPlusLifetime` | ltv-prediction-main/streamlit_app.py:169-174 | unrounded LTV is `ARPDAU * (1 + unrounded lifetime days)` for the same end day, and exactly ARPDAU for an end day of 0 or 1 |
| `Projection.TableEntryIsLtv` | ltv-prediction-main/streamlit_app.py:164-166 | unrounded table entry `x` is ARPDAU times 1 plus the active days its slice covers: `range(1, x + 1)` for standard entries and day-by-day entries below 720, `range(1, 721)` past the list's end |

## Left out

- `GetParametersOfCurveFit`: the least-squares fit is a call into scipy's `curve_fit`. The model takes its fitted curve as the parameter `retention`.
- `PowerLawFunction`, `FindNewY`: `a * x ** -b` is floating-point exponentiation. The model treats the curve's values as given reals. So the fitted curve's monotonicity for `a > 0, b > 0` is not stated.
- `Rounding.Round`: its own contract states only the half-unit error bound; that the result has `digits` decimals and that ties go to the even multiple is stated by the lemma `RoundOnGrid`, because stating it on the function itself is too costly for the solver.
- `NumpyROAS`: numpy's `RuntimeWarning` on division by zero is output only and not modelled.
- Floating point: the model computes with exact reals. It does not model binary doubles, the order of rounding in Python's `sum`, or `round` on the binary value. `Round` rounds the exact real value, ties to even.
- `GetStandardDayLTV`: returns a `map`, which has no order. Python's dict keeps the insertion order 1, 3, 7, ..., 360, and the dashboard prints the entries in that order.
- `CalculateBreakEvenDay`: the goal is a `real`. The dashboard passes `int(roas)` (line 54), which is a special case.
- The `print` diagnostics inside `GetStandardDayLTV` and `CalculateBreakEvenDay`, and `PrintCurrentSettings`: they are output only.
- The Streamlit widgets, the benchmark CSV download and filtering, `date.today()`, the top-level calls that wire inputs to the engine, and the matplotlib chart: these are user interface and I/O.
- Horizon checks: the source checks no horizon range, and the model follows the source. `GetLTV` and `GetLifetimeDays` accept any end day, and a negative one behaves like 0. `GetDetailedDayLTV` reads the whole 721-entry list for entries past day 720, as Python's slicing does. The dashboard itself limits the end day to 0 .. 360.
