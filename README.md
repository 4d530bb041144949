# Chart data correction and known-anomaly correction

This project models the two post-processing pipelines that a package-download
chart applies to its time series before drawing it, and proves what they
promise.

* **Smoothing filters** (`ChartDataCorrection`, over `ChartTypes`):
  * `movingAverage` blends a trailing windowed mean with a leading windowed
    mean, weighted by the point's position in the series.
  * `smoothing` blends a forward and a backward exponential pass the same way.
  * `applyDataCorrection` runs the first filter and then the second.
  * `movingAverage` and `smoothing` are methods with loops over fresh arrays,
    as in the source; `applyDataCorrection` is a method that reassigns a local
    `result` with the two filters' outputs. Each is proved equal to a
    specification function (`MovingAveraged`, `Smoothed`, `DataCorrected`),
    and lemmas state the properties of those functions:
    * the identity cases;
    * preserved length, endpoints and non-value fields;
    * the interior values as convex blends with weight `i/(n-1)` in (0, 1);
    * the window means and the exponential recurrences;
    * no value leaves the input's range;
    * two worked examples.
* **Known-anomaly corrector** (`DownloadAnomalies`, over `LexOrder`):
  * A table lists date windows per package in which the recorded downloads are
    known to be wrong.
  * The points of a series that fall inside a window of the package are
    replaced by rounded linear interpolation from a start value to an end
    value. Each end is chosen on its own:
    * the start value is the point just before the first affected point, or
      the window's start magnitude rescaled from weekly terms when the first
      affected point opens the series;
    * the end value is the point just after the last affected point, or the
      rescaled end magnitude when the last affected point closes the series.

    So one end can be a neighbour and the other a rescaled bound.
  * Date keys, the window test, the rescaling and the table queries are pure
    functions.
  * `ApplyBlocklistCorrection` is imperative, like the source:
    * it clones the series into an array;
    * it scans for affected indices;
    * it overwrites them in place, one anomaly after another.
  * The method is proved equal to `BlocklistCorrected`. Lemmas state:
    * the input's length and dates are kept;
    * unaffected points keep their values;
    * anomalies are applied in table order, each one seeing its predecessors'
      corrections;
    * the interpolated values follow the stated formula and are monotone
      between the end values;
    * a worked spike example.
* `RealArith` holds small sign facts about products and quotients of reals.
* `LexOrder` models JavaScript's relational operators on strings:
  lexicographic order, under which a proper prefix is smaller than any
  extension. Dafny's own `<` on sequences means "proper prefix", so it cannot
  be used here.

Modelling choices:
* Magnitudes are exact `real`s.
* `Math.round(x)` is `Floor(x + 0.5)`, which rounds halves toward positive
  infinity.
* The anomaly table is a parameter of every operation that reads it.
  `KnownAnomalies` is the table the system ships, with its single `vite`
  entry.

The interpolated values are only *non-strictly* monotone. Rounding can make
neighbours equal: three points between 0 and 1 become 0, 1 and 1. A single
affected point between 0 and 1 takes the end value 1 exactly. The code
promises no strictness, and `InterpMonotone` proves the non-strict order;
`RoundingExample` shows both cases.

## Model

| member | source | states |
|---|---|---|
| ChartDataCorrection.BlendWeight | app/utils/chart-data-correction.ts:34-35 | the position weight `i/(n-1)` of an interior index lies strictly inside (0, 1) |
| ChartDataCorrection.Blend | app/utils/chart-data-correction.ts:36 | `(1-t)*x + t*y` with `t` in [0, 1] lies between min(x, y) and max(x, y) |
| ChartDataCorrection.Trailing | app/utils/chart-data-correction.ts:14-21 | `trailing[i]`: the mean of `value` over [max(0, i-h), i] |
| ChartDataCorrection.Leading | app/utils/chart-data-correction.ts:23-30 | `leading[i]`: the mean of `value` over [i, min(n-1, i+h)] |
| ChartDataCorrection.TrailingMeans | app/utils/chart-data-correction.ts:14-21 | the nested summing loop yields, at each index `i`, the mean over the non-empty window [max(0, i-h), i] |
| ChartDataCorrection.LeadingMeans | app/utils/chart-data-correction.ts:23-30 | the nested summing loop yields, at each index `i`, the mean over the non-empty window [i, min(n-1, i+h)] |
| ChartDataCorrection.MovingAveraged | app/utils/chart-data-correction.ts:9-40 | reference definition of `movingAverage`: the input when `halfWindow <= 0` or fewer than 3 points, else endpoints kept and each interior value the blend of its trailing and leading means; its properties are the lemmas below |
| ChartDataCorrection.BlendInterior | app/utils/chart-data-correction.ts:33-37 | the blend loop on a clone keeps the length and both endpoints, and sets each interior value to the position-weighted blend of the two estimate arrays, other fields untouched |
| ChartDataCorrection.MovingAverage | app/utils/chart-data-correction.ts:9-40 | the imperative moving average computes exactly `MovingAveraged` |
| ChartDataCorrection.MeanWithin | app/utils/chart-data-correction.ts:18-20 | a windowed mean of values in [lo, hi] lies in [lo, hi] |
| ChartDataCorrection.WindowsWithin | app/utils/chart-data-correction.ts:14-30 | both window means of a series with values in [lo, hi] lie in [lo, hi] |
| ChartDataCorrection.MovingAveragedShape | app/utils/chart-data-correction.ts:10-39 | the moving average keeps length, first and last point and all non-value fields, and is the identity for `halfWindow <= 0` or fewer than 3 points |
| ChartDataCorrection.MovingAveragedBlend | app/utils/chart-data-correction.ts:34-37 | each interior value equals `(1-t)*trailing[i] + t*leading[i]` with `t = i/(n-1)` in (0, 1), so it lies between the two means |
| ChartDataCorrection.WindowsAtEndpoints | app/utils/chart-data-correction.ts:14-30 | the trailing mean at index 0 and the leading mean at index n-1 are those points' own values |
| ChartDataCorrection.MovingAveragedWithin | app/utils/chart-data-correction.ts:9-40 | the moving average never leaves the range of the input's values |
| ChartDataCorrection.MovingAverageExample | app/utils/chart-data-correction.ts:9-40 | values 0, 10, 20, 30, 100 with half-window 1 become 0, 7.5, 20, 55, 100 |
| ChartDataCorrection.Alpha | app/utils/chart-data-correction.ts:52 | `alpha = 1/(1+tau)` lies strictly inside (0, 1) for `tau > 0` |
| ChartDataCorrection.ExpStep | app/utils/chart-data-correction.ts:59 | one exponential step `alpha*v + (1-alpha)*prev`, shared by both passes (ts:59, ts:66) |
| ChartDataCorrection.ExpStepBetween | app/utils/chart-data-correction.ts:59 | one exponential step lies between the previous estimate and the new value |
| ChartDataCorrection.Forward | app/utils/chart-data-correction.ts:55-60 | `forward[i]`: `v[0]` at 0, else one exponential step from `forward[i-1]` |
| ChartDataCorrection.Backward | app/utils/chart-data-correction.ts:62-67 | `backward[i]`: `v[n-1]` at n-1, else one exponential step from `backward[i+1]` |
| ChartDataCorrection.ForwardPass | app/utils/chart-data-correction.ts:55-60 | the forward loop fills the array with the causal recurrence started at the first value |
| ChartDataCorrection.BackwardPass | app/utils/chart-data-correction.ts:62-67 | the downward loop fills the array with the anti-causal recurrence started at the last value |
| ChartDataCorrection.Smoothed | app/utils/chart-data-correction.ts:49-78 | reference definition of `smoothing`: the input when `tau <= 0` or fewer than 3 points, else endpoints kept and each interior value the blend of the forward and backward passes with `alpha = 1/(1+tau)` |
| ChartDataCorrection.Smoothing | app/utils/chart-data-correction.ts:49-78 | the imperative smoothing computes exactly `Smoothed` |
| ChartDataCorrection.ForwardWithin | app/utils/chart-data-correction.ts:55-60 | every forward estimate stays within the range of the values |
| ChartDataCorrection.BackwardWithin | app/utils/chart-data-correction.ts:62-67 | every backward estimate stays within the range of the values |
| ChartDataCorrection.SmoothedShape | app/utils/chart-data-correction.ts:50-77 | smoothing keeps length, first and last point and all non-value fields, and is the identity for `tau <= 0` or fewer than 3 points |
| ChartDataCorrection.SmoothingRecurrences | app/utils/chart-data-correction.ts:52-67 | `alpha = 1/(1+tau)` is in (0, 1); `forward[0] = v[0]`, `forward[i] = alpha*v[i] + (1-alpha)*forward[i-1]`, `backward[n-1] = v[n-1]`, `backward[i] = alpha*v[i] + (1-alpha)*backward[i+1]` |
| ChartDataCorrection.SmoothedBlend | app/utils/chart-data-correction.ts:71-75 | each interior value equals `(1-t)*forward[i] + t*backward[i]` with `t = i/(n-1)` in (0, 1), so it lies between the two passes |
| ChartDataCorrection.SmoothedWithin | app/utils/chart-data-correction.ts:49-78 | smoothing never leaves the range of the input's values |
| ChartDataCorrection.SmoothingExample | app/utils/chart-data-correction.ts:49-78 | values 0, 10, 20, 30, 100 with tau 1 become 0, 10.3125, 27.5, 54.0625, 100 |
| ChartDataCorrection.ApplyDataCorrection | app/utils/chart-data-correction.ts:88-96 | the composed correction is smoothing applied to the moving average, with the two settings |
| ChartDataCorrection.DataCorrected | app/utils/chart-data-correction.ts:88-96 | reference definition of `applyDataCorrection`: `smoothing(movingAverage(data, averageWindow), smoothingTau)` |
| ChartDataCorrection.DataCorrectedProperties | app/utils/chart-data-correction.ts:88-96 | the composition keeps length, endpoints and non-value fields, stays inside the input's range, and with both settings at most 0 is the identity |
| ChartDataCorrection.FlatSeriesUnchanged | app/utils/chart-data-correction.ts:88-96 | a constant series is returned unchanged by any settings |
| LexOrder.LexLess | app/utils/download-anomalies.ts:41 | JavaScript `a < b` on strings: character-by-character comparison, a proper prefix below its extensions |
| LexOrder.LexLe | app/utils/download-anomalies.ts:45 | JavaScript `a <= b` on strings, `!(b < a)`; `d >= s` is `LexLe(s, d)` |
| LexOrder.Prefix | app/utils/download-anomalies.ts:43 | `slice(0, k)` is a prefix of the string of length min(k, length) |
| LexOrder.LexLessIrreflexive | app/utils/download-anomalies.ts:41 | no string is less than itself |
| LexOrder.LexLessAsymmetric | app/utils/download-anomalies.ts:41 | two strings are never less than each other both ways |
| LexOrder.LexLessTotal | app/utils/download-anomalies.ts:45 | two distinct strings are ordered one way or the other |
| LexOrder.LexLessTransitive | app/utils/download-anomalies.ts:41 | string order is transitive |
| LexOrder.LexLeIff | app/utils/download-anomalies.ts:45 | `a <= b`, defined as `!(b < a)`, holds exactly when `a < b` or `a == b` |
| LexOrder.CommonPrefixLess | app/utils/download-anomalies.ts:41 | prepending the same prefix keeps two strings' order |
| DownloadAnomalies.WellFormed | app/utils/download-anomalies.ts:4-13 | each bound date has ten characters (the length of `YYYY-MM-DD`, the format the bound type documents), and start is strictly before end, as a window is meant to be; the monthly and yearly coverage lemmas assume it |
| DownloadAnomalies.Round | app/utils/download-anomalies.ts:58 | `Math.round` yields the integer `r` with `r - 0.5 <= x < r + 0.5` |
| DownloadAnomalies.DateKey | app/utils/download-anomalies.ts:15-26 | `getDateString`: the point's `day` (daily), `weekStart` (weekly), `month + "-01"` (monthly) or `year + "-01-01"` (yearly) |
| DownloadAnomalies.MonthStart | app/utils/download-anomalies.ts:43-44 | a bound truncated to its month: `slice(0, 7) + "-01"` |
| DownloadAnomalies.YearStart | app/utils/download-anomalies.ts:48-49 | a bound truncated to its year: `slice(0, 4) + "-01-01"` |
| DownloadAnomalies.IsDateAffected | app/utils/download-anomalies.ts:33-53 | `isDateAffected`: strictly between the bounds for daily and weekly; between the truncated bounds, inclusive, for monthly and yearly |
| DownloadAnomalies.ScaleWeeklyValue | app/utils/download-anomalies.ts:55-66 | `scaleWeeklyValue`: `round(w/7)`, `w`, `round(w/7*30)`, `round(w/7*365)` by granularity; its properties are in `ScaleWeeklyValueNearest` |
| DownloadAnomalies.ScaleWeeklyValueNearest | app/utils/download-anomalies.ts:55-66 | weekly is the identity; every granularity yields the nearest integer (halves up) to `w/7`, `w`, `w/7*30`, `w/7*365`; non-negative for `w >= 0` |
| DownloadAnomalies.BoundDatesNotAffected | app/utils/download-anomalies.ts:38-41 | at daily and weekly granularity a point dated exactly on either bound is not affected |
| DownloadAnomalies.TruncatedOrdered | app/utils/download-anomalies.ts:43-49 | truncating two ordered dates to a common length and appending the same suffix keeps them in (non-strict) order |
| DownloadAnomalies.BoundPeriodsAffected | app/utils/download-anomalies.ts:15-51 | at monthly and yearly granularity, a point whose month (or year) is that of the start or the end date of a well-formed window is affected |
| DownloadAnomalies.TruncatedLe | app/utils/download-anomalies.ts:43-50 | truncating two strings in non-strict order to a common length and appending the same suffix keeps them in non-strict order |
| DownloadAnomalies.OverlappingPeriodsAffected | app/utils/download-anomalies.ts:28-51 | at monthly and yearly granularity, the month (or year) of any full date inside a well-formed window, bounds included, is affected: every period overlapping the window is caught |
| DownloadAnomalies.AnomaliesFor | app/utils/download-anomalies.ts:84 | the package's entries are exactly the table entries with that package name |
| DownloadAnomalies.AnomaliesForPackages | app/utils/download-anomalies.ts:68-76 | the result holds exactly the projections `(packageName, start.date, end.date)` of the table entries whose name is in the list |
| DownloadAnomalies.AnomaliesForKeepsOrder | app/utils/download-anomalies.ts:84 | the package filter keeps table order: on a concatenated table it returns the concatenated answers |
| DownloadAnomalies.AnomaliesForPackagesKeepsOrder | app/utils/download-anomalies.ts:71-75 | the multi-package query keeps table order in the same way |
| DownloadAnomalies.KnownAnomaliesQuery | app/utils/download-anomalies.ts:68-76 | on the shipped table, querying `vite` and `react` yields only the `vite` window, and `react` alone yields nothing |
| DownloadAnomalies.AffectedIndices | app/utils/download-anomalies.ts:92-98 | the affected indices are increasing, in range, and contain an index exactly when its date key lies in the window |
| DownloadAnomalies.Affected | app/utils/download-anomalies.ts:92-98 | `affectedIndices` after the scan: the affected indices of the whole series |
| DownloadAnomalies.FindAffected | app/utils/download-anomalies.ts:92-98 | the push loop computes exactly the affected indices |
| DownloadAnomalies.InterpWeight | app/utils/download-anomalies.ts:114 | the weight `(k+1)/(count+1)` lies strictly inside (0, 1) |
| DownloadAnomalies.InterpValue | app/utils/download-anomalies.ts:114-115 | the k-th of `count` written values: `round(startVal + (k+1)/(count+1)*(endVal-startVal))` |
| DownloadAnomalies.StartVal | app/utils/download-anomalies.ts:106-109 | `startVal`: the value before the first affected index, or the scaled start bound when that index is 0 |
| DownloadAnomalies.EndVal | app/utils/download-anomalies.ts:107-110 | `endVal`: the value after the last affected index, or the scaled end bound when that index is the last |
| DownloadAnomalies.Interpolated | app/utils/download-anomalies.ts:112-116 | after writing the first `k` values the series keeps its length and dates, unlisted indices keep their points, and the j-th listed index holds the j-th rounded interpolated value |
| DownloadAnomalies.Interpolate | app/utils/download-anomalies.ts:112-116 | the in-place write loop leaves the array equal to `Interpolated` of its old contents |
| DownloadAnomalies.CorrectOne | app/utils/download-anomalies.ts:92-116 | reference definition of one anomaly's correction: unchanged when no point is affected, else the affected points interpolated between `startVal` and `endVal` |
| DownloadAnomalies.CorrectOneProperties | app/utils/download-anomalies.ts:100-116 | one anomaly keeps the length and dates and every unaffected point; the k-th affected index gets `round(startVal + (k+1)/(count+1)*(endVal-startVal))`, `startVal`/`endVal` being the outer neighbours or scaled bounds |
| DownloadAnomalies.CorrectInPlace | app/utils/download-anomalies.ts:92-116 | the in-place correction for one anomaly, including the no-affected-points skip and the neighbour-or-scaled-bound choice, leaves the array equal to `CorrectOne` of its old contents |
| DownloadAnomalies.InterpMonotone | app/utils/download-anomalies.ts:112-116 | the interpolated values run monotonically from `round(startVal)` to `round(endVal)`, non-decreasing or non-increasing with the direction |
| DownloadAnomalies.LerpMonotone | app/utils/download-anomalies.ts:115 | `a + t*(b-a)` moves monotonically from `a` to `b` as `t` grows in [0, 1] |
| DownloadAnomalies.InterpWeightMonotone | app/utils/download-anomalies.ts:114 | interpolation weights are non-decreasing in the point's position, and strictly larger for a later point |
| DownloadAnomalies.RoundingExample | app/utils/download-anomalies.ts:112-116 | three values from 0 to 1 round to 0, 1, 1, and a single value between 0 and 1 rounds to the end value 1 |
| DownloadAnomalies.CorrectAllInPlace | app/utils/download-anomalies.ts:90-117 | the loop over the anomalies corrects the array in place one anomaly after another, leaving it equal to `CorrectAll` of its old contents |
| DownloadAnomalies.ApplyBlocklistCorrection | app/utils/download-anomalies.ts:78-120 | returns the series itself when the package has no anomaly, and otherwise the clone corrected by all the package's anomalies in table order; the result is exactly `BlocklistCorrected` |
| DownloadAnomalies.CorrectAll | app/utils/download-anomalies.ts:90-117 | the anomalies applied one after the other in list order, each to the series the earlier ones produced |
| DownloadAnomalies.BlocklistCorrected | app/utils/download-anomalies.ts:83-119 | reference definition of `applyBlocklistCorrection`: the package's table entries, in table order, applied to the series |
| DownloadAnomalies.AffectedByDatesOnly | app/utils/download-anomalies.ts:94 | series that differ only in values give every point the same date key |
| DownloadAnomalies.CorrectAllPreserves | app/utils/download-anomalies.ts:88-117 | applying any anomalies keeps length and dates, and a point that none of them affects keeps its value |
| DownloadAnomalies.CorrectAllSequential | app/utils/download-anomalies.ts:90-117 | the last anomaly is applied to the series as corrected by the earlier ones |
| DownloadAnomalies.BlocklistCorrectedPreserves | app/utils/download-anomalies.ts:83-119 | the result keeps length and dates; a point no anomaly of the package affects keeps its value; a package without table entries gets its series back unchanged |
| DownloadAnomalies.DateOrderExample | app/utils/download-anomalies.ts:41 | 2025-01-01 < 2025-01-08 < 2025-01-15 as strings |
| DownloadAnomalies.MidpointAffected | app/utils/download-anomalies.ts:92-98 | in a three-point series whose outer points sit on the bounds, only the middle point is affected |
| DownloadAnomalies.MidpointBetweenBounds | app/utils/download-anomalies.ts:102-116 | that middle point becomes the rounded midpoint of its neighbours, the outer points unchanged |
| DownloadAnomalies.SingleEntryTable | app/utils/download-anomalies.ts:84-117 | with a one-entry table, that entry's package is corrected by that entry alone |
| DownloadAnomalies.SpikeExample | app/utils/download-anomalies.ts:78-120 | for any three ordered weeks, a weekly window from 100 to 200 corrects a spike of 9999 in the middle week to 150 |
| DownloadAnomalies.SpikeExampleOnDates | app/utils/download-anomalies.ts:78-120 | the same on the weeks 2025-01-01, 2025-01-08 and 2025-01-15 |

## Left out

- IEEE-754 arithmetic is not modelled. Values are exact reals, so the rounding error, NaN, infinities and overflow of JavaScript numbers are absent.
- Reference identity is not modelled. Dafny sequences are values, so `return data` and a fresh clone are indistinguishable, and "unchanged" is sequence equality.
- Object-spread cloning and any extra fields of a point are not modelled. A point is `value` plus the four date fields.
- The chart types module that defines the point and granularity types is not part of this model:
  - a point is a datatype with string date fields, so a numeric `year` is taken as its decimal string;
  - granularity is a closed four-case datatype;
  - missing fields (`undefined`) and their string conversion are not modelled.
- The anomaly data file is not part of this model. The table is a parameter, and `KnownAnomalies` copies its one `vite` entry; that entry's well-formedness is configuration and is not proved.
- String comparison uses Dafny `char` order. JavaScript compares UTF-16 code units, which orders characters outside the Basic Multilingual Plane differently. Dates are ASCII.
- `weeklyDownloads` and `halfWindow` are integers. A fractional `halfWindow`, which JavaScript would accept, is not modelled.
- ChartDataCorrection.MovingAverage, ChartDataCorrection.Smoothing, ChartDataCorrection.ApplyDataCorrection: the filters are generic over any record with a `value` field; the model fixes that record to `Point`.
