/**
 * Correction of known download anomalies.
 *
 * A curated table lists, per package, date windows in which the recorded
 * download counts are known to be wrong (a CI bot spike, a mirror outage). The
 * corrector finds the points of a series that fall inside each window of the
 * package, at the series' granularity, and replaces them by rounded linear
 * interpolation from a start value to an end value. Each end is chosen on its
 * own: the point just outside the affected run on that side, or, where the run
 * reaches that end of the series, the window's own bound magnitude on that side
 * (given in weekly terms and rescaled). One end may thus be a neighbour and the
 * other a rescaled bound.
 *
 * The table is a parameter, so any table can be reasoned about;
 * `KnownAnomalies` is the one the system ships.
 */
module DownloadAnomalies {
  import opened ChartTypes
  import opened LexOrder
  import opened RealArith

  /** One end of an anomaly window: a `YYYY-MM-DD` date and a magnitude in weekly downloads. */
  datatype DownloadAnomalyBound = DownloadAnomalyBound(date: string, weeklyDownloads: int)

  datatype DownloadAnomaly = DownloadAnomaly(packageName: string, start: DownloadAnomalyBound, end: DownloadAnomalyBound)

  /** The projection of an anomaly that the package query returns. */
  datatype AnomalySummary = AnomalySummary(packageName: string, start: string, end: string)

  /** The shipped table: one rogue CI spike of `vite`. */
  const KnownAnomalies: seq<DownloadAnomaly> := [
    DownloadAnomaly("vite", DownloadAnomalyBound("2025-08-04", 33913132), DownloadAnomalyBound("2025-09-08", 38665727))
  ]

  /** Each bound date has ten characters, the length of `YYYY-MM-DD`, and start is strictly before end. */
  predicate WellFormed(a: DownloadAnomaly) {
    |a.start.date| == 10 && |a.end.date| == 10 && LexLess(a.start.date, a.end.date)
  }

  // ---------------------------------------------------------------------------
  // Granularity-specific dates and magnitudes
  // ---------------------------------------------------------------------------

  /** The date a point is compared by at the given granularity. */
  function DateKey(p: Point, g: Granularity): string {
    match g
    case Daily => p.day
    case Weekly => p.weekStart
    case Monthly => p.month + "-01"
    case Yearly => p.year + "-01-01"
  }

  /** The first day of the month of a date: its first 7 characters and `-01`. */
  function MonthStart(date: string): string {
    Prefix(date, 7) + "-01"
  }

  /** The first day of the year of a date: its first 4 characters and `-01-01`. */
  function YearStart(date: string): string {
    Prefix(date, 4) + "-01-01"
  }

  /**
   * Whether a point dated `date` lies in the anomaly's window: strictly between
   * the bounds for days and weeks; for months and years the bounds are first
   * truncated to their period and the test is inclusive.
   */
  predicate IsDateAffected(date: string, anomaly: DownloadAnomaly, g: Granularity) {
    match g
    case Daily => LexLess(anomaly.start.date, date) && LexLess(date, anomaly.end.date)
    case Weekly => LexLess(anomaly.start.date, date) && LexLess(date, anomaly.end.date)
    case Monthly => LexLe(MonthStart(anomaly.start.date), date) && LexLe(date, MonthStart(anomaly.end.date))
    case Yearly => LexLe(YearStart(anomaly.start.date), date) && LexLe(date, YearStart(anomaly.end.date))
  }

  /** `Math.round`: the nearest integer, halves rounded toward positive infinity. */
  function Round(x: real): (r: int)
    ensures r as real - 0.5 <= x < r as real + 0.5
  {
    (x + 0.5).Floor
  }

  /** How many weeks' worth of downloads one period of the granularity holds. */
  function WeeklyFactor(g: Granularity): real {
    match g
    case Daily => 1.0 / 7.0
    case Weekly => 1.0
    case Monthly => 30.0 / 7.0
    case Yearly => 365.0 / 7.0
  }

  /** `scaleWeeklyValue`: a weekly magnitude rescaled to the granularity's period. */
  function ScaleWeeklyValue(weeklyValue: int, g: Granularity): int {
    match g
    case Daily => Round(weeklyValue as real / 7.0)
    case Weekly => weeklyValue
    case Monthly => Round((weeklyValue as real / 7.0) * 30.0)
    case Yearly => Round((weeklyValue as real / 7.0) * 365.0)
  }

  /**
   * The rescaled magnitude is unchanged for weeks and otherwise the nearest
   * integer to `w` times the period's length in weeks (`1/7`, `30/7`, `365/7`);
   * it is never negative for a non-negative weekly magnitude.
   */
  lemma ScaleWeeklyValueNearest(weeklyValue: int, g: Granularity)
    ensures g == Weekly ==> ScaleWeeklyValue(weeklyValue, g) == weeklyValue
    ensures var r := ScaleWeeklyValue(weeklyValue, g);
      r as real - 0.5 <= weeklyValue as real * WeeklyFactor(g) < r as real + 0.5
    ensures weeklyValue >= 0 ==> ScaleWeeklyValue(weeklyValue, g) >= 0
  {
  }

  /** At day and week resolution, a point dated exactly on a bound is never affected. */
  lemma BoundDatesNotAffected(date: string, anomaly: DownloadAnomaly, g: Granularity)
    requires g == Daily || g == Weekly
    requires date == anomaly.start.date || date == anomaly.end.date
    ensures !IsDateAffected(date, anomaly, g)
  {
    LexLessIrreflexive(date);
  }

  /** Truncating two ordered strings to a common length keeps them ordered. */
  lemma {:induction false} TruncatedOrdered(s: string, e: string, k: nat, suffix: string)
    requires LexLess(s, e) && k <= |s| && k <= |e|
    ensures LexLe(s[..k] + suffix, e[..k] + suffix)
    decreases k
  {
    var x, y := s[..k] + suffix, e[..k] + suffix;
    if k == 0 {
      assert x == suffix && y == suffix;
      LexLeReflexive(suffix);
    } else if s[0] == e[0] {
      assert LexLess(s[1..], e[1..]);
      TruncatedOrdered(s[1..], e[1..], k - 1, suffix);
      assert x[1..] == s[1..][..k - 1] + suffix;
      assert y[1..] == e[1..][..k - 1] + suffix;
    } else {
      assert x[0] == s[0] < e[0] == y[0];
    }
  }

  /**
   * At month and year resolution a well-formed window covers the periods that
   * contain its own start and end dates.
   */
  lemma BoundPeriodsAffected(p: Point, anomaly: DownloadAnomaly)
    requires WellFormed(anomaly)
    ensures p.month == anomaly.start.date[..7] || p.month == anomaly.end.date[..7]
      ==> IsDateAffected(DateKey(p, Monthly), anomaly, Monthly)
    ensures p.year == anomaly.start.date[..4] || p.year == anomaly.end.date[..4]
      ==> IsDateAffected(DateKey(p, Yearly), anomaly, Yearly)
  {
    var s, e := anomaly.start.date, anomaly.end.date;
    TruncatedOrdered(s, e, 7, "-01");
    TruncatedOrdered(s, e, 4, "-01-01");
    LexLeReflexive(MonthStart(s));
    LexLeReflexive(MonthStart(e));
    LexLeReflexive(YearStart(s));
    LexLeReflexive(YearStart(e));
  }

  /** Truncation keeps the non-strict order of two strings. */
  lemma TruncatedLe(s: string, d: string, k: nat, suffix: string)
    requires LexLe(s, d) && k <= |s| && k <= |d|
    ensures LexLe(s[..k] + suffix, d[..k] + suffix)
  {
    LexLessTotal(s, d);
    if s == d {
      LexLeReflexive(s[..k] + suffix);
    } else if LexLess(s, d) {
      TruncatedOrdered(s, d, k, suffix);
    } else {
      LexLessAsymmetric(s, d);
    }
  }

  /**
   * At month and year resolution a well-formed window covers every period that
   * holds a date of the window, bounds included: the month (or year) of any
   * full date `d` with `start <= d <= end` is affected.
   */
  lemma OverlappingPeriodsAffected(p: Point, anomaly: DownloadAnomaly, d: string)
    requires WellFormed(anomaly) && |d| == 10
    requires LexLe(anomaly.start.date, d) && LexLe(d, anomaly.end.date)
    ensures p.month == d[..7] ==> IsDateAffected(DateKey(p, Monthly), anomaly, Monthly)
    ensures p.year == d[..4] ==> IsDateAffected(DateKey(p, Yearly), anomaly, Yearly)
  {
    var s, e := anomaly.start.date, anomaly.end.date;
    TruncatedLe(s, d, 7, "-01");
    TruncatedLe(d, e, 7, "-01");
    TruncatedLe(s, d, 4, "-01-01");
    TruncatedLe(d, e, 4, "-01-01");
  }

  // ---------------------------------------------------------------------------
  // Table queries
  // ---------------------------------------------------------------------------

  /** The table entries of one package, in table order. */
  function AnomaliesFor(table: seq<DownloadAnomaly>, packageName: string): (r: seq<DownloadAnomaly>)
    ensures forall a :: a in r <==> a in table && a.packageName == packageName
    ensures |r| <= |table|
  {
    if |table| == 0 then []
    else (if table[0].packageName == packageName then [table[0]] else []) + AnomaliesFor(table[1..], packageName)
  }

  function Summary(a: DownloadAnomaly): AnomalySummary {
    AnomalySummary(a.packageName, a.start.date, a.end.date)
  }

  /** The table entries of any of the given packages, in table order, projected to names and dates. */
  function AnomaliesForPackages(table: seq<DownloadAnomaly>, packageNames: seq<string>): (r: seq<AnomalySummary>)
    ensures forall x :: x in r <==> exists a :: a in table && a.packageName in packageNames && x == Summary(a)
    ensures |r| <= |table|
  {
    if |table| == 0 then []
    else
      var rest := AnomaliesForPackages(table[1..], packageNames);
      assert forall a :: a in table[1..] ==> a in table;
      assert forall a :: a in table ==> a == table[0] || a in table[1..];
      (if table[0].packageName in packageNames then [Summary(table[0])] else []) + rest
  }

  /** The package query keeps table order: querying a concatenated table concatenates the answers. */
  lemma {:induction false} AnomaliesForKeepsOrder(t1: seq<DownloadAnomaly>, t2: seq<DownloadAnomaly>, packageName: string)
    ensures AnomaliesFor(t1 + t2, packageName) == AnomaliesFor(t1, packageName) + AnomaliesFor(t2, packageName)
  {
    if |t1| > 0 {
      assert (t1 + t2)[0] == t1[0] && (t1 + t2)[1..] == t1[1..] + t2;
      AnomaliesForKeepsOrder(t1[1..], t2, packageName);
      var head := if t1[0].packageName == packageName then [t1[0]] else [];
      assert AnomaliesFor(t1 + t2, packageName) == head + AnomaliesFor(t1[1..] + t2, packageName);
      assert AnomaliesFor(t1, packageName) == head + AnomaliesFor(t1[1..], packageName);
    } else {
      assert t1 + t2 == t2;
    }
  }

  /** The multi-package query keeps table order in the same way. */
  lemma {:induction false} AnomaliesForPackagesKeepsOrder(t1: seq<DownloadAnomaly>, t2: seq<DownloadAnomaly>,
                                                          packageNames: seq<string>)
    ensures AnomaliesForPackages(t1 + t2, packageNames)
         == AnomaliesForPackages(t1, packageNames) + AnomaliesForPackages(t2, packageNames)
  {
    if |t1| > 0 {
      assert (t1 + t2)[1..] == t1[1..] + t2;
      AnomaliesForPackagesKeepsOrder(t1[1..], t2, packageNames);
    } else {
      assert t1 + t2 == t2;
    }
  }

  /** The shipped table answers for `vite` only. */
  lemma KnownAnomaliesQuery()
    ensures AnomaliesForPackages(KnownAnomalies, ["vite", "react"]) == [AnomalySummary("vite", "2025-08-04", "2025-09-08")]
    ensures AnomaliesForPackages(KnownAnomalies, ["react"]) == []
  {
    assert KnownAnomalies[1..] == [];
  }

  // ---------------------------------------------------------------------------
  // Correction of one anomaly
  // ---------------------------------------------------------------------------

  predicate Increasing(idx: seq<nat>) {
    forall j, k :: 0 <= j < k < |idx| ==> idx[j] < idx[k]
  }

  /** The indices below `n` of the points that the anomaly affects, in increasing order. */
  function AffectedIndices(s: seq<Point>, anomaly: DownloadAnomaly, g: Granularity, n: nat): (r: seq<nat>)
    requires n <= |s|
    ensures forall j :: 0 <= j < |r| ==> r[j] < n
    ensures Increasing(r)
    ensures forall i :: 0 <= i < n ==> (i in r <==> IsDateAffected(DateKey(s[i], g), anomaly, g))
    decreases n
  {
    if n == 0 then []
    else
      var prev := AffectedIndices(s, anomaly, g, n - 1);
      if IsDateAffected(DateKey(s[n - 1], g), anomaly, g) then prev + [n - 1] else prev
  }

  function Affected(s: seq<Point>, anomaly: DownloadAnomaly, g: Granularity): seq<nat> {
    AffectedIndices(s, anomaly, g, |s|)
  }

  /** `startVal`: the value just before the first affected point, or the scaled start bound. */
  function StartVal(s: seq<Point>, idx: seq<nat>, anomaly: DownloadAnomaly, g: Granularity): real
    requires |idx| > 0 && idx[0] < |s|
  {
    if idx[0] > 0 then s[idx[0] - 1].value else ScaleWeeklyValue(anomaly.start.weeklyDownloads, g) as real
  }

  /** `endVal`: the value just after the last affected point, or the scaled end bound. */
  function EndVal(s: seq<Point>, idx: seq<nat>, anomaly: DownloadAnomaly, g: Granularity): real
    requires |idx| > 0 && idx[|idx| - 1] < |s|
  {
    if idx[|idx| - 1] < |s| - 1 then s[idx[|idx| - 1] + 1].value
    else ScaleWeeklyValue(anomaly.end.weeklyDownloads, g) as real
  }

  /** The interpolation weight `(k + 1) / (count + 1)` of the k-th of `count` points. */
  function InterpWeight(k: nat, count: nat): (t: real)
    requires k < count
    ensures 0.0 < t < 1.0
  {
    (k + 1) as real / (count + 1) as real
  }

  /** The point at weight `t` on the way from `a` to `b`. */
  function Lerp(a: real, b: real, t: real): real {
    a + t * (b - a)
  }

  /** The k-th of `count` interpolated values between `startVal` and `endVal`, rounded. */
  function InterpValue(startVal: real, endVal: real, k: nat, count: nat): int
    requires k < count
  {
    Round(Lerp(startVal, endVal, InterpWeight(k, count)))
  }

  /** The series after the first `k` of the interpolated values have been written. */
  function Interpolated(s: seq<Point>, idx: seq<nat>, startVal: real, endVal: real, k: nat): (r: seq<Point>)
    requires k <= |idx|
    requires forall j :: 0 <= j < |idx| ==> idx[j] < |s|
    ensures SameExceptValues(s, r)
    ensures forall i :: 0 <= i < |s| && i !in idx[..k] ==> r[i] == s[i]
    ensures Increasing(idx) ==>
      forall j :: 0 <= j < k ==> r[idx[j]].value == InterpValue(startVal, endVal, j, |idx|) as real
    decreases k
  {
    if k == 0 then s
    else
      var prev := Interpolated(s, idx, startVal, endVal, k - 1);
      assert forall i :: i in idx[..k - 1] ==> i in idx[..k];
      prev[idx[k - 1] := prev[idx[k - 1]].(value := InterpValue(startVal, endVal, k - 1, |idx|) as real)]
  }

  /** The series after one anomaly's affected points have been interpolated. */
  function CorrectOne(s: seq<Point>, anomaly: DownloadAnomaly, g: Granularity): seq<Point> {
    var idx := Affected(s, anomaly, g);
    if |idx| == 0 then s
    else Interpolated(s, idx, StartVal(s, idx, anomaly, g), EndVal(s, idx, anomaly, g), |idx|)
  }

  /**
   * One anomaly changes only the values of its affected points; the k-th of
   * them becomes the k-th interpolated value between `startVal` and `endVal`.
   */
  lemma CorrectOneProperties(s: seq<Point>, anomaly: DownloadAnomaly, g: Granularity)
    ensures SameExceptValues(s, CorrectOne(s, anomaly, g))
    ensures forall i :: (0 <= i < |s| && !IsDateAffected(DateKey(s[i], g), anomaly, g)
                         ==> CorrectOne(s, anomaly, g)[i] == s[i])
    ensures var idx := Affected(s, anomaly, g);
      forall k :: 0 <= k < |idx| ==>
        CorrectOne(s, anomaly, g)[idx[k]].value
        == InterpValue(StartVal(s, idx, anomaly, g), EndVal(s, idx, anomaly, g), k, |idx|) as real
  {
    var idx := Affected(s, anomaly, g);
    assert idx[..|idx|] == idx;
  }

  /** Rounding to the nearest integer is monotone. */
  lemma RoundMonotone(x: real, y: real)
    requires x <= y
    ensures Round(x) <= Round(y)
  {
  }

  /**
   * The interpolated values run monotonically from `startVal` toward `endVal`:
   * non-decreasing when `startVal <= endVal`, non-increasing otherwise, and
   * never beyond the rounded end values.
   */
  lemma InterpMonotone(startVal: real, endVal: real, j: nat, k: nat, count: nat)
    requires j <= k < count
    ensures startVal <= endVal ==>
      Round(startVal) <= InterpValue(startVal, endVal, j, count) <= InterpValue(startVal, endVal, k, count) <= Round(endVal)
    ensures endVal <= startVal ==>
      Round(endVal) <= InterpValue(startVal, endVal, k, count) <= InterpValue(startVal, endVal, j, count) <= Round(startVal)
  {
    InterpWeightMonotone(j, k, count);
    var xj, xk := Lerp(startVal, endVal, InterpWeight(j, count)), Lerp(startVal, endVal, InterpWeight(k, count));
    LerpMonotone(startVal, endVal, InterpWeight(j, count), InterpWeight(k, count));
    if startVal <= endVal {
      RoundMonotone(startVal, xj);
      RoundMonotone(xj, xk);
      RoundMonotone(xk, endVal);
    } else {
      RoundMonotone(endVal, xk);
      RoundMonotone(xk, xj);
      RoundMonotone(xj, startVal);
    }
  }

  /** Linear interpolation moves monotonically from `a` to `b` as its weight grows in [0, 1]. */
  lemma LerpMonotone(a: real, b: real, t: real, u: real)
    requires 0.0 <= t <= u <= 1.0
    ensures a <= b ==> a <= Lerp(a, b, t) <= Lerp(a, b, u) <= b
    ensures b <= a ==> b <= Lerp(a, b, u) <= Lerp(a, b, t) <= a
  {
    var d := if a <= b then b - a else a - b;
    ScaledBetween(t, u, d);
    if a <= b {
      assert Lerp(a, b, t) == a + t * d && Lerp(a, b, u) == a + u * d;
      assert a + d == b;
    } else {
      assert Lerp(a, b, t) == a - t * d && Lerp(a, b, u) == a - u * d;
      assert a - d == b;
    }
  }

  /**
   * Rounding makes the interpolation only non-strictly monotone: three points
   * from 0 to 1 become 0, 1, 1, and a single point can take the end value.
   */
  lemma RoundingExample()
    ensures InterpValue(0.0, 1.0, 0, 3) == 0 && InterpValue(0.0, 1.0, 1, 3) == 1 && InterpValue(0.0, 1.0, 2, 3) == 1
    ensures InterpValue(0.0, 1.0, 0, 1) == 1
  {
    assert InterpWeight(0, 3) == 0.25 && InterpWeight(1, 3) == 0.5 && InterpWeight(2, 3) == 0.75;
    assert InterpWeight(0, 1) == 0.5;
  }

  lemma InterpWeightMonotone(j: nat, k: nat, count: nat)
    requires j <= k < count
    ensures InterpWeight(j, count) <= InterpWeight(k, count)
    ensures j < k ==> InterpWeight(j, count) < InterpWeight(k, count)
  {
    var c := (count + 1) as real;
    assert InterpWeight(k, count) - InterpWeight(j, count) == (k - j) as real / c;
    QuotientNonNegative((k - j) as real, c);
  }

  lemma ScaledBetween(a: real, b: real, d: real)
    requires 0.0 <= a <= b <= 1.0 && d >= 0.0
    ensures 0.0 <= a * d <= b * d <= d
  {
    ProductNonNegative(a, d);
    ProductNonNegative(b - a, d);
    ProductNonNegative(1.0 - b, d);
    assert (b - a) * d == b * d - a * d;
    assert (1.0 - b) * d == d - b * d;
  }

  // ---------------------------------------------------------------------------
  // The whole correction
  // ---------------------------------------------------------------------------

  /** The anomalies applied one after the other, each seeing the previous ones' corrections. */
  function CorrectAll(anomalies: seq<DownloadAnomaly>, s: seq<Point>, g: Granularity): seq<Point>
    decreases |anomalies|
  {
    if |anomalies| == 0 then s
    else CorrectOne(CorrectAll(anomalies[..|anomalies| - 1], s, g), anomalies[|anomalies| - 1], g)
  }

  /** What `applyBlocklistCorrection` returns for a table, a series, a package and a granularity. */
  function BlocklistCorrected(table: seq<DownloadAnomaly>, data: seq<Point>, packageName: string, g: Granularity): seq<Point> {
    CorrectAll(AnomaliesFor(table, packageName), data, g)
  }

  lemma AffectedIndicesStep(s: seq<Point>, anomaly: DownloadAnomaly, g: Granularity, i: nat)
    requires i < |s|
    ensures AffectedIndices(s, anomaly, g, i + 1)
         == if IsDateAffected(DateKey(s[i], g), anomaly, g) then AffectedIndices(s, anomaly, g, i) + [i]
            else AffectedIndices(s, anomaly, g, i)
  {
  }

  /** The scan for the indices of the points an anomaly affects. */
  method FindAffected(s: seq<Point>, anomaly: DownloadAnomaly, granularity: Granularity) returns (affectedIndices: seq<nat>)
    ensures affectedIndices == Affected(s, anomaly, granularity)
  {
    affectedIndices := [];
    for i := 0 to |s|
      invariant affectedIndices == AffectedIndices(s, anomaly, granularity, i)
    {
      var date := DateKey(s[i], granularity);
      AffectedIndicesStep(s, anomaly, granularity, i);
      if IsDateAffected(date, anomaly, granularity) {
        affectedIndices := affectedIndices + [i];
      }
    }
  }

  /** Overwrites the value of each listed point of `a` with its interpolated value. */
  method Interpolate(a: array<Point>, affectedIndices: seq<nat>, startVal: real, endVal: real)
    requires forall j :: 0 <= j < |affectedIndices| ==> affectedIndices[j] < a.Length
    modifies a
    ensures a[..] == Interpolated(old(a[..]), affectedIndices, startVal, endVal, |affectedIndices|)
  {
    ghost var before := a[..];
    var count := |affectedIndices|;
    for k := 0 to count
      invariant a[..] == Interpolated(before, affectedIndices, startVal, endVal, k)
    {
      ghost var cur := a[..];
      var v := InterpValue(startVal, endVal, k, count) as real;
      a[affectedIndices[k]] := a[affectedIndices[k]].(value := v);
      assert a[..] == cur[affectedIndices[k] := cur[affectedIndices[k]].(value := v)];
    }
  }

  /** Corrects the points of `res` that one anomaly affects. */
  method CorrectInPlace(res: array<Point>, anomaly: DownloadAnomaly, granularity: Granularity)
    modifies res
    ensures res[..] == CorrectOne(old(res[..]), anomaly, granularity)
  {
    var s := res[..];
    var affectedIndices := FindAffected(s, anomaly, granularity);
    if |affectedIndices| == 0 {
      return;
    }
    var firstAffected := affectedIndices[0];
    var lastAffected := affectedIndices[|affectedIndices| - 1];
    var scaledStart := ScaleWeeklyValue(anomaly.start.weeklyDownloads, granularity);
    var scaledEnd := ScaleWeeklyValue(anomaly.end.weeklyDownloads, granularity);
    var startVal := if firstAffected > 0 then res[firstAffected - 1].value else scaledStart as real;
    var endVal := if lastAffected < res.Length - 1 then res[lastAffected + 1].value else scaledEnd as real;
    assert startVal == StartVal(s, affectedIndices, anomaly, granularity);
    assert endVal == EndVal(s, affectedIndices, anomaly, granularity);
    CorrectOneAffected(s, anomaly, granularity);
    Interpolate(res, affectedIndices, startVal, endVal);
  }

  /** With at least one affected point, one anomaly's correction is the interpolation between its two ends. */
  lemma CorrectOneAffected(s: seq<Point>, anomaly: DownloadAnomaly, g: Granularity)
    requires |Affected(s, anomaly, g)| > 0
    ensures var idx := Affected(s, anomaly, g);
      CorrectOne(s, anomaly, g) == Interpolated(s, idx, StartVal(s, idx, anomaly, g), EndVal(s, idx, anomaly, g), |idx|)
  {
  }

  /** Corrects `res` in place for each anomaly in turn, each seeing the earlier ones' writes. */
  method CorrectAllInPlace(res: array<Point>, anomalies: seq<DownloadAnomaly>, granularity: Granularity)
    modifies res
    ensures res[..] == CorrectAll(anomalies, old(res[..]), granularity)
  {
    ghost var s := res[..];
    assert anomalies[..0] == [];
    for ai := 0 to |anomalies|
      invariant res[..] == CorrectAll(anomalies[..ai], s, granularity)
    {
      CorrectInPlace(res, anomalies[ai], granularity);
      assert anomalies[..ai + 1][..ai] == anomalies[..ai];
    }
    assert anomalies[..|anomalies|] == anomalies;
  }

  /**
   * Returns the series itself when the package has no table entry; otherwise
   * clones it and corrects the clone for each of the package's anomalies in
   * table order.
   */
  method ApplyBlocklistCorrection(table: seq<DownloadAnomaly>, data: seq<Point>, packageName: string, granularity: Granularity)
    returns (result: seq<Point>)
    ensures result == BlocklistCorrected(table, data, packageName, granularity)
  {
    var anomalies := AnomaliesFor(table, packageName);
    if |anomalies| == 0 {
      return data;
    }
    var n := |data|;
    var res := new Point[n](k requires 0 <= k < n => data[k]);
    assert res[..] == data;
    CorrectAllInPlace(res, anomalies, granularity);
    result := res[..];
  }

  // ---------------------------------------------------------------------------
  // What the correction never changes
  // ---------------------------------------------------------------------------

  /** Affected points are chosen by date alone. */
  lemma AffectedByDatesOnly(s: seq<Point>, t: seq<Point>, anomaly: DownloadAnomaly, g: Granularity, i: nat)
    requires SameExceptValues(s, t) && i < |s|
    ensures DateKey(s[i], g) == DateKey(t[i], g)
  {
    SameShapeSameDates(s[i], t[i]);
  }

  /**
   * Applying any list of anomalies keeps the length and every date of the
   * series, and a point that none of them affects keeps its value.
   */
  lemma {:induction false} CorrectAllPreserves(anomalies: seq<DownloadAnomaly>, s: seq<Point>, g: Granularity)
    ensures SameExceptValues(s, CorrectAll(anomalies, s, g))
    ensures forall i :: (0 <= i < |s| && (forall a :: a in anomalies ==> !IsDateAffected(DateKey(s[i], g), a, g))
                         ==> CorrectAll(anomalies, s, g)[i] == s[i])
    decreases |anomalies|
  {
    if |anomalies| > 0 {
      var init, last := anomalies[..|anomalies| - 1], anomalies[|anomalies| - 1];
      var mid := CorrectAll(init, s, g);
      CorrectAllPreserves(init, s, g);
      CorrectOneProperties(mid, last, g);
      SameExceptValuesTransitive(s, mid, CorrectAll(anomalies, s, g));
      forall i | 0 <= i < |s| && (forall a :: a in anomalies ==> !IsDateAffected(DateKey(s[i], g), a, g))
        ensures CorrectAll(anomalies, s, g)[i] == s[i]
      {
        assert forall a :: a in init ==> a in anomalies;
        AffectedByDatesOnly(s, mid, last, g, i);
      }
    }
  }

  /** Later anomalies see the values the earlier ones corrected. */
  lemma CorrectAllSequential(anomalies: seq<DownloadAnomaly>, next: DownloadAnomaly, s: seq<Point>, g: Granularity)
    ensures CorrectAll(anomalies + [next], s, g) == CorrectOne(CorrectAll(anomalies, s, g), next, g)
  {
    assert (anomalies + [next])[..|anomalies|] == anomalies;
  }

  /**
   * The corrected series has the input's length and dates; a point that no
   * anomaly of the package affects keeps its value; and a package without
   * table entries gets its series back unchanged.
   */
  lemma BlocklistCorrectedPreserves(table: seq<DownloadAnomaly>, data: seq<Point>, packageName: string, g: Granularity)
    ensures SameExceptValues(data, BlocklistCorrected(table, data, packageName, g))
    ensures forall i :: (0 <= i < |data|
                         && (forall a :: a in table && a.packageName == packageName ==> !IsDateAffected(DateKey(data[i], g), a, g))
                         ==> BlocklistCorrected(table, data, packageName, g)[i] == data[i])
    ensures (forall a :: a in table ==> a.packageName != packageName)
      ==> BlocklistCorrected(table, data, packageName, g) == data
  {
    var ms := AnomaliesFor(table, packageName);
    CorrectAllPreserves(ms, data, g);
  }

  // ---------------------------------------------------------------------------
  // Worked example
  // ---------------------------------------------------------------------------

  lemma DateOrderExample()
    ensures LexLess("2025-01-01", "2025-01-08") && LexLess("2025-01-08", "2025-01-15")
  {
    assert LexLess("1", "8") && LexLess("08", "15");
    CommonPrefixLess("2025-01-0", "1", "8");
    CommonPrefixLess("2025-01-", "08", "15");
    assert "2025-01-0" + "1" == "2025-01-01" && "2025-01-0" + "8" == "2025-01-08";
    assert "2025-01-" + "08" == "2025-01-08" && "2025-01-" + "15" == "2025-01-15";
  }

  lemma MidpointAffected(anomaly: DownloadAnomaly, g: Granularity, p0: Point, p1: Point, p2: Point)
    requires g == Daily || g == Weekly
    requires DateKey(p0, g) == anomaly.start.date && DateKey(p2, g) == anomaly.end.date
    requires LexLess(anomaly.start.date, DateKey(p1, g)) && LexLess(DateKey(p1, g), anomaly.end.date)
    ensures Affected([p0, p1, p2], anomaly, g) == [1]
  {
    var data := [p0, p1, p2];
    BoundDatesNotAffected(DateKey(p0, g), anomaly, g);
    BoundDatesNotAffected(DateKey(p2, g), anomaly, g);
    assert AffectedIndices(data, anomaly, g, 1) == [];
    assert AffectedIndices(data, anomaly, g, 2) == [1];
  }

  /**
   * At day or week resolution, a point strictly inside a window whose two
   * neighbours sit on its bounds becomes the rounded midpoint of their values.
   */
  lemma MidpointBetweenBounds(anomaly: DownloadAnomaly, g: Granularity, p0: Point, p1: Point, p2: Point)
    requires g == Daily || g == Weekly
    requires DateKey(p0, g) == anomaly.start.date && DateKey(p2, g) == anomaly.end.date
    requires LexLess(anomaly.start.date, DateKey(p1, g)) && LexLess(DateKey(p1, g), anomaly.end.date)
    ensures CorrectOne([p0, p1, p2], anomaly, g)
         == [p0, p1.(value := Round(p0.value + 0.5 * (p2.value - p0.value)) as real), p2]
  {
    var data := [p0, p1, p2];
    MidpointAffected(anomaly, g, p0, p1, p2);
    var idx := Affected(data, anomaly, g);
    assert StartVal(data, idx, anomaly, g) == p0.value && EndVal(data, idx, anomaly, g) == p2.value;
    assert InterpWeight(0, 1) == 0.5;
    CorrectOneProperties(data, anomaly, g);
    var r := CorrectOne(data, anomaly, g);
    assert r[0] == p0 && r[2] == p2;
    assert Shape(r[1]) == Shape(p1);
  }

  /** With a one-entry table, the entry's package is corrected for that entry alone. */
  lemma SingleEntryTable(a: DownloadAnomaly, data: seq<Point>, g: Granularity)
    ensures BlocklistCorrected([a], data, a.packageName, g) == CorrectOne(data, a, g)
  {
    assert [a][1..] == [];
    assert AnomaliesFor([a], a.packageName) == [a];
    assert [a][..0] == [];
    assert CorrectAll([a], data, g) == CorrectOne(CorrectAll([a][..0], data, g), a, g);
  }

  /**
   * One weekly anomaly from `d0` (100 weekly downloads) to `d2` (200) and a
   * spike of 9999 in the week `d1` between them: the spike becomes 150, the
   * weeks on the window's bounds keep their values.
   */
  lemma SpikeExample(d0: string, d1: string, d2: string)
    requires LexLess(d0, d1) && LexLess(d1, d2)
    ensures var anomaly := DownloadAnomaly("pkg", DownloadAnomalyBound(d0, 100), DownloadAnomalyBound(d2, 200));
      var data := [WeeklyPoint(d0, 100.0), WeeklyPoint(d1, 9999.0), WeeklyPoint(d2, 200.0)];
      Values(BlocklistCorrected([anomaly], data, "pkg", Weekly)) == [100.0, 150.0, 200.0]
  {
    var anomaly := DownloadAnomaly("pkg", DownloadAnomalyBound(d0, 100), DownloadAnomalyBound(d2, 200));
    var p0, p1, p2 := WeeklyPoint(d0, 100.0), WeeklyPoint(d1, 9999.0), WeeklyPoint(d2, 200.0);
    var r := BlocklistCorrected([anomaly], [p0, p1, p2], "pkg", Weekly);
    assert r == [p0, p1.(value := 150.0), p2] by {
      SingleEntryTable(anomaly, [p0, p1, p2], Weekly);
      MidpointBetweenBounds(anomaly, Weekly, p0, p1, p2);
      assert Round(100.0 + 0.5 * (200.0 - 100.0)) == 150;
    }
  }

  /** The spike example on the calendar weeks 2025-01-01, 2025-01-08 and 2025-01-15. */
  lemma SpikeExampleOnDates()
    ensures var anomaly := DownloadAnomaly("pkg", DownloadAnomalyBound("2025-01-01", 100), DownloadAnomalyBound("2025-01-15", 200));
      var data := [WeeklyPoint("2025-01-01", 100.0), WeeklyPoint("2025-01-08", 9999.0), WeeklyPoint("2025-01-15", 200.0)];
      Values(BlocklistCorrected([anomaly], data, "pkg", Weekly)) == [100.0, 150.0, 200.0]
  {
    DateOrderExample();
    SpikeExample("2025-01-01", "2025-01-08", "2025-01-15");
  }
}
