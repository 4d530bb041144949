/**
 * The chart's two smoothing filters and their composition.
 *
 * Both filters keep the series' length, its first and last points and every
 * field other than `value`; each interior value is a position-weighted convex
 * blend of two one-sided estimates, the weight moving from the left-anchored
 * estimate at the start to the right-anchored one at the end. Magnitudes are
 * exact reals, so every identity below holds exactly.
 */
module ChartDataCorrection {
  import opened ChartTypes
  import opened RealArith

  function Min(x: real, y: real): real { if x <= y then x else y }
  function Max(x: real, y: real): real { if x <= y then y else x }

  // ---------------------------------------------------------------------------
  // Position-weighted blend shared by both filters
  // ---------------------------------------------------------------------------

  /** The blend weight `i / (n - 1)` of an interior index lies strictly inside (0, 1). */
  function BlendWeight(i: nat, n: nat): (t: real)
    requires 0 < i < n - 1
    ensures 0.0 < t < 1.0
  {
    i as real / (n - 1) as real
  }

  /** `(1 - t) * x + t * y`: for a weight in [0, 1] it lies between `x` and `y`. */
  function Blend(x: real, y: real, t: real): (r: real)
    requires 0.0 <= t <= 1.0
    ensures Min(x, y) <= r <= Max(x, y)
  {
    BlendBetween(x, y, t);
    (1.0 - t) * x + t * y
  }

  lemma BlendBetween(x: real, y: real, t: real)
    requires 0.0 <= t <= 1.0
    ensures Min(x, y) <= (1.0 - t) * x + t * y <= Max(x, y)
  {
    var d := y - x;
    assert (1.0 - t) * x + t * y == x + t * d;
    assert (1.0 - t) * d == d - t * d;
    if x <= y {
      ProductNonNegative(t, d);
      ProductNonNegative(1.0 - t, d);
    } else {
      ProductNonNegative(t, -d);
      ProductNonNegative(1.0 - t, -d);
    }
  }

  // ---------------------------------------------------------------------------
  // Moving average
  // ---------------------------------------------------------------------------

  /** The sum of `value` over the index range [lo, hi). */
  function Sum(s: seq<Point>, lo: nat, hi: nat): real
    requires lo <= hi <= |s|
    decreases hi - lo
  {
    if lo == hi then 0.0 else Sum(s, lo, hi - 1) + s[hi - 1].value
  }

  /** The arithmetic mean of `value` over the non-empty index range [lo, hi). */
  function Mean(s: seq<Point>, lo: nat, hi: nat): real
    requires lo < hi <= |s|
  {
    Sum(s, lo, hi) / (hi - lo) as real
  }

  /** First index of the trailing window of `i`: `max(0, i - h)`. */
  function TrailingLo(i: nat, h: nat): (lo: nat)
    ensures lo <= i && (lo == 0 || lo == i - h)
  {
    if i >= h then i - h else 0
  }

  /** Last index of the leading window of `i`: `min(n - 1, i + h)`. */
  function LeadingHi(i: nat, h: nat, n: nat): (hi: nat)
    requires i < n
    ensures i <= hi < n && (hi == n - 1 || hi == i + h)
  {
    if i + h <= n - 1 then i + h else n - 1
  }

  /** `trailing[i]`: the mean over [max(0, i - h), i], a window of at least one point. */
  function Trailing(s: seq<Point>, h: nat, i: nat): real
    requires i < |s|
  {
    Mean(s, TrailingLo(i, h), i + 1)
  }

  /** `leading[i]`: the mean over [i, min(n - 1, i + h)], a window of at least one point. */
  function Leading(s: seq<Point>, h: nat, i: nat): real
    requires i < |s|
  {
    Mean(s, i, LeadingHi(i, h, |s|) + 1)
  }

  /** The moving average's value at an interior index. */
  function AverageBlend(s: seq<Point>, h: nat, i: nat): real
    requires 0 < i < |s| - 1
  {
    Blend(Trailing(s, h, i), Leading(s, h, i), BlendWeight(i, |s|))
  }

  /** What `movingAverage(s, halfWindow)` returns. */
  function MovingAveraged(s: seq<Point>, halfWindow: int): seq<Point>
  {
    if halfWindow <= 0 || |s| < 3 then s
    else
      var n := |s|;
      seq(n, i requires 0 <= i < n =>
        if i == 0 || i == n - 1 then s[i] else s[i].(value := AverageBlend(s, halfWindow, i)))
  }

  /** The blend loop shared by both filters: overwrites the interior values of a copy of `data`. */
  method BlendInterior(data: seq<Point>, a: seq<real>, b: seq<real>) returns (result: seq<Point>)
    requires |data| >= 3 && |a| == |data| && |b| == |data|
    ensures |result| == |data|
    ensures result[0] == data[0] && result[|data| - 1] == data[|data| - 1]
    ensures forall i :: 0 < i < |data| - 1 ==> result[i] == data[i].(value := Blend(a[i], b[i], BlendWeight(i, |data|)))
  {
    var n := |data|;
    var res := new Point[n](k requires 0 <= k < n => data[k]);
    for i := 1 to n - 1
      invariant res[0] == data[0] && res[n - 1] == data[n - 1]
      invariant forall k :: 1 <= k < i ==> res[k] == data[k].(value := Blend(a[k], b[k], BlendWeight(k, n)))
      invariant forall k :: i <= k < n ==> res[k] == data[k]
    {
      var t := BlendWeight(i, n);
      res[i] := res[i].(value := Blend(a[i], b[i], t));
    }
    result := res[..];
  }

  /** The `trailing` array: for each index, a windowed sum divided by the window's size. */
  method TrailingMeans(data: seq<Point>, h: nat) returns (trailing: seq<real>)
    ensures |trailing| == |data|
    ensures forall k :: 0 <= k < |data| ==> trailing[k] == Trailing(data, h, k)
  {
    var n := |data|;
    var arr := new real[n];
    for i := 0 to n
      invariant forall k :: 0 <= k < i ==> arr[k] == Trailing(data, h, k)
    {
      var lo := if i - h > 0 then i - h else 0;
      var sum := 0.0;
      for j := lo to i + 1
        invariant sum == Sum(data, lo, j)
      {
        sum := sum + data[j].value;
      }
      arr[i] := sum / (i - lo + 1) as real;
    }
    trailing := arr[..];
  }

  /** The `leading` array: for each index, a windowed sum divided by the window's size. */
  method LeadingMeans(data: seq<Point>, h: nat) returns (leading: seq<real>)
    ensures |leading| == |data|
    ensures forall k :: 0 <= k < |data| ==> leading[k] == Leading(data, h, k)
  {
    var n := |data|;
    var arr := new real[n];
    for i := 0 to n
      invariant forall k :: 0 <= k < i ==> arr[k] == Leading(data, h, k)
    {
      var hi := if n - 1 < i + h then n - 1 else i + h;
      var sum := 0.0;
      for j := i to hi + 1
        invariant sum == Sum(data, i, j)
      {
        sum := sum + data[j].value;
      }
      arr[i] := sum / (hi - i + 1) as real;
    }
    leading := arr[..];
  }

  /** Bidirectional moving average: the trailing and leading means, blended by position. */
  method MovingAverage(data: seq<Point>, halfWindow: int) returns (result: seq<Point>)
    ensures result == MovingAveraged(data, halfWindow)
  {
    if halfWindow <= 0 || |data| < 3 {
      return data;
    }
    var trailing := TrailingMeans(data, halfWindow);
    var leading := LeadingMeans(data, halfWindow);
    result := BlendInterior(data, trailing, leading);
    assert forall k :: 0 <= k < |data| ==> result[k] == MovingAveraged(data, halfWindow)[k];
  }

  /** The sum of `n` values that all lie in [lo, hi] lies in [n * lo, n * hi]. */
  lemma {:induction false} SumWithin(s: seq<Point>, a: nat, b: nat, lo: real, hi: real)
    requires a <= b <= |s|
    requires ValuesWithin(s, lo, hi)
    ensures (b - a) as real * lo <= Sum(s, a, b) <= (b - a) as real * hi
    decreases b - a
  {
    if a < b {
      SumWithin(s, a, b - 1, lo, hi);
      assert (b - a) as real * lo == (b - 1 - a) as real * lo + lo;
      assert (b - a) as real * hi == (b - 1 - a) as real * hi + hi;
    }
  }

  lemma MeanWithin(s: seq<Point>, a: nat, b: nat, lo: real, hi: real)
    requires a < b <= |s|
    requires ValuesWithin(s, lo, hi)
    ensures lo <= Mean(s, a, b) <= hi
  {
    SumWithin(s, a, b, lo, hi);
    QuotientWithin(Sum(s, a, b), (b - a) as real, lo, hi);
  }

  lemma WindowsWithin(s: seq<Point>, h: nat, i: nat, lo: real, hi: real)
    requires i < |s|
    requires ValuesWithin(s, lo, hi)
    ensures lo <= Trailing(s, h, i) <= hi && lo <= Leading(s, h, i) <= hi
  {
    MeanWithin(s, TrailingLo(i, h), i + 1, lo, hi);
    MeanWithin(s, i, LeadingHi(i, h, |s|) + 1, lo, hi);
  }

  /**
   * The moving average keeps the length, both endpoints and every non-value
   * field, and it is the identity when disabled or on fewer than three points.
   */
  lemma MovingAveragedShape(s: seq<Point>, h: int)
    ensures SameExceptValues(s, MovingAveraged(s, h))
    ensures |s| > 0 ==> MovingAveraged(s, h)[0] == s[0] && MovingAveraged(s, h)[|s| - 1] == s[|s| - 1]
    ensures h <= 0 || |s| < 3 ==> MovingAveraged(s, h) == s
  {
  }

  /**
   * Each interior value is the blend `(1 - t) * trailing[i] + t * leading[i]`
   * with `t = i / (n - 1)` strictly inside (0, 1), so it lies between the two window means.
   */
  lemma MovingAveragedBlend(s: seq<Point>, h: nat, i: nat)
    requires h > 0 && 0 < i < |s| - 1
    ensures var t := i as real / (|s| - 1) as real;
      && 0.0 < t < 1.0
      && MovingAveraged(s, h)[i].value == Blend(Trailing(s, h, i), Leading(s, h, i), t)
      && Min(Trailing(s, h, i), Leading(s, h, i)) <= MovingAveraged(s, h)[i].value
         <= Max(Trailing(s, h, i), Leading(s, h, i))
  {
  }

  /** Near the endpoints each one-sided mean collapses to the endpoint's own value. */
  lemma WindowsAtEndpoints(s: seq<Point>, h: nat)
    requires |s| > 0
    ensures Trailing(s, h, 0) == s[0].value
    ensures Leading(s, h, |s| - 1) == s[|s| - 1].value
  {
    var n := |s|;
    assert Sum(s, 0, 1) == s[0].value by {
      assert Sum(s, 0, 0) == 0.0;
    }
    assert Sum(s, n - 1, n) == s[n - 1].value by {
      assert Sum(s, n - 1, n - 1) == 0.0;
    }
  }

  /** The moving average never leaves the range of the input's values. */
  lemma MovingAveragedWithin(s: seq<Point>, h: int, lo: real, hi: real)
    requires ValuesWithin(s, lo, hi)
    ensures ValuesWithin(MovingAveraged(s, h), lo, hi)
  {
    if h > 0 && |s| >= 3 {
      var r := MovingAveraged(s, h);
      forall i | 0 <= i < |r|
        ensures lo <= r[i].value <= hi
      {
        if 0 < i < |s| - 1 {
          WindowsWithin(s, h, i, lo, hi);
        }
      }
    }
  }

  // ---------------------------------------------------------------------------
  // Forward-backward exponential smoothing
  // ---------------------------------------------------------------------------

  /** `alpha = 1 / (1 + tau)`, strictly inside (0, 1) for a positive time constant. */
  function Alpha(tau: real): (alpha: real)
    requires tau > 0.0
    ensures 0.0 < alpha < 1.0
  {
    1.0 / (1.0 + tau)
  }

  /** One exponential step: `alpha * v + (1 - alpha) * prev`. */
  function ExpStep(alpha: real, v: real, prev: real): real
  {
    alpha * v + (1.0 - alpha) * prev
  }

  lemma ExpStepBetween(alpha: real, v: real, prev: real)
    requires 0.0 <= alpha <= 1.0
    ensures Min(prev, v) <= ExpStep(alpha, v, prev) <= Max(prev, v)
  {
    BlendBetween(prev, v, alpha);
    assert ExpStep(alpha, v, prev) == (1.0 - alpha) * prev + alpha * v;
  }

  /** `forward[i]`: the causal exponential pass, started at the first value. */
  function Forward(s: seq<Point>, alpha: real, i: nat): real
    requires i < |s|
    decreases i
  {
    if i == 0 then s[0].value
    else ExpStep(alpha, s[i].value, Forward(s, alpha, i - 1))
  }

  /** `backward[i]`: the anti-causal exponential pass, started at the last value. */
  function Backward(s: seq<Point>, alpha: real, i: nat): real
    requires i < |s|
    decreases |s| - i
  {
    if i == |s| - 1 then s[i].value
    else ExpStep(alpha, s[i].value, Backward(s, alpha, i + 1))
  }

  /** The smoothed value at an interior index. */
  function SmoothBlend(s: seq<Point>, alpha: real, i: nat): real
    requires 0 < i < |s| - 1
  {
    Blend(Forward(s, alpha, i), Backward(s, alpha, i), BlendWeight(i, |s|))
  }

  /** What `smoothing(s, tau)` returns. */
  function Smoothed(s: seq<Point>, tau: real): seq<Point>
  {
    if tau <= 0.0 || |s| < 3 then s
    else
      var n := |s|;
      var alpha := Alpha(tau);
      seq(n, i requires 0 <= i < n =>
        if i == 0 || i == n - 1 then s[i] else s[i].(value := SmoothBlend(s, alpha, i)))
  }

  /** The `forward` array: the causal exponential pass. */
  method ForwardPass(data: seq<Point>, alpha: real) returns (forward: seq<real>)
    requires |data| > 0
    ensures |forward| == |data|
    ensures forall k :: 0 <= k < |data| ==> forward[k] == Forward(data, alpha, k)
  {
    var n := |data|;
    var arr := new real[n];
    arr[0] := data[0].value;
    for i := 1 to n
      invariant forall k :: 0 <= k < i ==> arr[k] == Forward(data, alpha, k)
    {
      arr[i] := ExpStep(alpha, data[i].value, arr[i - 1]);
    }
    forward := arr[..];
  }

  /** The `backward` array: the anti-causal exponential pass. */
  method BackwardPass(data: seq<Point>, alpha: real) returns (backward: seq<real>)
    requires |data| > 0
    ensures |backward| == |data|
    ensures forall k :: 0 <= k < |data| ==> backward[k] == Backward(data, alpha, k)
  {
    var n := |data|;
    var arr := new real[n];
    arr[n - 1] := data[n - 1].value;
    for i := n - 1 downto 0
      invariant forall k :: i <= k < n ==> arr[k] == Backward(data, alpha, k)
    {
      arr[i] := ExpStep(alpha, data[i].value, arr[i + 1]);
    }
    backward := arr[..];
  }

  /** Zero-phase exponential smoothing: a forward and a backward pass, blended by position. */
  method Smoothing(data: seq<Point>, tau: real) returns (result: seq<Point>)
    ensures result == Smoothed(data, tau)
  {
    if tau <= 0.0 || |data| < 3 {
      return data;
    }
    var alpha := Alpha(tau);
    var forward := ForwardPass(data, alpha);
    var backward := BackwardPass(data, alpha);
    result := BlendInterior(data, forward, backward);
    assert forall k :: 0 <= k < |data| ==> result[k] == Smoothed(data, tau)[k];
  }

  /** Each exponential pass stays within the range of the values it has consumed. */
  lemma {:induction false} ForwardWithin(s: seq<Point>, alpha: real, i: nat, lo: real, hi: real)
    requires i < |s| && 0.0 < alpha < 1.0
    requires ValuesWithin(s, lo, hi)
    ensures lo <= Forward(s, alpha, i) <= hi
    decreases i
  {
    if i > 0 {
      ForwardWithin(s, alpha, i - 1, lo, hi);
      assert Forward(s, alpha, i) == ExpStep(alpha, s[i].value, Forward(s, alpha, i - 1));
      ExpStepBetween(alpha, s[i].value, Forward(s, alpha, i - 1));
    }
  }

  lemma {:induction false} BackwardWithin(s: seq<Point>, alpha: real, i: nat, lo: real, hi: real)
    requires i < |s| && 0.0 < alpha < 1.0
    requires ValuesWithin(s, lo, hi)
    ensures lo <= Backward(s, alpha, i) <= hi
    decreases |s| - i
  {
    if i < |s| - 1 {
      BackwardWithin(s, alpha, i + 1, lo, hi);
      assert Backward(s, alpha, i) == ExpStep(alpha, s[i].value, Backward(s, alpha, i + 1));
      ExpStepBetween(alpha, s[i].value, Backward(s, alpha, i + 1));
    }
  }

  /**
   * Smoothing keeps the length, both endpoints and every non-value field, and
   * it is the identity when disabled or on fewer than three points.
   */
  lemma SmoothedShape(s: seq<Point>, tau: real)
    ensures SameExceptValues(s, Smoothed(s, tau))
    ensures |s| > 0 ==> Smoothed(s, tau)[0] == s[0] && Smoothed(s, tau)[|s| - 1] == s[|s| - 1]
    ensures tau <= 0.0 || |s| < 3 ==> Smoothed(s, tau) == s
  {
  }

  /** The recurrences of the two passes, with `alpha = 1 / (1 + tau)` strictly inside (0, 1). */
  lemma SmoothingRecurrences(s: seq<Point>, tau: real, i: nat)
    requires tau > 0.0 && i < |s|
    ensures var alpha := 1.0 / (1.0 + tau);
      && 0.0 < alpha < 1.0
      && Forward(s, alpha, 0) == s[0].value
      && (i > 0 ==> Forward(s, alpha, i) == alpha * s[i].value + (1.0 - alpha) * Forward(s, alpha, i - 1))
      && Backward(s, alpha, |s| - 1) == s[|s| - 1].value
      && (i < |s| - 1 ==> Backward(s, alpha, i) == alpha * s[i].value + (1.0 - alpha) * Backward(s, alpha, i + 1))
  {
  }

  /**
   * Each interior value is the blend `(1 - t) * forward[i] + t * backward[i]`
   * with `t = i / (n - 1)` strictly inside (0, 1), so it lies between the two passes.
   */
  lemma SmoothedBlend(s: seq<Point>, tau: real, i: nat)
    requires tau > 0.0 && 0 < i < |s| - 1
    ensures var alpha := Alpha(tau); var t := i as real / (|s| - 1) as real;
      && 0.0 < t < 1.0
      && Smoothed(s, tau)[i].value == Blend(Forward(s, alpha, i), Backward(s, alpha, i), t)
      && Min(Forward(s, alpha, i), Backward(s, alpha, i)) <= Smoothed(s, tau)[i].value
         <= Max(Forward(s, alpha, i), Backward(s, alpha, i))
  {
  }

  /** Smoothing never leaves the range of the input's values. */
  lemma SmoothedWithin(s: seq<Point>, tau: real, lo: real, hi: real)
    requires ValuesWithin(s, lo, hi)
    ensures ValuesWithin(Smoothed(s, tau), lo, hi)
  {
    if tau > 0.0 && |s| >= 3 {
      var r := Smoothed(s, tau);
      var alpha := Alpha(tau);
      forall i | 0 <= i < |r|
        ensures lo <= r[i].value <= hi
      {
        if 0 < i < |s| - 1 {
          ForwardWithin(s, alpha, i, lo, hi);
          BackwardWithin(s, alpha, i, lo, hi);
        }
      }
    }
  }

  // ---------------------------------------------------------------------------
  // The composed correction
  // ---------------------------------------------------------------------------

  /** The chart's filter settings: half-window radius and time constant, 0 disabling either. */
  datatype ChartFilterSettings = ChartFilterSettings(averageWindow: int, smoothingTau: real)

  /** What `applyDataCorrection(s, settings)` returns: the moving average, then smoothing. */
  function DataCorrected(s: seq<Point>, settings: ChartFilterSettings): seq<Point>
  {
    Smoothed(MovingAveraged(s, settings.averageWindow), settings.smoothingTau)
  }

  method ApplyDataCorrection(data: seq<Point>, settings: ChartFilterSettings) returns (result: seq<Point>)
    ensures result == DataCorrected(data, settings)
  {
    result := data;
    result := MovingAverage(result, settings.averageWindow);
    result := Smoothing(result, settings.smoothingTau);
  }

  /**
   * The composed correction keeps the length, both endpoints and every
   * non-value field, stays within the input's range, and with both stages
   * disabled it is the identity.
   */
  lemma DataCorrectedProperties(s: seq<Point>, settings: ChartFilterSettings, lo: real, hi: real)
    ensures SameExceptValues(s, DataCorrected(s, settings))
    ensures |s| > 0 ==>
      DataCorrected(s, settings)[0] == s[0] && DataCorrected(s, settings)[|s| - 1] == s[|s| - 1]
    ensures settings.averageWindow <= 0 && settings.smoothingTau <= 0.0 ==> DataCorrected(s, settings) == s
    ensures ValuesWithin(s, lo, hi) ==> ValuesWithin(DataCorrected(s, settings), lo, hi)
  {
    var m := MovingAveraged(s, settings.averageWindow);
    MovingAveragedShape(s, settings.averageWindow);
    SmoothedShape(m, settings.smoothingTau);
    SameExceptValuesTransitive(s, m, DataCorrected(s, settings));
    if ValuesWithin(s, lo, hi) {
      MovingAveragedWithin(s, settings.averageWindow, lo, hi);
      SmoothedWithin(m, settings.smoothingTau, lo, hi);
    }
  }

  /** A flat series is a fixed point of the composed correction. */
  lemma FlatSeriesUnchanged(s: seq<Point>, settings: ChartFilterSettings, c: real)
    requires ValuesWithin(s, c, c)
    ensures DataCorrected(s, settings) == s
  {
    var r := DataCorrected(s, settings);
    DataCorrectedProperties(s, settings, c, c);
    forall i | 0 <= i < |s|
      ensures r[i] == s[i]
    {
      assert Shape(r[i]) == Shape(s[i]);
      assert r[i].value == s[i].value;
    }
  }

  // ---------------------------------------------------------------------------
  // Worked examples
  // ---------------------------------------------------------------------------

  /** The weekly series with values 0, 10, 20, 30, 100. */
  function ExampleSeries(): (s: seq<Point>)
    ensures Values(s) == [0.0, 10.0, 20.0, 30.0, 100.0]
  {
    [WeeklyPoint("2025-01-06", 0.0), WeeklyPoint("2025-01-13", 10.0), WeeklyPoint("2025-01-20", 20.0),
     WeeklyPoint("2025-01-27", 30.0), WeeklyPoint("2025-02-03", 100.0)]
  }

  /** With half-window 1: trailing means 0, 5, 15, 25, 65 and leading means 5, 15, 25, 65, 100. */
  lemma MovingAverageExample()
    ensures Values(MovingAveraged(ExampleSeries(), 1)) == [0.0, 7.5, 20.0, 55.0, 100.0]
  {
    var s := ExampleSeries();
    assert Sum(s, 1, 3) == 30.0 && Sum(s, 2, 4) == 50.0 && Sum(s, 3, 5) == 130.0;
    assert Trailing(s, 1, 1) == 5.0 && Leading(s, 1, 1) == 15.0;
    assert Trailing(s, 1, 2) == 15.0 && Leading(s, 1, 2) == 25.0;
    assert Trailing(s, 1, 3) == 25.0 && Leading(s, 1, 3) == 65.0;
  }

  /** With tau 1 (alpha 0.5): forward 0, 5, 12.5, 21.25 and backward 26.25, 42.5, 65 inside. */
  lemma SmoothingExample()
    ensures Values(Smoothed(ExampleSeries(), 1.0)) == [0.0, 10.3125, 27.5, 54.0625, 100.0]
  {
    var s := ExampleSeries();
    assert Alpha(1.0) == 0.5;
    assert Forward(s, 0.5, 1) == 5.0;
    assert Forward(s, 0.5, 2) == 12.5;
    assert Forward(s, 0.5, 3) == 21.25;
    assert Backward(s, 0.5, 3) == 65.0;
    assert Backward(s, 0.5, 2) == 42.5;
    assert Backward(s, 0.5, 1) == 26.25;
  }
}
