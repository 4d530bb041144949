/**
 * The chart's time-series vocabulary: one observation of a download series and
 * the four time granularities a series can be bucketed by.
 *
 * A point carries its magnitude `value` and the four date representations a
 * chart point may have: a day (`YYYY-MM-DD`), the first day of its week
 * (`YYYY-MM-DD`), a year-month (`YYYY-MM`) and a year (`YYYY`). Only the one
 * matching the series' granularity is meaningful; the others are carried along
 * untouched.
 */
module ChartTypes {

  datatype Point = Point(value: real, day: string, weekStart: string, month: string, year: string)

  /** The closed enumeration of chart time granularities. */
  datatype Granularity = Daily | Weekly | Monthly | Yearly

  /** The point with its magnitude erased: everything a filter must not change. */
  function Shape(p: Point): Point {
    p.(value := 0.0)
  }

  /** `r` has the same length as `s` and differs from it at most in `value` fields. */
  predicate SameExceptValues(s: seq<Point>, r: seq<Point>) {
    |s| == |r| && forall i :: 0 <= i < |s| ==> Shape(r[i]) == Shape(s[i])
  }

  /** The magnitudes of a series, in order. */
  function Values(s: seq<Point>): seq<real> {
    seq(|s|, i requires 0 <= i < |s| => s[i].value)
  }

  /** Every magnitude of `s` lies in the closed interval [lo, hi]. */
  predicate ValuesWithin(s: seq<Point>, lo: real, hi: real) {
    forall i :: 0 <= i < |s| ==> lo <= s[i].value <= hi
  }

  lemma SameExceptValuesTransitive(s: seq<Point>, t: seq<Point>, u: seq<Point>)
    requires SameExceptValues(s, t) && SameExceptValues(t, u)
    ensures SameExceptValues(s, u)
  {
  }

  /** Two points of the same shape agree on every date field. */
  lemma SameShapeSameDates(p: Point, q: Point)
    requires Shape(p) == Shape(q)
    ensures p.day == q.day && p.weekStart == q.weekStart && p.month == q.month && p.year == q.year
  {
  }

  /** A point of a weekly series, with only its week's first day set. */
  function WeeklyPoint(weekStart: string, v: real): Point {
    Point(v, "", weekStart, "", "")
  }
}
