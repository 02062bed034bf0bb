/** The daily trend series (backend/utils.js, `generateTrendData`): one
    record per calendar day from the start date to the end date, both
    included, each with a whole-number value in 50..149 drawn from
    `Math.random()`. Dates are day numbers; an unparsable date string, which
    the source turns into an invalid `Date` whose comparisons are all false,
    is `None`. */
module Trend {
  import opened Wrappers
  import opened Random

  /** A date, as the number of days since an epoch. */
  type Day = int

  datatype TrendPoint = TrendPoint(date: Day, value: int)

  /** `Math.floor(r * 100) + 50`. */
  function TrendValue(r: Draw): (v: int)
    ensures 50 <= v <= 149
  {
    (r * 100.0).Floor + 50
  }

  /** `currentDate <= endDate` on two `Date` objects: false as soon as either
      is invalid. */
  predicate DateLessOrEqual(a: Option<Day>, b: Option<Day>) {
    a.Some? && b.Some? && a.value <= b.value
  }

  /** The number of days from `start` to `end` inclusive; none when either
      is invalid or the end comes first. */
  function DayCount(start: Option<Day>, end: Option<Day>): (n: nat)
    ensures n > 0 <==> DateLessOrEqual(start, end)
  {
    if DateLessOrEqual(start, end) then end.value - start.value + 1 else 0
  }

  /** The series `generateTrendData` returns: record `i` is day `start + i`
      with the value of draw `i`. */
  function TrendData(start: Option<Day>, end: Option<Day>, rand: nat -> Draw): seq<TrendPoint> {
    var n := DayCount(start, end);
    seq(n, i requires 0 <= i < n => TrendPoint(start.value + i, TrendValue(rand(i))))
  }

  /** `generateTrendData(start, end)`, where `rand(k)` is the `k`-th draw of
      `Math.random()` made by the call. */
  method GenerateTrendData(start: Option<Day>, end: Option<Day>, rand: nat -> Draw)
    returns (data: seq<TrendPoint>)
    ensures data == TrendData(start, end, rand)
    ensures |data| == DayCount(start, end)
    ensures forall i :: 0 <= i < |data| ==> data[i].date == start.value + i
    ensures forall i :: 0 <= i < |data| ==> data[i].value == TrendValue(rand(i))
    ensures forall i :: 0 <= i < |data| ==> 50 <= data[i].value <= 149
  {
    data := [];
    var current := start;
    var draws: nat := 0;
    while DateLessOrEqual(current, end)
      invariant current.Some? ==> start.Some? && current.value == start.value + draws
      invariant current.None? ==> start.None?
      invariant draws == |data|
      invariant current.Some? && end.Some? && start.value <= end.value ==> current.value <= end.value + 1
      invariant DateLessOrEqual(start, end) || data == []
      invariant forall i :: 0 <= i < |data| ==> data[i] == TrendPoint(start.value + i, TrendValue(rand(i)))
      decreases if DateLessOrEqual(current, end) then end.value - current.value + 1 else 0
    {
      data := data + [TrendPoint(current.value, TrendValue(rand(draws)))];
      draws := draws + 1;
      current := Some(current.value + 1);
    }
  }
}
