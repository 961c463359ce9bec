/** Values shared by the whole model: optional values, closed ranges, the
    calendar interface, and the real-number helpers that Swift's standard
    library provides (`min`, `max`, `abs`, `Sequence.min()`, `reduce(0, +)`). */
module Basics {

  datatype Option<+T> = None | Some(value: T)

  /** Swift's `ClosedRange<Date>` / `ClosedRange<Double>`: `lower...upper`. */
  datatype Range = Range(lower: real, upper: real)
  {
    predicate Contains(x: real) { lower <= x <= upper }
    predicate WellFormed() { lower <= upper }
  }

  /** The user's baseline corridor, `settings.baselineMin ... settings.baselineMax`. */
  datatype Corridor = Corridor(min: real, max: real)

  /** The calendar units the app adds with `Calendar.date(byAdding:value:to:)`. */
  datatype CalendarUnit = WeekOfYear | Month | Year

  /** `Calendar.current.date(byAdding: unit, value: n, to: date)`; `None` when
      the calendar cannot perform the addition. */
  type Calendar = (CalendarUnit, int, real) -> Option<real>

  /** `Swift.min(a, b)` */
  function Min(a: real, b: real): (r: real)
    ensures r <= a && r <= b && (r == a || r == b)
  {
    if b < a then b else a
  }

  /** `Swift.max(a, b)` */
  function Max(a: real, b: real): (r: real)
    ensures r >= a && r >= b && (r == a || r == b)
  {
    if b >= a then b else a
  }

  function Abs(x: real): (r: real)
    ensures r >= 0.0 && (r == x || r == -x)
  {
    if x < 0.0 then -x else x
  }

  /** `values.min()!` */
  function SeqMin(s: seq<real>): (m: real)
    requires |s| > 0
    ensures m in s
    ensures forall i :: 0 <= i < |s| ==> m <= s[i]
  {
    if |s| == 1 then s[0] else Min(s[0], SeqMin(s[1..]))
  }

  /** `values.max()!` */
  function SeqMax(s: seq<real>): (m: real)
    requires |s| > 0
    ensures m in s
    ensures forall i :: 0 <= i < |s| ==> s[i] <= m
  {
    if |s| == 1 then s[0] else Max(s[0], SeqMax(s[1..]))
  }

  /** `values.reduce(0, +)` */
  function Sum(s: seq<real>): real
  {
    if s == [] then 0.0 else Sum(s[..|s| - 1]) + s[|s| - 1]
  }
}
