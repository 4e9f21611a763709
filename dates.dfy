/** Calendar dates and the two period truncations of the dashboards:
    `to_period('M').to_timestamp()` and `to_period('Q').to_timestamp()`. */
module Dates {

  datatype Date = Date(year: int, month: int, day: int)

  /** Gregorian leap-year rule. */
  predicate IsLeapYear(year: int) {
    year % 4 == 0 && (year % 100 != 0 || year % 400 == 0)
  }

  function DaysInMonth(year: int, month: int): (n: int)
    requires 1 <= month <= 12
    ensures 28 <= n <= 31
    ensures month == 2 ==> (n == 29 <==> IsLeapYear(year))
  {
    if month == 2 then (if IsLeapYear(year) then 29 else 28)
    else if month == 4 || month == 6 || month == 9 || month == 11 then 30
    else 31
  }

  predicate IsCalendarDate(d: Date) {
    1 <= d.month <= 12 && 1 <= d.day <= DaysInMonth(d.year, d.month)
  }

  /** A date that exists in the calendar; the date parser only produces these. */
  type CalendarDate = d: Date | IsCalendarDate(d) witness Date(1970, 1, 1)

  /** `a` falls on or before `b`. */
  predicate OnOrBefore(a: Date, b: Date) {
    a.year < b.year || (a.year == b.year && (a.month < b.month || (a.month == b.month && a.day <= b.day)))
  }

  /** The first day of some month. */
  predicate IsMonthStart(d: Date) {
    d.day == 1 && 1 <= d.month <= 12
  }

  /** The first day of some quarter: 1 January, 1 April, 1 July or 1 October. */
  predicate IsQuarterStart(d: Date) {
    d.day == 1 && (d.month == 1 || d.month == 4 || d.month == 7 || d.month == 10)
  }

  /** The granularity chosen with the "View By" radio button. */
  datatype View = Monthly | Quarterly

  /** The first day of the month containing `d`: the latest month start on or before `d`. */
  function MonthStart(d: CalendarDate): (p: CalendarDate)
    ensures IsMonthStart(p) && p.year == d.year && p.month == d.month
    ensures OnOrBefore(p, d)
    ensures forall b :: IsMonthStart(b) && OnOrBefore(b, d) ==> OnOrBefore(b, p)
  {
    Date(d.year, d.month, 1)
  }

  /** The first day of the quarter containing `d`: the latest quarter start on or before `d`. */
  function QuarterStart(d: CalendarDate): (p: CalendarDate)
    ensures IsQuarterStart(p) && p.year == d.year && p.month <= d.month < p.month + 3
    ensures OnOrBefore(p, d)
    ensures forall b :: IsQuarterStart(b) && OnOrBefore(b, d) ==> OnOrBefore(b, p)
  {
    var first := if d.month <= 3 then 1 else if d.month <= 6 then 4 else if d.month <= 9 then 7 else 10;
    Date(d.year, first, 1)
  }

  /** The period key the dashboards attach to a record dated `d`. */
  function PeriodOf(view: View, d: CalendarDate): (p: CalendarDate)
    ensures p.day == 1 && p.year == d.year && OnOrBefore(p, d)
    ensures view == Monthly ==> IsMonthStart(p) && p.month == d.month
    ensures view == Quarterly ==> IsQuarterStart(p) && p.month <= d.month < p.month + 3
  {
    match view
    case Monthly => MonthStart(d)
    case Quarterly => QuarterStart(d)
  }

  /** Truncating an already truncated period changes nothing. */
  lemma PeriodIdempotent(view: View, d: CalendarDate)
    ensures PeriodOf(view, PeriodOf(view, d)) == PeriodOf(view, d)
  {
  }

  /** A quarter bucket is the union of its three month buckets. */
  lemma QuarterOfMonthStart(d: CalendarDate)
    ensures QuarterStart(MonthStart(d)) == QuarterStart(d)
  {
  }
}
