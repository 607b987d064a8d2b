/** Calendar dates as the engine uses them: a chronological sort key compared
    field by field (year, then month, then day), and calendar-month buckets. */
module Dates {

  /** A proleptic Gregorian date, like a Python `datetime.date`. */
  datatype Date = Date(year: int, month: int, day: int)

  predicate IsLeapYear(y: int) {
    (y % 4 == 0 && y % 100 != 0) || y % 400 == 0
  }

  function DaysInMonth(y: int, m: int): (n: int)
    requires 1 <= m <= 12
    ensures 28 <= n <= 31
    ensures n == 29 <==> m == 2 && IsLeapYear(y)
  {
    if m == 2 then (if IsLeapYear(y) then 29 else 28)
    else if m == 4 || m == 6 || m == 9 || m == 11 then 30
    else 31
  }

  /** Every date the source can hold is a real calendar day. */
  predicate Valid(d: Date) {
    1 <= d.month <= 12 && 1 <= d.day <= DaysInMonth(d.year, d.month)
  }

  /** `a < b` on dates. */
  predicate Before(a: Date, b: Date) {
    a.year < b.year
    || (a.year == b.year && a.month < b.month)
    || (a.year == b.year && a.month == b.month && a.day < b.day)
  }

  /** `a <= b` on dates. */
  predicate OnOrBefore(a: Date, b: Date) {
    Before(a, b) || a == b
  }

  /** `lo <= d <= hi`, both bounds inclusive (Polars `is_between`). */
  predicate Between(d: Date, lo: Date, hi: Date) {
    OnOrBefore(lo, d) && OnOrBefore(d, hi)
  }

  lemma OrderFacts(a: Date, b: Date, c: Date)
    ensures OnOrBefore(a, b) || OnOrBefore(b, a)
    ensures OnOrBefore(a, b) && OnOrBefore(b, a) ==> a == b
    ensures OnOrBefore(a, b) && OnOrBefore(b, c) ==> OnOrBefore(a, c)
    ensures Before(a, b) <==> !OnOrBefore(b, a)
  {
  }

  /** The calendar month holding a date, numbered consecutively across years. */
  function MonthIndex(d: Date): int {
    d.year * 12 + (d.month - 1)
  }

  /** The first day of month number `m` (the label a monthly bucket carries). */
  function FirstOfMonth(m: int): (d: Date)
    ensures Valid(d) && d.day == 1
    ensures MonthIndex(d) == m
  {
    Date(m / 12, m % 12 + 1, 1)
  }

  /** The last day of the month holding `d` (Polars `dt.month_end`). */
  function MonthEnd(d: Date): (e: Date)
    requires Valid(d)
    ensures Valid(e) && e.year == d.year && e.month == d.month
    ensures OnOrBefore(d, e)
    ensures forall k :: 1 <= k <= DaysInMonth(d.year, d.month) ==> OnOrBefore(Date(d.year, d.month, k), e)
  {
    Date(d.year, d.month, DaysInMonth(d.year, d.month))
  }

  /** Later dates never fall in earlier months. */
  lemma MonthIndexMonotone(a: Date, b: Date)
    requires Valid(a) && Valid(b)
    ensures OnOrBefore(a, b) ==> MonthIndex(a) <= MonthIndex(b)
    ensures MonthIndex(a) < MonthIndex(b) ==> Before(a, b)
  {
  }

  /** The first of a month is on or before a date exactly when the month is not later
      than the date's month. */
  lemma FirstOfMonthOnOrBefore(m: int, d: Date)
    requires Valid(d)
    ensures OnOrBefore(FirstOfMonth(m), d) <==> m <= MonthIndex(d)
  {
    var f := FirstOfMonth(m);
    if m <= MonthIndex(d) {
      if m == MonthIndex(d) {
        assert f.year == d.year && f.month == d.month;
      } else {
        assert f.year < d.year || (f.year == d.year && f.month < d.month);
      }
    }
  }

  /** A date is on or before the first of a month exactly when its month is earlier, or
      it is that very day. */
  lemma OnOrBeforeFirstOfMonth(d: Date, m: int)
    requires Valid(d)
    ensures OnOrBefore(d, FirstOfMonth(m)) <==> MonthIndex(d) < m || d == FirstOfMonth(m)
  {
    var f := FirstOfMonth(m);
    if MonthIndex(d) < m {
      assert d.year < f.year || (d.year == f.year && d.month < f.month);
    }
  }
}
