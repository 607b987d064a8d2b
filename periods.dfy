/** The reporting period: the caption that names it, and the three views of the
    invoice and receipt tables a statement needs (rows before the period, rows up to
    its end, and the rows inside it). */
module Periods {
  import opened Dates
  import opened Tables
  import opened Records

  /** Raising `ValueError` when the period starts after it ends. */
  datatype Result<T> = Ok(value: T) | StartAfterEnd(start: Date, end: Date)

  predicate IsPrefix(p: string, s: string) { |p| <= |s| && s[..|p|] == p }
  predicate IsSuffix(p: string, s: string) { |p| <= |s| && s[|s| - |p|..] == p }

  /** `get_reporting_period_text(date_format, start_date, end_date)`, with the date
      formatter `strftime(date_format)` passed in as `format`. The caption names every
      bound that is given, and is missing only when neither is. */
  function ReportingPeriodText(format: Date -> string, start: Option<Date>, end: Option<Date>): (r: Result<Option<string>>)
    ensures r.StartAfterEnd? <==> start.Some? && end.Some? && Before(end.value, start.value)
    ensures r.Ok? ==> (r.value.None? <==> start.None? && end.None?)
    ensures r.Ok? && start.Some? && end.Some? ==>
      && IsPrefix("Period: " + format(start.value) + " - ", r.value.value)
      && IsSuffix(format(end.value), r.value.value)
      && |r.value.value| == |"Period: " + format(start.value) + " - "| + |format(end.value)|
    ensures r.Ok? && start.Some? && end.None? ==> r.value.value == "Period: Starting " + format(start.value)
    ensures r.Ok? && start.None? && end.Some? ==> r.value.value == "Period: Ending " + format(end.value)
  {
    if start.Some? && end.Some? then
      if Before(end.value, start.value) then StartAfterEnd(start.value, end.value)
      else Ok(Some("Period: " + format(start.value) + " - " + format(end.value)))
    else if start.Some? then Ok(Some("Period: Starting " + format(start.value)))
    else if end.Some? then Ok(Some("Period: Ending " + format(end.value)))
    else Ok(None)
  }

  // ---------------------------------------------------------------------------
  // Slices of one table

  function NotBefore<T>(date: T -> Date, d: Date): T -> bool { (x: T) => OnOrBefore(d, date(x)) }
  function NotAfter<T>(date: T -> Date, d: Date): T -> bool { (x: T) => OnOrBefore(date(x), d) }
  function EarlierThan<T>(date: T -> Date, d: Date): T -> bool { (x: T) => Before(date(x), d) }

  /** A date inside the period: both bounds inclusive, a missing bound imposes nothing. */
  predicate InPeriod(d: Date, start: Option<Date>, end: Option<Date>) {
    (start.None? || OnOrBefore(start.value, d)) && (end.None? || OnOrBefore(d, end.value))
  }

  function InPeriodOf<T>(date: T -> Date, start: Option<Date>, end: Option<Date>): T -> bool {
    (x: T) => InPeriod(date(x), start, end)
  }

  /** The report filters: `sort_date >= start`, then `sort_date <= end`, each only when
      its bound is given. */
  function ReportFilter<T>(rows: seq<T>, date: T -> Date, start: Option<Date>, end: Option<Date>): seq<T> {
    var fromStart := if start.Some? then Filter(rows, NotBefore(date, start.value)) else rows;
    if end.Some? then Filter(fromStart, NotAfter(date, end.value)) else fromStart
  }

  /** The rows before the period (`sort_date < start`); none without a start. */
  function OpenSlice<T>(rows: seq<T>, date: T -> Date, start: Option<Date>): seq<T> {
    if start.Some? then Filter(rows, EarlierThan(date, start.value)) else []
  }

  /** The rows up to the end of the period (`sort_date <= end`); all without an end. */
  function CloseSlice<T>(rows: seq<T>, date: T -> Date, end: Option<Date>): seq<T> {
    if end.Some? then Filter(rows, NotAfter(date, end.value)) else rows
  }

  datatype Slices<T> = Slices(report: seq<T>, open: seq<T>, close: seq<T>)

  /** The three views of one table; the report view is ordered by `number`. */
  function SliceTable<T(!new)>(rows: seq<T>, date: T -> Date, numberLe: (T, T) -> bool,
                               start: Option<Date>, end: Option<Date>): Slices<T>
    requires TotalPreorder(numberLe)
  {
    Slices(SortBy(ReportFilter(rows, date, start, end), numberLe), OpenSlice(rows, date, start), CloseSlice(rows, date, end))
  }

  datatype PeriodFrames = PeriodFrames(invoices: Slices<Invoice>, receipts: Slices<Receipt>)

  /** `slice_period_frames(df_invoices, df_receipts, start_date, end_date)` */
  function SlicePeriodFrames(invoices: seq<Invoice>, receipts: seq<Receipt>,
                             start: Option<Date>, end: Option<Date>): PeriodFrames
  {
    NumberOrdersArePreorders();
    PeriodFrames(SliceTable(invoices, InvoiceDate, InvoiceNumberLe, start, end),
                 SliceTable(receipts, ReceiptDate, ReceiptNumberLe, start, end))
  }

  // ---------------------------------------------------------------------------
  // What the slices hold

  /** The two report filters in a row keep exactly the rows inside the period. */
  lemma ReportFilterIsPeriod<T>(rows: seq<T>, date: T -> Date, start: Option<Date>, end: Option<Date>)
    ensures ReportFilter(rows, date, start, end) == Filter(rows, InPeriodOf(date, start, end))
  {
    var inPeriod := InPeriodOf(date, start, end);
    if start.Some? && end.Some? {
      FilterFilter(rows, NotBefore(date, start.value), NotAfter(date, end.value), inPeriod);
    } else if start.Some? {
      FilterCongruent(rows, NotBefore(date, start.value), inPeriod);
    } else if end.Some? {
      FilterCongruent(rows, NotAfter(date, end.value), inPeriod);
    } else {
      FilterAll(rows, inPeriod);
    }
  }

  /** Each view holds every input row that meets its condition, as often as the input
      does, and nothing else; the report view is in `number` order. */
  lemma SliceContents<T(!new)>(rows: seq<T>, date: T -> Date, numberLe: (T, T) -> bool,
                               start: Option<Date>, end: Option<Date>, x: T)
    requires TotalPreorder(numberLe)
    ensures var s := SliceTable(rows, date, numberLe, start, end);
      && multiset(s.open)[x] == (if start.Some? && Before(date(x), start.value) then multiset(rows)[x] else 0)
      && multiset(s.close)[x] == (if end.None? || OnOrBefore(date(x), end.value) then multiset(rows)[x] else 0)
      && multiset(s.report)[x] == (if InPeriod(date(x), start, end) then multiset(rows)[x] else 0)
      && SortedBy(s.report, numberLe)
  {
    if start.Some? {
      FilterCount(rows, EarlierThan(date, start.value), x);
    }
    if end.Some? {
      FilterCount(rows, NotAfter(date, end.value), x);
    }
    ReportFilterIsPeriod(rows, date, start, end);
    FilterCount(rows, InPeriodOf(date, start, end), x);
  }

  /** Open and close are taken from the whole table, so the report view is always the
      close view less the open view, as collections of rows — also when the start comes
      after the end, where both sides are empty. */
  lemma ReportIsCloseMinusOpen<T(!new)>(rows: seq<T>, date: T -> Date, numberLe: (T, T) -> bool,
                                       start: Option<Date>, end: Option<Date>)
    requires TotalPreorder(numberLe)
    ensures var s := SliceTable(rows, date, numberLe, start, end);
      multiset(s.report) == multiset(s.close) - multiset(s.open)
  {
    var s := SliceTable(rows, date, numberLe, start, end);
    forall x ensures multiset(s.report)[x] == (multiset(s.close) - multiset(s.open))[x] {
      SliceContents(rows, date, numberLe, start, end, x);
      if start.Some? {
        Dates.OrderFacts(date(x), start.value, start.value);
      }
    }
  }

  /** For a well-formed period the report's row count and column sums are the close
      view's less the open view's: the close-minus-open arithmetic of the summaries. */
  lemma PeriodTotals<T(!new)>(rows: seq<T>, date: T -> Date, numberLe: (T, T) -> bool,
                              start: Option<Date>, end: Option<Date>, f: T -> int)
    requires TotalPreorder(numberLe)
    requires !(start.Some? && end.Some? && Before(end.value, start.value))
    ensures var s := SliceTable(rows, date, numberLe, start, end);
      && |s.close| - |s.open| == |s.report|
      && SumBy(s.close, f) - SumBy(s.open, f) == SumBy(s.report, f)
  {
    var close := CloseSlice(rows, date, end);
    var window := Filter(rows, InPeriodOf(date, start, end));
    ReportFilterIsPeriod(rows, date, start, end);
    SortSum(window, numberLe, f);
    if start.Some? {
      var st := start.value;
      var early := EarlierThan(date, st);
      var late := NotBefore(date, st);
      forall x | x in close ensures late(x) <==> !early(x) {
        Dates.OrderFacts(date(x), st, st);
      }
      FilterSplit(close, early, late, f);
      if end.Some? {
        var atEnd := NotAfter(date, end.value);
        forall x | x in rows ensures early(x) <==> atEnd(x) && early(x) {
          Dates.OrderFacts(date(x), st, end.value);
        }
        FilterFilter(rows, atEnd, early, early);
        FilterFilter(rows, atEnd, late, InPeriodOf(date, start, end));
      } else {
        FilterCongruent(rows, late, InPeriodOf(date, start, end));
      }
    } else {
      if end.Some? {
        FilterCongruent(rows, NotAfter(date, end.value), InPeriodOf(date, start, end));
      } else {
        FilterAll(rows, InPeriodOf(date, start, end));
      }
    }
  }

  /** Selecting rows (one client's, say) commutes with slicing, so the selected rows'
      close-minus-open count and sum are those of the selected rows inside the period. */
  lemma SelectedPeriodTotals<T(!new)>(rows: seq<T>, date: T -> Date, numberLe: (T, T) -> bool,
                                      start: Option<Date>, end: Option<Date>, p: T -> bool, f: T -> int)
    requires TotalPreorder(numberLe)
    requires !(start.Some? && end.Some? && Before(end.value, start.value))
    ensures var s := SliceTable(rows, date, numberLe, start, end);
      var selected := Filter(Filter(rows, InPeriodOf(date, start, end)), p);
      && |Filter(s.close, p)| - |Filter(s.open, p)| == |selected|
      && SumBy(Filter(s.close, p), f) - SumBy(Filter(s.open, p), f) == SumBy(selected, f)
  {
    var sel := Filter(rows, p);
    PeriodTotals(sel, date, numberLe, start, end, f);
    if start.Some? {
      var early := EarlierThan(date, start.value);
      FilterFilter(rows, early, p, (x: T) => early(x) && p(x));
      FilterFilter(rows, p, early, (x: T) => early(x) && p(x));
    }
    if end.Some? {
      var atEnd := NotAfter(date, end.value);
      FilterFilter(rows, atEnd, p, (x: T) => atEnd(x) && p(x));
      FilterFilter(rows, p, atEnd, (x: T) => atEnd(x) && p(x));
    }
    var inPeriod := InPeriodOf(date, start, end);
    ReportFilterIsPeriod(sel, date, start, end);
    SortSum(Filter(sel, inPeriod), numberLe, f);
    FilterFilter(rows, p, inPeriod, (x: T) => inPeriod(x) && p(x));
    FilterFilter(rows, inPeriod, p, (x: T) => inPeriod(x) && p(x));
  }
}
