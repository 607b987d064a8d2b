/** The legacy key figures (`driver.get_key_figures`): six close-minus-open figures of
    four slices. The driver calls it once per client, on slices filtered to that client;
    the figures are also related to the column sums of the client summaries. */
module KeyFigures {
  import opened Dates
  import opened Tables
  import opened Records
  import opened Periods
  import opened Summaries

  /** `get_key_figures(decimals, invoices_open, receipts_open, invoices_close, receipts_close)`:
      row counts and column sums of the close slices less those of the open slices, and
      the opening and closing balances invoiced less received. */
  function GetKeyFigures(invOpen: seq<Invoice>, recOpen: seq<Receipt>,
                         invClose: seq<Invoice>, recClose: seq<Receipt>): Totals
  {
    Totals(
      |invClose| - |invOpen|,
      |recClose| - |recOpen|,
      SumBy(invClose, InvoiceTotal) - SumBy(invOpen, InvoiceTotal),
      SumBy(recClose, ReceiptAmount) - SumBy(recOpen, ReceiptAmount),
      SumBy(invOpen, InvoiceTotal) - SumBy(recOpen, ReceiptAmount),
      SumBy(invClose, InvoiceTotal) - SumBy(recClose, ReceiptAmount))
  }

  /** On the slices of a well-formed period the counts and totals are those of the rows
      dated inside the period, the opening balance is what was owed before the start and
      the closing balance what is owed at the end: closing = opening + invoiced - received. */
  lemma FiguresInPeriod(invoices: seq<Invoice>, receipts: seq<Receipt>, start: Option<Date>, end: Option<Date>)
    requires !(start.Some? && end.Some? && Before(end.value, start.value))
    ensures var f := SlicePeriodFrames(invoices, receipts, start, end);
      var t := GetKeyFigures(f.invoices.open, f.receipts.open, f.invoices.close, f.receipts.close);
      && t.invoiceCount == |f.invoices.report|
      && t.receiptCount == |f.receipts.report|
      && t.invoiceTotal == SumBy(f.invoices.report, InvoiceTotal)
      && t.receiptTotal == SumBy(f.receipts.report, ReceiptAmount)
      && t.openingBalance == SumBy(OpenSlice(invoices, InvoiceDate, start), InvoiceTotal)
                             - SumBy(OpenSlice(receipts, ReceiptDate, start), ReceiptAmount)
      && t.closingBalance == SumBy(CloseSlice(invoices, InvoiceDate, end), InvoiceTotal)
                             - SumBy(CloseSlice(receipts, ReceiptDate, end), ReceiptAmount)
      && t.closingBalance == t.openingBalance + t.invoiceTotal - t.receiptTotal
  {
    NumberOrdersArePreorders();
    var f := SlicePeriodFrames(invoices, receipts, start, end);
    PeriodTotals(invoices, InvoiceDate, InvoiceNumberLe, start, end, InvoiceTotal);
    PeriodTotals(receipts, ReceiptDate, ReceiptNumberLe, start, end, ReceiptAmount);
    FiguresOfSlices(f.invoices, f.receipts);
  }

  /** Proof helper for `FiguresInPeriod`: the figures of a pair of slices whose report
      views are their close views less their open views. */
  lemma FiguresOfSlices(inv: Slices<Invoice>, rec: Slices<Receipt>)
    requires |inv.close| - |inv.open| == |inv.report|
    requires SumBy(inv.close, InvoiceTotal) - SumBy(inv.open, InvoiceTotal) == SumBy(inv.report, InvoiceTotal)
    requires |rec.close| - |rec.open| == |rec.report|
    requires SumBy(rec.close, ReceiptAmount) - SumBy(rec.open, ReceiptAmount) == SumBy(rec.report, ReceiptAmount)
    ensures var t := GetKeyFigures(inv.open, rec.open, inv.close, rec.close);
      && t.invoiceCount == |inv.report|
      && t.receiptCount == |rec.report|
      && t.invoiceTotal == SumBy(inv.report, InvoiceTotal)
      && t.receiptTotal == SumBy(rec.report, ReceiptAmount)
      && t.openingBalance == SumBy(inv.open, InvoiceTotal) - SumBy(rec.open, ReceiptAmount)
      && t.closingBalance == SumBy(inv.close, InvoiceTotal) - SumBy(rec.close, ReceiptAmount)
      && t.closingBalance == t.openingBalance + t.invoiceTotal - t.receiptTotal
  {
  }

  /** The driver's per-client call: on the four slices filtered to one client, the legacy
      figures are that client's summary row (counts, totals and both balances), whatever
      else the registry holds. */
  lemma ClientFiguresAreSummary(info: ClientInfo, invOpen: seq<Invoice>, recOpen: seq<Receipt>,
                                invClose: seq<Invoice>, recClose: seq<Receipt>)
    ensures var c := info.client;
      var r := SummaryOf(info, invOpen, invClose, recOpen, recClose);
      GetKeyFigures(Filter(invOpen, IsInvoiceOf(c)), Filter(recOpen, IsReceiptOf(c)),
                    Filter(invClose, IsInvoiceOf(c)), Filter(recClose, IsReceiptOf(c)))
      == Totals(r.invoiceCount, r.receiptCount, r.invoiceTotal, r.receiptTotal, r.openingBalance, r.closingBalance)
  {
    var c := info.client;
    SummaryFigures(info, invOpen, invClose, recOpen, recClose);
    FiguresOfRow(SummaryOf(info, invOpen, invClose, recOpen, recClose),
                 Filter(invOpen, IsInvoiceOf(c)), Filter(recOpen, IsReceiptOf(c)),
                 Filter(invClose, IsInvoiceOf(c)), Filter(recClose, IsReceiptOf(c)));
  }

  /** Proof helper for `ClientFiguresAreSummary`: a row whose columns are the
      close-minus-open figures of four slices carries their key figures. */
  lemma FiguresOfRow(r: ClientSummary, invOpen: seq<Invoice>, recOpen: seq<Receipt>,
                     invClose: seq<Invoice>, recClose: seq<Receipt>)
    requires r.invoiceCount == |invClose| - |invOpen|
    requires r.receiptCount == |recClose| - |recOpen|
    requires r.invoiceTotal == SumBy(invClose, InvoiceTotal) - SumBy(invOpen, InvoiceTotal)
    requires r.receiptTotal == SumBy(recClose, ReceiptAmount) - SumBy(recOpen, ReceiptAmount)
    requires r.openingBalance == SumBy(invOpen, InvoiceTotal) - SumBy(recOpen, ReceiptAmount)
    requires r.closingBalance == SumBy(invClose, InvoiceTotal) - SumBy(recClose, ReceiptAmount)
    ensures GetKeyFigures(invOpen, recOpen, invClose, recClose)
         == Totals(r.invoiceCount, r.receiptCount, r.invoiceTotal, r.receiptTotal, r.openingBalance, r.closingBalance)
  {
  }

  /** Adding up group sums over a registry that lists every client of a table once is
      summing the whole table. */
  lemma RegistryCovers<T>(names: seq<string>, rows: seq<T>, key: T -> string, f: T -> int)
    requires Unique(names)
    requires forall k :: 0 <= k < |rows| ==> key(rows[k]) in names
    ensures KeysSum(names, rows, key, f) == SumBy(rows, f)
  {
    Regroup(names, rows, key, f);
    FilterAll(rows, KeyIn(key, names));
  }

  /** Every client of a table is listed in the registry. */
  ghost predicate Registered<T>(names: seq<string>, rows: seq<T>, key: T -> string) {
    forall k :: 0 <= k < |rows| ==> key(rows[k]) in names
  }

  /** The registry lists each client once, and every client of the four slices. */
  ghost predicate RegistryComplete(clients: seq<ClientInfo>, invOpen: seq<Invoice>, recOpen: seq<Receipt>,
                                   invClose: seq<Invoice>, recClose: seq<Receipt>)
  {
    var names := KeyColumn(clients, ClientName);
    && Unique(names)
    && Registered(names, invOpen, InvoiceClient)
    && Registered(names, invClose, InvoiceClient)
    && Registered(names, recOpen, ReceiptClient)
    && Registered(names, recClose, ReceiptClient)
  }

  /** Sorting the summaries does not change their column sums. */
  lemma SortKeepsColumnSums(clients: seq<ClientInfo>, invOpen: seq<Invoice>, recOpen: seq<Receipt>,
                            invClose: seq<Invoice>, recClose: seq<Receipt>)
    ensures ColumnSums(BuildClientSummaries(clients, invOpen, invClose, recOpen, recClose))
         == ColumnSums(SummaryRows(clients, invOpen, invClose, recOpen, recClose))
  {
    var rows := SummaryRows(clients, invOpen, invClose, recOpen, recClose);
    SummaryOrderIsPreorder();
    SortSum(rows, SummaryDescending, InvoiceCountOf);
    SortSum(rows, SummaryDescending, ReceiptCountOf);
    SortSum(rows, SummaryDescending, Invoiced);
    SortSum(rows, SummaryDescending, Received);
    SortSum(rows, SummaryDescending, Opening);
    SortSum(rows, SummaryDescending, Closing);
  }

  lemma CountsMatch(clients: seq<ClientInfo>, invOpen: seq<Invoice>, recOpen: seq<Receipt>,
                    invClose: seq<Invoice>, recClose: seq<Receipt>)
    requires RegistryComplete(clients, invOpen, recOpen, invClose, recClose)
    ensures var rows := SummaryRows(clients, invOpen, invClose, recOpen, recClose);
      && SumBy(rows, InvoiceCountOf) == |invClose| - |invOpen|
      && SumBy(rows, ReceiptCountOf) == |recClose| - |recOpen|
  {
    var names := KeyColumn(clients, ClientName);
    SummaryCountSums(clients, invOpen, invClose, recOpen, recClose);
    RegistryCovers(names, invOpen, InvoiceClient, Unit);
    RegistryCovers(names, invClose, InvoiceClient, Unit);
    RegistryCovers(names, recOpen, ReceiptClient, Unit);
    RegistryCovers(names, recClose, ReceiptClient, Unit);
    CountIsSum(invOpen);
    CountIsSum(invClose);
    CountIsSum(recOpen);
    CountIsSum(recClose);
  }

  lemma MoneyMatches(clients: seq<ClientInfo>, invOpen: seq<Invoice>, recOpen: seq<Receipt>,
                     invClose: seq<Invoice>, recClose: seq<Receipt>)
    requires RegistryComplete(clients, invOpen, recOpen, invClose, recClose)
    ensures var rows := SummaryRows(clients, invOpen, invClose, recOpen, recClose);
      && SumBy(rows, Invoiced) == SumBy(invClose, InvoiceTotal) - SumBy(invOpen, InvoiceTotal)
      && SumBy(rows, Received) == SumBy(recClose, ReceiptAmount) - SumBy(recOpen, ReceiptAmount)
      && SumBy(rows, Opening) == SumBy(invOpen, InvoiceTotal) - SumBy(recOpen, ReceiptAmount)
      && SumBy(rows, Closing) == SumBy(invClose, InvoiceTotal) - SumBy(recClose, ReceiptAmount)
  {
    var names := KeyColumn(clients, ClientName);
    SummaryMoneySums(clients, invOpen, invClose, recOpen, recClose);
    RegistryCovers(names, invOpen, InvoiceClient, InvoiceTotal);
    RegistryCovers(names, invClose, InvoiceClient, InvoiceTotal);
    RegistryCovers(names, recOpen, ReceiptClient, ReceiptAmount);
    RegistryCovers(names, recClose, ReceiptClient, ReceiptAmount);
  }

  /** When the registry lists every client of the four slices exactly once, the legacy
      figures equal the column sums of the client summaries (rows of a client missing
      from the registry would count in the former only). */
  lemma FiguresMatchSummaries(clients: seq<ClientInfo>, invOpen: seq<Invoice>, recOpen: seq<Receipt>,
                              invClose: seq<Invoice>, recClose: seq<Receipt>)
    requires RegistryComplete(clients, invOpen, recOpen, invClose, recClose)
    ensures ColumnSums(BuildClientSummaries(clients, invOpen, invClose, recOpen, recClose))
         == GetKeyFigures(invOpen, recOpen, invClose, recClose)
  {
    SortKeepsColumnSums(clients, invOpen, recOpen, invClose, recClose);
    RowSumsAreFigures(clients, invOpen, recOpen, invClose, recClose);
  }

  lemma RowSumsAreFigures(clients: seq<ClientInfo>, invOpen: seq<Invoice>, recOpen: seq<Receipt>,
                          invClose: seq<Invoice>, recClose: seq<Receipt>)
    requires RegistryComplete(clients, invOpen, recOpen, invClose, recClose)
    ensures ColumnSums(SummaryRows(clients, invOpen, invClose, recOpen, recClose))
         == GetKeyFigures(invOpen, recOpen, invClose, recClose)
  {
    CountsMatch(clients, invOpen, recOpen, invClose, recClose);
    MoneyMatches(clients, invOpen, recOpen, invClose, recClose);
    SumsAreFigures(SummaryRows(clients, invOpen, invClose, recOpen, recClose), invOpen, recOpen, invClose, recClose);
  }

  /** Proof helper for `RowSumsAreFigures`: column sums that are the close-minus-open
      counts and totals and the two balances are the key figures. */
  lemma SumsAreFigures(rows: seq<ClientSummary>, invOpen: seq<Invoice>, recOpen: seq<Receipt>,
                       invClose: seq<Invoice>, recClose: seq<Receipt>)
    requires SumBy(rows, InvoiceCountOf) == |invClose| - |invOpen|
    requires SumBy(rows, ReceiptCountOf) == |recClose| - |recOpen|
    requires SumBy(rows, Invoiced) == SumBy(invClose, InvoiceTotal) - SumBy(invOpen, InvoiceTotal)
    requires SumBy(rows, Received) == SumBy(recClose, ReceiptAmount) - SumBy(recOpen, ReceiptAmount)
    requires SumBy(rows, Opening) == SumBy(invOpen, InvoiceTotal) - SumBy(recOpen, ReceiptAmount)
    requires SumBy(rows, Closing) == SumBy(invClose, InvoiceTotal) - SumBy(recClose, ReceiptAmount)
    ensures ColumnSums(rows) == GetKeyFigures(invOpen, recOpen, invClose, recClose)
  {
  }
}
