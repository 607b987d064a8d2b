/** Per-client summaries, the status breakdown and the figures of the summary report
    (`domain/summaries.py`). */
module Summaries {
  import opened Dates
  import opened Tables
  import opened Records
  import opened Periods
  import Balances

  // ---------------------------------------------------------------------------
  // Per-client aggregates (`group_by("client").agg(count("number"), sum(..))`)

  /** One row of a grouped slice: the client, its row count and its column sum. */
  datatype Aggregate = Aggregate(client: string, count: int, total: int)

  function AggregateClient(a: Aggregate): string { a.client }

  /** The key column of a table, row by row. */
  function KeyColumn<T>(rows: seq<T>, key: T -> string): (ks: seq<string>)
    ensures |ks| == |rows|
    ensures forall j :: 0 <= j < |rows| ==> ks[j] == key(rows[j])
  {
    if rows == [] then [] else [key(rows[0])] + KeyColumn(rows[1..], key)
  }

  /** The aggregate of the rows of client `c`. */
  function AggregateOf<T>(rows: seq<T>, client: T -> string, amount: T -> int, c: string): Aggregate {
    var mine := Filter(rows, HasKey(client, c));
    Aggregate(c, |mine|, SumBy(mine, amount))
  }

  function Aggregates<T>(ks: seq<string>, rows: seq<T>, client: T -> string, amount: T -> int): (g: seq<Aggregate>)
    ensures |g| == |ks|
    ensures forall j :: 0 <= j < |ks| ==> g[j] == AggregateOf(rows, client, amount, ks[j])
  {
    if ks == [] then [] else [AggregateOf(rows, client, amount, ks[0])] + Aggregates(ks[1..], rows, client, amount)
  }

  /** `group_by("client")`: one aggregate per client that has rows. */
  function GroupByClient<T>(rows: seq<T>, client: T -> string, amount: T -> int): seq<Aggregate> {
    Aggregates(Distinct(KeyColumn(rows, client)), rows, client, amount)
  }

  /** The joined count and sum of client `c`, with `fill_null(0)` for a client the
      slice has no group for. */
  function JoinedCount(g: seq<Aggregate>, c: string): int {
    match Lookup(g, AggregateClient, c)
    case Some(a) => a.count
    case None => 0
  }

  function JoinedTotal(g: seq<Aggregate>, c: string): int {
    match Lookup(g, AggregateClient, c)
    case Some(a) => a.total
    case None => 0
  }

  /** The grouped table has one row per client, so a left join on it keeps the client
      registry row for row (`Tables.LeftJoinKeyed`). */
  lemma GroupsAreKeyed<T>(rows: seq<T>, client: T -> string, amount: T -> int)
    ensures KeysDistinct(GroupByClient(rows, client, amount), AggregateClient)
  {
    var ks := Distinct(KeyColumn(rows, client));
    var g := GroupByClient(rows, client, amount);
    forall i, j | 0 <= i < j < |g| ensures AggregateClient(g[i]) != AggregateClient(g[j]) {
      assert g[i].client == ks[i] && g[j].client == ks[j];
    }
  }

  /** Joining a grouped slice and filling nulls with 0 gives the count and the sum of
      the client's rows, whether or not the client has any. */
  lemma JoinedAggregate<T>(rows: seq<T>, client: T -> string, amount: T -> int, c: string)
    ensures JoinedCount(GroupByClient(rows, client, amount), c) == |Filter(rows, HasKey(client, c))|
    ensures JoinedTotal(GroupByClient(rows, client, amount), c) == SumBy(Filter(rows, HasKey(client, c)), amount)
  {
    var column := KeyColumn(rows, client);
    var ks := Distinct(column);
    var g := GroupByClient(rows, client, amount);
    var o := Lookup(g, AggregateClient, c);
    if o.Some? {
      var j :| 0 <= j < |g| && g[j] == o.value;
      assert g[j] == AggregateOf(rows, client, amount, ks[j]);
    } else {
      forall j | 0 <= j < |rows| ensures !HasKey(client, c)(rows[j]) {
        assert column[j] in ks;
        var m :| 0 <= m < |ks| && ks[m] == column[j];
        assert g[m].client == ks[m];
      }
      FilterNone(rows, HasKey(client, c));
    }
  }

  // ---------------------------------------------------------------------------
  // Client summaries

  /** A row of `build_client_summaries`; money columns are integer minor units. */
  datatype ClientSummary = ClientSummary(
    client: string,
    displayName: string,
    address: Option<string>,
    phone: Option<string>,
    email: Option<string>,
    invoiceCount: int,
    receiptCount: int,
    invoiceTotal: int,
    receiptTotal: int,
    openingBalance: int,
    closingBalance: int)

  function Opening(r: ClientSummary): int { r.openingBalance }
  function Closing(r: ClientSummary): int { r.closingBalance }
  function Invoiced(r: ClientSummary): int { r.invoiceTotal }
  function Received(r: ClientSummary): int { r.receiptTotal }
  function InvoiceCountOf(r: ClientSummary): int { r.invoiceCount }
  function ReceiptCountOf(r: ClientSummary): int { r.receiptCount }

  /** The summary row of one registry row: the four grouped slices left-joined on the
      client with nulls read as 0, then the close-minus-open columns and the balances. */
  function SummaryOf(info: ClientInfo, invOpen: seq<Invoice>, invClose: seq<Invoice>,
                     recOpen: seq<Receipt>, recClose: seq<Receipt>): ClientSummary
  {
    var c := info.client;
    var invCountOpen := JoinedCount(GroupByClient(invOpen, InvoiceClient, InvoiceTotal), c);
    var invTotalOpen := JoinedTotal(GroupByClient(invOpen, InvoiceClient, InvoiceTotal), c);
    var invCountClose := JoinedCount(GroupByClient(invClose, InvoiceClient, InvoiceTotal), c);
    var invTotalClose := JoinedTotal(GroupByClient(invClose, InvoiceClient, InvoiceTotal), c);
    var recCountOpen := JoinedCount(GroupByClient(recOpen, ReceiptClient, ReceiptAmount), c);
    var recTotalOpen := JoinedTotal(GroupByClient(recOpen, ReceiptClient, ReceiptAmount), c);
    var recCountClose := JoinedCount(GroupByClient(recClose, ReceiptClient, ReceiptAmount), c);
    var recTotalClose := JoinedTotal(GroupByClient(recClose, ReceiptClient, ReceiptAmount), c);
    ClientSummary(
      c, info.displayName.GetOr(c), info.address, info.phone, info.email,
      invCountClose - invCountOpen, recCountClose - recCountOpen,
      invTotalClose - invTotalOpen, recTotalClose - recTotalOpen,
      invTotalOpen - recTotalOpen, invTotalClose - recTotalClose)
  }

  function SummaryRows(clients: seq<ClientInfo>, invOpen: seq<Invoice>, invClose: seq<Invoice>,
                       recOpen: seq<Receipt>, recClose: seq<Receipt>): (rows: seq<ClientSummary>)
    ensures |rows| == |clients|
    ensures forall k :: 0 <= k < |clients| ==> rows[k] == SummaryOf(clients[k], invOpen, invClose, recOpen, recClose)
  {
    if clients == [] then []
    else [SummaryOf(clients[0], invOpen, invClose, recOpen, recClose)]
         + SummaryRows(clients[1..], invOpen, invClose, recOpen, recClose)
  }

  /** `sort("closing_balance", "invoice_total", descending=True)` */
  predicate SummaryDescending(a: ClientSummary, b: ClientSummary) {
    a.closingBalance > b.closingBalance
    || (a.closingBalance == b.closingBalance && a.invoiceTotal >= b.invoiceTotal)
  }

  lemma SummaryOrderIsPreorder()
    ensures TotalPreorder(SummaryDescending)
  {
  }

  /** `build_client_summaries(df_clients, invoices_open, invoices_close, receipts_open, receipts_close)` */
  function BuildClientSummaries(clients: seq<ClientInfo>, invOpen: seq<Invoice>, invClose: seq<Invoice>,
                                recOpen: seq<Receipt>, recClose: seq<Receipt>): seq<ClientSummary>
  {
    SummaryOrderIsPreorder();
    SortBy(SummaryRows(clients, invOpen, invClose, recOpen, recClose), SummaryDescending)
  }

  /** The joined invoice aggregate of client `c` is the count and sum of its invoices. */
  lemma JoinedInvoices(rows: seq<Invoice>, c: string)
    ensures JoinedCount(GroupByClient(rows, InvoiceClient, InvoiceTotal), c) == |Filter(rows, IsInvoiceOf(c))|
    ensures JoinedTotal(GroupByClient(rows, InvoiceClient, InvoiceTotal), c) == SumBy(Filter(rows, IsInvoiceOf(c)), InvoiceTotal)
  {
    JoinedAggregate(rows, InvoiceClient, InvoiceTotal, c);
    FilterCongruent(rows, HasKey(InvoiceClient, c), IsInvoiceOf(c));
  }

  /** The joined receipt aggregate of client `c` is the count and sum of its receipts. */
  lemma JoinedReceipts(rows: seq<Receipt>, c: string)
    ensures JoinedCount(GroupByClient(rows, ReceiptClient, ReceiptAmount), c) == |Filter(rows, IsReceiptOf(c))|
    ensures JoinedTotal(GroupByClient(rows, ReceiptClient, ReceiptAmount), c) == SumBy(Filter(rows, IsReceiptOf(c)), ReceiptAmount)
  {
    JoinedAggregate(rows, ReceiptClient, ReceiptAmount, c);
    FilterCongruent(rows, HasKey(ReceiptClient, c), IsReceiptOf(c));
  }

  /** A client's summary: display name or the client key, each count and total the close
      slice's less the open slice's (0 for a missing group), the opening and closing
      balances invoiced less received, and so closing = opening + invoiced - received. */
  lemma SummaryFigures(info: ClientInfo, invOpen: seq<Invoice>, invClose: seq<Invoice>,
                       recOpen: seq<Receipt>, recClose: seq<Receipt>)
    ensures var r := SummaryOf(info, invOpen, invClose, recOpen, recClose);
      var c := info.client;
      && r.client == c
      && r.displayName == (if info.displayName.Some? then info.displayName.value else c)
      && r.invoiceCount == |Filter(invClose, IsInvoiceOf(c))| - |Filter(invOpen, IsInvoiceOf(c))|
      && r.receiptCount == |Filter(recClose, IsReceiptOf(c))| - |Filter(recOpen, IsReceiptOf(c))|
      && r.invoiceTotal == SumBy(Filter(invClose, IsInvoiceOf(c)), InvoiceTotal) - SumBy(Filter(invOpen, IsInvoiceOf(c)), InvoiceTotal)
      && r.receiptTotal == SumBy(Filter(recClose, IsReceiptOf(c)), ReceiptAmount) - SumBy(Filter(recOpen, IsReceiptOf(c)), ReceiptAmount)
      && r.openingBalance == SumBy(Filter(invOpen, IsInvoiceOf(c)), InvoiceTotal) - SumBy(Filter(recOpen, IsReceiptOf(c)), ReceiptAmount)
      && r.closingBalance == SumBy(Filter(invClose, IsInvoiceOf(c)), InvoiceTotal) - SumBy(Filter(recClose, IsReceiptOf(c)), ReceiptAmount)
      && r.closingBalance == r.openingBalance + r.invoiceTotal - r.receiptTotal
  {
    var c := info.client;
    JoinedInvoices(invOpen, c);
    JoinedInvoices(invClose, c);
    JoinedReceipts(recOpen, c);
    JoinedReceipts(recClose, c);
  }

  /** The four delta columns of a summary row, as joined aggregates. */
  lemma SummaryColumns(info: ClientInfo, invOpen: seq<Invoice>, invClose: seq<Invoice>,
                       recOpen: seq<Receipt>, recClose: seq<Receipt>)
    ensures var r := SummaryOf(info, invOpen, invClose, recOpen, recClose);
      var c := info.client;
      && r.invoiceCount == JoinedCount(GroupByClient(invClose, InvoiceClient, InvoiceTotal), c)
                           - JoinedCount(GroupByClient(invOpen, InvoiceClient, InvoiceTotal), c)
      && r.invoiceTotal == JoinedTotal(GroupByClient(invClose, InvoiceClient, InvoiceTotal), c)
                           - JoinedTotal(GroupByClient(invOpen, InvoiceClient, InvoiceTotal), c)
      && r.receiptCount == JoinedCount(GroupByClient(recClose, ReceiptClient, ReceiptAmount), c)
                           - JoinedCount(GroupByClient(recOpen, ReceiptClient, ReceiptAmount), c)
      && r.receiptTotal == JoinedTotal(GroupByClient(recClose, ReceiptClient, ReceiptAmount), c)
                           - JoinedTotal(GroupByClient(recOpen, ReceiptClient, ReceiptAmount), c)
  {
  }

  /** On the slices of a well-formed period, a client's joined close-minus-open invoice
      count and total are those of its invoices dated inside the period. */
  lemma InvoicesInPeriod(invoices: seq<Invoice>, receipts: seq<Receipt>, start: Option<Date>, end: Option<Date>, c: string)
    requires !(start.Some? && end.Some? && Before(end.value, start.value))
    ensures var s := SlicePeriodFrames(invoices, receipts, start, end).invoices;
      var open := GroupByClient(s.open, InvoiceClient, InvoiceTotal);
      var close := GroupByClient(s.close, InvoiceClient, InvoiceTotal);
      var invoiced := Filter(Filter(invoices, InPeriodOf(InvoiceDate, start, end)), IsInvoiceOf(c));
      && JoinedCount(close, c) - JoinedCount(open, c) == |invoiced|
      && JoinedTotal(close, c) - JoinedTotal(open, c) == SumBy(invoiced, InvoiceTotal)
  {
    NumberOrdersArePreorders();
    var s := SliceTable(invoices, InvoiceDate, InvoiceNumberLe, start, end);
    JoinedInvoices(s.open, c);
    JoinedInvoices(s.close, c);
    SelectedPeriodTotals(invoices, InvoiceDate, InvoiceNumberLe, start, end, IsInvoiceOf(c), InvoiceTotal);
  }

  /** The same for receipts. */
  lemma ReceiptsInPeriod(invoices: seq<Invoice>, receipts: seq<Receipt>, start: Option<Date>, end: Option<Date>, c: string)
    requires !(start.Some? && end.Some? && Before(end.value, start.value))
    ensures var s := SlicePeriodFrames(invoices, receipts, start, end).receipts;
      var open := GroupByClient(s.open, ReceiptClient, ReceiptAmount);
      var close := GroupByClient(s.close, ReceiptClient, ReceiptAmount);
      var received := Filter(Filter(receipts, InPeriodOf(ReceiptDate, start, end)), IsReceiptOf(c));
      && JoinedCount(close, c) - JoinedCount(open, c) == |received|
      && JoinedTotal(close, c) - JoinedTotal(open, c) == SumBy(received, ReceiptAmount)
  {
    NumberOrdersArePreorders();
    var s := SliceTable(receipts, ReceiptDate, ReceiptNumberLe, start, end);
    JoinedReceipts(s.open, c);
    JoinedReceipts(s.close, c);
    SelectedPeriodTotals(receipts, ReceiptDate, ReceiptNumberLe, start, end, IsReceiptOf(c), ReceiptAmount);
  }

  /** Proof helper for `SummaryInvoicesInPeriod`: a summary row's invoice columns are the
      joined close-minus-open figures. */
  lemma SummaryInvoicesFrom(info: ClientInfo, invOpen: seq<Invoice>, invClose: seq<Invoice>,
                            recOpen: seq<Receipt>, recClose: seq<Receipt>, invoiced: seq<Invoice>)
    requires JoinedCount(GroupByClient(invClose, InvoiceClient, InvoiceTotal), info.client)
           - JoinedCount(GroupByClient(invOpen, InvoiceClient, InvoiceTotal), info.client) == |invoiced|
    requires JoinedTotal(GroupByClient(invClose, InvoiceClient, InvoiceTotal), info.client)
           - JoinedTotal(GroupByClient(invOpen, InvoiceClient, InvoiceTotal), info.client) == SumBy(invoiced, InvoiceTotal)
    ensures var r := SummaryOf(info, invOpen, invClose, recOpen, recClose);
      r.invoiceCount == |invoiced| && r.invoiceTotal == SumBy(invoiced, InvoiceTotal)
  {
    SummaryColumns(info, invOpen, invClose, recOpen, recClose);
  }

  /** Proof helper for `SummaryReceiptsInPeriod`: a summary row's receipt columns are the
      joined close-minus-open figures. */
  lemma SummaryReceiptsFrom(info: ClientInfo, invOpen: seq<Invoice>, invClose: seq<Invoice>,
                            recOpen: seq<Receipt>, recClose: seq<Receipt>, received: seq<Receipt>)
    requires JoinedCount(GroupByClient(recClose, ReceiptClient, ReceiptAmount), info.client)
           - JoinedCount(GroupByClient(recOpen, ReceiptClient, ReceiptAmount), info.client) == |received|
    requires JoinedTotal(GroupByClient(recClose, ReceiptClient, ReceiptAmount), info.client)
           - JoinedTotal(GroupByClient(recOpen, ReceiptClient, ReceiptAmount), info.client) == SumBy(received, ReceiptAmount)
    ensures var r := SummaryOf(info, invOpen, invClose, recOpen, recClose);
      r.receiptCount == |received| && r.receiptTotal == SumBy(received, ReceiptAmount)
  {
    SummaryColumns(info, invOpen, invClose, recOpen, recClose);
  }

  /** A summary row's invoice columns on the slices of a well-formed period. */
  lemma SummaryInvoicesInPeriod(info: ClientInfo, invoices: seq<Invoice>, receipts: seq<Receipt>,
                                start: Option<Date>, end: Option<Date>)
    requires !(start.Some? && end.Some? && Before(end.value, start.value))
    ensures var f := SlicePeriodFrames(invoices, receipts, start, end);
      var r := SummaryOf(info, f.invoices.open, f.invoices.close, f.receipts.open, f.receipts.close);
      var invoiced := Filter(Filter(invoices, InPeriodOf(InvoiceDate, start, end)), IsInvoiceOf(info.client));
      r.invoiceCount == |invoiced| && r.invoiceTotal == SumBy(invoiced, InvoiceTotal)
  {
    var f := SlicePeriodFrames(invoices, receipts, start, end);
    InvoicesInPeriod(invoices, receipts, start, end, info.client);
    SummaryInvoicesFrom(info, f.invoices.open, f.invoices.close, f.receipts.open, f.receipts.close,
                        Filter(Filter(invoices, InPeriodOf(InvoiceDate, start, end)), IsInvoiceOf(info.client)));
  }

  /** A summary row's receipt columns on the slices of a well-formed period. */
  lemma SummaryReceiptsInPeriod(info: ClientInfo, invoices: seq<Invoice>, receipts: seq<Receipt>,
                                start: Option<Date>, end: Option<Date>)
    requires !(start.Some? && end.Some? && Before(end.value, start.value))
    ensures var f := SlicePeriodFrames(invoices, receipts, start, end);
      var r := SummaryOf(info, f.invoices.open, f.invoices.close, f.receipts.open, f.receipts.close);
      var received := Filter(Filter(receipts, InPeriodOf(ReceiptDate, start, end)), IsReceiptOf(info.client));
      r.receiptCount == |received| && r.receiptTotal == SumBy(received, ReceiptAmount)
  {
    var f := SlicePeriodFrames(invoices, receipts, start, end);
    ReceiptsInPeriod(invoices, receipts, start, end, info.client);
    SummaryReceiptsFrom(info, f.invoices.open, f.invoices.close, f.receipts.open, f.receipts.close,
                        Filter(Filter(receipts, InPeriodOf(ReceiptDate, start, end)), IsReceiptOf(info.client)));
  }

  /** On the slices of a well-formed period, a client's counts and totals are those of
      its own invoices and receipts dated inside the period. */
  lemma SummaryInPeriod(info: ClientInfo, invoices: seq<Invoice>, receipts: seq<Receipt>,
                        start: Option<Date>, end: Option<Date>)
    requires !(start.Some? && end.Some? && Before(end.value, start.value))
    ensures var f := SlicePeriodFrames(invoices, receipts, start, end);
      var r := SummaryOf(info, f.invoices.open, f.invoices.close, f.receipts.open, f.receipts.close);
      var invoiced := Filter(Filter(invoices, InPeriodOf(InvoiceDate, start, end)), IsInvoiceOf(info.client));
      var received := Filter(Filter(receipts, InPeriodOf(ReceiptDate, start, end)), IsReceiptOf(info.client));
      && r.invoiceCount == |invoiced| && r.invoiceTotal == SumBy(invoiced, InvoiceTotal)
      && r.receiptCount == |received| && r.receiptTotal == SumBy(received, ReceiptAmount)
  {
    SummaryInvoicesInPeriod(info, invoices, receipts, start, end);
    SummaryReceiptsInPeriod(info, invoices, receipts, start, end);
  }

  /** One summary row per registry row, ordered by closing balance and then invoice
      total, both descending, and holding exactly the rows of the registry's clients. */
  lemma ClientSummariesShape(clients: seq<ClientInfo>, invOpen: seq<Invoice>, invClose: seq<Invoice>,
                             recOpen: seq<Receipt>, recClose: seq<Receipt>)
    ensures var out := BuildClientSummaries(clients, invOpen, invClose, recOpen, recClose);
      && |out| == |clients|
      && multiset(out) == multiset(SummaryRows(clients, invOpen, invClose, recOpen, recClose))
      && (forall i, j :: 0 <= i < j < |out| ==>
            out[i].closingBalance > out[j].closingBalance
            || (out[i].closingBalance == out[j].closingBalance && out[i].invoiceTotal >= out[j].invoiceTotal))
  {
    var out := BuildClientSummaries(clients, invOpen, invClose, recOpen, recClose);
    SummaryOrderIsPreorder();
    assert SortedBy(out, SummaryDescending);
  }

  function ClientName(info: ClientInfo): string { info.client }

  /** A summary row's columns as group sums of the client's key. */
  lemma SummaryKeySums(info: ClientInfo, invOpen: seq<Invoice>, invClose: seq<Invoice>,
                       recOpen: seq<Receipt>, recClose: seq<Receipt>)
    ensures var r := SummaryOf(info, invOpen, invClose, recOpen, recClose);
      var c := info.client;
      && r.invoiceCount == KeySum(invClose, InvoiceClient, Unit, c) - KeySum(invOpen, InvoiceClient, Unit, c)
      && r.receiptCount == KeySum(recClose, ReceiptClient, Unit, c) - KeySum(recOpen, ReceiptClient, Unit, c)
      && r.invoiceTotal == KeySum(invClose, InvoiceClient, InvoiceTotal, c) - KeySum(invOpen, InvoiceClient, InvoiceTotal, c)
      && r.receiptTotal == KeySum(recClose, ReceiptClient, ReceiptAmount, c) - KeySum(recOpen, ReceiptClient, ReceiptAmount, c)
      && r.openingBalance == KeySum(invOpen, InvoiceClient, InvoiceTotal, c) - KeySum(recOpen, ReceiptClient, ReceiptAmount, c)
      && r.closingBalance == KeySum(invClose, InvoiceClient, InvoiceTotal, c) - KeySum(recClose, ReceiptClient, ReceiptAmount, c)
  {
    var c := info.client;
    SummaryColumns(info, invOpen, invClose, recOpen, recClose);
    JoinedAggregate(invOpen, InvoiceClient, InvoiceTotal, c);
    JoinedAggregate(invClose, InvoiceClient, InvoiceTotal, c);
    JoinedAggregate(recOpen, ReceiptClient, ReceiptAmount, c);
    JoinedAggregate(recClose, ReceiptClient, ReceiptAmount, c);
    CountIsSum(Filter(invOpen, HasKey(InvoiceClient, c)));
    CountIsSum(Filter(invClose, HasKey(InvoiceClient, c)));
    CountIsSum(Filter(recOpen, HasKey(ReceiptClient, c)));
    CountIsSum(Filter(recClose, HasKey(ReceiptClient, c)));
  }

  /** The summary rows' count columns added up are the group counts of the registry's
      clients, close less open. */
  lemma {:induction false} SummaryCountSums(clients: seq<ClientInfo>, invOpen: seq<Invoice>, invClose: seq<Invoice>,
                                           recOpen: seq<Receipt>, recClose: seq<Receipt>)
    ensures var rows := SummaryRows(clients, invOpen, invClose, recOpen, recClose);
      var names := KeyColumn(clients, ClientName);
      && SumBy(rows, InvoiceCountOf) == KeysSum(names, invClose, InvoiceClient, Unit) - KeysSum(names, invOpen, InvoiceClient, Unit)
      && SumBy(rows, ReceiptCountOf) == KeysSum(names, recClose, ReceiptClient, Unit) - KeysSum(names, recOpen, ReceiptClient, Unit)
  {
    if clients != [] {
      SummaryCountSums(clients[1..], invOpen, invClose, recOpen, recClose);
      SummaryKeySums(clients[0], invOpen, invClose, recOpen, recClose);
      assert SummaryRows(clients, invOpen, invClose, recOpen, recClose)[1..] == SummaryRows(clients[1..], invOpen, invClose, recOpen, recClose);
      assert KeyColumn(clients, ClientName)[1..] == KeyColumn(clients[1..], ClientName);
    }
  }

  /** The summary rows' money columns added up are the group sums of the registry's
      clients: totals close less open, balances invoiced less received. */
  lemma {:induction false} SummaryMoneySums(clients: seq<ClientInfo>, invOpen: seq<Invoice>, invClose: seq<Invoice>,
                                           recOpen: seq<Receipt>, recClose: seq<Receipt>)
    ensures var rows := SummaryRows(clients, invOpen, invClose, recOpen, recClose);
      var names := KeyColumn(clients, ClientName);
      && SumBy(rows, Invoiced) == KeysSum(names, invClose, InvoiceClient, InvoiceTotal) - KeysSum(names, invOpen, InvoiceClient, InvoiceTotal)
      && SumBy(rows, Received) == KeysSum(names, recClose, ReceiptClient, ReceiptAmount) - KeysSum(names, recOpen, ReceiptClient, ReceiptAmount)
      && SumBy(rows, Opening) == KeysSum(names, invOpen, InvoiceClient, InvoiceTotal) - KeysSum(names, recOpen, ReceiptClient, ReceiptAmount)
      && SumBy(rows, Closing) == KeysSum(names, invClose, InvoiceClient, InvoiceTotal) - KeysSum(names, recClose, ReceiptClient, ReceiptAmount)
  {
    if clients != [] {
      SummaryMoneySums(clients[1..], invOpen, invClose, recOpen, recClose);
      SummaryKeySums(clients[0], invOpen, invClose, recOpen, recClose);
      assert SummaryRows(clients, invOpen, invClose, recOpen, recClose)[1..] == SummaryRows(clients[1..], invOpen, invClose, recOpen, recClose);
      assert KeyColumn(clients, ClientName)[1..] == KeyColumn(clients[1..], ClientName);
    }
  }

  /** Every summary row keeps closing = opening + invoiced - received. */
  ghost predicate BalancesAddUp(rows: seq<ClientSummary>) {
    forall k :: 0 <= k < |rows| ==>
      rows[k].closingBalance == rows[k].openingBalance + rows[k].invoiceTotal - rows[k].receiptTotal
  }

  lemma ClientSummariesAddUp(clients: seq<ClientInfo>, invOpen: seq<Invoice>, invClose: seq<Invoice>,
                             recOpen: seq<Receipt>, recClose: seq<Receipt>)
    ensures BalancesAddUp(BuildClientSummaries(clients, invOpen, invClose, recOpen, recClose))
  {
    var rows := SummaryRows(clients, invOpen, invClose, recOpen, recClose);
    var out := BuildClientSummaries(clients, invOpen, invClose, recOpen, recClose);
    forall k | 0 <= k < |out|
      ensures out[k].closingBalance == out[k].openingBalance + out[k].invoiceTotal - out[k].receiptTotal
    {
      assert out[k] in multiset(rows);
      SummaryRowAddsUp(clients, invOpen, invClose, recOpen, recClose, out[k]);
    }
  }

  lemma SummaryRowAddsUp(clients: seq<ClientInfo>, invOpen: seq<Invoice>, invClose: seq<Invoice>,
                         recOpen: seq<Receipt>, recClose: seq<Receipt>, x: ClientSummary)
    requires x in SummaryRows(clients, invOpen, invClose, recOpen, recClose)
    ensures x.closingBalance == x.openingBalance + x.invoiceTotal - x.receiptTotal
  {
    var rows := SummaryRows(clients, invOpen, invClose, recOpen, recClose);
    var m :| 0 <= m < |rows| && rows[m] == x;
    SummaryFigures(clients[m], invOpen, invClose, recOpen, recClose);
  }

  // ---------------------------------------------------------------------------
  // Status breakdown

  datatype Status = Outstanding | Advance | Settled

  /** Outstanding when the client owes, Advance when it has paid ahead, else Settled. */
  function StatusOf(closing: int): (s: Status)
    ensures s == Outstanding <==> closing > 0
    ensures s == Advance <==> closing < 0
    ensures s == Settled <==> closing == 0
  {
    if closing > 0 then Outstanding else if closing < 0 then Advance else Settled
  }

  function SummaryStatus(r: ClientSummary): Status { StatusOf(r.closingBalance) }

  /** A row of `build_status_breakdown`: a status, its client count and closing sum. */
  datatype StatusRow = StatusRow(status: Status, clients: int, amount: int)

  function RowClients(s: StatusRow): int { s.clients }
  function RowAmount(s: StatusRow): int { s.amount }

  function StatusGroup(rows: seq<ClientSummary>, s: Status): StatusRow {
    var mine := Filter(rows, HasKey(SummaryStatus, s));
    StatusRow(s, |mine|, SumBy(mine, Closing))
  }

  function StatusGroups(ss: seq<Status>, rows: seq<ClientSummary>): (g: seq<StatusRow>)
    ensures |g| == |ss|
    ensures forall j :: 0 <= j < |ss| ==> g[j] == StatusGroup(rows, ss[j])
  {
    if ss == [] then [] else [StatusGroup(rows, ss[0])] + StatusGroups(ss[1..], rows)
  }

  function StatusColumn(rows: seq<ClientSummary>): (ss: seq<Status>)
    ensures |ss| == |rows|
    ensures forall j :: 0 <= j < |rows| ==> ss[j] == SummaryStatus(rows[j])
  {
    if rows == [] then [] else [SummaryStatus(rows[0])] + StatusColumn(rows[1..])
  }

  function BreakdownStatuses(g: seq<StatusRow>): (ss: seq<Status>)
    ensures |ss| == |g|
    ensures forall j :: 0 <= j < |g| ==> ss[j] == g[j].status
  {
    if g == [] then [] else [g[0].status] + BreakdownStatuses(g[1..])
  }

  /** `build_status_breakdown(df_client_summaries)`: one row per status that occurs,
      with its number of clients and the sum of their closing balances. */
  function BuildStatusBreakdown(rows: seq<ClientSummary>): seq<StatusRow> {
    StatusGroups(Distinct(StatusColumn(rows)), rows)
  }

  /** Each status occurs once, and a status has a row exactly when some client has it. */
  lemma BreakdownStatusesPresent(rows: seq<ClientSummary>)
    ensures var ss := BreakdownStatuses(BuildStatusBreakdown(rows));
      && Unique(ss)
      && forall s :: s in ss <==> s in StatusColumn(rows)
  {
    var ks := Distinct(StatusColumn(rows));
    var ss := BreakdownStatuses(BuildStatusBreakdown(rows));
    assert ss == ks;
  }

  /** The breakdown rows added up column by column are the group sums of their statuses. */
  lemma {:induction false} GroupsSum(ss: seq<Status>, rows: seq<ClientSummary>)
    ensures SumBy(StatusGroups(ss, rows), RowAmount) == KeysSum(ss, rows, SummaryStatus, Closing)
    ensures SumBy(StatusGroups(ss, rows), RowClients) == KeysSum(ss, rows, SummaryStatus, Unit)
  {
    if ss != [] {
      GroupsSum(ss[1..], rows);
      CountIsSum(Filter(rows, HasKey(SummaryStatus, ss[0])));
      assert StatusGroups(ss, rows) == [StatusGroup(rows, ss[0])] + StatusGroups(ss[1..], rows);
    }
  }

  /** Every client falls in exactly one bucket: the client counts add up to the number
      of clients and the amounts to the total closing balance. */
  lemma BreakdownPartition(rows: seq<ClientSummary>)
    ensures SumBy(BuildStatusBreakdown(rows), RowClients) == |rows|
    ensures SumBy(BuildStatusBreakdown(rows), RowAmount) == SumBy(rows, Closing)
  {
    var ks := Distinct(StatusColumn(rows));
    GroupsSum(ks, rows);
    Regroup(ks, rows, SummaryStatus, Closing);
    Regroup(ks, rows, SummaryStatus, Unit);
    forall j | 0 <= j < |rows| ensures KeyIn(SummaryStatus, ks)(rows[j]) {
      assert StatusColumn(rows)[j] in ks;
    }
    FilterAll(rows, KeyIn(SummaryStatus, ks));
    CountIsSum(rows);
  }

  lemma {:induction false} SumPositive(s: seq<ClientSummary>)
    requires s != []
    requires forall k :: 0 <= k < |s| ==> s[k].closingBalance > 0
    ensures SumBy(s, Closing) > 0
  {
    if |s| > 1 {
      SumPositive(s[1..]);
    }
  }

  lemma {:induction false} SumNegative(s: seq<ClientSummary>)
    requires s != []
    requires forall k :: 0 <= k < |s| ==> s[k].closingBalance < 0
    ensures SumBy(s, Closing) < 0
  {
    if |s| > 1 {
      SumNegative(s[1..]);
    }
  }

  /** Each bucket holds at least one client; Outstanding sums to a positive amount,
      Advance to a negative one and Settled to zero. */
  lemma BreakdownSigns(rows: seq<ClientSummary>)
    ensures var g := BuildStatusBreakdown(rows);
      forall j :: 0 <= j < |g| ==>
        && g[j].clients >= 1
        && (g[j].status == Outstanding ==> g[j].amount > 0)
        && (g[j].status == Advance ==> g[j].amount < 0)
        && (g[j].status == Settled ==> g[j].amount == 0)
  {
    var ks := Distinct(StatusColumn(rows));
    var g := BuildStatusBreakdown(rows);
    forall j | 0 <= j < |g|
      ensures g[j].clients >= 1
      ensures g[j].status == Outstanding ==> g[j].amount > 0
      ensures g[j].status == Advance ==> g[j].amount < 0
      ensures g[j].status == Settled ==> g[j].amount == 0
    {
      GroupSign(rows, ks[j]);
    }
  }

  /** The group of a status that occurs is non-empty and its amount has that sign. */
  lemma GroupSign(rows: seq<ClientSummary>, s: Status)
    requires s in StatusColumn(rows)
    ensures var g := StatusGroup(rows, s);
      && g.clients >= 1
      && (s == Outstanding ==> g.amount > 0)
      && (s == Advance ==> g.amount < 0)
      && (s == Settled ==> g.amount == 0)
  {
    var mine := Filter(rows, HasKey(SummaryStatus, s));
    var m :| 0 <= m < |rows| && StatusColumn(rows)[m] == s;
    assert rows[m] in mine;
    assert forall k :: 0 <= k < |mine| ==> SummaryStatus(mine[k]) == s;
    if s == Outstanding {
      SumPositive(mine);
    } else if s == Advance {
      SumNegative(mine);
    } else {
      SumZero(mine, Closing);
    }
  }

  // ---------------------------------------------------------------------------
  // Summary report

  /** The six column sums of the client summaries. */
  datatype Totals = Totals(invoiceCount: int, receiptCount: int, invoiceTotal: int,
                           receiptTotal: int, openingBalance: int, closingBalance: int)

  function ColumnSums(rows: seq<ClientSummary>): Totals {
    Totals(SumBy(rows, InvoiceCountOf), SumBy(rows, ReceiptCountOf), SumBy(rows, Invoiced),
           SumBy(rows, Received), SumBy(rows, Opening), SumBy(rows, Closing))
  }

  /** The note beside a balance figure. */
  function BalanceNote(x: int): string {
    if x != 0 then (if x > 0 then "(Due)" else "(Overpaid)") else ""
  }

  /** The note beside a figure: text, or a row count with its noun (rendered
      "(<n> invoices)" / "(<n> receipts)"). */
  datatype Note = Text(text: string) | Count(n: int, noun: string)

  datatype KeyFigure = KeyFigure(title: string, value: int, note: Note)

  /** The report's `key_figures` list. */
  function KeyFigures(t: Totals): seq<KeyFigure> {
    [ KeyFigure("Opening Balance", t.openingBalance, Text(BalanceNote(t.openingBalance))),
      KeyFigure("Total Invoiced", t.invoiceTotal, Count(t.invoiceCount, "invoices")),
      KeyFigure("Total Received", t.receiptTotal, Count(t.receiptCount, "receipts")),
      KeyFigure("Closing Balance", t.closingBalance, Text(BalanceNote(t.closingBalance))) ]
  }

  /** A client is listed when any of its four money columns is non-zero. */
  predicate Active(r: ClientSummary) {
    r.openingBalance != 0 || r.closingBalance != 0 || r.invoiceTotal != 0 || r.receiptTotal != 0
  }

  function IsActive(): ClientSummary -> bool { (r: ClientSummary) => Active(r) }
  function IsIdle(): ClientSummary -> bool { (r: ClientSummary) => !Active(r) }

  datatype SummaryReport = SummaryReport(
    period: Option<string>,
    generated: string,
    keyFigures: seq<KeyFigure>,
    statusBreakdown: seq<StatusRow>,
    monthlySummary: seq<Balances.MonthSummary>,
    clientSummaries: seq<ClientSummary>)

  /** `build_summary_report(date_format, period_text, summaries, breakdown, monthly)`;
      the wall clock reading and its formatting are parameters. */
  function BuildSummaryReport(format: Date -> string, now: Date, periodText: Option<string>,
                              summaries: seq<ClientSummary>, breakdown: seq<StatusRow>,
                              monthly: seq<Balances.MonthSummary>): SummaryReport
  {
    SummaryReport(periodText, "Generated: " + format(now), KeyFigures(ColumnSums(summaries)),
                  breakdown, monthly, Filter(summaries, IsActive()))
  }

  /** The balance notes say "(Due)" exactly for a positive balance, "(Overpaid)" exactly
      for a negative one, and nothing for zero; the counts are the column sums. */
  lemma ReportKeyFigures(format: Date -> string, now: Date, periodText: Option<string>,
                         summaries: seq<ClientSummary>, breakdown: seq<StatusRow>,
                         monthly: seq<Balances.MonthSummary>)
    ensures var kf := BuildSummaryReport(format, now, periodText, summaries, breakdown, monthly).keyFigures;
      && |kf| == 4
      && kf[0].value == SumBy(summaries, Opening) && kf[3].value == SumBy(summaries, Closing)
      && kf[1].value == SumBy(summaries, Invoiced) && kf[2].value == SumBy(summaries, Received)
      && kf[1].note == Count(SumBy(summaries, InvoiceCountOf), "invoices")
      && kf[2].note == Count(SumBy(summaries, ReceiptCountOf), "receipts")
      && (forall j :: j in {0, 3} ==>
            && kf[j].note.Text?
            && (kf[j].note.text == "(Due)" <==> kf[j].value > 0)
            && (kf[j].note.text == "(Overpaid)" <==> kf[j].value < 0)
            && (kf[j].note.text == "" <==> kf[j].value == 0))
  {
  }

  /** When every row adds up, so do the key figures: closing = opening + invoiced - received. */
  lemma ReportBalancesAddUp(format: Date -> string, now: Date, periodText: Option<string>,
                            summaries: seq<ClientSummary>, breakdown: seq<StatusRow>,
                            monthly: seq<Balances.MonthSummary>)
    requires BalancesAddUp(summaries)
    ensures var kf := BuildSummaryReport(format, now, periodText, summaries, breakdown, monthly).keyFigures;
      kf[3].value == kf[0].value + kf[1].value - kf[2].value
  {
    SumLinear(summaries, Closing, Opening, Invoiced, Received);
  }

  /** Dropping rows whose column is zero does not change the column's sum. */
  lemma ActiveSum(rows: seq<ClientSummary>, f: ClientSummary -> int)
    requires forall k :: 0 <= k < |rows| && !Active(rows[k]) ==> f(rows[k]) == 0
    ensures SumBy(Filter(rows, IsActive()), f) == SumBy(rows, f)
  {
    FilterSplit(rows, IsActive(), IsIdle(), f);
    SumZero(Filter(rows, IsIdle()), f);
  }

  /** The listed clients are exactly the active ones, in order; the ones left out have
      all-zero money columns, so the listed rows still sum to the key figures. */
  lemma ReportListsActiveClients(format: Date -> string, now: Date, periodText: Option<string>,
                                 summaries: seq<ClientSummary>, breakdown: seq<StatusRow>,
                                 monthly: seq<Balances.MonthSummary>)
    ensures var report := BuildSummaryReport(format, now, periodText, summaries, breakdown, monthly);
      var listed := report.clientSummaries;
      && (forall r :: r in listed <==> r in summaries && Active(r))
      && SumBy(listed, Opening) == report.keyFigures[0].value
      && SumBy(listed, Invoiced) == report.keyFigures[1].value
      && SumBy(listed, Received) == report.keyFigures[2].value
      && SumBy(listed, Closing) == report.keyFigures[3].value
  {
    ActiveSum(summaries, Opening);
    ActiveSum(summaries, Invoiced);
    ActiveSum(summaries, Received);
    ActiveSum(summaries, Closing);
  }
}
