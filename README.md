# bulkinvoicer payment-matching and balance engine in Dafny

bulkinvoicer turns spreadsheets of invoices, receipts and clients into PDF invoices,
receipts, statements and a summary report. Behind the rendering sits a small engine
of exact money arithmetic over tables. This project models that engine and proves
properties of it:

- **the FIFO payment matcher** (`match_payments`), in `matcher.dfy`. One client's
  receipts pay off that client's numbered invoices, oldest first. A receipt may split
  across several invoices. Money left over becomes an advance entry. The method keeps
  the source's queue and its two loops, and is proved equal to a functional
  specification. Lemmas about that specification cover FIFO order, conservation and
  the shape of the residual queue.
- **the per-client driver** (`match_payments_by_client`), in `matching.dfy`. It has
  early exits, a loop over the clients that have receipts, and left joins of the
  results back onto the invoice and receipt rows. The lemmas pin down which balance
  each invoice row receives (none, a residual, or its total) and what each receipt
  row receives.
- **the reporting period**, in `periods.dfy`. This covers the caption text with its
  start-after-end error, and the open, close and report slices of a table.
- **monthly balances**, in `balances.dfy`. This covers the 12-month window
  normaliser, the client-by-month table with its running balances over the whole
  history, and the roll-up per month across clients.
- **client summaries, status breakdown and summary report**, in `summaries.dfy`.
- **the transaction ledger**, in `transactions.dfy`. Invoices are signed positive and
  receipts negative. Each client has a running balance over the whole history, and
  the rows are then filtered to the window.
- **the legacy key figures** (`get_key_figures`), in `key_figures.dfy`.

Supporting modules:

- `dates.dfy`: calendar dates in lexicographic order, month numbers and month ends.
- `tables.dfy`: filters, column sums, grouping by key, left joins, and a stable
  insertion sort by any total preorder.
- `records.dfy`: invoice, receipt and client registry rows.

Representation choices:

- Money is an `int` count of minor units. The engine only adds, subtracts and
  compares exact decimals.
- A table is a `seq` of row datatypes. A Polars filter is `Tables.Filter` with a
  predicate, and a sort is `Tables.SortBy` (stable insertion) with an order relation.
- The wall clock (`datetime.now()`) and the date formatter (`strftime`) are
  parameters.

Behaviour of the code that a reader may not expect:

- `match_payments` returns `([], [])` as soon as either list is empty
  (`bulkinvoicer/utils.py:607-609`). A receipt of a client with no invoices therefore
  gets no matched entry at all. After the left join back
  (`bulkinvoicer/domain/matching.py:69-71`) its row has no `invoices` value
  (`Matching.ReceiptAllocations`).
- The monthly balance rows are labelled with the first day of their month by
  `group_by_dynamic(..., every="1mo")` (`bulkinvoicer/domain/balances.py:61,74`).
  The final `is_between(start, end)` filter (`bulkinvoicer/domain/balances.py:110`)
  therefore drops the start month whenever the start date is not the 1st
  (`Balances.StartMonthDropped`).

The monthly roll-up keeps only months in which something was invoiced or received
(`bulkinvoicer/domain/balances.py:134`); `Balances.SummaryMember` states it.

## Model

| member | source | states |
|---|---|---|
| PaymentMatcher.MatchPayments | bulkinvoicer/utils.py:598-659 | The queue-building loop and the receipt loop, with its inner `while`, return exactly the matched payments and unpaid queue of the functional specification `MatchSpec`. |
| PaymentMatcher.MatchSpec | bulkinvoicer/utils.py:607-657 | With at least one invoice, there is one matched entry per receipt. |
| PaymentMatcher.OneEntryPerReceipt | bulkinvoicer/utils.py:607-657 | An empty invoice or receipt list gives `([], [])`. Otherwise entry i belongs to receipt i and carries its number, even when it allocates nothing. |
| PaymentMatcher.InitialQueueIsNumberedInvoices | bulkinvoicer/utils.py:614-626 | The queue is the invoices with a present, non-empty number, in input order, each owing its total. |
| PaymentMatcher.AllocateSums | bulkinvoicer/utils.py:635-647 | A non-positive receipt allocates nothing and leaves the queue alone. A positive receipt is split into allocations plus a non-negative leftover that add up to the receipt. A leftover exists only once the queue is empty. What was allocated plus what the queue still owes equals what it owed before. |
| PaymentMatcher.AllocateFifo | bulkinvoicer/utils.py:635-647 | Allocations name the queue head in order. Every allocation but the last clears its invoice. The last either clears its invoice too, or takes a strictly smaller part and leaves the remainder at the head of the queue. |
| PaymentMatcher.WithAdvance | bulkinvoicer/utils.py:649-650 | The advance entry is appended only for a positive leftover, only as the last entry, and it carries exactly that leftover. |
| PaymentMatcher.ReceiptStepFacts | bulkinvoicer/utils.py:628-657 | One receipt meeting a queue is FIFO as above. Its entries total its amount if positive, else zero. Its named entries plus the new queue equal the old queue. |
| PaymentMatcher.EachReceiptIsFifo | bulkinvoicer/utils.py:628-659 | Every receipt's entry is FIFO against the queue left by the receipts before it, and the unpaid result is the queue after the last receipt. |
| PaymentMatcher.ReceiptFullyAllocated | bulkinvoicer/utils.py:631-650 | A receipt's allocations, the advance included, sum to its amount when that is positive, and to zero otherwise. This holds whatever the signs of the invoice totals. |
| PaymentMatcher.MatchAllConserves | bulkinvoicer/utils.py:628-657 | Over any run of receipts, named allocations plus the remaining queue equal the starting queue. With non-negative receipts, everything received is allocated. |
| PaymentMatcher.Conservation | bulkinvoicer/utils.py:620-647 | Named allocations plus unpaid balances equal the total of the numbered invoices. With non-negative receipts, all allocations together equal all receipts. |
| PaymentMatcher.UnpaidIsResidue | bulkinvoicer/utils.py:640-659 | The unpaid list is a suffix of the numbered invoices in input order. Only its first entry may differ from its invoice, and then only by a strictly smaller positive balance. |
| PaymentMatcher.UnpaidAreNumberedInvoices | bulkinvoicer/utils.py:614-659 | Every unpaid entry is a numbered input invoice, owing its total or a strictly positive part of it. |
| PaymentMatcher.UnpaidNumbersDistinct | bulkinvoicer/utils.py:614-659 | With distinct invoice numbers, unpaid entries have distinct numbers. |
| PaymentMatcher.AllocationsNameNumberedInvoices | bulkinvoicer/utils.py:635-647 | Every named allocation names a numbered input invoice. |
| PaymentMatcher.ExactPayment | bulkinvoicer/utils.py:598-659 | Worked example: a receipt paying two invoices exactly clears both and leaves nothing unpaid. |
| PaymentMatcher.Overpayment | bulkinvoicer/utils.py:598-659 | Worked example: an overpayment clears the invoice and records the excess as an advance with no invoice. |
| PaymentMatcher.PartPayment | bulkinvoicer/utils.py:598-659 | Worked example: part payments across two receipts skip an unnumbered invoice and leave the later invoice partly unpaid. |
| Matching.MatchPaymentsByClient | bulkinvoicer/domain/matching.py:18-75 | The driver's early exits, client loop and joins compute the functional model `MatchByClient`. |
| Matching.MatchEachClient | bulkinvoicer/domain/matching.py:35-56 | The loop over the paying clients accumulates exactly the concatenated per-client matcher results `MatchClients`. |
| Matching.ClientInvoiceRowsFacts | bulkinvoicer/domain/matching.py:41-46 | A client's matcher invoices are exactly the input invoices of that client. Distinct numbers stay distinct. |
| Matching.ClientReceiptRowsFacts | bulkinvoicer/domain/matching.py:47-52 | A client's matcher receipts are exactly the input receipts of that client. Distinct numbers stay distinct. |
| Matching.ReceiptClientsFacts | bulkinvoicer/domain/matching.py:38 | The loop visits each client with a receipt exactly once, and no other client. |
| Matching.ClientUnpaid | bulkinvoicer/domain/matching.py:40-56 | Each unpaid entry of one client's call is that client's invoice, owing its total or a strictly positive part of it. |
| Matching.ClientUnpaidKeyed | bulkinvoicer/domain/matching.py:40-56 | With distinct invoice numbers, one client's unpaid entries have distinct numbers. |
| Matching.ClientPaymentNames | bulkinvoicer/domain/matching.py:40-56 | A payment of one client's call names only that client's invoices. |
| Matching.ClientMatched | bulkinvoicer/domain/matching.py:40-56 | Each payment of one client's call is a receipt of that client, whose client has invoices. It allocates exactly the receipt's positive amount and names only that client's invoices. |
| Matching.ClientMatchedKeyed | bulkinvoicer/domain/matching.py:40-56 | With distinct receipt numbers, one client's payments have distinct receipt numbers. |
| Matching.ClientMatchedCovers | bulkinvoicer/domain/matching.py:40-56 | A receipt whose client has invoices gets a payment in its client's call. |
| Matching.ClientsUnpaid | bulkinvoicer/domain/matching.py:40-56 | The accumulated unpaid list holds only residuals of invoices of the visited clients. |
| Matching.ClientsUnpaidKeyed | bulkinvoicer/domain/matching.py:40-56 | Over distinct clients and distinct invoice numbers, the accumulated unpaid numbers are distinct. |
| Matching.ClientsMatched | bulkinvoicer/domain/matching.py:40-56 | The accumulated payments are payments of receipts of the visited clients. |
| Matching.ClientsMatchedKeyed | bulkinvoicer/domain/matching.py:40-56 | Over distinct clients and distinct receipt numbers, the accumulated receipt numbers are distinct. |
| Matching.ClientsCover | bulkinvoicer/domain/matching.py:40-56 | Every receipt of a visited client with invoices has an accumulated payment. |
| Matching.OwnResidual | bulkinvoicer/domain/matching.py:64-72 | A balance joined onto an invoice row by number is that invoice's own residual, and the invoice's client was visited. |
| Matching.OwnPayment | bulkinvoicer/domain/matching.py:59-71 | A payment joined onto a receipt row by number is that receipt's own payment. |
| Matching.InvoiceBalances | bulkinvoicer/domain/matching.py:29-72 | Every invoice row appears once, in order. Without receipts its balance is its total. Otherwise it is the joined residual, and is missing for a fully paid invoice or a client with no receipts. A present balance is the total or a strictly positive part of it. |
| Matching.ReceiptRow | bulkinvoicer/domain/matching.py:40-71 | A receipt finds a payment exactly when its client has invoices. That payment allocates the receipt's positive amount over its own client's invoices. |
| Matching.ReceiptAllocations | bulkinvoicer/domain/matching.py:40-71 | Every receipt row appears once, in order. Its allocations are present exactly when its client has invoices, then sum to its positive amount and name only its client's invoices. |
| Periods.ReportingPeriodText | bulkinvoicer/domain/periods.py:12-33 | Start after end is an error, in both directions of the iff. Otherwise the caption is missing exactly when both dates are. It reads "Period: s - e", "Period: Starting s" or "Period: Ending e" according to the dates given. |
| Periods.ReportFilterIsPeriod | bulkinvoicer/domain/periods.py:50-61 | The chained report filters keep exactly the rows dated inside the period: bounds inclusive, a missing bound ignored. |
| Periods.SliceContents | bulkinvoicer/domain/periods.py:36-72 | As multisets: the open slice is the rows dated before the start (none without a start). The close slice is the rows dated up to the end (all without an end). The report slice is the rows inside the period, sorted by number. |
| Periods.ReportIsCloseMinusOpen | bulkinvoicer/domain/periods.py:50-63 | As multisets of rows, report = close - open. |
| Periods.PeriodTotals | bulkinvoicer/domain/periods.py:50-63 | For a well-formed period, close minus open equals the report, in row count and in any column sum. |
| Periods.SelectedPeriodTotals | bulkinvoicer/domain/periods.py:50-63 | The same holds after selecting rows by any predicate, such as one client. |
| Balances.ExpectedStart | bulkinvoicer/domain/balances.py:18-22 | The expected start is the 1st of the month eleven months before the end month. For December that is January of the same year. |
| Balances.NormalizeDatePeriod | bulkinvoicer/domain/balances.py:12-34 | The end defaults to today. A missing or too-early start becomes the expected start, and any other start is kept. The start is never before the expected start. |
| Balances.TwelveMonthWindow | bulkinvoicer/domain/balances.py:12-34 | The window spans at most twelve months, and exactly twelve from a 1st when no start is given. A start after the end is not rejected. |
| Balances.WindowMonths | bulkinvoicer/domain/balances.py:47-52 | The window's months are exactly those from the start month to the end month, and none when the start is after the end. |
| Balances.GridKeys | bulkinvoicer/domain/balances.py:54-57 | The cross join holds exactly every (client, month) pair of the registry and the window. |
| Balances.ActivityKeys | bulkinvoicer/domain/balances.py:59-83 | Every invoice and receipt falls in one of the activity buckets. |
| Balances.MonthlyRows | bulkinvoicer/domain/balances.py:59-92 | Each table row carries its bucket's invoiced and received sums, zero when the bucket has none. |
| Balances.TableKeysFacts | bulkinvoicer/domain/balances.py:54-93 | The table's buckets are distinct, in month order, and are exactly the activity buckets plus the grid. |
| Balances.RunningRow | bulkinvoicer/domain/balances.py:93-109 | Row i opens at the carried balance plus the client's earlier net movements, and balance = open + invoiced - received. |
| Balances.OpenIsPrefixSum | bulkinvoicer/domain/balances.py:107-109 | `open` is the sum of the client's earlier net movements, 0 for its first row. |
| Balances.BalanceIsPrefixSum | bulkinvoicer/domain/balances.py:102-106 | `balance` is the running sum of the client's net movements through this row. |
| Balances.OpenIsPreviousBalance | bulkinvoicer/domain/balances.py:107-109 | A row's `open` equals the balance of the same client's previous row. |
| Balances.RunningFromInception | bulkinvoicer/domain/balances.py:85-109 | Each running row's open and balance are everything invoiced less received by its client before and through its month, over the whole history. |
| Balances.TableRow | bulkinvoicer/domain/balances.py:85-109 | Row i of the whole-history table is bucket i, balanced from inception. |
| Balances.MonthlyRowsFromInception | bulkinvoicer/domain/balances.py:37-122 | Every output row lies in [start, end] and is balanced from inception, because the filter comes after the running sum. |
| Balances.TableBucket | bulkinvoicer/domain/balances.py:85-106 | Row i of the whole-history table is labelled with bucket i. |
| Balances.TableShape | bulkinvoicer/domain/balances.py:85-106 | The whole-history table has one row per (client, month) and is in date order. |
| Balances.MonthlyRowsOrdered | bulkinvoicer/domain/balances.py:93-110 | The output has one row per (client, month) and is in date order. |
| Balances.MonthlyRowsCover | bulkinvoicer/domain/balances.py:47-110 | Every registered client, and every client with activity in that month, has a row for every month whose label lies in [start, end]. |
| Balances.StartMonthDropped | bulkinvoicer/domain/balances.py:47-110 | With a start after the 1st, no row of the start month survives the filter. |
| Balances.MonthLabels | bulkinvoicer/domain/balances.py:129 | The group keys are the distinct month labels of the rows. |
| Balances.Grouped | bulkinvoicer/domain/balances.py:127-130 | One aggregate per month label. |
| Balances.SummaryMember | bulkinvoicer/domain/balances.py:127-134 | A roll-up month is a grouped month with movement. |
| Balances.SummaryRows | bulkinvoicer/domain/balances.py:125-138 | Each roll-up month sums open, invoiced, received and balance over the rows of its label, ends at its month end, and has movement. |
| Balances.SummaryCovers | bulkinvoicer/domain/balances.py:127-134 | Every month label with movement has a roll-up month. |
| Balances.SummaryStrictlyIncreasing | bulkinvoicer/domain/balances.py:129-135 | Roll-up months are strictly increasing by date. |
| Balances.SummaryKeepsIdentity | bulkinvoicer/domain/balances.py:127-130 | If every row has balance = open + invoiced - received, so does every roll-up month. |
| Balances.SummaryConserves | bulkinvoicer/domain/balances.py:127-136 | Total invoiced and total received over the roll-up equal those over the rows. |
| Balances.MonthlyRollupIdentity | bulkinvoicer/domain/balances.py:85-136 | Every roll-up month of the monthly balances has balance = open + invoiced - received. |
| Summaries.GroupsAreKeyed | bulkinvoicer/domain/summaries.py:20-54 | The per-client aggregates have distinct client keys, so the left joins keep one row per client. |
| Summaries.JoinedAggregate | bulkinvoicer/domain/summaries.py:20-63 | The joined count and total of client c are the count and sum of c's rows, 0 when c has none. |
| Summaries.JoinedInvoices | bulkinvoicer/domain/summaries.py:20-63 | The same for invoice slices. |
| Summaries.JoinedReceipts | bulkinvoicer/domain/summaries.py:38-63 | The same for receipt slices. |
| Summaries.SummaryRows | bulkinvoicer/domain/summaries.py:58-90 | There is one summary row per registry row. |
| Summaries.SummaryColumns | bulkinvoicer/domain/summaries.py:58-83 | Each count and total column is the close aggregate less the open aggregate. |
| Summaries.SummaryFigures | bulkinvoicer/domain/summaries.py:58-89 | The display name falls back to the client key. The four deltas are close less open counts and sums of the client's rows. Opening is open invoiced less open received, and closing likewise on the close slices, so closing = opening + invoiced - received. |
| Summaries.InvoicesInPeriod | bulkinvoicer/domain/summaries.py:20-36 | On period slices, a client's joined invoice count and total deltas are those of its invoices dated in the period. |
| Summaries.ReceiptsInPeriod | bulkinvoicer/domain/summaries.py:38-54 | The same for receipts. |
| Summaries.SummaryInPeriod | bulkinvoicer/domain/summaries.py:72-83 | On period slices, a summary's counts and totals are those of the client's rows dated in the period. |
| Summaries.SummaryOrderIsPreorder | bulkinvoicer/domain/summaries.py:91 | Descending closing balance, then descending invoice total, is a total preorder. |
| Summaries.ClientSummariesShape | bulkinvoicer/domain/summaries.py:58-91 | The output is a permutation of the summary rows, sorted by closing balance then invoice total, both descending. |
| Summaries.SummaryKeySums | bulkinvoicer/domain/summaries.py:72-89 | Each column is a difference of per-client key sums. |
| Summaries.SummaryCountSums | bulkinvoicer/domain/summaries.py:72-77 | The count columns add up to the registry clients' close less open row counts. |
| Summaries.SummaryMoneySums | bulkinvoicer/domain/summaries.py:78-89 | The money columns add up to the registry clients' close less open sums. |
| Summaries.ClientSummariesAddUp | bulkinvoicer/domain/summaries.py:84-91 | Every summary row satisfies closing = opening + invoice_total - receipt_total. |
| Summaries.StatusOf | bulkinvoicer/domain/summaries.py:100-106 | A client is Outstanding iff its closing balance is > 0, Advance iff < 0, and Settled iff 0, so it falls in exactly one bucket. |
| Summaries.BreakdownStatusesPresent | bulkinvoicer/domain/summaries.py:100-112 | The breakdown has one row per status present among the clients, and no other. |
| Summaries.GroupsSum | bulkinvoicer/domain/summaries.py:108-112 | Breakdown client counts and amounts are the per-status key sums. |
| Summaries.BreakdownPartition | bulkinvoicer/domain/summaries.py:100-112 | Bucket counts add up to the number of clients, and bucket amounts to the total closing balance. |
| Summaries.GroupSign | bulkinvoicer/domain/summaries.py:100-112 | A present status has at least one client, and its amount has the status's sign. |
| Summaries.BreakdownSigns | bulkinvoicer/domain/summaries.py:100-112 | Every breakdown row has at least one client. Its amount is positive for Outstanding, negative for Advance and zero for Settled. |
| Summaries.ReportKeyFigures | bulkinvoicer/domain/summaries.py:128-175 | There are four key figures, valued at the column sums, with the counts as notes. Opening and closing read "(Due)" iff > 0, "(Overpaid)" iff < 0, and "" iff 0. |
| Summaries.ReportBalancesAddUp | bulkinvoicer/domain/summaries.py:128-175 | If every summary adds up, closing = opening + invoiced - received in the key figures. |
| Summaries.ReportListsActiveClients | bulkinvoicer/domain/summaries.py:128-183 | The report lists exactly the clients with a non-zero opening, closing, invoice total or receipt total. Their money columns still add up to the key figures. |
| Transactions.SignedInvoices | bulkinvoicer/domain/transactions.py:19-26 | Each invoice becomes an "Invoice" entry with reference = number and amount = total. |
| Transactions.SignedReceipts | bulkinvoicer/domain/transactions.py:27-34 | Each receipt becomes a "Receipt" entry with reference = number and amount = -amount. |
| Transactions.Running | bulkinvoicer/domain/transactions.py:38 | The running pass keeps every entry in place. |
| Transactions.RunningIsPrefix | bulkinvoicer/domain/transactions.py:38 | Row i's balance is the carried balance plus the client's amounts through row i. |
| Transactions.LedgerBalances | bulkinvoicer/domain/transactions.py:16-38 | Over the sorted ledger, each balance is the running sum of its own client's amounts, independent of other clients. |
| Transactions.RunningFilter | bulkinvoicer/domain/transactions.py:38-39 | Filtering after the running sum keeps exactly the in-window entries, with balances carried from the whole history. |
| Transactions.TransactionsWithinBounds | bulkinvoicer/domain/transactions.py:39 | Every output row is dated in [start, end]. |
| Transactions.TransactionsInWindow | bulkinvoicer/domain/transactions.py:16-39 | As a multiset, the output is exactly the signed invoices plus the signed receipts dated in [start, end]. |
| Transactions.TransactionsOrdered | bulkinvoicer/domain/transactions.py:37-39 | Output rows are in non-decreasing date order. |
| Transactions.RunningSign | bulkinvoicer/domain/transactions.py:38 | Running balances over non-negative amounts are non-negative, and over non-positive amounts non-positive. |
| Transactions.InvoiceLedgerSign | bulkinvoicer/domain/transactions.py:16-37 | An invoice-only ledger of non-negative totals has non-negative amounts. |
| Transactions.ReceiptLedgerSign | bulkinvoicer/domain/transactions.py:16-37 | A receipt-only ledger of non-negative receipts has non-positive amounts. |
| Transactions.InvoicesOnlyBalances | bulkinvoicer/domain/transactions.py:16-39 | With only invoices, every balance is non-negative. |
| Transactions.ReceiptsOnlyBalances | bulkinvoicer/domain/transactions.py:16-39 | With only receipts, every balance is non-positive. |
| KeyFigures.FiguresInPeriod | bulkinvoicer/driver.py:894-940 | On period slices, the counts and totals are those of the report slices. Opening and closing are invoiced less received before the start and up to the end. closing = opening + invoiced - received. |
| KeyFigures.ClientFiguresAreSummary | bulkinvoicer/driver.py:894-940 | On the four slices filtered to one client, as the driver calls it (`bulkinvoicer/driver.py:501-510`), the six legacy figures are that client's summary columns: counts, totals, opening and closing balance. No registry condition is needed. |
| KeyFigures.CountsMatch | bulkinvoicer/driver.py:904-905 | With a registry listing every client once, the summary count columns add up to the close-minus-open row counts. |
| KeyFigures.MoneyMatches | bulkinvoicer/driver.py:906-931 | Likewise, the summary money columns add up to the close-minus-open totals and to the opening and closing balances. |
| KeyFigures.SortKeepsColumnSums | bulkinvoicer/domain/summaries.py:91 | Sorting the summaries does not change their column sums. |
| KeyFigures.FiguresMatchSummaries | bulkinvoicer/driver.py:894-940 | With such a registry, the legacy key figures equal the column sums of the client summaries. |

## Left out

- PDF rendering, QR codes, layout, `format_currency`, configuration loading, spreadsheet
  ingestion, file output, the command line and the thread and process pools: none of
  them computes anything the engine's figures depend on.
- Logging: the warnings and info messages have no effect on results. The one error
  path that raises (start after end) is the `StartAfterEnd` result.
- Decimal scale and casts (`cast(pl.Decimal)`, `Decimal(None, decimals)`): money is an
  exact integer of minor units, so rescaling is not modelled.
- Dates must be valid calendar dates (`Dates.Valid`) where month numbers matter. A
  Python `date` always is one.
- `Periods.ReportingPeriodText`: `strftime` is an abstract parameter `format`, so the
  caption is stated in terms of `format(start)` and `format(end)`, not characters.
- `Summaries.BuildSummaryReport`: the "Generated" line takes the clock reading and the
  formatter as parameters. The count notes are kept as a number with its noun
  ("invoices", "receipts") rather than as the rendered text "(n invoices)".
- `Balances.BalanceRow`: the `client_display_name` column of the monthly balances is
  not modelled. It is `first()` of a month's activity rows and has no value on rows
  that come only from the client-month grid. No figure depends on it.
- The transaction ledger's display `date` column is not modelled. It is carried
  alongside `sort_date` and does not take part in any computation.
- `build_client_transactions_df` takes dates, not optional dates. Its only caller
  passes the normalised (always present) window.
- Order Polars does not fix is not asserted:
  - ties within the `sort_date` sort of the ledger;
  - the order of `unique()` clients in the matching loop, modelled as first appearance;
  - the group order of `group_by`, modelled as first appearance;
  - the Categorical sort of statuses, which is left unsorted.
  Where a sort is modelled, it is a stable insertion sort.
- `Matching.MatchPaymentsByClient`: when both inputs are empty, the source returns its
  two input frames unchanged. The model returns two empty output tables, which hold
  the same (no) rows.
- `Summaries.SummaryOf`: `count("number")` counts rows with a non-null number. Numbers
  are never null in the model, so it counts rows. The registry is taken to list each
  client once. With duplicate registry rows the joins would repeat a client, and the
  lemmas that add columns up require unique names.
- `Matching.InvoiceBalances` and `Matching.ReceiptAllocations` require distinct invoice
  or receipt numbers. With duplicate numbers the left joins multiply rows; that case
  is not modelled.
- `Balances.SummarizeBalanceData` requires valid month labels (`Balances.ValidDates`),
  which every row produced by `Balances.ComputeMonthlyClientBalances` has
  (`Balances.MonthlyRollupIdentity`).
