/** Monthly balances: the trailing twelve-month window a statement covers, each
    client's month-by-month balance from inception, and the roll-up of all clients
    per month. */
module Balances {
  import opened Dates
  import opened Tables
  import opened Records

  // ---------------------------------------------------------------------------
  // The window

  /** The first day of the twelve-month window that ends in the month of `end`. */
  function ExpectedStart(end: Date): (s: Date)
    ensures s.day == 1
    ensures Valid(end) ==> Valid(s) && s == FirstOfMonth(MonthIndex(end) - 11)
  {
    if end.month == 12 then Date(end.year, 1, 1) else Date(end.year - 1, end.month + 1, 1)
  }

  /** `normalize_date_period(start_date, end_date)`, with the clock reading `today`
      passed in. The end defaults to today and is otherwise kept; the start defaults
      to the window's first day, is raised to it when earlier, and is otherwise kept. */
  function NormalizeDatePeriod(start: Option<Date>, end: Option<Date>, today: Date): (r: (Date, Date))
    ensures r.1 == (if end.Some? then end.value else today)
    ensures OnOrBefore(ExpectedStart(r.1), r.0)
    ensures start.None? || Before(start.value, ExpectedStart(r.1)) ==> r.0 == ExpectedStart(r.1)
    ensures start.Some? && OnOrBefore(ExpectedStart(r.1), start.value) ==> r.0 == start.value
  {
    var e := if end.Some? then end.value else today;
    var expected := ExpectedStart(e);
    if start.None? then (expected, e)
    else if Before(start.value, expected) then (expected, e)
    else (start.value, e)
  }

  /** The normalised window spans at most twelve calendar months, exactly twelve when
      no start was given; the normaliser does not reject a start after the end. */
  lemma TwelveMonthWindow(start: Option<Date>, end: Option<Date>, today: Date)
    requires Valid(if end.Some? then end.value else today)
    requires start.Some? ==> Valid(start.value)
    ensures var (s, e) := NormalizeDatePeriod(start, end, today);
      && MonthIndex(e) - MonthIndex(s) <= 11
      && (start.None? ==> MonthIndex(e) - MonthIndex(s) == 11 && s.day == 1)
      && (start.Some? && end.Some? && Before(end.value, start.value) ==> (s, e) == (start.value, end.value))
  {
    var (s, e) := NormalizeDatePeriod(start, end, today);
    MonthIndexMonotone(ExpectedStart(e), s);
    if start.Some? && end.Some? && Before(end.value, start.value) {
      MonthIndexMonotone(ExpectedStart(e), e);
      FirstOfMonthOnOrBefore(MonthIndex(e) - 11, e);
      OrderFacts(ExpectedStart(e), e, start.value);
    }
  }

  // ---------------------------------------------------------------------------
  // The client x month table

  /** A (client, calendar month) bucket. */
  datatype MonthKey = MonthKey(client: string, month: int)

  /** One bucket after the joins and `fill_null(0)`. */
  datatype MonthRow = MonthRow(key: MonthKey, invoiced: int, received: int)

  /** One output row: the bucket's first day as `sort_date`. */
  datatype BalanceRow = BalanceRow(client: string, sortDate: Date, open: int, invoiced: int, received: int, balance: int)

  /** Every month index from `lo` to `hi`. */
  function MonthSpan(lo: int, hi: int): (ms: seq<int>)
    ensures forall m :: m in ms <==> lo <= m <= hi
    decreases hi - lo
  {
    if hi < lo then [] else [lo] + MonthSpan(lo + 1, hi)
  }

  /** The month buckets of the daily range from `start` to `end`: every month from the
      start's to the end's, none when the start is after the end. */
  function WindowMonths(start: Date, end: Date): (ms: seq<int>)
    ensures forall m :: m in ms <==> !Before(end, start) && MonthIndex(start) <= m <= MonthIndex(end)
  {
    if Before(end, start) then [] else MonthSpan(MonthIndex(start), MonthIndex(end))
  }

  /** One month bucket for each client. */
  function GridRow(clients: seq<string>, month: int): (keys: seq<MonthKey>)
    ensures forall k :: k in keys <==> k.month == month && k.client in clients
  {
    if clients == [] then [] else [MonthKey(clients[0], month)] + GridRow(clients[1..], month)
  }

  /** The cross join of the month buckets with the clients. */
  function GridKeys(months: seq<int>, clients: seq<string>): (keys: seq<MonthKey>)
    ensures forall k :: k in keys <==> k.month in months && k.client in clients
  {
    if months == [] then [] else GridRow(clients, months[0]) + GridKeys(months[1..], clients)
  }

  function InvoiceKey(i: Invoice): MonthKey { MonthKey(i.client, MonthIndex(i.sortDate)) }
  function ReceiptKey(r: Receipt): MonthKey { MonthKey(r.client, MonthIndex(r.sortDate)) }

  /** The buckets the invoices and receipts fall in (`group_by_dynamic("1mo", group_by="client")`). */
  function ActivityKeys(invoices: seq<Invoice>, receipts: seq<Receipt>): (keys: seq<MonthKey>)
    ensures forall j :: 0 <= j < |invoices| ==> InvoiceKey(invoices[j]) in keys
    ensures forall j :: 0 <= j < |receipts| ==> ReceiptKey(receipts[j]) in keys
  {
    var a := seq(|invoices|, j requires 0 <= j < |invoices| => InvoiceKey(invoices[j]));
    var b := seq(|receipts|, j requires 0 <= j < |receipts| => ReceiptKey(receipts[j]));
    assert forall j :: 0 <= j < |invoices| ==> (a + b)[j] == InvoiceKey(invoices[j]);
    assert forall j :: 0 <= j < |receipts| ==> (a + b)[|a| + j] == ReceiptKey(receipts[j]);
    a + b
  }

  predicate KeyMonthLe(a: MonthKey, b: MonthKey) { a.month <= b.month }

  lemma KeyOrderIsPreorder()
    ensures TotalPreorder(KeyMonthLe)
  {
  }

  /** The buckets of the fully joined table, each once, in month order: every bucket
      with activity (at any time) and every client's bucket in the window. */
  function TableKeys(start: Date, end: Date, invoices: seq<Invoice>, receipts: seq<Receipt>, clients: seq<string>): seq<MonthKey> {
    KeyOrderIsPreorder();
    SortBy(Distinct(ActivityKeys(invoices, receipts) + GridKeys(WindowMonths(start, end), clients)), KeyMonthLe)
  }

  function MonthlyRow(invoices: seq<Invoice>, receipts: seq<Receipt>, k: MonthKey): MonthRow {
    MonthRow(k, KeySum(invoices, InvoiceKey, InvoiceTotal, k), KeySum(receipts, ReceiptKey, ReceiptAmount, k))
  }

  function MonthlyRows(keys: seq<MonthKey>, invoices: seq<Invoice>, receipts: seq<Receipt>): (rows: seq<MonthRow>)
    ensures |rows| == |keys|
    ensures forall j :: 0 <= j < |keys| ==> rows[j] == MonthlyRow(invoices, receipts, keys[j])
  {
    seq(|keys|, j requires 0 <= j < |keys| => MonthlyRow(invoices, receipts, keys[j]))
  }

  /** `(total - amount).cum_sum().over("client")` with `open = balance.shift(1, 0).over("client")`:
      `acc` holds each client's balance so far. */
  function RunningBalances(rows: seq<MonthRow>, acc: map<string, int>): (out: seq<BalanceRow>)
    ensures |out| == |rows|
    decreases |rows|
  {
    if rows == [] then []
    else
      var r := rows[0];
      var open := if r.key.client in acc then acc[r.key.client] else 0;
      var balance := open + (r.invoiced - r.received);
      [BalanceRow(r.key.client, FirstOfMonth(r.key.month), open, r.invoiced, r.received, balance)]
        + RunningBalances(rows[1..], acc[r.key.client := balance])
  }

  function InWindow(start: Date, end: Date): BalanceRow -> bool {
    (r: BalanceRow) => Between(r.sortDate, start, end)
  }

  /** The whole-history table before the window filter. */
  function BalanceTable(start: Date, end: Date, invoices: seq<Invoice>, receipts: seq<Receipt>, clients: seq<string>): seq<BalanceRow> {
    RunningBalances(MonthlyRows(TableKeys(start, end, invoices, receipts, clients), invoices, receipts), map[])
  }

  /** `compute_monthly_client_balances(start_date, end_date, invoices, receipts, clients)` */
  function ComputeMonthlyClientBalances(start: Date, end: Date, invoices: seq<Invoice>, receipts: seq<Receipt>,
                                        clients: seq<string>): seq<BalanceRow> {
    Filter(BalanceTable(start, end, invoices, receipts, clients), InWindow(start, end))
  }

  // ---------------------------------------------------------------------------
  // Running balances are per-client prefix sums

  function Net(r: MonthRow): int { r.invoiced - r.received }

  function ClientRow(c: string): MonthRow -> bool { (r: MonthRow) => r.key.client == c }

  function Carried(acc: map<string, int>, c: string): int { if c in acc then acc[c] else 0 }

  /** One step of the running table: the head row updates the carried balance of its client. */
  lemma RunningStep(rows: seq<MonthRow>, acc: map<string, int>, i: nat)
    requires 0 < i < |rows|
    ensures RunningBalances(rows, acc)[i]
      == RunningBalances(rows[1..], acc[rows[0].key.client := Carried(acc, rows[0].key.client) + Net(rows[0])])[i - 1]
  {
  }

  /** Splitting the client's earlier rows at the head. */
  lemma SumStep(rows: seq<MonthRow>, c: string, i: nat)
    requires 0 < i <= |rows|
    ensures SumBy(Filter(rows[..i], ClientRow(c)), Net)
      == (if rows[0].key.client == c then Net(rows[0]) else 0) + SumBy(Filter(rows[1..][..i - 1], ClientRow(c)), Net)
  {
    assert rows[..i] == [rows[0]] + rows[1..][..i - 1];
    FilterAppend([rows[0]], rows[1..][..i - 1], ClientRow(c));
    SumAppend(Filter([rows[0]], ClientRow(c)), Filter(rows[1..][..i - 1], ClientRow(c)), Net);
  }

  /** What row `i` of the running table holds. */
  ghost predicate RunningFacts(out: BalanceRow, r: MonthRow, open: int) {
    && out.client == r.key.client && out.sortDate == FirstOfMonth(r.key.month)
    && out.invoiced == r.invoiced && out.received == r.received
    && out.open == open
    && out.balance == out.open + out.invoiced - out.received
  }

  /** Carrying the head row's movement changes only its own client's balance. */
  lemma CarriedStep(acc: map<string, int>, r: MonthRow, c: string)
    ensures Carried(acc[r.key.client := Carried(acc, r.key.client) + Net(r)], c)
         == Carried(acc, c) + (if r.key.client == c then Net(r) else 0)
  {
  }

  /** The induction step of `RunningRow`: row `i` of the table from the head is row
      `i - 1` of the table from the second row. */
  lemma RunningRowStep(rows: seq<MonthRow>, acc: map<string, int>, acc': map<string, int>, i: nat)
    requires 0 < i < |rows|
    requires acc' == acc[rows[0].key.client := Carried(acc, rows[0].key.client) + Net(rows[0])]
    requires RunningFacts(RunningBalances(rows[1..], acc')[i - 1], rows[i],
                          Carried(acc', rows[i].key.client) + SumBy(Filter(rows[1..][..i - 1], ClientRow(rows[i].key.client)), Net))
    ensures RunningFacts(RunningBalances(rows, acc)[i], rows[i],
                         Carried(acc, rows[i].key.client) + SumBy(Filter(rows[..i], ClientRow(rows[i].key.client)), Net))
  {
    RunningStep(rows, acc, i);
    SumStep(rows, rows[i].key.client, i);
    CarriedStep(acc, rows[0], rows[i].key.client);
  }

  /** Row `i` of the running table: its bucket's label and sums, an opening balance equal
      to what was carried in plus the client's earlier net movements, and a closing
      balance equal to the opening plus this month's net movement. */
  lemma {:induction false} RunningRow(rows: seq<MonthRow>, acc: map<string, int>, i: nat)
    requires i < |rows|
    ensures RunningFacts(RunningBalances(rows, acc)[i], rows[i],
                         Carried(acc, rows[i].key.client) + SumBy(Filter(rows[..i], ClientRow(rows[i].key.client)), Net))
    decreases i
  {
    if i > 0 {
      var acc' := acc[rows[0].key.client := Carried(acc, rows[0].key.client) + Net(rows[0])];
      RunningRow(rows[1..], acc', i - 1);
      assert rows[1..][i - 1] == rows[i];
      RunningRowStep(rows, acc, acc', i);
    } else {
      assert rows[..0] == [];
    }
  }

  /** The opening balance of a row is the client's net movement before that row. */
  lemma OpenIsPrefixSum(rows: seq<MonthRow>, i: nat)
    requires i < |rows|
    ensures RunningBalances(rows, map[])[i].open == SumBy(Filter(rows[..i], ClientRow(rows[i].key.client)), Net)
  {
    RunningRow(rows, map[], i);
  }

  /** Extending the client's earlier rows by row `i`. */
  lemma SumThrough(rows: seq<MonthRow>, i: nat)
    requires i < |rows|
    ensures SumBy(Filter(rows[..i + 1], ClientRow(rows[i].key.client)), Net)
      == SumBy(Filter(rows[..i], ClientRow(rows[i].key.client)), Net) + Net(rows[i])
  {
    var c := rows[i].key.client;
    assert rows[..i + 1] == rows[..i] + [rows[i]];
    FilterAppend(rows[..i], [rows[i]], ClientRow(c));
    SumAppend(Filter(rows[..i], ClientRow(c)), Filter([rows[i]], ClientRow(c)), Net);
  }

  /** The closing balance of a row is the client's net movement through that row. */
  lemma BalanceIsPrefixSum(rows: seq<MonthRow>, i: nat)
    requires i < |rows|
    ensures RunningBalances(rows, map[])[i].balance == SumBy(Filter(rows[..i + 1], ClientRow(rows[i].key.client)), Net)
  {
    RunningRow(rows, map[], i);
    SumThrough(rows, i);
  }

  /** No row of the client between `i` and `j`: its movements through `i` are those before `j`. */
  lemma SkipOtherClients(rows: seq<MonthRow>, c: string, i: nat, j: nat)
    requires i < j <= |rows|
    requires forall k :: i < k < j ==> rows[k].key.client != c
    ensures SumBy(Filter(rows[..j], ClientRow(c)), Net) == SumBy(Filter(rows[..i + 1], ClientRow(c)), Net)
  {
    assert rows[..j] == rows[..i + 1] + rows[i + 1..j];
    FilterAppend(rows[..i + 1], rows[i + 1..j], ClientRow(c));
    FilterNone(rows[i + 1..j], ClientRow(c));
    assert Filter(rows[..i + 1], ClientRow(c)) + [] == Filter(rows[..i + 1], ClientRow(c));
  }

  /** A client's opening balance in a month is its closing balance in its previous row. */
  lemma OpenIsPreviousBalance(rows: seq<MonthRow>, i: nat, j: nat)
    requires i < j < |rows|
    requires rows[i].key.client == rows[j].key.client
    requires forall k :: i < k < j ==> rows[k].key.client != rows[j].key.client
    ensures RunningBalances(rows, map[])[j].open == RunningBalances(rows, map[])[i].balance
  {
    SkipOtherClients(rows, rows[j].key.client, i, j);
    BalanceIsPrefixSum(rows, i);
    OpenIsPrefixSum(rows, j);
  }

  // ---------------------------------------------------------------------------
  // Balances from inception

  function ClientKey(c: string): MonthKey -> bool { (k: MonthKey) => k.client == c }

  /** Rows of client `c` dated in month `m` or earlier. */
  function Through<T>(key: T -> MonthKey, c: string, m: int): T -> bool {
    (x: T) => key(x).client == c && key(x).month <= m
  }

  /** What client `c` has been invoiced less what it has paid, through month `m`. */
  function BalanceThrough(invoices: seq<Invoice>, receipts: seq<Receipt>, c: string, m: int): int {
    SumBy(Filter(invoices, Through(InvoiceKey, c, m)), InvoiceTotal)
      - SumBy(Filter(receipts, Through(ReceiptKey, c, m)), ReceiptAmount)
  }

  /** The head row's share of a client's net movement. */
  lemma NetHead(rows: seq<MonthRow>, c: string)
    requires rows != []
    ensures SumBy(Filter(rows, ClientRow(c)), Net)
      == (if rows[0].key.client == c then Net(rows[0]) else 0) + SumBy(Filter(rows[1..], ClientRow(c)), Net)
  {
    assert rows == [rows[0]] + rows[1..];
    FilterAppend([rows[0]], rows[1..], ClientRow(c));
    SumAppend(Filter([rows[0]], ClientRow(c)), Filter(rows[1..], ClientRow(c)), Net);
  }

  /** The head bucket's share of a client's bucket sums. */
  lemma KeysSumHead<T>(keys: seq<MonthKey>, c: string, s: seq<T>, key: T -> MonthKey, f: T -> int)
    requires keys != []
    ensures KeysSum(Filter(keys, ClientKey(c)), s, key, f)
      == (if keys[0].client == c then KeySum(s, key, f, keys[0]) else 0) + KeysSum(Filter(keys[1..], ClientKey(c)), s, key, f)
  {
    var tail := Filter(keys[1..], ClientKey(c));
    if keys[0].client == c {
      assert ([keys[0]] + tail)[1..] == tail;
    } else {
      assert [] + tail == tail;
    }
  }

  /** A client's net movement over table rows is the sum of its buckets' sums. */
  lemma {:induction false} RowsNet(keys: seq<MonthKey>, invoices: seq<Invoice>, receipts: seq<Receipt>, c: string)
    ensures SumBy(Filter(MonthlyRows(keys, invoices, receipts), ClientRow(c)), Net)
      == KeysSum(Filter(keys, ClientKey(c)), invoices, InvoiceKey, InvoiceTotal)
         - KeysSum(Filter(keys, ClientKey(c)), receipts, ReceiptKey, ReceiptAmount)
  {
    if keys != [] {
      var rows := MonthlyRows(keys, invoices, receipts);
      RowsNet(keys[1..], invoices, receipts, c);
      assert rows[1..] == MonthlyRows(keys[1..], invoices, receipts);
      NetHead(rows, c);
      KeysSumHead(keys, c, invoices, InvoiceKey, InvoiceTotal);
      KeysSumHead(keys, c, receipts, ReceiptKey, ReceiptAmount);
    }
  }

  /** On distinct month-ordered buckets, the client's buckets before row `n` are its
      buckets up to the month of row `i` (`n == i + 1`) or before it (`n == i`). */
  lemma PrefixBucket(keys: seq<MonthKey>, i: nat, n: nat, k: MonthKey)
    requires i < |keys| && (n == i || n == i + 1)
    requires Unique(keys) && SortedBy(keys, KeyMonthLe)
    requires k in keys
    ensures k in Filter(keys[..n], ClientKey(keys[i].client))
      <==> k.client == keys[i].client && k.month <= (if n == i then keys[i].month - 1 else keys[i].month)
  {
    var c, m := keys[i].client, keys[i].month;
    var bound := if n == i then m - 1 else m;
    var j :| 0 <= j < |keys| && keys[j] == k;
    if k in Filter(keys[..n], ClientKey(c)) {
      var q :| 0 <= q < n && keys[..n][q] == k;
      if q < i {
        assert KeyMonthLe(keys[q], keys[i]);
        assert keys[q] != keys[i];
      }
    }
    if k.client == c && k.month <= bound {
      if j > i {
        assert false;
      }
      assert j < n;
      assert keys[..n][j] == k;
    }
  }

  /** The rows whose bucket is one of the client's buckets before row `n` are the
      client's rows through the bound. */
  lemma PrefixBuckets<T>(keys: seq<MonthKey>, s: seq<T>, key: T -> MonthKey, i: nat, n: nat)
    requires i < |keys| && (n == i || n == i + 1)
    requires Unique(keys) && SortedBy(keys, KeyMonthLe)
    requires forall j :: 0 <= j < |s| ==> key(s[j]) in keys
    ensures Filter(s, KeyIn(key, Filter(keys[..n], ClientKey(keys[i].client))))
         == Filter(s, Through(key, keys[i].client, if n == i then keys[i].month - 1 else keys[i].month))
  {
    var ks := Filter(keys[..n], ClientKey(keys[i].client));
    var through := Through(key, keys[i].client, if n == i then keys[i].month - 1 else keys[i].month);
    forall x | x in s ensures KeyIn(key, ks)(x) <==> through(x) {
      PrefixBucket(keys, i, n, key(x));
    }
    FilterCongruent(s, KeyIn(key, ks), through);
  }

  /** The table's buckets: each once, in month order, covering every row's bucket and
      every client's bucket in the window, and nothing else. */
  lemma TableKeysFacts(start: Date, end: Date, invoices: seq<Invoice>, receipts: seq<Receipt>, clients: seq<string>)
    ensures var keys := TableKeys(start, end, invoices, receipts, clients);
      && Unique(keys) && SortedBy(keys, KeyMonthLe)
      && (forall j :: 0 <= j < |invoices| ==> InvoiceKey(invoices[j]) in keys)
      && (forall j :: 0 <= j < |receipts| ==> ReceiptKey(receipts[j]) in keys)
      && (forall k :: k in keys <==> k in ActivityKeys(invoices, receipts) || k in GridKeys(WindowMonths(start, end), clients))
  {
    KeyOrderIsPreorder();
    var all := ActivityKeys(invoices, receipts) + GridKeys(WindowMonths(start, end), clients);
    var d := Distinct(all);
    var keys := SortBy(d, KeyMonthLe);
    var id := (k: MonthKey) => k;
    SortKeepsKeysDistinct(d, KeyMonthLe, id);
    assert forall k :: k in keys <==> k in d by {
      forall k ensures k in keys <==> k in d {
        assert k in keys <==> k in multiset(keys);
        assert k in d <==> k in multiset(d);
      }
    }
    assert forall k :: k in d <==> k in all;
  }

  /** A client's buckets among the first `n` are distinct. */
  lemma ClientPrefixUnique(keys: seq<MonthKey>, n: nat, c: string)
    requires n <= |keys| && Unique(keys)
    ensures Unique(Filter(keys[..n], ClientKey(c)))
  {
    var id := (k: MonthKey) => k;
    assert KeysDistinct(keys[..n], id);
    FilterKeepsKeysDistinct(keys[..n], ClientKey(c), id);
  }

  /** A client's net movement over the table rows before row `n` is its balance
      through the bound month. */
  lemma PrefixNet(keys: seq<MonthKey>, invoices: seq<Invoice>, receipts: seq<Receipt>, i: nat, n: nat)
    requires i < |keys| && (n == i || n == i + 1)
    requires Unique(keys) && SortedBy(keys, KeyMonthLe)
    requires forall j :: 0 <= j < |invoices| ==> InvoiceKey(invoices[j]) in keys
    requires forall j :: 0 <= j < |receipts| ==> ReceiptKey(receipts[j]) in keys
    ensures SumBy(Filter(MonthlyRows(keys, invoices, receipts)[..n], ClientRow(keys[i].client)), Net)
      == BalanceThrough(invoices, receipts, keys[i].client, if n == i then keys[i].month - 1 else keys[i].month)
  {
    PrefixRowsNet(keys, invoices, receipts, n, keys[i].client);
    PrefixBuckets(keys, invoices, InvoiceKey, i, n);
    PrefixBuckets(keys, receipts, ReceiptKey, i, n);
  }

  /** A client's net movement over the first `n` table rows is what its buckets among
      the first `n` hold. */
  lemma PrefixRowsNet(keys: seq<MonthKey>, invoices: seq<Invoice>, receipts: seq<Receipt>, n: nat, c: string)
    requires n <= |keys| && Unique(keys)
    ensures var ks := Filter(keys[..n], ClientKey(c));
      SumBy(Filter(MonthlyRows(keys, invoices, receipts)[..n], ClientRow(c)), Net)
      == SumBy(Filter(invoices, KeyIn(InvoiceKey, ks)), InvoiceTotal)
         - SumBy(Filter(receipts, KeyIn(ReceiptKey, ks)), ReceiptAmount)
  {
    var ks := Filter(keys[..n], ClientKey(c));
    assert MonthlyRows(keys, invoices, receipts)[..n] == MonthlyRows(keys[..n], invoices, receipts);
    RowsNet(keys[..n], invoices, receipts, c);
    ClientPrefixUnique(keys, n, c);
    Regroup(ks, invoices, InvoiceKey, InvoiceTotal);
    Regroup(ks, receipts, ReceiptKey, ReceiptAmount);
  }

  /** What a row of the whole-history table states: its month's sums, and opening and
      closing balances equal to everything invoiced less everything received before
      and through that month. */
  ghost predicate FromInception(r: BalanceRow, invoices: seq<Invoice>, receipts: seq<Receipt>) {
    var c, m := r.client, MonthIndex(r.sortDate);
    && Valid(r.sortDate) && r.sortDate.day == 1
    && r.balance == r.open + r.invoiced - r.received
    && r.invoiced == KeySum(invoices, InvoiceKey, InvoiceTotal, MonthKey(c, m))
    && r.received == KeySum(receipts, ReceiptKey, ReceiptAmount, MonthKey(c, m))
    && r.open == BalanceThrough(invoices, receipts, c, m - 1)
    && r.balance == BalanceThrough(invoices, receipts, c, m)
  }

  /** A row labelled with month `m` of client `c`, carrying that month's sums and the
      balances through the month before and through the month, is a row from inception. */
  lemma FromInceptionAt(r: BalanceRow, c: string, m: int, invoices: seq<Invoice>, receipts: seq<Receipt>)
    requires r.client == c && r.sortDate == FirstOfMonth(m)
    requires r.invoiced == KeySum(invoices, InvoiceKey, InvoiceTotal, MonthKey(c, m))
    requires r.received == KeySum(receipts, ReceiptKey, ReceiptAmount, MonthKey(c, m))
    requires r.open == BalanceThrough(invoices, receipts, c, m - 1)
    requires r.balance == BalanceThrough(invoices, receipts, c, m)
    requires r.balance == r.open + r.invoiced - r.received
    ensures FromInception(r, invoices, receipts)
  {
    assert MonthIndex(r.sortDate) == m;
    BalanceThroughSameMonth(invoices, receipts, c, MonthIndex(r.sortDate) - 1, m - 1);
  }

  lemma BalanceThroughSameMonth(invoices: seq<Invoice>, receipts: seq<Receipt>, c: string, a: int, b: int)
    requires a == b
    ensures BalanceThrough(invoices, receipts, c, a) == BalanceThrough(invoices, receipts, c, b)
  {
  }

  /** Bucket `i`'s label, sums and balances make a row from inception. */
  lemma FromInceptionIntro(r: BalanceRow, keys: seq<MonthKey>, invoices: seq<Invoice>, receipts: seq<Receipt>, i: nat)
    requires i < |keys|
    requires r.client == keys[i].client && r.sortDate == FirstOfMonth(keys[i].month)
    requires r.invoiced == KeySum(invoices, InvoiceKey, InvoiceTotal, MonthKey(keys[i].client, keys[i].month))
    requires r.received == KeySum(receipts, ReceiptKey, ReceiptAmount, MonthKey(keys[i].client, keys[i].month))
    requires r.open == BalanceThrough(invoices, receipts, keys[i].client, keys[i].month - 1)
    requires r.balance == BalanceThrough(invoices, receipts, keys[i].client, keys[i].month)
    requires r.balance == r.open + r.invoiced - r.received
    ensures FromInception(r, invoices, receipts)
  {
    FromInceptionAt(r, keys[i].client, keys[i].month, invoices, receipts);
  }

  /** The opening balance of row `i` is the client's balance through the previous month. */
  lemma RunningOpen(keys: seq<MonthKey>, invoices: seq<Invoice>, receipts: seq<Receipt>, i: nat)
    requires i < |keys|
    requires Unique(keys) && SortedBy(keys, KeyMonthLe)
    requires forall j :: 0 <= j < |invoices| ==> InvoiceKey(invoices[j]) in keys
    requires forall j :: 0 <= j < |receipts| ==> ReceiptKey(receipts[j]) in keys
    ensures RunningBalances(MonthlyRows(keys, invoices, receipts), map[])[i].open
      == BalanceThrough(invoices, receipts, keys[i].client, keys[i].month - 1)
  {
    OpenIsPrefixSum(MonthlyRows(keys, invoices, receipts), i);
    PrefixNet(keys, invoices, receipts, i, i);
  }

  /** The closing balance of row `i` is the client's balance through its month. */
  lemma RunningClose(keys: seq<MonthKey>, invoices: seq<Invoice>, receipts: seq<Receipt>, i: nat)
    requires i < |keys|
    requires Unique(keys) && SortedBy(keys, KeyMonthLe)
    requires forall j :: 0 <= j < |invoices| ==> InvoiceKey(invoices[j]) in keys
    requires forall j :: 0 <= j < |receipts| ==> ReceiptKey(receipts[j]) in keys
    ensures RunningBalances(MonthlyRows(keys, invoices, receipts), map[])[i].balance
      == BalanceThrough(invoices, receipts, keys[i].client, keys[i].month)
  {
    BalanceIsPrefixSum(MonthlyRows(keys, invoices, receipts), i);
    PrefixNet(keys, invoices, receipts, i, i + 1);
  }

  /** Row `i` of the running table carries bucket `i` and its month's sums. */
  lemma RunningLabel(keys: seq<MonthKey>, invoices: seq<Invoice>, receipts: seq<Receipt>, i: nat)
    requires i < |keys|
    ensures var r := RunningBalances(MonthlyRows(keys, invoices, receipts), map[])[i];
      && r.client == keys[i].client && r.sortDate == FirstOfMonth(keys[i].month)
      && MonthIndex(r.sortDate) == keys[i].month
      && r.balance == r.open + r.invoiced - r.received
      && r.invoiced == KeySum(invoices, InvoiceKey, InvoiceTotal, MonthKey(keys[i].client, keys[i].month))
      && r.received == KeySum(receipts, ReceiptKey, ReceiptAmount, MonthKey(keys[i].client, keys[i].month))
  {
    RunningRow(MonthlyRows(keys, invoices, receipts), map[], i);
    assert keys[i] == MonthKey(keys[i].client, keys[i].month);
  }

  /** Row `i` of the running table over distinct month-ordered buckets that hold every
      row's bucket: bucket `i`, with balances from inception. */
  lemma RunningFromInception(keys: seq<MonthKey>, invoices: seq<Invoice>, receipts: seq<Receipt>, i: nat)
    requires i < |keys|
    requires Unique(keys) && SortedBy(keys, KeyMonthLe)
    requires forall j :: 0 <= j < |invoices| ==> InvoiceKey(invoices[j]) in keys
    requires forall j :: 0 <= j < |receipts| ==> ReceiptKey(receipts[j]) in keys
    ensures var r := RunningBalances(MonthlyRows(keys, invoices, receipts), map[])[i];
      && r.client == keys[i].client && r.sortDate == FirstOfMonth(keys[i].month)
      && FromInception(r, invoices, receipts)
  {
    var r := RunningBalances(MonthlyRows(keys, invoices, receipts), map[])[i];
    RunningLabel(keys, invoices, receipts, i);
    RunningOpen(keys, invoices, receipts, i);
    RunningClose(keys, invoices, receipts, i);
    FromInceptionIntro(r, keys, invoices, receipts, i);
  }

  /** Row `i` of the whole-history table is bucket `i`, with balances from inception. */
  lemma TableRow(start: Date, end: Date, invoices: seq<Invoice>, receipts: seq<Receipt>, clients: seq<string>, i: nat)
    requires i < |TableKeys(start, end, invoices, receipts, clients)|
    ensures var keys, r := TableKeys(start, end, invoices, receipts, clients), BalanceTable(start, end, invoices, receipts, clients)[i];
      && r.client == keys[i].client && r.sortDate == FirstOfMonth(keys[i].month)
      && FromInception(r, invoices, receipts)
  {
    TableKeysFacts(start, end, invoices, receipts, clients);
    RunningFromInception(TableKeys(start, end, invoices, receipts, clients), invoices, receipts, i);
  }

  // ---------------------------------------------------------------------------
  // The windowed table

  /** Every row `compute_monthly_client_balances` returns lies in the window and is a
      month bucket with that month's sums and its balances from inception. */
  lemma MonthlyRowsFromInception(start: Date, end: Date, invoices: seq<Invoice>, receipts: seq<Receipt>, clients: seq<string>)
    ensures forall r :: r in ComputeMonthlyClientBalances(start, end, invoices, receipts, clients) ==>
      Between(r.sortDate, start, end) && FromInception(r, invoices, receipts)
  {
    var table := BalanceTable(start, end, invoices, receipts, clients);
    forall r | r in ComputeMonthlyClientBalances(start, end, invoices, receipts, clients)
      ensures Between(r.sortDate, start, end) && FromInception(r, invoices, receipts)
    {
      var i :| 0 <= i < |table| && table[i] == r;
      TableRow(start, end, invoices, receipts, clients, i);
    }
  }

  function RowBucket(r: BalanceRow): MonthKey { MonthKey(r.client, MonthIndex(r.sortDate)) }

  predicate RowDateLe(a: BalanceRow, b: BalanceRow) { OnOrBefore(a.sortDate, b.sortDate) }

  /** Row `i` of the whole-history table is labelled with bucket `i`. */
  lemma TableBucket(start: Date, end: Date, invoices: seq<Invoice>, receipts: seq<Receipt>, clients: seq<string>, i: nat)
    requires i < |TableKeys(start, end, invoices, receipts, clients)|
    ensures var keys, r := TableKeys(start, end, invoices, receipts, clients), BalanceTable(start, end, invoices, receipts, clients)[i];
      RowBucket(r) == keys[i] && r.sortDate == FirstOfMonth(keys[i].month)
  {
    RunningLabel(TableKeys(start, end, invoices, receipts, clients), invoices, receipts, i);
  }

  /** The whole-history table has one row per bucket, in month order. */
  lemma TableShape(start: Date, end: Date, invoices: seq<Invoice>, receipts: seq<Receipt>, clients: seq<string>)
    ensures var table := BalanceTable(start, end, invoices, receipts, clients);
      KeysDistinct(table, RowBucket) && SortedBy(table, RowDateLe)
  {
    var keys := TableKeys(start, end, invoices, receipts, clients);
    var table := BalanceTable(start, end, invoices, receipts, clients);
    TableKeysFacts(start, end, invoices, receipts, clients);
    forall a, b | 0 <= a < b < |table|
      ensures RowBucket(table[a]) != RowBucket(table[b]) && RowDateLe(table[a], table[b])
    {
      TableBucket(start, end, invoices, receipts, clients, a);
      TableBucket(start, end, invoices, receipts, clients, b);
      assert KeyMonthLe(keys[a], keys[b]);
      MonthIndexMonotone(FirstOfMonth(keys[a].month), FirstOfMonth(keys[b].month));
    }
  }

  /** The returned rows: one per bucket, in date order. */
  lemma MonthlyRowsOrdered(start: Date, end: Date, invoices: seq<Invoice>, receipts: seq<Receipt>, clients: seq<string>)
    ensures var out := ComputeMonthlyClientBalances(start, end, invoices, receipts, clients);
      KeysDistinct(out, RowBucket) && SortedBy(out, RowDateLe)
  {
    var table := BalanceTable(start, end, invoices, receipts, clients);
    TableShape(start, end, invoices, receipts, clients);
    FilterKeepsKeysDistinct(table, InWindow(start, end), RowBucket);
    FilterSorted(table, RowDateLe, InWindow(start, end));
  }

  /** A month of the window holds a bucket for every registered or active client. */
  lemma WindowKeyListed(start: Date, end: Date, invoices: seq<Invoice>, receipts: seq<Receipt>, clients: seq<string>,
                        c: string, m: int)
    requires Valid(start) && Valid(end)
    requires Between(FirstOfMonth(m), start, end)
    requires c in clients || MonthKey(c, m) in ActivityKeys(invoices, receipts)
    ensures MonthKey(c, m) in TableKeys(start, end, invoices, receipts, clients)
  {
    var f := FirstOfMonth(m);
    MonthIndexMonotone(start, f);
    MonthIndexMonotone(f, end);
    OrderFacts(start, f, end);
    OrderFacts(end, start, f);
    assert m in WindowMonths(start, end);
    TableKeysFacts(start, end, invoices, receipts, clients);
  }

  /** Every client, and every client with activity, has a row for every month of the
      window (zero-filled when nothing happened that month). */
  lemma MonthlyRowsCover(start: Date, end: Date, invoices: seq<Invoice>, receipts: seq<Receipt>, clients: seq<string>,
                         c: string, m: int)
    requires Valid(start) && Valid(end)
    requires Between(FirstOfMonth(m), start, end)
    requires c in clients || MonthKey(c, m) in ActivityKeys(invoices, receipts)
    ensures exists r :: (r in ComputeMonthlyClientBalances(start, end, invoices, receipts, clients)
      && r.client == c && r.sortDate == FirstOfMonth(m))
  {
    var keys := TableKeys(start, end, invoices, receipts, clients);
    var table := BalanceTable(start, end, invoices, receipts, clients);
    WindowKeyListed(start, end, invoices, receipts, clients, c, m);
    var i :| 0 <= i < |keys| && keys[i] == MonthKey(c, m);
    TableBucket(start, end, invoices, receipts, clients, i);
    assert InWindow(start, end)(table[i]);
    assert table[i] in ComputeMonthlyClientBalances(start, end, invoices, receipts, clients);
  }

  /** With a start after the first of its month the start month has no row: the window
      filter compares the first-of-month label with the start day. */
  lemma StartMonthDropped(start: Date, end: Date, invoices: seq<Invoice>, receipts: seq<Receipt>, clients: seq<string>)
    requires Valid(start) && start.day > 1
    ensures forall r :: r in ComputeMonthlyClientBalances(start, end, invoices, receipts, clients) ==>
      MonthIndex(r.sortDate) != MonthIndex(start)
  {
    MonthlyRowsFromInception(start, end, invoices, receipts, clients);
  }

  // ---------------------------------------------------------------------------
  // The all-clients roll-up

  /** One month of the roll-up: the columns summed over all clients, and the month's last day. */
  datatype MonthSummary = MonthSummary(sortDate: Date, open: int, invoiced: int, received: int, balance: int, closeDate: Date)

  function RowDate(r: BalanceRow): Date { r.sortDate }
  function RowOpen(r: BalanceRow): int { r.open }
  function RowInvoiced(r: BalanceRow): int { r.invoiced }
  function RowReceived(r: BalanceRow): int { r.received }
  function RowBalance(r: BalanceRow): int { r.balance }

  function SummaryDate(m: MonthSummary): Date { m.sortDate }
  function SummaryInvoiced(m: MonthSummary): int { m.invoiced }
  function SummaryReceived(m: MonthSummary): int { m.received }

  ghost predicate ValidDates(rows: seq<BalanceRow>) {
    forall j :: 0 <= j < |rows| ==> Valid(rows[j].sortDate)
  }

  /** The month labels, each once (`group_by("sort_date")`). */
  function MonthLabels(rows: seq<BalanceRow>): (ds: seq<Date>)
    requires ValidDates(rows)
    ensures Unique(ds)
    ensures forall j :: 0 <= j < |rows| ==> rows[j].sortDate in ds
    ensures forall j :: 0 <= j < |ds| ==> Valid(ds[j]) && exists k :: 0 <= k < |rows| && rows[k].sortDate == ds[j]
  {
    var labels := seq(|rows|, j requires 0 <= j < |rows| => rows[j].sortDate);
    assert forall j :: 0 <= j < |rows| ==> labels[j] == rows[j].sortDate;
    Distinct(labels)
  }

  /** One group: every column summed over the rows labelled `d`. */
  function MonthTotals(rows: seq<BalanceRow>, d: Date): MonthSummary
    requires Valid(d)
  {
    MonthSummary(d, KeySum(rows, RowDate, RowOpen, d), KeySum(rows, RowDate, RowInvoiced, d),
                 KeySum(rows, RowDate, RowReceived, d), KeySum(rows, RowDate, RowBalance, d), MonthEnd(d))
  }

  function Grouped(rows: seq<BalanceRow>, ds: seq<Date>): (g: seq<MonthSummary>)
    requires forall j :: 0 <= j < |ds| ==> Valid(ds[j])
    ensures |g| == |ds|
    ensures forall j :: 0 <= j < |ds| ==> g[j] == MonthTotals(rows, ds[j])
  {
    seq(|ds|, j requires 0 <= j < |ds| => MonthTotals(rows, ds[j]))
  }

  function HasMovement(): MonthSummary -> bool { (m: MonthSummary) => m.invoiced != 0 || m.received != 0 }

  function NoMovement(): MonthSummary -> bool { (m: MonthSummary) => m.invoiced == 0 && m.received == 0 }

  predicate SummaryDateLe(a: MonthSummary, b: MonthSummary) { OnOrBefore(a.sortDate, b.sortDate) }

  lemma SummaryOrderIsPreorder()
    ensures TotalPreorder(SummaryDateLe)
  {
    forall a: MonthSummary, b: MonthSummary, c: MonthSummary {
      OrderFacts(a.sortDate, b.sortDate, c.sortDate);
    }
  }

  /** `summarize_balance_data(df_balance)` */
  function SummarizeBalanceData(rows: seq<BalanceRow>): seq<MonthSummary>
    requires ValidDates(rows)
  {
    SummaryOrderIsPreorder();
    SortBy(Filter(Grouped(rows, MonthLabels(rows)), HasMovement()), SummaryDateLe)
  }

  /** A roll-up month: a real month label, its month end, and every column summed over
      the rows of that month. */
  ghost predicate RollupMonth(m: MonthSummary, rows: seq<BalanceRow>) {
    && Valid(m.sortDate) && m.closeDate == MonthEnd(m.sortDate)
    && m.open == KeySum(rows, RowDate, RowOpen, m.sortDate)
    && m.invoiced == KeySum(rows, RowDate, RowInvoiced, m.sortDate)
    && m.received == KeySum(rows, RowDate, RowReceived, m.sortDate)
    && m.balance == KeySum(rows, RowDate, RowBalance, m.sortDate)
  }

  /** A month kept by the roll-up of groups `ds` is one of those groups, with movement. */
  lemma SelectedGroup(rows: seq<BalanceRow>, ds: seq<Date>, m: MonthSummary)
    requires forall j :: 0 <= j < |ds| ==> Valid(ds[j])
    requires TotalPreorder(SummaryDateLe)
    requires m in SortBy(Filter(Grouped(rows, ds), HasMovement()), SummaryDateLe)
    ensures exists j :: 0 <= j < |ds| && m == MonthTotals(rows, ds[j])
    ensures m.invoiced != 0 || m.received != 0
  {
    var g := Grouped(rows, ds);
    SortedSelectionMember(g, HasMovement(), SummaryDateLe, m);
    var j :| 0 <= j < |g| && g[j] == m;
    assert m == MonthTotals(rows, ds[j]);
  }

  /** A roll-up month is one of the grouped months that has movement. */
  lemma SummaryMember(rows: seq<BalanceRow>, m: MonthSummary)
    requires ValidDates(rows)
    requires m in SummarizeBalanceData(rows)
    ensures exists j :: 0 <= j < |MonthLabels(rows)| && m == MonthTotals(rows, MonthLabels(rows)[j])
    ensures m.invoiced != 0 || m.received != 0
  {
    SummaryOrderIsPreorder();
    SelectedGroup(rows, MonthLabels(rows), m);
  }

  /** Each roll-up month has movement, is the label of some input row, and carries every
      column summed over the rows of that month. */
  lemma SummaryRows(rows: seq<BalanceRow>)
    requires ValidDates(rows)
    ensures forall m :: m in SummarizeBalanceData(rows) ==>
      && (m.invoiced != 0 || m.received != 0)
      && (exists k :: 0 <= k < |rows| && rows[k].sortDate == m.sortDate)
      && RollupMonth(m, rows)
  {
    var ds := MonthLabels(rows);
    forall m | m in SummarizeBalanceData(rows)
      ensures && (m.invoiced != 0 || m.received != 0)
              && (exists k :: 0 <= k < |rows| && rows[k].sortDate == m.sortDate)
              && RollupMonth(m, rows)
    {
      SummaryMember(rows, m);
      var j :| 0 <= j < |ds| && m == MonthTotals(rows, ds[j]);
    }
  }

  /** Every month with movement is in the roll-up. */
  lemma SummaryCovers(rows: seq<BalanceRow>, k: nat)
    requires ValidDates(rows) && k < |rows|
    requires KeySum(rows, RowDate, RowInvoiced, rows[k].sortDate) != 0 || KeySum(rows, RowDate, RowReceived, rows[k].sortDate) != 0
    ensures exists m :: m in SummarizeBalanceData(rows) && m.sortDate == rows[k].sortDate
  {
    var ds := MonthLabels(rows);
    var g := Grouped(rows, ds);
    var kept := Filter(g, HasMovement());
    var j :| 0 <= j < |ds| && ds[j] == rows[k].sortDate;
    assert HasMovement()(g[j]);
    SummaryOrderIsPreorder();
    SortedSelectionHas(g, HasMovement(), SummaryDateLe, g[j]);
  }

  /** The roll-up's months strictly increase. */
  lemma SummaryStrictlyIncreasing(rows: seq<BalanceRow>)
    requires ValidDates(rows)
    ensures var out := SummarizeBalanceData(rows);
      forall a, b :: 0 <= a < b < |out| ==> Before(out[a].sortDate, out[b].sortDate)
  {
    var ds := MonthLabels(rows);
    var g := Grouped(rows, ds);
    var kept := Filter(g, HasMovement());
    var out := SummarizeBalanceData(rows);
    SummaryOrderIsPreorder();
    assert KeysDistinct(g, SummaryDate);
    FilterKeepsKeysDistinct(g, HasMovement(), SummaryDate);
    SortKeepsKeysDistinct(kept, SummaryDateLe, SummaryDate);
    forall a, b | 0 <= a < b < |out| ensures Before(out[a].sortDate, out[b].sortDate) {
      assert SummaryDateLe(out[a], out[b]);
      assert SummaryDate(out[a]) != SummaryDate(out[b]);
      OrderFacts(out[a].sortDate, out[b].sortDate, out[b].sortDate);
    }
  }

  /** When every row has closing = opening + invoiced - received, so has every roll-up month. */
  lemma SummaryKeepsIdentity(rows: seq<BalanceRow>)
    requires ValidDates(rows)
    requires forall j :: 0 <= j < |rows| ==> rows[j].balance == rows[j].open + rows[j].invoiced - rows[j].received
    ensures forall m :: m in SummarizeBalanceData(rows) ==> m.balance == m.open + m.invoiced - m.received
  {
    SummaryRows(rows);
    forall m | m in SummarizeBalanceData(rows) ensures m.balance == m.open + m.invoiced - m.received {
      var month := Filter(rows, HasKey(RowDate, m.sortDate));
      SumLinear(month, RowBalance, RowOpen, RowInvoiced, RowReceived);
    }
  }

  /** Summing a roll-up column over the grouped months is adding up the month sums. */
  lemma {:induction false} GroupedSum(rows: seq<BalanceRow>, ds: seq<Date>, sf: MonthSummary -> int, rf: BalanceRow -> int)
    requires forall j :: 0 <= j < |ds| ==> Valid(ds[j])
    requires forall j :: 0 <= j < |ds| ==> sf(MonthTotals(rows, ds[j])) == KeySum(rows, RowDate, rf, ds[j])
    ensures SumBy(Grouped(rows, ds), sf) == KeysSum(ds, rows, RowDate, rf)
  {
    if ds != [] {
      GroupedSum(rows, ds[1..], sf, rf);
      assert Grouped(rows, ds)[1..] == Grouped(rows, ds[1..]);
    }
  }

  /** Dropping the months without movement loses nothing from a column that is zero in
      every month without movement. */
  lemma KeptSum(g: seq<MonthSummary>, f: MonthSummary -> int)
    requires forall j :: 0 <= j < |g| && NoMovement()(g[j]) ==> f(g[j]) == 0
    ensures SumBy(Filter(g, HasMovement()), f) == SumBy(g, f)
  {
    FilterSplit(g, HasMovement(), NoMovement(), f);
    SumZero(Filter(g, NoMovement()), f);
  }

  /** Every row carries one of the month labels. */
  lemma LabelsCoverRows(rows: seq<BalanceRow>)
    requires ValidDates(rows)
    ensures Filter(rows, KeyIn(RowDate, MonthLabels(rows))) == rows
  {
    FilterAll(rows, KeyIn(RowDate, MonthLabels(rows)));
  }

  /** A column that is zero in months without movement sums over the roll-up to the
      matching column's sum over the input rows. */
  lemma RollupSum(rows: seq<BalanceRow>, sf: MonthSummary -> int, rf: BalanceRow -> int)
    requires ValidDates(rows)
    requires forall m :: NoMovement()(m) ==> sf(m) == 0
    requires forall d :: Valid(d) ==> sf(MonthTotals(rows, d)) == KeySum(rows, RowDate, rf, d)
    ensures SumBy(SummarizeBalanceData(rows), sf) == SumBy(rows, rf)
  {
    var ds := MonthLabels(rows);
    var g := Grouped(rows, ds);
    SummaryOrderIsPreorder();
    SortSum(Filter(g, HasMovement()), SummaryDateLe, sf);
    KeptSum(g, sf);
    GroupedSum(rows, ds, sf, rf);
    Regroup(ds, rows, RowDate, rf);
    LabelsCoverRows(rows);
  }

  /** The roll-up loses no money: its invoiced and received columns add up to the
      input rows' (the months it drops have neither). */
  lemma SummaryConserves(rows: seq<BalanceRow>)
    requires ValidDates(rows)
    ensures SumBy(SummarizeBalanceData(rows), SummaryInvoiced) == SumBy(rows, RowInvoiced)
    ensures SumBy(SummarizeBalanceData(rows), SummaryReceived) == SumBy(rows, RowReceived)
  {
    RollupSum(rows, SummaryInvoiced, RowInvoiced);
    RollupSum(rows, SummaryReceived, RowReceived);
  }

  /** The roll-up of the monthly client balances keeps closing = opening + invoiced - received. */
  lemma MonthlyRollupIdentity(start: Date, end: Date, invoices: seq<Invoice>, receipts: seq<Receipt>, clients: seq<string>)
    ensures ValidDates(ComputeMonthlyClientBalances(start, end, invoices, receipts, clients))
    ensures forall m :: m in SummarizeBalanceData(ComputeMonthlyClientBalances(start, end, invoices, receipts, clients)) ==>
      m.balance == m.open + m.invoiced - m.received
  {
    var out := ComputeMonthlyClientBalances(start, end, invoices, receipts, clients);
    MonthlyRowsFromInception(start, end, invoices, receipts, clients);
    assert forall j :: 0 <= j < |out| ==> out[j] in out;
    SummaryKeepsIdentity(out);
  }
}
