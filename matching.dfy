/** Matching per client: every client that paid something has its own invoices and
    receipts matched oldest first, and the results are joined back onto the input
    rows as a `balance` column on invoices and an `invoices` column on receipts. */
module Matching {
  import opened Tables
  import opened Records
  import opened PaymentMatcher

  /** An invoice row with the `balance` column: what is still owed on it, or nothing
      (paid in full, or its client paid nothing while others did). */
  datatype InvoiceOut = InvoiceOut(invoice: Invoice, balance: Option<int>)

  /** A receipt row with the `invoices` column: its allocations, or nothing. */
  datatype ReceiptOut = ReceiptOut(receipt: Receipt, invoices: Option<seq<Allocation>>)

  // ---------------------------------------------------------------------------
  // The pieces of the pipeline

  /** `select("client").unique()`: each client once. */
  function ReceiptClients(receipts: seq<Receipt>): seq<string> {
    Distinct(seq(|receipts|, k requires 0 <= k < |receipts| => receipts[k].client))
  }


  /** `filter(client == c).sort("sort_date")` on the invoices. */
  function ClientInvoiceRows(invoices: seq<Invoice>, c: string): seq<Invoice> {
    DateOrdersArePreorders();
    SortBy(Filter(invoices, IsInvoiceOf(c)), InvoiceDateLe)
  }

  /** `filter(client == c).sort("sort_date")` on the receipts. */
  function ClientReceiptRows(receipts: seq<Receipt>, c: string): seq<Receipt> {
    DateOrdersArePreorders();
    SortBy(Filter(receipts, IsReceiptOf(c)), ReceiptDateLe)
  }

  /** `select("number", "total").to_dicts()` */
  function InvoiceEntries(rows: seq<Invoice>): seq<InvoiceEntry> {
    seq(|rows|, k requires 0 <= k < |rows| => InvoiceEntry(Some(rows[k].number), rows[k].total))
  }

  /** `select("number", "amount").to_dicts()` */
  function ReceiptEntries(rows: seq<Receipt>): seq<ReceiptEntry> {
    seq(|rows|, k requires 0 <= k < |rows| => ReceiptEntry(rows[k].number, rows[k].amount))
  }

  /** One client's matcher call. */
  function MatchClient(invoices: seq<Invoice>, receipts: seq<Receipt>, c: string): (seq<MatchedPayment>, seq<OpenInvoice>) {
    MatchSpec(InvoiceEntries(ClientInvoiceRows(invoices, c)), ReceiptEntries(ClientReceiptRows(receipts, c)))
  }

  /** What the loop has accumulated in `matched` and `unpaid` after `clients`. */
  function MatchClients(invoices: seq<Invoice>, receipts: seq<Receipt>, clients: seq<string>): (seq<MatchedPayment>, seq<OpenInvoice>)
    decreases |clients|
  {
    if clients == [] then ([], [])
    else
      var done := MatchClients(invoices, receipts, clients[..|clients| - 1]);
      var last := MatchClient(invoices, receipts, clients[|clients| - 1]);
      (done.0 + last.0, done.1 + last.1)
  }

  function BalanceOf(o: Option<OpenInvoice>): Option<int> {
    if o.Some? then Some(o.value.balance) else None
  }

  function AllocationsOf(o: Option<MatchedPayment>): Option<seq<Allocation>> {
    if o.Some? then Some(o.value.invoices) else None
  }

  function MatchedReceipt(m: MatchedPayment): string { m.receipt }

  /** `df_invoices.join(df_unpaid_invoices, on="number", how="left")` */
  function JoinBalances(invoices: seq<Invoice>, unpaid: seq<OpenInvoice>): seq<InvoiceOut> {
    var rows := LeftJoin(invoices, unpaid, InvoiceNumber, OpenNumber);
    seq(|rows|, k requires 0 <= k < |rows| => InvoiceOut(rows[k].0, BalanceOf(rows[k].1)))
  }

  /** `df_receipts.join(df_matched, left_on="number", right_on="receipt", how="left")` */
  function JoinAllocations(receipts: seq<Receipt>, matched: seq<MatchedPayment>): seq<ReceiptOut> {
    var rows := LeftJoin(receipts, matched, ReceiptNumber, MatchedReceipt);
    seq(|rows|, k requires 0 <= k < |rows| => ReceiptOut(rows[k].0, AllocationsOf(rows[k].1)))
  }

  /** The early exit without receipts: every invoice still owes its total. */
  function AllUnpaid(invoices: seq<Invoice>): seq<InvoiceOut> {
    seq(|invoices|, k requires 0 <= k < |invoices| => InvoiceOut(invoices[k], Some(invoices[k].total)))
  }

  /** `match_payments_by_client(df_invoices, df_receipts)` as a value. */
  function MatchByClient(invoices: seq<Invoice>, receipts: seq<Receipt>): (seq<InvoiceOut>, seq<ReceiptOut>) {
    if invoices == [] && receipts == [] then ([], [])
    else if receipts == [] then (AllUnpaid(invoices), [])
    else
      var perClient := MatchClients(invoices, receipts, ReceiptClients(receipts));
      (JoinBalances(invoices, perClient.1), JoinAllocations(receipts, perClient.0))
  }

  // ---------------------------------------------------------------------------
  // The driver as the source runs it

  method MatchPaymentsByClient(invoices: seq<Invoice>, receipts: seq<Receipt>)
    returns (invoicesOut: seq<InvoiceOut>, receiptsOut: seq<ReceiptOut>)
    ensures (invoicesOut, receiptsOut) == MatchByClient(invoices, receipts)
  {
    if |invoices| == 0 && |receipts| == 0 {
      return [], [];
    }
    if |receipts| == 0 {
      return AllUnpaid(invoices), [];
    }
    var clients := ReceiptClients(receipts);
    var matched, unpaid := MatchEachClient(invoices, receipts, clients);
    invoicesOut := JoinBalances(invoices, unpaid);
    receiptsOut := JoinAllocations(receipts, matched);
  }

  /** The loop over the paying clients: each client's invoices and receipts, filtered
      and sorted by date, go through the matcher, and the results are concatenated. */
  method MatchEachClient(invoices: seq<Invoice>, receipts: seq<Receipt>, clients: seq<string>)
    returns (matched: seq<MatchedPayment>, unpaid: seq<OpenInvoice>)
    ensures (matched, unpaid) == MatchClients(invoices, receipts, clients)
  {
    matched, unpaid := [], [];
    for i := 0 to |clients|
      invariant (matched, unpaid) == MatchClients(invoices, receipts, clients[..i])
    {
      var clientId := clients[i];
      var inv := InvoiceEntries(ClientInvoiceRows(invoices, clientId));
      var rec := ReceiptEntries(ClientReceiptRows(receipts, clientId));
      var mPayments, uInvoices := MatchPayments(inv, rec);
      matched := matched + mPayments;
      unpaid := unpaid + uInvoices;
      assert clients[..i + 1][..i] == clients[..i];
    }
    assert clients[..|clients|] == clients;
  }

  // ---------------------------------------------------------------------------
  // What the per-client matcher calls produce

  /** The rows a client's matcher call sees are that client's input rows, keyed when
      the input is. */
  lemma ClientInvoiceRowsFacts(invoices: seq<Invoice>, c: string)
    ensures var rows := ClientInvoiceRows(invoices, c);
      forall k :: 0 <= k < |rows| ==> rows[k] in invoices && rows[k].client == c
    ensures forall k :: 0 <= k < |invoices| && invoices[k].client == c ==> invoices[k] in ClientInvoiceRows(invoices, c)
    ensures KeysDistinct(invoices, InvoiceNumber) ==> KeysDistinct(ClientInvoiceRows(invoices, c), InvoiceNumber)
  {
    DateOrdersArePreorders();
    var f := Filter(invoices, IsInvoiceOf(c));
    var rows := ClientInvoiceRows(invoices, c);
    forall k | 0 <= k < |rows| ensures rows[k] in invoices && rows[k].client == c {
      assert rows[k] in multiset(rows);
      assert rows[k] in f;
    }
    forall k | 0 <= k < |invoices| && invoices[k].client == c ensures invoices[k] in rows {
      assert IsInvoiceOf(c)(invoices[k]);
      assert invoices[k] in multiset(f);
    }
    if KeysDistinct(invoices, InvoiceNumber) {
      FilterKeepsKeysDistinct(invoices, IsInvoiceOf(c), InvoiceNumber);
      SortKeepsKeysDistinct(f, InvoiceDateLe, InvoiceNumber);
    }
  }

  lemma ClientReceiptRowsFacts(receipts: seq<Receipt>, c: string)
    ensures var rows := ClientReceiptRows(receipts, c);
      forall k :: 0 <= k < |rows| ==> rows[k] in receipts && rows[k].client == c
    ensures forall k :: 0 <= k < |receipts| && receipts[k].client == c ==> receipts[k] in ClientReceiptRows(receipts, c)
    ensures KeysDistinct(receipts, ReceiptNumber) ==> KeysDistinct(ClientReceiptRows(receipts, c), ReceiptNumber)
  {
    DateOrdersArePreorders();
    var f := Filter(receipts, IsReceiptOf(c));
    var rows := ClientReceiptRows(receipts, c);
    forall k | 0 <= k < |rows| ensures rows[k] in receipts && rows[k].client == c {
      assert rows[k] in multiset(rows);
      assert rows[k] in f;
    }
    forall k | 0 <= k < |receipts| && receipts[k].client == c ensures receipts[k] in rows {
      assert IsReceiptOf(c)(receipts[k]);
      assert receipts[k] in multiset(f);
    }
    if KeysDistinct(receipts, ReceiptNumber) {
      FilterKeepsKeysDistinct(receipts, IsReceiptOf(c), ReceiptNumber);
      SortKeepsKeysDistinct(f, ReceiptDateLe, ReceiptNumber);
    }
  }

  predicate HasInvoices(invoices: seq<Invoice>, c: string) {
    exists v :: 0 <= v < |invoices| && invoices[v].client == c
  }

  predicate HasReceipts(receipts: seq<Receipt>, c: string) {
    exists r :: 0 <= r < |receipts| && receipts[r].client == c
  }


  /** An unpaid entry stands for an input invoice of one of `clients` with the same
      number, and owes that invoice's total or a strictly positive part of it. */
  ghost predicate ResidualOf(o: OpenInvoice, invoices: seq<Invoice>, clients: seq<string>) {
    exists t :: 0 <= t < |invoices| && invoices[t].client in clients && invoices[t].number == o.number
      && (o.balance == invoices[t].total || 0 < o.balance < invoices[t].total)
  }

  /** Every invoice a payment names is an input invoice of client `c`. */
  ghost predicate NamesInvoicesOf(allocs: seq<Allocation>, invoices: seq<Invoice>, c: string) {
    forall a :: 0 <= a < |allocs| && allocs[a].invoice.Some? ==>
      exists v :: 0 <= v < |invoices| && invoices[v].client == c && Some(invoices[v].number) == allocs[a].invoice
  }

  function Positive(x: int): int { if x > 0 then x else 0 }

  /** A matched payment stands for an input receipt of one of `clients`, whose client
      has invoices; it allocates exactly the receipt's (positive) amount and names only
      that client's invoices. */
  ghost predicate PaymentOf(m: MatchedPayment, invoices: seq<Invoice>, receipts: seq<Receipt>, clients: seq<string>) {
    exists t :: 0 <= t < |receipts| && receipts[t].client in clients && receipts[t].number == m.receipt
      && HasInvoices(invoices, receipts[t].client)
      && AllocatedTotal(m) == Positive(receipts[t].amount)
      && NamesInvoicesOf(m.invoices, invoices, receipts[t].client)
  }

  lemma ClientUnpaid(invoices: seq<Invoice>, receipts: seq<Receipt>, c: string)
    ensures var u := MatchClient(invoices, receipts, c).1;
      forall j :: 0 <= j < |u| ==> ResidualOf(u[j], invoices, [c])
  {
    UnpaidResiduals(invoices, c, InvoiceEntries(ClientInvoiceRows(invoices, c)),
                    ReceiptEntries(ClientReceiptRows(receipts, c)));
  }

  /** The unpaid entries of the matcher run on a client's invoice entries. */
  lemma UnpaidResiduals(invoices: seq<Invoice>, c: string, e: seq<InvoiceEntry>, r: seq<ReceiptEntry>)
    requires e == InvoiceEntries(ClientInvoiceRows(invoices, c))
    ensures var u := MatchSpec(e, r).1;
      forall j :: 0 <= j < |u| ==> ResidualOf(u[j], invoices, [c])
  {
    var u := MatchSpec(e, r).1;
    UnpaidAreNumberedInvoices(e, r);
    forall j | 0 <= j < |u| ensures ResidualOf(u[j], invoices, [c]) {
      var s :| 0 <= s < |e| && OwedOn(u[j], e[s]);
      EntryResidual(invoices, c, e, u[j], s);
    }
  }

  /** An entry owed on the client's `s`-th invoice row stands for that input invoice. */
  lemma EntryResidual(invoices: seq<Invoice>, c: string, e: seq<InvoiceEntry>, o: OpenInvoice, s: nat)
    requires e == InvoiceEntries(ClientInvoiceRows(invoices, c))
    requires s < |e| && OwedOn(o, e[s])
    ensures ResidualOf(o, invoices, [c])
  {
    var rows := ClientInvoiceRows(invoices, c);
    ClientInvoiceRowsFacts(invoices, c);
    var t :| 0 <= t < |invoices| && invoices[t] == rows[s];
    assert invoices[t].client in [c];
  }

  lemma ClientUnpaidKeyed(invoices: seq<Invoice>, receipts: seq<Receipt>, c: string)
    requires KeysDistinct(invoices, InvoiceNumber)
    ensures KeysDistinct(MatchClient(invoices, receipts, c).1, OpenNumber)
  {
    var rows := ClientInvoiceRows(invoices, c);
    var e := InvoiceEntries(rows);
    ClientInvoiceRowsFacts(invoices, c);
    assert KeysDistinct(e, EntryNumber) by {
      forall a, b | 0 <= a < b < |e| ensures EntryNumber(e[a]) != EntryNumber(e[b]) {
        assert InvoiceNumber(rows[a]) != InvoiceNumber(rows[b]);
      }
    }
    UnpaidNumbersDistinct(e, ReceiptEntries(ClientReceiptRows(receipts, c)));
  }

  /** Each allocation of a client's payment names one of that client's invoices. */
  lemma ClientPaymentNames(invoices: seq<Invoice>, receipts: seq<Receipt>, c: string, i: nat)
    requires i < |MatchClient(invoices, receipts, c).0|
    ensures NamesInvoicesOf(MatchClient(invoices, receipts, c).0[i].invoices, invoices, c)
  {
    var rows := ClientInvoiceRows(invoices, c);
    var e := InvoiceEntries(rows);
    var r := ReceiptEntries(ClientReceiptRows(receipts, c));
    var m := MatchClient(invoices, receipts, c).0;
    OneEntryPerReceipt(e, r);
    ClientInvoiceRowsFacts(invoices, c);
    forall a | 0 <= a < |m[i].invoices| && m[i].invoices[a].invoice.Some?
      ensures exists v :: 0 <= v < |invoices| && invoices[v].client == c && Some(invoices[v].number) == m[i].invoices[a].invoice
    {
      AllocationsNameNumberedInvoices(e, r, i, a);
      var s :| 0 <= s < |e| && HasNumber(e[s]) && e[s].number == m[i].invoices[a].invoice;
      EntryIsClientInvoice(invoices, c, rows, s);
    }
  }

  /** The entry built from one of a client's rows carries the number of an invoice of
      that client. */
  lemma EntryIsClientInvoice(invoices: seq<Invoice>, c: string, rows: seq<Invoice>, s: nat)
    requires s < |rows|
    requires forall k :: 0 <= k < |rows| ==> rows[k] in invoices && rows[k].client == c
    ensures exists v :: 0 <= v < |invoices| && invoices[v].client == c && Some(invoices[v].number) == InvoiceEntries(rows)[s].number
  {
    assert rows[s] in invoices;
    var v :| 0 <= v < |invoices| && invoices[v] == rows[s];
    assert InvoiceEntries(rows)[s].number == Some(invoices[v].number);
  }

  lemma ClientMatched(invoices: seq<Invoice>, receipts: seq<Receipt>, c: string)
    ensures var m := MatchClient(invoices, receipts, c).0;
      forall i :: 0 <= i < |m| ==> PaymentOf(m[i], invoices, receipts, [c])
  {
    var rows := ClientInvoiceRows(invoices, c);
    var rrows := ClientReceiptRows(receipts, c);
    var e := InvoiceEntries(rows);
    var r := ReceiptEntries(rrows);
    var m := MatchClient(invoices, receipts, c).0;
    OneEntryPerReceipt(e, r);
    if e != [] && r != [] {
      ClientInvoiceRowsFacts(invoices, c);
      ClientReceiptRowsFacts(receipts, c);
      var v0 :| 0 <= v0 < |invoices| && invoices[v0] == rows[0];
      assert HasInvoices(invoices, c);
      forall i | 0 <= i < |m| ensures PaymentOf(m[i], invoices, receipts, [c]) {
        ReceiptFullyAllocated(e, r, i);
        ClientPaymentNames(invoices, receipts, c, i);
        var t :| 0 <= t < |receipts| && receipts[t] == rrows[i];
        assert receipts[t].client in [c];
      }
    }
  }

  lemma ClientMatchedKeyed(invoices: seq<Invoice>, receipts: seq<Receipt>, c: string)
    requires KeysDistinct(receipts, ReceiptNumber)
    ensures KeysDistinct(MatchClient(invoices, receipts, c).0, MatchedReceipt)
  {
    var rrows := ClientReceiptRows(receipts, c);
    var e := InvoiceEntries(ClientInvoiceRows(invoices, c));
    var r := ReceiptEntries(rrows);
    OneEntryPerReceipt(e, r);
    ClientReceiptRowsFacts(receipts, c);
    if e != [] && r != [] {
      var m := MatchClient(invoices, receipts, c).0;
      forall a, b | 0 <= a < b < |m| ensures MatchedReceipt(m[a]) != MatchedReceipt(m[b]) {
        assert ReceiptNumber(rrows[a]) != ReceiptNumber(rrows[b]);
      }
    }
  }

  /** A receipt of a client with invoices gets a matched entry. */
  lemma ClientMatchedCovers(invoices: seq<Invoice>, receipts: seq<Receipt>, k: nat)
    requires k < |receipts| && HasInvoices(invoices, receipts[k].client)
    ensures exists i :: (0 <= i < |MatchClient(invoices, receipts, receipts[k].client).0|
      && MatchClient(invoices, receipts, receipts[k].client).0[i].receipt == receipts[k].number)
  {
    var c := receipts[k].client;
    var rows := ClientInvoiceRows(invoices, c);
    var rrows := ClientReceiptRows(receipts, c);
    var e := InvoiceEntries(rows);
    var r := ReceiptEntries(rrows);
    ClientReceiptRowsFacts(receipts, c);
    var i :| 0 <= i < |rrows| && rrows[i] == receipts[k];
    assert rows != [] by {
      DateOrdersArePreorders();
      var v :| 0 <= v < |invoices| && invoices[v].client == c;
      assert IsInvoiceOf(c)(invoices[v]);
      assert invoices[v] in multiset(Filter(invoices, IsInvoiceOf(c)));
    }
    OneEntryPerReceipt(e, r);
    assert MatchClient(invoices, receipts, c).0[i].receipt == r[i].number;
  }

  // ---------------------------------------------------------------------------
  // What the loop over clients accumulates

  lemma ResidualWiden(o: OpenInvoice, invoices: seq<Invoice>, a: seq<string>, b: seq<string>)
    requires ResidualOf(o, invoices, a)
    requires forall x :: x in a ==> x in b
    ensures ResidualOf(o, invoices, b)
  {
  }

  /** With unique invoice numbers, unpaid entries of clients in disjoint lists differ. */
  lemma ResidualsApart(o1: OpenInvoice, o2: OpenInvoice, invoices: seq<Invoice>, a: seq<string>, b: seq<string>)
    requires ResidualOf(o1, invoices, a) && ResidualOf(o2, invoices, b)
    requires KeysDistinct(invoices, InvoiceNumber)
    requires forall x :: x in a ==> x !in b
    ensures o1.number != o2.number
  {
    var t1 :| 0 <= t1 < |invoices| && invoices[t1].client in a && invoices[t1].number == o1.number
      && (o1.balance == invoices[t1].total || 0 < o1.balance < invoices[t1].total);
    var t2 :| 0 <= t2 < |invoices| && invoices[t2].client in b && invoices[t2].number == o2.number
      && (o2.balance == invoices[t2].total || 0 < o2.balance < invoices[t2].total);
    assert t1 != t2;
    assert InvoiceNumber(invoices[t1]) != InvoiceNumber(invoices[t2]);
  }

  lemma PaymentWiden(m: MatchedPayment, invoices: seq<Invoice>, receipts: seq<Receipt>, a: seq<string>, b: seq<string>)
    requires PaymentOf(m, invoices, receipts, a)
    requires forall x :: x in a ==> x in b
    ensures PaymentOf(m, invoices, receipts, b)
  {
  }

  /** With unique receipt numbers, payments of clients in disjoint lists differ. */
  lemma PaymentsApart(m1: MatchedPayment, m2: MatchedPayment, invoices: seq<Invoice>, receipts: seq<Receipt>, a: seq<string>, b: seq<string>)
    requires PaymentOf(m1, invoices, receipts, a) && PaymentOf(m2, invoices, receipts, b)
    requires KeysDistinct(receipts, ReceiptNumber)
    requires forall x :: x in a ==> x !in b
    ensures m1.receipt != m2.receipt
  {
    var t1 :| 0 <= t1 < |receipts| && receipts[t1].client in a && receipts[t1].number == m1.receipt
      && HasInvoices(invoices, receipts[t1].client)
      && AllocatedTotal(m1) == Positive(receipts[t1].amount)
      && NamesInvoicesOf(m1.invoices, invoices, receipts[t1].client);
    var t2 :| 0 <= t2 < |receipts| && receipts[t2].client in b && receipts[t2].number == m2.receipt
      && HasInvoices(invoices, receipts[t2].client)
      && AllocatedTotal(m2) == Positive(receipts[t2].amount)
      && NamesInvoicesOf(m2.invoices, invoices, receipts[t2].client);
    assert t1 != t2;
    assert ReceiptNumber(receipts[t1]) != ReceiptNumber(receipts[t2]);
  }

  ghost predicate AllResidual(u: seq<OpenInvoice>, invoices: seq<Invoice>, clients: seq<string>) {
    forall j :: 0 <= j < |u| ==> ResidualOf(u[j], invoices, clients)
  }

  ghost predicate AllPayments(m: seq<MatchedPayment>, invoices: seq<Invoice>, receipts: seq<Receipt>, clients: seq<string>) {
    forall i :: 0 <= i < |m| ==> PaymentOf(m[i], invoices, receipts, clients)
  }

  lemma {:induction false} ClientsUnpaid(invoices: seq<Invoice>, receipts: seq<Receipt>, clients: seq<string>)
    ensures AllResidual(MatchClients(invoices, receipts, clients).1, invoices, clients)
    decreases |clients|
  {
    if clients != [] {
      var pre := clients[..|clients| - 1];
      var c := clients[|clients| - 1];
      ClientsUnpaid(invoices, receipts, pre);
      ClientUnpaid(invoices, receipts, c);
      var u0 := MatchClients(invoices, receipts, pre).1;
      var u1 := MatchClient(invoices, receipts, c).1;
      assert MatchClients(invoices, receipts, clients).1 == u0 + u1;
      forall j | 0 <= j < |u0 + u1| ensures ResidualOf((u0 + u1)[j], invoices, clients) {
        if j < |u0| {
          ResidualWiden(u0[j], invoices, pre, clients);
        } else {
          ResidualWiden(u1[j - |u0|], invoices, [c], clients);
        }
      }
    }
  }

  lemma {:induction false} ClientsUnpaidKeyed(invoices: seq<Invoice>, receipts: seq<Receipt>, clients: seq<string>)
    requires Unique(clients) && KeysDistinct(invoices, InvoiceNumber)
    ensures KeysDistinct(MatchClients(invoices, receipts, clients).1, OpenNumber)
    decreases |clients|
  {
    if clients != [] {
      var pre := clients[..|clients| - 1];
      var c := clients[|clients| - 1];
      ClientsUnpaidKeyed(invoices, receipts, pre);
      ClientsUnpaid(invoices, receipts, pre);
      ClientUnpaid(invoices, receipts, c);
      ClientUnpaidKeyed(invoices, receipts, c);
      var u0 := MatchClients(invoices, receipts, pre).1;
      var u1 := MatchClient(invoices, receipts, c).1;
      assert MatchClients(invoices, receipts, clients).1 == u0 + u1;
      forall a, b | 0 <= a < |u0| && 0 <= b < |u1| ensures OpenNumber(u0[a]) != OpenNumber(u1[b]) {
        ResidualsApart(u0[a], u1[b], invoices, pre, [c]);
      }
      AppendKeysDistinct(u0, u1, OpenNumber);
    }
  }

  lemma {:induction false} ClientsMatched(invoices: seq<Invoice>, receipts: seq<Receipt>, clients: seq<string>)
    ensures AllPayments(MatchClients(invoices, receipts, clients).0, invoices, receipts, clients)
    decreases |clients|
  {
    if clients != [] {
      var pre := clients[..|clients| - 1];
      var c := clients[|clients| - 1];
      ClientsMatched(invoices, receipts, pre);
      ClientMatched(invoices, receipts, c);
      var m0 := MatchClients(invoices, receipts, pre).0;
      var m1 := MatchClient(invoices, receipts, c).0;
      assert MatchClients(invoices, receipts, clients).0 == m0 + m1;
      forall i | 0 <= i < |m0 + m1| ensures PaymentOf((m0 + m1)[i], invoices, receipts, clients) {
        if i < |m0| {
          PaymentWiden(m0[i], invoices, receipts, pre, clients);
        } else {
          PaymentWiden(m1[i - |m0|], invoices, receipts, [c], clients);
        }
      }
    }
  }

  lemma {:induction false} ClientsMatchedKeyed(invoices: seq<Invoice>, receipts: seq<Receipt>, clients: seq<string>)
    requires Unique(clients) && KeysDistinct(receipts, ReceiptNumber)
    ensures KeysDistinct(MatchClients(invoices, receipts, clients).0, MatchedReceipt)
    decreases |clients|
  {
    if clients != [] {
      var pre := clients[..|clients| - 1];
      var c := clients[|clients| - 1];
      ClientsMatchedKeyed(invoices, receipts, pre);
      ClientsMatched(invoices, receipts, pre);
      ClientMatched(invoices, receipts, c);
      ClientMatchedKeyed(invoices, receipts, c);
      var m0 := MatchClients(invoices, receipts, pre).0;
      var m1 := MatchClient(invoices, receipts, c).0;
      assert MatchClients(invoices, receipts, clients).0 == m0 + m1;
      forall a, b | 0 <= a < |m0| && 0 <= b < |m1| ensures MatchedReceipt(m0[a]) != MatchedReceipt(m1[b]) {
        PaymentsApart(m0[a], m1[b], invoices, receipts, pre, [c]);
      }
      AppendKeysDistinct(m0, m1, MatchedReceipt);
    }
  }

  /** Every receipt of a listed client that has invoices gets a matched entry. */
  lemma {:induction false} ClientsCover(invoices: seq<Invoice>, receipts: seq<Receipt>, clients: seq<string>, k: nat)
    requires k < |receipts| && receipts[k].client in clients && HasInvoices(invoices, receipts[k].client)
    ensures exists i :: (0 <= i < |MatchClients(invoices, receipts, clients).0|
      && MatchClients(invoices, receipts, clients).0[i].receipt == receipts[k].number)
    decreases |clients|
  {
    var pre := clients[..|clients| - 1];
    var c := clients[|clients| - 1];
    var m0 := MatchClients(invoices, receipts, pre).0;
    var m1 := MatchClient(invoices, receipts, c).0;
    assert MatchClients(invoices, receipts, clients).0 == m0 + m1;
    assert receipts[k].client == c || receipts[k].client in pre;
    if receipts[k].client == c {
      ClientMatchedCovers(invoices, receipts, k);
      ReceiptListedIn(m0, m1, receipts[k].number);
    } else {
      ClientsCover(invoices, receipts, pre, k);
      ReceiptListedIn(m0, m1, receipts[k].number);
    }
  }

  /** A receipt listed in either part is listed in the whole. */
  lemma ReceiptListedIn(m0: seq<MatchedPayment>, m1: seq<MatchedPayment>, n: string)
    requires (exists i :: 0 <= i < |m0| && m0[i].receipt == n) || (exists i :: 0 <= i < |m1| && m1[i].receipt == n)
    ensures exists i :: 0 <= i < |m0 + m1| && (m0 + m1)[i].receipt == n
  {
    if i :| 0 <= i < |m0| && m0[i].receipt == n {
      assert (m0 + m1)[i] == m0[i];
    } else {
      var i :| 0 <= i < |m1| && m1[i].receipt == n;
      assert (m0 + m1)[|m0| + i] == m1[i];
    }
  }

  // ---------------------------------------------------------------------------
  // The joined-back frames

  lemma ReceiptClientsFacts(receipts: seq<Receipt>)
    ensures Unique(ReceiptClients(receipts))
    ensures forall c :: c in ReceiptClients(receipts) <==> HasReceipts(receipts, c)
  {
    var col := seq(|receipts|, k requires 0 <= k < |receipts| => receipts[k].client);
    forall c ensures c in ReceiptClients(receipts) <==> HasReceipts(receipts, c) {
      if HasReceipts(receipts, c) {
        var r :| 0 <= r < |receipts| && receipts[r].client == c;
        assert col[r] == c;
      }
    }
  }

  /** The residual an invoice row picks up in the join belongs to that very invoice. */
  lemma OwnResidual(invoices: seq<Invoice>, clients: seq<string>, u: seq<OpenInvoice>, k: nat)
    requires AllResidual(u, invoices, clients) && KeysDistinct(invoices, InvoiceNumber)
    requires k < |invoices| && Lookup(u, OpenNumber, invoices[k].number).Some?
    ensures var b := Lookup(u, OpenNumber, invoices[k].number).value.balance;
      b == invoices[k].total || 0 < b < invoices[k].total
    ensures invoices[k].client in clients
  {
    var o := Lookup(u, OpenNumber, invoices[k].number).value;
    var j :| 0 <= j < |u| && u[j] == o;
    assert ResidualOf(u[j], invoices, clients);
    var t :| 0 <= t < |invoices| && invoices[t].client in clients && invoices[t].number == o.number
      && (o.balance == invoices[t].total || 0 < o.balance < invoices[t].total);
  }

  /** The allocations a receipt row picks up in the join belong to that very receipt. */
  lemma OwnPayment(invoices: seq<Invoice>, receipts: seq<Receipt>, clients: seq<string>, m: seq<MatchedPayment>, k: nat)
    requires AllPayments(m, invoices, receipts, clients) && KeysDistinct(receipts, ReceiptNumber)
    requires k < |receipts| && Lookup(m, MatchedReceipt, receipts[k].number).Some?
    ensures var p := Lookup(m, MatchedReceipt, receipts[k].number).value;
      && HasInvoices(invoices, receipts[k].client)
      && SumBy(p.invoices, AllocationAmount) == Positive(receipts[k].amount)
      && NamesInvoicesOf(p.invoices, invoices, receipts[k].client)
  {
    var p := Lookup(m, MatchedReceipt, receipts[k].number).value;
    var j :| 0 <= j < |m| && m[j] == p;
    assert PaymentOf(m[j], invoices, receipts, clients);
    var t :| 0 <= t < |receipts| && receipts[t].client in clients && receipts[t].number == p.receipt
      && HasInvoices(invoices, receipts[t].client)
      && AllocatedTotal(p) == Positive(receipts[t].amount)
      && NamesInvoicesOf(p.invoices, invoices, receipts[t].client);
  }

  /** Given unique invoice numbers, the invoice frame comes back row for row. Without
      receipts every invoice owes its total. Otherwise an invoice takes the residual
      its number has in the unpaid list, and nothing when it has none; a residual is
      the whole total or a strictly positive part of it; and an invoice of a client
      with no receipts is left with nothing. */
  lemma InvoiceBalances(invoices: seq<Invoice>, receipts: seq<Receipt>)
    requires KeysDistinct(invoices, InvoiceNumber)
    ensures var out := MatchByClient(invoices, receipts).0;
      && |out| == |invoices|
      && (forall k :: 0 <= k < |out| ==> out[k].invoice == invoices[k])
      && (receipts == [] ==> forall k :: 0 <= k < |out| ==> out[k].balance == Some(invoices[k].total))
      && (receipts != [] ==> forall k :: 0 <= k < |out| ==>
            out[k].balance == BalanceOf(Lookup(MatchClients(invoices, receipts, ReceiptClients(receipts)).1,
                                              OpenNumber, invoices[k].number)))
      && (forall k :: 0 <= k < |out| && out[k].balance.Some? ==>
            out[k].balance.value == invoices[k].total || 0 < out[k].balance.value < invoices[k].total)
      && (receipts != [] ==> forall k :: 0 <= k < |out| && !HasReceipts(receipts, invoices[k].client) ==>
            out[k].balance == None)
  {
    if receipts != [] {
      var clients := ReceiptClients(receipts);
      var u := MatchClients(invoices, receipts, clients).1;
      ReceiptClientsFacts(receipts);
      ClientsUnpaid(invoices, receipts, clients);
      ClientsUnpaidKeyed(invoices, receipts, clients);
      LeftJoinKeyed(invoices, u, InvoiceNumber, OpenNumber);
      var out := MatchByClient(invoices, receipts).0;
      assert out == JoinBalances(invoices, u);
      forall k | 0 <= k < |out| && out[k].balance.Some?
        ensures out[k].balance.value == invoices[k].total || 0 < out[k].balance.value < invoices[k].total
        ensures HasReceipts(receipts, invoices[k].client)
      {
        OwnResidual(invoices, clients, u, k);
      }
    }
  }

  /** One receipt row of the join: allocations exactly when the client has invoices. */
  lemma ReceiptRow(invoices: seq<Invoice>, receipts: seq<Receipt>, k: nat)
    requires KeysDistinct(receipts, ReceiptNumber) && k < |receipts|
    ensures var p := Lookup(MatchClients(invoices, receipts, ReceiptClients(receipts)).0, MatchedReceipt, receipts[k].number);
      && (p.Some? <==> HasInvoices(invoices, receipts[k].client))
      && (p.Some? ==>
            && SumBy(p.value.invoices, AllocationAmount) == Positive(receipts[k].amount)
            && NamesInvoicesOf(p.value.invoices, invoices, receipts[k].client))
  {
    var clients := ReceiptClients(receipts);
    var m := MatchClients(invoices, receipts, clients).0;
    ReceiptClientsFacts(receipts);
    ClientsMatched(invoices, receipts, clients);
    if Lookup(m, MatchedReceipt, receipts[k].number).Some? {
      OwnPayment(invoices, receipts, clients, m, k);
    } else if HasInvoices(invoices, receipts[k].client) {
      assert HasReceipts(receipts, receipts[k].client);
      ClientsCover(invoices, receipts, clients, k);
      assert false;
    }
  }

  /** Given unique receipt numbers, the receipt frame comes back row for row. A receipt
      gets an allocation list exactly when its client has invoices; that list adds up
      to the receipt's amount (nothing for a non-positive amount) and names only
      invoices of the receipt's own client. */
  lemma ReceiptAllocations(invoices: seq<Invoice>, receipts: seq<Receipt>)
    requires KeysDistinct(receipts, ReceiptNumber)
    ensures var out := MatchByClient(invoices, receipts).1;
      && |out| == |receipts|
      && (forall k :: 0 <= k < |out| ==> out[k].receipt == receipts[k])
      && (forall k :: 0 <= k < |out| ==> (out[k].invoices.Some? <==> HasInvoices(invoices, receipts[k].client)))
      && (forall k :: 0 <= k < |out| && out[k].invoices.Some? ==>
            && SumBy(out[k].invoices.value, AllocationAmount) == Positive(receipts[k].amount)
            && NamesInvoicesOf(out[k].invoices.value, invoices, receipts[k].client))
  {
    if receipts != [] {
      var clients := ReceiptClients(receipts);
      var m := MatchClients(invoices, receipts, clients).0;
      ReceiptClientsFacts(receipts);
      ClientsMatchedKeyed(invoices, receipts, clients);
      LeftJoinKeyed(receipts, m, ReceiptNumber, MatchedReceipt);
      var out := MatchByClient(invoices, receipts).1;
      assert out == JoinAllocations(receipts, m);
      forall k | 0 <= k < |out|
        ensures out[k].invoices.Some? <==> HasInvoices(invoices, receipts[k].client)
        ensures out[k].invoices.Some? ==>
          && SumBy(out[k].invoices.value, AllocationAmount) == Positive(receipts[k].amount)
          && NamesInvoicesOf(out[k].invoices.value, invoices, receipts[k].client)
      {
        ReceiptRow(invoices, receipts, k);
      }
    }
  }
}
