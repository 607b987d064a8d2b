/** The client transaction ledger (`domain/transactions.py`): invoices and receipts as
    signed entries, a running balance per client over the whole history, then the
    rows dated inside the window. */
module Transactions {
  import opened Dates
  import opened Tables
  import opened Records

  /** A ledger entry before the balance is added: `sort_date`, `client`, `type`,
      `reference` and the signed `amount`. */
  datatype Entry = Entry(sortDate: Date, client: string, kind: string, reference: string, amount: int)

  /** A ledger row: the entry and the client's running `balance`. */
  datatype Txn = Txn(entry: Entry, balance: int)

  function EntryAmount(e: Entry): int { e.amount }
  function TxnEntry(t: Txn): Entry { t.entry }

  function EntryOf(c: string): Entry -> bool { (e: Entry) => e.client == c }

  /** The invoice rows, each an "Invoice" entry for its `total`. */
  function SignedInvoices(invoices: seq<Invoice>): (es: seq<Entry>)
    ensures |es| == |invoices|
    ensures forall k :: 0 <= k < |invoices| ==>
      es[k] == Entry(invoices[k].sortDate, invoices[k].client, "Invoice", invoices[k].number, invoices[k].total)
  {
    if invoices == [] then []
    else
      var i := invoices[0];
      [Entry(i.sortDate, i.client, "Invoice", i.number, i.total)] + SignedInvoices(invoices[1..])
  }

  /** The receipt rows, each a "Receipt" entry for its `amount` negated. */
  function SignedReceipts(receipts: seq<Receipt>): (es: seq<Entry>)
    ensures |es| == |receipts|
    ensures forall k :: 0 <= k < |receipts| ==>
      es[k] == Entry(receipts[k].sortDate, receipts[k].client, "Receipt", receipts[k].number, -receipts[k].amount)
  {
    if receipts == [] then []
    else
      var r := receipts[0];
      [Entry(r.sortDate, r.client, "Receipt", r.number, -r.amount)] + SignedReceipts(receipts[1..])
  }

  /** `sort("sort_date")` */
  predicate EntryDateLe(a: Entry, b: Entry) { OnOrBefore(a.sortDate, b.sortDate) }
  predicate TxnDateLe(a: Txn, b: Txn) { OnOrBefore(a.entry.sortDate, b.entry.sortDate) }

  lemma EntryOrderIsPreorder()
    ensures TotalPreorder(EntryDateLe)
  {
  }

  /** `concat([invoices, receipts]).sort("sort_date")`: the whole history in date order. */
  function Ledger(invoices: seq<Invoice>, receipts: seq<Receipt>): seq<Entry> {
    EntryOrderIsPreorder();
    SortBy(SignedInvoices(invoices) + SignedReceipts(receipts), EntryDateLe)
  }

  /** The balance a client has reached so far, 0 before its first entry. */
  function Reached(acc: map<string, int>, c: string): int {
    if c in acc then acc[c] else 0
  }

  /** `amount.cum_sum().over("client")`, walking the rows in order with each client's
      balance so far in `acc`. */
  function Running(es: seq<Entry>, acc: map<string, int>): (out: seq<Txn>)
    ensures |out| == |es|
    ensures forall k :: 0 <= k < |es| ==> out[k].entry == es[k]
  {
    if es == [] then []
    else
      var c := es[0].client;
      var b := Reached(acc, c) + es[0].amount;
      [Txn(es[0], b)] + Running(es[1..], acc[c := b])
  }

  function InWindow(start: Date, end: Date): Txn -> bool {
    (t: Txn) => Between(t.entry.sortDate, start, end)
  }

  function EntryInWindow(start: Date, end: Date): Entry -> bool {
    (e: Entry) => Between(e.sortDate, start, end)
  }

  /** `build_client_transactions_df(start, end, invoices_close, receipts_close)` */
  function BuildClientTransactions(start: Date, end: Date, invoices: seq<Invoice>, receipts: seq<Receipt>): seq<Txn> {
    Filter(Running(Ledger(invoices, receipts), map[]), InWindow(start, end))
  }

  // ---------------------------------------------------------------------------
  // Running balances

  /** The sum of client `c`'s amounts in `es`. */
  function ClientSum(es: seq<Entry>, c: string): int {
    SumBy(Filter(es, EntryOf(c)), EntryAmount)
  }

  lemma ClientSumHead(e: Entry, es: seq<Entry>, c: string)
    ensures ClientSum([e] + es, c) == (if e.client == c then e.amount else 0) + ClientSum(es, c)
  {
    FilterAppend([e], es, EntryOf(c));
    SumAppend(Filter([e], EntryOf(c)), Filter(es, EntryOf(c)), EntryAmount);
  }

  lemma ReachedStep(acc: map<string, int>, e: Entry, c: string)
    ensures Reached(acc[e.client := Reached(acc, e.client) + e.amount], c)
         == Reached(acc, c) + (if e.client == c then e.amount else 0)
  {
  }

  /** Proof helper for `RunningIsPrefix`: after the head, row i is row i - 1 of the
      running pass over the tail, started from the updated totals. */
  lemma RunningTail(es: seq<Entry>, acc: map<string, int>, acc': map<string, int>, i: int)
    requires 0 < i < |es|
    requires acc' == acc[es[0].client := Reached(acc, es[0].client) + es[0].amount]
    ensures Running(es, acc)[i] == Running(es[1..], acc')[i - 1]
  {
  }

  /** Proof helper for `RunningIsPrefix`: its induction step, taking the hypothesis
      for the tail as a precondition. */
  lemma RunningPrefixStep(es: seq<Entry>, acc: map<string, int>, acc': map<string, int>, i: int)
    requires 0 < i < |es|
    requires acc' == acc[es[0].client := Reached(acc, es[0].client) + es[0].amount]
    requires Running(es[1..], acc')[i - 1].balance == Reached(acc', es[i].client) + ClientSum(es[1..][..i], es[i].client)
    ensures Running(es, acc)[i].balance == Reached(acc, es[i].client) + ClientSum(es[..i + 1], es[i].client)
  {
    RunningTail(es, acc, acc', i);
    ReachedStep(acc, es[0], es[i].client);
    assert es[..i + 1] == [es[0]] + es[1..][..i];
    ClientSumHead(es[0], es[1..][..i], es[i].client);
  }

  lemma RunningFirst(es: seq<Entry>, acc: map<string, int>)
    requires es != []
    ensures Running(es, acc)[0].balance == Reached(acc, es[0].client) + ClientSum(es[..1], es[0].client)
  {
    ClientSumHead(es[0], [], es[0].client);
    assert es[..1] == [es[0]] + [];
  }

  /** Row `i`'s balance is what its client had reached before the walk plus the
      client's amounts in rows 0..i. */
  lemma {:induction false} RunningIsPrefix(es: seq<Entry>, acc: map<string, int>, i: int)
    requires 0 <= i < |es|
    ensures Running(es, acc)[i].balance == Reached(acc, es[i].client) + ClientSum(es[..i + 1], es[i].client)
  {
    if i == 0 {
      RunningFirst(es, acc);
    } else {
      var acc' := acc[es[0].client := Reached(acc, es[0].client) + es[0].amount];
      RunningIsPrefix(es[1..], acc', i - 1);
      assert es[1..][i - 1] == es[i];
      RunningPrefixStep(es, acc, acc', i);
    }
  }

  /** The balance of a ledger row is the running sum of its own client's amounts over
      every earlier row and itself; other clients' rows do not enter it. */
  lemma LedgerBalances(invoices: seq<Invoice>, receipts: seq<Receipt>)
    ensures var es := Ledger(invoices, receipts);
      var out := Running(es, map[]);
      forall i :: 0 <= i < |out| ==>
        out[i].entry == es[i] && out[i].balance == ClientSum(es[..i + 1], es[i].client)
  {
    var es := Ledger(invoices, receipts);
    forall i | 0 <= i < |es| ensures Running(es, map[])[i].balance == ClientSum(es[..i + 1], es[i].client) {
      RunningIsPrefix(es, map[], i);
    }
  }

  // ---------------------------------------------------------------------------
  // The window

  function Entries(ts: seq<Txn>): (es: seq<Entry>)
    ensures |es| == |ts|
    ensures forall k :: 0 <= k < |ts| ==> es[k] == ts[k].entry
  {
    if ts == [] then [] else [ts[0].entry] + Entries(ts[1..])
  }

  /** Filtering the balanced rows by date keeps the same entries as filtering the
      entries themselves. */
  lemma {:induction false} RunningFilter(es: seq<Entry>, acc: map<string, int>, start: Date, end: Date)
    ensures Entries(Filter(Running(es, acc), InWindow(start, end))) == Filter(es, EntryInWindow(start, end))
  {
    if es != [] {
      var c := es[0].client;
      var b := Reached(acc, c) + es[0].amount;
      var t := Txn(es[0], b);
      var rest := Running(es[1..], acc[c := b]);
      RunningFilter(es[1..], acc[c := b], start, end);
      assert Running(es, acc) == [t] + rest;
      var kept := Filter(rest, InWindow(start, end));
      if InWindow(start, end)(t) {
        assert Filter([t] + rest, InWindow(start, end)) == [t] + kept;
        assert Entries([t] + kept) == [es[0]] + Entries(kept);
      }
    }
  }

  /** Every output row is dated inside the window, bounds included. */
  lemma TransactionsWithinBounds(start: Date, end: Date, invoices: seq<Invoice>, receipts: seq<Receipt>)
    ensures forall t :: t in BuildClientTransactions(start, end, invoices, receipts) ==> Between(t.entry.sortDate, start, end)
  {
  }

  /** The output holds exactly the invoice and receipt entries dated inside the window,
      each as often as in the input. */
  lemma TransactionsInWindow(start: Date, end: Date, invoices: seq<Invoice>, receipts: seq<Receipt>)
    ensures var inWindow := EntryInWindow(start, end);
      multiset(Entries(BuildClientTransactions(start, end, invoices, receipts)))
      == multiset(Filter(SignedInvoices(invoices), inWindow)) + multiset(Filter(SignedReceipts(receipts), inWindow))
  {
    var inWindow := EntryInWindow(start, end);
    var all := SignedInvoices(invoices) + SignedReceipts(receipts);
    RunningFilter(Ledger(invoices, receipts), map[], start, end);
    FilterPermutation(Ledger(invoices, receipts), all, inWindow);
    FilterAppend(SignedInvoices(invoices), SignedReceipts(receipts), inWindow);
  }

  /** The output rows are in `sort_date` order. */
  lemma TransactionsOrdered(start: Date, end: Date, invoices: seq<Invoice>, receipts: seq<Receipt>)
    ensures SortedBy(BuildClientTransactions(start, end, invoices, receipts), TxnDateLe)
  {
    var es := Ledger(invoices, receipts);
    var out := Running(es, map[]);
    EntryOrderIsPreorder();
    assert SortedBy(es, EntryDateLe);
    assert SortedBy(out, TxnDateLe) by {
      forall i, j | 0 <= i < j < |out| ensures TxnDateLe(out[i], out[j]) {
        assert EntryDateLe(es[i], es[j]);
      }
    }
    FilterSorted(out, TxnDateLe, InWindow(start, end));
  }

  // ---------------------------------------------------------------------------
  // Signs

  lemma {:induction false} SumNonNegative(es: seq<Entry>)
    requires forall k :: 0 <= k < |es| ==> es[k].amount >= 0
    ensures SumBy(es, EntryAmount) >= 0
  {
    if es != [] {
      SumNonNegative(es[1..]);
    }
  }

  lemma {:induction false} SumNonPositive(es: seq<Entry>)
    requires forall k :: 0 <= k < |es| ==> es[k].amount <= 0
    ensures SumBy(es, EntryAmount) <= 0
  {
    if es != [] {
      SumNonPositive(es[1..]);
    }
  }

  /** A client's sum over rows whose amounts are all non-negative (non-positive) is so too. */
  lemma ClientSumSign(es: seq<Entry>, c: string)
    ensures (forall k :: 0 <= k < |es| ==> es[k].amount >= 0) ==> ClientSum(es, c) >= 0
    ensures (forall k :: 0 <= k < |es| ==> es[k].amount <= 0) ==> ClientSum(es, c) <= 0
  {
    var mine := Filter(es, EntryOf(c));
    if forall k :: 0 <= k < |es| ==> es[k].amount >= 0 {
      SumNonNegative(mine);
    }
    if forall k :: 0 <= k < |es| ==> es[k].amount <= 0 {
      SumNonPositive(mine);
    }
  }

  /** Every ledger row is one of the signed entries. */
  lemma LedgerRows(invoices: seq<Invoice>, receipts: seq<Receipt>, i: int)
    requires 0 <= i < |Ledger(invoices, receipts)|
    ensures Ledger(invoices, receipts)[i] in SignedInvoices(invoices) + SignedReceipts(receipts)
  {
    assert Ledger(invoices, receipts)[i] in multiset(Ledger(invoices, receipts));
  }

  /** Running balances over rows of one sign keep that sign. */
  lemma RunningSign(es: seq<Entry>)
    ensures (forall k :: 0 <= k < |es| ==> es[k].amount >= 0) ==>
      forall i :: 0 <= i < |es| ==> Running(es, map[])[i].balance >= 0
    ensures (forall k :: 0 <= k < |es| ==> es[k].amount <= 0) ==>
      forall i :: 0 <= i < |es| ==> Running(es, map[])[i].balance <= 0
  {
    forall i | 0 <= i < |es|
      ensures (forall k :: 0 <= k < |es| ==> es[k].amount >= 0) ==> Running(es, map[])[i].balance >= 0
      ensures (forall k :: 0 <= k < |es| ==> es[k].amount <= 0) ==> Running(es, map[])[i].balance <= 0
    {
      RunningIsPrefix(es, map[], i);
      ClientSumSign(es[..i + 1], es[i].client);
    }
  }

  lemma InvoiceLedgerSign(invoices: seq<Invoice>)
    requires forall k :: 0 <= k < |invoices| ==> invoices[k].total >= 0
    ensures forall k :: 0 <= k < |Ledger(invoices, [])| ==> Ledger(invoices, [])[k].amount >= 0
  {
    var es := Ledger(invoices, []);
    var ins := SignedInvoices(invoices);
    assert ins + SignedReceipts([]) == ins;
    forall k | 0 <= k < |es| ensures es[k].amount >= 0 {
      LedgerRows(invoices, [], k);
      var m :| 0 <= m < |ins| && ins[m] == es[k];
    }
  }

  lemma ReceiptLedgerSign(receipts: seq<Receipt>)
    requires forall k :: 0 <= k < |receipts| ==> receipts[k].amount >= 0
    ensures forall k :: 0 <= k < |Ledger([], receipts)| ==> Ledger([], receipts)[k].amount <= 0
  {
    var es := Ledger([], receipts);
    var rs := SignedReceipts(receipts);
    assert SignedInvoices([]) + rs == rs;
    forall k | 0 <= k < |es| ensures es[k].amount <= 0 {
      LedgerRows([], receipts, k);
      var m :| 0 <= m < |rs| && rs[m] == es[k];
    }
  }

  /** With only invoices, each of non-negative total, every balance is a non-negative
      running total. */
  lemma InvoicesOnlyBalances(start: Date, end: Date, invoices: seq<Invoice>)
    requires forall k :: 0 <= k < |invoices| ==> invoices[k].total >= 0
    ensures forall t :: t in BuildClientTransactions(start, end, invoices, []) ==> t.balance >= 0
  {
    InvoiceLedgerSign(invoices);
    RunningSign(Ledger(invoices, []));
  }

  /** With only receipts, each of non-negative amount, every balance is a non-positive
      running total. */
  lemma ReceiptsOnlyBalances(start: Date, end: Date, receipts: seq<Receipt>)
    requires forall k :: 0 <= k < |receipts| ==> receipts[k].amount >= 0
    ensures forall t :: t in BuildClientTransactions(start, end, [], receipts) ==> t.balance <= 0
  {
    ReceiptLedgerSign(receipts);
    RunningSign(Ledger([], receipts));
  }
}
