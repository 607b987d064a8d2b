/** The FIFO payment matcher (`match_payments`): one client's receipts, in date order,
    pay off that client's invoices, oldest first. */
module PaymentMatcher {
  import opened Tables

  /** What the matcher reads of an invoice: its number, which may be missing or
      empty, and its total. */
  datatype InvoiceEntry = InvoiceEntry(number: Option<string>, total: int)

  /** What the matcher reads of a receipt. */
  datatype ReceiptEntry = ReceiptEntry(number: string, amount: int)

  /** Part of a receipt applied to an invoice, or, with no invoice, an advance. */
  datatype Allocation = Allocation(invoice: Option<string>, amount: int)

  /** The matcher's record for one receipt: its number and its allocations. */
  datatype MatchedPayment = MatchedPayment(receipt: string, invoices: seq<Allocation>)

  /** An invoice still owing money: a queue entry, and a row of the unpaid result. */
  datatype OpenInvoice = OpenInvoice(number: string, balance: int)

  /** `if not invoice_number`: a missing and an empty number are both skipped. */
  predicate HasNumber(inv: InvoiceEntry) {
    inv.number.Some? && inv.number.value != ""
  }

  // ---------------------------------------------------------------------------
  // Specification

  /** The queue the first loop builds: numbered invoices in input order, each owing
      its total. */
  function InitialQueue(invoices: seq<InvoiceEntry>): seq<OpenInvoice> {
    if invoices == [] then []
    else
      var last := invoices[|invoices| - 1];
      InitialQueue(invoices[..|invoices| - 1]) + (if HasNumber(last) then [QueueEntry(last)] else [])
  }

  /** `{"number": invoice_number, "balance": invoice_amount}` */
  function QueueEntry(inv: InvoiceEntry): OpenInvoice
    requires HasNumber(inv)
  {
    OpenInvoice(inv.number.value, inv.total)
  }

  /** The inner `while` loop: the allocations a receipt balance `rb` takes from the
      head of `queue`, the receipt balance left, and the queue afterwards. */
  function Allocate(rb: int, queue: seq<OpenInvoice>): (seq<Allocation>, int, seq<OpenInvoice>)
    decreases |queue|
  {
    if rb <= 0 || queue == [] then ([], rb, queue)
    else if rb >= queue[0].balance then
      var (rest, left, after) := Allocate(rb - queue[0].balance, queue[1..]);
      ([Allocation(Some(queue[0].number), queue[0].balance)] + rest, left, after)
    else
      ([Allocation(Some(queue[0].number), rb)], 0,
       [OpenInvoice(queue[0].number, queue[0].balance - rb)] + queue[1..])
  }

  /** One receipt: its allocations, an advance entry for what no invoice absorbed,
      and the queue left for the next receipt. */
  function ReceiptStep(queue: seq<OpenInvoice>, r: ReceiptEntry): (MatchedPayment, seq<OpenInvoice>) {
    var (named, left, after) := Allocate(r.amount, queue);
    (MatchedPayment(r.number, named + (if left > 0 then [Allocation(None, left)] else [])), after)
  }

  /** All receipts in order, threading the queue. */
  function MatchAll(queue: seq<OpenInvoice>, receipts: seq<ReceiptEntry>): (r: (seq<MatchedPayment>, seq<OpenInvoice>))
    ensures |r.0| == |receipts|
    decreases |receipts|
  {
    if receipts == [] then ([], queue)
    else
      var (m, after) := ReceiptStep(queue, receipts[0]);
      var (ms, rest) := MatchAll(after, receipts[1..]);
      ([m] + ms, rest)
  }

  /** `match_payments(invoices, receipts)` as a value. */
  function MatchSpec(invoices: seq<InvoiceEntry>, receipts: seq<ReceiptEntry>): (r: (seq<MatchedPayment>, seq<OpenInvoice>))
    ensures invoices != [] ==> |r.0| == |receipts|
  {
    if invoices == [] || receipts == [] then ([], [])
    else MatchAll(InitialQueue(invoices), receipts)
  }

  /** One turn of the inner loop: the head invoice is paid in full, or in part with
      the receipt balance used up. */
  lemma AllocateHead(rb: int, queue: seq<OpenInvoice>)
    requires rb > 0 && queue != []
    ensures var head := queue[0];
      var rb' := if rb >= head.balance then rb - head.balance else 0;
      var paid := if rb >= head.balance then head.balance else rb;
      var queue' := if rb >= head.balance then queue[1..] else [OpenInvoice(head.number, head.balance - rb)] + queue[1..];
      && Allocate(rb, queue).0 == [Allocation(Some(head.number), paid)] + Allocate(rb', queue').0
      && Allocate(rb, queue).1 == Allocate(rb', queue').1
      && Allocate(rb, queue).2 == Allocate(rb', queue').2
  {
  }

  /** Moving the next element of a sequence from the part still to do to the part done. */
  lemma ExtendPrefix<T>(done: seq<T>, x: T, rest: seq<T>, whole: seq<T>)
    requires done + ([x] + rest) == whole
    ensures (done + [x]) + rest == whole
  {
    assert (done + [x]) + rest == done + ([x] + rest);
  }

  /** One turn of the receipts loop. */
  lemma MatchAllHead(queue: seq<OpenInvoice>, receipts: seq<ReceiptEntry>, i: nat)
    requires i < |receipts|
    ensures var (m, after) := ReceiptStep(queue, receipts[i]);
      && MatchAll(queue, receipts[i..]).0 == [m] + MatchAll(after, receipts[i + 1..]).0
      && MatchAll(queue, receipts[i..]).1 == MatchAll(after, receipts[i + 1..]).1
  {
    assert receipts[i..][0] == receipts[i] && receipts[i..][1..] == receipts[i + 1..];
  }

  // ---------------------------------------------------------------------------
  // The matcher as the source runs it

  method MatchPayments(invoices: seq<InvoiceEntry>, receipts: seq<ReceiptEntry>)
    returns (matched: seq<MatchedPayment>, unmatched: seq<OpenInvoice>)
    ensures (matched, unmatched) == MatchSpec(invoices, receipts)
  {
    if |invoices| == 0 || |receipts| == 0 {
      return [], [];
    }
    unmatched := [];
    for i := 0 to |invoices|
      invariant unmatched == InitialQueue(invoices[..i])
    {
      var invoice := invoices[i];
      assert invoices[..i + 1][..i] == invoices[..i];
      if invoice.number.Some? && invoice.number.value != "" {
        unmatched := unmatched + [OpenInvoice(invoice.number.value, invoice.total)];
      }
    }
    assert invoices[..|invoices|] == invoices;
    ghost var queue0 := unmatched;
    matched := [];
    for i := 0 to |receipts|
      invariant matched + MatchAll(unmatched, receipts[i..]).0 == MatchAll(queue0, receipts).0
      invariant MatchAll(unmatched, receipts[i..]).1 == MatchAll(queue0, receipts).1
    {
      var receipt := receipts[i];
      ghost var before := unmatched;
      var receiptBalance := receipt.amount;
      var matches := [];
      while receiptBalance > 0 && |unmatched| > 0
        invariant matches + Allocate(receiptBalance, unmatched).0 == Allocate(receipt.amount, before).0
        invariant Allocate(receiptBalance, unmatched).1 == Allocate(receipt.amount, before).1
        invariant Allocate(receiptBalance, unmatched).2 == Allocate(receipt.amount, before).2
        decreases |unmatched| + (if receiptBalance > 0 then 1 else 0)
      {
        var invoice := unmatched[0];
        AllocateHead(receiptBalance, unmatched);
        if receiptBalance >= invoice.balance {
          ExtendPrefix(matches, Allocation(Some(invoice.number), invoice.balance),
                       Allocate(receiptBalance - invoice.balance, unmatched[1..]).0, Allocate(receipt.amount, before).0);
          matches := matches + [Allocation(Some(invoice.number), invoice.balance)];
          receiptBalance := receiptBalance - invoice.balance;
          unmatched := unmatched[1..];
        } else {
          ExtendPrefix(matches, Allocation(Some(invoice.number), receiptBalance),
                       Allocate(0, [OpenInvoice(invoice.number, invoice.balance - receiptBalance)] + unmatched[1..]).0,
                       Allocate(receipt.amount, before).0);
          matches := matches + [Allocation(Some(invoice.number), receiptBalance)];
          unmatched := [OpenInvoice(invoice.number, invoice.balance - receiptBalance)] + unmatched[1..];
          receiptBalance := 0;
        }
      }
      assert Allocate(receiptBalance, unmatched) == ([], receiptBalance, unmatched);
      assert matches + [] == matches;
      if receiptBalance > 0 {
        matches := matches + [Allocation(None, receiptBalance)];
      }
      assert ReceiptStep(before, receipt) == (MatchedPayment(receipt.number, matches), unmatched);
      MatchAllHead(before, receipts, i);
      ExtendPrefix(matched, MatchedPayment(receipt.number, matches), MatchAll(unmatched, receipts[i + 1..]).0,
                   MatchAll(queue0, receipts).0);
      matched := matched + [MatchedPayment(receipt.number, matches)];
    }
    assert receipts[|receipts|..] == [];
    assert matched + [] == matched;
  }

  // ---------------------------------------------------------------------------
  // Properties of the matcher

  function AllocationAmount(a: Allocation): int { a.amount }
  function OpenBalance(e: OpenInvoice): int { e.balance }
  predicate IsNamed(a: Allocation) { a.invoice.Some? }

  /** What a receipt applied to named invoices (its advance entry excluded). */
  function NamedTotal(m: MatchedPayment): int { SumBy(Filter(m.invoices, IsNamed), AllocationAmount) }

  /** Everything a receipt allocated, advance included. */
  function AllocatedTotal(m: MatchedPayment): int { SumBy(m.invoices, AllocationAmount) }

  /** `named` takes the head of `queue` in queue order: every entry but the last
      clears its invoice and removes it; the last either clears its invoice too, or
      takes part of it and leaves the rest at the head of `after`. */
  ghost predicate TakesFifo(queue: seq<OpenInvoice>, named: seq<Allocation>, after: seq<OpenInvoice>) {
    var n := |named|;
    && n <= |queue|
    && (forall j :: 0 <= j < n ==> named[j].invoice == Some(queue[j].number))
    && (forall j :: 0 <= j < n - 1 ==> named[j].amount == queue[j].balance)
    && ((after == queue[n..] && (n > 0 ==> named[n - 1].amount == queue[n - 1].balance))
        || (n > 0 && 0 < named[n - 1].amount < queue[n - 1].balance
            && after == [OpenInvoice(queue[n - 1].number, queue[n - 1].balance - named[n - 1].amount)] + queue[n..]))
  }

  /** The allocations of one receipt, minus a trailing advance entry. */
  function NamedPart(allocs: seq<Allocation>): seq<Allocation> {
    if allocs != [] && allocs[|allocs| - 1].invoice.None? then allocs[..|allocs| - 1] else allocs
  }

  /** How one receipt `r`, meeting `queue`, is recorded as `m` and leaves `after`. */
  ghost predicate FifoReceipt(queue: seq<OpenInvoice>, r: ReceiptEntry, m: MatchedPayment, after: seq<OpenInvoice>) {
    var allocs := m.invoices;
    && m.receipt == r.number
    && TakesFifo(queue, NamedPart(allocs), after)
    // an advance entry is only ever the last one, and only once the queue is used up
    && (forall j :: 0 <= j < |allocs| - 1 ==> allocs[j].invoice.Some?)
    && (allocs != [] && allocs[|allocs| - 1].invoice.None? ==> after == [] && allocs[|allocs| - 1].amount > 0)
  }

  /** What the inner loop does to the amounts: the receipt balance is never driven
      below zero, and every unit it loses lands on the invoice it paid. */
  lemma {:induction false} AllocateSums(rb: int, queue: seq<OpenInvoice>)
    ensures var (named, left, after) := Allocate(rb, queue);
      && (rb <= 0 ==> named == [] && left == rb && after == queue)
      && (rb > 0 ==> 0 <= left && SumBy(named, AllocationAmount) + left == rb)
      && (left > 0 ==> after == [])
      && SumBy(named, AllocationAmount) + SumBy(after, OpenBalance) == SumBy(queue, OpenBalance)
    decreases |queue|
  {
    if rb > 0 && queue != [] {
      var head := queue[0];
      if rb >= head.balance {
        AllocateSums(rb - head.balance, queue[1..]);
      } else {
        var after := [OpenInvoice(head.number, head.balance - rb)] + queue[1..];
        assert after[1..] == queue[1..];
      }
    }
  }

  /** The inner loop takes invoices strictly from the head of the queue. */
  lemma {:induction false} AllocateFifo(rb: int, queue: seq<OpenInvoice>)
    ensures var (named, left, after) := Allocate(rb, queue); TakesFifo(queue, named, after)
    decreases |queue|
  {
    if rb > 0 && queue != [] {
      var head := queue[0];
      if rb >= head.balance {
        AllocateFifo(rb - head.balance, queue[1..]);
        var (rest, left, after) := Allocate(rb - head.balance, queue[1..]);
        var named := [Allocation(Some(head.number), head.balance)] + rest;
        assert Allocate(rb, queue) == (named, left, after);
        assert named[1..] == rest;
        assert queue[1..][|rest|..] == queue[|named|..];
        forall j | 1 <= j < |named| ensures named[j] == rest[j - 1] && queue[j] == queue[1..][j - 1] {
        }
      }
    }
  }

  /** The advance entry, when there is one, is what the named allocations left over. */
  lemma WithAdvance(named: seq<Allocation>, left: int)
    requires forall j :: 0 <= j < |named| ==> named[j].invoice.Some?
    ensures var allocs := named + (if left > 0 then [Allocation(None, left)] else []);
      && NamedPart(allocs) == named
      && Filter(allocs, IsNamed) == named
      && SumBy(allocs, AllocationAmount) == SumBy(named, AllocationAmount) + (if left > 0 then left else 0)
      && (forall j :: 0 <= j < |allocs| - 1 ==> allocs[j].invoice.Some?)
      && (allocs != [] && allocs[|allocs| - 1].invoice.None? ==> left > 0 && allocs[|allocs| - 1].amount == left)
  {
    AdvanceShape(named, left);
    AdvanceSums(named, left);
  }

  /** Where the advance entry sits. */
  lemma AdvanceShape(named: seq<Allocation>, left: int)
    requires forall j :: 0 <= j < |named| ==> named[j].invoice.Some?
    ensures var allocs := named + (if left > 0 then [Allocation(None, left)] else []);
      && NamedPart(allocs) == named
      && (forall j :: 0 <= j < |allocs| - 1 ==> allocs[j].invoice.Some?)
      && (allocs != [] && allocs[|allocs| - 1].invoice.None? ==> left > 0 && allocs[|allocs| - 1].amount == left)
  {
    var allocs := named + (if left > 0 then [Allocation(None, left)] else []);
    if left > 0 {
      assert allocs[..|allocs| - 1] == named;
    } else {
      assert allocs == named;
    }
  }

  /** What the advance entry adds: nothing named, and the leftover to the total. */
  lemma AdvanceSums(named: seq<Allocation>, left: int)
    requires forall j :: 0 <= j < |named| ==> named[j].invoice.Some?
    ensures var allocs := named + (if left > 0 then [Allocation(None, left)] else []);
      && Filter(allocs, IsNamed) == named
      && SumBy(allocs, AllocationAmount) == SumBy(named, AllocationAmount) + (if left > 0 then left else 0)
  {
    var tail := if left > 0 then [Allocation(None, left)] else [];
    SumAppend(named, tail, AllocationAmount);
    FilterAppend(named, tail, IsNamed);
    FilterAll(named, IsNamed);
    FilterNone(tail, IsNamed);
    assert Filter(named + tail, IsNamed) == named + [];
  }

  /** The record of one receipt is FIFO once its named allocations are and a
      leftover only remains after the queue ran out. */
  lemma RecordIsFifo(queue: seq<OpenInvoice>, r: ReceiptEntry, named: seq<Allocation>, left: int, after: seq<OpenInvoice>)
    requires TakesFifo(queue, named, after)
    requires left > 0 ==> after == []
    requires forall j :: 0 <= j < |named| ==> named[j].invoice.Some?
    ensures FifoReceipt(queue, r, MatchedPayment(r.number, named + (if left > 0 then [Allocation(None, left)] else [])), after)
  {
    WithAdvance(named, left);
  }

  /** Everything the matcher promises about a single receipt. */
  lemma ReceiptStepFacts(queue: seq<OpenInvoice>, r: ReceiptEntry)
    ensures var (m, after) := ReceiptStep(queue, r);
      && FifoReceipt(queue, r, m, after)
      && AllocatedTotal(m) == (if r.amount > 0 then r.amount else 0)
      && NamedTotal(m) + SumBy(after, OpenBalance) == SumBy(queue, OpenBalance)
  {
    ReceiptStepFifo(queue, r);
    ReceiptStepTotals(queue, r);
  }

  lemma ReceiptStepFifo(queue: seq<OpenInvoice>, r: ReceiptEntry)
    ensures var (m, after) := ReceiptStep(queue, r); FifoReceipt(queue, r, m, after)
  {
    var (named, left, after) := Allocate(r.amount, queue);
    AllocateSums(r.amount, queue);
    AllocateFifo(r.amount, queue);
    assert forall j :: 0 <= j < |named| ==> named[j].invoice.Some?;
    RecordIsFifo(queue, r, named, left, after);
  }

  lemma ReceiptStepTotals(queue: seq<OpenInvoice>, r: ReceiptEntry)
    ensures var (m, after) := ReceiptStep(queue, r);
      && AllocatedTotal(m) == (if r.amount > 0 then r.amount else 0)
      && NamedTotal(m) + SumBy(after, OpenBalance) == SumBy(queue, OpenBalance)
  {
    var (named, left, after) := Allocate(r.amount, queue);
    AllocateSums(r.amount, queue);
    AllocateFifo(r.amount, queue);
    assert forall j :: 0 <= j < |named| ==> named[j].invoice.Some?;
    AdvanceSums(named, left);
    var m := MatchedPayment(r.number, named + (if left > 0 then [Allocation(None, left)] else []));
    assert ReceiptStep(queue, r) == (m, after);
    assert NamedTotal(m) == SumBy(named, AllocationAmount);
  }

  /** The queue the `i`-th receipt meets. */
  function QueueBefore(queue: seq<OpenInvoice>, receipts: seq<ReceiptEntry>, i: nat): seq<OpenInvoice>
    requires i <= |receipts|
    decreases i
  {
    if i == 0 then queue else QueueBefore(ReceiptStep(queue, receipts[0]).1, receipts[1..], i - 1)
  }

  /** `MatchAll` is the receipts taken one at a time against the queue each one meets. */
  lemma {:induction false} MatchAllTrace(queue: seq<OpenInvoice>, receipts: seq<ReceiptEntry>)
    ensures |MatchAll(queue, receipts).0| == |receipts|
    ensures MatchAll(queue, receipts).1 == QueueBefore(queue, receipts, |receipts|)
    ensures forall i :: 0 <= i < |receipts| ==>
      MatchAll(queue, receipts).0[i] == ReceiptStep(QueueBefore(queue, receipts, i), receipts[i]).0
      && QueueBefore(queue, receipts, i + 1) == ReceiptStep(QueueBefore(queue, receipts, i), receipts[i]).1
    decreases |receipts|
  {
    if receipts != [] {
      var after := ReceiptStep(queue, receipts[0]).1;
      MatchAllTrace(after, receipts[1..]);
      forall i | 1 <= i < |receipts|
        ensures QueueBefore(queue, receipts, i) == QueueBefore(after, receipts[1..], i - 1)
        ensures QueueBefore(queue, receipts, i + 1) == QueueBefore(after, receipts[1..], i)
      {
      }
    }
  }

  /** Both lists empty, or either: nothing is matched and nothing is reported unpaid.
      Otherwise there is exactly one entry per receipt, in receipt order, carrying that
      receipt's number, even when its list of allocations is empty. */
  lemma OneEntryPerReceipt(invoices: seq<InvoiceEntry>, receipts: seq<ReceiptEntry>)
    ensures invoices == [] || receipts == [] ==> MatchSpec(invoices, receipts) == ([], [])
    ensures invoices != [] && receipts != [] ==>
      var matched := MatchSpec(invoices, receipts).0;
      |matched| == |receipts| && forall i :: 0 <= i < |receipts| ==> matched[i].receipt == receipts[i].number
  {
    if invoices != [] && receipts != [] {
      var q := InitialQueue(invoices);
      MatchAllTrace(q, receipts);
      forall i | 0 <= i < |receipts| ensures MatchSpec(invoices, receipts).0[i].receipt == receipts[i].number {
        ReceiptStepFacts(QueueBefore(q, receipts, i), receipts[i]);
      }
    }
  }

  /** Receipt `i` allocates FIFO against the queue left by the receipts before it, and
      the unpaid result is the queue the last receipt leaves. */
  lemma EachReceiptIsFifo(invoices: seq<InvoiceEntry>, receipts: seq<ReceiptEntry>, i: nat)
    requires invoices != [] && i < |receipts|
    ensures var q := InitialQueue(invoices);
      && FifoReceipt(QueueBefore(q, receipts, i), receipts[i], MatchSpec(invoices, receipts).0[i], QueueBefore(q, receipts, i + 1))
      && MatchSpec(invoices, receipts).1 == QueueBefore(q, receipts, |receipts|)
  {
    var q := InitialQueue(invoices);
    MatchAllTrace(q, receipts);
    ReceiptStepFacts(QueueBefore(q, receipts, i), receipts[i]);
  }

  /** A receipt's allocations add up to exactly its amount (nothing when the amount is
      not positive), whatever the invoice totals. */
  lemma ReceiptFullyAllocated(invoices: seq<InvoiceEntry>, receipts: seq<ReceiptEntry>, i: nat)
    requires invoices != [] && i < |receipts|
    ensures AllocatedTotal(MatchSpec(invoices, receipts).0[i]) == (if receipts[i].amount > 0 then receipts[i].amount else 0)
  {
    var q := InitialQueue(invoices);
    MatchAllTrace(q, receipts);
    ReceiptStepFacts(QueueBefore(q, receipts, i), receipts[i]);
  }

  lemma {:induction false} MatchAllConserves(queue: seq<OpenInvoice>, receipts: seq<ReceiptEntry>)
    ensures var (matched, unpaid) := MatchAll(queue, receipts);
      SumBy(matched, NamedTotal) + SumBy(unpaid, OpenBalance) == SumBy(queue, OpenBalance)
    ensures (forall j :: 0 <= j < |receipts| ==> receipts[j].amount >= 0) ==>
      SumBy(MatchAll(queue, receipts).0, AllocatedTotal) == SumBy(receipts, EntryAmount)
    decreases |receipts|
  {
    if receipts != [] {
      ReceiptStepFacts(queue, receipts[0]);
      var (m, after) := ReceiptStep(queue, receipts[0]);
      MatchAllConserves(after, receipts[1..]);
      var (ms, rest) := MatchAll(after, receipts[1..]);
      assert MatchAll(queue, receipts) == ([m] + ms, rest);
      assert ([m] + ms)[1..] == ms;
    }
  }

  function EntryAmount(r: ReceiptEntry): int { r.amount }

  /** Conservation: what receipts applied to named invoices plus what remains unpaid is
      exactly what the numbered invoices were for; and with non-negative receipts,
      every unit received is allocated once. */
  lemma Conservation(invoices: seq<InvoiceEntry>, receipts: seq<ReceiptEntry>)
    requires invoices != [] && receipts != []
    ensures var (matched, unpaid) := MatchSpec(invoices, receipts);
      SumBy(matched, NamedTotal) + SumBy(unpaid, OpenBalance) == SumBy(InitialQueue(invoices), OpenBalance)
    ensures (forall j :: 0 <= j < |receipts| ==> receipts[j].amount >= 0) ==>
      SumBy(MatchSpec(invoices, receipts).0, AllocatedTotal) == SumBy(receipts, EntryAmount)
  {
    MatchAllConserves(InitialQueue(invoices), receipts);
  }

  /** The queue holds exactly the numbered invoices, in input order, each owing its
      total; an invoice with a missing or empty number never enters it. */
  lemma {:induction false} InitialQueueIsNumberedInvoices(invoices: seq<InvoiceEntry>)
    ensures var numbered := Filter(invoices, HasNumber);
      && |InitialQueue(invoices)| == |numbered|
      && forall t :: 0 <= t < |numbered| ==> InitialQueue(invoices)[t] == QueueEntry(numbered[t])
    decreases |invoices|
  {
    if invoices != [] {
      var init := invoices[..|invoices| - 1];
      var last := invoices[|invoices| - 1];
      InitialQueueIsNumberedInvoices(init);
      assert invoices == init + [last];
      FilterAppend(init, [last], HasNumber);
      assert Filter([last], HasNumber) == if HasNumber(last) then [last] else [];
    }
  }

  /** The invoices still (partly) owed after some receipts: a suffix of the queue `e`
      the receipts started from, whose head alone may carry a reduced balance, and a
      reduced balance is strictly positive. */
  ghost predicate ResidueOf(e: seq<OpenInvoice>, q: seq<OpenInvoice>) {
    && |q| <= |e|
    && (forall j :: 1 <= j < |q| ==> q[j] == e[|e| - |q| + j])
    && (q != [] ==>
          var first := e[|e| - |q|];
          q[0].number == first.number
          && (q[0].balance == first.balance || 0 < q[0].balance < first.balance))
  }

  lemma {:induction false} AllocateKeepsResidue(e: seq<OpenInvoice>, rb: int, queue: seq<OpenInvoice>)
    requires ResidueOf(e, queue)
    ensures ResidueOf(e, Allocate(rb, queue).2)
    decreases |queue|
  {
    if rb > 0 && queue != [] {
      var head := queue[0];
      if rb >= head.balance {
        var rest := queue[1..];
        assert ResidueOf(e, rest) by {
          forall j | 1 <= j < |rest| ensures rest[j] == e[|e| - |rest| + j] {
            assert rest[j] == queue[j + 1];
          }
          if rest != [] {
            assert rest[0] == queue[1];
          }
        }
        AllocateKeepsResidue(e, rb - head.balance, rest);
      } else {
        var after := [OpenInvoice(head.number, head.balance - rb)] + queue[1..];
        assert Allocate(rb, queue).2 == after;
        forall j | 1 <= j < |after| ensures after[j] == e[|e| - |after| + j] {
          assert after[j] == queue[j];
        }
      }
    }
  }

  lemma {:induction false} MatchAllKeepsResidue(e: seq<OpenInvoice>, queue: seq<OpenInvoice>, receipts: seq<ReceiptEntry>)
    requires ResidueOf(e, queue)
    ensures ResidueOf(e, MatchAll(queue, receipts).1)
    decreases |receipts|
  {
    if receipts != [] {
      AllocateKeepsResidue(e, receipts[0].amount, queue);
      MatchAllKeepsResidue(e, ReceiptStep(queue, receipts[0]).1, receipts[1..]);
    }
  }

  /** The unpaid result is what is left of the numbered invoices, oldest first: a suffix
      of them in input order, of which only the first may be partly paid. */
  lemma UnpaidIsResidue(invoices: seq<InvoiceEntry>, receipts: seq<ReceiptEntry>)
    ensures ResidueOf(InitialQueue(invoices), MatchSpec(invoices, receipts).1)
  {
    var e := InitialQueue(invoices);
    assert ResidueOf(e, e);
    MatchAllKeepsResidue(e, e, receipts);
  }

  function EntryNumber(inv: InvoiceEntry): Option<string> { inv.number }
  function OpenNumber(e: OpenInvoice): string { e.number }

  /** Each entry of a residue carries the number of the queue entry it stands for. */
  lemma ResidueNumbers(e: seq<OpenInvoice>, q: seq<OpenInvoice>)
    requires ResidueOf(e, q)
    ensures forall j :: 0 <= j < |q| ==> q[j].number == e[|e| - |q| + j].number
  {
    forall j | 0 <= j < |q| ensures q[j].number == e[|e| - |q| + j].number {
      if j > 0 {
        assert q[j] == e[|e| - |q| + j];
      }
    }
  }

  /** What an unpaid entry says about an input invoice: it carries that invoice's number,
      and still owes either its whole total or a strictly positive part of it. */
  ghost predicate OwedOn(o: OpenInvoice, inv: InvoiceEntry) {
    && HasNumber(inv)
    && inv.number == Some(o.number)
    && (o.balance == inv.total || 0 < o.balance < inv.total)
  }

  /** Every unpaid entry is a numbered input invoice, owing its total or a positive
      part of it. */
  lemma UnpaidAreNumberedInvoices(invoices: seq<InvoiceEntry>, receipts: seq<ReceiptEntry>)
    ensures var unpaid := MatchSpec(invoices, receipts).1;
      forall j :: 0 <= j < |unpaid| ==> exists t :: 0 <= t < |invoices| && OwedOn(unpaid[j], invoices[t])
  {
    var e := InitialQueue(invoices);
    var q := MatchSpec(invoices, receipts).1;
    UnpaidIsResidue(invoices, receipts);
    InitialQueueIsNumberedInvoices(invoices);
    var numbered := Filter(invoices, HasNumber);
    forall j | 0 <= j < |q| ensures exists t :: 0 <= t < |invoices| && OwedOn(q[j], invoices[t]) {
      var k := |e| - |q| + j;
      assert e[k] == QueueEntry(numbered[k]);
      if j > 0 {
        assert q[j] == e[k];
      }
      assert numbered[k] in invoices && HasNumber(numbered[k]);
      var t :| 0 <= t < |invoices| && invoices[t] == numbered[k];
      assert OwedOn(q[j], invoices[t]);
    }
  }

  /** When the input invoice numbers are unique, so are the unpaid entries' numbers. */
  lemma UnpaidNumbersDistinct(invoices: seq<InvoiceEntry>, receipts: seq<ReceiptEntry>)
    requires KeysDistinct(invoices, EntryNumber)
    ensures KeysDistinct(MatchSpec(invoices, receipts).1, OpenNumber)
  {
    var e := InitialQueue(invoices);
    var q := MatchSpec(invoices, receipts).1;
    UnpaidIsResidue(invoices, receipts);
    ResidueNumbers(e, q);
    InitialQueueIsNumberedInvoices(invoices);
    var numbered := Filter(invoices, HasNumber);
    FilterKeepsKeysDistinct(invoices, HasNumber, EntryNumber);
    forall a, b | 0 <= a < b < |q| ensures OpenNumber(q[a]) != OpenNumber(q[b]) {
      var ka, kb := |e| - |q| + a, |e| - |q| + b;
      assert EntryNumber(numbered[ka]) != EntryNumber(numbered[kb]);
    }
  }

  /** Every entry of a queue left by some receipts carries the number of a numbered
      input invoice. */
  lemma {:induction false} QueueNamesNumberedInvoice(invoices: seq<InvoiceEntry>, q: seq<OpenInvoice>, j: nat)
    requires ResidueOf(InitialQueue(invoices), q) && j < |q|
    ensures exists t :: 0 <= t < |invoices| && HasNumber(invoices[t]) && invoices[t].number == Some(q[j].number)
  {
    var e := InitialQueue(invoices);
    ResidueNumbers(e, q);
    var k := |e| - |q| + j;
    InitialQueueIsNumberedInvoices(invoices);
    var numbered := Filter(invoices, HasNumber);
    assert e[k] == QueueEntry(numbered[k]);
    assert numbered[k] in invoices && HasNumber(numbered[k]);
    var t :| 0 <= t < |invoices| && invoices[t] == numbered[k];
  }

  /** The queue receipt `i` meets is a residue of the initial queue. */
  lemma QueueBeforeIsResidue(invoices: seq<InvoiceEntry>, receipts: seq<ReceiptEntry>, i: nat)
    requires i <= |receipts|
    ensures ResidueOf(InitialQueue(invoices), QueueBefore(InitialQueue(invoices), receipts, i))
  {
    var e := InitialQueue(invoices);
    assert ResidueOf(e, e);
    MatchAllKeepsResidue(e, e, receipts[..i]);
    QueueBeforeIsPrefixRun(e, receipts, i);
  }

  /** Every invoice a receipt names is a numbered input invoice: an invoice with a
      missing or empty number is never paid against. */
  lemma AllocationsNameNumberedInvoices(invoices: seq<InvoiceEntry>, receipts: seq<ReceiptEntry>, i: nat, j: nat)
    requires invoices != [] && i < |receipts|
    requires j < |MatchSpec(invoices, receipts).0[i].invoices|
    requires MatchSpec(invoices, receipts).0[i].invoices[j].invoice.Some?
    ensures exists t :: (0 <= t < |invoices| && HasNumber(invoices[t])
      && invoices[t].number == MatchSpec(invoices, receipts).0[i].invoices[j].invoice)
  {
    var allocs := MatchSpec(invoices, receipts).0[i].invoices;
    var q := QueueBefore(InitialQueue(invoices), receipts, i);
    EachReceiptIsFifo(invoices, receipts, i);
    // the named allocation is the j-th of the queue receipt i met
    assert j < |NamedPart(allocs)| && NamedPart(allocs)[j] == allocs[j];
    assert allocs[j].invoice == Some(q[j].number);
    QueueBeforeIsResidue(invoices, receipts, i);
    QueueNamesNumberedInvoice(invoices, q, j);
  }

  /** The queue receipt `i` meets is the one the first `i` receipts leave. */
  lemma {:induction false} QueueBeforeIsPrefixRun(queue: seq<OpenInvoice>, receipts: seq<ReceiptEntry>, i: nat)
    requires i <= |receipts|
    ensures QueueBefore(queue, receipts, i) == MatchAll(queue, receipts[..i]).1
    decreases i
  {
    if i > 0 {
      QueueBeforeIsPrefixRun(ReceiptStep(queue, receipts[0]).1, receipts[1..], i - 1);
      assert receipts[..i][0] == receipts[0] && receipts[..i][1..] == receipts[1..][..i - 1];
    }
  }

  // ---------------------------------------------------------------------------
  // Worked cases

  /** Two invoices paid exactly by one receipt. */
  lemma ExactPayment()
    ensures MatchSpec([InvoiceEntry(Some("INV-1"), 100), InvoiceEntry(Some("INV-2"), 50)],
                      [ReceiptEntry("REC-1", 150)])
         == ([MatchedPayment("REC-1", [Allocation(Some("INV-1"), 100), Allocation(Some("INV-2"), 50)])], [])
  {
    var invoices := [InvoiceEntry(Some("INV-1"), 100), InvoiceEntry(Some("INV-2"), 50)];
    var q := [OpenInvoice("INV-1", 100), OpenInvoice("INV-2", 50)];
    assert invoices[..1] == [invoices[0]] && invoices[..1][..0] == [];
    assert InitialQueue(invoices) == q;
    var q' := [OpenInvoice("INV-2", 50)];
    assert q[1..] == q' && q'[1..] == [];
    var a0 := Allocate(0, []);
    assert a0.0 == [] && a0.1 == 0 && a0.2 == [];
    var a2 := Allocate(50, q');
    assert a2.0 == [Allocation(Some("INV-2"), 50)] && a2.1 == 0 && a2.2 == [];
    var a1 := Allocate(150, q);
    assert a1.0 == [Allocation(Some("INV-1"), 100), Allocation(Some("INV-2"), 50)] && a1.1 == 0 && a1.2 == [];
    var receipts := [ReceiptEntry("REC-1", 150)];
    assert receipts[1..] == [];
    var step := ReceiptStep(q, receipts[0]);
    assert step.0 == MatchedPayment("REC-1", a1.0) && step.1 == [];
    var all := MatchAll(q, receipts);
    assert all.0 == [step.0] && all.1 == [];
    assert MatchSpec(invoices, receipts) == all;
  }

  /** An overpayment: the invoice is cleared and the rest is an advance. */
  lemma Overpayment()
    ensures MatchSpec([InvoiceEntry(Some("INV-1"), 80)], [ReceiptEntry("REC-1", 100)])
         == ([MatchedPayment("REC-1", [Allocation(Some("INV-1"), 80), Allocation(None, 20)])], [])
  {
    var invoices := [InvoiceEntry(Some("INV-1"), 80)];
    var q := [OpenInvoice("INV-1", 80)];
    assert invoices[..0] == [];
    assert InitialQueue(invoices) == q;
    assert q[1..] == [];
    var a0 := Allocate(20, []);
    assert a0.0 == [] && a0.1 == 20 && a0.2 == [];
    var a1 := Allocate(100, q);
    assert a1.0 == [Allocation(Some("INV-1"), 80)] && a1.1 == 20 && a1.2 == [];
    var step := ReceiptStep(q, ReceiptEntry("REC-1", 100));
    assert step.0 == MatchedPayment("REC-1", [Allocation(Some("INV-1"), 80), Allocation(None, 20)]) && step.1 == [];
    var receipts := [ReceiptEntry("REC-1", 100)];
    assert receipts[1..] == [];
    var all := MatchAll(q, receipts);
    assert all.0 == [step.0] && all.1 == [];
    assert MatchSpec(invoices, receipts) == all;
  }

  /** A part payment leaves the rest of the invoice owing, an unnumbered invoice is
      passed over, and a later receipt finishes the first invoice before moving on. */
  lemma PartPayment()
    ensures MatchSpec([InvoiceEntry(Some("INV-1"), 100), InvoiceEntry(None, 70), InvoiceEntry(Some("INV-2"), 50)],
                      [ReceiptEntry("REC-1", 30), ReceiptEntry("REC-2", 90)])
         == ([MatchedPayment("REC-1", [Allocation(Some("INV-1"), 30)]),
              MatchedPayment("REC-2", [Allocation(Some("INV-1"), 70), Allocation(Some("INV-2"), 20)])],
             [OpenInvoice("INV-2", 30)])
  {
    var invoices := [InvoiceEntry(Some("INV-1"), 100), InvoiceEntry(None, 70), InvoiceEntry(Some("INV-2"), 50)];
    var receipts := [ReceiptEntry("REC-1", 30), ReceiptEntry("REC-2", 90)];
    var q := [OpenInvoice("INV-1", 100), OpenInvoice("INV-2", 50)];
    assert invoices[..2] == [invoices[0], invoices[1]] && invoices[..2][..1] == [invoices[0]] && invoices[..1][..0] == [];
    assert InitialQueue(invoices[..1]) == [q[0]];
    assert InitialQueue(invoices[..2]) == [q[0]];
    assert InitialQueue(invoices) == q;
    var q1 := [OpenInvoice("INV-1", 70), OpenInvoice("INV-2", 50)];
    var q2 := [OpenInvoice("INV-2", 30)];
    var a1 := Allocate(30, q);
    assert q[1..] == [q[1]];
    assert a1.0 == [Allocation(Some("INV-1"), 30)] && a1.1 == 0 && a1.2 == q1;
    var q1' := [OpenInvoice("INV-2", 50)];
    assert q1[1..] == q1' && q1'[1..] == [];
    var a3 := Allocate(20, q1');
    assert a3.0 == [Allocation(Some("INV-2"), 20)] && a3.1 == 0 && a3.2 == q2;
    var a2 := Allocate(90, q1);
    assert a2.0 == [Allocation(Some("INV-1"), 70), Allocation(Some("INV-2"), 20)] && a2.1 == 0 && a2.2 == q2;
    var r2 := [ReceiptEntry("REC-2", 90)];
    assert receipts[1..] == r2 && r2[1..] == [];
    var step2 := ReceiptStep(q1, r2[0]);
    assert step2.0 == MatchedPayment("REC-2", [Allocation(Some("INV-1"), 70), Allocation(Some("INV-2"), 20)]) && step2.1 == q2;
    var s3 := MatchAll(q2, []);
    assert s3.0 == [] && s3.1 == q2;
    var s2 := MatchAll(q1, r2);
    assert s2.0 == [step2.0] && s2.1 == q2;
    var step1 := ReceiptStep(q, receipts[0]);
    assert step1.0 == MatchedPayment("REC-1", [Allocation(Some("INV-1"), 30)]) && step1.1 == q1;
    var all := MatchAll(q, receipts);
    assert all.0 == [step1.0, step2.0] && all.1 == q2;
    assert MatchSpec(invoices, receipts) == all;
  }
}
