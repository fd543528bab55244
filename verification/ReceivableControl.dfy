/** The receivable control account against the schedule of open invoices.

    Every operation that touches receivables posts under the id of one invoice, except a split
    bank match, which posts one entry under the id of the bank line. The receivable balance of
    the entries that carry a bank line id is therefore kept beside the balances by invoice: at
    any cut-off date it is exactly minus the base value of the split shares in the payment
    table. Other entries under a bank line id leave receivables alone, and each lemma
    named after an operation shows that the operation keeps this law. */
module ReceivableControl {
  import opened Money
  import opened Accounting
  import opened Inventory
  import opened Invoicing
  import opened BankMatching
  import opened Procurement
  import opened Books
  import opened InvoiceEntries
  import opened PostingFrames
  import opened Receivables

  /** Entries that carry a bank line id instead of an invoice id. */
  function BankLineBalance(entries: seq<Entry>, a: Account): int {
    if entries == [] then 0
    else
      var last := entries[|entries| - 1];
      BankLineBalance(entries[..|entries| - 1], a) + if last.sourceId.BankLineId? then Net(last.lines, a) else 0
  }

  lemma {:induction false} BankLineBalanceAppend(xs: seq<Entry>, ys: seq<Entry>, a: Account)
    ensures BankLineBalance(xs + ys, a) == BankLineBalance(xs, a) + BankLineBalance(ys, a)
  {
    if ys == [] {
      assert xs + ys == xs;
    } else {
      assert (xs + ys)[..|xs + ys| - 1] == xs + ys[..|ys| - 1];
      BankLineBalanceAppend(xs, ys[..|ys| - 1], a);
    }
  }

  /** Base value of the split-match shares dated before a cut-off, from the payment table. */
  function SplitPaid(ps: seq<Payment>, invoices: map<nat, Invoice>, cutoff: int): int {
    if ps == [] then 0
    else
      var p := ps[|ps| - 1];
      SplitPaid(ps[..|ps| - 1], invoices, cutoff)
      + if p.kind.Split? && p.date < cutoff && p.invoice in invoices then MulRate(p.amount, invoices[p.invoice].rate)
          else 0
  }

  predicate SameRates(ps: seq<Payment>, g: map<nat, Invoice>, h: map<nat, Invoice>) {
    forall p <- ps :: p.invoice in g && p.invoice in h && g[p.invoice].rate == h[p.invoice].rate
  }

  lemma {:induction false} SplitPaidFrame(ps: seq<Payment>, g: map<nat, Invoice>, h: map<nat, Invoice>, cutoff: int)
    requires SameRates(ps, g, h)
    ensures SplitPaid(ps, g, cutoff) == SplitPaid(ps, h, cutoff)
  {
    if ps != [] {
      assert ps[|ps| - 1] in ps;
      SplitPaidFrame(ps[..|ps| - 1], g, h, cutoff);
    }
  }

  lemma {:induction false} SplitPaidAppend(xs: seq<Payment>, ys: seq<Payment>, g: map<nat, Invoice>, cutoff: int)
    ensures SplitPaid(xs + ys, g, cutoff) == SplitPaid(xs, g, cutoff) + SplitPaid(ys, g, cutoff)
  {
    if ys == [] {
      assert xs + ys == xs;
    } else {
      assert (xs + ys)[..|xs + ys| - 1] == xs + ys[..|ys| - 1];
      SplitPaidAppend(xs, ys[..|ys| - 1], g, cutoff);
    }
  }

  // ----- The invariant -----

  predicate SourceKnown(e: Entry, g: Register) {
    Net(e.lines, Receivable) != 0 ==>
      e.sourceId.BankLineId? || (e.sourceId.InvoiceId? && e.sourceId.invoice in g.invoices)
  }

  ghost predicate Controls(g: Register, entries: seq<Entry>) {
    && Owes(g, entries)
    && (forall e <- entries :: SourceKnown(e, g))
    && (forall t :: BankLineBalance(Before(entries, t), Receivable) == -SplitPaid(g.payments, g.invoices, t))
  }

  lemma {:induction false} NoBankLines(more: seq<Entry>, cutoff: int)
    requires forall e <- more :: e.sourceId.BankLineId? ==> Net(e.lines, Receivable) == 0
    ensures BankLineBalance(Before(more, cutoff), Receivable) == 0
  {
    if more != [] {
      var n := |more| - 1;
      assert more[n] in more;
      NoBankLines(more[..n], cutoff);
      BankLineBalanceAppend(Before(more[..n], cutoff), if more[n].date < cutoff then [more[n]] else [], Receivable);
      assert [more[n]][..0] == [];
    }
  }

  /** Steps other than a split match: they may add payments and entries under invoice ids. */
  lemma ControlsKept(g: Register, h: Register, entries: seq<Entry>, more: seq<Entry>, ps: seq<Payment>)
    requires Controls(g, entries) && Owes(h, entries + more)
    requires forall e <- more :: SourceKnown(e, h) && (e.sourceId.BankLineId? ==> Net(e.lines, Receivable) == 0)
    requires h.payments == g.payments + ps && forall p <- ps :: !p.kind.Split?
    requires g.invoices.Keys <= h.invoices.Keys && SameRates(g.payments, g.invoices, h.invoices)
    ensures Controls(h, entries + more)
  {
    forall e <- entries + more ensures SourceKnown(e, h) {
      if e in entries { assert SourceKnown(e, g); }
    }
    forall t ensures BankLineBalance(Before(entries + more, t), Receivable) == -SplitPaid(h.payments, h.invoices, t) {
      BeforeAppend(entries, more, t);
      BankLineBalanceAppend(Before(entries, t), Before(more, t), Receivable);
      NoBankLines(more, t);
      SplitPaidAppend(g.payments, ps, h.invoices, t);
      SplitPaidFrame(g.payments, g.invoices, h.invoices, t);
      NoSplits(ps, h.invoices, t);
    }
  }

  lemma {:induction false} NoSplits(ps: seq<Payment>, g: map<nat, Invoice>, cutoff: int)
    requires forall p <- ps :: !p.kind.Split?
    ensures SplitPaid(ps, g, cutoff) == 0
  {
    if ps != [] {
      assert ps[|ps| - 1] in ps;
      NoSplits(ps[..|ps| - 1], g, cutoff);
    }
  }

  /** Payments name invoices, and no invoice with payments is a draft. */
  lemma PaidInvoicesKept(g: Register, h: Register, entries: seq<Entry>)
    requires Owes(g, entries)
    requires forall id <- g.invoices ::
        id in h.invoices && (Live(g.invoices[id]) ==> h.invoices[id].rate == g.invoices[id].rate)
    ensures SameRates(g.payments, g.invoices, h.invoices)
  {
  }

  // ----- Operations on invoices -----

  /** A payment of one invoice and its entry under the invoice's id. */
  lemma PaidControls(g: Register, entries: seq<Entry>, after: seq<Entry>, p: Payment)
    requires Controls(g, entries) && p.invoice in g.invoices && !p.kind.Split? && Owes(WithPayment(g, p), after)
    requires |after| == |entries| + 1 && after[..|entries|] == entries
        && after[|entries|].sourceId == InvoiceId(p.invoice)
    ensures Controls(WithPayment(g, p), after)
  {
    assert after == entries + [after[|entries|]];
    PaidInvoicesKept(g, WithPayment(g, p), entries);
    ControlsKept(g, WithPayment(g, p), entries, [after[|entries|]], [p]);
  }

  lemma BankLinesAside(g: Register, h: Register, entries: seq<Entry>)
    requires Controls(g, entries) && h == g.(bankLines := h.bankLines)
    ensures Controls(h, entries)
  {
    assert entries + [] == entries;
    AsideControls(g, h, entries, []);
  }

  lemma PayResult(g: Register, l: Ledger, i: PaymentInput, now: int) returns (p: Payment, e: Entry)
    requires Pay(g, l, i, now).Ok? && FindPayment(g.payments, i.key).None?
    ensures p.invoice in g.invoices && !p.kind.Split? && e.sourceId == InvoiceId(p.invoice)
    ensures var r := Pay(g, l, i, now).value; r.0 == WithPayment(g, p) && r.1.entries == l.entries + [e]
  {
    var r := Pay(g, l, i, now).value;
    p, e := r.0.payments[|g.payments|], r.1.entries[|l.entries|];
  }

  lemma PayControls(g: Register, l: Ledger, i: PaymentInput, now: int)
    requires Controls(g, l.entries) && Pay(g, l, i, now).Ok?
    ensures var r := Pay(g, l, i, now).value; Controls(r.0, r.1.entries)
  {
    PayOwes(g, l, i, now);
    if FindPayment(g.payments, i.key).None? {
      var p, e := PayResult(g, l, i, now);
      PaidControls(g, l.entries, Pay(g, l, i, now).value.1.entries, p);
    }
  }

  lemma MatchControls(g: Register, l: Ledger, bankLine: nat, invoice: nat)
    requires Controls(g, l.entries) && Match(g, l, bankLine, invoice).Ok?
    ensures var r := Match(g, l, bankLine, invoice).value; Controls(r.0, r.1.entries)
  {
    MatchOwes(g, l, bankLine, invoice);
    var p := MatchResult(g, l, bankLine, invoice);
    var r := Match(g, l, bankLine, invoice).value;
    MatchedControls(g, r.0, l.entries, r.1.entries, bankLine, p);
  }

  lemma MatchedControls(g: Register, h: Register, entries: seq<Entry>, after: seq<Entry>, bankLine: nat, p: Payment)
    requires Controls(g, entries) && Owes(h, after) && p.invoice in g.invoices && !p.kind.Split?
    requires bankLine in g.bankLines && h == MarkMatched(WithPayment(g, p), bankLine)
    requires |after| == |entries| + 1 && after[..|entries|] == entries
        && after[|entries|].sourceId == InvoiceId(p.invoice)
    ensures Controls(h, after)
  {
    BankLinesOwe(h, WithPayment(g, p), after);
    PaidControls(g, entries, after, p);
    BankLinesAside(WithPayment(g, p), h, after);
  }

  lemma BankLinesOwe(g: Register, h: Register, entries: seq<Entry>)
    requires Owes(g, entries) && h == g.(bankLines := h.bankLines)
    ensures Owes(h, entries)
  {
    assert entries + [] == entries;
    EntriesLeaveOwes(g, h, entries, []);
  }

  /** Splitting a bank line appends one dated share per allocation, worth `base` in all. */
  ghost predicate Shares(g: Register, a: Allocated, ps: seq<Payment>, date: int) {
    && a.register.payments == g.payments + ps
    && a.register.invoices.Keys == g.invoices.Keys
    && (forall id <- g.invoices :: a.register.invoices[id].rate == g.invoices[id].rate)
    && (forall p <- ps :: p.invoice in g.invoices)
    && (forall t :: SplitPaid(ps, g.invoices, t) == if date < t then a.base else 0)
  }

  lemma {:induction false} AllocationsSplit(g: Register, bankLine: nat, line: BankLine, allocations: seq<Allocation>)
    returns (ps: seq<Payment>)
    requires AllocateAll(g, bankLine, line, allocations).Ok?
    ensures Shares(g, AllocateAll(g, bankLine, line, allocations).value, ps, line.date)
  {
    if allocations == [] {
      ps := [];
      assert g.payments + [] == g.payments;
    } else {
      var n := |allocations| - 1;
      var before := AllocationsSplit(g, bankLine, line, allocations[..n]);
      ps := OneShare(g, AllocateAll(g, bankLine, line, allocations[..n]).value, before, bankLine, line,
          allocations[..n], allocations[n]);
    }
  }

  lemma OneShare(g: Register, a: Allocated, before: seq<Payment>, bankLine: nat, line: BankLine,
      earlier: seq<Allocation>, next: Allocation)
    returns (ps: seq<Payment>)
    requires Shares(g, a, before, line.date) && Allocate(a, bankLine, line, earlier, next).Ok?
    ensures Shares(g, Allocate(a, bankLine, line, earlier, next).value, ps, line.date)
  {
    var p := Payment(next.invoice, next.amount, line.date, Split(bankLine), SplitKey(bankLine, next.invoice),
                     SplitOf(bankLine, next.invoice, next.amount));
    ps := before + [p];
    assert g.payments + before + [p] == g.payments + ps;
    forall t
      ensures SplitPaid(ps, g.invoices, t)
           == SplitPaid(before, g.invoices, t)
               + if line.date < t then MulRate(next.amount, g.invoices[next.invoice].rate) else 0
    {
      assert ps[..|before|] == before;
    }
  }

  lemma SplitControls(g: Register, l: Ledger, bankLine: nat, allocations: seq<Allocation>)
    requires Controls(g, l.entries) && SplitMatch(g, l, bankLine, allocations).Ok?
    ensures var r := SplitMatch(g, l, bankLine, allocations).value; Controls(r.0, r.1.entries)
  {
    SplitOwes(g, l, bankLine, allocations);
    var line, r := g.bankLines[bankLine], SplitMatch(g, l, bankLine, allocations).value;
    var a := AllocateAll(g, bankLine, line, allocations).value;
    var ps := AllocationsSplit(g, bankLine, line, allocations);
    var e := Entry(line.date, BankMatchSource, BankLineId(bankLine),
        [Debit(Bank(line.bank), a.base), Credit(Receivable, a.base)]);
    NetOfPair(Bank(line.bank), Receivable, a.base, Receivable);
    SplitKept(g, r.0, l.entries, e, ps, a.base);
  }

  lemma SplitKept(g: Register, h: Register, entries: seq<Entry>, e: Entry, ps: seq<Payment>, base: int)
    requires Controls(g, entries) && Owes(h, entries + [e])
    requires e.sourceId.BankLineId? && Net(e.lines, Receivable) == -base
    requires h.payments == g.payments + ps && g.invoices.Keys <= h.invoices.Keys
    requires SameRates(h.payments, g.invoices, h.invoices)
    requires forall t :: SplitPaid(ps, g.invoices, t) == if e.date < t then base else 0
    ensures Controls(h, entries + [e])
  {
    forall x <- entries + [e] ensures SourceKnown(x, h) {
      if x in entries { assert SourceKnown(x, g); }
    }
    forall t ensures BankLineBalance(Before(entries + [e], t), Receivable) == -SplitPaid(h.payments, h.invoices, t) {
      BeforeAppend(entries, [e], t);
      BeforeOne(e, t);
      BankLineBalanceAppend(Before(entries, t), if e.date < t then [e] else [], Receivable);
      assert [e][..0] == [];
      SplitPaidFrame(h.payments, g.invoices, h.invoices, t);
      SplitPaidAppend(g.payments, ps, g.invoices, t);
    }
  }

  lemma DraftResult(g: Register, s: Stock, id: nat, currency: Currency, rate: int, lines: seq<DraftLine>)
    requires SaveDraft(g, s, id, currency, rate, lines).Ok?
    ensures var h := SaveDraft(g, s, id, currency, rate, lines).value;
            && h.payments == g.payments && (id in g.invoices ==> g.invoices[id].status == Draft)
            && h.invoices.Keys == g.invoices.Keys + {id}
                && forall k <- g.invoices :: k != id ==> h.invoices[k] == g.invoices[k]
  {
  }

  lemma DraftControls(g: Register, entries: seq<Entry>, s: Stock, id: nat, currency: Currency, rate: int,
      lines: seq<DraftLine>)
    requires Controls(g, entries) && SaveDraft(g, s, id, currency, rate, lines).Ok?
    ensures Controls(SaveDraft(g, s, id, currency, rate, lines).value, entries)
  {
    DraftOwes(g, entries, s, id, currency, rate, lines);
    DraftResult(g, s, id, currency, rate, lines);
    DraftKept(g, SaveDraft(g, s, id, currency, rate, lines).value, entries, id);
  }

  lemma DraftKept(g: Register, h: Register, entries: seq<Entry>, id: nat)
    requires Controls(g, entries) && Owes(h, entries) && h.payments == g.payments
    requires id in g.invoices ==> g.invoices[id].status == Draft
    requires h.invoices.Keys == g.invoices.Keys + {id}
        && forall k <- g.invoices :: k != id ==> h.invoices[k] == g.invoices[k]
    ensures Controls(h, entries)
  {
    PaidInvoicesKept(g, h, entries);
    assert entries + [] == entries && g.payments + [] == g.payments;
    ControlsKept(g, h, entries, [], []);
  }

  lemma CostPosts(l: Ledger, id: nat, cogs: int, now: int)
    requires PostCostOfGoods(l, id, cogs, now).Ok?
    ensures var m := PostCostOfGoods(l, id, cogs, now).value;
            && l.entries <= m.entries
            && forall i :: |l.entries| <= i < |m.entries| ==> m.entries[i].sourceId == InvoiceId(id)
  {
  }

  /** Issuing posts under the invoice's own id and changes nothing else of the register. */
  lemma IssuePosts(b: SalesBooks, id: nat, now: int)
    requires Issue(b, id, now).Ok?
    ensures var r := Issue(b, id, now).value;
            && id in b.register.invoices && r.register == WithStatus(b.register, id, Issued)
            && b.ledger.entries <= r.ledger.entries
            && forall i :: |b.ledger.entries| <= i < |r.ledger.entries|
                ==> r.ledger.entries[i].sourceId == InvoiceId(id)
  {
    var inv := b.register.invoices[id];
    var revenue := Post(b.ledger, Entry(now, InvoiceSource, InvoiceId(id), RevenueLines(inv))).value;
    var lines := LockOrder(StockLines(b.stock, b.register.defaultWarehouse, inv.lines).value);
    CostPosts(revenue, id, IssueLines(b.stock, id, lines).value.1, now);
  }

  lemma IssueControls(b: SalesBooks, id: nat, now: int)
    requires Controls(b.register, b.ledger.entries) && Issue(b, id, now).Ok?
    ensures var r := Issue(b, id, now).value; Controls(r.register, r.ledger.entries)
  {
    IssueOwes(b, id, now);
    IssuePosts(b, id, now);
    var r := Issue(b, id, now).value;
    IssuedControls(b.register, r.register, b.ledger.entries, r.ledger.entries, id);
  }

  lemma IssuedControls(g: Register, h: Register, before: seq<Entry>, after: seq<Entry>, id: nat)
    requires Controls(g, before) && Owes(h, after) && id in g.invoices && h == WithStatus(g, id, Issued)
    requires before <= after && forall i :: |before| <= i < |after| ==> after[i].sourceId == InvoiceId(id)
    ensures Controls(h, after)
  {
    PaidInvoicesKept(g, h, before);
    var more := after[|before|..];
    assert after == before + more && g.payments + [] == g.payments;
    forall e <- more ensures e.sourceId == InvoiceId(id) {}
    ControlsKept(g, h, before, more, []);
  }

  lemma VoidControls(b: SalesBooks, id: nat, reason: string, now: int)
    requires Controls(b.register, b.ledger.entries) && VoidInvoice(b, id, reason, now).Ok?
    ensures var r := VoidInvoice(b, id, reason, now).value; Controls(r.register, r.ledger.entries)
  {
    VoidOwes(b, id, reason, now);
    var r := VoidInvoice(b, id, reason, now).value;
    PaidInvoicesKept(b.register, r.register, b.ledger.entries);
    assert b.register.payments + [] == b.register.payments;
    if b.register.invoices[id].status == Draft {
      assert b.ledger.entries + [] == b.ledger.entries;
      ControlsKept(b.register, r.register, b.ledger.entries, [], []);
    } else {
      var more := ReversalsCancel(b.ledger, b.ledger.entries, id, now);
      ControlsKept(b.register, r.register, b.ledger.entries, more, []);
    }
  }

  // ----- All other operations -----

  lemma AsideControls(g: Register, h: Register, entries: seq<Entry>, more: seq<Entry>)
    requires Controls(g, entries) && forall e <- more :: Net(e.lines, Receivable) == 0
    requires h.invoices == g.invoices && h.payments == g.payments
    ensures Controls(h, entries + more)
  {
    EntriesLeaveOwes(g, h, entries, more);
    assert g.payments + [] == g.payments;
    ControlsKept(g, h, entries, more, []);
  }

  lemma ReceiveAside(b: ProcurementBooks, i: ReceiptInput, now: int)
    requires Receive(b, i, now).Ok?
    ensures Appends(b.ledger, Receive(b, i, now).value.ledger, Receivable)
  {
    if FindReceipt(b.purchases.receipts, i.key).None? {
      var order, receipt := b.purchases.orders[i.order], |b.purchases.receipts|;
      var base := TakeLines(b.stock, receipt, |order.lines|, order, i).value.base;
      var date := if i.receivedAt.Some? then i.receivedAt.value else now;
      if base > 0 {
        PostApart(b.ledger, Entry(date, GoodsReceiptSource, ReceiptId(receipt),
            [Debit(Account.Inventory, base), Credit(Grni, base)]), Receivable);
      }
    }
  }

  lemma BillAside(p: Purchases, l: Ledger, id: nat, key: string, now: int)
    requires PostBill(p, l, id, key, now).Ok?
    ensures Appends(l, PostBill(p, l, id, key, now).value.1, Receivable)
  {
    if FindPosting(p.bills, key).None? {
      var bill := p.bills[id];
      BillJournalAside(l, bill, id, NetBase(bill.lines, p.orders[bill.order].rate), NetBase(bill.lines, bill.rate),
          TaxBase(bill.lines, bill.rate));
    }
  }

  lemma BillJournalAside(l: Ledger, bill: Bill, id: nat, grniBase: int, netBase: int, vatBase: int)
    requires Post(l, Entry(bill.billDate, SupplierBillSource, BillId(id), BillJournal(grniBase, netBase, vatBase))).Ok?
    ensures Appends(l, Post(l,
        Entry(bill.billDate, SupplierBillSource, BillId(id), BillJournal(grniBase, netBase, vatBase))).value,
        Receivable)
  {
    PostApart(l, Entry(bill.billDate, SupplierBillSource, BillId(id), BillJournal(grniBase, netBase, vatBase)),
        Receivable);
  }

  predicate IsAside(op: Operation) {
    op.OpenStock? || op.ImportStock? || op.AdjustStock? || op.AddBankLine? || op.ApproveOrder? || op.ReceiveGoods?
    || op.DraftBill? || op.PostSupplierBill? || op.CloseMonth? || op.ReopenMonth? || op.PostOther?
  }

  /** What the operations of stock and procurement post never meets the receivable account. */
  lemma AsideStep(b: Books, op: Operation, now: int)
    requires Step(b, op, now).Ok? && IsAside(op)
    ensures Appends(b.ledger, Step(b, op, now).value.ledger, Receivable)
  {
    match op
    case OpenStock(key, quantity, unitCost) => OpeningApart(StockBooks(b.stock, b.ledger), key, quantity, unitCost, now,
        Receivable);
    case ImportStock(rows, batch) => ImportApart(StockBooks(b.stock, b.ledger), rows, batch, now, Receivable);
    case AdjustStock(key, delta, note, idem) => AdjustApart(StockBooks(b.stock, b.ledger), key, delta, note, idem, now,
        Receivable);
    case ReceiveGoods(i) => ReceiveAside(ProcurementBooks(b.purchases, b.stock, b.ledger), i, now);
    case PostSupplierBill(bill, key) => BillAside(b.purchases, b.ledger, bill, key, now);
    case PostOther(entry) => PostApart(b.ledger, entry, Receivable);
    case _ =>
  }

  lemma AsideRegister(b: Books, op: Operation, now: int)
    requires Step(b, op, now).Ok? && IsAside(op)
    ensures var h := Step(b, op, now).value.register;
            h.invoices == b.register.invoices && h.payments == b.register.payments
  {
  }

  lemma StepControls(b: Books, op: Operation, now: int)
    requires Controls(b.register, b.ledger.entries) && Step(b, op, now).Ok?
    ensures var c := Step(b, op, now).value; Controls(c.register, c.ledger.entries)
  {
    match op
    case DraftInvoice(id, currency, rate, lines) => DraftControls(b.register, b.ledger.entries, b.stock, id, currency,
        rate, lines);
    case IssueInvoice(id) => IssueControls(SalesBooks(b.register, b.stock, b.ledger), id, now);
    case RecordPayment(payment) => PayControls(b.register, b.ledger, payment, now);
    case MatchBankLine(bankLine, invoice) => MatchControls(b.register, b.ledger, bankLine, invoice);
    case SplitBankLine(bankLine, allocations) => SplitControls(b.register, b.ledger, bankLine, allocations);
    case CancelInvoice(id, reason) => VoidControls(SalesBooks(b.register, b.stock, b.ledger), id, reason, now);
    case _ =>
      AsideStepControls(b, op, now);
  }

  lemma AsideStepControls(b: Books, op: Operation, now: int)
    requires Controls(b.register, b.ledger.entries) && Step(b, op, now).Ok? && IsAside(op)
    ensures var c := Step(b, op, now).value; Controls(c.register, c.ledger.entries)
  {
    AsideStep(b, op, now);
    AsideRegister(b, op, now);
    AsideBooksControl(b, Step(b, op, now).value);
  }

  lemma AsideBooksControl(b: Books, c: Books)
    requires Controls(b.register, b.ledger.entries) && Appends(b.ledger, c.ledger, Receivable)
    requires c.register.invoices == b.register.invoices && c.register.payments == b.register.payments
    ensures Controls(c.register, c.ledger.entries)
  {
    var more := c.ledger.entries[|b.ledger.entries|..];
    assert c.ledger.entries == b.ledger.entries + more;
    AsideControls(b.register, c.register, b.ledger.entries, more);
  }
}
