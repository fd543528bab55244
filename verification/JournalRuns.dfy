/** How the journal grows. No operation of the books edits or removes an entry: each of them
    only appends entries the ledger accepts at that moment, and only issuing an invoice appends
    entries under that invoice as issuing source. Closing or reopening a month appends nothing
    and changes the period table alone.

    Grew says this of one ledger and the next; one lemma per operation establishes it from
    the operation's own definition, GrewOn chains two growths, and StepGrew collects them.
    What the ledger is after any run (Sound) follows from growth alone: every entry balances and
    uses accounts of the chart. The statements and the period close are then proved from
    growth and soundness, without looking at the operations again. */
module JournalRuns {
  import opened Wrappers
  import opened Accounting
  import opened Inventory
  import opened Invoicing
  import opened BankMatching
  import opened Procurement
  import opened Books

  predicate MayPost(l: Ledger, e: Entry, issuing: Option<nat>) {
    && Postable(l, e)
    && (e.sourceType == InvoiceSource ==> issuing.Some? && e.sourceId == InvoiceId(issuing.value))
  }

  predicate Grew(l: Ledger, m: Ledger, issuing: Option<nat>) {
    && m == l.(entries := m.entries)
    && |l.entries| <= |m.entries| && m.entries[..|l.entries|] == l.entries
    && forall i :: |l.entries| <= i < |m.entries| ==> MayPost(l, m.entries[i], issuing)
  }

  lemma PostGrew(l: Ledger, e: Entry, issuing: Option<nat>)
    requires Post(l, e).Ok? && MayPost(l, e, issuing)
    ensures Grew(l, Post(l, e).value, issuing)
  {
  }

  lemma GrewOn(l: Ledger, m: Ledger, n: Ledger, issuing: Option<nat>)
    requires Grew(l, m, issuing) && Grew(m, n, issuing)
    ensures Grew(l, n, issuing)
  {
    assert n.entries[..|l.entries|] == m.entries[..|l.entries|];
    forall i | |l.entries| <= i < |n.entries| ensures MayPost(l, n.entries[i], issuing) {
      if i < |m.entries| { assert n.entries[i] == m.entries[i]; } else { assert MayPost(m, n.entries[i], issuing); }
    }
  }

  lemma AdjustGrew(b: StockBooks, key: Key, delta: int, note: string, idem: IdempotencyKey, now: int)
    requires Adjust(b, key, delta, note, idem, now).Ok?
    ensures Grew(b.ledger, Adjust(b, key, delta, note, idem, now).value.ledger, None)
  {
  }

  lemma ImportGrew(b: StockBooks, rows: seq<OpeningRow>, batch: nat, now: int)
    requires ImportOpening(b, rows, batch, now).Ok?
    ensures Grew(b.ledger, ImportOpening(b, rows, batch, now).value.ledger, None)
  {
  }

  lemma OpeningGrew(b: StockBooks, key: Key, quantity: int, unitCost: int, now: int)
    requires RecordOpening(b, key, quantity, unitCost, now).Ok?
    ensures Grew(b.ledger, RecordOpening(b, key, quantity, unitCost, now).value.ledger, None)
  {
  }

  lemma IssueGrew(b: SalesBooks, id: nat, now: int)
    requires Issue(b, id, now).Ok?
    ensures Grew(b.ledger, Issue(b, id, now).value.ledger, Some(id))
  {
    var inv := b.register.invoices[id];
    var e := Entry(now, InvoiceSource, InvoiceId(id), RevenueLines(inv));
    var revenue := Post(b.ledger, e).value;
    PostGrew(b.ledger, e, Some(id));
    var lines := LockOrder(StockLines(b.stock, b.register.defaultWarehouse, inv.lines).value);
    var cogs := IssueLines(b.stock, id, lines).value.1;
    CostGrew(revenue, id, cogs, now);
    GrewOn(b.ledger, revenue, PostCostOfGoods(revenue, id, cogs, now).value, Some(id));
  }

  lemma CostGrew(l: Ledger, id: nat, cogs: int, now: int)
    requires PostCostOfGoods(l, id, cogs, now).Ok?
    ensures Grew(l, PostCostOfGoods(l, id, cogs, now).value, Some(id))
  {
  }

  lemma {:induction false} ReversalsGrew(l: Ledger, entries: seq<Entry>, id: nat, now: int)
    requires PostReversals(l, entries, id, now).Ok?
    ensures Grew(l, PostReversals(l, entries, id, now).value, None)
  {
    if entries != [] {
      var last := entries[|entries| - 1];
      ReversalsGrew(l, entries[..|entries| - 1], id, now);
      if IsIssueEntry(last, id) {
        var before := PostReversals(l, entries[..|entries| - 1], id, now).value;
        PostGrew(before, ReversalOf(last, id, now), None);
        GrewOn(l, before, PostReversals(l, entries, id, now).value, None);
      }
    }
  }

  lemma VoidGrew(b: SalesBooks, id: nat, reason: string, now: int)
    requires VoidInvoice(b, id, reason, now).Ok?
    ensures Grew(b.ledger, VoidInvoice(b, id, reason, now).value.ledger, None)
  {
    if b.register.invoices[id].status != Draft {
      ReversalsGrew(b.ledger, b.ledger.entries, id, now);
    }
  }

  lemma PayGrew(g: Register, l: Ledger, i: PaymentInput, now: int)
    requires Pay(g, l, i, now).Ok?
    ensures Grew(l, Pay(g, l, i, now).value.1, None)
  {
  }

  lemma MatchGrew(g: Register, l: Ledger, bankLine: nat, invoice: nat)
    requires Match(g, l, bankLine, invoice).Ok?
    ensures Grew(l, Match(g, l, bankLine, invoice).value.1, None)
  {
  }

  lemma SplitGrew(g: Register, l: Ledger, bankLine: nat, allocations: seq<Allocation>)
    requires SplitMatch(g, l, bankLine, allocations).Ok?
    ensures Grew(l, SplitMatch(g, l, bankLine, allocations).value.1, None)
  {
  }

  lemma ReceiptGrew(l: Ledger, receipt: nat, date: int, base: int)
    requires PostReceipt(l, receipt, date, base).Ok?
    ensures Grew(l, PostReceipt(l, receipt, date, base).value, None)
  {
  }

  lemma ReceiveGrew(b: ProcurementBooks, i: ReceiptInput, now: int)
    requires Receive(b, i, now).Ok?
    ensures Grew(b.ledger, Receive(b, i, now).value.ledger, None)
  {
    if FindReceipt(b.purchases.receipts, i.key).None? {
      var order, receipt := b.purchases.orders[i.order], |b.purchases.receipts|;
      var date := if i.receivedAt.Some? then i.receivedAt.value else now;
      ReceiptGrew(b.ledger, receipt, date, TakeLines(b.stock, receipt, |order.lines|, order, i).value.base);
    }
  }

  lemma BillGrew(p: Purchases, l: Ledger, id: nat, key: string, now: int)
    requires PostBill(p, l, id, key, now).Ok?
    ensures Grew(l, PostBill(p, l, id, key, now).value.1, None)
  {
  }

  function Issuing(op: Operation): Option<nat> {
    match op
    case IssueInvoice(id) => Some(id)
    case _ => None
  }

  predicate IsPeriodStep(op: Operation) { op.CloseMonth? || op.ReopenMonth? }

  /** Every accepted step other than closing or reopening a month appends acceptable entries
      and changes nothing else of the ledger. */
  lemma StepGrew(b: Books, op: Operation, now: int)
    requires Step(b, op, now).Ok? && !IsPeriodStep(op)
    ensures Grew(b.ledger, Step(b, op, now).value.ledger, Issuing(op))
  {
    match op
    case OpenStock(key, quantity, unitCost) => OpeningGrew(StockBooks(b.stock, b.ledger), key, quantity, unitCost, now);
    case ImportStock(rows, batch) => ImportGrew(StockBooks(b.stock, b.ledger), rows, batch, now);
    case AdjustStock(key, delta, note, idem) => AdjustGrew(StockBooks(b.stock, b.ledger), key, delta, note, idem, now);
    case IssueInvoice(id) => IssueGrew(SalesBooks(b.register, b.stock, b.ledger), id, now);
    case RecordPayment(payment) => PayGrew(b.register, b.ledger, payment, now);
    case MatchBankLine(bankLine, invoice) => MatchGrew(b.register, b.ledger, bankLine, invoice);
    case SplitBankLine(bankLine, allocations) => SplitGrew(b.register, b.ledger, bankLine, allocations);
    case CancelInvoice(id, reason) => VoidGrew(SalesBooks(b.register, b.stock, b.ledger), id, reason, now);
    case ReceiveGoods(i) => ReceiveGrew(ProcurementBooks(b.purchases, b.stock, b.ledger), i, now);
    case PostSupplierBill(bill, key) => BillGrew(b.purchases, b.ledger, bill, key, now);
    case PostOther(entry) => PostGrew(b.ledger, entry, None);
    case _ =>
  }

  lemma PeriodStepEntries(b: Books, op: Operation, now: int)
    requires Step(b, op, now).Ok? && IsPeriodStep(op)
    ensures var l, m := b.ledger, Step(b, op, now).value.ledger; m == l.(periods := m.periods)
  {
  }

  // ----- What every ledger built by posting is -----

  /** Every entry is balanced and uses accounts of the chart only. */
  ghost predicate Sound(l: Ledger) {
    && (forall i, j :: 0 <= i < j < |l.chart| ==> l.chart[i] != l.chart[j])
    && (forall e <- l.entries :: Balanced(e.lines) && forall line <- e.lines :: line.account in l.chart)
  }

  lemma StepSound(b: Books, op: Operation, now: int)
    requires Sound(b.ledger) && Step(b, op, now).Ok?
    ensures Sound(Step(b, op, now).value.ledger)
  {
    if IsPeriodStep(op) {
      PeriodStepEntries(b, op, now);
    } else {
      StepGrew(b, op, now);
      GrewSound(b.ledger, Step(b, op, now).value.ledger, Issuing(op));
    }
  }

  lemma GrewSound(l: Ledger, m: Ledger, issuing: Option<nat>)
    requires Sound(l) && Grew(l, m, issuing)
    ensures Sound(m)
  {
    forall e <- m.entries ensures Balanced(e.lines) && forall line <- e.lines :: line.account in m.chart {
      var i :| 0 <= i < |m.entries| && m.entries[i] == e;
      if i < |l.entries| { assert e == l.entries[i]; } else { assert MayPost(l, e, issuing); }
    }
  }

  lemma StepKeepsChart(b: Books, op: Operation, now: int)
    requires Step(b, op, now).Ok?
    ensures Step(b, op, now).value.ledger.chart == b.ledger.chart
  {
    if IsPeriodStep(op) { PeriodStepEntries(b, op, now); } else { StepGrew(b, op, now); }
  }

  lemma {:induction false} RunKeepsChart(b: Books, ops: seq<Timed>)
    ensures Run(b, ops).ledger.chart == b.ledger.chart
  {
    if ops != [] {
      var n := |ops| - 1;
      RunKeepsChart(b, ops[..n]);
      var before := Run(b, ops[..n]);
      if Step(before, ops[n].op, ops[n].now).Ok? { StepKeepsChart(before, ops[n].op, ops[n].now); }
    }
  }

  predicate Appends(l: Ledger, m: Ledger) {
    |l.entries| <= |m.entries| && m.entries[..|l.entries|] == l.entries
  }

  /** The entries a ledger has gained since. */
  function Added(l: Ledger, m: Ledger): (added: seq<Entry>)
    requires Appends(l, m)
    ensures m.entries == l.entries + added
  {
    m.entries[|l.entries|..]
  }

  lemma {:induction false} RunAppends(b: Books, ops: seq<Timed>)
    ensures Appends(b.ledger, Run(b, ops).ledger)
  {
    if ops != [] {
      var n := |ops| - 1;
      RunAppends(b, ops[..n]);
      var before := Run(b, ops[..n]);
      if Step(before, ops[n].op, ops[n].now).Ok? { StepAppends(before, ops[n].op, ops[n].now); }
      AppendsOn(b.ledger, before.ledger, Run(b, ops).ledger);
    }
  }

  lemma AppendsOn(l: Ledger, m: Ledger, n: Ledger)
    requires Appends(l, m) && Appends(m, n)
    ensures Appends(l, n)
  {
    assert n.entries[..|l.entries|] == m.entries[..|l.entries|];
  }

  lemma StepAppends(b: Books, op: Operation, now: int)
    requires Step(b, op, now).Ok?
    ensures Appends(b.ledger, Step(b, op, now).value.ledger)
  {
    if IsPeriodStep(op) { PeriodStepEntries(b, op, now); } else { StepGrew(b, op, now); }
  }

  lemma {:induction false} RunSound(b: Books, ops: seq<Timed>)
    requires Sound(b.ledger)
    ensures Sound(Run(b, ops).ledger)
  {
    if ops != [] {
      var n := |ops| - 1;
      RunSound(b, ops[..n]);
      var before := Run(b, ops[..n]);
      if Step(before, ops[n].op, ops[n].now).Ok? {
        StepSound(before, ops[n].op, ops[n].now);
      }
    }
  }
}
