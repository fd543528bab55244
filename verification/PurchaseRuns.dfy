/** Purchasing over whole runs: unit caps, order status, the GRNI account and replays.

    The steps that are not purchasing are shown to stay apart from it first, so that the
    invariant of PurchaseControl only has to be carried through receipts and bill postings. The
    replay results follow a posting key through any later run. */
module PurchaseRuns {
  import opened Wrappers
  import opened Accounting
  import opened Inventory
  import opened Invoicing
  import opened BankMatching
  import opened Procurement
  import opened Books
  import opened InvoiceEntries
  import opened PostingFrames
  import opened PurchaseControl

  /** Nothing an invoice posts meets the GRNI account, so its reversal does not either. */
  ghost predicate SalesClear(entries: seq<Entry>) {
    forall e <- entries :: e.sourceType == InvoiceSource ==> Net(e.lines, Grni) == 0
  }

  ghost predicate Procures(b: Books) {
    PurchasesOk(b.purchases) && Clears(b.purchases, b.ledger.entries) && SalesClear(b.ledger.entries)
  }

  lemma {:induction false} GrniUntouched(entries: seq<Entry>, more: seq<Entry>, t: int)
    requires forall e <- more :: Net(e.lines, Grni) == 0
    ensures Balance(Before(entries + more, t), Grni) == Balance(Before(entries, t), Grni)
  {
    if more == [] {
      assert entries + more == entries;
    } else {
      var n := |more| - 1;
      assert more[n] in more;
      assert entries + more == entries + more[..n] + [more[n]];
      GrniUntouched(entries, more[..n], t);
      BeforeWith(entries + more[..n], more[n], t, Grni);
    }
  }

  lemma ApartProcures(b: Books, c: Books)
    requires Procures(b) && c.purchases == b.purchases && Appends(b.ledger, c.ledger, Grni)
    ensures Procures(c)
  {
    var more := c.ledger.entries[|b.ledger.entries|..];
    assert c.ledger.entries == b.ledger.entries + more;
    forall t ensures Balance(Before(c.ledger.entries, t), Grni) == Balance(Before(b.ledger.entries, t), Grni) {
      GrniUntouched(b.ledger.entries, more, t);
    }
  }

  lemma PayApart(g: Register, l: Ledger, i: PaymentInput, now: int)
    requires Pay(g, l, i, now).Ok?
    ensures Appends(l, Pay(g, l, i, now).value.1, Grni)
  {
    if FindPayment(g.payments, i.key).None? {
      var date := if i.date.Some? then i.date.value else now;
      var bank := if i.bank.Some? then i.bank.value else DEFAULT_BANK;
      PostApart(l, Entry(date, PaymentSource, InvoiceId(i.invoice),
          ReceiptLines(bank, g.invoices[i.invoice], i.amount)), Grni);
    }
  }

  lemma MatchApart(g: Register, l: Ledger, bankLine: nat, invoice: nat)
    requires Match(g, l, bankLine, invoice).Ok?
    ensures Appends(l, Match(g, l, bankLine, invoice).value.1, Grni)
  {
    var line := g.bankLines[bankLine];
    PostApart(l, Entry(line.date, PaymentSource, InvoiceId(invoice),
        ReceiptLines(line.bank, g.invoices[invoice], line.amount)), Grni);
  }

  lemma SplitApart(g: Register, l: Ledger, bankLine: nat, allocations: seq<Allocation>)
    requires SplitMatch(g, l, bankLine, allocations).Ok?
    ensures Appends(l, SplitMatch(g, l, bankLine, allocations).value.1, Grni)
  {
    var line := g.bankLines[bankLine];
    var base := AllocateAll(g, bankLine, line, allocations).value.base;
    PostApart(l, Entry(line.date, BankMatchSource, BankLineId(bankLine),
        [Debit(Bank(line.bank), base), Credit(Receivable, base)]), Grni);
  }

  lemma IssueApart(b: SalesBooks, id: nat, now: int)
    requires Issue(b, id, now).Ok?
    ensures Appends(b.ledger, Issue(b, id, now).value.ledger, Grni)
  {
    var inv := b.register.invoices[id];
    var e := Entry(now, InvoiceSource, InvoiceId(id), RevenueLines(inv));
    PostApart(b.ledger, e, Grni);
    var lines := LockOrder(StockLines(b.stock, b.register.defaultWarehouse, inv.lines).value);
    var cogs := IssueLines(b.stock, id, lines).value.1;
    CostApart(Post(b.ledger, e).value, id, cogs, now);
    AppendsOn(b.ledger, Post(b.ledger, e).value, PostCostOfGoods(Post(b.ledger, e).value, id, cogs, now).value, Grni);
  }

  lemma CostApart(l: Ledger, id: nat, cogs: int, now: int)
    requires PostCostOfGoods(l, id, cogs, now).Ok?
    ensures Appends(l, PostCostOfGoods(l, id, cogs, now).value, Grni)
  {
    if cogs > 0 {
      PostApart(l, Entry(now, InvoiceSource, InvoiceId(id),
          [Debit(CostOfGoods, cogs), Credit(Account.Inventory, cogs)]), Grni);
    }
  }

  lemma {:induction false} ReversalsApart(l: Ledger, entries: seq<Entry>, id: nat, now: int)
    requires PostReversals(l, entries, id, now).Ok? && SalesClear(entries)
    ensures Appends(l, PostReversals(l, entries, id, now).value, Grni)
  {
    if entries != [] {
      var last := entries[|entries| - 1];
      assert last in entries;
      ReversalsApart(l, entries[..|entries| - 1], id, now);
      ReversedNet(last.lines, Grni);
    }
  }

  lemma VoidApart(b: SalesBooks, id: nat, reason: string, now: int)
    requires VoidInvoice(b, id, reason, now).Ok? && SalesClear(b.ledger.entries)
    ensures Appends(b.ledger, VoidInvoice(b, id, reason, now).value.ledger, Grni)
  {
    if b.register.invoices[id].status != Draft {
      ReversalsApart(b.ledger, b.ledger.entries, id, now);
    }
  }

  predicate IsPurchasing(op: Operation) {
    op.ApproveOrder? || op.ReceiveGoods? || op.DraftBill? || op.PostSupplierBill?
  }

  lemma ApartStep(b: Books, op: Operation, now: int)
    requires Step(b, op, now).Ok? && !IsPurchasing(op) && SalesClear(b.ledger.entries)
    ensures Appends(b.ledger, Step(b, op, now).value.ledger, Grni)
  {
    match op
    case OpenStock(key, quantity, unitCost) => OpeningApart(StockBooks(b.stock, b.ledger), key, quantity, unitCost, now,
        Grni);
    case ImportStock(rows, batch) => ImportApart(StockBooks(b.stock, b.ledger), rows, batch, now, Grni);
    case AdjustStock(key, delta, note, idem) => AdjustApart(StockBooks(b.stock, b.ledger), key, delta, note, idem, now,
        Grni);
    case IssueInvoice(id) => IssueApart(SalesBooks(b.register, b.stock, b.ledger), id, now);
    case RecordPayment(payment) => PayApart(b.register, b.ledger, payment, now);
    case MatchBankLine(bankLine, invoice) => MatchApart(b.register, b.ledger, bankLine, invoice);
    case SplitBankLine(bankLine, allocations) => SplitApart(b.register, b.ledger, bankLine, allocations);
    case CancelInvoice(id, reason) => VoidApart(SalesBooks(b.register, b.stock, b.ledger), id, reason, now);
    case PostOther(entry) => PostApart(b.ledger, entry, Grni);
    case _ =>
  }

  lemma ApartPurchases(b: Books, op: Operation, now: int)
    requires Step(b, op, now).Ok? && !IsPurchasing(op)
    ensures Step(b, op, now).value.purchases == b.purchases
  {
  }

  lemma PurchasingSources(b: Books, op: Operation, now: int)
    requires Step(b, op, now).Ok? && IsPurchasing(op) && SalesClear(b.ledger.entries)
    ensures SalesClear(Step(b, op, now).value.ledger.entries)
  {
    if op.ReceiveGoods? {
      ReceiveSources(ProcurementBooks(b.purchases, b.stock, b.ledger), op.receipt, now);
    } else {
      PaperSources(b, op, now);
    }
  }

  /** Orders and bills. */
  lemma PaperSources(b: Books, op: Operation, now: int)
    requires Step(b, op, now).Ok? && IsPurchasing(op) && !op.ReceiveGoods? && SalesClear(b.ledger.entries)
    ensures SalesClear(Step(b, op, now).value.ledger.entries)
  {
  }

  lemma ReceiveSources(b: ProcurementBooks, i: ReceiptInput, now: int)
    requires Receive(b, i, now).Ok? && SalesClear(b.ledger.entries)
    ensures SalesClear(Receive(b, i, now).value.ledger.entries)
  {
    if FindReceipt(b.purchases.receipts, i.key).None? {
      var r := ReceivePosts(b, i, now);
    }
  }

  lemma StepProcures(b: Books, op: Operation, now: int)
    requires Procures(b) && Step(b, op, now).Ok?
    ensures Procures(Step(b, op, now).value)
  {
    if !IsPurchasing(op) {
      ApartStep(b, op, now);
      ApartPurchases(b, op, now);
      ApartProcures(b, Step(b, op, now).value);
    } else {
      PurchasingSources(b, op, now);
      match op
      case ApproveOrder(order, vendor, currency, rate, lines) =>
        OrderPlaced(b.purchases, order, vendor, currency, rate, lines);
        OrderPlacedClears(b.purchases, order, vendor, currency, rate, lines, b.ledger.entries);
      case ReceiveGoods(i) => ReceiveKeeps(ProcurementBooks(b.purchases, b.stock, b.ledger), i, now);
      case DraftBill(bill, order, number, billDate, rate, inputs) =>
        BillSaved(b.purchases, bill, order, number, billDate, rate, inputs, b.ledger.entries);
      case PostSupplierBill(bill, key) => PostBillKeeps(b.purchases, b.ledger, bill, key, now);
      case _ =>
    }
  }

  lemma {:induction false} RunProcures(b: Books, ops: seq<Timed>)
    requires Procures(b)
    ensures Procures(Run(b, ops))
  {
    if ops != [] {
      var n := |ops| - 1;
      RunProcures(b, ops[..n]);
      var before := Run(b, ops[..n]);
      if Step(before, ops[n].op, ops[n].now).Ok? {
        StepProcures(before, ops[n].op, ops[n].now);
      }
    }
  }

  lemma OpenedProcures(b: Books)
    requires IsOpened(b)
    ensures Procures(b)
  {
  }

  lemma ReachableProcures(b: Books)
    requires Reachable(b)
    ensures Procures(b)
  {
    var start: Books :| IsOpened(start) && Leads(start, b);
    var ops :| b == Run(start, ops);
    OpenedProcures(start);
    RunProcures(start, ops);
  }

  /** After any run, an order line is never billed beyond what was received nor received
      beyond what was ordered, and an order says Received exactly when all its lines are. */
  lemma EveryOrderWithin(b: Books, id: nat)
    requires Reachable(b) && id in b.purchases.orders
    ensures var p := b.purchases;
            var order := p.orders[id];
            && (forall n :: 0 <= n < |order.lines| ==>
                  BilledUnits(p.bills, id, n) <= ReceivedUnits(p.receipts, id, n) <= order.lines[n].quantity)
            && (order.status == Received <==>
                  forall n :: 0 <= n < |order.lines| ==> ReceivedUnits(p.receipts, id, n) == order.lines[n].quantity)
  {
    ReachableProcures(b);
    WithinOf(b.purchases, id);
  }

  lemma WithinOf(p: Purchases, id: nat)
    requires PurchasesOk(p) && id in p.orders
    ensures forall n :: 0 <= n < |p.orders[id].lines| ==>
              BilledUnits(p.bills, id, n) <= ReceivedUnits(p.receipts, id, n) <= p.orders[id].lines[n].quantity
    ensures p.orders[id].status == Received <==>
              forall n :: 0 <= n < |p.orders[id].lines|
                  ==> ReceivedUnits(p.receipts, id, n) == p.orders[id].lines[n].quantity
  {
    assert OrderWithin(p, id);
    forall n | 0 <= n < |p.orders[id].lines|
      ensures BilledUnits(p.bills, id, n) <= ReceivedUnits(p.receipts, id, n) <= p.orders[id].lines[n].quantity
    {
      assert LineWithin(p, id, n);
    }
  }

  /** After any run and at any cut-off date, the credit balance of the GRNI account is what was
      received less what was billed, each receipt and bill rounded at its own order's rate. */
  lemma GrniTiesOut(b: Books, cutoff: int)
    requires Reachable(b)
    ensures -Balance(Before(b.ledger.entries, cutoff), Grni)
         == ReceivedBase(b.purchases.receipts, b.purchases.orders, cutoff)
            - BilledBase(b.purchases.bills, b.purchases.orders, cutoff, None)
  {
    ReachableProcures(b);
  }

  // ----- Replays -----

  predicate PostedStay(p: seq<Bill>, q: seq<Bill>) {
    && |p| <= |q|
    && forall i :: 0 <= i < |p| && p[i].postingKey.Some? ==> q[i].postingKey == p[i].postingKey
  }

  /** Receipts are only appended and a posted bill keeps its posting key. */
  predicate Remembers(b: Books, c: Books) {
    && b.purchases.receipts <= c.purchases.receipts
    && PostedStay(b.purchases.bills, c.purchases.bills)
  }

  lemma BillsStay(b: Books, op: Operation, now: int)
    requires Procures(b) && Step(b, op, now).Ok?
    ensures PostedStay(b.purchases.bills, Step(b, op, now).value.purchases.bills)
  {
    if IsPurchasing(op) { PurchasingBillsStay(b, op, now); } else { ApartPurchases(b, op, now); }
  }

  lemma PurchasingBillsStay(b: Books, op: Operation, now: int)
    requires PurchasesOk(b.purchases) && Step(b, op, now).Ok? && IsPurchasing(op)
    ensures PostedStay(b.purchases.bills, Step(b, op, now).value.purchases.bills)
  {
    match op
    case DraftBill(bill, order, number, billDate, rate, inputs) =>
      DraftStays(b.purchases, bill, order, number, billDate, rate, inputs);
    case PostSupplierBill(bill, key) =>
      PostStays(b.purchases, b.ledger, bill, key, now);
    case ReceiveGoods(i) =>
      ReceiptsStay(ProcurementBooks(b.purchases, b.stock, b.ledger), i, now);
    case ApproveOrder(_, _, _, _, _) =>
  }

  lemma ReceiptsStay(b: ProcurementBooks, i: ReceiptInput, now: int)
    requires Receive(b, i, now).Ok?
    ensures var q := Receive(b, i, now).value.purchases;
            b.purchases.receipts <= q.receipts && q.bills == b.purchases.bills
  {
    if FindReceipt(b.purchases.receipts, i.key).None? {
      var r := ReceivePosts(b, i, now);
    }
  }

  lemma ReceiptsAppend(b: Books, op: Operation, now: int)
    requires Step(b, op, now).Ok?
    ensures b.purchases.receipts <= Step(b, op, now).value.purchases.receipts
  {
    match op
    case ReceiveGoods(i) => ReceiptsStay(ProcurementBooks(b.purchases, b.stock, b.ledger), i, now);
    case DraftBill(_, _, _, _, _, _) =>
    case PostSupplierBill(_, _) =>
    case ApproveOrder(_, _, _, _, _) =>
    case _ => ApartPurchases(b, op, now);
  }

  lemma StepRemembers(b: Books, op: Operation, now: int)
    requires Procures(b) && Step(b, op, now).Ok?
    ensures Remembers(b, Step(b, op, now).value)
  {
    BillsStay(b, op, now);
    ReceiptsAppend(b, op, now);
  }

  lemma DraftStays(p: Purchases, id: nat, order: nat, number: nat, billDate: int, rate: int, inputs: seq<BillInput>)
    requires PurchasesOk(p) && SaveBill(p, id, order, number, billDate, rate, inputs).Ok?
    ensures PostedStay(p.bills, SaveBill(p, id, order, number, billDate, rate, inputs).value.bills)
  {
    var bill := SavedBills(p, id, order, number, billDate, rate, inputs);
    if id < |p.bills| {
      assert p.bills[id] in p.bills;
      assert BillOk(p.bills[id], p.orders);
    }
  }

  lemma PostStays(p: Purchases, l: Ledger, id: nat, key: string, now: int)
    requires PurchasesOk(p) && PostBill(p, l, id, key, now).Ok?
    ensures PostedStay(p.bills, PostBill(p, l, id, key, now).value.0.bills)
  {
    if FindPosting(p.bills, key).None? {
      assert p.bills[id] in p.bills;
      assert BillOk(p.bills[id], p.orders);
    }
  }

  lemma {:induction false} RunRemembers(b: Books, ops: seq<Timed>)
    requires Procures(b)
    ensures Remembers(b, Run(b, ops))
  {
    if ops != [] {
      var n := |ops| - 1;
      RunRemembers(b, ops[..n]);
      RunProcures(b, ops[..n]);
      var before := Run(b, ops[..n]);
      if Step(before, ops[n].op, ops[n].now).Ok? {
        StepRemembers(before, ops[n].op, ops[n].now);
      }
    }
  }

  /** A goods receipt accepted once: whatever runs afterwards, the same key with the same
      payload changes nothing and with any other payload is refused. */
  lemma ReceiptReplays(b: Books, i: ReceiptInput, at: int, c: Books, j: ReceiptInput, now: int)
    requires Reachable(b) && Step(b, ReceiveGoods(i), at).Ok? && Leads(Step(b, ReceiveGoods(i), at).value, c)
    requires j.key == i.key
    ensures Step(c, ReceiveGoods(j), now).Ok? <==> j == i
    ensures j == i ==> Step(c, ReceiveGoods(j), now) == Ok(c)
  {
    var d := Step(b, ReceiveGoods(i), at).value;
    var ops :| c == Run(d, ops);
    ReachableProcures(b);
    StepProcures(b, ReceiveGoods(i), at);
    RunProcures(d, ops);
    RunRemembers(d, ops);
    var k := ReceivedOnce(ProcurementBooks(b.purchases, b.stock, b.ledger), i, at);
    assert d.purchases.receipts[k] == c.purchases.receipts[k];
    ReceiptFound(c.purchases, k);
    ReceiptAgain(c, k, i, j, now);
  }

  lemma ReceiptFound(p: Purchases, k: nat)
    requires PurchasesOk(p) && k < |p.receipts|
    ensures FindReceipt(p.receipts, p.receipts[k].key) == Some(k)
  {
    assert p.receipts[k] in p.receipts;
  }

  /** The same request was valid when it was first accepted. */
  lemma ReceiptAgain(c: Books, k: nat, i: ReceiptInput, j: ReceiptInput, now: int)
    requires j.key == i.key && i.quantities != map[] && forall n <- i.quantities :: 0 < i.quantities[n]
    requires k < |c.purchases.receipts| && c.purchases.receipts[k].fingerprint == ReceiptPrint(i)
    requires FindReceipt(c.purchases.receipts, i.key) == Some(k)
    ensures Step(c, ReceiveGoods(j), now).Ok? <==> j == i
    ensures j == i ==> Step(c, ReceiveGoods(j), now) == Ok(c)
  {
    assert ReceiptPrint(j) == ReceiptPrint(i) <==> j == i;
  }

  lemma ReceivedOnce(b: ProcurementBooks, i: ReceiptInput, at: int) returns (k: nat)
    requires Receive(b, i, at).Ok?
    ensures var receipts := Receive(b, i, at).value.purchases.receipts;
            k < |receipts| && receipts[k].key == i.key && receipts[k].fingerprint == ReceiptPrint(i)
  {
    var existing := FindReceipt(b.purchases.receipts, i.key);
    if existing.Some? {
      k := existing.value;
    } else {
      k := |b.purchases.receipts|;
      var r := ReceivePosts(b, i, at);
    }
  }

  lemma BilledOnce(b: Books, id: nat, key: string, at: int)
    requires Procures(b) && Step(b, PostSupplierBill(id, key), at).Ok?
    ensures var bills := Step(b, PostSupplierBill(id, key), at).value.purchases.bills;
            id < |bills| && bills[id].postingKey == Some(key)
  {
  }

  /** A posting key names one bill for good. */
  lemma BillReplays(b: Books, id: nat, key: string, at: int, c: Books, other: nat, now: int)
    requires Reachable(b) && Step(b, PostSupplierBill(id, key), at).Ok?
    requires Leads(Step(b, PostSupplierBill(id, key), at).value, c)
    ensures Step(c, PostSupplierBill(other, key), now).Ok? <==> other == id
    ensures other == id ==> Step(c, PostSupplierBill(other, key), now) == Ok(c)
  {
    var d := Step(b, PostSupplierBill(id, key), at).value;
    var ops :| c == Run(d, ops);
    ReachableProcures(b);
    StepProcures(b, PostSupplierBill(id, key), at);
    RunProcures(d, ops);
    RunRemembers(d, ops);
    BilledOnce(b, id, key, at);
    PostingFound(c.purchases, id, key);
    PostingAgain(c, id, key, other, now);
  }

  lemma PostingFound(p: Purchases, id: nat, key: string)
    requires PurchasesOk(p) && id < |p.bills| && p.bills[id].postingKey == Some(key)
    ensures FindPosting(p.bills, key) == Some(id)
  {
    assert p.bills[id] in p.bills;
  }

  lemma PostingAgain(c: Books, id: nat, key: string, other: nat, now: int)
    requires FindPosting(c.purchases.bills, key) == Some(id)
    ensures Step(c, PostSupplierBill(other, key), now) == if other == id then Ok(c) else Err(Conflict)
  {
  }
}
