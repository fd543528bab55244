/** What every run keeps for purchase orders, and the goods-received-not-invoiced account.

    PurchasesOk caps every order line, billed within received within ordered, and gives the order
    its status; Clears says what the account holds at every date. Receipts and bill postings are
    shown to keep both, each from what it adds to the tables and to the journal. */
module PurchaseControl {
  import opened Wrappers
  import opened Money
  import opened Accounting
  import opened Inventory
  import opened Invoicing
  import opened Procurement

  // ----- Base values -----

  function ReceiptBase(lines: seq<ReceiptLine>, rate: int): int {
    if lines == [] then 0 else ReceiptBase(lines[..|lines| - 1], rate) + MulRate(lines[|lines| - 1].total, rate)
  }

  function OrderRate(orders: map<nat, Order>, order: nat): int {
    if order in orders then orders[order].rate else 0
  }

  /** Base value of the receipts dated before a cut-off, at the rate of their orders. */
  function ReceivedBase(receipts: seq<Receipt>, orders: map<nat, Order>, cutoff: int): int {
    if receipts == [] then 0
    else
      var last := receipts[|receipts| - 1];
      ReceivedBase(receipts[..|receipts| - 1], orders, cutoff)
      + if last.receivedAt < cutoff then ReceiptBase(last.lines, OrderRate(orders, last.order)) else 0
  }

  /** Base value, at order rates, of the posted bills dated before one cut-off and posted
      before another. */
  function BilledBase(bills: seq<Bill>, orders: map<nat, Order>, dated: int, posted: Option<int>): int {
    if bills == [] then 0
    else
      var last := bills[|bills| - 1];
      BilledBase(bills[..|bills| - 1], orders, dated, posted)
      + if last.status == Posted && last.billDate < dated && (posted.Some? ==> last.postedAt < posted.value)
        then NetBase(last.lines, OrderRate(orders, last.order)) else 0
  }

  // ----- The invariant -----

  predicate OrderOk(order: Order) {
    && 0 < order.rate && order.lines != []
    && forall line <- order.lines :: 0 < line.quantity && 0 < line.unitCost
  }

  predicate ReceiptOk(r: Receipt, orders: map<nat, Order>) {
    && r.order in orders
    && forall line <- r.lines ::
         && line.orderLine < |orders[r.order].lines| && 0 < line.quantity
         && line.total == MulQuantity(orders[r.order].lines[line.orderLine].unitCost, line.quantity)
  }

  predicate BillLineOk(line: BillLine, order: Order, posted: bool) {
    && line.orderLine < |order.lines| && 0 < line.quantity
    && line.net == MulQuantity(line.unitPrice, line.quantity) && 0 <= line.net && 0 <= line.tax
    && (posted ==> line.unitPrice == order.lines[line.orderLine].unitCost)
  }

  predicate BillOk(bill: Bill, orders: map<nat, Order>) {
    && bill.order in orders && 0 < bill.rate
    && (forall line <- bill.lines :: BillLineOk(line, orders[bill.order], bill.status == Posted))
    && (forall i, j :: 0 <= i < j < |bill.lines| ==> bill.lines[i].orderLine != bill.lines[j].orderLine)
    && (bill.status == Posted ==> 0 < NetBase(bill.lines, orders[bill.order].rate) && bill.postingKey.Some?)
    && (bill.status == BillDraft ==> bill.postingKey.None?)
  }

  predicate LineWithin(p: Purchases, id: nat, n: nat)
    requires id in p.orders && n < |p.orders[id].lines|
  {
    BilledUnits(p.bills, id, n) <= ReceivedUnits(p.receipts, id, n) <= p.orders[id].lines[n].quantity
  }

  predicate OrderWithin(p: Purchases, id: nat)
    requires id in p.orders
  {
    && OrderOk(p.orders[id])
    && (forall n :: 0 <= n < |p.orders[id].lines| ==> LineWithin(p, id, n))
    && (p.orders[id].status == Received <==> FullyReceived(p.orders[id], p.receipts, id))
  }

  predicate UniqueKeys(p: Purchases) {
    && (forall i, j :: 0 <= i < j < |p.receipts| ==> p.receipts[i].key != p.receipts[j].key)
    && (forall i, j ::
        0 <= i < j < |p.bills| && p.bills[i].postingKey.Some? ==> p.bills[i].postingKey != p.bills[j].postingKey)
  }

  ghost predicate PurchasesOk(p: Purchases) {
    && UniqueKeys(p)
    && (forall r <- p.receipts :: ReceiptOk(r, p.orders))
    && (forall bill <- p.bills :: BillOk(bill, p.orders))
    && (forall id <- p.orders :: OrderWithin(p, id))
  }

  ghost predicate Clears(p: Purchases, entries: seq<Entry>) {
    forall t :: -Balance(Before(entries, t), Grni)
        == ReceivedBase(p.receipts, p.orders, t) - BilledBase(p.bills, p.orders, t, None)
  }

  // ----- Units -----

  lemma {:induction false} NoReceiptsYet(receipts: seq<Receipt>, id: nat, n: nat)
    requires forall r <- receipts :: r.order != id
    ensures ReceivedUnits(receipts, id, n) == 0
  {
    if receipts != [] {
      assert receipts[|receipts| - 1] in receipts;
      NoReceiptsYet(receipts[..|receipts| - 1], id, n);
    }
  }

  lemma {:induction false} NoBillsYet(bills: seq<Bill>, id: nat, n: nat)
    requires forall bill <- bills :: bill.order != id
    ensures BilledUnits(bills, id, n) == 0
  {
    if bills != [] {
      assert bills[|bills| - 1] in bills;
      NoBillsYet(bills[..|bills| - 1], id, n);
    }
  }

  /** Replacing one bill changes the billed units by the difference of the two bills. */
  lemma {:induction false} BillReplaced(bills: seq<Bill>, k: nat, bill: Bill, id: nat, n: nat)
    requires k < |bills|
    ensures BilledUnits(bills[k := bill], id, n)
        == BilledUnits(bills, id, n) - BilledBy(bills[k], id, n) + BilledBy(bill, id, n)
  {
    var m := |bills| - 1;
    if k == m {
      assert bills[k := bill][..m] == bills[..m];
    } else {
      assert bills[k := bill][..m] == bills[..m][k := bill];
      BillReplaced(bills[..m], k, bill, id, n);
    }
  }

  lemma {:induction false} BilledBaseReplaced(bills: seq<Bill>, k: nat, bill: Bill, orders: map<nat, Order>, t: int)
    requires k < |bills| && bills[k].status == BillDraft
    ensures BilledBase(bills[k := bill], orders, t, None)
         == BilledBase(bills, orders, t, None)
            + if bill.status == Posted && bill.billDate < t then NetBase(bill.lines, OrderRate(orders, bill.order))
                else 0
  {
    var m := |bills| - 1;
    if k == m {
      assert bills[k := bill][..m] == bills[..m];
    } else {
      assert bills[k := bill][..m] == bills[..m][k := bill];
      BilledBaseReplaced(bills[..m], k, bill, orders, t);
    }
  }

  /** A bill names an order line at most once, so it bills one quantity of it. */
  lemma {:induction false} LineBilledOnce(lines: seq<BillLine>, k: nat)
    requires k < |lines| && forall i, j :: 0 <= i < j < |lines| ==> lines[i].orderLine != lines[j].orderLine
    ensures LineBilled(lines, lines[k].orderLine) == lines[k].quantity
  {
    var m := |lines| - 1;
    if k == m {
      LineNotBilled(lines[..m], lines[k].orderLine);
    } else {
      LineBilledOnce(lines[..m], k);
    }
  }

  lemma {:induction false} LineNotBilled(lines: seq<BillLine>, n: nat)
    requires forall line <- lines :: line.orderLine != n
    ensures LineBilled(lines, n) == 0
  {
    if lines != [] {
      assert lines[|lines| - 1] in lines;
      LineNotBilled(lines[..|lines| - 1], n);
    }
  }

  // ----- Orders and drafts -----

  lemma {:induction false} BasesFrame(p: Purchases, orders: map<nat, Order>, t: int)
    requires forall r <- p.receipts :: OrderRate(p.orders, r.order) == OrderRate(orders, r.order)
    requires forall b <- p.bills :: OrderRate(p.orders, b.order) == OrderRate(orders, b.order)
    ensures ReceivedBase(p.receipts, p.orders, t) == ReceivedBase(p.receipts, orders, t)
    ensures BilledBase(p.bills, p.orders, t, None) == BilledBase(p.bills, orders, t, None)
    decreases |p.receipts| + |p.bills|
  {
    if p.receipts != [] {
      assert p.receipts[|p.receipts| - 1] in p.receipts;
      BasesFrame(p.(receipts := p.receipts[..|p.receipts| - 1]), orders, t);
    } else if p.bills != [] {
      assert p.bills[|p.bills| - 1] in p.bills;
      BasesFrame(p.(bills := p.bills[..|p.bills| - 1]), orders, t);
    }
  }

  lemma OrderPlaced(p: Purchases, id: nat, vendor: nat, currency: Currency, rate: int, lines: seq<OrderLine>)
    requires PurchasesOk(p) && PlaceOrder(p, id, vendor, currency, rate, lines).Ok?
    ensures PurchasesOk(PlaceOrder(p, id, vendor, currency, rate, lines).value)
  {
    var q := PlaceOrder(p, id, vendor, currency, rate, lines).value;
    forall r <- q.receipts ensures ReceiptOk(r, q.orders) { assert ReceiptOk(r, p.orders); }
    forall bill <- q.bills ensures BillOk(bill, q.orders) { assert BillOk(bill, p.orders); }
    forall k <- q.orders ensures OrderWithin(q, k) {
      if k == id {
        forall n: nat ensures ReceivedUnits(q.receipts, id, n) == 0 == BilledUnits(q.bills, id, n) {
          forall r <- q.receipts ensures r.order != id { assert ReceiptOk(r, p.orders); }
          forall bill <- q.bills ensures bill.order != id { assert BillOk(bill, p.orders); }
          NoReceiptsYet(q.receipts, id, n);
          NoBillsYet(q.bills, id, n);
        }
        assert lines[0] in lines;
        assert q.orders[id].lines[0].quantity != ReceivedUnits(q.receipts, id, 0);
        forall n | 0 <= n < |q.orders[id].lines| ensures LineWithin(q, id, n) { assert lines[n] in lines; }
      } else {
        assert OrderWithin(p, k);
        forall n | 0 <= n < |q.orders[k].lines| ensures LineWithin(q, k, n) { assert LineWithin(p, k, n); }
      }
    }
  }

  lemma ClearsFrame(p: Purchases, q: Purchases, entries: seq<Entry>)
    requires Clears(p, entries) && q.receipts == p.receipts && q.bills == p.bills
    requires forall r <- p.receipts :: OrderRate(p.orders, r.order) == OrderRate(q.orders, r.order)
    requires forall b <- p.bills :: OrderRate(p.orders, b.order) == OrderRate(q.orders, b.order)
    ensures Clears(q, entries)
  {
    forall t ensures -Balance(Before(entries, t), Grni)
        == ReceivedBase(q.receipts, q.orders, t) - BilledBase(q.bills, q.orders, t, None) {
      BasesFrame(p, q.orders, t);
    }
  }

  lemma OrderPlacedClears(p: Purchases, id: nat, vendor: nat, currency: Currency, rate: int, lines: seq<OrderLine>,
      entries: seq<Entry>)
    requires PurchasesOk(p) && Clears(p, entries) && PlaceOrder(p, id, vendor, currency, rate, lines).Ok?
    ensures Clears(PlaceOrder(p, id, vendor, currency, rate, lines).value, entries)
  {
    var q := PlaceOrder(p, id, vendor, currency, rate, lines).value;
    forall r <- p.receipts ensures OrderRate(p.orders, r.order) == OrderRate(q.orders, r.order) {
      assert ReceiptOk(r, p.orders);
    }
    forall bill <- p.bills ensures OrderRate(p.orders, bill.order) == OrderRate(q.orders, bill.order) {
      assert BillOk(bill, p.orders);
    }
    ClearsFrame(p, q, entries);
  }

  /** The bills after saving a draft: one more, or one draft replaced by another. */
  lemma SavedBills(p: Purchases, id: nat, order: nat, number: nat, billDate: int, rate: int, inputs: seq<BillInput>)
    returns (bill: Bill)
    requires SaveBill(p, id, order, number, billDate, rate, inputs).Ok?
    ensures order in p.orders && BillOk(bill, p.orders) && bill.status == BillDraft && bill.order == order
    ensures var q := SaveBill(p, id, order, number, billDate, rate, inputs).value;
            && q == p.(bills := q.bills)
            && (id == |p.bills| ==> q.bills == p.bills + [bill])
            && (id < |p.bills| ==> p.bills[id].status == BillDraft && q.bills == p.bills[id := bill])
  {
    var q := SaveBill(p, id, order, number, billDate, rate, inputs).value;
    bill := q.bills[id];
    forall line <- bill.lines ensures BillLineOk(line, p.orders[order], false) {
      var k :| 0 <= k < |bill.lines| && bill.lines[k] == line;
      assert inputs[k] in inputs;
      MulRateSign(line.unitPrice, line.quantity * 1_000);
      MulRateSign(line.net, inputs[k].taxRate);
    }
  }

  lemma BillSaved(p: Purchases, id: nat, order: nat, number: nat, billDate: int, rate: int, inputs: seq<BillInput>,
      entries: seq<Entry>)
    requires PurchasesOk(p) && Clears(p, entries) && SaveBill(p, id, order, number, billDate, rate, inputs).Ok?
    ensures var q := SaveBill(p, id, order, number, billDate, rate, inputs).value; PurchasesOk(q) && Clears(q, entries)
  {
    var q := SaveBill(p, id, order, number, billDate, rate, inputs).value;
    var bill := SavedBills(p, id, order, number, billDate, rate, inputs);
    forall b <- q.bills ensures BillOk(b, q.orders) {
      if b != bill { assert b in p.bills; assert BillOk(b, p.orders); }
    }
    forall k: nat, n: nat ensures BilledUnits(q.bills, k, n) == BilledUnits(p.bills, k, n) {
      if id < |p.bills| { BillReplaced(p.bills, id, bill, k, n); } else { assert q.bills[..|p.bills|] == p.bills; }
    }
    forall t ensures BilledBase(q.bills, q.orders, t, None) == BilledBase(p.bills, p.orders, t, None) {
      if id < |p.bills| {
        BilledBaseReplaced(p.bills, id, bill, p.orders, t);
      } else {
        assert q.bills[..|p.bills|] == p.bills;
      }
    }
    WithinFrame(p, q);
    assert UniqueKeys(q) by {
      if id < |p.bills| {
        assert p.bills[id] in p.bills;
        assert BillOk(p.bills[id], p.orders);
      }
    }
  }

  lemma WithinFrame(p: Purchases, q: Purchases)
    requires q.orders == p.orders && q.receipts == p.receipts
    requires forall k: nat, n: nat :: BilledUnits(q.bills, k, n) == BilledUnits(p.bills, k, n)
    requires forall id <- p.orders :: OrderWithin(p, id)
    ensures forall id <- q.orders :: OrderWithin(q, id)
  {
    forall id <- q.orders ensures OrderWithin(q, id) {
      assert OrderWithin(p, id);
      forall n | 0 <= n < |q.orders[id].lines| ensures LineWithin(q, id, n) { assert LineWithin(p, id, n); }
    }
  }

  // ----- Receiving goods -----

  /** The receipt lines taken for the first n order lines. */
  ghost predicate TakenOk(lines: seq<ReceiptLine>, base: int, n: nat, order: Order, i: ReceiptInput)
    requires n <= |order.lines|
  {
    && base == ReceiptBase(lines, order.rate)
    && (forall line <- lines :: line.orderLine < n && line.orderLine in i.quantities
          && line.quantity == i.quantities[line.orderLine]
          && line.total == MulQuantity(order.lines[line.orderLine].unitCost, line.quantity))
    && (forall k: nat :: LineReceived(lines, k) == if k < n && k in i.quantities then i.quantities[k] else 0)
  }

  lemma NothingTaken(order: Order, i: ReceiptInput)
    ensures TakenOk([], 0, 0, order, i)
  {
  }

  lemma {:induction false} TakenLines(s: Stock, receipt: nat, n: nat, order: Order, i: ReceiptInput)
    requires n <= |order.lines| && TakeLines(s, receipt, n, order, i).Ok?
    ensures var t := TakeLines(s, receipt, n, order, i).value; TakenOk(t.lines, t.base, n, order, i)
  {
    if n == 0 {
      NothingTaken(order, i);
    } else {
      var t := LastLineTaken(s, receipt, n, order, i);
      TakenLines(s, receipt, n - 1, order, i);
      TakenLine(t, receipt, n - 1, order, i);
    }
  }

  lemma TakenLine(t: Taken, receipt: nat, n: nat, order: Order, i: ReceiptInput)
    requires n < |order.lines| && TakenOk(t.lines, t.base, n, order, i) && TakeLine(t, receipt, n, order, i).Ok?
    ensures var u := TakeLine(t, receipt, n, order, i).value; TakenOk(u.lines, u.base, n + 1, order, i)
  {
    if n in i.quantities {
      var u := TakeLine(t, receipt, n, order, i).value;
      var line := ReceiptLine(n, i.quantities[n], MulQuantity(order.lines[n].unitCost, i.quantities[n]));
      assert u.lines == t.lines + [line];
      AddReceiptLine(t.lines, line, order.rate);
    }
  }

  lemma AddReceiptLine(lines: seq<ReceiptLine>, line: ReceiptLine, rate: int)
    ensures ReceiptBase(lines + [line], rate) == ReceiptBase(lines, rate) + MulRate(line.total, rate)
    ensures forall k: nat ::
        LineReceived(lines + [line], k) == LineReceived(lines, k) + if line.orderLine == k then line.quantity else 0
  {
    assert (lines + [line])[..|lines|] == lines;
  }

  lemma AddReceipt(receipts: seq<Receipt>, r: Receipt, orders: map<nat, Order>)
    ensures forall id: nat, n: nat :: ReceivedUnits(receipts + [r], id, n)
              == ReceivedUnits(receipts, id, n) + (if r.order == id then LineReceived(r.lines, n) else 0)
    ensures forall t :: ReceivedBase(receipts + [r], orders, t)
              == ReceivedBase(receipts, orders, t)
                  + (if r.receivedAt < t then ReceiptBase(r.lines, OrderRate(orders, r.order)) else 0)
  {
    assert (receipts + [r])[..|receipts|] == receipts;
  }

  /** All that a new receipt does to orders, receipts and journal. */
  lemma ReceivePosts(b: ProcurementBooks, i: ReceiptInput, now: int) returns (r: Receipt)
    requires ReceiveNew(b, i, now).Ok?
    ensures i.order in b.purchases.orders && r.order == i.order && r.key == i.key && r.fingerprint == ReceiptPrint(i)
    ensures var p, c := b.purchases, ReceiveNew(b, i, now).value;
            var order := p.orders[i.order];
            && TakenOk(r.lines, ReceiptBase(r.lines, order.rate), |order.lines|, order, i)
            && order.status == Ordered
            && (forall n <- i.quantities :: n < |order.lines|
                  && ReceivedUnits(p.receipts, i.order, n) + i.quantities[n] <= order.lines[n].quantity)
            && c.purchases == Purchases(
                 p.orders[i.order := order.(status := if FullyReceived(order, p.receipts + [r], i.order) then Received
                     else Ordered)],
                 p.receipts + [r], p.bills)
            && PostReceipt(b.ledger, |p.receipts|, r.receivedAt, ReceiptBase(r.lines, order.rate)) == Ok(c.ledger)
  {
    var p, c := b.purchases, ReceiveNew(b, i, now).value;
    r := c.purchases.receipts[|p.receipts|];
    TakenLines(b.stock, |p.receipts|, |p.orders[i.order].lines|, p.orders[i.order], i);
  }

  lemma ReceivedOk(p: Purchases, q: Purchases, i: ReceiptInput, r: Receipt)
    requires PurchasesOk(p) && i.order in p.orders && r.order == i.order && r.key == i.key
    requires FindReceipt(p.receipts, i.key).None?
    requires forall n <- i.quantities :: 0 < i.quantities[n] && n < |p.orders[i.order].lines|
               && ReceivedUnits(p.receipts, i.order, n) + i.quantities[n] <= p.orders[i.order].lines[n].quantity
    requires var order := p.orders[i.order];
             && TakenOk(r.lines, ReceiptBase(r.lines, order.rate), |order.lines|, order, i)
             && order.status == Ordered
             && q == Purchases(
                  p.orders[i.order := order.(status := if FullyReceived(order, p.receipts + [r], i.order) then Received
                      else Ordered)],
                  p.receipts + [r], p.bills)
    ensures PurchasesOk(q)
  {
    AddReceipt(p.receipts, r, q.orders);
    forall x <- q.receipts ensures ReceiptOk(x, q.orders) {
      if x in p.receipts { assert ReceiptOk(x, p.orders); }
    }
    forall bill <- q.bills ensures BillOk(bill, q.orders) { assert BillOk(bill, p.orders); }
    forall id <- q.orders ensures OrderWithin(q, id) {
      assert OrderWithin(p, id);
      forall n | 0 <= n < |q.orders[id].lines| ensures LineWithin(q, id, n) { assert LineWithin(p, id, n); }
      FullyReceivedFrame(p, q, id, i.order, r);
    }
    forall k | 0 <= k < |p.receipts| ensures p.receipts[k].key != r.key { assert p.receipts[k] in p.receipts; }
  }

  /** Receipts of one order leave the others as received as they were. */
  lemma FullyReceivedFrame(p: Purchases, q: Purchases, id: nat, received: nat, r: Receipt)
    requires id in p.orders && id in q.orders && received in p.orders && r.order == received
    requires q.orders[id].lines == p.orders[id].lines && q.receipts == p.receipts + [r]
    ensures id != received ==> (FullyReceived(q.orders[id], q.receipts, id)
        <==> FullyReceived(p.orders[id], p.receipts, id))
    ensures FullyReceived(q.orders[id], q.receipts, id) <==> FullyReceived(p.orders[id], q.receipts, id)
  {
    assert q.receipts[..|p.receipts|] == p.receipts;
  }

  lemma ReceivedClears(p: Purchases, q: Purchases, r: Receipt, l: Ledger, m: Ledger, receipt: nat)
    requires PurchasesOk(p) && Clears(p, l.entries) && r.order in p.orders
    requires q.receipts == p.receipts + [r] && q.bills == p.bills
    requires p.orders.Keys == q.orders.Keys && forall id <- p.orders :: q.orders[id].rate == p.orders[id].rate
    requires 0 <= ReceiptBase(r.lines, p.orders[r.order].rate)
    requires PostReceipt(l, receipt, r.receivedAt, ReceiptBase(r.lines, p.orders[r.order].rate)) == Ok(m)
    ensures Clears(q, m.entries)
  {
    var base := ReceiptBase(r.lines, p.orders[r.order].rate);
    ClearsFrame(p, p.(orders := q.orders), l.entries);
    AddReceipt(p.receipts, r, q.orders);
    var e := Entry(r.receivedAt, GoodsReceiptSource, ReceiptId(receipt),
        [Debit(Account.Inventory, base), Credit(Grni, base)]);
    NetOfPair(Account.Inventory, Grni, base, Grni);
    if base > 0 {
      forall t ensures Balance(Before(m.entries, t), Grni) == Balance(Before(l.entries, t), Grni) - if e.date < t
          then base else 0 {
        BeforeWith(l.entries, e, t, Grni);
      }
    }
  }

  lemma BeforeWith(entries: seq<Entry>, e: Entry, t: int, a: Account)
    ensures Balance(Before(entries + [e], t), a) == Balance(Before(entries, t), a)
        + if e.date < t then Net(e.lines, a) else 0
  {
    BeforeAppend(entries, [e], t);
    BeforeOne(e, t);
    if e.date < t {
      PostedNet(Before(entries, t), e, a);
    } else {
      assert Before(entries, t) + [] == Before(entries, t);
    }
  }

  lemma {:induction false} ReceiptBaseNonNegative(lines: seq<ReceiptLine>, rate: int)
    requires 0 < rate && forall line <- lines :: 0 <= line.total
    ensures 0 <= ReceiptBase(lines, rate)
  {
    if lines != [] {
      var last := lines[|lines| - 1];
      assert last in lines;
      MulRateSign(last.total, rate);
      ReceiptBaseNonNegative(lines[..|lines| - 1], rate);
    }
  }

  lemma ReceiptCosts(r: Receipt, order: Order)
    requires OrderOk(order)
    requires forall line <- r.lines ::
               line.orderLine < |order.lines| && 0 < line.quantity
               && line.total == MulQuantity(order.lines[line.orderLine].unitCost, line.quantity)
    ensures 0 <= ReceiptBase(r.lines, order.rate)
  {
    forall line <- r.lines ensures 0 <= line.total {
      assert order.lines[line.orderLine] in order.lines;
      MulRateSign(order.lines[line.orderLine].unitCost, line.quantity * 1_000);
    }
    ReceiptBaseNonNegative(r.lines, order.rate);
  }

  lemma ReceiveKeeps(b: ProcurementBooks, i: ReceiptInput, now: int)
    requires PurchasesOk(b.purchases) && Clears(b.purchases, b.ledger.entries) && Receive(b, i, now).Ok?
    ensures var c := Receive(b, i, now).value; PurchasesOk(c.purchases) && Clears(c.purchases, c.ledger.entries)
  {
    if FindReceipt(b.purchases.receipts, i.key).None? {
      var p, c := b.purchases, ReceiveNew(b, i, now).value;
      var r := ReceivePosts(b, i, now);
      ReceivedOk(p, c.purchases, i, r);
      var order := p.orders[i.order];
      assert OrderOk(order) by { assert OrderWithin(p, i.order); }
      ReceiptCosts(r, order);
      ReceivedClears(p, c.purchases, r, b.ledger, c.ledger, |p.receipts|);
    }
  }

  // ----- Posting bills -----

  lemma BillJournalTotals(grniBase: int, netBase: int, vatBase: int)
    requires 0 <= vatBase
    ensures TotalDebit(BillJournal(grniBase, netBase, vatBase)) == TotalCredit(BillJournal(grniBase, netBase, vatBase))
    ensures Net(BillJournal(grniBase, netBase, vatBase), Grni) == grniBase
  {
    var fx := netBase - grniBase;
    var grni, vat, ap := Debit(Grni, grniBase), Debit(VatInput, vatBase), Credit(Account.Payable, netBase + vatBase);
    OneLineTotals(grni);
    TwoMore([grni], vatBase > 0, vat, fx > 0, Debit(FxGainLoss, fx));
    var upper := [grni] + Maybe(vatBase > 0, vat) + Maybe(fx > 0, Debit(FxGainLoss, fx));
    TwoMore(upper, true, ap, fx < 0, Credit(FxGainLoss, -fx));
  }

  function Maybe(there: bool, line: Line): seq<Line> { if there then [line] else [] }

  lemma OneLineTotals(line: Line)
    ensures TotalDebit([line]) == line.debit && TotalCredit([line]) == line.credit
    ensures Net([line], Grni) == if line.account == Grni then line.debit - line.credit else 0
  {
    AddLine([], line, Grni);
    assert [] + [line] == [line];
  }

  lemma MaybeLine(lines: seq<Line>, there: bool, line: Line)
    ensures var more := lines + Maybe(there, line);
            && TotalDebit(more) == TotalDebit(lines) + (if there then line.debit else 0)
            && TotalCredit(more) == TotalCredit(lines) + (if there then line.credit else 0)
            && Net(more, Grni) == Net(lines, Grni)
                + if there && line.account == Grni then line.debit - line.credit else 0
  {
    AddLine(lines, line, Grni);
    assert lines + [] == lines;
  }

  lemma TwoMore(lines: seq<Line>, one: bool, first: Line, two: bool, second: Line)
    requires first.account != Grni && second.account != Grni
    ensures var more := lines + Maybe(one, first) + Maybe(two, second);
            && TotalDebit(more) == TotalDebit(lines) + (if one then first.debit else 0)
                + (if two then second.debit else 0)
            && TotalCredit(more) == TotalCredit(lines) + (if one then first.credit else 0)
                + (if two then second.credit else 0)
            && Net(more, Grni) == Net(lines, Grni)
  {
    MaybeLine(lines, one, first);
    MaybeLine(lines + Maybe(one, first), two, second);
  }

  lemma BillJournalSides(grniBase: int, netBase: int, vatBase: int)
    ensures var lines := BillJournal(grniBase, netBase, vatBase);
            && Debit(Grni, grniBase) in lines && Credit(Account.Payable, netBase + vatBase) in lines
            && forall line <- lines ::
                 || line == Debit(Grni, grniBase)
                 || line == Credit(Account.Payable, netBase + vatBase)
                 || OneSided(line)
  {
    var lines, fx := BillJournal(grniBase, netBase, vatBase), netBase - grniBase;
    assert lines[0] == Debit(Grni, grniBase);
    var k := 1 + (if vatBase > 0 then 1 else 0) + (if fx > 0 then 1 else 0);
    assert lines[k] == Credit(Account.Payable, netBase + vatBase);
  }

  /** The bill journal balances for either sign of the exchange difference, provided it
      clears something and owes something. */
  lemma BillJournalBalances(grniBase: int, netBase: int, vatBase: int)
    requires 0 <= netBase && 0 <= vatBase
    ensures Balanced(BillJournal(grniBase, netBase, vatBase)) <==> 0 < grniBase && 0 < netBase + vatBase
  {
    BillJournalTotals(grniBase, netBase, vatBase);
    BillJournalSides(grniBase, netBase, vatBase);
    assert OneSided(Debit(Grni, grniBase)) <==> 0 < grniBase;
    assert OneSided(Credit(Account.Payable, netBase + vatBase)) <==> 0 < netBase + vatBase;
  }

  lemma {:induction false} BasesNonNegative(lines: seq<BillLine>, rate: int)
    requires 0 < rate && forall line <- lines :: 0 <= line.net && 0 <= line.tax
    ensures 0 <= NetBase(lines, rate) && 0 <= TaxBase(lines, rate)
  {
    if lines != [] {
      var last := lines[|lines| - 1];
      assert last in lines;
      MulRateSign(last.net, rate);
      MulRateSign(last.tax, rate);
      BasesNonNegative(lines[..|lines| - 1], rate);
    }
  }

  lemma BillPosts(p: Purchases, l: Ledger, id: nat, key: string, now: int) returns (bill: Bill)
    requires PostBillNew(p, l, id, key, now).Ok?
    ensures id < |p.bills| && p.bills[id].status == BillDraft && p.bills[id].order in p.orders && Matches(p, id)
    ensures bill == p.bills[id].(status := Posted, postingKey := Some(key), postedAt := now)
    ensures var (q, m) := PostBillNew(p, l, id, key, now).value;
            && q == p.(bills := p.bills[id := bill])
            && Post(l, Entry(bill.billDate, SupplierBillSource, BillId(id),
                             BillJournal(NetBase(bill.lines, p.orders[bill.order].rate), NetBase(bill.lines, bill.rate),
                                         TaxBase(bill.lines, bill.rate)))) == Ok(m)
  {
    bill := PostBillNew(p, l, id, key, now).value.0.bills[id];
  }

  lemma PostedClears(p: Purchases, entries: seq<Entry>, id: nat, bill: Bill, e: Entry)
    requires Clears(p, entries) && id < |p.bills| && p.bills[id].status == BillDraft && bill.order in p.orders
    requires bill.status == Posted && e.date == bill.billDate
    requires Net(e.lines, Grni) == NetBase(bill.lines, p.orders[bill.order].rate)
    ensures Clears(p.(bills := p.bills[id := bill]), entries + [e])
  {
    var q := p.(bills := p.bills[id := bill]);
    forall t ensures -Balance(Before(entries + [e], t), Grni)
        == ReceivedBase(q.receipts, q.orders, t) - BilledBase(q.bills, q.orders, t, None) {
      BeforeWith(entries, e, t, Grni);
      BilledBaseReplaced(p.bills, id, bill, p.orders, t);
    }
  }

  /** A matched bill adds to each order line no more than receipts still cover. */
  lemma PostedWithin(p: Purchases, id: nat, bill: Bill)
    requires PurchasesOk(p) && id < |p.bills| && p.bills[id].status == BillDraft
    requires p.bills[id].order in p.orders && Matches(p, id)
    requires bill.status == Posted && bill.order == p.bills[id].order && bill.lines == p.bills[id].lines
    ensures var q := p.(bills := p.bills[id := bill]); forall k <- q.orders :: OrderWithin(q, k)
  {
    var q := p.(bills := p.bills[id := bill]);
    assert p.bills[id] in p.bills;
    assert BillOk(p.bills[id], p.orders);
    forall k <- q.orders ensures OrderWithin(q, k) {
      assert OrderWithin(p, k);
      forall n | 0 <= n < |q.orders[k].lines| ensures LineWithin(q, k, n) {
        assert LineWithin(p, k, n);
        BillReplaced(p.bills, id, bill, k, n);
        if k == bill.order { MatchedLine(p, bill, p.bills[id], n); }
      }
    }
  }

  lemma MatchedLine(p: Purchases, bill: Bill, draft: Bill, n: nat)
    requires draft.status == BillDraft && draft.order in p.orders && bill.order == draft.order
        && bill.lines == draft.lines
    requires n < |p.orders[bill.order].lines|
    requires forall line <- draft.lines :: LineMatches(p, draft, line)
    requires forall i, j :: 0 <= i < j < |bill.lines| ==> bill.lines[i].orderLine != bill.lines[j].orderLine
    requires LineWithin(p, bill.order, n)
    ensures BilledUnits(p.bills, bill.order, n) + LineBilled(bill.lines, n) <= ReceivedUnits(p.receipts, bill.order, n)
  {
    if k: nat :| k < |bill.lines| && bill.lines[k].orderLine == n {
      LineBilledOnce(bill.lines, k);
      assert LineMatches(p, draft, draft.lines[k]);
    } else {
      LineNotBilled(bill.lines, n);
    }
  }

  lemma PostBillKeeps(p: Purchases, l: Ledger, id: nat, key: string, now: int)
    requires PurchasesOk(p) && Clears(p, l.entries) && PostBill(p, l, id, key, now).Ok?
    ensures var (q, m) := PostBill(p, l, id, key, now).value; PurchasesOk(q) && Clears(q, m.entries)
  {
    if FindPosting(p.bills, key).None? {
      var (q, m) := PostBillNew(p, l, id, key, now).value;
      var bill := BillPosts(p, l, id, key, now);
      assert p.bills[id] in p.bills;
      PostedWithin(p, id, bill);
      var e := m.entries[|l.entries|];
      BasesNonNegative(bill.lines, bill.rate);
      GrniOfPosted(p, l, id, bill, e);
      PostedClears(p, l.entries, id, bill, e);
      PostedBillOk(p, id, bill, key);
    }
  }

  lemma GrniOfPosted(p: Purchases, l: Ledger, id: nat, bill: Bill, e: Entry)
    requires PurchasesOk(p) && bill.order in p.orders && id < |p.bills| && BillOk(p.bills[id], p.orders)
    requires bill.lines == p.bills[id].lines && 0 <= TaxBase(bill.lines, bill.rate) && Post(l, e).Ok?
    requires e.lines == BillJournal(NetBase(bill.lines, p.orders[bill.order].rate), NetBase(bill.lines, bill.rate),
        TaxBase(bill.lines, bill.rate))
    ensures Net(e.lines, Grni) == NetBase(bill.lines, p.orders[bill.order].rate) > 0
  {
    var grniBase := NetBase(bill.lines, p.orders[bill.order].rate);
    BillJournalTotals(grniBase, NetBase(bill.lines, bill.rate), TaxBase(bill.lines, bill.rate));
    BillJournalSides(grniBase, NetBase(bill.lines, bill.rate), TaxBase(bill.lines, bill.rate));
    assert OneSided(Debit(Grni, grniBase));
  }

  lemma PostedBillOk(p: Purchases, id: nat, bill: Bill, key: string)
    requires PurchasesOk(p) && id < |p.bills| && p.bills[id].order in p.orders && Matches(p, id)
    requires bill == p.bills[id].(status := Posted, postingKey := Some(key), postedAt := bill.postedAt)
    requires 0 < NetBase(bill.lines, p.orders[bill.order].rate)
    requires FindPosting(p.bills, key).None?
    requires var q := p.(bills := p.bills[id := bill]); forall k <- q.orders :: OrderWithin(q, k)
    ensures PurchasesOk(p.(bills := p.bills[id := bill]))
  {
    var q := p.(bills := p.bills[id := bill]);
    assert p.bills[id] in p.bills;
    assert BillOk(p.bills[id], p.orders);
    forall line <- bill.lines ensures BillLineOk(line, p.orders[bill.order], true) {
      assert LineMatches(p, p.bills[id], line);
    }
    forall b <- q.bills ensures BillOk(b, q.orders) {
      if b != bill { assert b in p.bills; assert BillOk(b, p.orders); }
    }
    forall k | 0 <= k < |p.bills| ensures p.bills[k].postingKey != Some(key) { assert p.bills[k] in p.bills; }
  }
}
