/** Purchase orders, goods receipts and supplier bills with the three-way match. */
module Procurement {
  import opened Wrappers
  import opened Money
  import opened Accounting
  import opened Inventory
  import opened Invoicing

  datatype OrderLine = OrderLine(key: Key, quantity: int, unitCost: int)

  datatype OrderStatus = Ordered | Received

  datatype Order = Order(vendor: nat, currency: Currency, rate: int, status: OrderStatus, lines: seq<OrderLine>)

  datatype ReceiptLine = ReceiptLine(orderLine: nat, quantity: int, total: int)

  datatype Receipt = Receipt(order: nat, receivedAt: int, key: string, fingerprint: Fingerprint,
      lines: seq<ReceiptLine>)

  datatype BillStatus = BillDraft | Posted

  datatype BillLine = BillLine(orderLine: nat, quantity: int, unitPrice: int, net: int, tax: int)

  datatype Bill = Bill(
    order: nat, vendor: nat, currency: Currency, number: nat,
    billDate: int, rate: int, lines: seq<BillLine>,
    status: BillStatus, postingKey: Option<string>, postedAt: int)

  datatype Purchases = Purchases(orders: map<nat, Order>, receipts: seq<Receipt>, bills: seq<Bill>)

  datatype ProcurementBooks = ProcurementBooks(purchases: Purchases, stock: Stock, ledger: Ledger)

  // ----- Orders -----

  /** An approved order, as the request schema admits it. */
  function PlaceOrder(p: Purchases, id: nat, vendor: nat, currency: Currency, rate: int,
      lines: seq<OrderLine>): Result<Purchases> {
    var _ :- Require(id !in p.orders, Conflict);
    var _ :- Require(lines != [] && 0 < rate, BadRequest);
    var _ :- Require(forall line <- lines :: 0 < line.quantity && 0 < line.unitCost, BadRequest);
    var _ :- Require(forall i, j :: 0 <= i < j < |lines| ==> lines[i].key != lines[j].key, BadRequest);
    Ok(p.(orders := p.orders[id := Order(vendor, currency, rate, Ordered, lines)]))
  }

  // ----- Goods receipts -----

  function FindReceipt(receipts: seq<Receipt>, key: string): (r: Option<nat>)
    ensures r.Some? ==> r.value < |receipts| && receipts[r.value].key == key
    ensures r.None? ==> forall x <- receipts :: x.key != key
  {
    if receipts == [] then None
    else if receipts[|receipts| - 1].key == key then Some(|receipts| - 1)
    else FindReceipt(receipts[..|receipts| - 1], key)
  }

  function LineReceived(lines: seq<ReceiptLine>, orderLine: nat): int {
    if lines == [] then 0
    else LineReceived(lines[..|lines| - 1], orderLine)
         + if lines[|lines| - 1].orderLine == orderLine then lines[|lines| - 1].quantity else 0
  }

  /** Units of an order line received so far. */
  function ReceivedUnits(receipts: seq<Receipt>, order: nat, orderLine: nat): int {
    if receipts == [] then 0
    else ReceivedUnits(receipts[..|receipts| - 1], order, orderLine)
         + if receipts[|receipts| - 1].order == order then LineReceived(receipts[|receipts| - 1].lines, orderLine)
             else 0
  }

  datatype ReceiptInput = ReceiptInput(order: nat, key: string, quantities: map<nat, int>, receivedAt: Option<int>,
      note: string)

  function ReceiptPrint(i: ReceiptInput): Fingerprint {
    ReceiptOf(i.order, i.quantities, i.receivedAt, i.note)
  }

  datatype Taken = Taken(stock: Stock, lines: seq<ReceiptLine>, base: int)

  function TakeRequest(receipt: nat, orderLine: nat, order: Order, i: ReceiptInput): Request
    requires orderLine < |order.lines| && orderLine in i.quantities
  {
    var line := order.lines[orderLine];
    var total := MulQuantity(line.unitCost, i.quantities[orderLine]);
    Request(Movement(line.key, i.quantities[orderLine], Some(MulRate(line.unitCost, order.rate)), Purchase,
                     GoodsReceiptSource, ReceiptId(receipt), Some(ReceiptKey(receipt, orderLine)),
                         Some(ReceiptPrint(i))),
            Some(MulRate(total, order.rate)), false, false)
  }

  /** One order line taken into stock; a line the receipt does not mention is skipped. */
  function TakeLine(t: Taken, receipt: nat, orderLine: nat, order: Order, i: ReceiptInput): Result<Taken>
    requires orderLine < |order.lines|
  {
    if orderLine !in i.quantities then Ok(t)
    else
      var line := order.lines[orderLine];
      var total := MulQuantity(line.unitCost, i.quantities[orderLine]);
      var _ :- Require(total <= MAX_MONEY_CENTS, BadRequest);
      var moved :- Record(t.stock, TakeRequest(receipt, orderLine, order, i));
      var base := t.base + MulRate(total, order.rate);
      var _ :- Require(base <= MAX_MONEY_CENTS, BadRequest);
      Ok(Taken(WithCostPrice(moved.stock, line.key.product, MulRate(line.unitCost, order.rate)),
               t.lines + [ReceiptLine(orderLine, i.quantities[orderLine], total)], base))
  }

  function TakeLines(s: Stock, receipt: nat, n: nat, order: Order, i: ReceiptInput): Result<Taken>
    requires n <= |order.lines|
  {
    if n == 0 then Ok(Taken(s, [], 0))
    else
      var before :- TakeLines(s, receipt, n - 1, order, i);
      TakeLine(before, receipt, n - 1, order, i)
  }

  lemma LastLineTaken(s: Stock, receipt: nat, n: nat, order: Order, i: ReceiptInput) returns (t: Taken)
    requires 0 < n <= |order.lines| && TakeLines(s, receipt, n, order, i).Ok?
    ensures TakeLines(s, receipt, n - 1, order, i) == Ok(t)
    ensures TakeLine(t, receipt, n - 1, order, i) == TakeLines(s, receipt, n, order, i)
  {
    t := TakeLines(s, receipt, n - 1, order, i).value;
  }

  function PostReceipt(l: Ledger, receipt: nat, date: int, base: int): Result<Ledger> {
    if base <= 0 then Ok(l)
    else Post(l, Entry(date, GoodsReceiptSource, ReceiptId(receipt),
        [Debit(Account.Inventory, base), Credit(Grni, base)]))
  }

  predicate FullyReceived(order: Order, receipts: seq<Receipt>, id: nat) {
    forall n :: 0 <= n < |order.lines| ==> ReceivedUnits(receipts, id, n) == order.lines[n].quantity
  }

  function ReceiveNew(b: ProcurementBooks, i: ReceiptInput, now: int): Result<ProcurementBooks> {
    var p := b.purchases;
    var _ :- Require(i.order in p.orders, NotFound);
    var order := p.orders[i.order];
    var _ :- Require(order.status == Ordered, Conflict);
    var _ :- Require(forall n <- i.quantities :: n < |order.lines|, BadRequest);
    var _ :- Require(forall n <- i.quantities ::
      ReceivedUnits(p.receipts, i.order, n) + i.quantities[n] <= order.lines[n].quantity, Conflict);
    var receipt, date := |p.receipts|, if i.receivedAt.Some? then i.receivedAt.value else now;
    var taken :- TakeLines(b.stock, receipt, |order.lines|, order, i);
    var ledger :- PostReceipt(b.ledger, receipt, date, taken.base);
    var receipts := p.receipts + [Receipt(i.order, date, i.key, ReceiptPrint(i), taken.lines)];
    var status := if FullyReceived(order, receipts, i.order) then Received else Ordered;
    Ok(ProcurementBooks(p.(receipts := receipts, orders := p.orders[i.order := order.(status := status)]), taken.stock,
        ledger))
  }

  function Receive(b: ProcurementBooks, i: ReceiptInput, now: int): Result<ProcurementBooks> {
    var _ :- Require(i.quantities != map[] && forall n <- i.quantities :: 0 < i.quantities[n], BadRequest);
    var existing := FindReceipt(b.purchases.receipts, i.key);
    if existing.Some? then
      var _ :- Require(b.purchases.receipts[existing.value].fingerprint == ReceiptPrint(i), Conflict);
      Ok(b)
    else
      ReceiveNew(b, i, now)
  }

  // ----- Supplier bills -----

  datatype BillInput = BillInput(orderLine: nat, quantity: int, unitPrice: int, taxRate: int)

  function BillLineOf(i: BillInput): BillLine {
    var net := MulQuantity(i.unitPrice, i.quantity);
    BillLine(i.orderLine, i.quantity, i.unitPrice, net, MulRate(net, i.taxRate))
  }

  predicate NumberTaken(bills: seq<Bill>, vendor: nat, number: nat, except: nat) {
    exists id :: 0 <= id < |bills| && id != except && bills[id].vendor == vendor && bills[id].number == number
  }

  /** Creates a draft bill against an order (`id` is the next number), or replaces the
      content of a draft. Supplier invoice numbers stand for their lower-case text. */
  function SaveBill(p: Purchases, id: nat, order: nat, number: nat, billDate: int, rate: int,
      inputs: seq<BillInput>): Result<Purchases> {
    var _ :- Require(inputs != [] && 0 < rate, BadRequest);
    var _ :- Require(forall i <- inputs :: 0 < i.quantity && 0 < i.unitPrice && 0 <= i.taxRate, BadRequest);
    var _ :- Require(forall i, j :: 0 <= i < j < |inputs| ==> inputs[i].orderLine != inputs[j].orderLine, BadRequest);
    var _ :- Require(id <= |p.bills|, NotFound);
    var _ :- Require(id < |p.bills| ==> p.bills[id].status == BillDraft && p.bills[id].order == order, Conflict);
    var _ :- Require(order in p.orders, NotFound);
    var po := p.orders[order];
    var _ :- Require(!NumberTaken(p.bills, po.vendor, number, id), Conflict);
    var _ :- Require(forall i <- inputs :: i.orderLine < |po.lines|, BadRequest);
    var lines := seq(|inputs|, k requires 0 <= k < |inputs| => BillLineOf(inputs[k]));
    var _ :- Require(forall line <- lines :: line.net + line.tax <= MAX_MONEY_CENTS, BadRequest);
    Ok(p.(bills := p.bills[..id]
        + [Bill(order, po.vendor, po.currency, number, billDate, rate, lines, BillDraft, None, 0)]
                   + if id < |p.bills| then p.bills[id + 1..] else []))
  }

  datatype MatchReason =
    | SupplierMismatch | CurrencyMismatch | DuplicateSupplierInvoice | NoReceiptEvidence
    | LineNotOnOrder(line: nat) | PriceMismatch(line: nat)
    | QuantityExceedsOrdered(line: nat) | QuantityExceedsReceived(line: nat)

  function LineBilled(lines: seq<BillLine>, orderLine: nat): int {
    if lines == [] then 0
    else LineBilled(lines[..|lines| - 1], orderLine)
         + if lines[|lines| - 1].orderLine == orderLine then lines[|lines| - 1].quantity else 0
  }

  function BilledBy(bill: Bill, order: nat, orderLine: nat): int {
    if bill.status == Posted && bill.order == order then LineBilled(bill.lines, orderLine) else 0
  }

  /** Units of an order line on the posted bills of the order. */
  function BilledUnits(bills: seq<Bill>, order: nat, orderLine: nat): int {
    if bills == [] then 0
    else BilledUnits(bills[..|bills| - 1], order, orderLine) + BilledBy(bills[|bills| - 1], order, orderLine)
  }

  function BilledByOthers(p: Purchases, bill: Bill, orderLine: nat): int {
    BilledUnits(p.bills, bill.order, orderLine) - BilledBy(bill, bill.order, orderLine)
  }

  /** The three-way match of one bill line against order, receipts and earlier bills. */
  predicate LineMatches(p: Purchases, bill: Bill, line: BillLine)
    requires bill.order in p.orders
  {
    var order := p.orders[bill.order];
    && line.orderLine < |order.lines|
    && line.unitPrice == order.lines[line.orderLine].unitCost
    && var cumulative := BilledByOthers(p, bill, line.orderLine) + line.quantity;
       && cumulative <= order.lines[line.orderLine].quantity
       && cumulative <= ReceivedUnits(p.receipts, bill.order, line.orderLine)
  }

  predicate Matches(p: Purchases, id: nat)
    requires id < |p.bills| && p.bills[id].order in p.orders
  {
    var bill := p.bills[id];
    && bill.vendor == p.orders[bill.order].vendor
    && bill.currency == p.orders[bill.order].currency
    && !NumberTaken(p.bills, bill.vendor, bill.number, id)
    && (exists r <- p.receipts :: r.order == bill.order && r.lines != [])
    && (forall line <- bill.lines :: LineMatches(p, bill, line))
  }

  function NetBase(lines: seq<BillLine>, rate: int): int {
    if lines == [] then 0 else NetBase(lines[..|lines| - 1], rate) + MulRate(lines[|lines| - 1].net, rate)
  }

  function TaxBase(lines: seq<BillLine>, rate: int): int {
    if lines == [] then 0 else TaxBase(lines[..|lines| - 1], rate) + MulRate(lines[|lines| - 1].tax, rate)
  }

  /** Clears GRNI at the order rate, owes the supplier at the bill rate, and books the
      difference of the two rates to the exchange account on whichever side it falls. */
  function BillJournal(grniBase: int, netBase: int, vatBase: int): seq<Line> {
    var fx := netBase - grniBase;
    [Debit(Grni, grniBase)]
    + (if vatBase > 0 then [Debit(VatInput, vatBase)] else [])
    + (if fx > 0 then [Debit(FxGainLoss, fx)] else [])
    + [Credit(Account.Payable, netBase + vatBase)]
    + (if fx < 0 then [Credit(FxGainLoss, -fx)] else [])
  }

  function PostBillNew(p: Purchases, l: Ledger, id: nat, key: string, now: int): Result<(Purchases, Ledger)> {
    var _ :- Require(id < |p.bills|, NotFound);
    var bill := p.bills[id];
    var _ :- Require(bill.status == BillDraft, Conflict);
    var _ :- Require(bill.order in p.orders, NotFound);
    var _ :- Require(Matches(p, id), Conflict);
    var po := p.orders[bill.order];
    var lines := BillJournal(NetBase(bill.lines, po.rate), NetBase(bill.lines, bill.rate),
        TaxBase(bill.lines, bill.rate));
    var ledger :- Post(l, Entry(bill.billDate, SupplierBillSource, BillId(id), lines));
    Ok((p.(bills := p.bills[id := bill.(status := Posted, postingKey := Some(key), postedAt := now)]), ledger))
  }

  function FindPosting(bills: seq<Bill>, key: string): (r: Option<nat>)
    ensures r.Some? ==> r.value < |bills| && bills[r.value].postingKey == Some(key)
    ensures r.None? ==> forall b <- bills :: b.postingKey != Some(key)
  {
    if bills == [] then None
    else if bills[|bills| - 1].postingKey == Some(key) then Some(|bills| - 1)
    else FindPosting(bills[..|bills| - 1], key)
  }

  /** The posting fingerprint is the bill id, so a replay must name the same bill. */
  function PostBill(p: Purchases, l: Ledger, id: nat, key: string, now: int): Result<(Purchases, Ledger)> {
    var existing := FindPosting(p.bills, key);
    if existing.Some? then
      var _ :- Require(existing.value == id, Conflict);
      Ok((p, l))
    else
      PostBillNew(p, l, id, key, now)
  }

  // ----- The same, as the tables are written -----

  /** A map that counts from zero. */
  function At(m: map<nat, int>, n: nat): int { if n in m then m[n] else 0 }

  method TallyReceiptLines(m: map<nat, int>, lines: seq<ReceiptLine>) returns (tally: map<nat, int>)
    ensures forall n: nat :: At(tally, n) == At(m, n) + LineReceived(lines, n)
  {
    tally := m;
    for i := 0 to |lines|
      invariant forall n: nat :: At(tally, n) == At(m, n) + LineReceived(lines[..i], n)
    {
      assert lines[..i + 1][..i] == lines[..i];
      tally := tally[lines[i].orderLine := At(tally, lines[i].orderLine) + lines[i].quantity];
    }
    assert lines[..|lines|] == lines;
  }

  method TallyReceived(receipts: seq<Receipt>, order: nat) returns (received: map<nat, int>)
    ensures forall n: nat :: At(received, n) == ReceivedUnits(receipts, order, n)
  {
    received := map[];
    for i := 0 to |receipts|
      invariant forall n: nat :: At(received, n) == ReceivedUnits(receipts[..i], order, n)
    {
      assert receipts[..i + 1][..i] == receipts[..i];
      if receipts[i].order == order {
        received := TallyReceiptLines(received, receipts[i].lines);
      }
    }
    assert receipts[..|receipts|] == receipts;
  }

  method TallyBillLines(m: map<nat, int>, lines: seq<BillLine>) returns (tally: map<nat, int>)
    ensures forall n: nat :: At(tally, n) == At(m, n) + LineBilled(lines, n)
  {
    tally := m;
    for i := 0 to |lines|
      invariant forall n: nat :: At(tally, n) == At(m, n) + LineBilled(lines[..i], n)
    {
      assert lines[..i + 1][..i] == lines[..i];
      tally := tally[lines[i].orderLine := At(tally, lines[i].orderLine) + lines[i].quantity];
    }
    assert lines[..|lines|] == lines;
  }

  /** Units billed by the posted bills of an order other than bill `except`. */
  method TallyBilled(bills: seq<Bill>, order: nat, except: nat) returns (billed: map<nat, int>)
    requires except < |bills|
    ensures forall n: nat :: At(billed, n) == BilledUnits(bills, order, n) - BilledBy(bills[except], order, n)
  {
    billed := map[];
    for i := 0 to |bills|
      invariant forall n: nat ::
        At(billed, n) == BilledUnits(bills[..i], order, n) - if except < i then BilledBy(bills[except], order, n) else 0
    {
      assert bills[..i + 1][..i] == bills[..i];
      if i != except && bills[i].status == Posted && bills[i].order == order {
        billed := TallyBillLines(billed, bills[i].lines);
      }
    }
    assert bills[..|bills|] == bills;
  }

  /** What each reason for blocking a bill says about it. */
  predicate Blocks(p: Purchases, id: nat, r: MatchReason)
    requires id < |p.bills| && p.bills[id].order in p.orders
  {
    var bill := p.bills[id];
    var order := p.orders[bill.order];
    match r
    case SupplierMismatch => bill.vendor != order.vendor
    case CurrencyMismatch => bill.currency != order.currency
    case DuplicateSupplierInvoice => NumberTaken(p.bills, bill.vendor, bill.number, id)
    case NoReceiptEvidence => forall receipt <- p.receipts :: receipt.order == bill.order ==> receipt.lines == []
    case _ => exists k: nat :: k < |bill.lines| && LineBlocks(p, bill, bill.lines[k], r)
  }

  predicate LineBlocks(p: Purchases, bill: Bill, line: BillLine, r: MatchReason)
    requires bill.order in p.orders
  {
    var lines, n := p.orders[bill.order].lines, line.orderLine;
    match r
    case LineNotOnOrder(m) => m == n && |lines| <= n
    case PriceMismatch(m) => m == n < |lines| && line.unitPrice != lines[n].unitCost
    case QuantityExceedsOrdered(m) => m == n < |lines| && lines[n].quantity < BilledByOthers(p, bill, n) + line.quantity
    case QuantityExceedsReceived(m) =>
      m == n < |lines| && ReceivedUnits(p.receipts, bill.order, n) < BilledByOthers(p, bill, n) + line.quantity
    case _ => false
  }

  lemma UnblockedLine(p: Purchases, bill: Bill, line: BillLine)
    requires bill.order in p.orders
    ensures LineMatches(p, bill, line) <==> forall r :: !LineBlocks(p, bill, line, r)
  {
    var n := line.orderLine;
    if forall r :: !LineBlocks(p, bill, line, r) {
      assert !LineBlocks(p, bill, line, LineNotOnOrder(n)) && !LineBlocks(p, bill, line, PriceMismatch(n));
      assert !LineBlocks(p, bill, line, QuantityExceedsOrdered(n))
          && !LineBlocks(p, bill, line, QuantityExceedsReceived(n));
    }
  }

  /** A bill matches exactly when nothing blocks it. */
  lemma UnblockedMatches(p: Purchases, id: nat)
    requires id < |p.bills| && p.bills[id].order in p.orders
    ensures Matches(p, id) <==> forall r :: !Blocks(p, id, r)
  {
    var bill := p.bills[id];
    forall line <- bill.lines ensures LineMatches(p, bill, line) <==> forall r :: !LineBlocks(p, bill, line, r) {
      UnblockedLine(p, bill, line);
    }
    if Matches(p, id) {
      forall r ensures !Blocks(p, id, r) {
        forall k: nat | k < |bill.lines| ensures !LineBlocks(p, bill, bill.lines[k], r) {
          assert bill.lines[k] in bill.lines;
        }
      }
    } else if forall r :: !Blocks(p, id, r) {
      assert !Blocks(p, id, SupplierMismatch) && !Blocks(p, id, CurrencyMismatch);
      assert !Blocks(p, id, DuplicateSupplierInvoice) && !Blocks(p, id, NoReceiptEvidence);
      forall line <- bill.lines, r ensures !LineBlocks(p, bill, line, r) {
        var k :| 0 <= k < |bill.lines| && bill.lines[k] == line;
        assert !Blocks(p, id, r);
      }
    }
  }

  class PurchaseBook {
    var orders: map<nat, Order>
    var receipts: seq<Receipt>
    var bills: seq<Bill>

    function State(): Purchases
      reads this
    {
      Purchases(orders, receipts, bills)
    }

    constructor ()
      ensures State() == Purchases(map[], [], [])
    {
      orders, receipts, bills := map[], [], [];
    }

    /** One order line of a receipt taken into stock at the order rate. */
    method TakeOrderLine(stock: StockLedger, receipt: nat, orderLine: nat, order: Order, i: ReceiptInput,
                         lines: seq<ReceiptLine>, goodsBase: int)
      returns (r: Result<(seq<ReceiptLine>, int)>)
      requires orderLine < |order.lines|
      modifies stock
      ensures r.Ok? <==> TakeLine(Taken(old(stock.State()), lines, goodsBase), receipt, orderLine, order, i).Ok?
      ensures r.Ok? ==>
                TakeLine(Taken(old(stock.State()), lines, goodsBase), receipt, orderLine, order, i)
                == Ok(Taken(stock.State(), r.value.0, r.value.1))
    {
      if orderLine !in i.quantities { return Ok((lines, goodsBase)); }
      var line := order.lines[orderLine];
      var total := MulQuantity(line.unitCost, i.quantities[orderLine]);
      if total > MAX_MONEY_CENTS { return Err(BadRequest); }
      var baseUnitCost := MulRate(line.unitCost, order.rate);
      var baseLineTotal := MulRate(total, order.rate);
      var moved := stock.RecordStockMovement(TakeRequest(receipt, orderLine, order, i));
      if moved.Err? { return Err(moved.error); }
      if line.key.product in stock.products {
        stock.products := stock.products[line.key.product :=
            stock.products[line.key.product].(costPrice := baseUnitCost)];
      }
      if goodsBase + baseLineTotal > MAX_MONEY_CENTS { return Err(BadRequest); }
      return Ok((lines + [ReceiptLine(orderLine, i.quantities[orderLine], total)], goodsBase + baseLineTotal));
    }

    method TakeOrderLines(stock: StockLedger, receipt: nat, order: Order, i: ReceiptInput)
      returns (r: Result<(seq<ReceiptLine>, int)>)
      modifies stock
      ensures r.Ok? <==> TakeLines(old(stock.State()), receipt, |order.lines|, order, i).Ok?
      ensures r.Ok? ==>
                TakeLines(old(stock.State()), receipt, |order.lines|, order, i)
                    == Ok(Taken(stock.State(), r.value.0, r.value.1))
    {
      ghost var before := stock.State();
      var lines, goodsBase := [], 0;
      for n := 0 to |order.lines|
        invariant TakeLines(before, receipt, n, order, i) == Ok(Taken(stock.State(), lines, goodsBase))
      {
        TakeFailsOnward(before, receipt, n + 1, order, i);
        var next := TakeOrderLine(stock, receipt, n, order, i, lines, goodsBase);
        if next.Err? { return Err(next.error); }
        lines, goodsBase := next.value.0, next.value.1;
      }
      return Ok((lines, goodsBase));
    }

    /** No requested quantity exceeds what its order line still has outstanding. */
    method CheckOutstanding(order: Order, i: ReceiptInput, received: map<nat, int>) returns (within: bool)
      requires forall n <- i.quantities :: n < |order.lines|
      ensures within <==> forall n <- i.quantities :: At(received, n) + i.quantities[n] <= order.lines[n].quantity
    {
      for n := 0 to |order.lines|
        invariant forall k: nat ::
            k < n && k in i.quantities ==> At(received, k) + i.quantities[k] <= order.lines[k].quantity
      {
        if n in i.quantities && At(received, n) + i.quantities[n] > order.lines[n].quantity { return false; }
      }
      return true;
    }

    method AllReceived(order: Order, received: map<nat, int>) returns (all: bool)
      ensures all <==> forall n: nat :: n < |order.lines| ==> At(received, n) == order.lines[n].quantity
    {
      for n := 0 to |order.lines|
        invariant forall k: nat :: k < n ==> At(received, k) == order.lines[k].quantity
      {
        if At(received, n) != order.lines[n].quantity { return false; }
      }
      return true;
    }

    /** The entry of a receipt, when it is worth anything. */
    method PostGoods(journal: Journal, receipt: nat, date: int, goodsBase: int) returns (r: Result<()>)
      modifies journal
      ensures r.Ok? <==> PostReceipt(old(journal.State()), receipt, date, goodsBase).Ok?
      ensures journal.State() == OrElse(PostReceipt(old(journal.State()), receipt, date, goodsBase),
          old(journal.State()))
    {
      if goodsBase <= 0 { return Ok(()); }
      r := journal.PostJournal(date, GoodsReceiptSource, ReceiptId(receipt),
                               [Debit(Account.Inventory, goodsBase), Credit(Grni, goodsBase)]);
    }

    method PostNewReceipt(stock: StockLedger, journal: Journal, i: ReceiptInput, now: int) returns (r: Result<()>)
      modifies this`orders, this`receipts, stock, journal
      ensures r.Ok? <==> ReceiveNew(old(ProcurementBooks(State(), stock.State(), journal.State())), i, now).Ok?
      ensures ProcurementBooks(State(), stock.State(), journal.State())
           == OrElse(ReceiveNew(old(ProcurementBooks(State(), stock.State(), journal.State())), i, now),
                     old(ProcurementBooks(State(), stock.State(), journal.State())))
    {
      if i.order !in orders { return Err(NotFound); }
      var order := orders[i.order];
      if order.status != Ordered { return Err(Conflict); }
      if exists n <- i.quantities :: n >= |order.lines| { return Err(BadRequest); }
      var received := TallyReceived(receipts, i.order);
      var within := CheckOutstanding(order, i, received);
      if !within { return Err(Conflict); }
      var saved := stock.State();
      var receipt, date := |receipts|, now;
      if i.receivedAt.Some? { date := i.receivedAt.value; }
      var taken := TakeOrderLines(stock, receipt, order, i);
      if taken.Err? {
        stock.Rollback(saved);
        return Err(taken.error);
      }
      var goodsBase := taken.value.1;
      r := PostGoods(journal, receipt, date, goodsBase);
      if r.Err? {
        stock.Rollback(saved);
        return;
      }
      FileReceipt(order, Receipt(i.order, date, i.key, ReceiptPrint(i), taken.value.0), received);
      return Ok(());
    }

    /** Stores the receipt and marks the order received when nothing is outstanding. */
    method FileReceipt(order: Order, receipt: Receipt, received: map<nat, int>)
      requires forall n: nat :: At(received, n) == ReceivedUnits(receipts, receipt.order, n)
      modifies this`orders, this`receipts
      ensures receipts == old(receipts) + [receipt]
      ensures orders == old(orders)[receipt.order :=
                order.(status := if FullyReceived(order, receipts, receipt.order) then Received else Ordered)]
    {
      var receivedNow := TallyReceiptLines(received, receipt.lines);
      receipts := receipts + [receipt];
      assert receipts[..|old(receipts)|] == old(receipts);
      assert forall n: nat :: At(receivedNow, n) == ReceivedUnits(receipts, receipt.order, n);
      var fullyReceived := AllReceived(order, receivedNow);
      orders := orders[receipt.order := order.(status := if fullyReceived then Received else Ordered)];
    }

    method PostGoodsReceipt(stock: StockLedger, journal: Journal, i: ReceiptInput, now: int) returns (r: Result<()>)
      modifies this`orders, this`receipts, stock, journal
      ensures r.Ok? <==> Receive(old(ProcurementBooks(State(), stock.State(), journal.State())), i, now).Ok?
      ensures ProcurementBooks(State(), stock.State(), journal.State())
           == OrElse(Receive(old(ProcurementBooks(State(), stock.State(), journal.State())), i, now),
                     old(ProcurementBooks(State(), stock.State(), journal.State())))
    {
      if i.quantities == map[] || exists n <- i.quantities :: i.quantities[n] <= 0 { return Err(BadRequest); }
      var existing := FindReceipt(receipts, i.key);
      if existing.Some? {
        if receipts[existing.value].fingerprint != ReceiptPrint(i) { return Err(Conflict); }
        return Ok(());
      }
      r := PostNewReceipt(stock, journal, i, now);
    }

    /** The three-way match: every reason that blocks the bill, and no other. */
    method EvaluateMatch(id: nat) returns (reasons: seq<MatchReason>)
      requires id < |bills| && bills[id].order in orders
      ensures forall r :: r in reasons <==> Blocks(State(), id, r)
      ensures reasons == [] <==> Matches(State(), id)
    {
      var bill := bills[id];
      var order := orders[bill.order];
      reasons := [];
      if bill.vendor != order.vendor { reasons := reasons + [SupplierMismatch]; }
      if bill.currency != order.currency { reasons := reasons + [CurrencyMismatch]; }
      if NumberTaken(bills, bill.vendor, bill.number, id) { reasons := reasons + [DuplicateSupplierInvoice]; }
      if forall receipt <- receipts :: receipt.order == bill.order ==> receipt.lines == [] {
        reasons := reasons + [NoReceiptEvidence];
      }
      var received := TallyReceived(receipts, bill.order);
      var billed := TallyBilled(bills, bill.order, id);
      for k := 0 to |bill.lines|
        invariant forall r :: r in reasons <==> HeaderBlocks(State(), id, r) || LinesBlock(State(), id, k, r)
      {
        reasons := EvaluateLine(bill, bill.lines[k], received, billed, reasons);
        forall r ensures LinesBlock(State(), id, k + 1, r)
            <==> LinesBlock(State(), id, k, r) || LineBlocks(State(), bill, bill.lines[k], r) {
          LinesBlockNext(State(), id, k, r);
        }
      }
      forall r ensures r in reasons <==> Blocks(State(), id, r) {
        HeaderOrLines(State(), id, r);
      }
      UnblockedMatches(State(), id);
      assert reasons == [] <==> forall r :: r !in reasons by {
        if reasons != [] { assert reasons[0] in reasons; }
      }
    }

    method EvaluateLine(bill: Bill, line: BillLine, received: map<nat, int>, billed: map<nat, int>,
        before: seq<MatchReason>)
      returns (reasons: seq<MatchReason>)
      requires bill.order in orders
      requires forall n: nat :: At(received, n) == ReceivedUnits(receipts, bill.order, n)
      requires forall n: nat :: At(billed, n) == BilledByOthers(State(), bill, n)
      ensures forall r :: r in reasons <==> r in before || LineBlocks(State(), bill, line, r)
    {
      reasons := before;
      var lines, n := orders[bill.order].lines, line.orderLine;
      if n >= |lines| { return reasons + [LineNotOnOrder(n)]; }
      if line.unitPrice != lines[n].unitCost { reasons := reasons + [PriceMismatch(n)]; }
      var cumulative := At(billed, n) + line.quantity;
      if cumulative > lines[n].quantity { reasons := reasons + [QuantityExceedsOrdered(n)]; }
      if cumulative > At(received, n) { reasons := reasons + [QuantityExceedsReceived(n)]; }
    }

    method BillBases(bill: Bill, poRate: int) returns (grniBase: int, netBillBase: int, vatBase: int)
      ensures grniBase == NetBase(bill.lines, poRate)
      ensures netBillBase == NetBase(bill.lines, bill.rate) && vatBase == TaxBase(bill.lines, bill.rate)
    {
      grniBase, netBillBase, vatBase := 0, 0, 0;
      for k := 0 to |bill.lines|
        invariant grniBase == NetBase(bill.lines[..k], poRate)
        invariant netBillBase == NetBase(bill.lines[..k], bill.rate) && vatBase == TaxBase(bill.lines[..k], bill.rate)
      {
        assert bill.lines[..k + 1][..k] == bill.lines[..k];
        var line := bill.lines[k];
        grniBase := grniBase + MulRate(line.net, poRate);
        netBillBase := netBillBase + MulRate(line.net, bill.rate);
        vatBase := vatBase + MulRate(line.tax, bill.rate);
      }
      assert bill.lines[..|bill.lines|] == bill.lines;
    }

    method PostSupplierBill(journal: Journal, id: nat, key: string, now: int) returns (r: Result<()>)
      modifies this`bills, journal
      ensures r.Ok? <==> PostBill(old(State()), old(journal.State()), id, key, now).Ok?
      ensures (State(), journal.State())
           == OrElse(PostBill(old(State()), old(journal.State()), id, key, now), (old(State()), old(journal.State())))
    {
      var existing := FindPosting(bills, key);
      if existing.Some? {
        if existing.value != id { return Err(Conflict); }
        return Ok(());
      }
      if id >= |bills| { return Err(NotFound); }
      var bill := bills[id];
      if bill.status != BillDraft { return Err(Conflict); }
      if bill.order !in orders { return Err(NotFound); }
      var po := orders[bill.order];
      var reasons := EvaluateMatch(id);
      if reasons != [] { return Err(Conflict); }
      var grniBase, netBillBase, vatBase := BillBases(bill, po.rate);
      r := journal.PostJournal(bill.billDate, SupplierBillSource, BillId(id),
          BillJournal(grniBase, netBillBase, vatBase));
      if r.Err? { return; }
      bills := bills[id := bill.(status := Posted, postingKey := Some(key), postedAt := now)];
    }
  }

  /** The blocks that are about the bill as a whole. */
  predicate HeaderBlocks(p: Purchases, id: nat, r: MatchReason)
    requires id < |p.bills| && p.bills[id].order in p.orders
  {
    r in {SupplierMismatch, CurrencyMismatch, DuplicateSupplierInvoice, NoReceiptEvidence} && Blocks(p, id, r)
  }

  predicate LinesBlock(p: Purchases, id: nat, n: nat, r: MatchReason)
    requires id < |p.bills| && p.bills[id].order in p.orders && n <= |p.bills[id].lines|
  {
    exists k: nat :: k < n && LineBlocks(p, p.bills[id], p.bills[id].lines[k], r)
  }

  lemma LinesBlockNext(p: Purchases, id: nat, n: nat, r: MatchReason)
    requires id < |p.bills| && p.bills[id].order in p.orders && n < |p.bills[id].lines|
    ensures LinesBlock(p, id, n + 1, r)
        <==> LinesBlock(p, id, n, r) || LineBlocks(p, p.bills[id], p.bills[id].lines[n], r)
  {
  }

  lemma HeaderOrLines(p: Purchases, id: nat, r: MatchReason)
    requires id < |p.bills| && p.bills[id].order in p.orders
    ensures Blocks(p, id, r) <==> HeaderBlocks(p, id, r) || LinesBlock(p, id, |p.bills[id].lines|, r)
  {
  }

  lemma {:induction false} TakeFailsOnward(s: Stock, receipt: nat, n: nat, order: Order, i: ReceiptInput)
    requires n <= |order.lines|
    ensures TakeLines(s, receipt, n, order, i).Err? ==> TakeLines(s, receipt, |order.lines|, order, i).Err?
    decreases |order.lines| - n
  {
    if n < |order.lines| {
      TakeFailsOnward(s, receipt, n + 1, order, i);
    }
  }
}
