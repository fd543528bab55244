/** The whole set of books as one state machine. A step is one database transaction;
    a refused transaction leaves the books as they were. */
module Books {
  import opened Wrappers
  import opened Accounting
  import opened Inventory
  import opened Invoicing
  import opened BankMatching
  import opened Procurement

  datatype Books = Books(ledger: Ledger, stock: Stock, register: Register, purchases: Purchases)

  datatype Operation =
    | OpenStock(key: Key, quantity: int, unitCost: int)
    | ImportStock(rows: seq<OpeningRow>, batch: nat)
    | AdjustStock(key: Key, delta: int, note: string, idem: IdempotencyKey)
    | DraftInvoice(id: nat, currency: Currency, rate: int, lines: seq<DraftLine>)
    | IssueInvoice(id: nat)
    | RecordPayment(payment: PaymentInput)
    | AddBankLine(bankLine: nat, line: BankLine)
    | MatchBankLine(bankLine: nat, invoice: nat)
    | SplitBankLine(bankLine: nat, allocations: seq<Allocation>)
    | CancelInvoice(id: nat, reason: string)
    | ApproveOrder(order: nat, vendor: nat, currency: Currency, rate: int, orderLines: seq<OrderLine>)
    | ReceiveGoods(receipt: ReceiptInput)
    | DraftBill(bill: nat, order: nat, number: nat, billDate: int, rate: int, inputs: seq<BillInput>)
    | PostSupplierBill(bill: nat, key': string)
    | CloseMonth(month: int)
    | ReopenMonth(month: int)
    | PostOther(entry: Entry)

  /** Postings of the rest of the system: anything but the three control accounts and the
      sources modelled here. */
  predicate IsOther(e: Entry) {
    && (e.sourceId.OtherId? || e.sourceId.PayrollRunId?)
    && e.sourceType in {PayrollSource, PayrollReversalSource, OtherSource}
    && forall line <- e.lines :: line.account !in {Account.Inventory, Receivable, Grni}
  }

  function ImportBankLine(g: Register, id: nat, line: BankLine): Result<Register> {
    var _ :- Require(id !in g.bankLines && !line.matched, Conflict);
    Ok(g.(bankLines := g.bankLines[id := line]))
  }

  function Step(b: Books, op: Operation, now: int): Result<Books> {
    match op
    case OpenStock(key, quantity, unitCost) =>
      var r :- RecordOpening(StockBooks(b.stock, b.ledger), key, quantity, unitCost, now);
      Ok(b.(stock := r.stock, ledger := r.ledger))
    case ImportStock(rows, batch) =>
      var r :- ImportOpening(StockBooks(b.stock, b.ledger), rows, batch, now);
      Ok(b.(stock := r.stock, ledger := r.ledger))
    case AdjustStock(key, delta, note, idem) =>
      var r :- Adjust(StockBooks(b.stock, b.ledger), key, delta, note, idem, now);
      Ok(b.(stock := r.stock, ledger := r.ledger))
    case DraftInvoice(id, currency, rate, lines) =>
      var r :- SaveDraft(b.register, b.stock, id, currency, rate, lines);
      Ok(b.(register := r))
    case IssueInvoice(id) =>
      var r :- Issue(SalesBooks(b.register, b.stock, b.ledger), id, now);
      Ok(b.(register := r.register, stock := r.stock, ledger := r.ledger))
    case RecordPayment(payment) =>
      var r :- Pay(b.register, b.ledger, payment, now);
      Ok(b.(register := r.0, ledger := r.1))
    case AddBankLine(id, line) =>
      var r :- ImportBankLine(b.register, id, line);
      Ok(b.(register := r))
    case MatchBankLine(bankLine, invoice) =>
      var r :- Match(b.register, b.ledger, bankLine, invoice);
      Ok(b.(register := r.0, ledger := r.1))
    case SplitBankLine(bankLine, allocations) =>
      var r :- SplitMatch(b.register, b.ledger, bankLine, allocations);
      Ok(b.(register := r.0, ledger := r.1))
    case CancelInvoice(id, reason) =>
      var r :- VoidInvoice(SalesBooks(b.register, b.stock, b.ledger), id, reason, now);
      Ok(b.(register := r.register, stock := r.stock, ledger := r.ledger))
    case ApproveOrder(order, vendor, currency, rate, lines) =>
      var r :- PlaceOrder(b.purchases, order, vendor, currency, rate, lines);
      Ok(b.(purchases := r))
    case ReceiveGoods(receipt) =>
      var r :- Receive(ProcurementBooks(b.purchases, b.stock, b.ledger), receipt, now);
      Ok(Books(r.ledger, r.stock, b.register, r.purchases))
    case DraftBill(bill, order, number, billDate, rate, inputs) =>
      var r :- SaveBill(b.purchases, bill, order, number, billDate, rate, inputs);
      Ok(b.(purchases := r))
    case PostSupplierBill(bill, key) =>
      var r :- PostBill(b.purchases, b.ledger, bill, key, now);
      Ok(b.(purchases := r.0, ledger := r.1))
    case CloseMonth(month) =>
      var r :- Close(b.ledger, month, now);
      Ok(b.(ledger := r))
    case ReopenMonth(month) =>
      var r :- Reopen(b.ledger, month);
      Ok(b.(ledger := r))
    case PostOther(entry) =>
      var _ :- Require(IsOther(entry), BadRequest);
      var r :- Post(b.ledger, entry);
      Ok(b.(ledger := r))
  }

  /** Empty books over a chart of accounts and a catalogue. */
  function Opened(chart: seq<Account>, inactive: set<Account>, products: map<nat, Product>, warehouses: set<nat>,
                  defaultWarehouse: Option<nat>): Books {
    Books(Ledger(chart, inactive, map[], []),
          Stock(products, warehouses, map[], map[], [], map[]),
          Register(defaultWarehouse, map[], [], map[]),
          Purchases(map[], [], []))
  }

  datatype Timed = Timed(op: Operation, now: int)

  /** Any sequence of attempted transactions, each with the time it ran at. */
  function Run(b: Books, ops: seq<Timed>): Books {
    if ops == [] then b
    else
      var before := Run(b, ops[..|ops| - 1]);
      OrElse(Step(before, ops[|ops| - 1].op, ops[|ops| - 1].now), before)
  }

  /** Some run, of any operations in any order, accepted or refused, leads from b to c. */
  ghost predicate Leads(b: Books, c: Books) {
    exists ops :: c == Run(b, ops)
  }

  predicate IsOpened(b: Books) {
    b == Opened(b.ledger.chart, b.ledger.inactive, b.stock.products, b.stock.warehouses, b.register.defaultWarehouse)
  }

  /** What some run leads to from empty books. */
  ghost predicate Reachable(b: Books) {
    exists start: Books :: IsOpened(start) && Leads(start, b)
  }

  /** One more attempt, accepted or not, leads to a reachable state. */
  lemma ReachesOn(b: Books, op: Operation, now: int)
    requires Reachable(b)
    ensures Reachable(OrElse(Step(b, op, now), b))
  {
    var start: Books :| IsOpened(start) && Leads(start, b);
    var ops :| b == Run(start, ops);
    var more := ops + [Timed(op, now)];
    assert more[..|more| - 1] == ops;
    assert Leads(start, Run(start, more));
  }

  lemma OpenedIsReachable(b: Books)
    requires IsOpened(b)
    ensures Reachable(b)
  {
    assert Run(b, []) == b;
    assert Leads(b, b);
  }
}
