/** Customer invoices: draft, issue with cost of goods, payment and void. */
module Invoicing {
  import opened Wrappers
  import opened Money
  import opened Accounting
  import opened Inventory
  import Text

  datatype Currency = Usd | Zwg

  datatype InvoiceStatus = Draft | Issued | Partial | Paid | Void

  datatype DraftLine = DraftLine(
    product: Option<nat>,
    warehouse: Option<nat>,
    quantity: int,
    unitPrice: int,
    taxRate: int)

  datatype Invoice = Invoice(
    status: InvoiceStatus,
    currency: Currency,
    rate: int,
    lines: seq<DraftLine>,
    subtotal: int,
    taxTotal: int,
    amountPaid: int)
  {
    function Total(): int { subtotal + taxTotal }
  }

  datatype PaymentKind = Direct | Matched(bankLine: nat) | Split(bankLine: nat)

  datatype PaymentKey =
    | UserPayment(text: string)
    | MatchKey(bankLine: nat, invoice: nat)
    | SplitKey(bankLine: nat, invoice: nat)

  datatype PaymentPrint =
    | PaymentOf(invoice: nat, amount: int, bank: Option<nat>, date: Option<int>, reference: string)
    | MatchOf(bankLine: nat, invoice: nat, amount: int)
    | SplitOf(bankLine: nat, invoice: nat, amount: int)

  datatype Payment = Payment(
    invoice: nat,
    amount: int,
    date: int,
    kind: PaymentKind,
    key: PaymentKey,
    fingerprint: PaymentPrint)

  datatype BankLine = BankLine(bank: nat, amount: int, currency: Currency, date: int, matched: bool)

  datatype Register = Register(
    defaultWarehouse: Option<nat>,
    invoices: map<nat, Invoice>,
    payments: seq<Payment>,
    bankLines: map<nat, BankLine>)

  datatype SalesBooks = SalesBooks(register: Register, stock: Stock, ledger: Ledger)

  // ----- Drafting -----

  function LineNet(line: DraftLine): int { MulQuantity(line.unitPrice, line.quantity) }

  function LineTax(line: DraftLine): int { MulRate(LineNet(line), line.taxRate) }

  function Subtotal(lines: seq<DraftLine>): int {
    if lines == [] then 0 else Subtotal(lines[..|lines| - 1]) + LineNet(lines[|lines| - 1])
  }

  function TaxTotal(lines: seq<DraftLine>): int {
    if lines == [] then 0 else TaxTotal(lines[..|lines| - 1]) + LineTax(lines[|lines| - 1])
  }

  predicate ReferencesExist(s: Stock, lines: seq<DraftLine>) {
    forall line <- lines ::
      && (line.product.Some? ==> line.product.value in s.products)
      && (line.warehouse.Some? ==> line.warehouse.value in s.warehouses)
  }

  /** Creates a draft, or replaces the content of one that is still a draft. */
  function SaveDraft(g: Register, s: Stock, id: nat, currency: Currency, rate: int,
      lines: seq<DraftLine>): Result<Register> {
    var _ :- Require(lines != [], BadRequest);
    var _ :- Require(id in g.invoices ==> g.invoices[id].status == Draft, Conflict);
    var _ :- Require(ReferencesExist(s, lines), NotFound);
    var _ :- Require(forall line <- lines :: 0 < line.quantity, BadRequest);
    Ok(g.(invoices := g.invoices[id := Invoice(Draft, currency, rate, lines, Subtotal(lines), TaxTotal(lines), 0)]))
  }

  // ----- Issuing -----

  /** Revenue in base currency: subtotal and tax are converted and rounded separately. */
  function RevenueLines(inv: Invoice): seq<Line> {
    var subtotalBase, taxBase := MulRate(inv.subtotal, inv.rate), MulRate(inv.taxTotal, inv.rate);
    [Debit(Receivable, subtotalBase + taxBase), Credit(Sales, subtotalBase)]
    + if taxBase > 0 then [Credit(VatOutput, taxBase)] else []
  }

  datatype StockLine = StockLine(line: nat, key: Key, quantity: int)

  /** The tracked lines of an invoice, each with the warehouse it is issued from. */
  function StockLines(s: Stock, defaultWarehouse: Option<nat>, lines: seq<DraftLine>): Result<seq<StockLine>> {
    if lines == [] then Ok([])
    else
      var n := |lines| - 1;
      var before :- StockLines(s, defaultWarehouse, lines[..n]);
      var line := lines[n];
      if line.product.None? || line.product.value !in s.products || !s.products[line.product.value].trackStock
          then Ok(before)
      else
        var warehouse := if line.warehouse.Some? then line.warehouse else defaultWarehouse;
        var _ :- Require(warehouse.Some?, BadRequest);
        Ok(before + [StockLine(n, Key(line.product.value, warehouse.value), line.quantity)])
  }

  /** The order in which stock is locked; a line's position stands for the rank of its id. */
  predicate LocksBefore(a: StockLine, b: StockLine) {
    || a.key.product < b.key.product
    || (a.key.product == b.key.product && a.key.warehouse < b.key.warehouse)
    || (a.key == b.key && a.line < b.line)
  }

  function InsertLine(lines: seq<StockLine>, l: StockLine): seq<StockLine> {
    if lines == [] then [l]
    else
      var n := |lines| - 1;
      if LocksBefore(l, lines[n]) then InsertLine(lines[..n], l) + [lines[n]] else lines + [l]
  }

  /** The stock lines by product, warehouse and line. */
  function LockOrder(lines: seq<StockLine>): seq<StockLine> {
    if lines == [] then [] else InsertLine(LockOrder(lines[..|lines| - 1]), lines[|lines| - 1])
  }

  predicate InLockOrder(lines: seq<StockLine>) {
    forall i, j :: 0 <= i < j < |lines| ==> !LocksBefore(lines[j], lines[i])
  }

  lemma {:induction false} InsertedLine(lines: seq<StockLine>, l: StockLine)
    ensures multiset(InsertLine(lines, l)) == multiset(lines) + multiset{l}
  {
    if lines != [] && LocksBefore(l, lines[|lines| - 1]) {
      InsertedLine(lines[..|lines| - 1], l);
      assert lines == lines[..|lines| - 1] + [lines[|lines| - 1]];
    }
  }

  lemma {:induction false} InsertedInOrder(lines: seq<StockLine>, l: StockLine)
    requires InLockOrder(lines)
    ensures InLockOrder(InsertLine(lines, l))
  {
    if lines != [] && LocksBefore(l, lines[|lines| - 1]) {
      var front, last := lines[..|lines| - 1], lines[|lines| - 1];
      InsertedInOrder(front, l);
      InsertedLine(front, l);
      var t := InsertLine(front, l);
      forall i | 0 <= i < |t| ensures !LocksBefore(last, t[i]) {
        assert t[i] in multiset(t);
        assert t[i] in front || t[i] == l;
      }
    }
  }

  /** The locking order is a sorted arrangement of the same lines. */
  lemma {:induction false} LockOrderSorts(lines: seq<StockLine>)
    ensures multiset(LockOrder(lines)) == multiset(lines) && InLockOrder(LockOrder(lines))
  {
    if lines != [] {
      var front, last := lines[..|lines| - 1], lines[|lines| - 1];
      LockOrderSorts(front);
      InsertedInOrder(LockOrder(front), last);
      assert multiset(lines) == multiset(front) + multiset{last} by { assert lines == front + [last]; }
      assert multiset(LockOrder(lines)) == multiset(LockOrder(front)) + multiset{last} by {
        InsertedLine(LockOrder(front), last);
      }
    }
  }

  function IssueRequest(invoice: nat, l: StockLine): Request {
    Request(Movement(l.key, -l.quantity, None, Sale, InvoiceSource, InvoiceId(invoice),
                     Some(IssueKey(invoice, l.line)), Some(IssueOf(invoice, l.line, l.key, l.quantity))),
            None, false, false)
  }

  function IssueLine(s: Stock, cogs: int, invoice: nat, line: StockLine): Result<(Stock, int)> {
    var moved :- Record(s, IssueRequest(invoice, line));
    Ok((moved.stock, cogs + moved.valued.cost))
  }

  /** Issues every stock line and adds up the cost of goods. */
  function IssueLines(s: Stock, invoice: nat, lines: seq<StockLine>): Result<(Stock, int)> {
    if lines == [] then Ok((s, 0))
    else
      var (before, cogs) :- IssueLines(s, invoice, lines[..|lines| - 1]);
      IssueLine(before, cogs, invoice, lines[|lines| - 1])
  }

  function PostCostOfGoods(l: Ledger, invoice: nat, cogs: int, now: int): Result<Ledger> {
    if cogs <= 0 then Ok(l)
    else Post(l, Entry(now, InvoiceSource, InvoiceId(invoice),
        [Debit(CostOfGoods, cogs), Credit(Account.Inventory, cogs)]))
  }

  function WithStatus(g: Register, id: nat, status: InvoiceStatus): Register
    requires id in g.invoices
  {
    g.(invoices := g.invoices[id := g.invoices[id].(status := status)])
  }

  function Issue(b: SalesBooks, id: nat, now: int): Result<SalesBooks> {
    var _ :- Require(id in b.register.invoices, NotFound);
    var inv := b.register.invoices[id];
    var _ :- Require(inv.status == Draft, Conflict);
    var _ :- Require(inv.lines != [], BadRequest);
    var revenue :- Post(b.ledger, Entry(now, InvoiceSource, InvoiceId(id), RevenueLines(inv)));
    var lines :- StockLines(b.stock, b.register.defaultWarehouse, inv.lines);
    var (stock, cogs) :- IssueLines(b.stock, id, LockOrder(lines));
    var ledger :- PostCostOfGoods(revenue, id, cogs, now);
    Ok(SalesBooks(WithStatus(b.register, id, Issued), stock, ledger))
  }

  // ----- Payment -----

  function FindPayment(payments: seq<Payment>, key: PaymentKey): (r: Option<nat>)
    ensures r.Some? ==> r.value < |payments| && payments[r.value].key == key
    ensures r.None? ==> forall p <- payments :: p.key != key
  {
    if payments == [] then None
    else if payments[|payments| - 1].key == key then Some(|payments| - 1)
    else FindPayment(payments[..|payments| - 1], key)
  }

  function CheckPayable(g: Register, invoice: nat, amount: int): Result<Invoice> {
    var _ :- Require(invoice in g.invoices, NotFound);
    var inv := g.invoices[invoice];
    var _ :- Require(inv.status == Issued || inv.status == Partial, Conflict);
    var _ :- Require(0 < amount, BadRequest);
    var _ :- Require(amount <= inv.Total() - inv.amountPaid, Conflict);
    Ok(inv)
  }

  /** The register after a payment that has passed every check. */
  function WithPayment(g: Register, p: Payment): Register
    requires p.invoice in g.invoices
  {
    var inv := g.invoices[p.invoice];
    var paid := inv.amountPaid + p.amount;
    g.(payments := g.payments + [p],
       invoices := g.invoices[p.invoice :=
           inv.(amountPaid := paid, status := if paid >= inv.Total() then Paid else Partial)])
  }

  function ReceiptLines(bank: nat, inv: Invoice, amount: int): seq<Line> {
    [Debit(Bank(bank), MulRate(amount, inv.rate)), Credit(Receivable, MulRate(amount, inv.rate))]
  }

  /** Account number of the bank ledger used when no bank account is named. */
  const DEFAULT_BANK := 0

  datatype PaymentInput = PaymentInput(
    invoice: nat, amount: int, bank: Option<nat>, date: Option<int>, reference: string, key: PaymentKey)

  function PrintOf(i: PaymentInput): PaymentPrint {
    PaymentOf(i.invoice, i.amount, i.bank, i.date, i.reference)
  }

  function Pay(g: Register, l: Ledger, i: PaymentInput, now: int): Result<(Register, Ledger)> {
    var existing := FindPayment(g.payments, i.key);
    if existing.Some? then
      var _ :- Require(g.payments[existing.value].fingerprint == PrintOf(i), Conflict);
      Ok((g, l))
    else
      var inv :- CheckPayable(g, i.invoice, i.amount);
      var date := if i.date.Some? then i.date.value else now;
      var bank := if i.bank.Some? then i.bank.value else DEFAULT_BANK;
      var ledger :- Post(l, Entry(date, PaymentSource, InvoiceId(i.invoice), ReceiptLines(bank, inv, i.amount)));
      Ok((WithPayment(g, Payment(i.invoice, i.amount, date, Direct, i.key, PrintOf(i))), ledger))
  }

  // ----- Void -----

  function Reversed(lines: seq<Line>): seq<Line> {
    seq(|lines|, i requires 0 <= i < |lines| => Line(lines[i].account, lines[i].credit, lines[i].debit))
  }

  function ReversalOf(e: Entry, invoice: nat, now: int): Entry {
    Entry(now, InvoiceVoidSource, InvoiceId(invoice), Reversed(e.lines))
  }

  predicate IsIssueEntry(e: Entry, invoice: nat) {
    e.sourceType == InvoiceSource && e.sourceId == InvoiceId(invoice)
  }

  /** Posts a reversal of each of the invoice's own entries, in order. */
  function PostReversals(l: Ledger, entries: seq<Entry>, invoice: nat, now: int): Result<Ledger> {
    if entries == [] then Ok(l)
    else
      var before :- PostReversals(l, entries[..|entries| - 1], invoice, now);
      if IsIssueEntry(entries[|entries| - 1], invoice)
      then Post(before, ReversalOf(entries[|entries| - 1], invoice, now))
      else Ok(before)
  }

  predicate IsIssueMove(m: Movement, invoice: nat) {
    m.sourceType == InvoiceSource && m.sourceId == InvoiceId(invoice)
  }

  function ReturnRequest(invoice: nat, id: nat, m: Movement, cost: int): Request {
    Request(Movement(m.key, -m.delta, m.unitCost, Adjustment, InvoiceVoidSource, InvoiceId(invoice),
                     Some(ReturnKey(invoice, id)), Some(ReturnOf(invoice, id, -m.delta, cost))),
            Some(cost), false, false)
  }

  /** Puts back what the invoice took, at the cost its evidence records. */
  function ReturnMoves(s: Stock, moves: seq<Movement>, invoice: nat): Result<Stock> {
    if moves == [] then Ok(s)
    else
      var id := |moves| - 1;
      var before :- ReturnMoves(s, moves[..id], invoice);
      if IsIssueMove(moves[id], invoice) then
        var _ :- Require(id in before.evidence, Conflict);
        var moved :- Record(before, ReturnRequest(invoice, id, moves[id], before.evidence[id].movementCost));
        Ok(moved.stock)
      else Ok(before)
  }

  function VoidInvoice(b: SalesBooks, id: nat, reason: string, now: int): Result<SalesBooks> {
    var _ :- Require(id in b.register.invoices, NotFound);
    var inv := b.register.invoices[id];
    var _ :- Require(inv.status != Void, Conflict);
    var _ :- Require(inv.amountPaid <= 0, Conflict);
    var _ :- Require(!Text.IsBlank(reason), BadRequest);
    if inv.status == Draft then Ok(b.(register := WithStatus(b.register, id, Void)))
    else
      var ledger :- PostReversals(b.ledger, b.ledger.entries, id, now);
      var stock :- ReturnMoves(b.stock, b.stock.movements, id);
      Ok(SalesBooks(WithStatus(b.register, id, Void), stock, ledger))
  }

  // ----- The same, as the tables are written -----

  /** Adds up the lines, refusing a quantity that is not positive. */
  method ComputeTotals(lines: seq<DraftLine>) returns (r: Result<(int, int)>)
    ensures r.Ok? <==> forall line <- lines :: 0 < line.quantity
    ensures r.Ok? ==> r.value == (Subtotal(lines), TaxTotal(lines))
  {
    var subtotal, taxTotal := 0, 0;
    for i := 0 to |lines|
      invariant subtotal == Subtotal(lines[..i]) && taxTotal == TaxTotal(lines[..i])
      invariant forall k :: 0 <= k < i ==> 0 < lines[k].quantity
    {
      assert lines[..i + 1][..i] == lines[..i];
      var line := lines[i];
      if line.quantity <= 0 {
        assert line in lines;
        return Err(BadRequest);
      }
      var lineNet := MulQuantity(line.unitPrice, line.quantity);
      var lineTax := MulRate(lineNet, line.taxRate);
      subtotal, taxTotal := subtotal + lineNet, taxTotal + lineTax;
    }
    assert lines[..|lines|] == lines;
    return Ok((subtotal, taxTotal));
  }

  class SalesBook {
    var defaultWarehouse: Option<nat>
    var invoices: map<nat, Invoice>
    var payments: seq<Payment>
    var bankLines: map<nat, BankLine>

    function State(): Register
      reads this
    {
      Register(defaultWarehouse, invoices, payments, bankLines)
    }

    constructor (defaultWarehouse: Option<nat>)
      ensures State() == Register(defaultWarehouse, map[], [], map[])
    {
      this.defaultWarehouse := defaultWarehouse;
      invoices, payments, bankLines := map[], [], map[];
    }

    method Rollback(saved: Register)
      modifies this
      ensures State() == saved
    {
      defaultWarehouse, invoices, payments, bankLines :=
        saved.defaultWarehouse, saved.invoices, saved.payments, saved.bankLines;
    }

    method SaveDraftInvoice(stock: StockLedger, id: nat, currency: Currency, rate: int, lines: seq<DraftLine>)
      returns (r: Result<()>)
      modifies this`invoices
      ensures r.Ok? <==> SaveDraft(old(State()), stock.State(), id, currency, rate, lines).Ok?
      ensures State() == OrElse(SaveDraft(old(State()), stock.State(), id, currency, rate, lines), old(State()))
    {
      if lines == [] { return Err(BadRequest); }
      if id in invoices && invoices[id].status != Draft { return Err(Conflict); }
      if !ReferencesExist(stock.State(), lines) { return Err(NotFound); }
      var totals := ComputeTotals(lines);
      if totals.Err? { return Err(totals.error); }
      invoices := invoices[id := Invoice(Draft, currency, rate, lines, totals.value.0, totals.value.1, 0)];
      return Ok(());
    }

    method CollectStockLines(stock: StockLedger, lines: seq<DraftLine>) returns (r: Result<seq<StockLine>>)
      ensures r.Ok? <==> StockLines(stock.State(), defaultWarehouse, lines).Ok?
      ensures r.Ok? ==> StockLines(stock.State(), defaultWarehouse, lines) == r
    {
      var found: seq<StockLine> := [];
      for i := 0 to |lines|
        invariant StockLines(stock.State(), defaultWarehouse, lines[..i]) == Ok(found)
      {
        assert lines[..i + 1][..i] == lines[..i];
        CollectFailsOnward(stock.State(), defaultWarehouse, lines, i + 1);
        var line := lines[i];
        if line.product.Some? && line.product.value in stock.products && stock.products[line.product.value].trackStock {
          var warehouse := line.warehouse;
          if warehouse.None? { warehouse := defaultWarehouse; }
          if warehouse.None? { return Err(BadRequest); }
          found := found + [StockLine(i, Key(line.product.value, warehouse.value), line.quantity)];
        }
      }
      assert lines[..|lines|] == lines;
      return Ok(found);
    }

    method IssueStockLine(stock: StockLedger, id: nat, line: StockLine, cogs: int) returns (r: Result<int>)
      modifies stock
      ensures r.Ok? <==> IssueLine(old(stock.State()), cogs, id, line).Ok?
      ensures r.Ok? ==> IssueLine(old(stock.State()), cogs, id, line) == Ok((stock.State(), r.value))
    {
      var moved := stock.RecordStockMovement(IssueRequest(id, line));
      if moved.Err? { return Err(moved.error); }
      return Ok(cogs + moved.value.cost);
    }

    /** Takes every stock line out of stock and adds up what it cost. */
    method IssueStockLines(stock: StockLedger, id: nat, lines: seq<StockLine>) returns (r: Result<int>)
      modifies stock
      ensures r.Ok? <==> IssueLines(old(stock.State()), id, lines).Ok?
      ensures r.Ok? ==> IssueLines(old(stock.State()), id, lines).value == (stock.State(), r.value)
    {
      ghost var before := stock.State();
      var cogs := 0;
      for i := 0 to |lines|
        invariant IssueLines(before, id, lines[..i]) == Ok((stock.State(), cogs))
      {
        assert lines[..i + 1][..i] == lines[..i];
        IssueFailsOnward(before, id, lines, i + 1);
        var more := IssueStockLine(stock, id, lines[i], cogs);
        if more.Err? { return Err(more.error); }
        cogs := more.value;
      }
      assert lines[..|lines|] == lines;
      return Ok(cogs);
    }

    /** Revenue entry, stock and cost of goods, then the status: all of it or nothing. */
    method IssueInvoice(stock: StockLedger, journal: Journal, id: nat, now: int) returns (r: Result<()>)
      modifies this`invoices, stock, journal
      ensures r.Ok? <==> Issue(old(SalesBooks(State(), stock.State(), journal.State())), id, now).Ok?
      ensures SalesBooks(State(), stock.State(), journal.State())
           == OrElse(Issue(old(SalesBooks(State(), stock.State(), journal.State())), id, now),
                     old(SalesBooks(State(), stock.State(), journal.State())))
    {
      if id !in invoices { return Err(NotFound); }
      var inv := invoices[id];
      if inv.status != Draft { return Err(Conflict); }
      if inv.lines == [] { return Err(BadRequest); }
      var savedStock, savedJournal := stock.State(), journal.State();
      r := journal.PostJournal(now, InvoiceSource, InvoiceId(id), RevenueLines(inv));
      if r.Err? { return; }
      var lines := CollectStockLines(stock, inv.lines);
      if lines.Err? {
        journal.Rollback(savedJournal);
        return Err(lines.error);
      }
      var cogs := IssueStockLines(stock, id, LockOrder(lines.value));
      if cogs.Err? {
        stock.Rollback(savedStock);
        journal.Rollback(savedJournal);
        return Err(cogs.error);
      }
      if cogs.value > 0 {
        r := journal.PostJournal(now, InvoiceSource, InvoiceId(id),
                                 [Debit(CostOfGoods, cogs.value), Credit(Account.Inventory, cogs.value)]);
        if r.Err? {
          stock.Rollback(savedStock);
          journal.Rollback(savedJournal);
          return;
        }
      }
      invoices := invoices[id := inv.(status := Issued)];
      return Ok(());
    }

    /** The effect of an accepted payment on the payment and invoice tables. */
    method AddPayment(p: Payment)
      requires p.invoice in invoices
      modifies this`payments, this`invoices
      ensures State() == WithPayment(old(State()), p)
    {
      var inv := invoices[p.invoice];
      payments := payments + [p];
      var newPaid := inv.amountPaid + p.amount;
      var newStatus := if newPaid >= inv.Total() then Paid else Partial;
      invoices := invoices[p.invoice := inv.(amountPaid := newPaid, status := newStatus)];
    }

    method PayInvoice(journal: Journal, i: PaymentInput, now: int) returns (r: Result<()>)
      modifies this`payments, this`invoices, journal
      ensures r.Ok? <==> Pay(old(State()), old(journal.State()), i, now).Ok?
      ensures (State(), journal.State())
           == OrElse(Pay(old(State()), old(journal.State()), i, now), (old(State()), old(journal.State())))
    {
      var existing := FindPayment(payments, i.key);
      if existing.Some? {
        if payments[existing.value].fingerprint != PrintOf(i) { return Err(Conflict); }
        return Ok(());
      }
      if i.invoice !in invoices { return Err(NotFound); }
      var inv := invoices[i.invoice];
      if inv.status != Issued && inv.status != Partial { return Err(Conflict); }
      if i.amount <= 0 { return Err(BadRequest); }
      var outstanding := inv.Total() - inv.amountPaid;
      if i.amount > outstanding { return Err(Conflict); }
      var date, bank := now, DEFAULT_BANK;
      if i.date.Some? { date := i.date.value; }
      if i.bank.Some? { bank := i.bank.value; }
      var baseAmount := MulRate(i.amount, inv.rate);
      r := journal.PostJournal(date, PaymentSource, InvoiceId(i.invoice),
                               [Debit(Bank(bank), baseAmount), Credit(Receivable, baseAmount)]);
      if r.Err? { return; }
      AddPayment(Payment(i.invoice, i.amount, date, Direct, i.key, PrintOf(i)));
    }

    /** One reversing entry for each entry the invoice posted. */
    method ReverseEntries(journal: Journal, id: nat, now: int) returns (r: Result<()>)
      modifies journal
      ensures r.Ok? <==> PostReversals(old(journal.State()), old(journal.entries), id, now).Ok?
      ensures r.Ok? ==> PostReversals(old(journal.State()), old(journal.entries), id, now) == Ok(journal.State())
    {
      ghost var before := journal.State();
      var entries := journal.entries;
      for i := 0 to |entries|
        invariant PostReversals(before, entries[..i], id, now) == Ok(journal.State())
      {
        assert entries[..i + 1][..i] == entries[..i];
        ReversalFailsOnward(before, entries, id, now, i + 1);
        if entries[i].sourceType == InvoiceSource && entries[i].sourceId == InvoiceId(id) {
          var posted := journal.PostJournal(now, InvoiceVoidSource, InvoiceId(id), Reversed(entries[i].lines));
          if posted.Err? { return posted; }
        }
      }
      assert entries[..|entries|] == entries;
      return Ok(());
    }

    /** One offsetting movement for each movement the invoice made, at its recorded cost. */
    method ReturnStock(stock: StockLedger, id: nat) returns (r: Result<()>)
      modifies stock
      ensures r.Ok? <==> ReturnMoves(old(stock.State()), old(stock.movements), id).Ok?
      ensures r.Ok? ==> ReturnMoves(old(stock.State()), old(stock.movements), id) == Ok(stock.State())
    {
      ghost var before := stock.State();
      var moves := stock.movements;
      for i := 0 to |moves|
        invariant ReturnMoves(before, moves[..i], id) == Ok(stock.State())
      {
        assert moves[..i + 1][..i] == moves[..i];
        ReturnFailsOnward(before, moves, id, i + 1);
        if moves[i].sourceType == InvoiceSource && moves[i].sourceId == InvoiceId(id) {
          if i !in stock.evidence { return Err(Conflict); }
          var moved := stock.RecordStockMovement(ReturnRequest(id, i, moves[i], stock.evidence[i].movementCost));
          if moved.Err? { return Err(moved.error); }
        }
      }
      assert moves[..|moves|] == moves;
      return Ok(());
    }

    method CancelInvoice(stock: StockLedger, journal: Journal, id: nat, reason: string, now: int)
      returns (r: Result<()>)
      modifies this`invoices, stock, journal
      ensures r.Ok? <==> VoidInvoice(old(SalesBooks(State(), stock.State(), journal.State())), id, reason, now).Ok?
      ensures SalesBooks(State(), stock.State(), journal.State())
           == OrElse(VoidInvoice(old(SalesBooks(State(), stock.State(), journal.State())), id, reason, now),
                     old(SalesBooks(State(), stock.State(), journal.State())))
    {
      if id !in invoices { return Err(NotFound); }
      var inv := invoices[id];
      if inv.status == Void { return Err(Conflict); }
      if inv.amountPaid > 0 { return Err(Conflict); }
      if Text.IsBlank(reason) { return Err(BadRequest); }
      if inv.status != Draft {
        var savedStock, savedJournal := stock.State(), journal.State();
        r := ReverseEntries(journal, id, now);
        if r.Err? {
          journal.Rollback(savedJournal);
          return;
        }
        r := ReturnStock(stock, id);
        if r.Err? {
          stock.Rollback(savedStock);
          journal.Rollback(savedJournal);
          return;
        }
      }
      invoices := invoices[id := inv.(status := Void)];
      return Ok(());
    }
  }

  lemma {:induction false} CollectFailsOnward(s: Stock, w: Option<nat>, lines: seq<DraftLine>, n: nat)
    requires n <= |lines|
    ensures StockLines(s, w, lines[..n]).Err? ==> StockLines(s, w, lines).Err?
    decreases |lines| - n
  {
    if n < |lines| {
      assert lines[..n + 1][..n] == lines[..n];
      CollectFailsOnward(s, w, lines, n + 1);
    } else {
      assert lines[..n] == lines;
    }
  }

  lemma {:induction false} IssueFailsOnward(s: Stock, id: nat, lines: seq<StockLine>, n: nat)
    requires n <= |lines|
    ensures IssueLines(s, id, lines[..n]).Err? ==> IssueLines(s, id, lines).Err?
    decreases |lines| - n
  {
    if n < |lines| {
      var more := lines[..n + 1];
      assert more[..|more| - 1] == lines[..n];
      assert IssueLines(s, id, lines[..n]).Err? ==> IssueLines(s, id, more).Err?;
      IssueFailsOnward(s, id, lines, n + 1);
    } else {
      assert lines[..n] == lines;
    }
  }

  lemma {:induction false} ReversalFailsOnward(l: Ledger, entries: seq<Entry>, id: nat, now: int, n: nat)
    requires n <= |entries|
    ensures PostReversals(l, entries[..n], id, now).Err? ==> PostReversals(l, entries, id, now).Err?
    decreases |entries| - n
  {
    if n < |entries| {
      assert entries[..n + 1][..n] == entries[..n];
      ReversalFailsOnward(l, entries, id, now, n + 1);
    } else {
      assert entries[..n] == entries;
    }
  }

  lemma {:induction false} ReturnFailsOnward(s: Stock, moves: seq<Movement>, id: nat, n: nat)
    requires n <= |moves|
    ensures ReturnMoves(s, moves[..n], id).Err? ==> ReturnMoves(s, moves, id).Err?
    decreases |moves| - n
  {
    if n < |moves| {
      assert moves[..n + 1][..n] == moves[..n];
      ReturnFailsOnward(s, moves, id, n + 1);
    } else {
      assert moves[..n] == moves;
    }
  }
}
