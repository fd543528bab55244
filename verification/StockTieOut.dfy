/** The Inventory control account equals the valued stock after every run.

    Took describes what a stretch of new movements did to the stock: the change in the total cost of
    the layers, and the part of it that issues of one invoice took. Every operation is shown to post
    exactly that change to the Inventory account, receipts and corrections in their direction, an
    issue as cost of goods, a void by returning at recorded cost what the issue took. Ties also
    keeps where movements come from, so that idempotency keys of new movements are unspent. */
module StockTieOut {
  import opened Wrappers
  import opened Money
  import opened Accounting
  import opened Inventory
  import opened Invoicing
  import opened BankMatching
  import opened Procurement
  import opened Books
  import opened Valuation
  import opened InvoiceEntries

  // ----- What an invoice took out of stock -----

  /** Cost that the evidence records for the issues of one invoice. */
  function IssueMoveCost(ms: seq<Movement>, ev: map<nat, Evidence>, id: nat): int
    requires forall i :: 0 <= i < |ms| ==> i in ev
  {
    if ms == [] then 0
    else
      var n := |ms| - 1;
      IssueMoveCost(ms[..n], ev, id) + if IsIssueMove(ms[n], id) then ev[n].movementCost else 0
  }

  lemma {:induction false} IssueMoveCostFrame(ms: seq<Movement>, a: map<nat, Evidence>, b: map<nat, Evidence>, id: nat)
    requires Agree(|ms|, a, b)
    ensures IssueMoveCost(ms, a, id) == IssueMoveCost(ms, b, id)
  {
    if ms != [] {
      IssueMoveCostFrame(ms[..|ms| - 1], a, b, id);
    }
  }

  ghost predicate Complete(s: Stock) {
    forall i :: 0 <= i < |s.movements| ==> i in s.evidence
  }

  lemma OkIsComplete(s: Stock)
    requires StockOk(s)
    ensures Complete(s)
  {
    forall i | 0 <= i < |s.movements| ensures i in s.evidence { assert MovementOk(s, i); }
  }

  function MoveCost(s: Stock, id: nat): int
    requires Complete(s)
  {
    IssueMoveCost(s.movements, s.evidence, id)
  }

  // ----- The invariant -----

  /** Where a movement may come from. Fingerprints tell when a derived idempotency key is
      already spent. */
  predicate OriginOk(m: Movement, g: Register, receipts: nat) {
    && (m.sourceType == InvoiceSource ==> m.delta < 0)
    && (m.fingerprint.Some? ==>
          match m.fingerprint.value
          case IssueOf(id, _, _, _) => id in g.invoices && g.invoices[id].status != Draft
          case ReturnOf(id, _, _, _) => id in g.invoices && g.invoices[id].status == Void
          case ReceiptOf(_, _, _, _) => m.idempotencyKey.Some? && m.idempotencyKey.value.ReceiptKey?
                                        && m.idempotencyKey.value.receipt < receipts
          case AdjustmentOf(_, _, _) => true)
  }

  predicate IsVoid(g: Register, id: nat) {
    id in g.invoices && g.invoices[id].status == Void
  }

  ghost predicate Ties(b: Books) {
    && StockOk(b.stock)
    && Complete(b.stock)
    && Balance(b.ledger.entries, Account.Inventory) == TotalCost(b.stock.layers)
    && (forall m <- b.stock.movements :: OriginOk(m, b.register, |b.purchases.receipts|))
    && (forall id <- b.register.invoices :: forall line <- b.register.invoices[id].lines :: 0 < line.quantity)
    && (forall id: nat :: !IsVoid(b.register, id) ==>
          IssueBalance(b.ledger.entries, id, Account.Inventory) == -MoveCost(b.stock, id))
  }

  // ----- Recording, seen from the invariant -----

  lemma RecordMoveCost(s: Stock, q: Request, id: nat)
    requires StockOk(s) && Record(s, q).Ok? && !Record(s, q).value.valued.replayed
    ensures Complete(s) && Complete(Record(s, q).value.stock)
    ensures var r := Record(s, q).value;
            MoveCost(r.stock, id) == MoveCost(s, id) + if IsIssueMove(q.movement, id) then r.valued.cost else 0
  {
    OkIsComplete(s);
    RecordKeeps(s, q);
    var r := Record(s, q).value;
    OkIsComplete(r.stock);
    RecordAppends(s, q);
    IssueMoveCostFrame(s.movements, s.evidence, r.stock.evidence, id);
  }

  /** A fingerprint no movement carries cannot be replayed. */
  lemma FreshFingerprint(s: Stock, q: Request)
    requires StockOk(s) && Record(s, q).Ok?
    requires q.movement.fingerprint.Some? && forall m <- s.movements :: m.fingerprint != q.movement.fingerprint
    ensures !Record(s, q).value.valued.replayed
  {
    RecordAppends(s, q);
  }

  lemma NoKeyIsNew(s: Stock, q: Request)
    requires StockOk(s) && Record(s, q).Ok?
    requires q.movement.idempotencyKey.Some? ==> forall m <- s.movements ::
        m.idempotencyKey != q.movement.idempotencyKey
    ensures !Record(s, q).value.valued.replayed
  {
    RecordAppends(s, q);
  }

  /** Effect of a stretch of new movements: `value` is the change in total cost and
      `issued` the part of it taken by issues of `invoice`. */
  ghost predicate Took(s: Stock, t: Stock, moves: seq<Movement>, value: int, invoice: nat, issued: int) {
    && StockOk(t) && Complete(s) && Complete(t)
    && t.movements == s.movements + moves
    && Agree(|s.movements|, s.evidence, t.evidence)
    && TotalCost(t.layers) == TotalCost(s.layers) + value
    && (forall id: nat :: MoveCost(t, id) == MoveCost(s, id) + if id == invoice then issued else 0)
  }

  lemma TookNothing(s: Stock, invoice: nat)
    requires StockOk(s)
    ensures Took(s, s, [], 0, invoice, 0)
  {
    OkIsComplete(s);
  }

  lemma TookMore(s: Stock, t: Stock, u: Stock, ms: seq<Movement>, v: int, ns: seq<Movement>, w: int, invoice: nat,
      a: int, b: int)
    requires Took(s, t, ms, v, invoice, a) && Took(t, u, ns, w, invoice, b)
    ensures Took(s, u, ms + ns, v + w, invoice, a + b)
  {
    assert (s.movements + ms) + ns == s.movements + (ms + ns);
  }

  /** Cost prices are not part of the stock invariant. */
  lemma TookAnyPrices(s: Stock, t: Stock, u: Stock, moves: seq<Movement>, value: int, invoice: nat, issued: int)
    requires Took(s, t, moves, value, invoice, issued) && u == t.(products := u.products)
    ensures Took(s, u, moves, value, invoice, issued)
  {
    forall i | 0 <= i < |u.movements| ensures MovementOk(u, i) { assert MovementOk(t, i); }
    forall key <- u.layers ensures LayerOk(u, key) { assert LayerOk(t, key); }
  }

  /** One recorded movement; `m` is the stored row. */
  lemma RecordTakes(s: Stock, q: Request, invoice: nat) returns (m: Movement)
    requires StockOk(s) && Record(s, q).Ok? && !Record(s, q).value.valued.replayed
    requires q.movement.sourceType == InvoiceSource ==> q.movement.sourceId == InvoiceId(invoice)
    ensures m == q.movement.(unitCost := m.unitCost)
    ensures var r := Record(s, q).value;
            && r.stock.products == s.products && 0 <= r.valued.cost
            && Took(s, r.stock, [m], SignedCost(q, r.valued), invoice, if IsIssueMove(m, invoice) then r.valued.cost
                else 0)
  {
    RecordKeeps(s, q);
    RecordAppends(s, q);
    var r := Record(s, q).value;
    m := r.stock.movements[|s.movements|];
    assert r.stock.movements == s.movements + [m];
    forall id: nat
      ensures Complete(s) && Complete(r.stock)
      ensures MoveCost(r.stock, id) == MoveCost(s, id)
          + if id == invoice && IsIssueMove(m, invoice) then r.valued.cost else 0
    {
      RecordMoveCost(s, q, id);
    }
    OkIsComplete(s);
  }

  // ----- Steps that leave stock alone -----

  predicate StatusAdvances(g: Register, h: Register) {
    forall id <- g.invoices ::
      && id in h.invoices
      && (g.invoices[id].status != Draft ==> h.invoices[id].status != Draft)
      && (g.invoices[id].status == Void ==> h.invoices[id].status == Void)
  }

  ghost predicate Harmless(more: seq<Entry>) {
    forall e <- more :: Net(e.lines, Account.Inventory) == 0 && e.sourceType != InvoiceSource
  }

  lemma {:induction false} HarmlessBalance(more: seq<Entry>, id: nat)
    requires Harmless(more)
    ensures Balance(more, Account.Inventory) == 0 && IssueBalance(more, id, Account.Inventory) == 0
  {
    if more != [] {
      assert more[|more| - 1] in more;
      HarmlessBalance(more[..|more| - 1], id);
    }
  }

  lemma StockUntouched(b: Books, c: Books, more: seq<Entry>)
    requires Ties(b) && c.stock == b.stock
    requires c.ledger.entries == b.ledger.entries + more && Harmless(more)
    requires StatusAdvances(b.register, c.register)
    requires |b.purchases.receipts| <= |c.purchases.receipts|
    requires forall id <- c.register.invoices :: forall line <- c.register.invoices[id].lines :: 0 < line.quantity
    ensures Ties(c)
  {
    HarmlessBalance(more, 0);
    BalanceAppend(b.ledger.entries, more, Account.Inventory);
    forall id: nat | !IsVoid(c.register, id)
      ensures IssueBalance(c.ledger.entries, id, Account.Inventory) == -MoveCost(c.stock, id)
    {
      assert !IsVoid(b.register, id);
      HarmlessBalance(more, id);
      IssueBalanceAppend(b.ledger.entries, more, id, Account.Inventory);
    }
  }

  // ----- Steps that move stock outside invoices -----

  ghost predicate Foreign(more: seq<Entry>) {
    forall e <- more :: e.sourceType != InvoiceSource
  }

  lemma {:induction false} ForeignBalance(more: seq<Entry>, id: nat, a: Account)
    requires Foreign(more)
    ensures IssueBalance(more, id, a) == 0
  {
    if more != [] {
      assert more[|more| - 1] in more;
      ForeignBalance(more[..|more| - 1], id, a);
    }
  }

  /** Stock moved by some value and the journal by the same. */
  lemma StockMoved(b: Books, c: Books, moves: seq<Movement>, more: seq<Entry>, value: int)
    requires Ties(b) && Took(b.stock, c.stock, moves, value, 0, 0)
    requires c.ledger.entries == b.ledger.entries + more && Foreign(more)
    requires Balance(more, Account.Inventory) == value
    requires c.register == b.register && |b.purchases.receipts| <= |c.purchases.receipts|
    requires forall m <- moves :: OriginOk(m, c.register, |c.purchases.receipts|)
    ensures Ties(c)
  {
    BalanceAppend(b.ledger.entries, more, Account.Inventory);
    forall id: nat | !IsVoid(c.register, id)
      ensures IssueBalance(c.ledger.entries, id, Account.Inventory) == -MoveCost(c.stock, id)
    {
      ForeignBalance(more, id, Account.Inventory);
      IssueBalanceAppend(b.ledger.entries, more, id, Account.Inventory);
    }
  }

  /** The one entry most stock transactions post. */
  lemma PostedOne(l: Ledger, e: Entry, a: Account)
    requires Post(l, e).Ok?
    ensures Post(l, e).value.entries == l.entries + [e]
    ensures Balance([e], a) == Net(e.lines, a)
  {
    assert [e][..0] == [];
  }

  /** A new movement from outside invoices with the entry that carries its value. */
  lemma RecordPosts(b: Books, c: Books, q: Request, r: Moved, e: Entry)
    requires Ties(b) && Record(b.stock, q) == Ok(r) && !r.valued.replayed && q.movement.sourceType != InvoiceSource
    requires q.movement.fingerprint.Some? ==> q.movement.fingerprint.value.AdjustmentOf?
    requires c == b.(stock := r.stock, ledger := b.ledger.(entries := b.ledger.entries + [e]))
    requires Net(e.lines, Account.Inventory) == SignedCost(q, r.valued) && e.sourceType != InvoiceSource
    ensures Ties(c)
  {
    var m := RecordTakes(b.stock, q, 0);
    assert [e][..0] == [];
    StockMoved(b, c, [m], [e], SignedCost(q, r.valued));
  }

  lemma OpeningTies(b: Books, key: Key, quantity: int, unitCost: int, now: int)
    requires Ties(b) && Step(b, OpenStock(key, quantity, unitCost), now).Ok?
    ensures Ties(Step(b, OpenStock(key, quantity, unitCost), now).value)
  {
    var q := OpeningRequest(key, quantity, unitCost, OtherSource, OtherId(0));
    var r := Record(b.stock, q).value;
    var e := Entry(now, StockAdjustmentSource, MovementId(r.valued.id),
                   [Debit(Account.Inventory, r.valued.cost), Credit(OpeningEquity, r.valued.cost)]);
    var c := Step(b, OpenStock(key, quantity, unitCost), now).value;
    OpeningIsNew(b.stock, q);
    NetOfPair(Account.Inventory, OpeningEquity, r.valued.cost, Account.Inventory);
    assert c == b.(stock := r.stock, ledger := b.ledger.(entries := b.ledger.entries + [e]));
    RecordPosts(b, c, q, r, e);
  }

  /** An opening is recorded only onto a position without history, and what it costs it adds. */
  lemma OpeningIsNew(s: Stock, q: Request)
    requires StockOk(s) && Record(s, q).Ok? && q.movement.idempotencyKey.None? && q.requireZeroCurrent
    ensures !Record(s, q).value.valued.replayed
    ensures SignedCost(q, Record(s, q).value.valued) == Record(s, q).value.valued.cost
  {
    NoKeyIsNew(s, q);
  }

  /** A new adjustment: stock and journal move together, or a worthless one moves neither. */
  lemma NewAdjustmentTies(b: Books, c: Books, key: Key, delta: int, note: string, idem: IdempotencyKey, now: int)
    requires Ties(b) && key.product in b.stock.products && FindByKey(b.stock.movements, idem).None?
    requires Record(b.stock, AdjustRequest(b.stock, key, delta, note, idem)).Ok?
    requires var r := Record(b.stock, AdjustRequest(b.stock, key, delta, note, idem)).value;
             && c.stock == r.stock && c.register == b.register && c.purchases == b.purchases
             && if r.valued.cost <= 0 then c.ledger == b.ledger
                else Post(b.ledger, Entry(now, StockAdjustmentSource, MovementId(r.valued.id),
                                          AdjustmentLines(delta, r.valued.cost))) == Ok(c.ledger)
    ensures Ties(c)
  {
    var q := AdjustRequest(b.stock, key, delta, note, idem);
    var r := Record(b.stock, q).value;
    NoKeyIsNew(b.stock, q);
    if r.valued.cost > 0 {
      var e := Entry(now, StockAdjustmentSource, MovementId(r.valued.id), AdjustmentLines(delta, r.valued.cost));
      AdjustmentNet(delta, r.valued.cost);
      RecordPosts(b, c, q, r, e);
    } else {
      WorthlessTies(b, c, q, r);
    }
  }

  lemma AdjustmentNet(delta: int, value: int)
    ensures Net(AdjustmentLines(delta, value), Account.Inventory) == if delta < 0 then -value else value
  {
    NetOfPair(Account.Inventory, GeneralExpenses, value, Account.Inventory);
    NetOfPair(GeneralExpenses, Account.Inventory, value, Account.Inventory);
  }

  lemma WorthlessTies(b: Books, c: Books, q: Request, r: Moved)
    requires Ties(b) && Record(b.stock, q) == Ok(r) && !r.valued.replayed && r.valued.cost <= 0
    requires q.movement.sourceType != InvoiceSource
    requires q.movement.fingerprint.Some? ==> q.movement.fingerprint.value.AdjustmentOf?
    requires c == b.(stock := r.stock)
    ensures Ties(c)
  {
    var m := RecordTakes(b.stock, q, 0);
    assert b.ledger.entries + [] == b.ledger.entries;
    StockMoved(b, c, [m], [], 0);
  }

  lemma AdjustmentTies(b: Books, key: Key, delta: int, note: string, idem: IdempotencyKey, now: int)
    requires Ties(b) && Adjust(StockBooks(b.stock, b.ledger), key, delta, note, idem, now).Ok?
    ensures var r := Adjust(StockBooks(b.stock, b.ledger), key, delta, note, idem, now).value;
            Ties(b.(stock := r.stock, ledger := r.ledger))
  {
    var r := Adjust(StockBooks(b.stock, b.ledger), key, delta, note, idem, now).value;
    if FindByKey(b.stock.movements, idem).None? {
      NewAdjustmentTies(b, b.(stock := r.stock, ledger := r.ledger), key, delta, note, idem, now);
    } else {
      assert b.(stock := r.stock, ledger := r.ledger) == b;
    }
  }

  lemma ImportRowTakes(s: Stock, total: int, row: OpeningRow, batch: nat) returns (m: Movement)
    requires StockOk(s) && ImportRow(s, total, row, batch).Ok?
    ensures var (t, value) := ImportRow(s, total, row, batch).value; Took(s, t, [m], value - total, 0, 0)
    ensures m.fingerprint.None? && m.sourceType == OpeningImportSource
  {
    var q := OpeningRequest(row.key, row.quantity, row.unitCost, OpeningImportSource, BatchId(batch));
    NoKeyIsNew(s, q);
    m := RecordTakes(s, q, 0);
    RecordedCost(s, q);
  }

  /** What a receipt reports as its cost: the total it was given, or unit cost by quantity. */
  lemma RecordedCost(s: Stock, q: Request)
    requires StockOk(s) && Record(s, q).Ok? && !Record(s, q).value.valued.replayed && 0 < q.movement.delta
    ensures q.totalCost.Some? || q.movement.unitCost.Some?
    ensures Record(s, q).value.valued.cost
         == if q.totalCost.Some? then q.totalCost.value else MulQuantity(q.movement.unitCost.value, q.movement.delta)
  {
  }

  lemma {:induction false} ImportTakes(s: Stock, rows: seq<OpeningRow>, batch: nat) returns (moves: seq<Movement>)
    requires StockOk(s) && ImportRows(s, rows, batch).Ok?
    ensures var (t, total) := ImportRows(s, rows, batch).value; Took(s, t, moves, total, 0, 0)
    ensures forall m <- moves :: m.fingerprint.None? && m.sourceType == OpeningImportSource
  {
    if rows == [] {
      TookNothing(s, 0);
      moves := [];
    } else {
      var n := |rows| - 1;
      var before := ImportTakes(s, rows[..n], batch);
      var (u, total) := ImportRows(s, rows[..n], batch).value;
      var (t, value) := ImportRow(u, total, rows[n], batch).value;
      var m := ImportRowTakes(u, total, rows[n], batch);
      moves := before + [m];
      TookMore(s, u, t, before, total, [m], value - total, 0, 0, 0);
    }
  }

  lemma {:induction false} PricesOnly(s: Stock, rows: seq<OpeningRow>)
    ensures WithCostPrices(s, rows) == s.(products := WithCostPrices(s, rows).products)
  {
    if rows != [] {
      PricesOnly(s, rows[..|rows| - 1]);
    }
  }

  lemma ImportResult(b: Books, rows: seq<OpeningRow>, batch: nat, now: int)
    requires Step(b, ImportStock(rows, batch), now).Ok?
    ensures ImportRows(b.stock, rows, batch).Ok?
    ensures var (t, total) := ImportRows(b.stock, rows, batch).value;
            var e := Entry(now, OpeningImportSource, BatchId(batch),
                [Debit(Account.Inventory, total), Credit(OpeningEquity, total)]);
            Step(b, ImportStock(rows, batch), now).value
            == b.(stock := WithCostPrices(t, rows), ledger := b.ledger.(entries := b.ledger.entries + [e]))
  {
  }

  lemma ImportTies(b: Books, rows: seq<OpeningRow>, batch: nat, now: int)
    requires Ties(b) && Step(b, ImportStock(rows, batch), now).Ok?
    ensures Ties(Step(b, ImportStock(rows, batch), now).value)
  {
    ImportResult(b, rows, batch, now);
    var c := Step(b, ImportStock(rows, batch), now).value;
    var (t, total) := ImportRows(b.stock, rows, batch).value;
    var moves := ImportTakes(b.stock, rows, batch);
    ImportedTies(b, c, t, total, moves, rows, c.ledger.entries[|b.ledger.entries|]);
  }

  lemma ImportedTies(b: Books, c: Books, t: Stock, total: int, moves: seq<Movement>, rows: seq<OpeningRow>, e: Entry)
    requires Ties(b) && Took(b.stock, t, moves, total, 0, 0)
    requires forall m <- moves :: m.fingerprint.None? && m.sourceType == OpeningImportSource
    requires c == b.(stock := WithCostPrices(t, rows), ledger := b.ledger.(entries := b.ledger.entries + [e]))
    requires e.lines == [Debit(Account.Inventory, total), Credit(OpeningEquity, total)]
        && e.sourceType == OpeningImportSource
    ensures Ties(c)
  {
    PricesOnly(t, rows);
    TookAnyPrices(b.stock, t, c.stock, moves, total, 0, 0);
    NetOfPair(Account.Inventory, OpeningEquity, total, Account.Inventory);
    assert [e][..0] == [];
    StockMoved(b, c, moves, [e], total);
  }

  // ----- Issuing an invoice -----

  /** Line numbers differ, so every stock line has a fingerprint of its own. */
  predicate StockLinesOk(lines: seq<StockLine>) {
    && (forall k :: 0 <= k < |lines| ==> 0 < lines[k].quantity)
    && (forall j, k :: 0 <= j < k < |lines| ==> lines[j].line != lines[k].line)
  }

  lemma {:induction false} StockLinesAreOk(s: Stock, w: Option<nat>, lines: seq<DraftLine>)
    requires StockLines(s, w, lines).Ok? && forall k :: 0 <= k < |lines| ==> 0 < lines[k].quantity
    ensures StockLinesOk(StockLines(s, w, lines).value)
    ensures forall l <- StockLines(s, w, lines).value :: l.line < |lines|
  {
    if lines != [] {
      StockLinesAreOk(s, w, lines[..|lines| - 1]);
    }
  }

  lemma {:induction false} InsertIsOk(lines: seq<StockLine>, l: StockLine)
    requires StockLinesOk(lines) && 0 < l.quantity && forall k <- lines :: k.line != l.line
    ensures StockLinesOk(InsertLine(lines, l))
    ensures forall k <- InsertLine(lines, l) :: k in lines || k == l
  {
    if lines != [] && LocksBefore(l, lines[|lines| - 1]) {
      var front, last := lines[..|lines| - 1], lines[|lines| - 1];
      assert StockLinesOk(front) && forall k <- front :: k in lines && k.line != last.line;
      InsertIsOk(front, l);
      assert last in lines;
    }
  }

  lemma {:induction false} LockOrderIsOk(lines: seq<StockLine>)
    requires StockLinesOk(lines)
    ensures StockLinesOk(LockOrder(lines)) && forall k <- LockOrder(lines) :: k in lines
  {
    if lines != [] {
      var front, last := lines[..|lines| - 1], lines[|lines| - 1];
      assert StockLinesOk(front) && forall k <- front :: k in lines && k.line != last.line;
      LockOrderIsOk(front);
      InsertIsOk(LockOrder(front), last);
    }
  }

  predicate IssuedBy(m: Movement, invoice: nat, lines: seq<StockLine>) {
    && IsIssueMove(m, invoice) && m.delta < 0
    && m.fingerprint.Some? && m.fingerprint.value.IssueOf? && m.fingerprint.value.invoice == invoice
    && exists l <- lines :: m.fingerprint.value.line == l.line
  }

  lemma {:induction false} IssueTakes(s: Stock, invoice: nat, lines: seq<StockLine>) returns (moves: seq<Movement>)
    requires StockOk(s) && StockLinesOk(lines) && IssueLines(s, invoice, lines).Ok?
    requires forall m <- s.movements ::
        m.fingerprint.Some? && m.fingerprint.value.IssueOf? ==> m.fingerprint.value.invoice != invoice
    ensures var (t, cogs) := IssueLines(s, invoice, lines).value;
            0 <= cogs && Took(s, t, moves, -cogs, invoice, cogs)
    ensures forall m <- moves :: IssuedBy(m, invoice, lines)
  {
    if lines == [] {
      TookNothing(s, invoice);
      moves := [];
    } else {
      var n := |lines| - 1;
      assert StockLinesOk(lines[..n]);
      var before := IssueTakes(s, invoice, lines[..n]);
      var (u, cogs) := IssueLines(s, invoice, lines[..n]).value;
      var m := IssueLineTakes(u, invoice, lines[n], lines[..n], before, s);
      moves := before + [m];
      var r := Record(u, IssueRequest(invoice, lines[n])).value;
      TookMore(s, u, r.stock, before, -cogs, [m], -r.valued.cost, invoice, cogs, r.valued.cost);
      IssuedByMore(before, m, invoice, lines);
    }
  }

  lemma IssuedByMore(before: seq<Movement>, m: Movement, invoice: nat, lines: seq<StockLine>)
    requires lines != [] && IssuedBy(m, invoice, [lines[|lines| - 1]])
    requires forall x <- before :: IssuedBy(x, invoice, lines[..|lines| - 1])
    ensures forall x <- before + [m] :: IssuedBy(x, invoice, lines)
  {
    forall x <- before + [m] ensures IssuedBy(x, invoice, lines) {
      assert x in before ==> IssuedBy(x, invoice, lines[..|lines| - 1]);
    }
  }

  lemma IssueLineTakes(u: Stock, invoice: nat, line: StockLine, earlier: seq<StockLine>, moves: seq<Movement>, s: Stock)
    returns (m: Movement)
    requires StockOk(u) && 0 < line.quantity && Record(u, IssueRequest(invoice, line)).Ok?
    requires u.movements == s.movements + moves
    requires forall m <- s.movements ::
        m.fingerprint.Some? && m.fingerprint.value.IssueOf? ==> m.fingerprint.value.invoice != invoice
    requires forall m <- moves :: IssuedBy(m, invoice, earlier)
    requires forall l <- earlier :: l.line != line.line
    ensures var r := Record(u, IssueRequest(invoice, line)).value;
            0 <= r.valued.cost && Took(u, r.stock, [m], -r.valued.cost, invoice, r.valued.cost)
    ensures IssuedBy(m, invoice, [line])
  {
    var q := IssueRequest(invoice, line);
    forall m <- u.movements ensures m.fingerprint != q.movement.fingerprint {
      if m in moves { assert IssuedBy(m, invoice, earlier); }
    }
    FreshFingerprint(u, q);
    m := RecordTakes(u, q, invoice);
    assert line in [line];
  }

  /** The revenue entry leaves Inventory alone, the cost entry credits it with what was taken. */
  lemma IssueEntries(l: Ledger, inv: Invoice, id: nat, cogs: int, now: int) returns (more: seq<Entry>)
    requires Post(l, Entry(now, InvoiceSource, InvoiceId(id), RevenueLines(inv))).Ok? && 0 <= cogs
    requires var revenue := Post(l, Entry(now, InvoiceSource, InvoiceId(id), RevenueLines(inv))).value;
             PostCostOfGoods(revenue, id, cogs, now).Ok?
    ensures var revenue := Post(l, Entry(now, InvoiceSource, InvoiceId(id), RevenueLines(inv))).value;
            PostCostOfGoods(revenue, id, cogs, now).value.entries == l.entries + more
    ensures Balance(more, Account.Inventory) == -cogs
    ensures forall k: nat :: IssueBalance(more, k, Account.Inventory) == if k == id then -cogs else 0
  {
    var revenue := Entry(now, InvoiceSource, InvoiceId(id), RevenueLines(inv));
    NetOfUntouched(RevenueLines(inv), Account.Inventory);
    if cogs <= 0 {
      more := [revenue];
      RevenueAlone(revenue);
    } else {
      var cost := Entry(now, InvoiceSource, InvoiceId(id), [Debit(CostOfGoods, cogs), Credit(Account.Inventory, cogs)]);
      NetOfPair(CostOfGoods, Account.Inventory, cogs, Account.Inventory);
      more := [revenue] + [cost];
      RevenueAndCost(revenue, cost, id, cogs);
      assert l.entries + [revenue] + [cost] == l.entries + more;
    }
  }

  lemma RevenueAlone(revenue: Entry)
    requires Net(revenue.lines, Account.Inventory) == 0
    ensures Balance([revenue], Account.Inventory) == 0
    ensures forall k: nat :: IssueBalance([revenue], k, Account.Inventory) == 0
  {
    forall k: nat ensures IssueBalance([revenue], k, Account.Inventory) == 0
        && Balance([revenue], Account.Inventory) == 0 {
      IssueBalanceOne(revenue, k, Account.Inventory);
    }
  }

  lemma RevenueAndCost(revenue: Entry, cost: Entry, id: nat, cogs: int)
    requires IsIssueEntry(revenue, id) && IsIssueEntry(cost, id)
    requires Net(revenue.lines, Account.Inventory) == 0 && Net(cost.lines, Account.Inventory) == -cogs
    ensures Balance([revenue] + [cost], Account.Inventory) == -cogs
    ensures forall k: nat :: IssueBalance([revenue] + [cost], k, Account.Inventory) == if k == id then -cogs else 0
  {
    BalanceAppend([revenue], [cost], Account.Inventory);
    IssueBalanceOne(revenue, id, Account.Inventory);
    IssueBalanceOne(cost, id, Account.Inventory);
    forall k: nat ensures IssueBalance([revenue] + [cost], k, Account.Inventory) == if k == id then -cogs else 0 {
      IssueBalanceAppend([revenue], [cost], k, Account.Inventory);
      IssueBalanceOne(revenue, k, Account.Inventory);
      IssueBalanceOne(cost, k, Account.Inventory);
    }
  }

  lemma IssueTies(b: Books, id: nat, now: int)
    requires Ties(b) && Issue(SalesBooks(b.register, b.stock, b.ledger), id, now).Ok?
    ensures var r := Issue(SalesBooks(b.register, b.stock, b.ledger), id, now).value;
            Ties(b.(register := r.register, stock := r.stock, ledger := r.ledger))
  {
    var r := Issue(SalesBooks(b.register, b.stock, b.ledger), id, now).value;
    var c := b.(register := r.register, stock := r.stock, ledger := r.ledger);
    var inv := b.register.invoices[id];
    var lines := LockOrder(StockLines(b.stock, b.register.defaultWarehouse, inv.lines).value);
    forall k | 0 <= k < |inv.lines| ensures 0 < inv.lines[k].quantity { assert inv.lines[k] in inv.lines; }
    StockLinesAreOk(b.stock, b.register.defaultWarehouse, inv.lines);
    LockOrderIsOk(StockLines(b.stock, b.register.defaultWarehouse, inv.lines).value);
    forall m <- b.stock.movements
      ensures m.fingerprint.Some? && m.fingerprint.value.IssueOf? ==> m.fingerprint.value.invoice != id
    {
      assert OriginOk(m, b.register, |b.purchases.receipts|);
    }
    var moves := IssueTakes(b.stock, id, lines);
    var cogs := IssueLines(b.stock, id, lines).value.1;
    var more := IssueEntries(b.ledger, inv, id, cogs, now);
    IssuedTies(b, c, id, moves, more, cogs, lines);
  }

  lemma IssuedTies(b: Books, c: Books, id: nat, moves: seq<Movement>, more: seq<Entry>, cogs: int,
      lines: seq<StockLine>)
    requires Ties(b) && id in b.register.invoices && b.register.invoices[id].status == Draft
    requires c.register == WithStatus(b.register, id, Issued) && c.purchases == b.purchases
    requires Took(b.stock, c.stock, moves, -cogs, id, cogs) && forall m <- moves :: IssuedBy(m, id, lines)
    requires c.ledger.entries == b.ledger.entries + more && Balance(more, Account.Inventory) == -cogs
    requires forall k: nat :: IssueBalance(more, k, Account.Inventory) == if k == id then -cogs else 0
    ensures Ties(c)
  {
    BalanceAppend(b.ledger.entries, more, Account.Inventory);
    forall m <- c.stock.movements ensures OriginOk(m, c.register, |c.purchases.receipts|) {
      if m in b.stock.movements {
        assert OriginOk(m, b.register, |b.purchases.receipts|);
      } else {
        assert IssuedBy(m, id, lines);
      }
    }
    forall k: nat | !IsVoid(c.register, k)
      ensures IssueBalance(c.ledger.entries, k, Account.Inventory) == -MoveCost(c.stock, k)
    {
      assert !IsVoid(b.register, k);
      IssueBalanceAppend(b.ledger.entries, more, k, Account.Inventory);
    }
  }

  // ----- Voiding an invoice -----

  predicate ReturnedBy(m: Movement, invoice: nat, below: nat) {
    && m.sourceType == InvoiceVoidSource
    && m.fingerprint.Some? && m.fingerprint.value.ReturnOf?
    && m.fingerprint.value.invoice == invoice && m.fingerprint.value.movement < below
  }

  predicate NeverReturned(s: Stock, invoice: nat) {
    forall m <- s.movements ::
        m.fingerprint.Some? && m.fingerprint.value.ReturnOf? ==> m.fingerprint.value.invoice != invoice
  }

  lemma {:induction false} ReturnTakes(s: Stock, moves: seq<Movement>, invoice: nat) returns (back: seq<Movement>)
    requires StockOk(s) && Complete(s) && moves <= s.movements && NeverReturned(s, invoice)
    requires forall m <- moves :: IsIssueMove(m, invoice) ==> m.delta < 0
    requires ReturnMoves(s, moves, invoice).Ok?
    ensures Took(s, ReturnMoves(s, moves, invoice).value, back, IssueMoveCost(moves, s.evidence, invoice), invoice, 0)
    ensures forall m <- back :: ReturnedBy(m, invoice, |moves|)
  {
    if moves == [] {
      TookNothing(s, invoice);
      back := [];
    } else {
      var id := |moves| - 1;
      assert moves[id] in moves;
      var before := ReturnTakes(s, moves[..id], invoice);
      var u := ReturnMoves(s, moves[..id], invoice).value;
      if IsIssueMove(moves[id], invoice) {
        assert u.evidence[id] == s.evidence[id];
        var m := ReturnOneTakes(u, s, before, moves[id], id, invoice);
        var t := ReturnMoves(s, moves, invoice).value;
        TookMore(s, u, t, before, IssueMoveCost(moves[..id], s.evidence, invoice), [m], s.evidence[id].movementCost,
            invoice, 0, 0);
        back := before + [m];
        forall x <- back ensures ReturnedBy(x, invoice, |moves|) {
          assert x in before ==> ReturnedBy(x, invoice, id);
        }
      } else {
        back := before;
        forall x <- back ensures ReturnedBy(x, invoice, |moves|) { assert ReturnedBy(x, invoice, id); }
      }
    }
  }

  lemma ReturnOneTakes(u: Stock, s: Stock, before: seq<Movement>, move: Movement, id: nat, invoice: nat)
    returns (m: Movement)
    requires StockOk(u) && NeverReturned(s, invoice) && u.movements == s.movements + before && id in u.evidence
    requires forall m <- before :: ReturnedBy(m, invoice, id)
    requires move.delta < 0
    requires Record(u, ReturnRequest(invoice, id, move, u.evidence[id].movementCost)).Ok?
    ensures Took(u, Record(u, ReturnRequest(invoice, id, move, u.evidence[id].movementCost)).value.stock, [m],
                 u.evidence[id].movementCost, invoice, 0)
    ensures ReturnedBy(m, invoice, id + 1)
  {
    var q := ReturnRequest(invoice, id, move, u.evidence[id].movementCost);
    forall m <- u.movements ensures m.fingerprint != q.movement.fingerprint {
      if m in before { assert ReturnedBy(m, invoice, id); }
    }
    FreshFingerprint(u, q);
    RecordedCost(u, q);
    m := RecordTakes(u, q, invoice);
  }

  lemma VoidTies(b: Books, id: nat, reason: string, now: int)
    requires Ties(b) && VoidInvoice(SalesBooks(b.register, b.stock, b.ledger), id, reason, now).Ok?
    ensures var r := VoidInvoice(SalesBooks(b.register, b.stock, b.ledger), id, reason, now).value;
            Ties(b.(register := r.register, stock := r.stock, ledger := r.ledger))
  {
    var r := VoidInvoice(SalesBooks(b.register, b.stock, b.ledger), id, reason, now).value;
    var c := b.(register := r.register, stock := r.stock, ledger := r.ledger);
    if b.register.invoices[id].status == Draft {
      assert b.ledger.entries + [] == b.ledger.entries;
      StockUntouched(b, c, []);
    } else {
      forall m <- b.stock.movements
        ensures IsIssueMove(m, id) ==> m.delta < 0
        ensures m.fingerprint.Some? && m.fingerprint.value.ReturnOf? ==> m.fingerprint.value.invoice != id
      {
        assert OriginOk(m, b.register, |b.purchases.receipts|);
      }
      var more := ReversalsCancel(b.ledger, b.ledger.entries, id, now);
      var back := ReturnTakes(b.stock, b.stock.movements, id);
      VoidedTies(b, c, id, back, more);
    }
  }

  lemma VoidedTies(b: Books, c: Books, id: nat, back: seq<Movement>, more: seq<Entry>)
    requires Ties(b) && id in b.register.invoices && b.register.invoices[id].status !in {Draft, Void}
    requires c.register == WithStatus(b.register, id, Void) && c.purchases == b.purchases
    requires Took(b.stock, c.stock, back, MoveCost(b.stock, id), id, 0)
    requires forall m <- back :: ReturnedBy(m, id, |b.stock.movements|)
    requires c.ledger.entries == b.ledger.entries + more && Foreign(more)
    requires Balance(more, Account.Inventory) == -IssueBalance(b.ledger.entries, id, Account.Inventory)
    ensures Ties(c)
  {
    assert !IsVoid(b.register, id);
    BalanceAppend(b.ledger.entries, more, Account.Inventory);
    forall m <- c.stock.movements ensures OriginOk(m, c.register, |c.purchases.receipts|) {
      if m in b.stock.movements {
        assert OriginOk(m, b.register, |b.purchases.receipts|);
      } else {
        assert ReturnedBy(m, id, |b.stock.movements|);
      }
    }
    forall k: nat | !IsVoid(c.register, k)
      ensures IssueBalance(c.ledger.entries, k, Account.Inventory) == -MoveCost(c.stock, k)
    {
      assert !IsVoid(b.register, k);
      ForeignBalance(more, k, Account.Inventory);
      IssueBalanceAppend(b.ledger.entries, more, k, Account.Inventory);
    }
  }

  // ----- Receiving goods -----

  predicate ReceivedBy(m: Movement, receipt: nat, below: nat) {
    && m.sourceType == GoodsReceiptSource
    && m.fingerprint.Some? && m.fingerprint.value.ReceiptOf?
    && m.idempotencyKey.Some? && m.idempotencyKey.value.ReceiptKey?
    && m.idempotencyKey.value.receipt == receipt && m.idempotencyKey.value.orderLine < below
  }

  predicate AllReceivedBy(moves: seq<Movement>, receipt: nat, below: nat) {
    forall m <- moves :: ReceivedBy(m, receipt, below)
  }

  predicate KeyUnspent(s: Stock, receipt: nat) {
    forall m <- s.movements :: m.fingerprint.Some? && m.fingerprint.value.ReceiptOf?
      ==> m.idempotencyKey.Some? && m.idempotencyKey.value.ReceiptKey? && m.idempotencyKey.value.receipt < receipt
  }

  lemma TakeIsNew(t: Stock, s: Stock, before: seq<Movement>, receipt: nat, n: nat, order: Order, i: ReceiptInput)
    requires n < |order.lines| && n in i.quantities && StockOk(t) && KeyUnspent(s, receipt)
    requires t.movements == s.movements + before && AllReceivedBy(before, receipt, n)
    requires Record(t, TakeRequest(receipt, n, order, i)).Ok?
    ensures !Record(t, TakeRequest(receipt, n, order, i)).value.valued.replayed
  {
    var q := TakeRequest(receipt, n, order, i);
    forall m <- t.movements
      ensures m.fingerprint != q.movement.fingerprint || m.idempotencyKey != q.movement.idempotencyKey
    {
      if m in before { assert ReceivedBy(m, receipt, n); }
    }
    RecordAppends(t, q);
  }

  lemma TakeLineTakes(t: Taken, s: Stock, before: seq<Movement>, receipt: nat, n: nat, order: Order, i: ReceiptInput)
    returns (moves: seq<Movement>)
    requires n < |order.lines| && StockOk(t.stock) && KeyUnspent(s, receipt)
    requires t.stock.movements == s.movements + before && AllReceivedBy(before, receipt, n)
    requires n in i.quantities ==> 0 < i.quantities[n]
    requires TakeLine(t, receipt, n, order, i).Ok?
    ensures var u := TakeLine(t, receipt, n, order, i).value;
            t.base <= u.base && Took(t.stock, u.stock, moves, u.base - t.base, 0, 0)
    ensures AllReceivedBy(moves, receipt, n + 1)
  {
    if n !in i.quantities {
      TookNothing(t.stock, 0);
      moves := [];
    } else {
      var q := TakeRequest(receipt, n, order, i);
      TakeIsNew(t.stock, s, before, receipt, n, order, i);
      RecordedCost(t.stock, q);
      var m := RecordTakes(t.stock, q, 0);
      moves := [m];
      var u := TakeLine(t, receipt, n, order, i).value;
      TookAnyPrices(t.stock, Record(t.stock, q).value.stock, u.stock, moves, u.base - t.base, 0, 0);
    }
  }

  lemma {:induction false} TakeLinesTake(s: Stock, receipt: nat, n: nat, order: Order, i: ReceiptInput, u: Taken)
    returns (moves: seq<Movement>)
    requires n <= |order.lines| && StockOk(s) && KeyUnspent(s, receipt)
    requires forall k <- i.quantities :: 0 < i.quantities[k]
    requires TakeLines(s, receipt, n, order, i) == Ok(u)
    ensures TookLines(s, u, moves, receipt, n)
    decreases n
  {
    if n == 0 {
      moves := [];
      TookNoLines(s, receipt);
    } else {
      var t := LastLineTaken(s, receipt, n, order, i);
      var before := TakeLinesTake(s, receipt, n - 1, order, i, t);
      moves := TakeOneMore(s, t, before, receipt, n - 1, order, i, u);
    }
  }

  ghost predicate TookLines(s: Stock, t: Taken, moves: seq<Movement>, receipt: nat, n: nat) {
    0 <= t.base && Took(s, t.stock, moves, t.base, 0, 0) && AllReceivedBy(moves, receipt, n)
  }

  lemma TookNoLines(s: Stock, receipt: nat)
    requires StockOk(s)
    ensures TookLines(s, Taken(s, [], 0), [], receipt, 0)
  {
    TookNothing(s, 0);
  }

  lemma TakeOneMore(s: Stock, t: Taken, before: seq<Movement>, receipt: nat, n: nat, order: Order, i: ReceiptInput,
      u: Taken)
    returns (moves: seq<Movement>)
    requires n < |order.lines| && KeyUnspent(s, receipt)
    requires TookLines(s, t, before, receipt, n)
    requires n in i.quantities ==> 0 < i.quantities[n]
    requires TakeLine(t, receipt, n, order, i) == Ok(u)
    ensures TookLines(s, u, moves, receipt, n + 1)
  {
    var more := TakeLineTakes(t, s, before, receipt, n, order, i);
    TookMore(s, t.stock, u.stock, before, t.base, more, u.base - t.base, 0, 0, 0);
    moves := before + more;
    forall m <- moves ensures ReceivedBy(m, receipt, n + 1) {
      assert m in before ==> ReceivedBy(m, receipt, n);
    }
  }

  lemma ReceiptTies(b: Books, i: ReceiptInput, now: int)
    requires Ties(b) && ReceiveNew(ProcurementBooks(b.purchases, b.stock, b.ledger), i, now).Ok?
    requires forall k <- i.quantities :: 0 < i.quantities[k]
    ensures var r := ReceiveNew(ProcurementBooks(b.purchases, b.stock, b.ledger), i, now).value;
            Ties(Books(r.ledger, r.stock, b.register, r.purchases))
  {
    var r := ReceiveNew(ProcurementBooks(b.purchases, b.stock, b.ledger), i, now).value;
    var c := Books(r.ledger, r.stock, b.register, r.purchases);
    var order, receipt := b.purchases.orders[i.order], |b.purchases.receipts|;
    forall m <- b.stock.movements
      ensures m.fingerprint.Some? && m.fingerprint.value.ReceiptOf?
        ==> m.idempotencyKey.Some? && m.idempotencyKey.value.ReceiptKey? && m.idempotencyKey.value.receipt < receipt
    {
      assert OriginOk(m, b.register, receipt);
    }
    var taken := TakeLines(b.stock, receipt, |order.lines|, order, i).value;
    var moves := TakeLinesTake(b.stock, receipt, |order.lines|, order, i, taken);
    var base := taken.base;
    var date := if i.receivedAt.Some? then i.receivedAt.value else now;
    var more := ReceiptEntry(b.ledger, receipt, date, base);
    forall m <- moves ensures OriginOk(m, c.register, |c.purchases.receipts|) {
      assert ReceivedBy(m, receipt, |order.lines|);
    }
    StockMoved(b, c, moves, more, base);
  }

  lemma ReceiptEntry(l: Ledger, receipt: nat, date: int, base: int) returns (more: seq<Entry>)
    requires PostReceipt(l, receipt, date, base).Ok? && 0 <= base
    ensures PostReceipt(l, receipt, date, base).value == l.(entries := l.entries + more)
    ensures Balance(more, Account.Inventory) == base && Foreign(more)
  {
    if base == 0 {
      more := [];
      assert l.entries + [] == l.entries;
    } else {
      var e := Entry(date, GoodsReceiptSource, ReceiptId(receipt),
          [Debit(Account.Inventory, base), Credit(Grni, base)]);
      PostedOne(l, e, Account.Inventory);
      NetOfPair(Account.Inventory, Grni, base, Account.Inventory);
      more := [e];
    }
  }

  // ----- Every step keeps the tie-out -----

  predicate RegisterKept(g: Register, h: Register) {
    && StatusAdvances(g, h)
    && forall id <- h.invoices :: id in g.invoices && h.invoices[id].lines == g.invoices[id].lines
  }

  lemma PaymentKeepsRegister(g: Register, p: Payment)
    requires p.invoice in g.invoices && g.invoices[p.invoice].status in {Issued, Partial}
    ensures RegisterKept(g, WithPayment(g, p))
  {
  }

  lemma {:induction false} AllocationsKeepRegister(g: Register, bankLine: nat, line: BankLine,
      allocations: seq<Allocation>)
    requires AllocateAll(g, bankLine, line, allocations).Ok?
    ensures RegisterKept(g, AllocateAll(g, bankLine, line, allocations).value.register)
  {
    if allocations != [] {
      var n := |allocations| - 1;
      AllocationsKeepRegister(g, bankLine, line, allocations[..n]);
    }
  }

  /** A two-line entry between accounts other than Inventory. */
  lemma HarmlessPair(date: int, sourceType: SourceType, id: RecordId, debit: Account, credit: Account, cents: int)
    requires sourceType != InvoiceSource && debit != credit
    requires debit != Account.Inventory && credit != Account.Inventory
    ensures Harmless([Entry(date, sourceType, id, [Debit(debit, cents), Credit(credit, cents)])])
  {
    NetOfPair(debit, credit, cents, Account.Inventory);
  }

  lemma RegisterStepTies(b: Books, c: Books, more: seq<Entry>)
    requires Ties(b) && c.stock == b.stock && c.purchases == b.purchases
    requires c.ledger.entries == b.ledger.entries + more && Harmless(more)
    requires RegisterKept(b.register, c.register)
    ensures Ties(c)
  {
    forall id <- c.register.invoices, line <- c.register.invoices[id].lines ensures 0 < line.quantity {
      assert line in b.register.invoices[id].lines;
    }
    StockUntouched(b, c, more);
  }

  lemma PayEntry(g: Register, l: Ledger, i: PaymentInput, now: int) returns (e: Entry)
    requires Pay(g, l, i, now).Ok? && FindPayment(g.payments, i.key).None?
    ensures var r := Pay(g, l, i, now).value; RegisterKept(g, r.0) && r.1.entries == l.entries + [e]
    ensures Harmless([e])
  {
    var date := if i.date.Some? then i.date.value else now;
    var bank := if i.bank.Some? then i.bank.value else DEFAULT_BANK;
    e := Entry(date, PaymentSource, InvoiceId(i.invoice), ReceiptLines(bank, g.invoices[i.invoice], i.amount));
    PaymentKeepsRegister(g, Payment(i.invoice, i.amount, date, Direct, i.key, PrintOf(i)));
    HarmlessPair(date, PaymentSource, InvoiceId(i.invoice), Bank(bank), Receivable,
        MulRate(i.amount, g.invoices[i.invoice].rate));
  }

  lemma PayTies(b: Books, i: PaymentInput, now: int)
    requires Ties(b) && Pay(b.register, b.ledger, i, now).Ok?
    ensures var r := Pay(b.register, b.ledger, i, now).value; Ties(b.(register := r.0, ledger := r.1))
  {
    var r := Pay(b.register, b.ledger, i, now).value;
    if FindPayment(b.register.payments, i.key).Some? {
      assert b.(register := r.0, ledger := r.1) == b;
    } else {
      var e := PayEntry(b.register, b.ledger, i, now);
      RegisterStepTies(b, b.(register := r.0, ledger := r.1), [e]);
    }
  }

  lemma MatchEntry(g: Register, l: Ledger, bankLine: nat, invoice: nat) returns (e: Entry)
    requires Match(g, l, bankLine, invoice).Ok?
    ensures var r := Match(g, l, bankLine, invoice).value; RegisterKept(g, r.0) && r.1.entries == l.entries + [e]
    ensures Harmless([e])
  {
    var r := Match(g, l, bankLine, invoice).value;
    var line := g.bankLines[bankLine];
    e := r.1.entries[|l.entries|];
    PaymentKeepsRegister(g, r.0.payments[|g.payments|]);
    HarmlessPair(line.date, PaymentSource, InvoiceId(invoice), Bank(line.bank), Receivable,
        MulRate(line.amount, g.invoices[invoice].rate));
  }

  lemma MatchTies(b: Books, bankLine: nat, invoice: nat)
    requires Ties(b) && Match(b.register, b.ledger, bankLine, invoice).Ok?
    ensures var r := Match(b.register, b.ledger, bankLine, invoice).value; Ties(b.(register := r.0, ledger := r.1))
  {
    var r := Match(b.register, b.ledger, bankLine, invoice).value;
    var e := MatchEntry(b.register, b.ledger, bankLine, invoice);
    RegisterStepTies(b, b.(register := r.0, ledger := r.1), [e]);
  }

  lemma SplitTies(b: Books, bankLine: nat, allocations: seq<Allocation>)
    requires Ties(b) && SplitMatch(b.register, b.ledger, bankLine, allocations).Ok?
    ensures var r := SplitMatch(b.register, b.ledger, bankLine,
        allocations).value; Ties(b.(register := r.0, ledger := r.1))
  {
    var r := SplitMatch(b.register, b.ledger, bankLine, allocations).value;
    var line := b.register.bankLines[bankLine];
    AllocationsKeepRegister(b.register, bankLine, line, allocations);
    var base := AllocateAll(b.register, bankLine, line, allocations).value.base;
    HarmlessPair(line.date, BankMatchSource, BankLineId(bankLine), Bank(line.bank), Receivable, base);
    RegisterStepTies(b, b.(register := r.0, ledger := r.1), [r.1.entries[|b.ledger.entries|]]);
  }

  lemma DraftTies(b: Books, id: nat, currency: Currency, rate: int, lines: seq<DraftLine>)
    requires Ties(b) && SaveDraft(b.register, b.stock, id, currency, rate, lines).Ok?
    ensures Ties(b.(register := SaveDraft(b.register, b.stock, id, currency, rate, lines).value))
  {
    var c := b.(register := SaveDraft(b.register, b.stock, id, currency, rate, lines).value);
    assert b.ledger.entries + [] == b.ledger.entries;
    forall k <- c.register.invoices, line <- c.register.invoices[k].lines ensures 0 < line.quantity {
      if k != id { assert line in b.register.invoices[k].lines; }
    }
    StockUntouched(b, c, []);
  }

  lemma BillTies(b: Books, bill: nat, key: string, now: int)
    requires Ties(b) && PostBill(b.purchases, b.ledger, bill, key, now).Ok?
    ensures var r := PostBill(b.purchases, b.ledger, bill, key, now).value; Ties(b.(purchases := r.0, ledger := r.1))
  {
    var r := PostBill(b.purchases, b.ledger, bill, key, now).value;
    var c := b.(purchases := r.0, ledger := r.1);
    if FindPosting(b.purchases.bills, key).Some? {
      assert c == b;
    } else {
      var e := BillEntry(b.purchases, b.ledger, bill, key, now);
      StockUntouched(b, c, [e]);
    }
  }

  lemma BillEntry(p: Purchases, l: Ledger, bill: nat, key: string, now: int) returns (e: Entry)
    requires PostBillNew(p, l, bill, key, now).Ok?
    ensures PostBillNew(p, l, bill, key, now).value.1.entries == l.entries + [e]
    ensures PostBillNew(p, l, bill, key, now).value.0.receipts == p.receipts
    ensures Harmless([e])
  {
    var b, po := p.bills[bill], p.orders[p.bills[bill].order];
    e := PostBillNew(p, l, bill, key, now).value.1.entries[|l.entries|];
    BillJournalHarmless(NetBase(b.lines, po.rate), NetBase(b.lines, b.rate), TaxBase(b.lines, b.rate));
  }

  lemma BillJournalHarmless(grniBase: int, netBase: int, vatBase: int)
    ensures Net(BillJournal(grniBase, netBase, vatBase), Account.Inventory) == 0
  {
    NetOfUntouched(BillJournal(grniBase, netBase, vatBase), Account.Inventory);
  }

  lemma OtherTies(b: Books, entry: Entry)
    requires Ties(b) && IsOther(entry) && Post(b.ledger, entry).Ok?
    ensures Ties(b.(ledger := Post(b.ledger, entry).value))
  {
    NetOfUntouched(entry.lines, Account.Inventory);
    StockUntouched(b, b.(ledger := Post(b.ledger, entry).value), [entry]);
  }

  /** A step that changes neither stock, entries nor invoices. */
  lemma QuietTies(b: Books, c: Books)
    requires Ties(b) && QuietChange(b, c)
    ensures Ties(c)
  {
    assert b.ledger.entries + [] == b.ledger.entries;
    StockUntouched(b, c, []);
  }

  lemma StepTies(b: Books, op: Operation, now: int)
    requires Ties(b) && Step(b, op, now).Ok?
    ensures Ties(Step(b, op, now).value)
  {
    match op
    case OpenStock(key, quantity, unitCost) => OpeningTies(b, key, quantity, unitCost, now);
    case ImportStock(rows, batch) => ImportTies(b, rows, batch, now);
    case AdjustStock(key, delta, note, idem) => AdjustmentTies(b, key, delta, note, idem, now);
    case IssueInvoice(id) => IssueTies(b, id, now);
    case CancelInvoice(id, reason) => VoidTies(b, id, reason, now);
    case ReceiveGoods(i) => ReceiveStepTies(b, i, now);
    case _ => StocklessTies(b, op, now);
  }

  /** The steps that move no stock. */
  lemma StocklessTies(b: Books, op: Operation, now: int)
    requires Ties(b) && Step(b, op, now).Ok?
    requires !(op.OpenStock? || op.ImportStock? || op.AdjustStock? || op.IssueInvoice? || op.CancelInvoice?
        || op.ReceiveGoods?)
    ensures Ties(Step(b, op, now).value)
  {
    match op
    case DraftInvoice(id, currency, rate, lines) => DraftTies(b, id, currency, rate, lines);
    case RecordPayment(payment) => PayTies(b, payment, now);
    case MatchBankLine(bankLine, invoice) => MatchTies(b, bankLine, invoice);
    case SplitBankLine(bankLine, allocations) => SplitTies(b, bankLine, allocations);
    case PostSupplierBill(bill, key) => BillTies(b, bill, key, now);
    case PostOther(entry) => OtherTies(b, entry);
    case _ => QuietStepTies(b, op, now);
  }

  /** Steps that touch neither stock, entries nor invoices. */
  predicate IsQuiet(op: Operation) {
    op.AddBankLine? || op.ApproveOrder? || op.DraftBill? || op.CloseMonth? || op.ReopenMonth?
  }

  predicate QuietChange(b: Books, c: Books) {
    && c.stock == b.stock && c.ledger.entries == b.ledger.entries
    && c.register.invoices == b.register.invoices && |b.purchases.receipts| <= |c.purchases.receipts|
  }

  lemma QuietSteps(b: Books, op: Operation, now: int)
    requires Step(b, op, now).Ok? && IsQuiet(op)
    ensures QuietChange(b, Step(b, op, now).value)
  {
  }

  lemma QuietStepTies(b: Books, op: Operation, now: int)
    requires Ties(b) && Step(b, op, now).Ok? && IsQuiet(op)
    ensures Ties(Step(b, op, now).value)
  {
    QuietSteps(b, op, now);
    QuietTies(b, Step(b, op, now).value);
  }

  lemma ReceiveStepTies(b: Books, i: ReceiptInput, now: int)
    requires Ties(b) && Receive(ProcurementBooks(b.purchases, b.stock, b.ledger), i, now).Ok?
    ensures var r := Receive(ProcurementBooks(b.purchases, b.stock, b.ledger), i, now).value;
            Ties(Books(r.ledger, r.stock, b.register, r.purchases))
  {
    if FindReceipt(b.purchases.receipts, i.key).None? {
      ReceiptTies(b, i, now);
    }
  }
}
