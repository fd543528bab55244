/** Bills dated before a cut-off and posted on or after it: any such posting parts the GRNI report
    from its account, and one can be reached from empty books. */
module LateBills {
  import opened Wrappers
  import opened Money
  import opened Accounting
  import opened Inventory
  import opened Invoicing
  import opened Procurement
  import opened Books
  import opened GrniReport

  lemma PostedBill(b: Books, id: nat, key: string, now: int)
    requires Step(b, PostSupplierBill(id, key), now).Ok? && FindPosting(b.purchases.bills, key).None?
    ensures var c := Step(b, PostSupplierBill(id, key), now).value;
            && id < |b.purchases.bills| && id < |c.purchases.bills|
            && c.purchases.bills[id] == b.purchases.bills[id].(status := Posted, postingKey := Some(key),
                postedAt := now)
  {
  }

  /** Posting a bill that is dated earlier leaves the report as at every date in between, and as at
      the time of posting itself, above the account. */
  lemma PostingParts(b: Books, id: nat, key: string, now: int, cutoff: int)
    requires Reachable(b) && Step(b, PostSupplierBill(id, key), now).Ok? && FindPosting(b.purchases.bills, key).None?
    ensures var c := Step(b, PostSupplierBill(id, key), now).value;
            && id < |c.purchases.bills|
            && (c.purchases.bills[id].billDate < cutoff <= now
                ==> Reported(c.purchases, cutoff) > OnAccount(c.ledger, cutoff))
  {
    var c := Step(b, PostSupplierBill(id, key), now).value;
    PostedBill(b, id, key, now);
    ReachesOn(b, PostSupplierBill(id, key), now);
    ReportMissesLateBills(c, cutoff);
    if c.purchases.bills[id].billDate < cutoff <= now {
      assert c.purchases.bills[id] in c.purchases.bills && IsLate(c.purchases.bills[id], cutoff);
    }
  }

  // ----- A run that gets there -----

  const UNIT := Key(1, 1)

  const LINE := OrderLine(UNIT, 1_000, 100)

  const SHELF := Stock(map[1 := Product(true, 0)], {1}, map[], map[], [], map[])

  const START := Books(
    Ledger([Account.Inventory, Grni, Account.Payable], {}, map[], []), SHELF,
    Register(None, map[], [], map[]), Purchases(map[], [], []))

  const ARRIVAL := ReceiptInput(1, "receipt", map[0 := 1_000], Some(5), "")

  const APPROVE := ApproveOrder(1, 7, Usd, RATE_ONE, [LINE])

  const DRAFT := DraftBill(0, 1, 1, 10, RATE_ONE, [BillInput(0, 1_000, 100, 0)])

  const POST := PostSupplierBill(0, "bill")

  function Ordering(): Books {
    START.(purchases := Purchases(map[1 := Order(7, Usd, RATE_ONE, Ordered, [LINE])], [], []))
  }

  lemma Approved(now: int)
    ensures Step(START, APPROVE, now) == Ok(Ordering())
  {
  }

  lemma ShelfTakes(q: Request)
    requires q.movement.key == UNIT && q.movement.delta == 1_000 && q.totalCost == Some(100)
    requires !q.requireZeroCurrent && !q.requireNoHistory
    ensures Record(SHELF, q).Ok?
    ensures 1 in Record(SHELF, q).value.stock.products
  {
    assert Replay([], map[], UNIT) == Ok(Replayed(map[], Layer(0, 0)));
  }

  predicate ReadyToBill(p: Purchases, l: Ledger) {
    && p == Purchases(map[1 := Order(7, Usd, RATE_ONE, Received, [LINE])],
                      [Receipt(1, 5, "receipt", ReceiptPrint(ARRIVAL), [ReceiptLine(0, 1_000, 100)])], [])
    && l.chart == START.ledger.chart && l.inactive == {} && l.periods == map[]
  }

  lemma StepReceives(b: Books, i: ReceiptInput, now: int)
    requires Receive(ProcurementBooks(b.purchases, b.stock, b.ledger), i, now).Ok?
    ensures var r, c := Receive(ProcurementBooks(b.purchases, b.stock, b.ledger), i, now).value,
        Step(b, ReceiveGoods(i), now);
            c.Ok? && c.value.purchases == r.purchases && c.value.ledger == r.ledger
  {
  }

  lemma Arrived(b: Books, now: int)
    requires b == Ordering()
    ensures var r := Step(b, ReceiveGoods(ARRIVAL), now);
            r.Ok? && ReadyToBill(r.value.purchases, r.value.ledger)
  {
    ReceivedNew(ProcurementBooks(b.purchases, b.stock, b.ledger), ARRIVAL, now);
    StepReceives(b, ARRIVAL, now);
  }

  const ORDERED := Order(7, Usd, RATE_ONE, Ordered, [LINE])

  lemma OneLineTaken()
    ensures var taken := TakeLines(SHELF, 0, 1, ORDERED, ARRIVAL);
            taken.Ok? && taken.value.lines == [ReceiptLine(0, 1_000, 100)] && taken.value.base == 100
  {
    assert MulQuantity(100, 1_000) == 100 && MulRate(100, RATE_ONE) == 100;
    ShelfTakes(TakeRequest(0, 0, ORDERED, ARRIVAL));
    assert TakeLines(SHELF, 0, 0, ORDERED, ARRIVAL) == Ok(Taken(SHELF, [], 0));
    assert TakeLines(SHELF, 0, 1, ORDERED, ARRIVAL) == TakeLine(Taken(SHELF, [], 0), 0, 0, ORDERED, ARRIVAL);
  }

  lemma ReceiptPosts()
    ensures PostReceipt(START.ledger, 0, 5, 100).Ok?
  {
    NetOfPair(Account.Inventory, Grni, 100, Grni);
  }

  lemma ReceivedNew(b: ProcurementBooks, i: ReceiptInput, now: int)
    requires i == ARRIVAL && b == ProcurementBooks(Ordering().purchases, SHELF, START.ledger)
    ensures var r := Receive(b, i, now);
            r.Ok? && ReadyToBill(r.value.purchases, r.value.ledger)
  {
    OneLineTaken();
    ReceiptPosts();
    ReceivedInFull();
  }

  lemma ReceivedInFull()
    ensures var receipts := [Receipt(1, 5, "receipt", ReceiptPrint(ARRIVAL), [ReceiptLine(0, 1_000, 100)])];
            ReceivedUnits(receipts, 1, 0) == 1_000 && ReceivedUnits([], 1, 0) == 0
  {
    var lines := [ReceiptLine(0, 1_000, 100)];
    var receipts := [Receipt(1, 5, "receipt", ReceiptPrint(ARRIVAL), lines)];
    assert lines[..0] == [] && receipts[..0] == [];
    assert LineReceived(lines, 0) == 1_000;
  }

  const BILLED := Bill(1, 7, Usd, 1, 10, RATE_ONE, [BillLine(0, 1_000, 100, 100, 0)], BillDraft, None, 0)

  lemma Drafted(b: Books, now: int)
    requires ReadyToBill(b.purchases, b.ledger)
    ensures Step(b, DRAFT, now) == Ok(b.(purchases := b.purchases.(bills := [BILLED])))
  {
    assert MulQuantity(100, 1_000) == 100 && MulRate(100, 0) == 0;
    var inputs := [BillInput(0, 1_000, 100, 0)];
    assert inputs[0] in inputs;
    var lines := seq(|inputs|, k requires 0 <= k < |inputs| => BillLineOf(inputs[k]));
    assert lines == BILLED.lines;
    assert b.purchases.bills[..0] + [BILLED] + [] == [BILLED];
  }

  lemma Billable(b: Books)
    requires b.purchases.bills == [BILLED] && ReadyToBill(b.purchases.(bills := []), b.ledger)
    ensures Step(b, POST, 20).Ok? && FindPosting(b.purchases.bills, "bill").None?
  {
    var p := b.purchases;
    ReceivedInFull();
    assert p.receipts[0] in p.receipts;
    assert [BILLED][..0] == [] && BILLED.lines[..0] == [];
    assert BilledUnits([BILLED], 1, 0) == 0;
    assert Matches(p, 0);
    assert MulRate(100, RATE_ONE) == 100 && MulRate(0, RATE_ONE) == 0;
    assert NetBase(BILLED.lines, RATE_ONE) == 100 && TaxBase(BILLED.lines, RATE_ONE) == 0;
    assert BillJournal(100, 100, 0) == [Debit(Grni, 100), Credit(Account.Payable, 100)];
    NetOfPair(Grni, Account.Payable, 100, Grni);
  }

  /** From empty books one can order, receive, bill and post late, and the report as at a date
      between bill and posting then differs from the account. */
  lemma LateBillIsReached()
    ensures exists b: Books, cutoff :: Reachable(b) && Reported(b.purchases, cutoff) != OnAccount(b.ledger, cutoff)
              && exists bill <- b.purchases.bills :: IsLate(bill, cutoff)
  {
    OpenedIsReachable(START);
    Approved(1);
    ReachesOn(START, APPROVE, 1);
    Arrived(Ordering(), 2);
    ReachesOn(Ordering(), ReceiveGoods(ARRIVAL), 2);
    var received := Step(Ordering(), ReceiveGoods(ARRIVAL), 2).value;
    Drafted(received, 3);
    ReachesOn(received, DRAFT, 3);
    var drafted := Step(received, DRAFT, 3).value;
    Billable(drafted);
    PostingParts(drafted, 0, "bill", 20, 15);
    PostedBill(drafted, 0, "bill", 20);
    ReachesOn(drafted, POST, 20);
    var late := Step(drafted, POST, 20).value;
    assert late.purchases.bills[0] in late.purchases.bills && IsLate(late.purchases.bills[0], 15);
    assert Reported(late.purchases, 15) != OnAccount(late.ledger, 15);
  }
}
