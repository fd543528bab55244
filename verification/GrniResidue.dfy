/** What receipts and bills leave in the goods-received-not-invoiced account, order line by order
    line. Each receipt line and each bill line rounds into base currency on its own, so a line that
    is billed for all it received leaves a residue, bounded by the number of those roundings. */
module GrniResidue {
  import opened Wrappers
  import opened Money
  import opened Accounting
  import opened Procurement
  import opened Books
  import opened PurchaseControl
  import opened PurchaseRuns
  import opened SetSums

  // ----- Portions of an order line -----

  datatype Portion = Portion(units: int, base: int, count: nat)

  function Plus(a: Portion, b: Portion): Portion { Portion(a.units + b.units, a.base + b.base, a.count + b.count) }

  /** Units, base value and number of the receipt lines of one order line. */
  function LineTaken(lines: seq<ReceiptLine>, n: nat, rate: int): Portion {
    if lines == [] then Portion(0, 0, 0)
    else
      var last := lines[|lines| - 1];
      Plus(LineTaken(lines[..|lines| - 1], n, rate),
           if last.orderLine == n then Portion(last.quantity, MulRate(last.total, rate), 1) else Portion(0, 0, 0))
  }

  function TakenFor(receipts: seq<Receipt>, id: nat, n: nat, rate: int): Portion {
    if receipts == [] then Portion(0, 0, 0)
    else
      var last := receipts[|receipts| - 1];
      Plus(TakenFor(receipts[..|receipts| - 1], id, n, rate),
           if last.order == id then LineTaken(last.lines, n, rate) else Portion(0, 0, 0))
  }

  function LineCleared(lines: seq<BillLine>, n: nat, rate: int): Portion {
    if lines == [] then Portion(0, 0, 0)
    else
      var last := lines[|lines| - 1];
      Plus(LineCleared(lines[..|lines| - 1], n, rate),
           if last.orderLine == n then Portion(last.quantity, MulRate(last.net, rate), 1) else Portion(0, 0, 0))
  }

  function ClearedFor(bills: seq<Bill>, id: nat, n: nat, rate: int): Portion {
    if bills == [] then Portion(0, 0, 0)
    else
      var last := bills[|bills| - 1];
      Plus(ClearedFor(bills[..|bills| - 1], id, n, rate),
           if last.status == Posted && last.order == id then LineCleared(last.lines, n, rate) else Portion(0, 0, 0))
  }

  /** The base value of so many units at a unit cost and rate, in millionths of millionths. */
  function Exact(unitCost: int, units: int, rate: int): int { unitCost * (units * 1_000) * rate }

  predicate Near(p: Portion, unitCost: int, rate: int) {
    2 * Abs(p.base * RATE_ONE * RATE_ONE - Exact(unitCost, p.units, rate)) <= p.count * RATE_ONE * (RATE_ONE + rate)
  }

  lemma NearOne(unitCost: int, quantity: int, rate: int)
    requires 0 <= rate
    ensures Near(Portion(quantity, MulRate(MulQuantity(unitCost, quantity), rate), 1), unitCost, rate)
  {
    var total := MulQuantity(unitCost, quantity);
    MulRateNearest(unitCost, quantity * 1_000);
    MulRateNearest(total, rate);
    TwoRoundings(unitCost * (quantity * 1_000), total, MulRate(total, rate), rate);
  }

  /** Rounding to cents and then to base cents: the first error is scaled by the rate. */
  lemma TwoRoundings(exact: int, total: int, base: int, rate: int)
    requires 0 <= rate && 2 * Abs(total * RATE_ONE - exact) <= RATE_ONE
        && 2 * Abs(base * RATE_ONE - total * rate) <= RATE_ONE
    ensures 2 * Abs(base * RATE_ONE * RATE_ONE - exact * rate) <= RATE_ONE * (RATE_ONE + rate)
  {
    var d, e := total * RATE_ONE - exact, base * RATE_ONE - total * rate;
    Scaled(d, rate);
    assert d * rate == (total * rate) * RATE_ONE - exact * rate by {
      assert d * rate == (total * RATE_ONE) * rate - exact * rate;
      assert (total * RATE_ONE) * rate == (total * rate) * RATE_ONE;
    }
    assert base * RATE_ONE * RATE_ONE - exact * rate == e * RATE_ONE + d * rate;
  }

  lemma Scaled(d: int, rate: int)
    requires 0 <= rate && 2 * Abs(d) <= RATE_ONE
    ensures 2 * Abs(d * rate) <= RATE_ONE * rate
  {
    MulMonotone(2 * d, RATE_ONE, rate);
    MulMonotone(-2 * d, RATE_ONE, rate);
  }

  lemma NearPlus(a: Portion, b: Portion, unitCost: int, rate: int)
    requires Near(a, unitCost, rate) && Near(b, unitCost, rate)
    ensures Near(Plus(a, b), unitCost, rate)
  {
    var x, y := unitCost * (a.units * 1_000), unitCost * (b.units * 1_000);
    assert unitCost * ((a.units + b.units) * 1_000) == x + y by {
      assert (a.units + b.units) * 1_000 == a.units * 1_000 + b.units * 1_000;
    }
    assert (x + y) * rate == x * rate + y * rate;
    var k := RATE_ONE * (RATE_ONE + rate);
    assert (a.count + b.count) * k == a.count * k + b.count * k;
    assert (a.count + b.count) * RATE_ONE * (RATE_ONE + rate) == (a.count + b.count) * k;
    assert a.count * RATE_ONE * (RATE_ONE + rate) == a.count * k
        && b.count * RATE_ONE * (RATE_ONE + rate) == b.count * k;
  }

  lemma {:induction false} LineTakenNear(lines: seq<ReceiptLine>, n: nat, unitCost: int, rate: int)
    requires 0 <= rate && forall line <- lines ::
        line.orderLine == n ==> line.total == MulQuantity(unitCost, line.quantity)
    ensures Near(LineTaken(lines, n, rate), unitCost, rate)
    ensures LineTaken(lines, n, rate).units == LineReceived(lines, n)
  {
    if lines != [] {
      var last := lines[|lines| - 1];
      assert last in lines;
      LineTakenNear(lines[..|lines| - 1], n, unitCost, rate);
      if last.orderLine == n {
        NearOne(unitCost, last.quantity, rate);
        NearPlus(LineTaken(lines[..|lines| - 1], n, rate), Portion(last.quantity, MulRate(last.total, rate), 1),
            unitCost, rate);
      }
    }
  }

  lemma {:induction false} LineClearedNear(lines: seq<BillLine>, n: nat, unitCost: int, rate: int)
    requires 0 <= rate && forall line <- lines ::
        line.orderLine == n ==> line.net == MulQuantity(unitCost, line.quantity)
    ensures Near(LineCleared(lines, n, rate), unitCost, rate)
    ensures LineCleared(lines, n, rate).units == LineBilled(lines, n)
  {
    if lines != [] {
      var last := lines[|lines| - 1];
      assert last in lines;
      LineClearedNear(lines[..|lines| - 1], n, unitCost, rate);
      if last.orderLine == n {
        NearOne(unitCost, last.quantity, rate);
        NearPlus(LineCleared(lines[..|lines| - 1], n, rate), Portion(last.quantity, MulRate(last.net, rate), 1),
            unitCost, rate);
      }
    }
  }

  lemma {:induction false} TakenNear(receipts: seq<Receipt>, orders: map<nat, Order>, id: nat, n: nat)
    requires id in orders && n < |orders[id].lines| && 0 <= orders[id].rate
        && forall r <- receipts :: ReceiptOk(r, orders)
    ensures Near(TakenFor(receipts, id, n, orders[id].rate), orders[id].lines[n].unitCost, orders[id].rate)
    ensures TakenFor(receipts, id, n, orders[id].rate).units == ReceivedUnits(receipts, id, n)
  {
    if receipts != [] {
      var last, order := receipts[|receipts| - 1], orders[id];
      assert last in receipts;
      assert ReceiptOk(last, orders);
      TakenNear(receipts[..|receipts| - 1], orders, id, n);
      if last.order == id {
        LineTakenNear(last.lines, n, order.lines[n].unitCost, order.rate);
        NearPlus(TakenFor(receipts[..|receipts| - 1], id, n, order.rate), LineTaken(last.lines, n, order.rate),
                 order.lines[n].unitCost, order.rate);
      }
    }
  }

  lemma {:induction false} ClearedNear(bills: seq<Bill>, orders: map<nat, Order>, id: nat, n: nat)
    requires id in orders && n < |orders[id].lines| && 0 <= orders[id].rate && forall b <- bills :: BillOk(b, orders)
    ensures Near(ClearedFor(bills, id, n, orders[id].rate), orders[id].lines[n].unitCost, orders[id].rate)
    ensures ClearedFor(bills, id, n, orders[id].rate).units == BilledUnits(bills, id, n)
  {
    if bills != [] {
      var last, order := bills[|bills| - 1], orders[id];
      assert last in bills;
      assert BillOk(last, orders);
      ClearedNear(bills[..|bills| - 1], orders, id, n);
      if last.status == Posted && last.order == id {
        forall line <- last.lines ensures line.orderLine == n
            ==> line.net == MulQuantity(order.lines[n].unitCost, line.quantity) {
          assert BillLineOk(line, order, true);
        }
        LineClearedNear(last.lines, n, order.lines[n].unitCost, order.rate);
        NearPlus(ClearedFor(bills[..|bills| - 1], id, n, order.rate), LineCleared(last.lines, n, order.rate),
                 order.lines[n].unitCost, order.rate);
      }
    }
  }

  /** Bases differ by at most (a.count + b.count) (rate + 1) / 2 cents, the rate in units. */
  predicate WithinResidue(a: Portion, b: Portion, rate: int) {
    2 * Abs(a.base - b.base) * RATE_ONE <= (a.count + b.count) * (RATE_ONE + rate)
  }

  lemma Residue(a: Portion, b: Portion, unitCost: int, rate: int)
    requires Near(a, unitCost, rate) && Near(b, unitCost, rate) && a.units == b.units && 0 <= rate
    ensures WithinResidue(a, b, rate)
  {
    assert (a.count + b.count) * RATE_ONE * (RATE_ONE + rate)
        == a.count * RATE_ONE * (RATE_ONE + rate) + b.count * RATE_ONE * (RATE_ONE + rate);
    assert (a.count + b.count) * RATE_ONE * (RATE_ONE + rate) == ((a.count + b.count) * (RATE_ONE + rate)) * RATE_ONE;
    assert 2 * Abs(a.base - b.base) * RATE_ONE * RATE_ONE <= ((a.count + b.count) * (RATE_ONE + rate)) * RATE_ONE;
  }

  lemma LineResidue(receipts: seq<Receipt>, bills: seq<Bill>, orders: map<nat, Order>, id: nat, n: nat)
    requires id in orders && n < |orders[id].lines| && 0 <= orders[id].rate
    requires (forall r <- receipts :: ReceiptOk(r, orders)) && forall bill <- bills :: BillOk(bill, orders)
    requires BilledUnits(bills, id, n) == ReceivedUnits(receipts, id, n)
    ensures var rate := orders[id].rate;
            WithinResidue(TakenFor(receipts, id, n, rate), ClearedFor(bills, id, n, rate), rate)
  {
    TakenNear(receipts, orders, id, n);
    ClearedNear(bills, orders, id, n);
    var rate := orders[id].rate;
    Residue(TakenFor(receipts, id, n, rate), ClearedFor(bills, id, n, rate), orders[id].lines[n].unitCost, rate);
  }

  // ----- The account, order line by order line -----

  type LineOf = (nat, nat)

  function LinesOf(orders: map<nat, Order>): set<LineOf> {
    set id, n | id in orders && 0 <= n < |orders[id].lines| :: (id, n)
  }

  function Taken(receipts: seq<Receipt>, orders: map<nat, Order>): LineOf -> int {
    (k: LineOf) => TakenFor(receipts, k.0, k.1, OrderRate(orders, k.0)).base
  }

  function Cleared(bills: seq<Bill>, orders: map<nat, Order>): LineOf -> int {
    (k: LineOf) => ClearedFor(bills, k.0, k.1, OrderRate(orders, k.0)).base
  }

  function Left(receipts: seq<Receipt>, bills: seq<Bill>, orders: map<nat, Order>): LineOf -> int {
    (k: LineOf) => Taken(receipts, orders)(k) - Cleared(bills, orders)(k)
  }

  function ReceiptsBefore(receipts: seq<Receipt>, t: int): seq<Receipt> {
    if receipts == [] then []
    else
      var last := receipts[|receipts| - 1];
      ReceiptsBefore(receipts[..|receipts| - 1], t) + if last.receivedAt < t then [last] else []
  }

  function BillsBefore(bills: seq<Bill>, t: int): seq<Bill> {
    if bills == [] then []
    else
      var last := bills[|bills| - 1];
      BillsBefore(bills[..|bills| - 1], t) + if last.billDate < t then [last] else []
  }

  /** The lines of one receipt, each under its own order line. */
  function TakenOf(lines: seq<ReceiptLine>, order: nat, rate: int): LineOf -> int {
    (k: LineOf) => if k.0 == order then LineTaken(lines, k.1, rate).base else 0
  }

  function ClearedOf(lines: seq<BillLine>, order: nat, rate: int): LineOf -> int {
    (k: LineOf) => if k.0 == order then LineCleared(lines, k.1, rate).base else 0
  }

  function OneLine(order: nat, n: nat, base: int): LineOf -> int {
    (k: LineOf) => if k == (order, n) then base else 0
  }

  lemma {:induction false} TakenByLine(lines: seq<ReceiptLine>, orders: map<nat, Order>, order: nat, rate: int)
    requires order in orders && forall line <- lines :: line.orderLine < |orders[order].lines|
    ensures SumOver(LinesOf(orders), TakenOf(lines, order, rate)) == ReceiptBase(lines, rate)
  {
    var keys := LinesOf(orders);
    if lines == [] {
      SumOfZeros(keys, TakenOf(lines, order, rate));
    } else {
      var n := |lines| - 1;
      var last := lines[n];
      assert last in lines;
      TakenByLine(lines[..n], orders, order, rate);
      var one := OneLine(order, last.orderLine, MulRate(last.total, rate));
      SumAdds(keys, TakenOf(lines[..n], order, rate), one, TakenOf(lines, order, rate));
      SumOfOne(keys, one, (order, last.orderLine));
    }
  }

  lemma {:induction false} ClearedByLine(lines: seq<BillLine>, orders: map<nat, Order>, order: nat, rate: int)
    requires order in orders && forall line <- lines :: line.orderLine < |orders[order].lines|
    ensures SumOver(LinesOf(orders), ClearedOf(lines, order, rate)) == NetBase(lines, rate)
  {
    var keys := LinesOf(orders);
    if lines == [] {
      SumOfZeros(keys, ClearedOf(lines, order, rate));
    } else {
      var n := |lines| - 1;
      var last := lines[n];
      assert last in lines;
      ClearedByLine(lines[..n], orders, order, rate);
      var one := OneLine(order, last.orderLine, MulRate(last.net, rate));
      SumAdds(keys, ClearedOf(lines[..n], order, rate), one, ClearedOf(lines, order, rate));
      SumOfOne(keys, one, (order, last.orderLine));
    }
  }

  lemma OneReceiptMore(rs: seq<Receipt>, r: Receipt, id: nat, n: nat, rate: int)
    ensures TakenFor(rs + [r], id, n, rate).base
         == TakenFor(rs, id, n, rate).base + if r.order == id then LineTaken(r.lines, n, rate).base else 0
  {
    assert (rs + [r])[..|rs|] == rs;
  }

  lemma OneBillMore(bills: seq<Bill>, bill: Bill, id: nat, n: nat, rate: int)
    ensures ClearedFor(bills + [bill], id, n, rate).base
         == ClearedFor(bills, id, n, rate).base
            + if bill.status == Posted && bill.order == id then LineCleared(bill.lines, n, rate).base else 0
  {
    assert (bills + [bill])[..|bills|] == bills;
  }

  lemma {:induction false} ReceivedByLine(receipts: seq<Receipt>, orders: map<nat, Order>, t: int)
    requires forall r <- receipts :: ReceiptOk(r, orders)
    ensures ReceivedBase(receipts, orders, t) == SumOver(LinesOf(orders), Taken(ReceiptsBefore(receipts, t), orders))
  {
    var keys := LinesOf(orders);
    if receipts == [] {
      SumOfZeros(keys, Taken([], orders));
    } else {
      var last, earlier := receipts[|receipts| - 1], ReceiptsBefore(receipts[..|receipts| - 1], t);
      assert last in receipts;
      assert ReceiptOk(last, orders);
      ReceivedByLine(receipts[..|receipts| - 1], orders, t);
      if last.receivedAt < t {
        var rate := OrderRate(orders, last.order);
        forall k: LineOf ensures Taken(earlier + [last], orders)(k)
            == Taken(earlier, orders)(k) + TakenOf(last.lines, last.order, rate)(k) {
          OneReceiptMore(earlier, last, k.0, k.1, OrderRate(orders, k.0));
        }
        SumAdds(keys, Taken(earlier, orders), TakenOf(last.lines, last.order, rate), Taken(earlier + [last], orders));
        TakenByLine(last.lines, orders, last.order, rate);
      } else {
        assert earlier + [] == earlier;
      }
    }
  }

  lemma {:induction false} BilledByLine(bills: seq<Bill>, orders: map<nat, Order>, t: int)
    requires forall bill <- bills :: BillOk(bill, orders)
    ensures BilledBase(bills, orders, t, None) == SumOver(LinesOf(orders), Cleared(BillsBefore(bills, t), orders))
  {
    var keys := LinesOf(orders);
    if bills == [] {
      SumOfZeros(keys, Cleared([], orders));
    } else {
      var last, earlier := bills[|bills| - 1], BillsBefore(bills[..|bills| - 1], t);
      assert last in bills;
      assert BillOk(last, orders);
      BilledByLine(bills[..|bills| - 1], orders, t);
      if last.billDate < t {
        BillJoins(earlier, last, orders);
      } else {
        assert earlier + [] == earlier;
      }
    }
  }

  lemma BillJoins(earlier: seq<Bill>, last: Bill, orders: map<nat, Order>)
    requires BillOk(last, orders)
    ensures SumOver(LinesOf(orders), Cleared(earlier + [last], orders))
         == SumOver(LinesOf(orders), Cleared(earlier, orders))
            + if last.status == Posted then NetBase(last.lines, OrderRate(orders, last.order)) else 0
  {
    var keys, rate := LinesOf(orders), OrderRate(orders, last.order);
    var lines := if last.status == Posted then last.lines else [];
    forall line <- lines ensures line.orderLine < |orders[last.order].lines| {
      assert BillLineOk(line, orders[last.order], last.status == Posted);
    }
    forall k: LineOf ensures Cleared(earlier + [last], orders)(k)
        == Cleared(earlier, orders)(k) + ClearedOf(lines, last.order, rate)(k) {
      OneBillMore(earlier, last, k.0, k.1, OrderRate(orders, k.0));
    }
    SumAdds(keys, Cleared(earlier, orders), ClearedOf(lines, last.order, rate), Cleared(earlier + [last], orders));
    ClearedByLine(lines, orders, last.order, rate);
  }

  /** What the receipts and bills of all order lines have put on the account. */
  ghost function LinesShare(receipts: seq<Receipt>, bills: seq<Bill>, orders: map<nat, Order>): int {
    SumOver(LinesOf(orders), Left(receipts, bills, orders))
  }

  /** After any run and at any cut-off date, the credit balance of the GRNI account is the sum over
      all order lines of what their receipts put there less what their bills took. */
  lemma GrniByOrderLine(b: Books, cutoff: int)
    requires Reachable(b)
    ensures var p := b.purchases;
            -Balance(Before(b.ledger.entries, cutoff), Grni)
            == LinesShare(ReceiptsBefore(p.receipts, cutoff), BillsBefore(p.bills, cutoff), p.orders)
  {
    GrniTiesOut(b, cutoff);
    ReachableProcures(b);
    BasesByOrderLine(b.purchases, cutoff);
  }

  lemma BasesByOrderLine(p: Purchases, cutoff: int)
    requires PurchasesOk(p)
    ensures ReceivedBase(p.receipts, p.orders, cutoff) - BilledBase(p.bills, p.orders, cutoff, None)
         == LinesShare(ReceiptsBefore(p.receipts, cutoff), BillsBefore(p.bills, cutoff), p.orders)
  {
    ReceivedByLine(p.receipts, p.orders, cutoff);
    BilledByLine(p.bills, p.orders, cutoff);
    var taken, cleared := Taken(ReceiptsBefore(p.receipts, cutoff), p.orders),
        Cleared(BillsBefore(p.bills, cutoff), p.orders);
    SumAdds(LinesOf(p.orders), Left(ReceiptsBefore(p.receipts, cutoff), BillsBefore(p.bills, cutoff), p.orders),
        cleared, taken);
  }

  // ----- What is left when lines are cleared -----

  /** R receipts and B bills of a line, each rounded to cents and then to base cents at its rate. */
  function Roundings(receipts: seq<Receipt>, bills: seq<Bill>, orders: map<nat, Order>): LineOf -> int {
    (k: LineOf) =>
      var rate := OrderRate(orders, k.0);
      (TakenFor(receipts, k.0, k.1, rate).count + ClearedFor(bills, k.0, k.1, rate).count) * (RATE_ONE + rate)
  }

  /** The order lines billed for exactly the units they received. */
  function ClearedLines(receipts: seq<Receipt>, bills: seq<Bill>, orders: map<nat, Order>): set<LineOf> {
    set k | k in LinesOf(orders) && BilledUnits(bills, k.0, k.1) == ReceivedUnits(receipts, k.0, k.1)
  }

  lemma {:induction false} BeforeArePart(receipts: seq<Receipt>, bills: seq<Bill>, t: int)
    ensures forall r <- ReceiptsBefore(receipts, t) :: r in receipts
    ensures forall bill <- BillsBefore(bills, t) :: bill in bills
    decreases |receipts| + |bills|
  {
    if receipts != [] { BeforeArePart(receipts[..|receipts| - 1], bills, t); }
    if bills != [] { BeforeArePart(receipts, bills[..|bills| - 1], t); }
  }

  lemma ClearedNearNothing(receipts: seq<Receipt>, bills: seq<Bill>, orders: map<nat, Order>)
    requires forall id <- orders :: 0 <= orders[id].rate
    requires (forall r <- receipts :: ReceiptOk(r, orders)) && forall bill <- bills :: BillOk(bill, orders)
    ensures var keys := ClearedLines(receipts, bills, orders);
            2 * Abs(SumOver(keys, Left(receipts, bills, orders)) * RATE_ONE)
                <= SumOver(keys, Roundings(receipts, bills, orders))
  {
    var keys, nothing := ClearedLines(receipts, bills, orders), (k: LineOf) => 0;
    forall k <- keys
      ensures 2 * Abs(Left(receipts, bills, orders)(k) * RATE_ONE - nothing(k)) <= Roundings(receipts, bills, orders)(k)
    {
      LineResidue(receipts, bills, orders, k.0, k.1);
      var rate := orders[k.0].rate;
      var taken, cleared := TakenFor(receipts, k.0, k.1, rate), ClearedFor(bills, k.0, k.1, rate);
      assert WithinResidue(taken, cleared, rate);
      assert OrderRate(orders, k.0) == rate;
      assert Taken(receipts, orders)(k) == taken.base && Cleared(bills, orders)(k) == cleared.base;
    }
    SumNear(keys, Left(receipts, bills, orders), nothing, RATE_ONE, Roundings(receipts, bills, orders));
    SumOfZeros(keys, nothing);
  }

  /** What the order lines not cleared have put on the account. */
  ghost function OpenShare(receipts: seq<Receipt>, bills: seq<Bill>, orders: map<nat, Order>): int {
    SumOver(LinesOf(orders) - ClearedLines(receipts, bills, orders), Left(receipts, bills, orders))
  }

  /** Twice the cents the cleared lines may leave, in millionths. */
  ghost function ClearedRoundings(receipts: seq<Receipt>, bills: seq<Bill>, orders: map<nat, Order>): int {
    SumOver(ClearedLines(receipts, bills, orders), Roundings(receipts, bills, orders))
  }

  /** A balance is, beside the share of the open lines, at most (R + B) (rate + 1) / 2 cents for
      each cleared line. */
  ghost predicate RestIsRounding(balance: int, receipts: seq<Receipt>, bills: seq<Bill>, orders: map<nat, Order>) {
    2 * Abs(balance - OpenShare(receipts, bills, orders)) * RATE_ONE <= ClearedRoundings(receipts, bills, orders)
  }

  lemma OpenAndCleared(receipts: seq<Receipt>, bills: seq<Bill>, orders: map<nat, Order>)
    requires forall id <- orders :: 0 <= orders[id].rate
    requires (forall r <- receipts :: ReceiptOk(r, orders)) && forall bill <- bills :: BillOk(bill, orders)
    ensures RestIsRounding(LinesShare(receipts, bills, orders), receipts, bills, orders)
  {
    var cleared, left := ClearedLines(receipts, bills, orders), Left(receipts, bills, orders);
    SumParts(cleared, LinesOf(orders) - cleared, left);
    assert cleared + (LinesOf(orders) - cleared) == LinesOf(orders);
    ClearedNearNothing(receipts, bills, orders);
  }

  lemma OpenAndClearedBefore(p: Purchases, cutoff: int)
    requires PurchasesOk(p)
    ensures var receipts, bills := ReceiptsBefore(p.receipts, cutoff), BillsBefore(p.bills, cutoff);
            RestIsRounding(LinesShare(receipts, bills, p.orders), receipts, bills, p.orders)
  {
    BeforeArePart(p.receipts, p.bills, cutoff);
    forall id <- p.orders ensures 0 <= p.orders[id].rate { assert OrderWithin(p, id); }
    OpenAndCleared(ReceiptsBefore(p.receipts, cutoff), BillsBefore(p.bills, cutoff), p.orders);
  }

  /** After any run and at any cut-off date: beside what the lines still open account for, the
      lines that are cleared by that date, with R receipts and B bills each, leave at most the sum
      of (R + B) (rate + 1) / 2 cents in the GRNI account. */
  lemma ClearedLinesResidue(b: Books, cutoff: int)
    requires Reachable(b)
    ensures var p := b.purchases;
            RestIsRounding(-Balance(Before(b.ledger.entries, cutoff), Grni),
                           ReceiptsBefore(p.receipts, cutoff), BillsBefore(p.bills, cutoff), p.orders)
  {
    GrniTiesOut(b, cutoff);
    ReachableProcures(b);
    ClearedBases(b.purchases, cutoff, -Balance(Before(b.ledger.entries, cutoff), Grni));
  }

  lemma ClearedBases(p: Purchases, cutoff: int, balance: int)
    requires PurchasesOk(p)
    requires balance == ReceivedBase(p.receipts, p.orders, cutoff) - BilledBase(p.bills, p.orders, cutoff, None)
    ensures RestIsRounding(balance, ReceiptsBefore(p.receipts, cutoff), BillsBefore(p.bills, cutoff), p.orders)
  {
    BasesByOrderLine(p, cutoff);
    OpenAndClearedBefore(p, cutoff);
  }

  lemma {:induction false} AfterReceipts(receipts: seq<Receipt>) returns (end: int)
    ensures forall t :: end <= t ==> ReceiptsBefore(receipts, t) == receipts
  {
    if receipts == [] {
      end := 0;
    } else {
      var n := |receipts| - 1;
      var earlier := AfterReceipts(receipts[..n]);
      end := if earlier <= receipts[n].receivedAt then receipts[n].receivedAt + 1 else earlier;
      assert receipts[..n] + [receipts[n]] == receipts;
    }
  }

  lemma {:induction false} AfterBills(bills: seq<Bill>) returns (end: int)
    ensures forall t :: end <= t ==> BillsBefore(bills, t) == bills
  {
    if bills == [] {
      end := 0;
    } else {
      var n := |bills| - 1;
      var earlier := AfterBills(bills[..n]);
      end := if earlier <= bills[n].billDate then bills[n].billDate + 1 else earlier;
      assert bills[..n] + [bills[n]] == bills;
    }
  }

  lemma AllCleared(balance: int, receipts: seq<Receipt>, bills: seq<Bill>, orders: map<nat, Order>)
    requires RestIsRounding(balance, receipts, bills, orders)
    requires forall k <- LinesOf(orders) :: BilledUnits(bills, k.0, k.1) == ReceivedUnits(receipts, k.0, k.1)
    ensures 2 * Abs(-balance) * RATE_ONE <= SumOver(LinesOf(orders), Roundings(receipts, bills, orders))
  {
    assert ClearedLines(receipts, bills, orders) == LinesOf(orders);
    assert LinesOf(orders) - LinesOf(orders) == {};
  }

  /** After any run that leaves every order line billed for exactly the units it received, the
      GRNI account is within the sum of (R + B) (rate + 1) / 2 cents of zero. */
  lemma ClearedAccountResidue(b: Books)
    requires Reachable(b)
    requires var p := b.purchases;
             forall k <- LinesOf(p.orders) :: BilledUnits(p.bills, k.0, k.1) == ReceivedUnits(p.receipts, k.0, k.1)
    ensures var p := b.purchases;
            2 * Abs(Balance(b.ledger.entries, Grni)) * RATE_ONE
            <= SumOver(LinesOf(p.orders), Roundings(p.receipts, p.bills, p.orders))
  {
    var t := AfterAll(b.ledger.entries, b.purchases);
    ClearedLinesResidue(b, t);
    AllCleared(-Balance(b.ledger.entries, Grni), b.purchases.receipts, b.purchases.bills, b.purchases.orders);
  }

  lemma AfterAll(entries: seq<Entry>, p: Purchases) returns (t: int)
    ensures Before(entries, t) == entries && ReceiptsBefore(p.receipts, t) == p.receipts
        && BillsBefore(p.bills, t) == p.bills
  {
    var x := AfterEntries(entries);
    var y := AfterReceipts(p.receipts);
    var z := AfterBills(p.bills);
    t := Latest(x, y, z);
  }

  function Latest(x: int, y: int, z: int): (t: int)
    ensures x <= t && y <= t && z <= t
  {
    if x <= y && z <= y then y else if x <= z then z else x
  }

  /** One order line billed for as many units as were received, in R receipts and B bills, leaves at
      most (R + B) (rate + 1) / 2 cents of its own in the account. */
  lemma ClearedLineResidue(b: Books, id: nat, n: nat)
    requires Reachable(b)
    requires var p := b.purchases;
             && id in p.orders && n < |p.orders[id].lines|
             && BilledUnits(p.bills, id, n) == ReceivedUnits(p.receipts, id, n)
    ensures var p := b.purchases;
            var rate := p.orders[id].rate;
            WithinResidue(TakenFor(p.receipts, id, n, rate), ClearedFor(p.bills, id, n, rate), rate)
  {
    var p := b.purchases;
    ReachableProcures(b);
    assert OrderWithin(p, id);
    LineResidue(p.receipts, p.bills, p.orders, id, n);
  }
}
