/** The goods-received-not-invoiced report against the ledger. */
module GrniReport {
  import opened Wrappers
  import opened Money
  import opened Accounting
  import opened Invoicing
  import opened Procurement
  import opened Books
  import opened PurchaseControl
  import opened PurchaseRuns

  // ----- The report -----

  datatype ExposureRow = ExposureRow(vendor: nat, currency: Currency, rate: int, quantity: int, original: int)

  datatype Exposure = Exposure(
    vendor: nat, currency: Currency,
    receivedQuantity: int, billedQuantity: int,
    receivedOriginal: int, billedOriginal: int,
    receivedBase: int, billedBase: int)
  {
    function OpenOriginal(): int { receivedOriginal - billedOriginal }
    function OpenBase(): int { receivedBase - billedBase }
  }

  datatype Sums = Sums(quantity: int, original: int, base: int)

  /** Totals of the rows of one supplier and currency. */
  function GroupSums(rows: seq<ExposureRow>, vendor: nat, currency: Currency): Sums {
    if rows == [] then Sums(0, 0, 0)
    else
      var before, row := GroupSums(rows[..|rows| - 1], vendor, currency), rows[|rows| - 1];
      if row.vendor == vendor && row.currency == currency
      then Sums(before.quantity + row.quantity, before.original + row.original,
          before.base + MulRate(row.original, row.rate))
      else before
  }

  function BaseSum(rows: seq<ExposureRow>): int {
    if rows == [] then 0 else BaseSum(rows[..|rows| - 1]) + MulRate(rows[|rows| - 1].original, rows[|rows| - 1].rate)
  }

  function OpenTotal(groups: seq<Exposure>): int {
    if groups == [] then 0 else OpenTotal(groups[..|groups| - 1]) + groups[|groups| - 1].OpenBase()
  }

  /** The group holds exactly the rows of its supplier and currency among those read so far. */
  predicate GroupOk(g: Exposure, receipts: seq<ExposureRow>, bills: seq<ExposureRow>) {
    && Sums(g.receivedQuantity, g.receivedOriginal, g.receivedBase) == GroupSums(receipts, g.vendor, g.currency)
    && Sums(g.billedQuantity, g.billedOriginal, g.billedBase) == GroupSums(bills, g.vendor, g.currency)
  }

  predicate AllOk(groups: seq<Exposure>, receipts: seq<ExposureRow>, bills: seq<ExposureRow>) {
    forall g <- groups :: GroupOk(g, receipts, bills)
  }

  predicate Among(groups: seq<Exposure>, vendor: nat, currency: Currency) {
    exists g <- groups :: g.vendor == vendor && g.currency == currency
  }

  predicate Distinct(groups: seq<Exposure>) {
    forall i, j :: 0 <= i < j < |groups|
        ==> groups[i].vendor != groups[j].vendor || groups[i].currency != groups[j].currency
  }

  ghost predicate Covers(groups: seq<Exposure>, rows: seq<ExposureRow>) {
    forall row <- rows :: Among(groups, row.vendor, row.currency)
  }

  /** The grouping after reading some rows: one group per supplier and currency met. */
  ghost predicate Grouped(groups: seq<Exposure>, receipts: seq<ExposureRow>, bills: seq<ExposureRow>) {
    && Distinct(groups)
    && AllOk(groups, receipts, bills)
    && Covers(groups, receipts) && Covers(groups, bills)
    && OpenTotal(groups) == BaseSum(receipts) - BaseSum(bills)
  }

  lemma {:induction false} OpenTotalUpdate(groups: seq<Exposure>, k: nat, g: Exposure)
    requires k < |groups|
    ensures OpenTotal(groups[k := g]) == OpenTotal(groups) - groups[k].OpenBase() + g.OpenBase()
  {
    var n := |groups| - 1;
    if k == n {
      assert groups[k := g][..n] == groups[..n];
    } else {
      assert groups[k := g][..n] == groups[..n][k := g];
      OpenTotalUpdate(groups[..n], k, g);
    }
  }

  lemma {:induction false} NotMet(rows: seq<ExposureRow>, vendor: nat, currency: Currency)
    requires forall row <- rows :: row.vendor != vendor || row.currency != currency
    ensures GroupSums(rows, vendor, currency) == Sums(0, 0, 0)
  {
    if rows != [] {
      assert rows[|rows| - 1] in rows;
      NotMet(rows[..|rows| - 1], vendor, currency);
    }
  }

  /** The group of a row, created empty when the row is the first of its group. */
  method GroupFor(groups: seq<Exposure>, row: ExposureRow, ghost receipts: seq<ExposureRow>,
      ghost bills: seq<ExposureRow>)
    returns (all: seq<Exposure>, k: nat)
    requires Grouped(groups, receipts, bills)
    ensures Grouped(all, receipts, bills)
    ensures k < |all| && all[k].vendor == row.vendor && all[k].currency == row.currency
  {
    for i := 0 to |groups|
      invariant forall j :: 0 <= j < i ==> groups[j].vendor != row.vendor || groups[j].currency != row.currency
    {
      if groups[i].vendor == row.vendor && groups[i].currency == row.currency { return groups, i; }
    }
    all, k := groups + [Exposure(row.vendor, row.currency, 0, 0, 0, 0, 0, 0)], |groups|;
    NotMet(receipts, row.vendor, row.currency);
    NotMet(bills, row.vendor, row.currency);
    assert all[..|groups|] == groups;
    forall r <- receipts + bills ensures Among(all, r.vendor, r.currency) { StillAmong(groups, all, r); }
  }

  lemma StillAmong(groups: seq<Exposure>, all: seq<Exposure>, row: ExposureRow)
    requires Among(groups, row.vendor, row.currency)
    requires |groups| <= |all|
        && forall i :: 0 <= i < |groups| ==> all[i].vendor == groups[i].vendor && all[i].currency == groups[i].currency
    ensures Among(all, row.vendor, row.currency)
  {
    var i :| 0 <= i < |groups| && groups[i].vendor == row.vendor && groups[i].currency == row.currency;
    assert all[i] in all;
  }

  lemma RowAdded(rows: seq<ExposureRow>, row: ExposureRow)
    ensures BaseSum(rows + [row]) == BaseSum(rows) + MulRate(row.original, row.rate)
    ensures forall v: nat, c ::
              GroupSums(rows + [row], v, c)
              == if row.vendor == v && row.currency == c
                 then Sums(GroupSums(rows, v, c).quantity + row.quantity, GroupSums(rows, v, c).original + row.original,
                           GroupSums(rows, v, c).base + MulRate(row.original, row.rate))
                 else GroupSums(rows, v, c)
  {
    assert (rows + [row])[..|rows|] == rows;
  }

  /** One row more on either side. */
  predicate OneRowMore(rows: seq<ExposureRow>, rows': seq<ExposureRow>, row: ExposureRow) {
    rows' == rows || rows' == rows + [row]
  }

  lemma UpdatedOk(groups: seq<Exposure>, k: nat, g: Exposure, receipts: seq<ExposureRow>, bills: seq<ExposureRow>,
                  receipts': seq<ExposureRow>, bills': seq<ExposureRow>, row: ExposureRow)
    requires Distinct(groups) && AllOk(groups, receipts, bills)
    requires k < |groups| && g.vendor == groups[k].vendor && g.currency == groups[k].currency
    requires row.vendor == g.vendor && row.currency == g.currency && GroupOk(g, receipts', bills')
    requires OneRowMore(receipts, receipts', row) && OneRowMore(bills, bills', row)
    ensures Distinct(groups[k := g]) && AllOk(groups[k := g], receipts', bills')
  {
    OtherGroups(receipts, receipts', row);
    OtherGroups(bills, bills', row);
    GroupsUpdated(groups, k, g, receipts, bills, receipts', bills');
  }

  lemma CoversMore(groups: seq<Exposure>, k: nat, g: Exposure, rows: seq<ExposureRow>, rows': seq<ExposureRow>,
      row: ExposureRow)
    requires k < |groups| && g.vendor == groups[k].vendor && g.currency == groups[k].currency
    requires row.vendor == g.vendor && row.currency == g.currency && Covers(groups, rows)
        && OneRowMore(rows, rows', row)
    ensures Covers(groups[k := g], rows')
  {
    CoversUpdated(groups, k, g, rows, row);
  }

  lemma Updated(groups: seq<Exposure>, k: nat, g: Exposure, receipts: seq<ExposureRow>, bills: seq<ExposureRow>,
                receipts': seq<ExposureRow>, bills': seq<ExposureRow>, row: ExposureRow)
    requires Grouped(groups, receipts, bills) && k < |groups| && g.vendor == groups[k].vendor
        && g.currency == groups[k].currency
    requires row.vendor == g.vendor && row.currency == g.currency && GroupOk(g, receipts', bills')
    requires OneRowMore(receipts, receipts', row) && OneRowMore(bills, bills', row)
    requires g.OpenBase() - groups[k].OpenBase()
        == BaseSum(receipts') - BaseSum(bills') - BaseSum(receipts) + BaseSum(bills)
    ensures Grouped(groups[k := g], receipts', bills')
  {
    OpenTotalUpdate(groups, k, g);
    UpdatedOk(groups, k, g, receipts, bills, receipts', bills', row);
    CoversMore(groups, k, g, receipts, receipts', row);
    CoversMore(groups, k, g, bills, bills', row);
  }

  lemma OtherGroups(rows: seq<ExposureRow>, rows': seq<ExposureRow>, row: ExposureRow)
    requires rows' == rows || rows' == rows + [row]
    ensures forall v: nat, c :: v != row.vendor || c != row.currency ==> GroupSums(rows', v, c) == GroupSums(rows, v, c)
  {
    RowAdded(rows, row);
  }

  lemma GroupsUpdated(groups: seq<Exposure>, k: nat, g: Exposure, receipts: seq<ExposureRow>, bills: seq<ExposureRow>,
                      receipts': seq<ExposureRow>, bills': seq<ExposureRow>)
    requires Distinct(groups) && AllOk(groups, receipts, bills)
    requires k < |groups| && g.vendor == groups[k].vendor && g.currency == groups[k].currency
        && GroupOk(g, receipts', bills')
    requires forall v: nat, c :: v != g.vendor || c != g.currency ==>
               GroupSums(receipts', v, c) == GroupSums(receipts, v, c)
                   && GroupSums(bills', v, c) == GroupSums(bills, v, c)
    ensures Distinct(groups[k := g]) && AllOk(groups[k := g], receipts', bills')
  {
    var all := groups[k := g];
    forall x <- all ensures GroupOk(x, receipts', bills') {
      if x != g {
        var i :| 0 <= i < |all| && all[i] == x;
        assert groups[i] in groups && GroupOk(groups[i], receipts, bills);
      }
    }
  }

  lemma CoversUpdated(groups: seq<Exposure>, k: nat, g: Exposure, rows: seq<ExposureRow>, row: ExposureRow)
    requires k < |groups| && g.vendor == groups[k].vendor && g.currency == groups[k].currency
    requires row.vendor == g.vendor && row.currency == g.currency && Covers(groups, rows)
    ensures Covers(groups[k := g], rows) && Covers(groups[k := g], rows + [row])
  {
    assert groups[k := g][k] in groups[k := g];
    forall r <- rows ensures Among(groups[k := g], r.vendor, r.currency) {
      StillAmong(groups, groups[k := g], r);
    }
  }

  method AddReceipt(groups: seq<Exposure>, row: ExposureRow, ghost receipts: seq<ExposureRow>)
    returns (more: seq<Exposure>)
    requires Grouped(groups, receipts, [])
    ensures Grouped(more, receipts + [row], [])
  {
    var all, k := GroupFor(groups, row, receipts, []);
    var g := all[k];
    assert GroupOk(g, receipts, []);
    g := g.(receivedQuantity := g.receivedQuantity + row.quantity,
            receivedOriginal := g.receivedOriginal + row.original,
            receivedBase := g.receivedBase + MulRate(row.original, row.rate));
    RowAdded(receipts, row);
    Updated(all, k, g, receipts, [], receipts + [row], [], row);
    more := all[k := g];
  }

  method AddBill(groups: seq<Exposure>, row: ExposureRow, ghost receipts: seq<ExposureRow>,
      ghost bills: seq<ExposureRow>)
    returns (more: seq<Exposure>)
    requires Grouped(groups, receipts, bills)
    ensures Grouped(more, receipts, bills + [row])
  {
    var all, k := GroupFor(groups, row, receipts, bills);
    var g := all[k];
    assert GroupOk(g, receipts, bills);
    g := g.(billedQuantity := g.billedQuantity + row.quantity,
            billedOriginal := g.billedOriginal + row.original,
            billedBase := g.billedBase + MulRate(row.original, row.rate));
    RowAdded(bills, row);
    Updated(all, k, g, receipts, bills, receipts, bills + [row], row);
    more := all[k := g];
  }

  /** Groups receipts and bills by supplier and currency and keeps the groups still open. */
  method BuildGrni(receipts: seq<ExposureRow>, bills: seq<ExposureRow>) returns (open: seq<Exposure>)
    ensures Distinct(open)
    ensures forall g <- open :: GroupOk(g, receipts, bills)
    ensures forall v: nat, c ::
              Among(open, v, c) <==> || GroupSums(receipts, v, c).original != GroupSums(bills, v, c).original
                                     || GroupSums(receipts, v, c).base != GroupSums(bills, v, c).base
    ensures OpenTotal(open) == BaseSum(receipts) - BaseSum(bills)
  {
    var groups: seq<Exposure> := [];
    for i := 0 to |receipts|
      invariant Grouped(groups, receipts[..i], [])
    {
      assert receipts[..i + 1] == receipts[..i] + [receipts[i]];
      groups := AddReceipt(groups, receipts[i], receipts[..i]);
    }
    assert receipts[..|receipts|] == receipts;
    for i := 0 to |bills|
      invariant Grouped(groups, receipts, bills[..i])
    {
      assert bills[..i + 1] == bills[..i] + [bills[i]];
      groups := AddBill(groups, bills[i], receipts, bills[..i]);
    }
    assert bills[..|bills|] == bills;
    open := KeepOpen(groups);
    forall v: nat, c
      ensures Among(open, v, c) <==> || GroupSums(receipts, v, c).original != GroupSums(bills, v, c).original
                                     || GroupSums(receipts, v, c).base != GroupSums(bills, v, c).base
    {
      OpenGroup(groups, open, receipts, bills, v, c);
    }
  }

  predicate IsOpen(g: Exposure) { g.OpenBase() != 0 || g.OpenOriginal() != 0 }

  method KeepOpen(groups: seq<Exposure>) returns (open: seq<Exposure>)
    requires Distinct(groups)
    ensures Distinct(open) && OpenTotal(open) == OpenTotal(groups)
    ensures forall g :: g in open <==> g in groups && IsOpen(g)
  {
    open := [];
    for i := 0 to |groups|
      invariant Distinct(open) && OpenTotal(open) == OpenTotal(groups[..i])
      invariant forall g :: g in open <==> g in groups[..i] && IsOpen(g)
    {
      assert groups[..i + 1][..i] == groups[..i];
      if groups[i].OpenBase() != 0 || groups[i].OpenOriginal() != 0 {
        forall g <- open ensures g.vendor != groups[i].vendor || g.currency != groups[i].currency {
          var j :| 0 <= j < i && groups[j] == g;
        }
        assert (open + [groups[i]])[..|open|] == open;
        open := open + [groups[i]];
      }
    }
    assert groups[..|groups|] == groups;
  }

  lemma OpenGroup(groups: seq<Exposure>, open: seq<Exposure>, receipts: seq<ExposureRow>, bills: seq<ExposureRow>,
      v: nat, c: Currency)
    requires Grouped(groups, receipts, bills) && forall g :: g in open <==> g in groups && IsOpen(g)
    ensures Among(open, v, c) <==> || GroupSums(receipts, v, c).original != GroupSums(bills, v, c).original
                                   || GroupSums(receipts, v, c).base != GroupSums(bills, v, c).base
  {
    if g :| g in groups && g.vendor == v && g.currency == c {
      assert GroupOk(g, receipts, bills);
      if Among(open, v, c) {
        var h :| h in open && h.vendor == v && h.currency == c;
        assert h in groups;
      }
    } else {
      forall row <- receipts + bills ensures row.vendor != v || row.currency != c {
        assert Among(groups, row.vendor, row.currency);
      }
      NotMet(receipts, v, c);
      NotMet(bills, v, c);
    }
  }

  // ----- The rows the report reads -----

  function LineRows(lines: seq<ReceiptLine>, order: Order): seq<ExposureRow> {
    seq(|lines|, k requires 0 <= k < |lines| =>
      ExposureRow(order.vendor, order.currency, order.rate, lines[k].quantity, lines[k].total))
  }

  function BillLineRows(lines: seq<BillLine>, order: Order): seq<ExposureRow> {
    seq(|lines|, k requires 0 <= k < |lines| =>
      ExposureRow(order.vendor, order.currency, order.rate, lines[k].quantity, lines[k].net))
  }

  function ReceiptRows(receipts: seq<Receipt>, orders: map<nat, Order>, cutoff: int): seq<ExposureRow> {
    if receipts == [] then []
    else
      var last := receipts[|receipts| - 1];
      ReceiptRows(receipts[..|receipts| - 1], orders, cutoff)
      + if last.receivedAt < cutoff && last.order in orders then LineRows(last.lines, orders[last.order]) else []
  }

  /** Posted bills whose posting time and whose journal date, the bill date, both precede the cut-off. */
  function BillRows(bills: seq<Bill>, orders: map<nat, Order>, cutoff: int): seq<ExposureRow> {
    if bills == [] then []
    else
      var last := bills[|bills| - 1];
      BillRows(bills[..|bills| - 1], orders, cutoff)
      + if last.status == Posted && last.billDate < cutoff && last.postedAt < cutoff && last.order in orders
        then BillLineRows(last.lines, orders[last.order]) else []
  }

  lemma {:induction false} BaseSumAppend(xs: seq<ExposureRow>, ys: seq<ExposureRow>)
    ensures BaseSum(xs + ys) == BaseSum(xs) + BaseSum(ys)
  {
    if ys == [] {
      assert xs + ys == xs;
    } else {
      assert (xs + ys)[..|xs + ys| - 1] == xs + ys[..|ys| - 1];
      BaseSumAppend(xs, ys[..|ys| - 1]);
    }
  }

  lemma {:induction false} LineRowsBase(lines: seq<ReceiptLine>, order: Order)
    ensures BaseSum(LineRows(lines, order)) == ReceiptBase(lines, order.rate)
  {
    if lines != [] {
      var n := |lines| - 1;
      LineRowsBase(lines[..n], order);
      assert LineRows(lines, order)[..n] == LineRows(lines[..n], order);
    }
  }

  lemma {:induction false} BillLineRowsBase(lines: seq<BillLine>, order: Order)
    ensures BaseSum(BillLineRows(lines, order)) == NetBase(lines, order.rate)
  {
    if lines != [] {
      var n := |lines| - 1;
      BillLineRowsBase(lines[..n], order);
      assert BillLineRows(lines, order)[..n] == BillLineRows(lines[..n], order);
    }
  }

  lemma {:induction false} ReceiptRowsBase(receipts: seq<Receipt>, orders: map<nat, Order>, cutoff: int)
    requires forall r <- receipts :: r.order in orders
    ensures BaseSum(ReceiptRows(receipts, orders, cutoff)) == ReceivedBase(receipts, orders, cutoff)
  {
    if receipts != [] {
      var n := |receipts| - 1;
      assert receipts[n] in receipts;
      ReceiptRowsBase(receipts[..n], orders, cutoff);
      var rows := ReceiptRows(receipts[..n], orders, cutoff);
      LineRowsBase(receipts[n].lines, orders[receipts[n].order]);
      BaseSumAppend(rows, LineRows(receipts[n].lines, orders[receipts[n].order]));
      assert rows + [] == rows;
    }
  }

  lemma {:induction false} BillRowsBase(bills: seq<Bill>, orders: map<nat, Order>, cutoff: int)
    requires forall b <- bills :: b.order in orders
    ensures BaseSum(BillRows(bills, orders, cutoff)) == BilledBase(bills, orders, cutoff, Some(cutoff))
  {
    if bills != [] {
      var n := |bills| - 1;
      assert bills[n] in bills;
      BillRowsBase(bills[..n], orders, cutoff);
      var rows := BillRows(bills[..n], orders, cutoff);
      BillLineRowsBase(bills[n].lines, orders[bills[n].order]);
      BaseSumAppend(rows, BillLineRows(bills[n].lines, orders[bills[n].order]));
      assert rows + [] == rows;
    }
  }

  // ----- Report against ledger -----

  /** A posted bill dated before a cut-off but posted on or after it. */
  predicate IsLate(bill: Bill, cutoff: int) {
    bill.status == Posted && bill.billDate < cutoff <= bill.postedAt
  }

  function LateBase(bills: seq<Bill>, orders: map<nat, Order>, cutoff: int): int {
    if bills == [] then 0
    else
      var last := bills[|bills| - 1];
      LateBase(bills[..|bills| - 1], orders, cutoff)
          + if IsLate(last, cutoff) then NetBase(last.lines, OrderRate(orders, last.order)) else 0
  }

  lemma {:induction false} LateSplit(bills: seq<Bill>, orders: map<nat, Order>, cutoff: int)
    requires forall b <- bills :: BillOk(b, orders)
    ensures BilledBase(bills, orders, cutoff, None)
        == BilledBase(bills, orders, cutoff, Some(cutoff)) + LateBase(bills, orders, cutoff)
    ensures 0 <= LateBase(bills, orders, cutoff)
    ensures LateBase(bills, orders, cutoff) == 0 <==> forall b <- bills :: !IsLate(b, cutoff)
  {
    if bills != [] {
      var n := |bills| - 1;
      var last := bills[n];
      assert last in bills;
      assert BillOk(last, orders);
      LateSplit(bills[..n], orders, cutoff);
      if !IsLate(last, cutoff) {
        assert (forall b <- bills :: !IsLate(b, cutoff)) <==> forall b <- bills[..n] :: !IsLate(b, cutoff) by {
          forall b <- bills ensures b in bills[..n] || b == last {}
        }
      }
    }
  }

  /** What the report shows as received less billed, in base currency. */
  function Reported(p: Purchases, cutoff: int): int {
    BaseSum(ReceiptRows(p.receipts, p.orders, cutoff)) - BaseSum(BillRows(p.bills, p.orders, cutoff))
  }

  function OnAccount(l: Ledger, cutoff: int): int { -Balance(Before(l.entries, cutoff), Grni) }

  /** After any run, the report of a cut-off misses the GRNI account by exactly the bills dated
      before the cut-off and posted on or after it, and agrees with it exactly when there are
      none: the report filters bills by posting time, the ledger by bill date. */
  lemma ReportMissesLateBills(b: Books, cutoff: int)
    requires Reachable(b)
    ensures var p := b.purchases;
            && Reported(p, cutoff) - OnAccount(b.ledger, cutoff) == LateBase(p.bills, p.orders, cutoff) >= 0
            && (Reported(p, cutoff) == OnAccount(b.ledger, cutoff) <==> forall bill <- p.bills :: !IsLate(bill, cutoff))
  {
    ReachableProcures(b);
    ReportGap(b, cutoff);
  }

  lemma ReportGap(b: Books, cutoff: int)
    requires Procures(b)
    ensures var p := b.purchases;
            && Reported(p, cutoff) - OnAccount(b.ledger, cutoff) == LateBase(p.bills, p.orders, cutoff) >= 0
            && (Reported(p, cutoff) == OnAccount(b.ledger, cutoff) <==> forall bill <- p.bills :: !IsLate(bill, cutoff))
  {
    var p := b.purchases;
    forall r <- p.receipts ensures r.order in p.orders { assert ReceiptOk(r, p.orders); }
    forall bill <- p.bills ensures bill.order in p.orders { assert BillOk(bill, p.orders); }
    ReceiptRowsBase(p.receipts, p.orders, cutoff);
    BillRowsBase(p.bills, p.orders, cutoff);
    LateSplit(p.bills, p.orders, cutoff);
  }
}
