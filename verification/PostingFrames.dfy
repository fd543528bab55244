/** What an operation appends to the journal without meeting a given account. */
module PostingFrames {
  import opened Accounting
  import opened Inventory

  ghost predicate Appends(l: Ledger, m: Ledger, a: Account) {
    && |l.entries| <= |m.entries| && m.entries[..|l.entries|] == l.entries
    && forall i :: |l.entries| <= i < |m.entries| ==> Net(m.entries[i].lines, a) == 0
  }

  lemma PostApart(l: Ledger, e: Entry, a: Account)
    requires Post(l, e).Ok? && forall line <- e.lines :: line.account != a
    ensures Appends(l, Post(l, e).value, a)
  {
    NetOfUntouched(e.lines, a);
  }

  lemma AppendsOn(l: Ledger, m: Ledger, n: Ledger, a: Account)
    requires Appends(l, m, a) && Appends(m, n, a)
    ensures Appends(l, n, a)
  {
    assert n.entries[..|l.entries|] == m.entries[..|l.entries|];
    forall i | |l.entries| <= i < |n.entries| ensures Net(n.entries[i].lines, a) == 0 {
      if i < |m.entries| { assert n.entries[i] == n.entries[..|m.entries|][i]; }
    }
  }

  lemma OpeningApart(b: StockBooks, key: Key, quantity: int, unitCost: int, now: int, a: Account)
    requires RecordOpening(b, key, quantity, unitCost, now).Ok? && a != Account.Inventory && a != OpeningEquity
    ensures Appends(b.ledger, RecordOpening(b, key, quantity, unitCost, now).value.ledger, a)
  {
    var valued := Record(b.stock, OpeningRequest(key, quantity, unitCost, OtherSource, OtherId(0))).value.valued;
    PostApart(b.ledger, Entry(now, StockAdjustmentSource, MovementId(valued.id),
                              [Debit(Account.Inventory, valued.cost), Credit(OpeningEquity, valued.cost)]), a);
  }

  lemma ImportApart(b: StockBooks, rows: seq<OpeningRow>, batch: nat, now: int, a: Account)
    requires ImportOpening(b, rows, batch, now).Ok? && a != Account.Inventory && a != OpeningEquity
    ensures Appends(b.ledger, ImportOpening(b, rows, batch, now).value.ledger, a)
  {
    var total := ImportRows(b.stock, rows, batch).value.1;
    PostApart(b.ledger, Entry(now, OpeningImportSource, BatchId(batch),
                              [Debit(Account.Inventory, total), Credit(OpeningEquity, total)]), a);
  }

  lemma AdjustApart(b: StockBooks, key: Key, delta: int, note: string, idem: IdempotencyKey, now: int, a: Account)
    requires Adjust(b, key, delta, note, idem, now).Ok? && a != Account.Inventory && a != GeneralExpenses
    ensures Appends(b.ledger, Adjust(b, key, delta, note, idem, now).value.ledger, a)
  {
    if FindByKey(b.stock.movements, idem).None? {
      var valued := Record(b.stock, AdjustRequest(b.stock, key, delta, note, idem)).value.valued;
      if valued.cost > 0 {
        PostApart(b.ledger, Entry(now, StockAdjustmentSource, MovementId(valued.id),
            AdjustmentLines(delta, valued.cost)), a);
      }
    }
  }
}
