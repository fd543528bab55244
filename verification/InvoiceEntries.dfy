/** The entries an invoice posted when it was issued, and their reversal. */
module InvoiceEntries {
  import opened Accounting
  import opened Invoicing

  /** Net effect on one account of the entries an invoice posted when it was issued. */
  function IssueBalance(entries: seq<Entry>, id: nat, a: Account): int {
    if entries == [] then 0
    else
      var last := entries[|entries| - 1];
      IssueBalance(entries[..|entries| - 1], id, a) + if IsIssueEntry(last, id) then Net(last.lines, a) else 0
  }

  lemma {:induction false} IssueBalanceAppend(xs: seq<Entry>, ys: seq<Entry>, id: nat, a: Account)
    ensures IssueBalance(xs + ys, id, a) == IssueBalance(xs, id, a) + IssueBalance(ys, id, a)
  {
    if ys == [] {
      assert xs + ys == xs;
    } else {
      assert (xs + ys)[..|xs + ys| - 1] == xs + ys[..|ys| - 1];
      IssueBalanceAppend(xs, ys[..|ys| - 1], id, a);
    }
  }

  lemma IssueBalanceOne(e: Entry, id: nat, a: Account)
    ensures IssueBalance([e], id, a) == if IsIssueEntry(e, id) then Net(e.lines, a) else 0
    ensures Balance([e], a) == Net(e.lines, a)
  {
    assert [e][..0] == [];
  }

  lemma {:induction false} ReversedNet(lines: seq<Line>, a: Account)
    ensures Net(Reversed(lines), a) == -Net(lines, a)
  {
    if lines != [] {
      var n := |lines| - 1;
      ReversedNet(lines[..n], a);
      assert Reversed(lines)[..n] == Reversed(lines[..n]);
    }
  }

  /** The reversals of an invoice undo, account by account, what its own entries posted. */
  lemma {:induction false} ReversalsCancel(l: Ledger, entries: seq<Entry>, id: nat, now: int) returns (more: seq<Entry>)
    requires PostReversals(l, entries, id, now).Ok?
    ensures PostReversals(l, entries, id, now).value == l.(entries := l.entries + more)
    ensures forall e <- more :: e.sourceType == InvoiceVoidSource && e.sourceId == InvoiceId(id) && e.date == now
    ensures forall a :: Balance(more, a) == -IssueBalance(entries, id, a)
  {
    if entries == [] {
      more := [];
      assert l.entries + [] == l.entries;
    } else {
      var n := |entries| - 1;
      var before := ReversalsCancel(l, entries[..n], id, now);
      if IsIssueEntry(entries[n], id) {
        var e := ReversalOf(entries[n], id, now);
        more := before + [e];
        assert l.entries + before + [e] == l.entries + more;
        forall a ensures Balance(more, a) == -IssueBalance(entries, id, a) {
          BalanceAppend(before, [e], a);
          IssueBalanceOne(e, id, a);
          ReversedNet(entries[n].lines, a);
        }
      } else {
        more := before;
      }
    }
  }
}
