/** What closing a month freezes, and what it does not. */
module PeriodClose {
  import opened Wrappers
  import opened Money
  import opened Accounting
  import opened Books
  import opened JournalRuns
  import opened Statements

  function MonthStart(month: int): int { month * MONTH_SPAN }

  function MonthEnd(month: int): int { (month + 1) * MONTH_SPAN - 1 }

  lemma MonthOfInstant(date: int, month: int)
    ensures PeriodMonthOf(date) == month <==> MonthStart(month) <= date <= MonthEnd(month)
  {
    assert date == (date / MONTH_SPAN) * MONTH_SPAN + date % MONTH_SPAN;
  }

  /** Every month from the first to the last is closed. */
  predicate AllClosed(l: Ledger, first: int, last: int) {
    forall k :: first <= k <= last ==> IsClosed(l, k)
  }

  predicate NoneReopened(ops: seq<Timed>, first: int, last: int) {
    forall t <- ops :: t.op.ReopenMonth? ==> !(first <= t.op.month <= last)
  }

  lemma {:induction false} WithinAppend(xs: seq<Entry>, ys: seq<Entry>, from: int, to: int)
    requires forall y <- ys :: !(from <= y.date <= to)
    ensures Within(xs + ys, from, to) == Within(xs, from, to)
  {
    if ys == [] {
      assert xs + ys == xs;
    } else {
      assert ys[|ys| - 1] in ys;
      assert (xs + ys)[..|xs + ys| - 1] == xs + ys[..|ys| - 1];
      WithinAppend(xs, ys[..|ys| - 1], from, to);
    }
  }

  lemma MonthWithin(date: int, first: int, last: int)
    requires MonthStart(first) <= date <= MonthEnd(last)
    ensures first <= PeriodMonthOf(date) <= last
  {
    assert date == PeriodMonthOf(date) * MONTH_SPAN + date % MONTH_SPAN;
    if PeriodMonthOf(date) < first {
      MulMonotone(PeriodMonthOf(date) + 1, first, MONTH_SPAN);
    }
    if last < PeriodMonthOf(date) {
      MulMonotone(last + 1, PeriodMonthOf(date), MONTH_SPAN);
    }
  }

  lemma PeriodStepClosed(b: Books, op: Operation, now: int, first: int, last: int)
    requires Step(b, op, now).Ok? && IsPeriodStep(op) && AllClosed(b.ledger, first, last)
    requires op.ReopenMonth? ==> !(first <= op.month <= last)
    ensures AllClosed(Step(b, op, now).value.ledger, first, last)
  {
    forall k | first <= k <= last ensures IsClosed(Step(b, op, now).value.ledger, k) {
      assert IsClosed(b.ledger, k);
    }
  }

  lemma StepFrozen(b: Books, op: Operation, now: int, first: int, last: int)
    requires Step(b, op, now).Ok? && AllClosed(b.ledger, first, last)
    requires op.ReopenMonth? ==> !(first <= op.month <= last)
    ensures var c := Step(b, op, now).value;
            && AllClosed(c.ledger, first, last) && c.ledger.chart == b.ledger.chart
            && Within(c.ledger.entries, MonthStart(first), MonthEnd(last))
                == Within(b.ledger.entries, MonthStart(first), MonthEnd(last))
  {
    var l, m := b.ledger, Step(b, op, now).value.ledger;
    if IsPeriodStep(op) {
      PeriodStepEntries(b, op, now);
      PeriodStepClosed(b, op, now, first, last);
    } else {
      StepGrew(b, op, now);
      var more := m.entries[|l.entries|..];
      assert m.entries == l.entries + more;
      forall e <- more ensures !(MonthStart(first) <= e.date <= MonthEnd(last)) {
        var i :| 0 <= i < |more| && more[i] == e;
        assert MayPost(l, m.entries[|l.entries| + i], Issuing(op));
        if MonthStart(first) <= e.date <= MonthEnd(last) { MonthWithin(e.date, first, last); }
      }
      WithinAppend(l.entries, more, MonthStart(first), MonthEnd(last));
      forall k | first <= k <= last ensures IsClosed(m, k) { assert IsClosed(l, k); }
    }
  }

  lemma {:induction false} RunFrozen(b: Books, ops: seq<Timed>, first: int, last: int)
    requires AllClosed(b.ledger, first, last) && NoneReopened(ops, first, last)
    ensures var c := Run(b, ops);
            && AllClosed(c.ledger, first, last) && c.ledger.chart == b.ledger.chart
            && Within(c.ledger.entries, MonthStart(first), MonthEnd(last))
                == Within(b.ledger.entries, MonthStart(first), MonthEnd(last))
  {
    if ops != [] {
      var n := |ops| - 1;
      assert ops[n] in ops;
      RunFrozen(b, ops[..n], first, last);
      var before := Run(b, ops[..n]);
      if Step(before, ops[n].op, ops[n].now).Ok? {
        StepFrozen(before, ops[n].op, ops[n].now, first, last);
      }
    }
  }

  lemma MaybeWithin(entries: seq<Entry>, e: Entry, there: bool, from: int, to: int)
    ensures Within(entries + if there then [e] else [], from, to)
         == Within(entries, from, to) + if there && from <= e.date <= to then [e] else []
  {
    if there { assert (entries + [e])[..|entries|] == entries; } else { assert entries + [] == entries; }
    assert Within(entries, from, to) + [] == Within(entries, from, to);
  }

  lemma {:induction false} WithinNarrower(entries: seq<Entry>, from: int, to: int, start: int, end: int)
    requires start <= from && to <= end
    ensures Within(entries, from, to) == Within(Within(entries, start, end), from, to)
  {
    if entries != [] {
      var n := |entries| - 1;
      WithinNarrower(entries[..n], from, to, start, end);
      var e := entries[n];
      MaybeWithin(Within(entries[..n], start, end), e, start <= e.date <= end, from, to);
    }
  }

  /** While a month stays closed, the profit and loss of the month, or of any part of it,
      cannot change, whatever runs. */
  lemma ClosedMonthKeepsProfit(b: Books, ops: seq<Timed>, month: int, from: int, to: int)
    requires IsClosed(b.ledger, month) && forall t <- ops :: t.op != ReopenMonth(month)
    requires MonthStart(month) <= from && to <= MonthEnd(month)
    ensures Profit(Run(b, ops).ledger, from, to) == Profit(b.ledger, from, to)
    ensures Within(Run(b, ops).ledger.entries, from, to) == Within(b.ledger.entries, from, to)
  {
    RunFrozen(b, ops, month, month);
    WithinNarrower(b.ledger.entries, from, to, MonthStart(month), MonthEnd(month));
    WithinNarrower(Run(b, ops).ledger.entries, from, to, MonthStart(month), MonthEnd(month));
  }

  /** A closed month stays closed throughout a run exactly when the run does not reopen it. */
  lemma {:induction false} StaysClosedUnlessReopened(b: Books, ops: seq<Timed>, month: int)
    requires IsClosed(b.ledger, month)
    ensures (forall n :: 0 <= n <= |ops| ==> IsClosed(Run(b, ops[..n]).ledger, month))
        <==> forall t <- ops :: t.op != ReopenMonth(month)
  {
    if forall t <- ops :: t.op != ReopenMonth(month) {
      forall n | 0 <= n <= |ops| ensures IsClosed(Run(b, ops[..n]).ledger, month) {
        RunFrozen(b, ops[..n], month, month);
      }
    } else {
      var k :| 0 <= k < |ops| && ops[k].op == ReopenMonth(month);
      if IsClosed(Run(b, ops[..k]).ledger, month) {
        assert ops[..k + 1][..k] == ops[..k];
        assert !IsClosed(Run(b, ops[..k + 1]).ledger, month);
      }
    }
  }

  lemma {:induction false} SidesOfParts(entries: seq<Entry>, first: int, last: int, a: Account, side: Side)
    requires first <= last + 1
    ensures PostedOn(Before(entries, MonthEnd(last) + 1), a, side)
         == PostedOn(Before(entries, MonthStart(first)), a, side)
             + PostedOn(Within(entries, MonthStart(first), MonthEnd(last)), a, side)
  {
    if entries != [] {
      var n := |entries| - 1;
      var e := entries[n];
      SidesOfParts(entries[..n], first, last, a, side);
      MulMonotone(first, last + 1, MONTH_SPAN);
      MaybePostedOn(Before(entries[..n], MonthEnd(last) + 1), e, e.date < MonthEnd(last) + 1, a, side);
      MaybePostedOn(Before(entries[..n], MonthStart(first)), e, e.date < MonthStart(first), a, side);
      MaybePostedOn(Within(entries[..n], MonthStart(first), MonthEnd(last)), e,
          MonthStart(first) <= e.date <= MonthEnd(last), a, side);
    }
  }

  lemma MaybePostedOn(entries: seq<Entry>, e: Entry, posted: bool, a: Account, side: Side)
    ensures PostedOn(entries + if posted then [e] else [], a, side)
         == PostedOn(entries, a, side) + if posted then LinesOn(e.lines, a, side) else 0
  {
    if posted { assert (entries + [e])[..|entries|] == entries; } else { assert entries + [] == entries; }
  }

  lemma SidesMove(xs: seq<Entry>, ys: seq<Entry>, first: int, last: int, a: Account, side: Side)
    requires first <= last + 1
        && Within(xs, MonthStart(first), MonthEnd(last)) == Within(ys, MonthStart(first), MonthEnd(last))
    ensures PostedOn(Before(ys, MonthEnd(last) + 1), a, side) - PostedOn(Before(xs, MonthEnd(last) + 1), a, side)
         == PostedOn(Before(ys, MonthStart(first)), a, side) - PostedOn(Before(xs, MonthStart(first)), a, side)
  {
    SidesOfParts(xs, first, last, a, side);
    SidesOfParts(ys, first, last, a, side);
  }

  lemma {:induction false} SideAppend(xs: seq<Entry>, ys: seq<Entry>, a: Account, side: Side)
    ensures PostedOn(xs + ys, a, side) == PostedOn(xs, a, side) + PostedOn(ys, a, side)
  {
    if ys == [] {
      assert xs + ys == xs;
    } else {
      assert (xs + ys)[..|xs + ys| - 1] == xs + ys[..|ys| - 1];
      SideAppend(xs, ys[..|ys| - 1], a, side);
    }
  }

  /** While every month from `first` to `last` stays closed, the trial balance at the end of
      `last` moves by exactly what the run adds before `first`. */
  lemma ClosedMonthsMoveTrialBalance(b: Books, ops: seq<Timed>, first: int, last: int, a: Account, side: Side)
    requires first <= last + 1 && AllClosed(b.ledger, first, last) && NoneReopened(ops, first, last)
    ensures Appends(b.ledger, Run(b, ops).ledger)
    ensures var l, m := b.ledger, Run(b, ops).ledger;
            PostedOn(Before(m.entries, MonthEnd(last) + 1), a, side)
                - PostedOn(Before(l.entries, MonthEnd(last) + 1), a, side)
            == PostedOn(Before(Added(l, m), MonthStart(first)), a, side)
  {
    RunFrozen(b, ops, first, last);
    RunAppends(b, ops);
    var l, m := b.ledger, Run(b, ops).ledger;
    SidesMove(l.entries, m.entries, first, last, a, side);
    BeforeAppend(l.entries, Added(l, m), MonthStart(first));
    SideAppend(Before(l.entries, MonthStart(first)), Before(Added(l, m), MonthStart(first)), a, side);
  }

  /** Every entry added since is dated in `first` or later. */
  ghost predicate AddsFrom(l: Ledger, m: Ledger, first: int) {
    Appends(l, m) && forall e <- Added(l, m) :: MonthStart(first) <= e.date
  }

  /** It does not move at all under a run that adds nothing before `first`. */
  lemma ClosedMonthsKeepTrialBalance(b: Books, ops: seq<Timed>, first: int, last: int)
    requires first <= last + 1 && AllClosed(b.ledger, first, last) && NoneReopened(ops, first, last)
    requires AddsFrom(b.ledger, Run(b, ops).ledger, first)
    ensures TrialBalance(Run(b, ops).ledger, MonthEnd(last)) == TrialBalance(b.ledger, MonthEnd(last))
  {
    var l, m := b.ledger, Run(b, ops).ledger;
    RunKeepsChart(b, ops);
    NothingBefore(Added(l, m), MonthStart(first));
    forall k | 0 <= k < |l.chart| ensures TrialBalance(m, MonthEnd(last))[k] == TrialBalance(l, MonthEnd(last))[k] {
      ClosedMonthsMoveTrialBalance(b, ops, first, last, l.chart[k], DebitSide);
      ClosedMonthsMoveTrialBalance(b, ops, first, last, l.chart[k], CreditSide);
    }
  }

  lemma OneStep(b: Books, op: Operation, now: int)
    ensures Run(b, [Timed(op, now)]) == OrElse(Step(b, op, now), b)
  {
    assert [Timed(op, now)][..0] == [];
    assert Run(b, []) == b;
  }

  /** An account an ordinary journal may use. */
  predicate Plain(l: Ledger, a: Account) {
    a in l.chart && a !in l.inactive && a !in {Account.Inventory, Receivable, Grni}
  }

  /** One dollar moved at the start of a month. */
  function Backdated(month: int, a: Account, c: Account): Entry {
    Entry(MonthStart(month), OtherSource, OtherId(0), [Debit(a, 100), Credit(c, 100)])
  }

  function Backdating(month: int, a: Account, c: Account, now: int): seq<Timed> {
    [Timed(PostOther(Backdated(month, a, c)), now)]
  }

  lemma OtherPosts(b: Books, e: Entry, now: int)
    requires IsOther(e) && Post(b.ledger, e).Ok?
    ensures Step(b, PostOther(e), now) == Ok(b.(ledger := Post(b.ledger, e).value))
  {
  }

  lemma BackdatedPosts(b: Books, month: int, a: Account, c: Account, now: int)
    requires !IsClosed(b.ledger, month) && a != c && Plain(b.ledger, a) && Plain(b.ledger, c)
    ensures Run(b, Backdating(month, a, c, now)).ledger
         == b.ledger.(entries := b.ledger.entries + [Backdated(month, a, c)])
  {
    var e := Backdated(month, a, c);
    NetOfPair(a, c, 100, a);
    MonthOfInstant(e.date, month);
    OneStep(b, PostOther(e), now);
    OtherPosts(b, e, now);
  }

  lemma BackdatedDebit(month: int, a: Account, c: Account)
    requires a != c
    ensures PostedOn([Backdated(month, a, c)], a, DebitSide) == 100
  {
    var e := Backdated(month, a, c);
    assert e.lines[..1] == [Debit(a, 100)] && e.lines[..1][..0] == [];
    assert LinesOn(e.lines[..1], a, DebitSide) == 100;
    assert [e][..0] == [];
  }

  lemma BackdatedShows(l: Ledger, month: int, last: int, a: Account, c: Account)
    requires month <= last && a != c && a in l.chart
    ensures TrialBalance(l.(entries := l.entries + [Backdated(month, a, c)]), MonthEnd(last))
         != TrialBalance(l, MonthEnd(last))
  {
    var e := Backdated(month, a, c);
    var m := l.(entries := l.entries + [e]);
    var k :| 0 <= k < |l.chart| && l.chart[k] == a;
    MulMonotone(month, last, MONTH_SPAN);
    BeforeAppend(l.entries, [e], MonthEnd(last) + 1);
    BeforeOne(e, MonthEnd(last) + 1);
    SideAppend(Before(l.entries, MonthEnd(last) + 1), [e], a, DebitSide);
    BackdatedDebit(month, a, c);
    assert TrialBalance(m, MonthEnd(last))[k].debit == TrialBalance(l, MonthEnd(last))[k].debit + 100;
  }

  /** In any books, one journal dated in an open month changes the trial balance at the end of
      that month and of every later one, closed or not. */
  lemma OpenMonthMovesTrialBalance(b: Books, month: int, last: int, a: Account, c: Account, now: int)
    requires !IsClosed(b.ledger, month) && month <= last
    requires a != c && Plain(b.ledger, a) && Plain(b.ledger, c)
    ensures AddsFrom(b.ledger, Run(b, Backdating(month, a, c, now)).ledger, month)
    ensures TrialBalance(Run(b, Backdating(month, a, c, now)).ledger, MonthEnd(last))
         != TrialBalance(b.ledger, MonthEnd(last))
  {
    BackdatedPosts(b, month, a, c, now);
    BackdatedShows(b.ledger, month, last, a, c);
  }

  /** No run that leaves the months closed and adds nothing before `first` changes the trial
      balance at the end of `last`. */
  ghost predicate Frozen(b: Books, first: int, last: int) {
    forall ops | NoneReopened(ops, first, last) && AddsFrom(b.ledger, Run(b, ops).ledger, first) ::
      TrialBalance(Run(b, ops).ledger, MonthEnd(last)) == TrialBalance(b.ledger, MonthEnd(last))
  }

  /** The trial balance at the end of `last` is frozen against every run that adds nothing before
      `first` exactly when all the months from `first` to `last` are closed. */
  lemma FrozenExactlyWhenAllClosed(b: Books, first: int, last: int, a: Account, c: Account)
    requires first <= last && a != c && Plain(b.ledger, a) && Plain(b.ledger, c)
    ensures Frozen(b, first, last) <==> AllClosed(b.ledger, first, last)
  {
    if AllClosed(b.ledger, first, last) {
      forall ops | NoneReopened(ops, first, last) && AddsFrom(b.ledger, Run(b, ops).ledger, first)
        ensures TrialBalance(Run(b, ops).ledger, MonthEnd(last)) == TrialBalance(b.ledger, MonthEnd(last))
      {
        ClosedMonthsKeepTrialBalance(b, ops, first, last);
      }
    } else {
      var k :| first <= k <= last && !IsClosed(b.ledger, k);
      OpenMonthMovesTrialBalance(b, k, last, a, c, MonthStart(last));
      MulMonotone(first, k, MONTH_SPAN);
      assert NoneReopened(Backdating(k, a, c, MonthStart(last)), first, last);
    }
  }

  /** Closing one month alone is not enough: an entry dated in an earlier, open month still
      changes the trial balance at its end. */
  lemma ClosingOneMonthIsNotEnough()
    ensures var closed := Run(Opened([Bank(0), OpeningEquity], {}, map[], {}, None),
        [Timed(CloseMonth(1), MonthStart(5))]);
            var ops := Backdating(0, Bank(0), OpeningEquity, MonthStart(5));
            && IsClosed(closed.ledger, 1) && NoneReopened(ops, 1, 1)
            && TrialBalance(Run(closed, ops).ledger, MonthEnd(1)) != TrialBalance(closed.ledger, MonthEnd(1))
  {
    var start := Opened([Bank(0), OpeningEquity], {}, map[], {}, None);
    var closed := Run(start, [Timed(CloseMonth(1), MonthStart(5))]);
    MonthCloses(start, MonthStart(5));
    assert closed.ledger.chart[0] == Bank(0) && closed.ledger.chart[1] == OpeningEquity;
    OpenMonthMovesTrialBalance(closed, 0, 1, Bank(0), OpeningEquity, MonthStart(5));
  }

  lemma MonthCloses(start: Books, now: int)
    requires start.ledger == Ledger([Bank(0), OpeningEquity], {}, map[], []) && now == MonthStart(5)
    ensures Run(start, [Timed(CloseMonth(1), now)]).ledger == Ledger([Bank(0), OpeningEquity], {}, map[1 := Closed], [])
  {
    MonthOfInstant(now, 5);
    OneStep(start, CloseMonth(1), now);
  }
}
