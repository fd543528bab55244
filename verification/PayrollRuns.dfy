/** The life of a payroll run: draft, edit, post, reverse, delete. */
module PayrollRuns {
  import opened Wrappers
  import opened Accounting
  import opened Invoicing
  import opened InvoiceEntries
  import opened Payroll
  import opened Sequences

  datatype RunStatus = DraftRun | PostedRun | ReversedRun | DeletedRun

  datatype PayRun = PayRun(month: int, status: RunStatus, slips: seq<Slip>, totals: Totals)

  /** A run is identified by its position; a deleted draft leaves its position unused. */
  datatype PayBooks = PayBooks(runs: seq<PayRun>, ledger: Ledger)

  /** The tax table and the social-security rule in force for each month, where there is one. */
  datatype Config = Config(tables: map<int, PayeTable>, rules: map<int, SocialRule>)

  ghost predicate ConfigOk(c: Config) {
    (forall m <- c.tables :: TableOk(c.tables[m])) && (forall m <- c.rules :: RuleOk(c.rules[m]))
  }

  function SlipFor(month: int, basic: int, allowances: int, c: Config): Result<Slip> {
    var _ :- Require(month in c.tables && month in c.rules, BadRequest);
    PayslipOf(basic, allowances, c.tables[month], c.rules[month])
  }

  function SlipsFor(month: int, basics: seq<int>, c: Config): Result<seq<Slip>> {
    if basics == [] then Ok([])
    else
      var before :- SlipsFor(month, basics[..|basics| - 1], c);
      var slip :- SlipFor(month, basics[|basics| - 1], 0, c);
      Ok(before + [slip])
  }

  /** The row the database returns when asked for a run of the month: any one of them. */
  predicate IsAnswer(runs: seq<PayRun>, month: int, row: Option<nat>) {
    if row.Some? then row.value < |runs| && runs[row.value].month == month && runs[row.value].status != DeletedRun
    else forall r <- runs :: r.month == month ==> r.status == DeletedRun
  }

  function Create(b: PayBooks, month: int, basics: seq<int>, c: Config, row: Option<nat>): Result<PayBooks>
    requires IsAnswer(b.runs, month, row)
  {
    var _ :- Require(month in c.tables && month in c.rules, BadRequest);
    var _ :- Require(row.Some? ==> b.runs[row.value].status == ReversedRun, Conflict);
    var _ :- Require(basics != [], BadRequest);
    var slips :- SlipsFor(month, basics, c);
    Ok(b.(runs := b.runs + [PayRun(month, DraftRun, slips, TotalsOf(slips))]))
  }

  function Drafted(b: PayBooks, id: nat): Result<PayRun> {
    var _ :- Require(id < |b.runs| && b.runs[id].status != DeletedRun, NotFound);
    var _ :- Require(b.runs[id].status == DraftRun, Conflict);
    Ok(b.runs[id])
  }

  /** A run with one payslip replaced and its totals recomputed. */
  function Edited(run: PayRun, k: nat, slip: Slip): PayRun
    requires k < |run.slips|
  {
    run.(slips := run.slips[k := slip], totals := TotalsOf(run.slips[k := slip]))
  }

  function Update(b: PayBooks, id: nat, k: nat, allowances: int, c: Config): Result<PayBooks> {
    var run :- Drafted(b, id);
    var _ :- Require(k < |run.slips|, NotFound);
    var slip :- SlipFor(run.month, run.slips[k].basic, allowances, c);
    Ok(b.(runs := b.runs[id := Edited(run, k, slip)]))
  }

  function Delete(b: PayBooks, id: nat): Result<PayBooks> {
    var run :- Drafted(b, id);
    Ok(b.(runs := b.runs[id := run.(status := DeletedRun)]))
  }

  function Wages(t: Totals): int { t.gross + t.ssEmployer }

  function PostLines(t: Totals): seq<Line> {
    [Debit(WagesExpense, Wages(t)), Credit(PayePayable, t.paye + t.levy),
     Credit(NssaPayable, t.ssEmployee + t.ssEmployer), Credit(NetWagesPayable, t.net)]
  }

  function ReverseLines(t: Totals): seq<Line> {
    [Credit(WagesExpense, Wages(t)), Debit(PayePayable, t.paye + t.levy),
     Debit(NssaPayable, t.ssEmployee + t.ssEmployer), Debit(NetWagesPayable, t.net)]
  }

  /** Payroll is dated on the last day of its month. */
  function LastDay(month: int): (date: int)
    ensures PeriodMonthOf(date) == month
  {
    (month + 1) * MONTH_SPAN - 1
  }

  function PostEntry(run: PayRun, id: nat): Entry {
    Entry(LastDay(run.month), PayrollSource, PayrollRunId(id), PostLines(run.totals))
  }

  function ReverseEntry(run: PayRun, id: nat, now: int): Entry {
    Entry(now, PayrollReversalSource, PayrollRunId(id), ReverseLines(run.totals))
  }

  const PAYROLL_ACCOUNTS := [WagesExpense, PayePayable, NssaPayable, NetWagesPayable]

  /** The ledger with those accounts opened that its chart lacks; an inactive one stays inactive. */
  function Ensured(l: Ledger, accounts: seq<Account>): Ledger {
    if accounts == [] then l
    else
      var before, a := Ensured(l, accounts[..|accounts| - 1]), accounts[|accounts| - 1];
      if a in before.chart then before else before.(chart := before.chart + [a], inactive := before.inactive - {a})
  }

  function PostRun(b: PayBooks, id: nat): Result<PayBooks> {
    var run :- Drafted(b, id);
    var ledger :- Post(Ensured(b.ledger, PAYROLL_ACCOUNTS), PostEntry(run, id));
    Ok(PayBooks(b.runs[id := run.(status := PostedRun)], ledger))
  }

  function Reverse(b: PayBooks, id: nat, now: int): Result<PayBooks> {
    var _ :- Require(id < |b.runs| && b.runs[id].status != DeletedRun, NotFound);
    var run := b.runs[id];
    var _ :- Require(run.status == PostedRun, Conflict);
    var ledger :- Post(Ensured(b.ledger, PAYROLL_ACCOUNTS), ReverseEntry(run, id, now));
    Ok(PayBooks(b.runs[id := run.(status := ReversedRun)], ledger))
  }

  // ----- The same, as the tables are written -----

  class PayrollBook {
    var runs: seq<PayRun>

    constructor ()
      ensures runs == []
    {
      runs := [];
    }

    method ComputeSlips(month: int, basics: seq<int>, c: Config) returns (r: Result<seq<Slip>>)
      requires ConfigOk(c) && month in c.tables && month in c.rules
      ensures r.Ok? <==> SlipsFor(month, basics, c).Ok?
      ensures r.Ok? ==> r == SlipsFor(month, basics, c)
    {
      var slips: seq<Slip> := [];
      for i := 0 to |basics|
        invariant SlipsFor(month, basics[..i], c) == Ok(slips)
      {
        assert basics[..i + 1][..i] == basics[..i];
        SlipsFailOnward(month, basics, c, i + 1);
        var slip := ComputePayslip(basics[i], 0, c.tables[month], c.rules[month]);
        if slip.Err? { return Err(slip.error); }
        slips := slips + [slip.value];
      }
      assert basics[..|basics|] == basics;
      return Ok(slips);
    }

    method CreatePayrollRun(ghost ledger: Ledger, month: int, basics: seq<int>, c: Config, row: Option<nat>)
      returns (r: Result<()>)
      requires ConfigOk(c) && IsAnswer(runs, month, row)
      modifies this
      ensures r.Ok? <==> Create(PayBooks(old(runs), ledger), month, basics, c, row).Ok?
      ensures PayBooks(runs, ledger)
           == OrElse(Create(PayBooks(old(runs), ledger), month, basics, c, row), PayBooks(old(runs), ledger))
    {
      if month !in c.tables || month !in c.rules { return Err(BadRequest); }
      if row.Some? && runs[row.value].status != ReversedRun { return Err(Conflict); }
      if basics == [] { return Err(BadRequest); }
      var slips := ComputeSlips(month, basics, c);
      if slips.Err? { return Err(slips.error); }
      var totals := RunTotals(slips.value);
      runs := runs + [PayRun(month, DraftRun, slips.value, totals)];
      return Ok(());
    }

    /** Recomputes one payslip and then the totals of the whole run. */
    method UpdateDraftPayslip(ghost ledger: Ledger, id: nat, k: nat, allowances: int, c: Config) returns (r: Result<()>)
      requires ConfigOk(c)
      modifies this
      ensures r.Ok? <==> Update(PayBooks(old(runs), ledger), id, k, allowances, c).Ok?
      ensures PayBooks(runs, ledger)
           == OrElse(Update(PayBooks(old(runs), ledger), id, k, allowances, c), PayBooks(old(runs), ledger))
    {
      if id >= |runs| || runs[id].status == DeletedRun { return Err(NotFound); }
      var run := runs[id];
      if run.status != DraftRun { return Err(Conflict); }
      if k >= |run.slips| { return Err(NotFound); }
      if run.month !in c.tables || run.month !in c.rules { return Err(BadRequest); }
      var slip := ComputePayslip(run.slips[k].basic, allowances, c.tables[run.month], c.rules[run.month]);
      if slip.Err? { return Err(slip.error); }
      var slips := run.slips[k := slip.value];
      var totals := RunTotals(slips);
      runs := runs[id := run.(slips := slips, totals := totals)];
      return Ok(());
    }

    method EnsurePayrollAccounts(journal: Journal)
      modifies journal`chart, journal`inactive
      ensures journal.State() == Ensured(old(journal.State()), PAYROLL_ACCOUNTS)
    {
      for i := 0 to |PAYROLL_ACCOUNTS|
        invariant journal.State() == Ensured(old(journal.State()), PAYROLL_ACCOUNTS[..i])
      {
        assert PAYROLL_ACCOUNTS[..i + 1][..i] == PAYROLL_ACCOUNTS[..i];
        var a := PAYROLL_ACCOUNTS[i];
        if a !in journal.chart {
          journal.chart, journal.inactive := journal.chart + [a], journal.inactive - {a};
        }
      }
      assert PAYROLL_ACCOUNTS[..|PAYROLL_ACCOUNTS|] == PAYROLL_ACCOUNTS;
    }

    method PostPayrollRun(journal: Journal, id: nat) returns (r: Result<()>)
      modifies this, journal
      ensures r.Ok? <==> PostRun(old(PayBooks(runs, journal.State())), id).Ok?
      ensures PayBooks(runs, journal.State())
           == OrElse(PostRun(old(PayBooks(runs, journal.State())), id), old(PayBooks(runs, journal.State())))
    {
      if id >= |runs| || runs[id].status == DeletedRun { return Err(NotFound); }
      var run := runs[id];
      if run.status != DraftRun { return Err(Conflict); }
      var t := run.totals;
      var paye, ss, net := t.paye + t.levy, t.ssEmployee + t.ssEmployer, t.net;
      var wagesDebit := t.gross + t.ssEmployer;
      var saved := journal.State();
      EnsurePayrollAccounts(journal);
      r := journal.PostJournal(LastDay(run.month), PayrollSource, PayrollRunId(id),
                               [Debit(WagesExpense, wagesDebit), Credit(PayePayable, paye), Credit(NssaPayable, ss),
                                   Credit(NetWagesPayable, net)]);
      if r.Err? {
        journal.Rollback(saved);
        return;
      }
      runs := runs[id := run.(status := PostedRun)];
    }

    method ReversePayrollRun(journal: Journal, id: nat, now: int) returns (r: Result<()>)
      modifies this, journal
      ensures r.Ok? <==> Reverse(old(PayBooks(runs, journal.State())), id, now).Ok?
      ensures PayBooks(runs, journal.State())
           == OrElse(Reverse(old(PayBooks(runs, journal.State())), id, now), old(PayBooks(runs, journal.State())))
    {
      if id >= |runs| || runs[id].status == DeletedRun { return Err(NotFound); }
      var run := runs[id];
      if run.status != PostedRun { return Err(Conflict); }
      var t := run.totals;
      var paye, ss, net := t.paye + t.levy, t.ssEmployee + t.ssEmployer, t.net;
      var wages := t.gross + t.ssEmployer;
      var saved := journal.State();
      EnsurePayrollAccounts(journal);
      r := journal.PostJournal(now, PayrollReversalSource, PayrollRunId(id),
                               [Credit(WagesExpense, wages), Debit(PayePayable, paye), Debit(NssaPayable, ss),
                                   Debit(NetWagesPayable, net)]);
      if r.Err? {
        journal.Rollback(saved);
        return;
      }
      runs := runs[id := run.(status := ReversedRun)];
    }
  }

  lemma {:induction false} SlipsFailOnward(month: int, basics: seq<int>, c: Config, n: nat)
    requires n <= |basics|
    ensures SlipsFor(month, basics[..n], c).Err? ==> SlipsFor(month, basics, c).Err?
    decreases |basics| - n
  {
    if n < |basics| {
      assert basics[..n + 1][..n] == basics[..n];
      SlipsFailOnward(month, basics, c, n + 1);
    } else {
      assert basics[..n] == basics;
    }
  }

  // ----- The journal -----

  lemma PostLinesTotals(t: Totals)
    requires TotalsOk(t)
    ensures TotalDebit(PostLines(t)) == TotalCredit(PostLines(t))
  {
    var lines := PostLines(t);
    assert [lines[0]] + [lines[1]] == lines[..2] && lines[..2] + [lines[2]] == lines[..3]
        && lines[..3] + [lines[3]] == lines;
    assert [] + [lines[0]] == [lines[0]];
    AddLine([], lines[0], WagesExpense);
    AddLine([lines[0]], lines[1], WagesExpense);
    AddLine(lines[..2], lines[2], WagesExpense);
    AddLine(lines[..3], lines[3], WagesExpense);
  }

  /** The entry of a run balances, and is accepted as far as its amounts go exactly when none
      of the tax, the social security and the net pay is zero. */
  lemma PostLinesBalance(t: Totals)
    requires TotalsOk(t)
    ensures Balanced(PostLines(t)) <==> 0 < t.paye + t.levy && 0 < t.ssEmployee + t.ssEmployer && 0 < t.net
  {
    PostLinesTotals(t);
    var lines := PostLines(t);
    assert lines[0] in lines && lines[1] in lines && lines[2] in lines && lines[3] in lines;
    assert OneSided(lines[1]) <==> 0 < t.paye + t.levy;
    assert OneSided(lines[2]) <==> 0 < t.ssEmployee + t.ssEmployer;
    assert OneSided(lines[3]) <==> 0 < t.net;
    assert 0 < t.net ==> OneSided(lines[0]);
  }

  lemma ReversalIsReversed(t: Totals, a: Account)
    ensures ReverseLines(t) == Reversed(PostLines(t)) && Net(ReverseLines(t), a) == -Net(PostLines(t), a)
  {
    assert ReverseLines(t) == Reversed(PostLines(t));
    ReversedNet(PostLines(t), a);
  }

  // ----- Every run of the life cycle -----

  datatype PayStep =
    | CreateStep(month: int, basics: seq<int>, config: Config, row: Option<nat>)
    | UpdateStep(id: nat, slip: nat, allowances: int, config: Config)
    | DeleteStep(id: nat)
    | PostStep(id: nat)
    | ReverseStep(id: nat, now: int)
    | ElsewhereStep(entry: Entry)
    | CloseStep(month: int, now: int)
    | ReopenStep(month: int)

  ghost predicate Possible(b: PayBooks, s: PayStep) {
    match s
    case CreateStep(month, _, config, row) => ConfigOk(config) && IsAnswer(b.runs, month, row)
    case UpdateStep(_, _, _, config) => ConfigOk(config)
    case ElsewhereStep(entry) => !entry.sourceId.PayrollRunId?
    case _ => true
  }

  function Stepped(b: PayBooks, s: PayStep): Result<PayBooks>
    requires s.CreateStep? ==> IsAnswer(b.runs, s.month, s.row)
  {
    match s
    case CreateStep(month, basics, config, row) => Create(b, month, basics, config, row)
    case UpdateStep(id, slip, allowances, config) => Update(b, id, slip, allowances, config)
    case DeleteStep(id) => Delete(b, id)
    case PostStep(id) => PostRun(b, id)
    case ReverseStep(id, now) => Reverse(b, id, now)
    case ElsewhereStep(entry) =>
      var ledger :- Post(b.ledger, entry);
      Ok(b.(ledger := ledger))
    case CloseStep(month, now) =>
      var ledger :- Close(b.ledger, month, now);
      Ok(b.(ledger := ledger))
    case ReopenStep(month) =>
      var ledger :- Reopen(b.ledger, month);
      Ok(b.(ledger := ledger))
  }

  /** Any sequence of attempted steps from empty books; a step that cannot be taken, because the
      database would not answer so or the configuration is malformed, is skipped. */
  ghost function Lived(ledger: Ledger, steps: seq<PayStep>): PayBooks {
    if steps == [] then PayBooks([], ledger.(entries := []))
    else
      var before, s := Lived(ledger, steps[..|steps| - 1]), steps[|steps| - 1];
      if Possible(before, s) then OrElse(Stepped(before, s), before) else before
  }

  predicate RunOk(run: PayRun) { run.totals == TotalsOf(run.slips) && TotalsOk(run.totals) && All(run.slips, SlipOk) }

  function Weight(run: PayRun, a: Account): int {
    if run.status == PostedRun then Net(PostLines(run.totals), a) else 0
  }

  function Expected(runs: seq<PayRun>, id: nat, a: Account): int {
    if id < |runs| then Weight(runs[id], a) else 0
  }

  ghost predicate RunsOk(runs: seq<PayRun>) { All(runs, RunOk) }

  ghost predicate Weighs(runs: seq<PayRun>, entries: seq<Entry>) {
    forall id: nat, a :: SourceBalance(entries, PayrollRunId(id), a) == Expected(runs, id, a)
  }

  /** Totals are those of the payslips, and a run weighs on an account exactly while it is posted. */
  ghost predicate PayOk(b: PayBooks) { RunsOk(b.runs) && Weighs(b.runs, b.ledger.entries) }

  lemma SlipForOk(month: int, basic: int, allowances: int, c: Config)
    requires ConfigOk(c) && SlipFor(month, basic, allowances, c).Ok?
    ensures SlipOk(SlipFor(month, basic, allowances, c).value)
  {
    SlipAddsUp(basic, allowances, c.tables[month], c.rules[month]);
  }

  lemma {:induction false} SlipsForOk(month: int, basics: seq<int>, c: Config)
    requires ConfigOk(c) && SlipsFor(month, basics, c).Ok?
    ensures All(SlipsFor(month, basics, c).value, SlipOk)
  {
    if basics != [] {
      SlipsForOk(month, basics[..|basics| - 1], c);
      SlipForOk(month, basics[|basics| - 1], 0, c);
      AllExtended(SlipsFor(month, basics[..|basics| - 1], c).value, SlipFor(month, basics[|basics| - 1], 0, c).value,
          SlipOk);
    }
  }

  lemma SameWeights(runs: seq<PayRun>, other: seq<PayRun>, entries: seq<Entry>)
    requires Weighs(runs, entries) && forall id: nat, a :: Expected(other, id, a) == Expected(runs, id, a)
    ensures Weighs(other, entries)
  {
  }

  lemma AppendedOk(runs: seq<PayRun>, run: PayRun)
    requires RunsOk(runs) && RunOk(run)
    ensures RunsOk(runs + [run])
  {
    AllExtended(runs, run, RunOk);
  }

  lemma AppendedWeighs(runs: seq<PayRun>, run: PayRun, entries: seq<Entry>)
    requires Weighs(runs, entries) && run.status == DraftRun
    ensures Weighs(runs + [run], entries)
  {
    forall id: nat, a ensures Expected(runs + [run], id, a) == Expected(runs, id, a) {}
    SameWeights(runs, runs + [run], entries);
  }

  lemma ReplacedOk(runs: seq<PayRun>, id: nat, run: PayRun)
    requires RunsOk(runs) && id < |runs| && RunOk(run)
    ensures RunsOk(runs[id := run])
  {
    AllReplaced(runs, id, run, RunOk);
  }

  lemma ReplacedWeighs(runs: seq<PayRun>, id: nat, run: PayRun, entries: seq<Entry>)
    requires Weighs(runs, entries) && id < |runs| && run.status != PostedRun && runs[id].status != PostedRun
    ensures Weighs(runs[id := run], entries)
  {
    forall k: nat, a ensures Expected(runs[id := run], k, a) == Expected(runs, k, a) {}
    SameWeights(runs, runs[id := run], entries);
  }

  lemma CreatedRun(b: PayBooks, month: int, basics: seq<int>, c: Config, row: Option<nat>) returns (run: PayRun)
    requires ConfigOk(c) && IsAnswer(b.runs, month, row) && Create(b, month, basics, c, row).Ok?
    ensures RunOk(run) && run.status == DraftRun && Create(b, month, basics, c, row).value == b.(runs := b.runs + [run])
  {
    var slips := SlipsFor(month, basics, c).value;
    SlipsForOk(month, basics, c);
    TotalsAddUp(slips);
    run := PayRun(month, DraftRun, slips, TotalsOf(slips));
  }

  lemma EditedOk(run: PayRun, k: nat, slip: Slip)
    requires RunOk(run) && SlipOk(slip) && k < |run.slips|
    ensures RunOk(Edited(run, k, slip))
  {
    AllReplaced(run.slips, k, slip, SlipOk);
    TotalsAddUp(run.slips[k := slip]);
  }

  lemma WeighsMore(runs: seq<PayRun>, id: nat, status: RunStatus, entries: seq<Entry>, e: Entry)
    requires Weighs(runs, entries) && id < |runs| && e.sourceId == PayrollRunId(id)
    requires forall a :: Weight(runs[id].(status := status), a) == Weight(runs[id], a) + Net(e.lines, a)
    ensures Weighs(runs[id := runs[id].(status := status)], entries + [e])
  {
    var run := runs[id].(status := status);
    forall k: nat, a ensures SourceBalance(entries + [e], PayrollRunId(k), a) == Expected(runs[id := run], k, a) {
      SourceBalanceAppend(entries, [e], PayrollRunId(k), a);
      SourceBalanceOne(e, PayrollRunId(k), a);
      assert SourceBalance(entries, PayrollRunId(k), a) == Expected(runs, k, a);
    }
  }

  lemma {:induction false} EnsuredKeeps(l: Ledger, accounts: seq<Account>)
    ensures Ensured(l, accounts).entries == l.entries && Ensured(l, accounts).periods == l.periods
    ensures forall a <- l.chart ::
        a in Ensured(l, accounts).chart && (a in Ensured(l, accounts).inactive <==> a in l.inactive)
    ensures forall a <- accounts :: a in Ensured(l, accounts).chart
    ensures forall a <- Ensured(l, accounts).chart :: a !in l.chart ==> a !in Ensured(l, accounts).inactive
  {
    if accounts != [] {
      EnsuredKeeps(l, accounts[..|accounts| - 1]);
    }
  }

  lemma PostWeighs(b: PayBooks, id: nat)
    requires Weighs(b.runs, b.ledger.entries) && PostRun(b, id).Ok?
    ensures Weighs(PostRun(b, id).value.runs, PostRun(b, id).value.ledger.entries)
  {
    EnsuredKeeps(b.ledger, PAYROLL_ACCOUNTS);
    WeighsMore(b.runs, id, PostedRun, b.ledger.entries, PostEntry(b.runs[id], id));
  }

  lemma ReverseWeighs(b: PayBooks, id: nat, now: int)
    requires Weighs(b.runs, b.ledger.entries) && Reverse(b, id, now).Ok?
    ensures Weighs(Reverse(b, id, now).value.runs, Reverse(b, id, now).value.ledger.entries)
  {
    var run := b.runs[id];
    var e := ReverseEntry(run, id, now);
    forall a ensures Weight(run.(status := ReversedRun), a) == Weight(run, a) + Net(e.lines, a) {
      ReversalIsReversed(run.totals, a);
    }
    EnsuredKeeps(b.ledger, PAYROLL_ACCOUNTS);
    WeighsMore(b.runs, id, ReversedRun, b.ledger.entries, e);
  }

  lemma ElsewhereWeighs(runs: seq<PayRun>, entries: seq<Entry>, e: Entry)
    requires Weighs(runs, entries) && !e.sourceId.PayrollRunId?
    ensures Weighs(runs, entries + [e])
  {
    forall k: nat, a ensures SourceBalance(entries + [e], PayrollRunId(k), a) == Expected(runs, k, a) {
      SourceBalanceAppend(entries, [e], PayrollRunId(k), a);
      SourceBalanceOne(e, PayrollRunId(k), a);
    }
  }

  lemma CreateOk(b: PayBooks, month: int, basics: seq<int>, c: Config, row: Option<nat>)
    requires RunsOk(b.runs) && ConfigOk(c) && IsAnswer(b.runs, month, row) && Create(b, month, basics, c, row).Ok?
    ensures RunsOk(Create(b, month, basics, c, row).value.runs)
  {
    var run := CreatedRun(b, month, basics, c, row);
    AppendedOk(b.runs, run);
  }

  lemma NewSlip(b: PayBooks, id: nat, k: nat, allowances: int, c: Config) returns (slip: Slip)
    requires ConfigOk(c) && Update(b, id, k, allowances, c).Ok?
    ensures id < |b.runs| && k < |b.runs[id].slips| && SlipOk(slip)
    ensures Update(b, id, k, allowances, c).value.runs == b.runs[id := Edited(b.runs[id], k, slip)]
  {
    var run := b.runs[id];
    slip := SlipFor(run.month, run.slips[k].basic, allowances, c).value;
    SlipForOk(run.month, run.slips[k].basic, allowances, c);
  }

  lemma UpdateOk(b: PayBooks, id: nat, k: nat, allowances: int, c: Config)
    requires RunsOk(b.runs) && ConfigOk(c) && Update(b, id, k, allowances, c).Ok?
    ensures RunsOk(Update(b, id, k, allowances, c).value.runs)
  {
    var slip := NewSlip(b, id, k, allowances, c);
    AllAt(b.runs, id, RunOk);
    EditedOk(b.runs[id], k, slip);
    ReplacedOk(b.runs, id, Edited(b.runs[id], k, slip));
  }

  /** A run keeps its figures when only its status changes. */
  lemma RestatusedOk(runs: seq<PayRun>, id: nat, status: RunStatus)
    requires RunsOk(runs) && id < |runs|
    ensures RunOk(runs[id].(status := status))
  {
    AllAt(runs, id, RunOk);
  }

  lemma PostAll(b: PayBooks, id: nat, p: PayRun -> bool)
    requires All(b.runs, p) && PostRun(b, id).Ok? && p(b.runs[id].(status := PostedRun))
    ensures All(PostRun(b, id).value.runs, p)
  {
  }

  lemma ReverseAll(b: PayBooks, id: nat, now: int, p: PayRun -> bool)
    requires All(b.runs, p) && Reverse(b, id, now).Ok? && p(b.runs[id].(status := ReversedRun))
    ensures All(Reverse(b, id, now).value.runs, p)
  {
  }

  lemma DeleteAll(b: PayBooks, id: nat, p: PayRun -> bool)
    requires All(b.runs, p) && Delete(b, id).Ok? && p(b.runs[id].(status := DeletedRun))
    ensures All(Delete(b, id).value.runs, p)
  {
  }

  lemma StepRunsOk(b: PayBooks, s: PayStep)
    requires RunsOk(b.runs) && Possible(b, s) && Stepped(b, s).Ok?
    ensures RunsOk(Stepped(b, s).value.runs)
  {
    match s
    case CreateStep(month, basics, config, row) => CreateOk(b, month, basics, config, row);
    case UpdateStep(id, slip, allowances, config) => UpdateOk(b, id, slip, allowances, config);
    case DeleteStep(id) =>
      RestatusedOk(b.runs, id, DeletedRun);
      DeleteAll(b, id, RunOk);
    case PostStep(id) =>
      RestatusedOk(b.runs, id, PostedRun);
      PostAll(b, id, RunOk);
    case ReverseStep(id, now) =>
      RestatusedOk(b.runs, id, ReversedRun);
      ReverseAll(b, id, now, RunOk);
    case ElsewhereStep(_) =>
    case CloseStep(_, _) =>
    case ReopenStep(_) =>
  }

  lemma StepWeighs(b: PayBooks, s: PayStep)
    requires Weighs(b.runs, b.ledger.entries) && Possible(b, s) && Stepped(b, s).Ok?
    ensures Weighs(Stepped(b, s).value.runs, Stepped(b, s).value.ledger.entries)
  {
    match s
    case CreateStep(month, basics, config, row) =>
      var slips := SlipsFor(month, basics, config).value;
      AppendedWeighs(b.runs, PayRun(month, DraftRun, slips, TotalsOf(slips)), b.ledger.entries);
    case UpdateStep(id, _, _, _) => ReplacedWeighs(b.runs, id, Stepped(b, s).value.runs[id], b.ledger.entries);
    case DeleteStep(id) => ReplacedWeighs(b.runs, id, b.runs[id].(status := DeletedRun), b.ledger.entries);
    case PostStep(id) => PostWeighs(b, id);
    case ReverseStep(id, now) => ReverseWeighs(b, id, now);
    case ElsewhereStep(entry) => ElsewhereWeighs(b.runs, b.ledger.entries, entry);
    case CloseStep(_, _) =>
    case ReopenStep(_) =>
  }

  lemma {:induction false} LifeKeeps(ledger: Ledger, steps: seq<PayStep>)
    ensures PayOk(Lived(ledger, steps))
  {
    if steps != [] {
      var before, s := Lived(ledger, steps[..|steps| - 1]), steps[|steps| - 1];
      LifeKeeps(ledger, steps[..|steps| - 1]);
      if Possible(before, s) && Stepped(before, s).Ok? {
        StepRunsOk(before, s);
        StepWeighs(before, s);
      }
    }
  }

  /** Whatever was created, edited, posted, reversed or deleted, a posted run has put exactly its
      own lines on the accounts and any other run nothing: a reversal cancels account by account. */
  lemma RunsWeighWhilePosted(ledger: Ledger, steps: seq<PayStep>, id: nat, a: Account)
    ensures var b := Lived(ledger, steps);
            SourceBalance(b.ledger.entries, PayrollRunId(id), a)
            == if id < |b.runs| && b.runs[id].status == PostedRun then Net(PostLines(b.runs[id].totals), a) else 0
  {
    LifeKeeps(ledger, steps);
  }

  predicate Usable(l: Ledger, a: Account) { a in l.chart && a !in l.inactive }

  /** A draft reached by any life is refused by the journal exactly when its tax, its social
      security or its net pay is zero, its month is closed, or one of the four payroll accounts has
      been made inactive; a missing account is opened. */
  lemma DraftPostsExactlyWhen(ledger: Ledger, steps: seq<PayStep>, id: nat)
    requires id < |Lived(ledger, steps).runs| && Lived(ledger, steps).runs[id].status == DraftRun
    ensures var b := Lived(ledger, steps);
            var t := b.runs[id].totals;
            PostRun(b, id).Ok? <==>
              && 0 < t.paye + t.levy && 0 < t.ssEmployee + t.ssEmployer && 0 < t.net
              && !IsClosed(b.ledger, b.runs[id].month)
              && forall a <- PAYROLL_ACCOUNTS :: a in b.ledger.chart ==> a !in b.ledger.inactive
  {
    LifeKeeps(ledger, steps);
    var b := Lived(ledger, steps);
    AllAt(b.runs, id, RunOk);
    DraftPosts(b, id);
  }

  lemma DraftPosts(b: PayBooks, id: nat)
    requires id < |b.runs| && b.runs[id].status == DraftRun && TotalsOk(b.runs[id].totals)
    ensures var t := b.runs[id].totals;
            PostRun(b, id).Ok? <==>
              && 0 < t.paye + t.levy && 0 < t.ssEmployee + t.ssEmployer && 0 < t.net
              && !IsClosed(b.ledger, b.runs[id].month)
              && forall a <- PAYROLL_ACCOUNTS :: a in b.ledger.chart ==> a !in b.ledger.inactive
  {
    var t, l := b.runs[id].totals, Ensured(b.ledger, PAYROLL_ACCOUNTS);
    PostLinesBalance(t);
    EnsuredKeeps(b.ledger, PAYROLL_ACCOUNTS);
    LinesUsable(l, t);
    assert forall a <- PAYROLL_ACCOUNTS :: Usable(l, a) <==> (a in b.ledger.chart ==> a !in b.ledger.inactive);
  }

  lemma LinesUsable(l: Ledger, t: Totals)
    ensures (forall line <- PostLines(t) :: Usable(l, line.account)) <==> forall a <- PAYROLL_ACCOUNTS :: Usable(l, a)
  {
    var lines := PostLines(t);
    forall k | 0 <= k < 4 ensures lines[k] in lines && PAYROLL_ACCOUNTS[k] in PAYROLL_ACCOUNTS
        && lines[k].account == PAYROLL_ACCOUNTS[k] {}
  }

  // ----- Everyone below the tax threshold -----

  /** Nothing up to a hundred dollars and a fifth above; 4.5 percent each to social security. */
  const LOW_PAY := Config(
    map[1 := PayeTable([Band(Some(10_000), 0), Band(None, 200_000)], 30_000)],
    map[1 := SocialRule(45_000, 45_000, Some(70_000), true)])

  const LOW_SLIP := Slip(5_000, 0, 5_000, 225, 225, 4_775, 0, 0, 4_775)

  lemma LowPayIsOk()
    ensures ConfigOk(LOW_PAY)
  {
    var t := LOW_PAY.tables[1];
    assert BandOk(t.bands, 0) && BandOk(t.bands, 1);
  }

  lemma LowPaySlip()
    ensures SlipsFor(1, [5_000], LOW_PAY) == Ok([LOW_SLIP])
  {
    var t := LOW_PAY.tables[1];
    assert TaxUpTo(4_775, t.bands, 0) == 0;
    assert TaxUpTo(4_775, t.bands, 1) == 0;
    assert TaxUpTo(4_775, t.bands, 2) == 0;
    assert SlipFor(1, 5_000, 0, LOW_PAY) == Ok(LOW_SLIP);
    assert [5_000][..0] == [] && [] + [LOW_SLIP] == [LOW_SLIP];
  }

  /** Whatever the ledger, a run of one employee paid fifty dollars can be drafted and is then
      refused by the journal, because the tax line is zero. */
  lemma UntaxedRunCannotPost(ledger: Ledger)
    ensures var b := Lived(ledger, [CreateStep(1, [5_000], LOW_PAY, None)]);
            && |b.runs| == 1 && b.runs[0].status == DraftRun && b.runs[0].totals.paye + b.runs[0].totals.levy == 0
            && 0 < b.runs[0].totals.net && PostRun(b, 0).Err?
  {
    var step := CreateStep(1, [5_000], LOW_PAY, None);
    LowPayIsOk();
    LowPaySlip();
    assert [step][..0] == [];
    assert Lived(ledger, []) == PayBooks([], ledger.(entries := []));
    assert TotalsOf([LOW_SLIP][..0]) == Totals(0, 0, 0, 0, 0, 0);
    DraftPostsExactlyWhen(ledger, [step], 0);
  }
}
