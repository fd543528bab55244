/** Trial balance, profit and loss, balance sheet, and the report pack that ties them. */
module Statements {
  import opened Wrappers
  import opened Accounting
  import opened JournalRuns

  // ----- The reports -----

  datatype TrialRow = TrialRow(account: Account, debit: int, credit: int) {
    function Net(): int { debit - credit }
  }

  datatype Side = DebitSide | CreditSide

  function AmountOn(line: Line, side: Side): int { if side == DebitSide then line.debit else line.credit }

  function LinesOn(lines: seq<Line>, a: Account, side: Side): int {
    if lines == [] then 0
    else
      LinesOn(lines[..|lines| - 1], a, side)
      + if lines[|lines| - 1].account == a then AmountOn(lines[|lines| - 1], side) else 0
  }

  function PostedOn(entries: seq<Entry>, a: Account, side: Side): int {
    if entries == [] then 0
    else PostedOn(entries[..|entries| - 1], a, side) + LinesOn(entries[|entries| - 1].lines, a, side)
  }

  /** One row per account of the chart, from the entries dated up to and including an instant. */
  function TrialBalance(l: Ledger, asAt: int): seq<TrialRow> {
    var entries := Before(l.entries, asAt + 1);
    seq(|l.chart|, k requires 0 <= k < |l.chart| =>
      TrialRow(l.chart[k], PostedOn(entries, l.chart[k], DebitSide), PostedOn(entries, l.chart[k], CreditSide)))
  }

  function SumOn(rows: seq<TrialRow>, side: Side): int {
    if rows == [] then 0
    else SumOn(rows[..|rows| - 1], side) + if side == DebitSide then rows[|rows| - 1].debit else rows[|rows| - 1].credit
  }

  datatype Amount = Amount(account: Account, cents: int)

  function AmountSum(rows: seq<Amount>): int {
    if rows == [] then 0 else AmountSum(rows[..|rows| - 1]) + rows[|rows| - 1].cents
  }

  datatype BalanceSheetReport = BalanceSheetReport(
    assets: seq<Amount>, liabilities: seq<Amount>, equity: seq<Amount>,
    currentEarnings: int, totalAssets: int, totalLiabilities: int, totalEquity: int, balances: bool)

  /** The rows of one kind that are not zero, debit-positive or credit-positive. */
  function RowsOf(tb: seq<TrialRow>, kind: AccountKind, sign: int): seq<Amount> {
    if tb == [] then []
    else
      var last := tb[|tb| - 1];
      RowsOf(tb[..|tb| - 1], kind, sign)
      + if Kind(last.account) == kind && last.Net() != 0 then [Amount(last.account, sign * last.Net())] else []
  }

  function EarningsOf(tb: seq<TrialRow>): int {
    if tb == [] then 0
    else
      var last := tb[|tb| - 1];
      EarningsOf(tb[..|tb| - 1]) - if Kind(last.account) in {Income, Expense} then last.Net() else 0
  }

  function BalanceSheet(l: Ledger, asAt: int): BalanceSheetReport {
    var tb := TrialBalance(l, asAt);
    var assets, liabilities, equity := RowsOf(tb, Asset, 1), RowsOf(tb, Liability, -1), RowsOf(tb, Equity, -1);
    var earnings := EarningsOf(tb);
    var totalAssets, totalLiabilities, totalEquity := AmountSum(assets), AmountSum(liabilities),
        AmountSum(equity) + earnings;
    BalanceSheetReport(assets, liabilities, equity, earnings, totalAssets, totalLiabilities, totalEquity,
                       totalAssets == totalLiabilities + totalEquity)
  }

  datatype ProfitReport = ProfitReport(
    income: seq<Amount>, expenses: seq<Amount>, totalIncome: int, totalExpenses: int, netProfit: int)

  function Within(entries: seq<Entry>, from: int, to: int): seq<Entry> {
    if entries == [] then []
    else
      var last := entries[|entries| - 1];
      Within(entries[..|entries| - 1], from, to) + if from <= last.date <= to then [last] else []
  }

  predicate Posts(entries: seq<Entry>, a: Account) {
    exists e <- entries :: exists line <- e.lines :: line.account == a
  }

  /** Credits less debits of the income and expense accounts in a chart. */
  function ProfitOf(chart: seq<Account>, entries: seq<Entry>): int {
    if chart == [] then 0
    else
      var a := chart[|chart| - 1];
      ProfitOf(chart[..|chart| - 1], entries) - if Kind(a) in {Income, Expense} then Balance(entries, a) else 0
  }

  function Profit(l: Ledger, from: int, to: int): int { ProfitOf(l.chart, Within(l.entries, from, to)) }

  /** The accounts of one kind that were posted to, with what they net to. */
  function PostedRows(chart: seq<Account>, entries: seq<Entry>, kind: AccountKind, sign: int): seq<Amount> {
    if chart == [] then []
    else
      var a := chart[|chart| - 1];
      PostedRows(chart[..|chart| - 1], entries, kind, sign)
      + if Kind(a) == kind && Posts(entries, a) then [Amount(a, sign * Balance(entries, a))] else []
  }

  method ProfitAndLoss(l: Ledger, from: int, to: int) returns (r: ProfitReport)
    ensures r.income == PostedRows(l.chart, Within(l.entries, from, to), Income, -1)
    ensures r.expenses == PostedRows(l.chart, Within(l.entries, from, to), Expense, 1)
    ensures r.totalIncome == AmountSum(r.income) && r.totalExpenses == AmountSum(r.expenses)
    ensures r.netProfit == r.totalIncome - r.totalExpenses == Profit(l, from, to)
  {
    var entries := Within(l.entries, from, to);
    var income: seq<Amount>, expenses: seq<Amount> := [], [];
    var totalIncome, totalExpenses := 0, 0;
    for k := 0 to |l.chart|
      invariant Tallied(l.chart[..k], entries, income, expenses, totalIncome, totalExpenses)
    {
      var a := l.chart[k];
      TallyNext(l.chart, k, entries, income, expenses, totalIncome, totalExpenses);
      if (Kind(a) == Income || Kind(a) == Expense) && Posts(entries, a) {
        var net := -Balance(entries, a);
        if Kind(a) == Income {
          income, totalIncome := income + [Amount(a, net)], totalIncome + net;
        } else {
          expenses, totalExpenses := expenses + [Amount(a, -net)], totalExpenses - net;
        }
      }
    }
    assert l.chart[..|l.chart|] == l.chart;
    r := ProfitReport(income, expenses, totalIncome, totalExpenses, totalIncome - totalExpenses);
  }

  /** The lists and totals of the accounts read so far. */
  predicate Tallied(chart: seq<Account>, entries: seq<Entry>, income: seq<Amount>, expenses: seq<Amount>,
                    totalIncome: int, totalExpenses: int) {
    && income == PostedRows(chart, entries, Income, -1) && totalIncome == AmountSum(income)
    && expenses == PostedRows(chart, entries, Expense, 1) && totalExpenses == AmountSum(expenses)
    && totalIncome - totalExpenses == ProfitOf(chart, entries)
  }

  lemma TallyNext(chart: seq<Account>, k: nat, entries: seq<Entry>, income: seq<Amount>, expenses: seq<Amount>,
                  totalIncome: int, totalExpenses: int)
    requires k < |chart| && Tallied(chart[..k], entries, income, expenses, totalIncome, totalExpenses)
    ensures var a, net := chart[k], -Balance(entries, chart[k]);
            if Kind(a) == Income && Posts(entries, a) then
              Tallied(chart[..k + 1], entries, income + [Amount(a, net)], expenses, totalIncome + net, totalExpenses)
            else if Kind(a) == Expense && Posts(entries, a) then
              Tallied(chart[..k + 1], entries, income, expenses + [Amount(a, -net)], totalIncome, totalExpenses - net)
            else Tallied(chart[..k + 1], entries, income, expenses, totalIncome, totalExpenses)
  {
    var a, net := chart[k], -Balance(entries, chart[k]);
    RowsNext(chart, k, entries, Income, -1);
    RowsNext(chart, k, entries, Expense, 1);
    if !Posts(entries, a) { NeverPosted(entries, a); }
    AddAmount(income, Amount(a, net));
    AddAmount(expenses, Amount(a, -net));
  }

  lemma RowsNext(chart: seq<Account>, k: nat, entries: seq<Entry>, kind: AccountKind, sign: int)
    requires k < |chart|
    ensures PostedRows(chart[..k + 1], entries, kind, sign)
         == PostedRows(chart[..k], entries, kind, sign)
            + if Kind(chart[k]) == kind && Posts(entries, chart[k])
                then [Amount(chart[k], sign * Balance(entries, chart[k]))] else []
    ensures ProfitOf(chart[..k + 1], entries)
         == ProfitOf(chart[..k], entries) - if Kind(chart[k]) in {Income, Expense} then Balance(entries, chart[k])
             else 0
  {
    assert chart[..k + 1][..k] == chart[..k];
  }

  lemma AddAmount(rows: seq<Amount>, row: Amount)
    ensures AmountSum(rows + [row]) == AmountSum(rows) + row.cents
  {
    assert (rows + [row])[..|rows|] == rows;
  }

  lemma {:induction false} NeverPosted(entries: seq<Entry>, a: Account)
    requires !Posts(entries, a)
    ensures Balance(entries, a) == 0
  {
    if entries != [] {
      var last := entries[|entries| - 1];
      assert last in entries;
      NetOfUntouched(last.lines, a);
      NeverPosted(entries[..|entries| - 1], a);
    }
  }

  // ----- Debits equal credits -----

  function SideTotal(lines: seq<Line>, side: Side): int {
    if side == DebitSide then TotalDebit(lines) else TotalCredit(lines)
  }

  function AllPosted(entries: seq<Entry>, side: Side): int {
    if entries == [] then 0
    else AllPosted(entries[..|entries| - 1], side) + SideTotal(entries[|entries| - 1].lines, side)
  }

  function ChartLines(chart: seq<Account>, lines: seq<Line>, side: Side): int {
    if chart == [] then 0 else ChartLines(chart[..|chart| - 1], lines, side) + LinesOn(lines, chart[|chart| - 1], side)
  }

  function ChartPosted(chart: seq<Account>, entries: seq<Entry>, side: Side): int {
    if chart == [] then 0
    else ChartPosted(chart[..|chart| - 1], entries, side) + PostedOn(entries, chart[|chart| - 1], side)
  }

  predicate NoRepeats(chart: seq<Account>) { forall i, j :: 0 <= i < j < |chart| ==> chart[i] != chart[j] }

  lemma {:induction false} ChartLinesAdd(chart: seq<Account>, lines: seq<Line>, line: Line, side: Side)
    requires NoRepeats(chart)
    ensures ChartLines(chart, lines + [line], side)
         == ChartLines(chart, lines, side) + if line.account in chart then AmountOn(line, side) else 0
  {
    assert (lines + [line])[..|lines|] == lines;
    if chart != [] {
      var n := |chart| - 1;
      ChartLinesAdd(chart[..n], lines, line, side);
      assert line.account in chart <==> line.account in chart[..n] || line.account == chart[n];
    }
  }

  lemma {:induction false} ChartLinesTotal(chart: seq<Account>, lines: seq<Line>, side: Side)
    requires NoRepeats(chart) && forall line <- lines :: line.account in chart
    ensures ChartLines(chart, lines, side) == SideTotal(lines, side)
  {
    if lines == [] {
      ChartLinesEmpty(chart, side);
    } else {
      var n := |lines| - 1;
      assert lines[n] in lines && lines[..n] + [lines[n]] == lines;
      ChartLinesTotal(chart, lines[..n], side);
      ChartLinesAdd(chart, lines[..n], lines[n], side);
    }
  }

  lemma {:induction false} ChartLinesEmpty(chart: seq<Account>, side: Side)
    ensures ChartLines(chart, [], side) == 0 && ChartPosted(chart, [], side) == 0
  {
    if chart != [] {
      ChartLinesEmpty(chart[..|chart| - 1], side);
    }
  }

  lemma {:induction false} ChartPostedAdd(chart: seq<Account>, entries: seq<Entry>, e: Entry, side: Side)
    ensures ChartPosted(chart, entries + [e], side)
        == ChartPosted(chart, entries, side) + ChartLines(chart, e.lines, side)
  {
    assert (entries + [e])[..|entries|] == entries;
    if chart != [] {
      ChartPostedAdd(chart[..|chart| - 1], entries, e, side);
    }
  }

  /** Summed over the chart, what accounts received is what the entries posted. */
  lemma {:induction false} ChartPostedTotal(chart: seq<Account>, entries: seq<Entry>, side: Side)
    requires NoRepeats(chart) && forall e <- entries :: forall line <- e.lines :: line.account in chart
    ensures ChartPosted(chart, entries, side) == AllPosted(entries, side)
  {
    if entries == [] {
      ChartLinesEmpty(chart, side);
    } else {
      var n := |entries| - 1;
      assert entries[n] in entries && entries[..n] + [entries[n]] == entries;
      ChartPostedTotal(chart, entries[..n], side);
      ChartPostedAdd(chart, entries[..n], entries[n], side);
      ChartLinesTotal(chart, entries[n].lines, side);
    }
  }

  lemma {:induction false} EqualSides(entries: seq<Entry>)
    requires forall e <- entries :: Balanced(e.lines)
    ensures AllPosted(entries, DebitSide) == AllPosted(entries, CreditSide)
  {
    if entries != [] {
      assert entries[|entries| - 1] in entries;
      EqualSides(entries[..|entries| - 1]);
    }
  }

  lemma {:induction false} RowsSum(l: Ledger, asAt: int, n: nat, side: Side)
    requires n <= |l.chart|
    ensures SumOn(TrialBalance(l, asAt)[..n], side) == ChartPosted(l.chart[..n], Before(l.entries, asAt + 1), side)
  {
    if n > 0 {
      RowsSum(l, asAt, n - 1, side);
      assert TrialBalance(l, asAt)[..n][..n - 1] == TrialBalance(l, asAt)[..n - 1]
          && l.chart[..n][..n - 1] == l.chart[..n - 1];
    }
  }

  /** At any date, trial-balance debits equal credits. */
  lemma TrialBalanceBalances(l: Ledger, asAt: int)
    requires Sound(l)
    ensures SumOn(TrialBalance(l, asAt), DebitSide) == SumOn(TrialBalance(l, asAt), CreditSide)
  {
    var entries := Before(l.entries, asAt + 1);
    BeforeIsPart(l.entries, asAt + 1);
    var n := |l.chart|;
    assert TrialBalance(l, asAt)[..n] == TrialBalance(l, asAt) && l.chart[..n] == l.chart;
    RowsSum(l, asAt, n, DebitSide);
    RowsSum(l, asAt, n, CreditSide);
    ChartPostedTotal(l.chart, entries, DebitSide);
    ChartPostedTotal(l.chart, entries, CreditSide);
    EqualSides(entries);
  }

  // ----- The balance sheet -----

  /** Split by kind, the rows of a trial balance still add up. */
  lemma {:induction false} KindsPartition(tb: seq<TrialRow>)
    ensures AmountSum(RowsOf(tb, Asset, 1)) - AmountSum(RowsOf(tb, Liability, -1)) - AmountSum(RowsOf(tb, Equity, -1))
        - EarningsOf(tb)
         == SumOn(tb, DebitSide) - SumOn(tb, CreditSide)
  {
    if tb != [] {
      var n := |tb| - 1;
      KindsPartition(tb[..n]);
      LastRow(tb, Asset, 1);
      LastRow(tb, Liability, -1);
      LastRow(tb, Equity, -1);
    }
  }

  lemma LastRow(tb: seq<TrialRow>, kind: AccountKind, sign: int)
    requires tb != []
    ensures var last := tb[|tb| - 1];
            AmountSum(RowsOf(tb, kind, sign))
            == AmountSum(RowsOf(tb[..|tb| - 1], kind, sign))
                + if Kind(last.account) == kind then sign * last.Net() else 0
  {
    var rows, last := RowsOf(tb[..|tb| - 1], kind, sign), tb[|tb| - 1];
    var row := Amount(last.account, sign * last.Net());
    assert (rows + [row])[..|rows|] == rows && rows + [] == rows;
  }

  /** Assets equal liabilities plus equity plus earnings, at any date. */
  lemma BalanceSheetBalances(l: Ledger, asAt: int)
    requires Sound(l)
    ensures BalanceSheet(l, asAt).balances
    ensures BalanceSheet(l, asAt).totalAssets
        == BalanceSheet(l, asAt).totalLiabilities + BalanceSheet(l, asAt).totalEquity
  {
    TrialBalanceBalances(l, asAt);
    KindsPartition(TrialBalance(l, asAt));
  }

  // ----- Profit -----

  lemma {:induction false} BalanceIsSides(entries: seq<Entry>, a: Account)
    ensures Balance(entries, a) == PostedOn(entries, a, DebitSide) - PostedOn(entries, a, CreditSide)
  {
    if entries != [] {
      BalanceIsSides(entries[..|entries| - 1], a);
      NetIsSides(entries[|entries| - 1].lines, a);
    }
  }

  lemma {:induction false} NetIsSides(lines: seq<Line>, a: Account)
    ensures Accounting.Net(lines, a) == LinesOn(lines, a, DebitSide) - LinesOn(lines, a, CreditSide)
  {
    if lines != [] {
      NetIsSides(lines[..|lines| - 1], a);
    }
  }

  /** The entries of a period are those before its end without those before its start. */
  lemma {:induction false} WithinIsDifference(entries: seq<Entry>, from: int, to: int, a: Account)
    requires from <= to + 1
    ensures Balance(Within(entries, from, to), a)
        == Balance(Before(entries, to + 1), a) - Balance(Before(entries, from), a)
  {
    if entries != [] {
      var n := |entries| - 1;
      var e := entries[n];
      WithinIsDifference(entries[..n], from, to, a);
      MaybePosted(Within(entries[..n], from, to), e, from <= e.date <= to, a);
      MaybePosted(Before(entries[..n], to + 1), e, e.date < to + 1, a);
      MaybePosted(Before(entries[..n], from), e, e.date < from, a);
    }
  }

  lemma MaybePosted(entries: seq<Entry>, e: Entry, posted: bool, a: Account)
    ensures Balance(entries + if posted then [e] else [], a) == Balance(entries, a)
        + if posted then Accounting.Net(e.lines, a) else 0
  {
    if posted { PostedNet(entries, e, a); } else { assert entries + [] == entries; }
  }

  lemma {:induction false} ProfitDifference(chart: seq<Account>, entries: seq<Entry>, from: int, to: int)
    requires from <= to + 1
    ensures ProfitOf(chart, Within(entries, from, to))
        == ProfitOf(chart, Before(entries, to + 1)) - ProfitOf(chart, Before(entries, from))
  {
    if chart != [] {
      ProfitDifference(chart[..|chart| - 1], entries, from, to);
      WithinIsDifference(entries, from, to, chart[|chart| - 1]);
    }
  }

  /** Profit over a period is the sum of the profits over two adjacent parts of it. */
  lemma ProfitIsAdditive(l: Ledger, from: int, middle: int, to: int)
    requires from <= middle + 1 && middle <= to
    ensures Profit(l, from, to) == Profit(l, from, middle) + Profit(l, middle + 1, to)
  {
    ProfitDifference(l.chart, l.entries, from, to);
    ProfitDifference(l.chart, l.entries, from, middle);
    ProfitDifference(l.chart, l.entries, middle + 1, to);
  }

  lemma {:induction false} EarningsAreProfits(l: Ledger, asAt: int, n: nat)
    requires n <= |l.chart|
    ensures EarningsOf(TrialBalance(l, asAt)[..n]) == ProfitOf(l.chart[..n], Before(l.entries, asAt + 1))
  {
    if n > 0 {
      EarningsAreProfits(l, asAt, n - 1);
      assert TrialBalance(l, asAt)[..n][..n - 1] == TrialBalance(l, asAt)[..n - 1]
          && l.chart[..n][..n - 1] == l.chart[..n - 1];
      BalanceIsSides(Before(l.entries, asAt + 1), l.chart[n - 1]);
    }
  }

  lemma {:induction false} NothingBefore(entries: seq<Entry>, start: int)
    requires forall e <- entries :: start <= e.date
    ensures Before(entries, start) == []
  {
    if entries != [] {
      assert entries[|entries| - 1] in entries;
      NothingBefore(entries[..|entries| - 1], start);
    }
  }

  lemma {:induction false} ProfitOfNothing(chart: seq<Account>)
    ensures ProfitOf(chart, []) == 0
  {
    if chart != [] {
      ProfitOfNothing(chart[..|chart| - 1]);
    }
  }

  /** The earnings on the balance sheet are the profit of the whole history up to its date. */
  lemma EarningsAreWholeProfit(l: Ledger, start: int, asAt: int)
    requires start <= asAt + 1 && forall e <- l.entries :: start <= e.date
    ensures BalanceSheet(l, asAt).currentEarnings == Profit(l, start, asAt)
  {
    var n := |l.chart|;
    assert TrialBalance(l, asAt)[..n] == TrialBalance(l, asAt) && l.chart[..n] == l.chart;
    EarningsAreProfits(l, asAt, n);
    ProfitDifference(l.chart, l.entries, start, asAt);
    NothingBefore(l.entries, start);
    ProfitOfNothing(l.chart);
  }

  // ----- The report pack -----

  datatype ReportPack = ReportPack(trialBalance: seq<TrialRow>, profitAndLoss: ProfitReport,
      balanceSheet: BalanceSheetReport)

  /** The pack refuses a ledger whose reports do not tie; a posted ledger is never refused. */
  method GetReportPack(l: Ledger, from: int, to: int, asAt: int) returns (r: Result<ReportPack>)
    ensures r.Ok? <==> && SumOn(TrialBalance(l, asAt), DebitSide) == SumOn(TrialBalance(l, asAt), CreditSide)
                       && BalanceSheet(l, asAt).balances
    ensures Sound(l) ==> r.Ok?
    ensures r.Ok? ==> r.value.trialBalance == TrialBalance(l, asAt) && r.value.balanceSheet == BalanceSheet(l, asAt)
    ensures r.Ok? ==> r.value.profitAndLoss.netProfit == Profit(l, from, to)
  {
    var tb, bs := TrialBalance(l, asAt), BalanceSheet(l, asAt);
    var pl := ProfitAndLoss(l, from, to);
    var totalDebit, totalCredit := SumOn(tb, DebitSide), SumOn(tb, CreditSide);
    var plTies := AmountSum(pl.income) == pl.totalIncome && AmountSum(pl.expenses) == pl.totalExpenses
                  && pl.totalIncome - pl.totalExpenses == pl.netProfit;
    if Sound(l) {
      TrialBalanceBalances(l, asAt);
      BalanceSheetBalances(l, asAt);
    }
    if totalDebit != totalCredit || !plTies || !bs.balances { return Err(BadRequest); }
    return Ok(ReportPack(tb, pl, bs));
  }
}
