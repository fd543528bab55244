/** The double-entry journal and its period locks. Every financial effect in the
    books is an entry appended by Journal.PostJournal; nothing edits or removes one. */
module Accounting {
  import opened Wrappers

  datatype AccountKind = Asset | Liability | Equity | Income | Expense

  datatype Account =
    | Bank(bank: nat) | Receivable | Inventory | VatInput
    | Payable | Grni | VatOutput | PayePayable | NssaPayable | NetWagesPayable
    | OpeningEquity
    | Sales | FxGainLoss
    | CostOfGoods | WagesExpense | GeneralExpenses
    | Other(code: nat, otherKind: AccountKind)

  function Kind(a: Account): AccountKind {
    match a
    case Bank(_) | Receivable | Inventory | VatInput => Asset
    case Payable | Grni | VatOutput | PayePayable | NssaPayable | NetWagesPayable => Liability
    case OpeningEquity => Equity
    case Sales | FxGainLoss => Income
    case CostOfGoods | WagesExpense | GeneralExpenses => Expense
    case Other(_, kind) => kind
  }

  /** Row identifiers. They are random in every table, so no two tables share one. */
  datatype RecordId =
    | InvoiceId(invoice: nat)
    | BankLineId(line: nat)
    | ReceiptId(receipt: nat)
    | BillId(bill: nat)
    | MovementId(movement: nat)
    | BatchId(batch: nat)
    | PayrollRunId(run: nat)
    | OtherId(other: nat)

  datatype SourceType =
    | InvoiceSource | InvoiceVoidSource | PaymentSource | BankMatchSource
    | GoodsReceiptSource | SupplierBillSource
    | StockAdjustmentSource | OpeningImportSource
    | PayrollSource | PayrollReversalSource
    | OtherSource

  datatype Line = Line(account: Account, debit: int, credit: int)

  function Debit(account: Account, cents: int): Line { Line(account, cents, 0) }

  function Credit(account: Account, cents: int): Line { Line(account, 0, cents) }

  datatype Entry = Entry(date: int, sourceType: SourceType, sourceId: RecordId, lines: seq<Line>)

  datatype PeriodStatus = Open | Closed

  datatype Ledger = Ledger(
    chart: seq<Account>,
    inactive: set<Account>,
    periods: map<int, PeriodStatus>,
    entries: seq<Entry>)

  /** Instants are numbered in order so that month m holds the numbers from
      m * MONTH_SPAN up to, not including, (m + 1) * MONTH_SPAN. */
  const MONTH_SPAN := 2_678_400_000

  function PeriodMonthOf(date: int): int { date / MONTH_SPAN }

  predicate IsClosed(l: Ledger, month: int) {
    month in l.periods && l.periods[month] == Closed
  }

  predicate OneSided(line: Line) {
    0 <= line.debit && 0 <= line.credit && (line.debit == 0 <==> line.credit > 0)
  }

  function TotalDebit(lines: seq<Line>): int {
    if lines == [] then 0 else TotalDebit(lines[..|lines| - 1]) + lines[|lines| - 1].debit
  }

  function TotalCredit(lines: seq<Line>): int {
    if lines == [] then 0 else TotalCredit(lines[..|lines| - 1]) + lines[|lines| - 1].credit
  }

  predicate Balanced(lines: seq<Line>) {
    && 2 <= |lines|
    && (forall line <- lines :: OneSided(line))
    && TotalDebit(lines) == TotalCredit(lines)
  }

  /** What an entry must satisfy to be accepted. */
  predicate Postable(l: Ledger, e: Entry) {
    && !IsClosed(l, PeriodMonthOf(e.date))
    && Balanced(e.lines)
    && (forall line <- e.lines :: line.account in l.chart && line.account !in l.inactive)
  }

  function Post(l: Ledger, e: Entry): (r: Result<Ledger>)
    ensures r.Ok? <==> Postable(l, e)
    ensures r.Ok? ==> r.value == l.(entries := l.entries + [e])
  {
    if Postable(l, e) then Ok(l.(entries := l.entries + [e])) else Err(BadRequest)
  }

  function Close(l: Ledger, month: int, now: int): Result<Ledger> {
    if month >= PeriodMonthOf(now) then Err(BadRequest)
    else if IsClosed(l, month) then Err(Conflict)
    else Ok(l.(periods := l.periods[month := Closed]))
  }

  function Reopen(l: Ledger, month: int): Result<Ledger> {
    if month !in l.periods then Err(NotFound)
    else if l.periods[month] != Closed then Err(Conflict)
    else Ok(l.(periods := l.periods[month := Open]))
  }

  /** The journal tables, written step by step. */
  class Journal {
    var chart: seq<Account>
    var inactive: set<Account>
    var periods: map<int, PeriodStatus>
    var entries: seq<Entry>

    function State(): Ledger
      reads this
    {
      Ledger(chart, inactive, periods, entries)
    }

    constructor (chart: seq<Account>, inactive: set<Account>)
      ensures State() == Ledger(chart, inactive, map[], [])
    {
      this.chart, this.inactive, periods, entries := chart, inactive, map[], [];
    }

    method PostJournal(date: int, sourceType: SourceType, sourceId: RecordId, lines: seq<Line>)
      returns (r: Result<()>)
      modifies this`entries
      ensures r.Ok? <==> Postable(old(State()), Entry(date, sourceType, sourceId, lines))
      ensures State() == OrElse(Post(old(State()), Entry(date, sourceType, sourceId, lines)), old(State()))
      ensures r.Err? ==> r.error == BadRequest
    {
      if IsClosed(State(), PeriodMonthOf(date)) { return Err(BadRequest); }
      if |lines| < 2 { return Err(BadRequest); }
      if exists line <- lines :: line.account !in chart || line.account in inactive {
        return Err(BadRequest);
      }
      var d, c := 0, 0;
      for i := 0 to |lines|
        invariant d == TotalDebit(lines[..i]) && c == TotalCredit(lines[..i])
        invariant forall k :: 0 <= k < i ==> OneSided(lines[k])
        invariant i > 0 ==> d + c > 0
        invariant 0 <= d && 0 <= c
      {
        var line := lines[i];
        assert line in lines;
        if line.debit < 0 || line.credit < 0 { return Err(BadRequest); }
        if line.debit > 0 && line.credit > 0 { return Err(BadRequest); }
        if line.debit == 0 && line.credit == 0 { return Err(BadRequest); }
        d, c := d + line.debit, c + line.credit;
        assert lines[..i + 1][..i] == lines[..i];
      }
      assert lines[..|lines|] == lines;
      if d != c { return Err(BadRequest); }
      if d == 0 { return Err(BadRequest); }
      entries := entries + [Entry(date, sourceType, sourceId, lines)];
      return Ok(());
    }

    /** Undo of an enclosing transaction. */
    method Rollback(saved: Ledger)
      modifies this
      ensures State() == saved
    {
      chart, inactive, periods, entries := saved.chart, saved.inactive, saved.periods, saved.entries;
    }

    method ClosePeriod(month: int, now: int) returns (r: Result<()>)
      modifies this`periods
      ensures r.Ok? <==> Close(old(State()), month, now).Ok?
      ensures State() == OrElse(Close(old(State()), month, now), old(State()))
    {
      if month >= PeriodMonthOf(now) { return Err(BadRequest); }
      if month in periods && periods[month] == Closed { return Err(Conflict); }
      periods := periods[month := Closed];
      return Ok(());
    }

    method ReopenPeriod(month: int) returns (r: Result<()>)
      modifies this`periods
      ensures r.Ok? <==> Reopen(old(State()), month).Ok?
      ensures State() == OrElse(Reopen(old(State()), month), old(State()))
    {
      if month !in periods { return Err(NotFound); }
      if periods[month] != Closed { return Err(Conflict); }
      periods := periods[month := Open];
      return Ok(());
    }
  }

  // ----- Account balances over a list of entries -----

  function Net(lines: seq<Line>, a: Account): int {
    if lines == [] then 0
    else
      var last := lines[|lines| - 1];
      Net(lines[..|lines| - 1], a) + if last.account == a then last.debit - last.credit else 0
  }

  /** Debits minus credits of one account over a list of entries. */
  function Balance(entries: seq<Entry>, a: Account): int {
    if entries == [] then 0
    else Balance(entries[..|entries| - 1], a) + Net(entries[|entries| - 1].lines, a)
  }

  function Before(entries: seq<Entry>, cutoff: int): seq<Entry> {
    if entries == [] then []
    else
      var last := entries[|entries| - 1];
      Before(entries[..|entries| - 1], cutoff) + if last.date < cutoff then [last] else []
  }

  lemma {:induction false} NetOfUntouched(lines: seq<Line>, a: Account)
    requires forall line <- lines :: line.account != a
    ensures Net(lines, a) == 0
  {
    if lines != [] {
      NetOfUntouched(lines[..|lines| - 1], a);
    }
  }

  lemma PostedNet(entries: seq<Entry>, e: Entry, a: Account)
    ensures Balance(entries + [e], a) == Balance(entries, a) + Net(e.lines, a)
  {
    assert (entries + [e])[..|entries|] == entries;
  }

  lemma {:induction false} BalanceAppend(xs: seq<Entry>, ys: seq<Entry>, a: Account)
    ensures Balance(xs + ys, a) == Balance(xs, a) + Balance(ys, a)
  {
    if ys == [] {
      assert xs + ys == xs;
    } else {
      assert (xs + ys)[..|xs + ys| - 1] == xs + ys[..|ys| - 1];
      BalanceAppend(xs, ys[..|ys| - 1], a);
    }
  }

  lemma {:induction false} BeforeAppend(xs: seq<Entry>, ys: seq<Entry>, cutoff: int)
    ensures Before(xs + ys, cutoff) == Before(xs, cutoff) + Before(ys, cutoff)
  {
    if ys == [] {
      assert xs + ys == xs;
    } else {
      assert (xs + ys)[..|xs + ys| - 1] == xs + ys[..|ys| - 1];
      BeforeAppend(xs, ys[..|ys| - 1], cutoff);
    }
  }

  lemma {:induction false} BeforeIsPart(entries: seq<Entry>, cutoff: int)
    ensures forall e <- Before(entries, cutoff) :: e in entries
  {
    if entries != [] {
      BeforeIsPart(entries[..|entries| - 1], cutoff);
    }
  }

  /** From some date on, a cut-off takes in everything. */
  lemma {:induction false} AfterEntries(entries: seq<Entry>) returns (end: int)
    ensures forall t :: end <= t ==> Before(entries, t) == entries
  {
    if entries == [] {
      end := 0;
    } else {
      var n := |entries| - 1;
      var earlier := AfterEntries(entries[..n]);
      end := if earlier <= entries[n].date then entries[n].date + 1 else earlier;
      assert entries[..n] + [entries[n]] == entries;
    }
  }

  lemma BeforeOne(e: Entry, cutoff: int)
    ensures Before([e], cutoff) == if e.date < cutoff then [e] else []
  {
    assert [e][..0] == [];
  }

  /** Debits minus credits of the entries that carry one source id. */
  function SourceBalance(entries: seq<Entry>, id: RecordId, a: Account): int {
    if entries == [] then 0
    else
      var last := entries[|entries| - 1];
      SourceBalance(entries[..|entries| - 1], id, a) + if last.sourceId == id then Net(last.lines, a) else 0
  }

  lemma {:induction false} SourceBalanceAppend(xs: seq<Entry>, ys: seq<Entry>, id: RecordId, a: Account)
    ensures SourceBalance(xs + ys, id, a) == SourceBalance(xs, id, a) + SourceBalance(ys, id, a)
  {
    if ys == [] {
      assert xs + ys == xs;
    } else {
      assert (xs + ys)[..|xs + ys| - 1] == xs + ys[..|ys| - 1];
      SourceBalanceAppend(xs, ys[..|ys| - 1], id, a);
    }
  }

  lemma SourceBalanceOne(e: Entry, id: RecordId, a: Account)
    ensures SourceBalance([e], id, a) == if e.sourceId == id then Net(e.lines, a) else 0
  {
    assert [e][..0] == [];
  }

  /** The two-line entry most operations post. */
  lemma NetOfPair(debit: Account, credit: Account, cents: int, a: Account)
    requires debit != credit
    ensures Net([Debit(debit, cents), Credit(credit, cents)], a)
         == if a == debit then cents else if a == credit then -cents else 0
    ensures Balanced([Debit(debit, cents), Credit(credit, cents)]) <==> 0 < cents
  {
    var first, second := Debit(debit, cents), Credit(credit, cents);
    TotalsOfPair(first, second, a);
    assert OneSided(first) && OneSided(second) <==> 0 < cents;
    assert first in [first, second] && second in [first, second];
  }

  lemma TotalsOfPair(first: Line, second: Line, a: Account)
    ensures TotalDebit([first, second]) == first.debit + second.debit
    ensures TotalCredit([first, second]) == first.credit + second.credit
    ensures Net([first, second], a)
         == (if first.account == a then first.debit - first.credit else 0)
          + (if second.account == a then second.debit - second.credit else 0)
  {
    AddLine([], first, a);
    AddLine([first], second, a);
    assert [] + [first] == [first] && [first] + [second] == [first, second];
  }

  lemma AddLine(lines: seq<Line>, line: Line, a: Account)
    ensures TotalDebit(lines + [line]) == TotalDebit(lines) + line.debit
    ensures TotalCredit(lines + [line]) == TotalCredit(lines) + line.credit
    ensures Net(lines + [line], a) == Net(lines, a) + if line.account == a then line.debit - line.credit else 0
  {
    assert (lines + [line])[..|lines|] == lines;
  }
}
