/** The statements over whole runs: they always tie, and a void undoes an issue.

    The first theorem needs only that the ledger is sound after every run. The second follows
    one invoice: what it posts when it is issued, that no later step posts under its issuing
    source again, and that a void reverses exactly those entries, account by account. */
module StatementRuns {
  import opened Wrappers
  import opened Accounting
  import opened Invoicing
  import opened BankMatching
  import opened Books
  import opened InvoiceEntries
  import opened JournalRuns
  import opened Statements

  /** After any run over a chart without repeats, at any date, the trial balance and the balance
      sheet tie, so the error of the report pack is unreachable. */
  lemma EveryRunTiesOut(b: Books, asAt: int)
    requires Reachable(b) && NoRepeats(b.ledger.chart)
    ensures var l := b.ledger;
            && Sound(l)
            && SumOn(TrialBalance(l, asAt), DebitSide) == SumOn(TrialBalance(l, asAt), CreditSide)
            && BalanceSheet(l, asAt).totalAssets
                == BalanceSheet(l, asAt).totalLiabilities + BalanceSheet(l, asAt).totalEquity
  {
    var start: Books :| IsOpened(start) && Leads(start, b);
    var ops :| b == Run(start, ops);
    RunKeepsChart(start, ops);
    RunSound(start, ops);
    TrialBalanceBalances(b.ledger, asAt);
    BalanceSheetBalances(b.ledger, asAt);
  }

  // ----- A void undoes an issue -----

  predicate WasIssued(g: Register, id: nat) { id in g.invoices && g.invoices[id].status != Draft }

  predicate StaysIssued(g: Register, h: Register) { forall id <- g.invoices :: WasIssued(g, id) ==> WasIssued(h, id) }

  /** Entries with an invoice as issuing source belong to an invoice that is no longer a draft. */
  ghost predicate IssueRecorded(b: Books) {
    forall e <- b.ledger.entries ::
        e.sourceType == InvoiceSource ==> e.sourceId.InvoiceId? && WasIssued(b.register, e.sourceId.invoice)
  }

  lemma {:induction false} AllocationsStay(g: Register, bankLine: nat, line: BankLine, allocations: seq<Allocation>)
    requires AllocateAll(g, bankLine, line, allocations).Ok?
    ensures StaysIssued(g, AllocateAll(g, bankLine, line, allocations).value.register)
  {
    if allocations != [] {
      AllocationsStay(g, bankLine, line, allocations[..|allocations| - 1]);
    }
  }

  lemma SplitStays(g: Register, l: Ledger, bankLine: nat, allocations: seq<Allocation>)
    requires SplitMatch(g, l, bankLine, allocations).Ok?
    ensures StaysIssued(g, SplitMatch(g, l, bankLine, allocations).value.0)
  {
    AllocationsStay(g, bankLine, g.bankLines[bankLine], allocations);
  }

  lemma PayStays(g: Register, l: Ledger, i: PaymentInput, now: int)
    requires Pay(g, l, i, now).Ok?
    ensures StaysIssued(g, Pay(g, l, i, now).value.0)
  {
  }

  lemma MatchStays(g: Register, l: Ledger, bankLine: nat, invoice: nat)
    requires Match(g, l, bankLine, invoice).Ok?
    ensures StaysIssued(g, Match(g, l, bankLine, invoice).value.0)
  {
  }

  lemma VoidStays(b: SalesBooks, id: nat, reason: string, now: int)
    requires VoidInvoice(b, id, reason, now).Ok?
    ensures StaysIssued(b.register, VoidInvoice(b, id, reason, now).value.register)
  {
  }

  lemma IssueStays(b: SalesBooks, id: nat, now: int)
    requires Issue(b, id, now).Ok?
    ensures id in b.register.invoices && b.register.invoices[id].status == Draft
    ensures Issue(b, id, now).value.register == WithStatus(b.register, id, Issued)
  {
  }

  predicate TouchesRegister(op: Operation) {
    op.DraftInvoice? || op.IssueInvoice? || op.RecordPayment? || op.AddBankLine? || op.MatchBankLine?
        || op.SplitBankLine? || op.CancelInvoice?
  }

  lemma RegisterAlone(b: Books, op: Operation, now: int)
    requires Step(b, op, now).Ok? && !TouchesRegister(op)
    ensures Step(b, op, now).value.register == b.register
  {
  }

  lemma StepStays(b: Books, op: Operation, now: int)
    requires Step(b, op, now).Ok?
    ensures StaysIssued(b.register, Step(b, op, now).value.register)
  {
    match op
    case DraftInvoice(_, _, _, _) =>
    case IssueInvoice(id) => IssueStays(SalesBooks(b.register, b.stock, b.ledger), id, now);
    case RecordPayment(payment) => PayStays(b.register, b.ledger, payment, now);
    case AddBankLine(_, _) =>
    case MatchBankLine(bankLine, invoice) => MatchStays(b.register, b.ledger, bankLine, invoice);
    case SplitBankLine(bankLine, allocations) => SplitStays(b.register, b.ledger, bankLine, allocations);
    case CancelInvoice(id, reason) => VoidStays(SalesBooks(b.register, b.stock, b.ledger), id, reason, now);
    case _ => RegisterAlone(b, op, now);
  }

  /** What a step appends under an issuing source is under the invoice it issues. */
  lemma StepAppends(b: Books, op: Operation, now: int) returns (more: seq<Entry>)
    requires Step(b, op, now).Ok?
    ensures Step(b, op, now).value.ledger.entries == b.ledger.entries + more
    ensures forall e <- more ::
        e.sourceType == InvoiceSource ==> Issuing(op).Some? && e.sourceId == InvoiceId(Issuing(op).value)
  {
    var l, m := b.ledger, Step(b, op, now).value.ledger;
    if IsPeriodStep(op) {
      PeriodStepEntries(b, op, now);
      more := [];
      assert l.entries + [] == l.entries;
    } else {
      StepGrew(b, op, now);
      more := m.entries[|l.entries|..];
      forall e <- more ensures MayPost(l, e, Issuing(op)) {
        var i :| 0 <= i < |more| && more[i] == e;
        assert m.entries[|l.entries| + i] == e;
      }
    }
  }

  lemma IssuedNow(b: Books, id: nat, now: int)
    requires Step(b, IssueInvoice(id), now).Ok?
    ensures !WasIssued(b.register, id) && WasIssued(Step(b, IssueInvoice(id), now).value.register, id)
  {
    IssueStays(SalesBooks(b.register, b.stock, b.ledger), id, now);
  }

  lemma StepRecorded(b: Books, op: Operation, now: int)
    requires IssueRecorded(b) && Step(b, op, now).Ok?
    ensures IssueRecorded(Step(b, op, now).value)
  {
    StepStays(b, op, now);
    var more := StepAppends(b, op, now);
    var c := Step(b, op, now).value;
    if op.IssueInvoice? { IssuedNow(b, op.id, now); }
    RecordedOn(b, c, more, Issuing(op));
  }

  lemma RecordedOn(b: Books, c: Books, more: seq<Entry>, issuing: Option<nat>)
    requires IssueRecorded(b) && StaysIssued(b.register, c.register) && c.ledger.entries == b.ledger.entries + more
    requires forall e <- more ::
        e.sourceType == InvoiceSource ==> issuing.Some? && e.sourceId == InvoiceId(issuing.value)
    requires issuing.Some? ==> WasIssued(c.register, issuing.value)
    ensures IssueRecorded(c)
  {
  }

  lemma {:induction false} OthersIssue(more: seq<Entry>, id: nat, a: Account)
    requires forall e <- more :: e.sourceType == InvoiceSource ==> e.sourceId != InvoiceId(id)
    ensures IssueBalance(more, id, a) == 0
  {
    if more != [] {
      assert more[|more| - 1] in more;
      OthersIssue(more[..|more| - 1], id, a);
    }
  }

  lemma {:induction false} RunRecorded(b: Books, ops: seq<Timed>)
    requires IssueRecorded(b)
    ensures IssueRecorded(Run(b, ops)) && StaysIssued(b.register, Run(b, ops).register)
  {
    if ops != [] {
      var n := |ops| - 1;
      RunRecorded(b, ops[..n]);
      var before := Run(b, ops[..n]);
      if Step(before, ops[n].op, ops[n].now).Ok? {
        StepRecorded(before, ops[n].op, ops[n].now);
        StepStays(before, ops[n].op, ops[n].now);
        StaysOn(b.register, before.register, Step(before, ops[n].op, ops[n].now).value.register);
      }
    }
  }

  lemma StaysOn(f: Register, g: Register, h: Register)
    requires StaysIssued(f, g) && StaysIssued(g, h)
    ensures StaysIssued(f, h)
  {
  }

  /** Once issued, an invoice gets no further issuing entries. */
  lemma {:induction false} RunKeepsIssueBalance(b: Books, ops: seq<Timed>, id: nat, a: Account)
    requires IssueRecorded(b) && WasIssued(b.register, id)
    ensures IssueBalance(Run(b, ops).ledger.entries, id, a) == IssueBalance(b.ledger.entries, id, a)
  {
    if ops != [] {
      var n := |ops| - 1;
      RunKeepsIssueBalance(b, ops[..n], id, a);
      RunRecorded(b, ops[..n]);
      var before := Run(b, ops[..n]);
      if Step(before, ops[n].op, ops[n].now).Ok? {
        StepKeepsIssueBalance(before, ops[n].op, ops[n].now, id, a);
      }
    }
  }

  lemma StepKeepsIssueBalance(b: Books, op: Operation, now: int, id: nat, a: Account)
    requires Step(b, op, now).Ok? && WasIssued(b.register, id)
    ensures IssueBalance(Step(b, op, now).value.ledger.entries, id, a) == IssueBalance(b.ledger.entries, id, a)
  {
    var more := StepAppends(b, op, now);
    if op.IssueInvoice? { IssuedNow(b, op.id, now); }
    OthersIssue(more, id, a);
    IssueBalanceAppend(b.ledger.entries, more, id, a);
  }

  lemma CostOwn(l: Ledger, id: nat, cogs: int, now: int)
    requires PostCostOfGoods(l, id, cogs, now).Ok?
    ensures var m := PostCostOfGoods(l, id, cogs, now).value;
            && |l.entries| <= |m.entries| && m.entries[..|l.entries|] == l.entries
            && forall i :: |l.entries| <= i < |m.entries| ==> IsIssueEntry(m.entries[i], id)
  {
  }

  lemma IssueOwn(b: SalesBooks, id: nat, now: int) returns (more: seq<Entry>)
    requires Issue(b, id, now).Ok?
    ensures Issue(b, id, now).value.ledger.entries == b.ledger.entries + more
    ensures forall e <- more :: IsIssueEntry(e, id)
  {
    var inv := b.register.invoices[id];
    var e := Entry(now, InvoiceSource, InvoiceId(id), RevenueLines(inv));
    var revenue := Post(b.ledger, e).value;
    var lines := LockOrder(StockLines(b.stock, b.register.defaultWarehouse, inv.lines).value);
    var cogs := IssueLines(b.stock, id, lines).value.1;
    var m := PostCostOfGoods(revenue, id, cogs, now).value;
    CostOwn(revenue, id, cogs, now);
    more := m.entries[|b.ledger.entries|..];
    assert revenue.entries == b.ledger.entries + [e];
    assert m.entries[..|b.ledger.entries|] == b.ledger.entries;
    forall x <- more ensures IsIssueEntry(x, id) {
      var i :| 0 <= i < |more| && more[i] == x;
      assert m.entries[|b.ledger.entries| + i] == x;
    }
  }

  lemma {:induction false} AllOwn(more: seq<Entry>, id: nat, a: Account)
    requires forall e <- more :: IsIssueEntry(e, id)
    ensures IssueBalance(more, id, a) == Balance(more, a)
  {
    if more != [] {
      assert more[|more| - 1] in more;
      AllOwn(more[..|more| - 1], id, a);
    }
  }

  lemma IssueStepOwn(b: Books, id: nat, at: int) returns (more: seq<Entry>)
    requires Step(b, IssueInvoice(id), at).Ok?
    ensures Step(b, IssueInvoice(id), at).value.ledger.entries == b.ledger.entries + more
    ensures forall e <- more :: IsIssueEntry(e, id)
  {
    more := IssueOwn(SalesBooks(b.register, b.stock, b.ledger), id, at);
  }

  lemma IssueAdds(b: Books, id: nat, at: int, a: Account)
    requires IssueRecorded(b) && Step(b, IssueInvoice(id), at).Ok?
    ensures var c := Step(b, IssueInvoice(id), at).value;
            Balance(c.ledger.entries, a) == Balance(b.ledger.entries, a) + IssueBalance(c.ledger.entries, id, a)
  {
    var more := IssueStepOwn(b, id, at);
    IssuedNow(b, id, at);
    AddsOwn(b.ledger.entries, more, id, a);
  }

  lemma AddsOwn(entries: seq<Entry>, more: seq<Entry>, id: nat, a: Account)
    requires forall e <- entries :: !IsIssueEntry(e, id)
    requires forall e <- more :: IsIssueEntry(e, id)
    ensures Balance(entries + more, a) == Balance(entries, a) + IssueBalance(entries + more, id, a)
  {
    OthersIssue(entries, id, a);
    AllOwn(more, id, a);
    BalanceAppend(entries, more, a);
    IssueBalanceAppend(entries, more, id, a);
  }

  lemma VoidPostsReversals(b: Books, id: nat, reason: string, now: int)
    requires WasIssued(b.register, id) && Step(b, CancelInvoice(id, reason), now).Ok?
    ensures PostReversals(b.ledger, b.ledger.entries, id, now)
        == Ok(Step(b, CancelInvoice(id, reason), now).value.ledger)
  {
  }

  lemma VoidSubtracts(b: Books, id: nat, reason: string, now: int, a: Account)
    requires WasIssued(b.register, id) && Step(b, CancelInvoice(id, reason), now).Ok?
    ensures var c := Step(b, CancelInvoice(id, reason), now).value;
            Balance(c.ledger.entries, a) == Balance(b.ledger.entries, a) - IssueBalance(b.ledger.entries, id, a)
  {
    VoidPostsReversals(b, id, reason, now);
    var more := ReversalsCancel(b.ledger, b.ledger.entries, id, now);
    BalanceAppend(b.ledger.entries, more, a);
  }

  /** Issue an invoice, run anything, void it: the void takes from every account exactly what
      the issue gave it, so only what ran in between remains. */
  lemma VoidUndoesIssue(b: Books, id: nat, at: int, d: Books, reason: string, now: int, a: Account)
    requires Reachable(b) && Step(b, IssueInvoice(id), at).Ok? && Leads(Step(b, IssueInvoice(id), at).value, d)
    requires Step(d, CancelInvoice(id, reason), now).Ok?
    ensures var c := Step(b, IssueInvoice(id), at).value;
            var e := Step(d, CancelInvoice(id, reason), now).value;
            Balance(e.ledger.entries, a) - Balance(b.ledger.entries, a)
                == Balance(d.ledger.entries, a) - Balance(c.ledger.entries, a)
  {
    var start: Books :| IsOpened(start) && Leads(start, b);
    var before :| b == Run(start, before);
    RunRecorded(start, before);
    var c := Step(b, IssueInvoice(id), at).value;
    var between :| d == Run(c, between);
    IssueAdds(b, id, at, a);
    IssuedNow(b, id, at);
    StepRecorded(b, IssueInvoice(id), at);
    RunRecorded(c, between);
    RunKeepsIssueBalance(c, between, id, a);
    VoidSubtracts(d, id, reason, now, a);
  }
}
