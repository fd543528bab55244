/** Main results on receivables: the law of every invoice, its rounding bound, and what the
    statutory schedule leaves unallocated. */
module ReceivableSchedule {
  import opened Wrappers
  import opened Money
  import opened Accounting
  import opened Inventory
  import opened Invoicing
  import opened BankMatching
  import opened Books
  import opened Receivables
  import opened ReceivableControl
  import opened SetSums

  lemma OpenedControls(b: Books)
    requires IsOpened(b)
    ensures Controls(b.register, b.ledger.entries)
  {
  }

  lemma {:induction false} RunControls(b: Books, ops: seq<Timed>)
    requires Controls(b.register, b.ledger.entries)
    ensures Controls(Run(b, ops).register, Run(b, ops).ledger.entries)
  {
    if ops != [] {
      var n := |ops| - 1;
      RunControls(b, ops[..n]);
      var before := Run(b, ops[..n]);
      if Step(before, ops[n].op, ops[n].now).Ok? {
        StepControls(before, ops[n].op, ops[n].now);
      }
    }
  }

  lemma ReachableControls(b: Books)
    requires Reachable(b)
    ensures Controls(b.register, b.ledger.entries)
  {
    var start: Books :| IsOpened(start) && Leads(start, b);
    var ops :| b == Run(start, ops);
    OpenedControls(start);
    RunControls(start, ops);
  }

  // ----- The law of one invoice -----

  /** Base-currency balance of an issued invoice: revenue less everything paid on it. */
  function Owed(g: Register, id: nat): int
    requires id in g.invoices
  {
    RevenueBase(g.invoices[id]) - PaidBase(g.payments, id, g.invoices[id].rate)
  }

  /** After any run, for every issued invoice: what is paid is the sum of its payments, the
      status says exactly how much that is, and it stays within the total exactly when the
      exchange rate is positive. */
  lemma EveryInvoiceFits(b: Books, id: nat)
    requires Reachable(b) && id in b.register.invoices && Live(b.register.invoices[id])
    ensures var g := b.register;
            var inv := g.invoices[id];
            && inv.amountPaid == PaidTotal(g.payments, id)
            && (inv.status == Issued <==> inv.amountPaid == 0)
            && (inv.status == Partial <==> 0 < inv.amountPaid < inv.Total())
            && (inv.status == Paid <==> 0 < inv.amountPaid == inv.Total())
            && (inv.amountPaid <= inv.Total() <==> 0 < inv.rate)
  {
    ReachableControls(b);
    FitsInvoice(b.register, b.ledger.entries, id);
  }

  lemma FitsInvoice(g: Register, entries: seq<Entry>, id: nat)
    requires Controls(g, entries) && id in g.invoices && Live(g.invoices[id])
    ensures g.invoices[id].amountPaid == PaidTotal(g.payments, id) && Fits(g.invoices[id])
  {
    assert InvoiceOk(g, entries, id);
  }

  predicate Fits(inv: Invoice) {
    && (inv.status == Issued <==> inv.amountPaid == 0)
    && (inv.status == Partial <==> 0 < inv.amountPaid < inv.Total())
    && (inv.status == Paid <==> 0 < inv.amountPaid == inv.Total())
    && (inv.amountPaid <= inv.Total() <==> 0 < inv.rate)
  }

  lemma OneLineTotals(line: DraftLine)
    ensures Subtotal([line]) == LineNet(line) && TaxTotal([line]) == LineTax(line)
  {
    assert [line][..0] == [];
    assert Subtotal([]) == 0 && TaxTotal([]) == 0;
  }

  const REFUND := DraftLine(None, None, 1_000, -100, 0)

  const NEGATIVE_DRAFT := Invoice(Draft, Usd, -1_000_000, [REFUND], -100, 0, 0)

  const BARE: Books := Opened([Receivable, Sales], {}, map[], {}, None)

  lemma NegativeDraft()
    ensures Step(BARE, DraftInvoice(1, Usd, -1_000_000, [REFUND]), 0)
         == Ok(BARE.(register := BARE.register.(invoices := map[1 := NEGATIVE_DRAFT])))
  {
    OneLineTotals(REFUND);
    assert LineNet(REFUND) == -100 && LineTax(REFUND) == 0;
  }

  lemma NegativeRevenue(l: Ledger)
    requires l == BARE.ledger
    ensures Post(l, Entry(0, InvoiceSource, InvoiceId(1), RevenueLines(NEGATIVE_DRAFT))).Ok?
  {
    var lines := [Debit(Receivable, 100), Credit(Sales, 100)];
    assert RevenueLines(NEGATIVE_DRAFT) == lines;
    NetOfPair(Receivable, Sales, 100, Receivable);
    assert l.chart[0] == Receivable && l.chart[1] == Sales;
  }

  lemma NoStockLines(s: Stock)
    ensures StockLines(s, None, [REFUND]) == Ok([]) && IssueLines(s, 1, LockOrder([])) == Ok((s, 0))
  {
    assert [REFUND][..0] == [];
    assert StockLines(s, None, []) == Ok([]);
  }

  lemma NegativeIssue(b: Books)
    requires b == BARE.(register := BARE.register.(invoices := map[1 := NEGATIVE_DRAFT]))
    ensures Step(b, IssueInvoice(1), 0).Ok?
    ensures Step(b, IssueInvoice(1), 0).value.register.invoices == map[1 := NEGATIVE_DRAFT.(status := Issued)]
  {
    NegativeRevenue(b.ledger);
    NoStockLines(b.stock);
  }

  /** A negative rate and a negative price make positive revenue: the invoice is issued with
      a negative total, which nothing paid already exceeds. */
  lemma NegativeRateIsIssued()
    ensures var ops := [Timed(DraftInvoice(1, Usd, -1_000_000, [REFUND]), 0), Timed(IssueInvoice(1), 0)];
            var g := Run(BARE, ops).register;
            1 in g.invoices && g.invoices[1].status == Issued && g.invoices[1].Total() == -100
                && g.invoices[1].amountPaid == 0
  {
    var draft, issue := Timed(DraftInvoice(1, Usd, -1_000_000, [REFUND]), 0), Timed(IssueInvoice(1), 0);
    NegativeDraft();
    assert [draft, issue][..1] == [draft] && [draft][..0] == [];
    assert Run(BARE, []) == BARE;
    NegativeIssue(Run(BARE, [draft]));
  }

  lemma {:induction false} PaidBaseNearest(ps: seq<Payment>, id: nat, rate: int)
    ensures 2 * Abs(PaidBase(ps, id, rate) * RATE_ONE - PaidTotal(ps, id) * rate) <= PaymentCount(ps, id) * RATE_ONE
    ensures rate == RATE_ONE ==> PaidBase(ps, id, rate) == PaidTotal(ps, id)
  {
    if ps != [] {
      var p := ps[|ps| - 1];
      PaidBaseNearest(ps[..|ps| - 1], id, rate);
      if p.invoice == id {
        MulRateNearest(p.amount, rate);
        assert (PaidTotal(ps[..|ps| - 1], id) + p.amount) * rate
            == PaidTotal(ps[..|ps| - 1], id) * rate + p.amount * rate;
      }
    }
  }

  /** What the entries under an invoice leave on the receivable account is what is owed on it and
      what split matches paid, for those are entered under bank lines. What is owed is within
      (2 + n) half-cents of the outstanding amount at the invoice's rate after n payments, and
      exact at rate one. */
  lemma OwedIsNearOutstanding(b: Books, id: nat)
    requires Reachable(b) && id in b.register.invoices && Live(b.register.invoices[id])
    ensures var g := b.register;
            var inv := g.invoices[id];
            && SourceBalance(b.ledger.entries, InvoiceId(id), Receivable)
                == Owed(g, id) + SplitBase(g.payments, id, inv.rate)
            && 2 * Abs(Owed(g, id) * RATE_ONE - (inv.Total() - inv.amountPaid) * inv.rate)
               <= (2 + PaymentCount(g.payments, id)) * RATE_ONE
            && (inv.rate == RATE_ONE ==> Owed(g, id) == inv.Total() - inv.amountPaid)
  {
    EveryInvoiceFits(b, id);
    ReachableControls(b);
    assert InvoiceOk(b.register, b.ledger.entries, id);
    OwedNearest(b.register, id);
  }

  lemma DueNearest(subtotal: int, tax: int, paid: int, rate: int, base: int, n: nat)
    requires 2 * Abs(base * RATE_ONE - paid * rate) <= n * RATE_ONE && (rate == RATE_ONE ==> base == paid)
    ensures 2 * Abs((MulRate(subtotal, rate) + MulRate(tax, rate) - base) * RATE_ONE - (subtotal + tax - paid) * rate)
         <= (2 + n) * RATE_ONE
    ensures rate == RATE_ONE ==> MulRate(subtotal, rate) + MulRate(tax, rate) - base == subtotal + tax - paid
  {
    MulRateNearest(subtotal, rate);
    MulRateNearest(tax, rate);
    Distribute(subtotal, tax, paid, rate);
    AddErrors(MulRate(subtotal, rate), subtotal * rate, MulRate(tax, rate), tax * rate, base, paid * rate, n);
  }

  lemma OwedNearest(g: Register, id: nat)
    requires id in g.invoices && g.invoices[id].amountPaid == PaidTotal(g.payments, id)
    ensures var inv := g.invoices[id];
            && 2 * Abs(Owed(g, id) * RATE_ONE - (inv.Total() - inv.amountPaid) * inv.rate)
               <= (2 + PaymentCount(g.payments, id)) * RATE_ONE
            && (inv.rate == RATE_ONE ==> Owed(g, id) == inv.Total() - inv.amountPaid)
  {
    var inv := g.invoices[id];
    PaidBaseNearest(g.payments, id, inv.rate);
    DueNearest(inv.subtotal, inv.taxTotal, inv.amountPaid, inv.rate, PaidBase(g.payments, id, inv.rate),
        PaymentCount(g.payments, id));
  }

  lemma Distribute(s: int, t: int, p: int, r: int)
    ensures (s + t - p) * r == s * r + t * r - p * r
  {
  }

  lemma AddErrors(s: int, s': int, t: int, t': int, p: int, p': int, n: nat)
    requires 2 * Abs(s * RATE_ONE - s') <= RATE_ONE && 2 * Abs(t * RATE_ONE - t') <= RATE_ONE
    requires 2 * Abs(p * RATE_ONE - p') <= n * RATE_ONE
    ensures 2 * Abs((s + t - p) * RATE_ONE - (s' + t' - p')) <= (2 + n) * RATE_ONE
  {
  }

  // ----- The schedule -----

  datatype SourceRow = SourceRow(invoice: nat, days: nat, balance: int)

  datatype Buckets = Buckets(current: int, d30: int, d60: int, d90: int, d90plus: int)

  datatype Schedule = Schedule(control: int, scheduled: int, unallocated: int, buckets: Buckets)

  function RowTotal(rows: seq<SourceRow>): int {
    if rows == [] then 0 else RowTotal(rows[..|rows| - 1]) + rows[|rows| - 1].balance
  }

  datatype AgeingBucket = Current | Days30 | Days60 | Days90 | Older

  function BucketFor(days: nat): AgeingBucket {
    if days <= 0 then Current else if days <= 30 then Days30 else if days <= 60 then Days60
    else if days <= 90 then Days90 else Older
  }

  function BucketTotal(rows: seq<SourceRow>, bucket: AgeingBucket): int {
    if rows == [] then 0
    else
      BucketTotal(rows[..|rows| - 1], bucket)
      + if BucketFor(rows[|rows| - 1].days) == bucket then rows[|rows| - 1].balance else 0
  }

  /** The buckets partition what is scheduled, and the rest of the control is unallocated. */
  method BuildSchedule(rows: seq<SourceRow>, control: int) returns (s: Schedule)
    ensures s.control == control && s.scheduled == RowTotal(rows) && s.scheduled + s.unallocated == control
    ensures s.buckets == Buckets(BucketTotal(rows, Current), BucketTotal(rows, Days30), BucketTotal(rows, Days60),
                                 BucketTotal(rows, Days90), BucketTotal(rows, Older))
    ensures s.buckets.current + s.buckets.d30 + s.buckets.d60 + s.buckets.d90 + s.buckets.d90plus == s.scheduled
  {
    var scheduled, current, d30, d60, d90, d90plus := 0, 0, 0, 0, 0, 0;
    for i := 0 to |rows|
      invariant scheduled == RowTotal(rows[..i])
      invariant current == BucketTotal(rows[..i], Current) && d30 == BucketTotal(rows[..i], Days30)
      invariant d60 == BucketTotal(rows[..i], Days60) && d90 == BucketTotal(rows[..i], Days90)
      invariant d90plus == BucketTotal(rows[..i], Older)
      invariant current + d30 + d60 + d90 + d90plus == scheduled
    {
      assert rows[..i + 1][..i] == rows[..i];
      scheduled := scheduled + rows[i].balance;
      match BucketFor(rows[i].days)
      case Current => current := current + rows[i].balance;
      case Days30 => d30 := d30 + rows[i].balance;
      case Days60 => d60 := d60 + rows[i].balance;
      case Days90 => d90 := d90 + rows[i].balance;
      case Older => d90plus := d90plus + rows[i].balance;
    }
    assert rows[..|rows|] == rows;
    s := Schedule(control, scheduled, control - scheduled, Buckets(current, d30, d60, d90, d90plus));
  }

  /** One row per invoice whose own entries before the cut-off do not cancel. */
  ghost predicate IsSchedule(rows: seq<SourceRow>, invoices: set<nat>, entries: seq<Entry>) {
    && (forall i, j :: 0 <= i < j < |rows| ==> rows[i].invoice != rows[j].invoice)
    && (forall row <- rows ::
        row.invoice in invoices && row.balance == SourceBalance(entries, InvoiceId(row.invoice), Receivable))
    && (forall id <- invoices :: SourceBalance(entries, InvoiceId(id), Receivable) != 0 ==> exists row <- rows ::
        row.invoice == id)
  }

  /** What the entries under each invoice do to the receivable account. */
  function Sources(entries: seq<Entry>): nat -> int {
    (id: nat) => SourceBalance(entries, InvoiceId(id), Receivable)
  }

  lemma WithoutLastRow(rows: seq<SourceRow>, invoices: set<nat>, entries: seq<Entry>)
    requires IsSchedule(rows, invoices, entries) && rows != []
    ensures rows[|rows| - 1].invoice in invoices
    ensures IsSchedule(rows[..|rows| - 1], invoices - {rows[|rows| - 1].invoice}, entries)
  {
    var n := |rows| - 1;
    var last := rows[n];
    assert last in rows;
    forall id <- invoices - {last.invoice}
      ensures SourceBalance(entries, InvoiceId(id), Receivable) != 0 ==> exists row <- rows[..n] :: row.invoice == id
    {
      if SourceBalance(entries, InvoiceId(id), Receivable) != 0 {
        var row :| row in rows && row.invoice == id;
        assert row in rows[..n];
      }
    }
  }

  lemma NoRows(invoices: set<nat>, entries: seq<Entry>)
    requires IsSchedule([], invoices, entries)
    ensures SumOver(invoices, Sources(entries)) == 0
  {
    SumOfZeros(invoices, Sources(entries));
  }

  lemma LastRow(rows: seq<SourceRow>, invoices: set<nat>, entries: seq<Entry>)
    requires IsSchedule(rows, invoices, entries) && rows != []
    ensures var last := rows[|rows| - 1];
            SumOver(invoices, Sources(entries)) == last.balance + SumOver(invoices - {last.invoice}, Sources(entries))
  {
    var last := rows[|rows| - 1];
    assert last in rows;
    SumTake(invoices, Sources(entries), last.invoice);
  }

  /** Dropping the zero rows loses nothing. */
  lemma {:induction false} ScheduleTotal(rows: seq<SourceRow>, invoices: set<nat>, entries: seq<Entry>)
    requires IsSchedule(rows, invoices, entries)
    ensures RowTotal(rows) == SumOver(invoices, Sources(entries))
  {
    if rows == [] {
      NoRows(invoices, entries);
    } else {
      var n := |rows| - 1;
      WithoutLastRow(rows, invoices, entries);
      LastRow(rows, invoices, entries);
      ScheduleTotal(rows[..n], invoices - {rows[n].invoice}, entries);
    }
  }

  lemma SourcesAdd(invoices: set<nat>, entries: seq<Entry>, e: Entry)
    ensures SumOver(invoices, Sources(entries + [e]))
         == SumOver(invoices, Sources(entries))
            + if e.sourceId.InvoiceId? && e.sourceId.invoice in invoices then Net(e.lines, Receivable) else 0
  {
    forall id: nat
      ensures Sources(entries + [e])(id) == Sources(entries)(id) + Sources([e])(id)
      ensures Sources([e])(id) == if e.sourceId == InvoiceId(id) then Net(e.lines, Receivable) else 0
    {
      SourceBalanceAppend(entries, [e], InvoiceId(id), Receivable);
      SourceBalanceOne(e, InvoiceId(id), Receivable);
    }
    SumAdds(invoices, Sources(entries), Sources([e]), Sources(entries + [e]));
    if e.sourceId.InvoiceId? {
      SumOfOne(invoices, Sources([e]), e.sourceId.invoice);
    } else {
      SumOfZeros(invoices, Sources([e]));
    }
  }

  /** The control account splits into invoice sources and bank-line sources. */
  lemma {:induction false} ControlBySource(entries: seq<Entry>, g: Register)
    requires forall e <- entries :: SourceKnown(e, g)
    ensures Balance(entries, Receivable)
         == SumOver(g.invoices.Keys, Sources(entries)) + BankLineBalance(entries, Receivable)
  {
    if entries == [] {
      SumOfZeros(g.invoices.Keys, Sources(entries));
    } else {
      var n := |entries| - 1;
      var e := entries[n];
      assert e in entries;
      ControlBySource(entries[..n], g);
      SourcesAdd(g.invoices.Keys, entries[..n], e);
      assert entries[..n] + [e] == entries;
    }
  }

  /** At any cut-off after any run, the schedule of invoices misses the control account by
      exactly the base value of the split matches dated before it. */
  lemma UnallocatedIsSplitMatches(b: Books, cutoff: int, rows: seq<SourceRow>)
    requires Reachable(b) && IsSchedule(rows, b.register.invoices.Keys, Before(b.ledger.entries, cutoff))
    ensures Balance(Before(b.ledger.entries, cutoff), Receivable) - RowTotal(rows)
         == -SplitPaid(b.register.payments, b.register.invoices, cutoff)
  {
    ReachableControls(b);
    var entries := Before(b.ledger.entries, cutoff);
    BeforeIsPart(b.ledger.entries, cutoff);
    ControlBySource(entries, b.register);
    ScheduleTotal(rows, b.register.invoices.Keys, entries);
  }

  // ----- Replays -----

  predicate StillFound(before: seq<Payment>, after: seq<Payment>, key: PaymentKey) {
    FindPayment(before, key).Some? && FindPayment(after, key) == FindPayment(before, key) && before <= after
  }

  lemma OnePaymentMore(ps: seq<Payment>, p: Payment, key: PaymentKey)
    requires FindPayment(ps, key).Some? && p.key != key
    ensures StillFound(ps, ps + [p], key)
  {
    assert (ps + [p])[..|ps|] == ps;
  }

  lemma {:induction false} AllocationsKeepFound(g: Register, bankLine: nat, line: BankLine,
      allocations: seq<Allocation>, key: PaymentKey)
    requires AllocateAll(g, bankLine, line, allocations).Ok? && FindPayment(g.payments, key).Some?
    ensures StillFound(g.payments, AllocateAll(g, bankLine, line, allocations).value.register.payments, key)
  {
    if allocations != [] {
      var n := |allocations| - 1;
      AllocationsKeepFound(g, bankLine, line, allocations[..n], key);
      var before, next := AllocateAll(g, bankLine, line, allocations[..n]).value, allocations[n];
      OnePaymentMore(before.register.payments,
                     Payment(next.invoice, next.amount, line.date, Split(bankLine), SplitKey(bankLine, next.invoice),
                             SplitOf(bankLine, next.invoice, next.amount)), key);
    }
  }

  lemma MatchKeepsFound(g: Register, l: Ledger, bankLine: nat, invoice: nat, key: PaymentKey)
    requires Match(g, l, bankLine, invoice).Ok? && FindPayment(g.payments, key).Some?
    ensures StillFound(g.payments, Match(g, l, bankLine, invoice).value.0.payments, key)
  {
    OnePaymentMore(g.payments, Match(g, l, bankLine, invoice).value.0.payments[|g.payments|], key);
  }

  lemma PayKeepsFound(g: Register, l: Ledger, i: PaymentInput, now: int, key: PaymentKey)
    requires Pay(g, l, i, now).Ok? && FindPayment(g.payments, key).Some?
    ensures StillFound(g.payments, Pay(g, l, i, now).value.0.payments, key)
  {
    if FindPayment(g.payments, i.key).None? {
      OnePaymentMore(g.payments, Pay(g, l, i, now).value.0.payments[|g.payments|], key);
    }
  }

  predicate IsPaying(op: Operation) { op.RecordPayment? || op.MatchBankLine? || op.SplitBankLine? }

  lemma QuietPayments(b: Books, op: Operation, now: int)
    requires Step(b, op, now).Ok? && !IsPaying(op)
    ensures Step(b, op, now).value.register.payments == b.register.payments
  {
  }

  lemma StepKeepsFound(b: Books, op: Operation, now: int, key: PaymentKey)
    requires Step(b, op, now).Ok? && FindPayment(b.register.payments, key).Some?
    ensures StillFound(b.register.payments, Step(b, op, now).value.register.payments, key)
  {
    if IsPaying(op) { PayingKeepsFound(b, op, now, key); } else { QuietPayments(b, op, now); }
  }

  lemma PayingKeepsFound(b: Books, op: Operation, now: int, key: PaymentKey)
    requires Step(b, op, now).Ok? && IsPaying(op) && FindPayment(b.register.payments, key).Some?
    ensures StillFound(b.register.payments, Step(b, op, now).value.register.payments, key)
  {
    match op
    case RecordPayment(i) => PayKeepsFound(b.register, b.ledger, i, now, key);
    case MatchBankLine(bankLine, invoice) => MatchKeepsFound(b.register, b.ledger, bankLine, invoice, key);
    case SplitBankLine(bankLine, allocations) =>
      AllocationsKeepFound(b.register, bankLine, b.register.bankLines[bankLine], allocations, key);
  }

  lemma {:induction false} RunKeepsFound(b: Books, ops: seq<Timed>, key: PaymentKey)
    requires FindPayment(b.register.payments, key).Some?
    ensures StillFound(b.register.payments, Run(b, ops).register.payments, key)
  {
    if ops != [] {
      var n := |ops| - 1;
      RunKeepsFound(b, ops[..n], key);
      var before := Run(b, ops[..n]);
      if Step(before, ops[n].op, ops[n].now).Ok? {
        StepKeepsFound(before, ops[n].op, ops[n].now, key);
      }
    }
  }

  /** A payment accepted once, under whatever key: whatever runs afterwards, the same request
      changes nothing and any other request under that key is refused. */
  lemma PaymentReplays(b: Books, i: PaymentInput, at: int, c: Books, j: PaymentInput, now: int)
    requires Step(b, RecordPayment(i), at).Ok? && Leads(Step(b, RecordPayment(i), at).value, c)
    requires j.key == i.key
    ensures Step(c, RecordPayment(j), now).Ok? <==> j == i
    ensures j == i ==> Step(c, RecordPayment(j), now) == Ok(c)
  {
    var d := Step(b, RecordPayment(i), at).value;
    var k := PaidOnce(b.register, b.ledger, i, at);
    var ops :| c == Run(d, ops);
    RunKeepsFound(d, ops, i.key);
    assert c.register.payments[k] == d.register.payments[k];
    assert PrintOf(j) == PrintOf(i) <==> j == i;
  }

  lemma PaidOnce(g: Register, l: Ledger, i: PaymentInput, at: int) returns (k: nat)
    requires Pay(g, l, i, at).Ok?
    ensures var payments := Pay(g, l, i, at).value.0.payments;
            k < |payments| && FindPayment(payments, i.key) == Some(k) && payments[k].fingerprint == PrintOf(i)
  {
    var existing := FindPayment(g.payments, i.key);
    if existing.Some? {
      k := existing.value;
    } else {
      k := |g.payments|;
      var date := if i.date.Some? then i.date.value else at;
      var p := Payment(i.invoice, i.amount, date, Direct, i.key, PrintOf(i));
      assert Pay(g, l, i, at).value.0.payments == g.payments + [p];
      LastIsFound(g.payments, p);
    }
  }

  lemma LastIsFound(ps: seq<Payment>, p: Payment)
    ensures FindPayment(ps + [p], p.key) == Some(|ps|)
  {
    assert (ps + [p])[|ps|] == p;
  }
}
