/** Matching incoming bank lines to customer invoices, one to one or split. */
module BankMatching {
  import opened Wrappers
  import opened Money
  import opened Accounting
  import opened Invoicing

  function Incoming(g: Register, bankLine: nat): Result<BankLine> {
    var _ :- Require(bankLine in g.bankLines, NotFound);
    var line := g.bankLines[bankLine];
    var _ :- Require(!line.matched, Conflict);
    var _ :- Require(0 < line.amount, Conflict);
    Ok(line)
  }

  function MarkMatched(g: Register, bankLine: nat): Register
    requires bankLine in g.bankLines
  {
    g.(bankLines := g.bankLines[bankLine := g.bankLines[bankLine].(matched := true)])
  }

  /** A bank line pays one invoice: the entry carries the invoice id. The key derived from the two
      may be taken, because a caller's payment can carry the same text. */
  function Match(g: Register, l: Ledger, bankLine: nat, invoice: nat): Result<(Register, Ledger)> {
    var line :- Incoming(g, bankLine);
    var inv :- CheckPayable(g, invoice, line.amount);
    var _ :- Require(inv.currency == line.currency, Conflict);
    var _ :- Require(FindPayment(g.payments, MatchKey(bankLine, invoice)).None?, Conflict);
    var ledger :- Post(l, Entry(line.date, PaymentSource, InvoiceId(invoice),
        ReceiptLines(line.bank, inv, line.amount)));
    var p := Payment(invoice, line.amount, line.date, Matched(bankLine), MatchKey(bankLine, invoice),
        MatchOf(bankLine, invoice, line.amount));
    Ok((MarkMatched(WithPayment(g, p), bankLine), ledger))
  }

  datatype Allocation = Allocation(invoice: nat, amount: int)

  datatype Allocated = Allocated(register: Register, total: int, base: int)

  function Allocate(a: Allocated, bankLine: nat, line: BankLine, earlier: seq<Allocation>,
      next: Allocation): Result<Allocated> {
    var _ :- Require(forall prior <- earlier :: prior.invoice != next.invoice, BadRequest);
    var inv :- CheckPayable(a.register, next.invoice, next.amount);
    var _ :- Require(inv.currency == line.currency, Conflict);
    var _ :- Require(FindPayment(a.register.payments, SplitKey(bankLine, next.invoice)).None?, Conflict);
    var p := Payment(next.invoice, next.amount, line.date, Split(bankLine), SplitKey(bankLine, next.invoice),
                     SplitOf(bankLine, next.invoice, next.amount));
    Ok(Allocated(WithPayment(a.register, p), a.total + next.amount, a.base + MulRate(next.amount, inv.rate)))
  }

  function AllocateAll(g: Register, bankLine: nat, line: BankLine, allocations: seq<Allocation>): Result<Allocated> {
    if allocations == [] then Ok(Allocated(g, 0, 0))
    else
      var n := |allocations| - 1;
      var before :- AllocateAll(g, bankLine, line, allocations[..n]);
      Allocate(before, bankLine, line, allocations[..n], allocations[n])
  }

  /** A bank line pays several invoices with one entry, which carries the bank line id. */
  function SplitMatch(g: Register, l: Ledger, bankLine: nat, allocations: seq<Allocation>): Result<(Register, Ledger)> {
    var line :- Incoming(g, bankLine);
    var _ :- Require(2 <= |allocations|, BadRequest);
    var a :- AllocateAll(g, bankLine, line, allocations);
    var _ :- Require(a.total == line.amount, Conflict);
    var ledger :- Post(l, Entry(line.date, BankMatchSource, BankLineId(bankLine),
                                [Debit(Bank(line.bank), a.base), Credit(Receivable, a.base)]));
    var _ :- Require(bankLine in a.register.bankLines, Conflict);
    Ok((MarkMatched(a.register, bankLine), ledger))
  }

  // ----- The same, as the tables are written -----

  method MatchBankTransaction(book: SalesBook, journal: Journal, bankLine: nat, invoice: nat) returns (r: Result<()>)
    modifies book, journal
    ensures r.Ok? <==> Match(old(book.State()), old(journal.State()), bankLine, invoice).Ok?
    ensures (book.State(), journal.State())
         == OrElse(Match(old(book.State()), old(journal.State()), bankLine, invoice),
             (old(book.State()), old(journal.State())))
  {
    if bankLine !in book.bankLines { return Err(NotFound); }
    var line := book.bankLines[bankLine];
    if line.matched { return Err(Conflict); }
    if line.amount <= 0 { return Err(Conflict); }
    if invoice !in book.invoices { return Err(NotFound); }
    var inv := book.invoices[invoice];
    if inv.status != Issued && inv.status != Partial { return Err(Conflict); }
    if inv.currency != line.currency { return Err(Conflict); }
    var outstanding := inv.Total() - inv.amountPaid;
    if line.amount > outstanding { return Err(Conflict); }
    if FindPayment(book.payments, MatchKey(bankLine, invoice)).Some? { return Err(Conflict); }
    var baseAmount := MulRate(line.amount, inv.rate);
    r := journal.PostJournal(line.date, PaymentSource, InvoiceId(invoice),
                             [Debit(Bank(line.bank), baseAmount), Credit(Receivable, baseAmount)]);
    if r.Err? { return; }
    book.AddPayment(Payment(invoice, line.amount, line.date, Matched(bankLine), MatchKey(bankLine, invoice),
                            MatchOf(bankLine, invoice, line.amount)));
    book.bankLines := book.bankLines[bankLine := line.(matched := true)];
  }

  /** The set of invoices already allocated is the set of the earlier allocations. */
  predicate SeenAre(seen: set<nat>, earlier: seq<Allocation>) {
    && (forall a <- earlier :: a.invoice in seen)
    && (forall id <- seen :: exists a <- earlier :: a.invoice == id)
  }

  method AllocateOne(book: SalesBook, bankLine: nat, line: BankLine, seen: set<nat>, next: Allocation, total: int,
      base: int,
                     ghost earlier: seq<Allocation>)
    returns (r: Result<(int, int)>)
    requires SeenAre(seen, earlier)
    modifies book
    ensures r.Ok? <==> Allocate(Allocated(old(book.State()), total, base), bankLine, line, earlier, next).Ok?
    ensures r.Ok? ==>
              Allocate(Allocated(old(book.State()), total, base), bankLine, line, earlier, next)
              == Ok(Allocated(book.State(), r.value.0, r.value.1))
  {
    if next.invoice in seen {
      ghost var a :| a in earlier && a.invoice == next.invoice;
      return Err(BadRequest);
    }
    if next.amount <= 0 { return Err(BadRequest); }
    if next.invoice !in book.invoices { return Err(NotFound); }
    var inv := book.invoices[next.invoice];
    if inv.status != Issued && inv.status != Partial { return Err(Conflict); }
    if inv.currency != line.currency { return Err(Conflict); }
    var outstanding := inv.Total() - inv.amountPaid;
    if next.amount > outstanding { return Err(Conflict); }
    if FindPayment(book.payments, SplitKey(bankLine, next.invoice)).Some? { return Err(Conflict); }
    book.AddPayment(Payment(next.invoice, next.amount, line.date, Split(bankLine), SplitKey(bankLine, next.invoice),
                            SplitOf(bankLine, next.invoice, next.amount)));
    return Ok((total + next.amount, base + MulRate(next.amount, inv.rate)));
  }

  /** Pays each invoice of the split in turn, remembering which were seen. */
  method AllocateEach(book: SalesBook, bankLine: nat, line: BankLine, allocations: seq<Allocation>)
    returns (r: Result<(int, int)>)
    modifies book
    ensures r.Ok? <==> AllocateAll(old(book.State()), bankLine, line, allocations).Ok?
    ensures r.Ok? ==>
              AllocateAll(old(book.State()), bankLine, line, allocations)
              == Ok(Allocated(book.State(), r.value.0, r.value.1))
  {
    ghost var before := book.State();
    var seen: set<nat> := {};
    var allocatedTotal, totalBaseCents := 0, 0;
    for i := 0 to |allocations|
      invariant SeenAre(seen, allocations[..i])
      invariant AllocateAll(before, bankLine, line, allocations[..i])
          == Ok(Allocated(book.State(), allocatedTotal, totalBaseCents))
    {
      assert allocations[..i + 1][..i] == allocations[..i];
      AllocateFailsOnward(before, bankLine, line, allocations, i + 1);
      var next := AllocateOne(book, bankLine, line, seen, allocations[i], allocatedTotal, totalBaseCents,
          allocations[..i]);
      if next.Err? { return Err(next.error); }
      SeenOneMore(seen, allocations[..i], allocations[i]);
      assert allocations[..i + 1] == allocations[..i] + [allocations[i]];
      seen := seen + {allocations[i].invoice};
      allocatedTotal, totalBaseCents := next.value.0, next.value.1;
    }
    assert allocations[..|allocations|] == allocations;
    return Ok((allocatedTotal, totalBaseCents));
  }

  lemma SeenOneMore(seen: set<nat>, earlier: seq<Allocation>, next: Allocation)
    requires SeenAre(seen, earlier)
    ensures SeenAre(seen + {next.invoice}, earlier + [next])
  {
    assert next in earlier + [next];
    forall id <- seen ensures exists a <- earlier + [next] :: a.invoice == id {
      var a :| a in earlier && a.invoice == id;
      assert a in earlier + [next];
    }
  }

  method SplitBankTransaction(book: SalesBook, journal: Journal, bankLine: nat, allocations: seq<Allocation>)
    returns (r: Result<()>)
    modifies book, journal
    ensures r.Ok? <==> SplitMatch(old(book.State()), old(journal.State()), bankLine, allocations).Ok?
    ensures (book.State(), journal.State())
         == OrElse(SplitMatch(old(book.State()), old(journal.State()), bankLine, allocations),
                   (old(book.State()), old(journal.State())))
  {
    if bankLine !in book.bankLines { return Err(NotFound); }
    var line := book.bankLines[bankLine];
    if line.matched { return Err(Conflict); }
    if line.amount <= 0 { return Err(Conflict); }
    if |allocations| < 2 { return Err(BadRequest); }
    var saved, savedJournal := book.State(), journal.State();
    var sums := AllocateEach(book, bankLine, line, allocations);
    if sums.Err? {
      book.Rollback(saved);
      return Err(sums.error);
    }
    if sums.value.0 != line.amount {
      book.Rollback(saved);
      return Err(Conflict);
    }
    r := journal.PostJournal(line.date, BankMatchSource, BankLineId(bankLine),
                             [Debit(Bank(line.bank), sums.value.1), Credit(Receivable, sums.value.1)]);
    if r.Err? {
      book.Rollback(saved);
      return;
    }
    if bankLine !in book.bankLines {
      book.Rollback(saved);
      journal.Rollback(savedJournal);
      return Err(Conflict);
    }
    book.bankLines := book.bankLines[bankLine := book.bankLines[bankLine].(matched := true)];
    return Ok(());
  }

  lemma {:induction false} AllocateFailsOnward(g: Register, bankLine: nat, line: BankLine, allocations: seq<Allocation>,
      n: nat)
    requires n <= |allocations|
    ensures AllocateAll(g, bankLine, line, allocations[..n]).Err? ==> AllocateAll(g, bankLine, line, allocations).Err?
    decreases |allocations| - n
  {
    if n < |allocations| {
      assert allocations[..n + 1][..n] == allocations[..n];
      AllocateFailsOnward(g, bankLine, line, allocations, n + 1);
    } else {
      assert allocations[..n] == allocations;
    }
  }
}
