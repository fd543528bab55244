/** What customers owe: the invoice, its payments and the receivable account in step.

    Owes ties three records of one invoice together: the amount paid kept on it, the rows of the
    payment table, and the entries posted under its id. Direct payments and single matches post
    under the invoice, split matches do not, so the account of the invoice is its revenue less
    every payment but those of split matches, each rounded on its own. One lemma per operation
    shows that it keeps this for the invoice it touches and for all the others. */
module Receivables {
  import opened Money
  import opened Accounting
  import opened Inventory
  import opened Invoicing
  import opened BankMatching
  import opened InvoiceEntries

  // ----- Payments of one invoice -----

  function PaidTotal(ps: seq<Payment>, id: nat): int {
    if ps == [] then 0
    else PaidTotal(ps[..|ps| - 1], id) + if ps[|ps| - 1].invoice == id then ps[|ps| - 1].amount else 0
  }

  function PaymentCount(ps: seq<Payment>, id: nat): nat {
    if ps == [] then 0
    else PaymentCount(ps[..|ps| - 1], id) + if ps[|ps| - 1].invoice == id then 1 else 0
  }

  /** Base value of the payments of one invoice, each converted and rounded on its own. */
  function PaidBase(ps: seq<Payment>, id: nat, rate: int): int {
    if ps == [] then 0
    else
      PaidBase(ps[..|ps| - 1], id, rate)
      + if ps[|ps| - 1].invoice == id then MulRate(ps[|ps| - 1].amount, rate) else 0
  }

  /** The same, counting only what split matches paid. */
  function SplitBase(ps: seq<Payment>, id: nat, rate: int): int {
    if ps == [] then 0
    else SplitBase(ps[..|ps| - 1], id, rate)
         + if ps[|ps| - 1].invoice == id && ps[|ps| - 1].kind.Split? then MulRate(ps[|ps| - 1].amount, rate) else 0
  }

  lemma OnePayment(ps: seq<Payment>, p: Payment, id: nat, rate: int)
    ensures PaidTotal(ps + [p], id) == PaidTotal(ps, id) + if p.invoice == id then p.amount else 0
    ensures PaymentCount(ps + [p], id) == PaymentCount(ps, id) + if p.invoice == id then 1 else 0
    ensures PaidBase(ps + [p], id, rate) == PaidBase(ps, id, rate)
        + if p.invoice == id then MulRate(p.amount, rate) else 0
    ensures SplitBase(ps + [p], id, rate)
         == SplitBase(ps, id, rate) + if p.invoice == id && p.kind.Split? then MulRate(p.amount, rate) else 0
  {
    assert (ps + [p])[..|ps|] == ps;
  }

  // ----- The invariant -----

  predicate Live(inv: Invoice) { inv.status in {Issued, Partial, Paid} }

  function RevenueBase(inv: Invoice): int {
    MulRate(inv.subtotal, inv.rate) + MulRate(inv.taxTotal, inv.rate)
  }

  predicate StatusFits(inv: Invoice) {
    match inv.status
    case Draft | Void => inv.amountPaid == 0
    case Issued => inv.amountPaid == 0 && inv.rate != 0 && inv.Total() != 0 && (inv.rate > 0 <==> inv.Total() > 0)
    case Partial => inv.rate > 0 && 0 < inv.amountPaid < inv.Total()
    case Paid => inv.rate > 0 && 0 < inv.amountPaid == inv.Total()
  }

  predicate InvoiceOk(g: Register, entries: seq<Entry>, id: nat)
    requires id in g.invoices
  {
    var inv := g.invoices[id];
    && StatusFits(inv)
    && inv.amountPaid == PaidTotal(g.payments, id)
    && (!Live(inv) ==> PaymentCount(g.payments, id) == 0)
    && SourceBalance(entries, InvoiceId(id), Receivable)
       == (if Live(inv) then RevenueBase(inv)
           - (PaidBase(g.payments, id, inv.rate) - SplitBase(g.payments, id, inv.rate)) else 0)
    && (inv.status != Void ==> IssueBalance(entries, id, Receivable) == if Live(inv) then RevenueBase(inv) else 0)
  }

  ghost predicate Owes(g: Register, entries: seq<Entry>) {
    && (forall id <- g.invoices :: InvoiceOk(g, entries, id))
    && (forall id: nat :: id !in g.invoices ==>
          PaymentCount(g.payments, id) == 0 && PaidTotal(g.payments, id) == 0
          && SourceBalance(entries, InvoiceId(id), Receivable) == 0 && IssueBalance(entries, id, Receivable) == 0)
    && (forall p <- g.payments :: 0 < p.amount && p.invoice in g.invoices && Live(g.invoices[p.invoice]))
  }

  // ----- Entries that leave receivables alone -----

  ghost predicate NoReceivable(more: seq<Entry>) {
    forall e <- more :: e.sourceId.InvoiceId? ==> Net(e.lines, Receivable) == 0
  }

  lemma {:induction false} NoReceivableBalance(more: seq<Entry>, id: nat)
    requires NoReceivable(more)
    ensures SourceBalance(more, InvoiceId(id), Receivable) == 0 && IssueBalance(more, id, Receivable) == 0
  {
    if more != [] {
      assert more[|more| - 1] in more;
      NoReceivableBalance(more[..|more| - 1], id);
    }
  }

  lemma EntriesLeaveOwes(g: Register, h: Register, entries: seq<Entry>, more: seq<Entry>)
    requires Owes(g, entries) && NoReceivable(more)
    requires h.invoices == g.invoices && h.payments == g.payments
    ensures Owes(h, entries + more)
  {
    forall id: nat
      ensures SourceBalance(entries + more, InvoiceId(id), Receivable)
          == SourceBalance(entries, InvoiceId(id), Receivable)
      ensures IssueBalance(entries + more, id, Receivable) == IssueBalance(entries, id, Receivable)
    {
      NoReceivableBalance(more, id);
      IssueBalanceAppend(entries, more, id, Receivable);
      SourceBalanceAppend(entries, more, InvoiceId(id), Receivable);
    }
    forall id <- h.invoices ensures InvoiceOk(h, entries + more, id) { assert InvoiceOk(g, entries, id); }
  }

  // ----- Payments -----

  /** One payment, entered under the invoice's own id unless it is a share of a split match. */
  lemma PaymentOwes(g: Register, entries: seq<Entry>, p: Payment, more: seq<Entry>)
    requires Owes(g, entries) && CheckPayable(g, p.invoice, p.amount).Ok?
    requires forall id: nat ::
      SourceBalance(more, InvoiceId(id), Receivable)
      == if id == p.invoice && !p.kind.Split? then -MulRate(p.amount, g.invoices[p.invoice].rate) else 0
    requires forall id: nat :: IssueBalance(more, id, Receivable) == 0
    ensures Owes(WithPayment(g, p), entries + more)
  {
    var h := WithPayment(g, p);
    forall id: nat
      ensures SourceBalance(entries + more, InvoiceId(id), Receivable)
           == SourceBalance(entries, InvoiceId(id), Receivable) + SourceBalance(more, InvoiceId(id), Receivable)
      ensures IssueBalance(entries + more, id, Receivable) == IssueBalance(entries, id, Receivable)
    {
      IssueBalanceAppend(entries, more, id, Receivable);
      SourceBalanceAppend(entries, more, InvoiceId(id), Receivable);
    }
    forall id <- h.invoices ensures InvoiceOk(h, entries + more, id) {
      PaidInvoiceOk(g, entries, entries + more, p, id);
    }
    forall id: nat | id !in h.invoices ensures PaymentCount(h.payments, id) == 0 && PaidTotal(h.payments, id) == 0 {
      OnePayment(g.payments, p, id, 0);
    }
  }

  lemma PaidInvoiceOk(g: Register, before: seq<Entry>, after: seq<Entry>, p: Payment, id: nat)
    requires CheckPayable(g, p.invoice, p.amount).Ok? && id in g.invoices && InvoiceOk(g, before, id)
    requires SourceBalance(after, InvoiceId(id), Receivable)
          == SourceBalance(before, InvoiceId(id), Receivable)
             - if id == p.invoice && !p.kind.Split? then MulRate(p.amount, g.invoices[p.invoice].rate) else 0
    requires IssueBalance(after, id, Receivable) == IssueBalance(before, id, Receivable)
    ensures InvoiceOk(WithPayment(g, p), after, id)
  {
    OnePayment(g.payments, p, id, g.invoices[id].rate);
    if id == p.invoice {
      PaidStatusFits(g, p);
    } else {
      assert WithPayment(g, p).invoices[id] == g.invoices[id];
    }
  }

  lemma PaidStatusFits(g: Register, p: Payment)
    requires CheckPayable(g, p.invoice, p.amount).Ok? && StatusFits(g.invoices[p.invoice])
    ensures var inv := WithPayment(g, p).invoices[p.invoice];
            && StatusFits(inv) && Live(inv) && inv.amountPaid == g.invoices[p.invoice].amountPaid + p.amount
            && RevenueBase(inv) == RevenueBase(g.invoices[p.invoice]) && inv.rate == g.invoices[p.invoice].rate
  {
  }

  /** The entry of a direct or matched payment, seen from the receivable account. */
  lemma PaymentEntry(date: int, bank: nat, inv: Invoice, amount: int, invoice: nat)
    ensures var e := Entry(date, PaymentSource, InvoiceId(invoice), ReceiptLines(bank, inv, amount));
            && Net(e.lines, Receivable) == -MulRate(amount, inv.rate)
            && (forall id: nat ::
                SourceBalance([e], InvoiceId(id), Receivable)
                == if id == invoice then -MulRate(amount, inv.rate) else 0)
            && (forall id: nat :: IssueBalance([e], id, Receivable) == 0)
  {
    var e := Entry(date, PaymentSource, InvoiceId(invoice), ReceiptLines(bank, inv, amount));
    NetOfPair(Bank(bank), Receivable, MulRate(amount, inv.rate), Receivable);
    forall id: nat
      ensures SourceBalance([e], InvoiceId(id), Receivable) == if id == invoice then -MulRate(amount, inv.rate) else 0
      ensures IssueBalance([e], id, Receivable) == 0
    {
      SourceBalanceOne(e, InvoiceId(id), Receivable);
      IssueBalanceOne(e, id, Receivable);
    }
  }

  /** A direct or matched payment and its entry, together. */
  lemma PaidByEntry(g: Register, entries: seq<Entry>, p: Payment, date: int, bank: nat)
    requires Owes(g, entries) && CheckPayable(g, p.invoice, p.amount).Ok? && !p.kind.Split?
    ensures Owes(WithPayment(g, p),
                 entries + [Entry(date, PaymentSource, InvoiceId(p.invoice),
                     ReceiptLines(bank, g.invoices[p.invoice], p.amount))])
  {
    var inv := g.invoices[p.invoice];
    PaymentEntry(date, bank, inv, p.amount, p.invoice);
    PaymentOwes(g, entries, p, [Entry(date, PaymentSource, InvoiceId(p.invoice), ReceiptLines(bank, inv, p.amount))]);
  }

  lemma PayOwes(g: Register, l: Ledger, i: PaymentInput, now: int)
    requires Owes(g, l.entries) && Pay(g, l, i, now).Ok?
    ensures var r := Pay(g, l, i, now).value; Owes(r.0, r.1.entries)
  {
    if FindPayment(g.payments, i.key).None? {
      var date := if i.date.Some? then i.date.value else now;
      var bank := if i.bank.Some? then i.bank.value else DEFAULT_BANK;
      PaidByEntry(g, l.entries, Payment(i.invoice, i.amount, date, Direct, i.key, PrintOf(i)), date, bank);
    }
  }

  lemma MatchResult(g: Register, l: Ledger, bankLine: nat, invoice: nat) returns (p: Payment)
    requires Match(g, l, bankLine, invoice).Ok?
    ensures bankLine in g.bankLines && p.invoice == invoice && !p.kind.Split?
        && CheckPayable(g, p.invoice, p.amount).Ok?
    ensures var line, r := g.bankLines[bankLine], Match(g, l, bankLine, invoice).value;
            && r.0 == MarkMatched(WithPayment(g, p), bankLine)
            && r.1.entries == l.entries + [Entry(line.date, PaymentSource, InvoiceId(p.invoice),
                                                 ReceiptLines(line.bank, g.invoices[p.invoice], p.amount))]
  {
    var line := g.bankLines[bankLine];
    p := Payment(invoice, line.amount, line.date, Matched(bankLine), MatchKey(bankLine, invoice),
        MatchOf(bankLine, invoice, line.amount));
  }

  lemma MatchOwes(g: Register, l: Ledger, bankLine: nat, invoice: nat)
    requires Owes(g, l.entries) && Match(g, l, bankLine, invoice).Ok?
    ensures var r := Match(g, l, bankLine, invoice).value; Owes(r.0, r.1.entries)
  {
    var p := MatchResult(g, l, bankLine, invoice);
    var r := Match(g, l, bankLine, invoice).value;
    MatchedOwes(g, l.entries, bankLine, p, r.1.entries);
  }

  lemma MatchedOwes(g: Register, entries: seq<Entry>, bankLine: nat, p: Payment, after: seq<Entry>)
    requires Owes(g, entries) && CheckPayable(g, p.invoice, p.amount).Ok? && !p.kind.Split? && bankLine in g.bankLines
    requires var line := g.bankLines[bankLine];
             after == entries + [Entry(line.date, PaymentSource, InvoiceId(p.invoice),
                 ReceiptLines(line.bank, g.invoices[p.invoice], p.amount))]
    ensures Owes(MarkMatched(WithPayment(g, p), bankLine), after)
  {
    var line := g.bankLines[bankLine];
    PaidByEntry(g, entries, p, line.date, line.bank);
    MarkOwes(WithPayment(g, p), bankLine, after);
  }

  lemma MarkOwes(g: Register, bankLine: nat, entries: seq<Entry>)
    requires Owes(g, entries) && bankLine in g.bankLines
    ensures Owes(MarkMatched(g, bankLine), entries)
  {
    assert entries + [] == entries;
    EntriesLeaveOwes(g, MarkMatched(g, bankLine), entries, []);
  }

  lemma {:induction false} AllocationsOwe(g: Register, entries: seq<Entry>, bankLine: nat, line: BankLine,
      allocations: seq<Allocation>)
    requires Owes(g, entries) && AllocateAll(g, bankLine, line, allocations).Ok?
    ensures Owes(AllocateAll(g, bankLine, line, allocations).value.register, entries)
  {
    if allocations != [] {
      var n := |allocations| - 1;
      AllocationsOwe(g, entries, bankLine, line, allocations[..n]);
      var h := AllocateAll(g, bankLine, line, allocations[..n]).value.register;
      var a := allocations[n];
      assert entries + [] == entries;
      PaymentOwes(h, entries, Payment(a.invoice, a.amount, line.date, Split(bankLine), SplitKey(bankLine, a.invoice),
                                      SplitOf(bankLine, a.invoice, a.amount)), []);
    }
  }

  lemma SplitOwes(g: Register, l: Ledger, bankLine: nat, allocations: seq<Allocation>)
    requires Owes(g, l.entries) && SplitMatch(g, l, bankLine, allocations).Ok?
    ensures var r := SplitMatch(g, l, bankLine, allocations).value; Owes(r.0, r.1.entries)
  {
    var line := g.bankLines[bankLine];
    AllocationsOwe(g, l.entries, bankLine, line, allocations);
    var r := SplitMatch(g, l, bankLine, allocations).value;
    EntriesLeaveOwes(AllocateAll(g, bankLine, line, allocations).value.register, r.0, l.entries,
        [r.1.entries[|l.entries|]]);
  }

  // ----- Drafting, issuing, voiding -----

  lemma DraftOwes(g: Register, entries: seq<Entry>, s: Stock, id: nat, currency: Currency, rate: int,
      lines: seq<DraftLine>)
    requires Owes(g, entries) && SaveDraft(g, s, id, currency, rate, lines).Ok?
    ensures Owes(SaveDraft(g, s, id, currency, rate, lines).value, entries)
  {
    var h := SaveDraft(g, s, id, currency, rate, lines).value;
    if id in g.invoices { assert InvoiceOk(g, entries, id); }
    forall k <- h.invoices ensures InvoiceOk(h, entries, k) {
      if k != id { assert InvoiceOk(g, entries, k); } else { NoPayments(g.payments, id); }
    }
  }

  lemma {:induction false} NoPayments(ps: seq<Payment>, id: nat)
    requires PaymentCount(ps, id) == 0
    ensures PaidTotal(ps, id) == 0
    ensures forall rate :: PaidBase(ps, id, rate) == 0 && SplitBase(ps, id, rate) == 0
  {
    if ps != [] {
      NoPayments(ps[..|ps| - 1], id);
    }
  }

  /** The revenue entry balances exactly when the sales round to a positive amount and the tax
      to no negative one; it then charges the customer the sum of the two rounded parts. */
  lemma RevenueBalances(inv: Invoice, a: Account)
    ensures var sales, vat := MulRate(inv.subtotal, inv.rate), MulRate(inv.taxTotal, inv.rate);
            && (Balanced(RevenueLines(inv)) <==> 0 < sales && 0 <= vat)
            && (Balanced(RevenueLines(inv)) ==>
                  Net(RevenueLines(inv), a) == match a
                                               case Receivable => sales + vat
                                               case Sales => -sales
                                               case VatOutput => -vat
                                               case _ => 0)
  {
    var subtotalBase, taxBase := MulRate(inv.subtotal, inv.rate), MulRate(inv.taxTotal, inv.rate);
    var lines := RevenueLines(inv);
    var ar, sales, vat := Debit(Receivable, subtotalBase + taxBase), Credit(Sales, subtotalBase),
        Credit(VatOutput, taxBase);
    TotalsOfPair(ar, sales, a);
    AddLine([ar, sales], vat, a);
    if taxBase > 0 {
      assert lines == [ar, sales] + [vat];
    } else {
      assert lines == [ar, sales];
    }
    assert ar in lines && sales in lines by { assert lines[0] == ar && lines[1] == sales; }
    assert OneSided(sales) <==> 0 < subtotalBase;
    assert OneSided(ar) <==> 0 < subtotalBase + taxBase;
    assert forall line <- lines :: line == ar || line == sales || (line == vat && 0 < taxBase);
  }

  /** An accepted revenue entry has positive sales and no negative tax, so the total has the
      sign of the rate. */
  lemma RevenueAccepted(l: Ledger, inv: Invoice, id: nat, now: int)
    requires Post(l, Entry(now, InvoiceSource, InvoiceId(id), RevenueLines(inv))).Ok?
    ensures Net(RevenueLines(inv), Receivable) == RevenueBase(inv)
    ensures inv.rate != 0 && inv.Total() != 0 && (inv.rate > 0 <==> inv.Total() > 0)
  {
    RevenueBalances(inv, Receivable);
    SumOutweighs(inv.subtotal, inv.taxTotal, inv.rate);
    SameSign(inv.Total(), inv.rate);
  }

  lemma SumOutweighs(subtotal: int, tax: int, rate: int)
    requires 0 < MulRate(subtotal, rate) && 0 <= MulRate(tax, rate)
    ensures 0 < (subtotal + tax) * rate
  {
    MulRateNearest(subtotal, rate);
    MulRateNearest(tax, rate);
    assert (subtotal + tax) * rate == subtotal * rate + tax * rate;
  }

  lemma SameSign(a: int, b: int)
    requires 0 < a * b
    ensures b != 0 && a != 0 && (b > 0 <==> a > 0)
  {
    if b > 0 && a <= 0 { MulMonotone(a, 0, b); }
    if b < 0 && a > 0 { MulMonotone(b, 0, a); }
  }

  lemma IssueOwes(b: SalesBooks, id: nat, now: int)
    requires Owes(b.register, b.ledger.entries) && Issue(b, id, now).Ok?
    ensures var r := Issue(b, id, now).value; Owes(r.register, r.ledger.entries)
  {
    var r := Issue(b, id, now).value;
    var inv := b.register.invoices[id];
    assert InvoiceOk(b.register, b.ledger.entries, id);
    RevenueAccepted(b.ledger, inv, id, now);
    NoPayments(b.register.payments, id);
    var revenue := Entry(now, InvoiceSource, InvoiceId(id), RevenueLines(inv));
    IssuedOwes(b.register, b.ledger.entries, id, revenue);
    var lines := LockOrder(StockLines(b.stock, b.register.defaultWarehouse, inv.lines).value);
    CostOwes(r.register, Post(b.ledger, revenue).value, id, IssueLines(b.stock, id, lines).value.1, now);
  }

  lemma CostOwes(g: Register, l: Ledger, id: nat, cogs: int, now: int)
    requires Owes(g, l.entries) && PostCostOfGoods(l, id, cogs, now).Ok?
    ensures Owes(g, PostCostOfGoods(l, id, cogs, now).value.entries)
  {
    if cogs > 0 {
      var cost := Entry(now, InvoiceSource, InvoiceId(id), [Debit(CostOfGoods, cogs), Credit(Account.Inventory, cogs)]);
      NetOfPair(CostOfGoods, Account.Inventory, cogs, Receivable);
      EntriesLeaveOwes(g, g, l.entries, [cost]);
    }
  }

  lemma IssueEntryBalances(entries: seq<Entry>, id: nat, e: Entry, k: nat)
    requires IsIssueEntry(e, id)
    ensures SourceBalance(entries + [e], InvoiceId(k), Receivable)
         == SourceBalance(entries, InvoiceId(k), Receivable) + if k == id then Net(e.lines, Receivable) else 0
    ensures IssueBalance(entries + [e], k, Receivable)
         == IssueBalance(entries, k, Receivable) + if k == id then Net(e.lines, Receivable) else 0
  {
    IssueBalanceAppend(entries, [e], k, Receivable);
    IssueBalanceOne(e, k, Receivable);
    SourceBalanceAppend(entries, [e], InvoiceId(k), Receivable);
    SourceBalanceOne(e, InvoiceId(k), Receivable);
  }

  lemma IssuedOwes(g: Register, entries: seq<Entry>, id: nat, e: Entry)
    requires Owes(g, entries) && id in g.invoices && g.invoices[id].status == Draft
    requires IsIssueEntry(e, id) && Net(e.lines, Receivable) == RevenueBase(g.invoices[id])
    requires var inv := g.invoices[id]; inv.rate != 0 && inv.Total() != 0 && (inv.rate > 0 <==> inv.Total() > 0)
    ensures Owes(WithStatus(g, id, Issued), entries + [e])
  {
    var h := WithStatus(g, id, Issued);
    forall k: nat
      ensures SourceBalance(entries + [e], InvoiceId(k), Receivable)
           == SourceBalance(entries, InvoiceId(k), Receivable) + if k == id then Net(e.lines, Receivable) else 0
      ensures IssueBalance(entries + [e], k, Receivable)
           == IssueBalance(entries, k, Receivable) + if k == id then Net(e.lines, Receivable) else 0
    {
      IssueEntryBalances(entries, id, e, k);
    }
    forall k <- h.invoices ensures InvoiceOk(h, entries + [e], k) {
      assert InvoiceOk(g, entries, k);
      if k == id { NoPayments(g.payments, id); }
    }
  }

  lemma VoidOwes(b: SalesBooks, id: nat, reason: string, now: int)
    requires Owes(b.register, b.ledger.entries) && VoidInvoice(b, id, reason, now).Ok?
    ensures var r := VoidInvoice(b, id, reason, now).value; Owes(r.register, r.ledger.entries)
  {
    var g, r := b.register, VoidInvoice(b, id, reason, now).value;
    assert InvoiceOk(g, b.ledger.entries, id);
    if g.invoices[id].status == Draft {
      forall k <- r.register.invoices ensures InvoiceOk(r.register, b.ledger.entries, k) {
        assert InvoiceOk(g, b.ledger.entries, k);
      }
    } else {
      var more := ReversalsCancel(b.ledger, b.ledger.entries, id, now);
      VoidedOwes(g, b.ledger.entries, id, more);
    }
  }

  lemma {:induction false} OneSource(more: seq<Entry>, id: nat, a: Account)
    requires forall e <- more :: e.sourceType == InvoiceVoidSource && e.sourceId == InvoiceId(id)
    ensures forall k: nat :: SourceBalance(more, InvoiceId(k), a) == if k == id then Balance(more, a) else 0
    ensures forall k: nat :: IssueBalance(more, k, a) == 0
  {
    if more != [] {
      assert more[|more| - 1] in more;
      OneSource(more[..|more| - 1], id, a);
    }
  }

  lemma VoidedOwes(g: Register, entries: seq<Entry>, id: nat, more: seq<Entry>)
    requires Owes(g, entries) && id in g.invoices && g.invoices[id].status !in {Draft, Void}
        && g.invoices[id].amountPaid <= 0
    requires forall e <- more :: e.sourceType == InvoiceVoidSource && e.sourceId == InvoiceId(id)
    requires Balance(more, Receivable) == -IssueBalance(entries, id, Receivable)
    ensures Owes(WithStatus(g, id, Void), entries + more)
  {
    var h := WithStatus(g, id, Void);
    OneSource(more, id, Receivable);
    forall k: nat
      ensures SourceBalance(entries + more, InvoiceId(k), Receivable)
           == SourceBalance(entries, InvoiceId(k), Receivable) + SourceBalance(more, InvoiceId(k), Receivable)
      ensures IssueBalance(entries + more, k, Receivable) == IssueBalance(entries, k, Receivable)
    {
      SourceBalanceAppend(entries, more, InvoiceId(k), Receivable);
      IssueBalanceAppend(entries, more, k, Receivable);
    }
    assert InvoiceOk(g, entries, id);
    NothingPaid(g.payments, id);
    NoPayments(g.payments, id);
    forall p <- h.payments ensures p.invoice in h.invoices && Live(h.invoices[p.invoice]) {
      if p.invoice == id { PaymentCounted(g.payments, p); }
    }
    forall k <- h.invoices ensures InvoiceOk(h, entries + more, k) { assert InvoiceOk(g, entries, k); }
  }

  /** Payments are positive, so an invoice with nothing paid has none. */
  lemma {:induction false} NothingPaid(ps: seq<Payment>, id: nat)
    requires forall p <- ps :: 0 < p.amount
    ensures 0 <= PaidTotal(ps, id) && (PaidTotal(ps, id) == 0 <==> PaymentCount(ps, id) == 0)
  {
    if ps != [] {
      assert ps[|ps| - 1] in ps;
      NothingPaid(ps[..|ps| - 1], id);
    }
  }

  lemma {:induction false} PaymentCounted(ps: seq<Payment>, p: Payment)
    requires p in ps
    ensures 0 < PaymentCount(ps, p.invoice)
  {
    if ps[|ps| - 1] != p {
      PaymentCounted(ps[..|ps| - 1], p);
    }
  }
}
