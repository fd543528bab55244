/** The balance of the receivable account, invoice by invoice. Entries under an invoice and entries
    under a bank line add up to what the invoices still owe, because a split match pays an invoice
    with a share of an entry that carries the bank line id. */
module ReceivableAccount {
  import opened Money
  import opened Accounting
  import opened Invoicing
  import opened Books
  import opened Receivables
  import opened ReceivableControl
  import opened ReceivableSchedule
  import opened SetSums

  function LiveOwed(g: Register): nat -> int {
    (id: nat) => if id in g.invoices && Live(g.invoices[id]) then Owed(g, id) else 0
  }

  function SplitShares(ps: seq<Payment>, invoices: map<nat, Invoice>): nat -> int {
    (id: nat) => if id in invoices then SplitBase(ps, id, invoices[id].rate) else 0
  }

  // ----- Split matches, by payment and by invoice -----

  function SplitShareOf(p: Payment, invoices: map<nat, Invoice>): nat -> int {
    (id: nat) => if id == p.invoice && p.kind.Split? && id in invoices then MulRate(p.amount, invoices[id].rate) else 0
  }

  lemma {:induction false} SplitPaidByInvoice(ps: seq<Payment>, invoices: map<nat, Invoice>, cutoff: int)
    requires forall p <- ps :: p.date < cutoff
    ensures SplitPaid(ps, invoices, cutoff) == SumOver(invoices.Keys, SplitShares(ps, invoices))
  {
    if ps == [] {
      SumOfZeros(invoices.Keys, SplitShares(ps, invoices));
    } else {
      var n := |ps| - 1;
      var p := ps[n];
      assert p in ps;
      SplitPaidByInvoice(ps[..n], invoices, cutoff);
      SumAdds(invoices.Keys, SplitShares(ps[..n], invoices), SplitShareOf(p, invoices), SplitShares(ps, invoices));
      SumOfOne(invoices.Keys, SplitShareOf(p, invoices), p.invoice);
    }
  }

  // ----- A date after everything -----

  lemma {:induction false} AfterPayments(ps: seq<Payment>) returns (end: int)
    ensures forall p <- ps :: p.date < end
  {
    if ps == [] {
      end := 0;
    } else {
      var n := |ps| - 1;
      var earlier := AfterPayments(ps[..n]);
      end := if earlier <= ps[n].date then ps[n].date + 1 else earlier;
      forall p <- ps ensures p.date < end { assert p in ps[..n] || p == ps[n]; }
    }
  }

  // ----- The account -----

  lemma SourcesOwed(g: Register, entries: seq<Entry>)
    requires Controls(g, entries)
    ensures SumOver(g.invoices.Keys, Sources(entries))
         == SumOver(g.invoices.Keys, LiveOwed(g)) + SumOver(g.invoices.Keys, SplitShares(g.payments, g.invoices))
  {
    forall id <- g.invoices.Keys ensures Sources(entries)(id)
        == LiveOwed(g)(id) + SplitShares(g.payments, g.invoices)(id) {
      assert InvoiceOk(g, entries, id);
      if !Live(g.invoices[id]) { NoPayments(g.payments, id); }
    }
    SumAdds(g.invoices.Keys, LiveOwed(g), SplitShares(g.payments, g.invoices), Sources(entries));
  }

  lemma BankLinesPaid(g: Register, entries: seq<Entry>)
    requires Controls(g, entries)
    ensures BankLineBalance(entries, Receivable) == -SumOver(g.invoices.Keys, SplitShares(g.payments, g.invoices))
  {
    var e := AfterEntries(entries);
    var p := AfterPayments(g.payments);
    var t := if e <= p then p else e;
    assert Before(entries, t) == entries;
    SplitPaidByInvoice(g.payments, g.invoices, t);
  }

  /** After any run, the receivable account is the sum of what the live invoices owe. */
  lemma AccountIsOwed(b: Books)
    requires Reachable(b)
    ensures Balance(b.ledger.entries, Receivable) == SumOver(b.register.invoices.Keys, LiveOwed(b.register))
  {
    var g, entries := b.register, b.ledger.entries;
    ReachableControls(b);
    ControlBySource(entries, g);
    SourcesOwed(g, entries);
    BankLinesPaid(g, entries);
  }

  // ----- How far it is from what is outstanding -----

  /** Outstanding at the invoice's rate, in millionths of a cent. */
  function Outstanding(g: Register): nat -> int {
    (id: nat) =>
      if id in g.invoices && Live(g.invoices[id])
          then (g.invoices[id].Total() - g.invoices[id].amountPaid) * g.invoices[id].rate else 0
  }

  /** Two roundings for the issue of an invoice and one for each of its payments. */
  function Roundings(g: Register): nat -> int {
    (id: nat) => if id in g.invoices && Live(g.invoices[id]) then (2 + PaymentCount(g.payments, id)) * RATE_ONE else 0
  }

  lemma InvoiceNear(g: Register, entries: seq<Entry>, id: nat)
    requires id in g.invoices && InvoiceOk(g, entries, id)
    ensures 2 * Abs(LiveOwed(g)(id) * RATE_ONE - Outstanding(g)(id)) <= Roundings(g)(id)
  {
    if Live(g.invoices[id]) { OwedNearest(g, id); }
  }

  ghost predicate EachNear(g: Register) {
    forall id <- g.invoices.Keys :: 2 * Abs(LiveOwed(g)(id) * RATE_ONE - Outstanding(g)(id)) <= Roundings(g)(id)
  }

  lemma InvoicesNear(g: Register, entries: seq<Entry>)
    requires Controls(g, entries)
    ensures EachNear(g)
  {
    forall id <- g.invoices.Keys
      ensures 2 * Abs(LiveOwed(g)(id) * RATE_ONE - Outstanding(g)(id)) <= Roundings(g)(id)
    {
      InvoiceNear(g, entries, id);
    }
  }

  lemma TotalNear(g: Register)
    requires EachNear(g)
    ensures WithinRoundings(SumOver(g.invoices.Keys, LiveOwed(g)), SumOver(g.invoices.Keys, Outstanding(g)),
                            SumOver(g.invoices.Keys, Roundings(g)))
  {
    SumNear(g.invoices.Keys, LiveOwed(g), Outstanding(g), RATE_ONE, Roundings(g));
  }

  predicate WithinRoundings(balance: int, outstanding: int, roundings: int) {
    2 * Abs(balance * RATE_ONE - outstanding) <= roundings
  }

  /** After any run, the receivable account is within half a cent for each rounding of what is
      outstanding on the live invoices, each at its own rate. */
  lemma AccountIsNearOutstanding(b: Books)
    requires Reachable(b)
    ensures var g := b.register;
            WithinRoundings(Balance(b.ledger.entries, Receivable), SumOver(g.invoices.Keys, Outstanding(g)),
                            SumOver(g.invoices.Keys, Roundings(g)))
  {
    AccountIsOwed(b);
    assert EachNear(b.register) by {
      ReachableControls(b);
      InvoicesNear(b.register, b.ledger.entries);
    }
    TotalNear(b.register);
  }
}
