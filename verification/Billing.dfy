/** The subscription life cycle: billing runs, dunning, suspension and settlement. There is one
    subscription to a tenant. */
module Billing {
  import opened Wrappers

  const DAY: int := 86_400_000
  const GRACE_DAYS := 14
  const PAST_DUE_TO_SUSPEND_DAYS := 75

  function AddDays(instant: int, days: int): int { instant + days * DAY }

  datatype SubscriptionStatus = Trialing | Active | PastDue | Suspended

  datatype TenantStatus = TrialTenant | ActiveTenant | PastDueTenant | SuspendedTenant

  datatype InvoiceStatus = Pending | Overdue | Paid

  datatype SubInvoice = SubInvoice(periodStart: int, periodEnd: int, status: InvoiceStatus, issuedAt: int, dueAt: int)

  datatype Account = Account(
    status: SubscriptionStatus, tenant: TenantStatus,
    trialEnd: int, periodStart: int, periodEnd: int,
    invoices: seq<SubInvoice>)

  /** Sign-up: the first period is the trial. */
  function SignedUp(now: int, trialEnd: int): Account { Account(Trialing, TrialTenant, trialEnd, now, trialEnd, []) }

  function NewInvoice(start: int, end: int, asOf: int): SubInvoice {
    SubInvoice(start, end, Pending, asOf, AddDays(asOf, GRACE_DAYS))
  }

  predicate PendingPastDue(inv: SubInvoice, asOf: int) { inv.status == Pending && inv.dueAt < asOf }

  predicate LongOverdue(inv: SubInvoice, asOf: int) {
    inv.status == Overdue && inv.dueAt < AddDays(asOf, -PAST_DUE_TO_SUSPEND_DAYS)
  }

  predicate AnyInvoice(invoices: seq<SubInvoice>, p: SubInvoice -> bool) {
    exists k: nat :: k < |invoices| && p(invoices[k])
  }

  function Flipped(invoices: seq<SubInvoice>, asOf: int): seq<SubInvoice> {
    seq(|invoices|, k requires 0 <= k < |invoices| =>
      if PendingPastDue(invoices[k], asOf) then invoices[k].(status := Overdue) else invoices[k])
  }

  /** Renewal of an active subscription whose period is over, by one period only. */
  function Renewed(a: Account, asOf: int, addMonth: int -> int): Account {
    if a.status == Active && asOf >= a.periodEnd then
      a.(periodStart := a.periodEnd, periodEnd := addMonth(a.periodEnd),
         invoices := a.invoices + [NewInvoice(a.periodEnd, addMonth(a.periodEnd), asOf)])
    else a
  }

  /** One billing run over one subscription. Each branch looks at the status read at the start. */
  function Cycle(a: Account, asOf: int, addMonth: int -> int): Account {
    if a.status == Trialing && asOf >= a.trialEnd then
      a.(invoices := a.invoices + [NewInvoice(a.trialEnd, addMonth(a.trialEnd), asOf)],
         status := Active, tenant := ActiveTenant, periodStart := a.trialEnd, periodEnd := addMonth(a.trialEnd))
    else
      var renewed := Renewed(a, asOf, addMonth);
      var dunned :=
        if a.status == Active && AnyInvoice(renewed.invoices, (inv: SubInvoice) => PendingPastDue(inv, asOf))
        then renewed.(invoices := Flipped(renewed.invoices, asOf), status := PastDue, tenant := PastDueTenant)
        else renewed;
      if a.status == PastDue && AnyInvoice(dunned.invoices, (inv: SubInvoice) => LongOverdue(inv, asOf))
      then dunned.(status := Suspended, tenant := SuspendedTenant)
      else dunned
  }

  /** Settlement of one invoice; with nothing overdue left the subscription is active again. */
  function MarkPaid(a: Account, invoice: nat): Result<Account> {
    var _ :- Require(invoice < |a.invoices|, NotFound);
    var _ :- Require(a.invoices[invoice].status != Paid, Conflict);
    var settled := a.(invoices := a.invoices[invoice := a.invoices[invoice].(status := Paid)]);
    Ok(if AnyInvoice(settled.invoices, (inv: SubInvoice) => inv.status == Overdue) then settled
       else settled.(status := Active, tenant := ActiveTenant))
  }

  // ----- The same, as the tables are written -----

  class Platform {
    var accounts: seq<Account>

    constructor (accounts: seq<Account>)
      ensures this.accounts == accounts
    {
      this.accounts := accounts;
    }

    /** The pending invoices past due become overdue, one by one. */
    static method FlipOverdue(invoices: seq<SubInvoice>, asOf: int) returns (flipped: seq<SubInvoice>, any: bool)
      ensures flipped == Flipped(invoices, asOf)
      ensures any == AnyInvoice(invoices, (inv: SubInvoice) => PendingPastDue(inv, asOf))
    {
      flipped, any := invoices, false;
      for k := 0 to |invoices|
        invariant |flipped| == |invoices| && flipped[k..] == invoices[k..]
            && flipped[..k] == Flipped(invoices, asOf)[..k]
        invariant any <==> exists j: nat :: j < k && PendingPastDue(invoices[j], asOf)
      {
        assert flipped[k] == flipped[k..][0] == invoices[k];
        if flipped[k].status == Pending && flipped[k].dueAt < asOf {
          flipped := flipped[k := flipped[k].(status := Overdue)];
          any := true;
        }
      }
      assert flipped[..|invoices|] == flipped && Flipped(invoices, asOf)[..|invoices|] == Flipped(invoices, asOf);
    }

    static method BillOne(sub: Account, asOf: int, addMonth: int -> int) returns (a: Account)
      ensures a == Cycle(sub, asOf, addMonth)
    {
      a := sub;
      if sub.status == Trialing && asOf >= sub.trialEnd {
        var periodEnd := addMonth(sub.trialEnd);
        a := a.(invoices := a.invoices + [NewInvoice(sub.trialEnd, periodEnd, asOf)]);
        a := a.(status := Active, periodStart := sub.trialEnd, periodEnd := periodEnd);
        a := a.(tenant := ActiveTenant);
        return;
      }
      if sub.status == Active && asOf >= sub.periodEnd {
        var newEnd := addMonth(sub.periodEnd);
        a := a.(invoices := a.invoices + [NewInvoice(sub.periodEnd, newEnd, asOf)]);
        a := a.(periodStart := sub.periodEnd, periodEnd := newEnd);
      }
      var flipped, any := FlipOverdue(a.invoices, asOf);
      if any && sub.status == Active {
        a := a.(invoices := flipped);
        a := a.(status := PastDue);
        a := a.(tenant := PastDueTenant);
      }
      if sub.status == PastDue {
        if AnyInvoice(a.invoices, (inv: SubInvoice) => LongOverdue(inv, asOf)) {
          a := a.(status := Suspended);
          a := a.(tenant := SuspendedTenant);
        }
      }
    }

    /** Every subscription, each in its own transaction. */
    method RunBillingCycle(asOf: int, addMonth: int -> int)
      modifies this
      ensures |accounts| == |old(accounts)|
      ensures forall k :: 0 <= k < |accounts| ==> accounts[k] == Cycle(old(accounts)[k], asOf, addMonth)
    {
      var subs := accounts;
      for i := 0 to |subs|
        invariant |accounts| == |subs| && accounts[i..] == subs[i..]
        invariant forall k :: 0 <= k < i ==> accounts[k] == Cycle(subs[k], asOf, addMonth)
      {
        assert accounts[i] == accounts[i..][0];
        var a := BillOne(subs[i], asOf, addMonth);
        accounts := accounts[i := a];
      }
    }

    method MarkSubscriptionInvoicePaid(account: nat, invoice: nat) returns (r: Result<()>)
      requires account < |accounts|
      modifies this
      ensures r.Ok? <==> MarkPaid(old(accounts)[account], invoice).Ok?
      ensures accounts == old(accounts)[account :=
          OrElse(MarkPaid(old(accounts)[account], invoice), old(accounts)[account])]
    {
      var a := accounts[account];
      if invoice >= |a.invoices| { return Err(NotFound); }
      if a.invoices[invoice].status == Paid { return Err(Conflict); }
      a := a.(invoices := a.invoices[invoice := a.invoices[invoice].(status := Paid)]);
      var stillOverdue := AnyInvoice(a.invoices, (inv: SubInvoice) => inv.status == Overdue);
      if !stillOverdue {
        a := a.(status := Active);
        a := a.(tenant := ActiveTenant);
      }
      accounts := accounts[account := a];
      return Ok(());
    }
  }

  // ----- Every run -----

  datatype BillingStep = CycleAt(asOf: int) | PayInvoice(invoice: nat)

  function BillingRun(a: Account, steps: seq<BillingStep>, addMonth: int -> int): Account {
    if steps == [] then a
    else
      var before := BillingRun(a, steps[..|steps| - 1], addMonth);
      match steps[|steps| - 1]
      case CycleAt(asOf) => Cycle(before, asOf, addMonth)
      case PayInvoice(invoice) => OrElse(MarkPaid(before, invoice), before)
  }

  predicate Mirrors(a: Account) {
    match a.status
    case Trialing => a.tenant == TrialTenant
    case Active => a.tenant == ActiveTenant
    case PastDue => a.tenant == PastDueTenant
    case Suspended => a.tenant == SuspendedTenant
  }

  predicate HasOverdue(a: Account) { exists k: nat :: k < |a.invoices| && a.invoices[k].status == Overdue }

  /** Periods follow on from the end of the trial to the end of the current period. */
  predicate Tiles(a: Account) {
    && (a.invoices == [] ==> a.periodEnd == a.trialEnd)
    && (a.invoices != [] ==>
        a.invoices[0].periodStart == a.trialEnd && a.invoices[|a.invoices| - 1].periodEnd == a.periodEnd)
    && (forall k :: 0 < k < |a.invoices| ==> a.invoices[k].periodStart == a.invoices[k - 1].periodEnd)
    && (forall k :: 0 <= k < |a.invoices| ==> a.invoices[k].periodStart < a.invoices[k].periodEnd)
  }

  predicate AccountOk(a: Account) {
    && Mirrors(a) && Tiles(a)
    && (a.status == Trialing <==> a.invoices == [])
    && (a.status in {PastDue, Suspended} <==> HasOverdue(a))
    && (forall k :: 0 <= k < |a.invoices| ==> a.invoices[k].dueAt == AddDays(a.invoices[k].issuedAt, GRACE_DAYS))
  }

  ghost predicate Advances(addMonth: int -> int) { forall x: int :: x < addMonth(x) }

  lemma CycleKeeps(a: Account, asOf: int, addMonth: int -> int)
    requires AccountOk(a) && Advances(addMonth)
    ensures AccountOk(Cycle(a, asOf, addMonth))
  {
    match a.status
    case Trialing =>
    case Active => ActiveKeeps(a, asOf, addMonth);
    case _ => UnpaidKeeps(a, asOf, addMonth);
  }

  lemma UnpaidKeeps(a: Account, asOf: int, addMonth: int -> int)
    requires AccountOk(a) && a.status in {PastDue, Suspended}
    ensures AccountOk(Cycle(a, asOf, addMonth))
  {
    var c := Cycle(a, asOf, addMonth);
    assert c == a || c == a.(status := Suspended, tenant := SuspendedTenant);
    var k: nat :| k < |a.invoices| && a.invoices[k].status == Overdue;
    assert c.invoices[k].status == Overdue;
  }

  lemma ActiveKeeps(a: Account, asOf: int, addMonth: int -> int)
    requires AccountOk(a) && Advances(addMonth) && a.status == Active
    ensures AccountOk(Cycle(a, asOf, addMonth))
  {
    var renewed := Renewed(a, asOf, addMonth);
    RenewedOk(a, asOf, addMonth);
    if AnyInvoice(renewed.invoices, (inv: SubInvoice) => PendingPastDue(inv, asOf)) {
      DunnedOk(renewed, asOf);
    }
  }

  lemma DunnedOk(a: Account, asOf: int)
    requires AccountOk(a) && a.status == Active
        && AnyInvoice(a.invoices, (inv: SubInvoice) => PendingPastDue(inv, asOf))
    ensures AccountOk(a.(invoices := Flipped(a.invoices, asOf), status := PastDue, tenant := PastDueTenant))
  {
    var k: nat :| k < |a.invoices| && PendingPastDue(a.invoices[k], asOf);
    assert Flipped(a.invoices, asOf)[k].status == Overdue;
  }

  lemma RenewedOk(a: Account, asOf: int, addMonth: int -> int)
    requires AccountOk(a) && Advances(addMonth) && a.status == Active
    ensures AccountOk(Renewed(a, asOf, addMonth))
  {
    var c := Renewed(a, asOf, addMonth);
    forall k: nat | k < |c.invoices| ensures c.invoices[k].status != Overdue {
      if k < |a.invoices| { assert c.invoices[k] == a.invoices[k]; }
    }
  }

  lemma PaidKeeps(a: Account, invoice: nat)
    requires AccountOk(a) && MarkPaid(a, invoice).Ok?
    ensures AccountOk(MarkPaid(a, invoice).value)
  {
    var c := MarkPaid(a, invoice).value;
    if HasOverdue(c) {
      var k: nat :| k < |c.invoices| && c.invoices[k].status == Overdue;
      assert a.invoices[k].status == Overdue;
    }
  }

  lemma {:induction false} RunKeeps(a: Account, steps: seq<BillingStep>, addMonth: int -> int)
    requires AccountOk(a) && Advances(addMonth)
    ensures AccountOk(BillingRun(a, steps, addMonth))
  {
    if steps != [] {
      var n := |steps| - 1;
      RunKeeps(a, steps[..n], addMonth);
      var before := BillingRun(a, steps[..n], addMonth);
      match steps[n]
      case CycleAt(asOf) => CycleKeeps(before, asOf, addMonth);
      case PayInvoice(invoice) => if MarkPaid(before, invoice).Ok? { PaidKeeps(before, invoice); }
    }
  }

  /** After any run of billing cycles and payments: tenant and subscription statuses mirror each
      other, the account is past due or suspended exactly when an invoice is overdue, and the
      invoiced periods tile the time from the end of the trial. */
  lemma EveryAccount(now: int, trialEnd: int, steps: seq<BillingStep>, addMonth: int -> int)
    requires Advances(addMonth)
    ensures var a := BillingRun(SignedUp(now, trialEnd), steps, addMonth);
            && Mirrors(a) && Tiles(a) && (a.status in {PastDue, Suspended} <==> HasOverdue(a))
  {
    RunKeeps(SignedUp(now, trialEnd), steps, addMonth);
  }

  /** No two invoiced periods overlap. */
  lemma {:induction false} PeriodsDisjoint(a: Account, i: nat, j: nat)
    requires Tiles(a) && i < j < |a.invoices|
    ensures a.invoices[i].periodEnd <= a.invoices[j].periodStart
  {
    if i < j - 1 { PeriodsDisjoint(a, i, j - 1); }
  }

  /** Right after a cycle, an active account has no pending invoice past due. */
  lemma ActiveIsCurrent(now: int, trialEnd: int, steps: seq<BillingStep>, asOf: int, addMonth: int -> int)
    requires Advances(addMonth)
    ensures var a := Cycle(BillingRun(SignedUp(now, trialEnd), steps, addMonth), asOf, addMonth);
            a.status == Active ==> forall k :: 0 <= k < |a.invoices| ==> !PendingPastDue(a.invoices[k], asOf)
  {
    RunKeeps(SignedUp(now, trialEnd), steps, addMonth);
    var a := BillingRun(SignedUp(now, trialEnd), steps, addMonth);
    if Cycle(a, asOf, addMonth).status == Active { CurrentAfter(a, asOf, addMonth); }
  }

  lemma CurrentAfter(a: Account, asOf: int, addMonth: int -> int)
    requires AccountOk(a) && Cycle(a, asOf, addMonth).status == Active
    ensures var c := Cycle(a, asOf, addMonth); forall k ::
        0 <= k < |c.invoices| ==> !PendingPastDue(c.invoices[k], asOf)
  {
    var c := Cycle(a, asOf, addMonth);
    if a.status == Active {
      assert !AnyInvoice(c.invoices, (inv: SubInvoice) => PendingPastDue(inv, asOf));
    }
  }

  /** A suspension comes from past due, never straight from active, and more than 89 days after
      the issue of an invoice that is still unpaid. */
  lemma SuspensionIsLate(now: int, trialEnd: int, steps: seq<BillingStep>, asOf: int, addMonth: int -> int)
    requires Advances(addMonth)
    requires var a := BillingRun(SignedUp(now, trialEnd), steps, addMonth);
             a.status != Suspended && Cycle(a, asOf, addMonth).status == Suspended
    ensures var a := BillingRun(SignedUp(now, trialEnd), steps, addMonth);
            && a.status == PastDue
            && exists k: nat :: k < |a.invoices| && a.invoices[k].status == Overdue
                && AddDays(a.invoices[k].issuedAt, 89) < asOf
  {
    RunKeeps(SignedUp(now, trialEnd), steps, addMonth);
    SuspendedBy(BillingRun(SignedUp(now, trialEnd), steps, addMonth), asOf, addMonth);
  }

  lemma SuspendedBy(a: Account, asOf: int, addMonth: int -> int)
    requires AccountOk(a) && a.status != Suspended && Cycle(a, asOf, addMonth).status == Suspended
    ensures a.status == PastDue
    ensures exists k: nat ::
        k < |a.invoices| && a.invoices[k].status == Overdue && AddDays(a.invoices[k].issuedAt, 89) < asOf
  {
    var k: nat :| k < |a.invoices| && LongOverdue(a.invoices[k], asOf);
    assert a.invoices[k].dueAt == AddDays(a.invoices[k].issuedAt, GRACE_DAYS);
  }
}
