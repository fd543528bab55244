/** Payslips: progressive tax with per-band rounding, social security, and run totals. Rates are
    percentages in millionths, as the six-decimal rate strings are. */
module Payroll {
  import opened Wrappers
  import opened Money
  import opened Sequences

  datatype Band = Band(upTo: Option<nat>, rate: int)

  datatype PayeTable = PayeTable(bands: seq<Band>, levyRate: int)

  datatype SocialRule = SocialRule(employeeRate: int, employerRate: int, ceiling: Option<nat>, deductible: bool)

  predicate Percentage(rate: int) { 0 <= rate <= RATE_ONE }

  /** Where band i starts. */
  function Lower(bands: seq<Band>, i: nat): nat
    requires i <= |bands|
  {
    if i == 0 || bands[i - 1].upTo.None? then 0 else bands[i - 1].upTo.value
  }

  /** Band i has a percentage, is open exactly when it is the last, and starts below where it ends. */
  predicate BandOk(bands: seq<Band>, i: nat)
    requires i < |bands|
  {
    && Percentage(bands[i].rate)
    && (bands[i].upTo.None? <==> i == |bands| - 1)
    && (bands[i].upTo.Some? ==> Lower(bands, i) < bands[i].upTo.value)
  }

  predicate TableOk(t: PayeTable) {
    t.bands != [] && Percentage(t.levyRate) && forall i :: 0 <= i < |t.bands| ==> BandOk(t.bands, i)
  }

  // ----- What the tax is -----

  /** The part of the taxable pay that falls in band i. */
  function Part(taxable: int, bands: seq<Band>, i: nat): nat
    requires i < |bands|
  {
    var lower := Lower(bands, i);
    if taxable <= lower then 0
    else if bands[i].upTo.Some? && lower <= bands[i].upTo.value < taxable then bands[i].upTo.value - lower
    else taxable - lower
  }

  function PartsUpTo(taxable: int, bands: seq<Band>, k: nat): nat
    requires k <= |bands|
  {
    if k == 0 then 0 else PartsUpTo(taxable, bands, k - 1) + Part(taxable, bands, k - 1)
  }

  /** The tax of the first k bands, each rounded on its own. */
  function TaxUpTo(taxable: int, bands: seq<Band>, k: nat): int
    requires k <= |bands|
  {
    if k == 0 then 0 else TaxUpTo(taxable, bands, k - 1) + MulRate(Part(taxable, bands, k - 1), bands[k - 1].rate)
  }

  function Paye(taxable: int, t: PayeTable): int { TaxUpTo(taxable, t.bands, |t.bands|) }

  function Levy(taxable: int, t: PayeTable): int { MulRate(Paye(taxable, t), t.levyRate) }

  /** The same tax without rounding, in millionths of a cent. */
  function ExactUpTo(taxable: int, bands: seq<Band>, k: nat): int
    requires k <= |bands|
  {
    if k == 0 then 0 else ExactUpTo(taxable, bands, k - 1) + Part(taxable, bands, k - 1) * bands[k - 1].rate
  }

  function BandsReached(taxable: int, bands: seq<Band>, k: nat): nat
    requires k <= |bands|
  {
    if k == 0 then 0 else BandsReached(taxable, bands, k - 1) + if Part(taxable, bands, k - 1) > 0 then 1 else 0
  }

  datatype BandTrace = BandTrace(band: nat, amount: int, tax: int)

  function TracedAmount(trace: seq<BandTrace>): int {
    if trace == [] then 0 else TracedAmount(trace[..|trace| - 1]) + trace[|trace| - 1].amount
  }

  function Positive(x: int): int { if x < 0 then 0 else x }

  predicate Traced(x: BandTrace, taxable: int, bands: seq<Band>) {
    x.band < |bands| && x.amount == Part(taxable, bands, x.band) > 0 && x.tax == MulRate(x.amount, bands[x.band].rate)
  }

  /** The trace of the bands walked so far. */
  ghost predicate TracedUpTo(trace: seq<BandTrace>, taxable: int, bands: seq<Band>, k: nat)
    requires k <= |bands|
  {
    TracedAmount(trace) == PartsUpTo(taxable, bands, k) && forall x <- trace :: Traced(x, taxable, bands)
  }

  /** Walks the bands, taking from what remains; the amounts taken add up to the taxable pay. */
  method CalculatePaye(taxable: int, t: PayeTable) returns (paye: int, levy: int, trace: seq<BandTrace>)
    requires TableOk(t)
    ensures paye == Paye(taxable, t) && levy == Levy(taxable, t)
    ensures TracedAmount(trace) == Positive(taxable) && forall x <- trace :: Traced(x, taxable, t.bands)
  {
    var remaining := taxable;
    var previousBound := 0;
    paye, trace := 0, [];
    for i := 0 to |t.bands|
      invariant previousBound == Lower(t.bands, i) || i == |t.bands|
      invariant paye == TaxUpTo(taxable, t.bands, i)
      invariant remaining == taxable - PartsUpTo(taxable, t.bands, i)
      invariant TracedUpTo(trace, taxable, t.bands, i)
    {
      if remaining <= 0 {
        PartsAreMinimum(taxable, t, i);
        NothingFurther(taxable, t, i, |t.bands|);
        break;
      }
      var band := t.bands[i];
      var width := if band.upTo.None? then remaining else band.upTo.value - previousBound;
      var inBand := if width < remaining then width else remaining;
      TakesPart(taxable, t, i);
      TraceMore(trace, taxable, t, i);
      var tax := MulRate(inBand, band.rate);
      paye := paye + tax;
      trace := trace + [BandTrace(i, inBand, tax)];
      remaining := remaining - inBand;
      if band.upTo.Some? { previousBound := band.upTo.value; }
    }
    PartsAreMinimum(taxable, t, |t.bands|);
    levy := MulRate(paye, t.levyRate);
  }

  /** While something remains, the smaller of band width and remainder is the band's part. */
  lemma TakesPart(taxable: int, t: PayeTable, i: nat)
    requires TableOk(t) && i < |t.bands| && 0 < taxable - PartsUpTo(taxable, t.bands, i)
    ensures BandOk(t.bands, i)
    ensures var remaining := taxable - PartsUpTo(taxable, t.bands, i);
            var width := if t.bands[i].upTo.None? then remaining else t.bands[i].upTo.value - Lower(t.bands, i);
            0 < Part(taxable, t.bands, i) == if width < remaining then width else remaining
  {
    assert BandOk(t.bands, i);
    PartsAreMinimum(taxable, t, i);
  }

  lemma TraceMore(trace: seq<BandTrace>, taxable: int, t: PayeTable, i: nat)
    requires i < |t.bands| && TracedUpTo(trace, taxable, t.bands, i) && 0 < Part(taxable, t.bands, i)
    ensures var part := Part(taxable, t.bands, i);
            TracedUpTo(trace + [BandTrace(i, part, MulRate(part, t.bands[i].rate))], taxable, t.bands, i + 1)
  {
    var part := Part(taxable, t.bands, i);
    assert (trace + [BandTrace(i, part, MulRate(part, t.bands[i].rate))])[..|trace|] == trace;
  }

  /** The first k bands hold the pay up to where band k starts, all of it once k passes the open band. */
  lemma {:induction false} PartsAreMinimum(taxable: int, t: PayeTable, k: nat)
    requires TableOk(t) && k <= |t.bands|
    ensures PartsUpTo(taxable, t.bands, k)
         == if k == |t.bands| || taxable < Lower(t.bands, k) then Positive(taxable) else Lower(t.bands, k)
  {
    if k > 0 {
      assert BandOk(t.bands, k - 1);
      PartsAreMinimum(taxable, t, k - 1);
    }
  }

  lemma {:induction false} NothingFurther(taxable: int, t: PayeTable, i: nat, k: nat)
    requires TableOk(t) && i <= k <= |t.bands| && taxable <= Lower(t.bands, i)
    ensures TaxUpTo(taxable, t.bands, k) == TaxUpTo(taxable, t.bands, i)
    ensures PartsUpTo(taxable, t.bands, k) == PartsUpTo(taxable, t.bands, i)
  {
    if i < k {
      assert BandOk(t.bands, k - 1);
      NothingFurther(taxable, t, i, k - 1);
      BoundsAscend(t, i, k - 1);
    }
  }

  lemma {:induction false} BoundsAscend(t: PayeTable, i: nat, k: nat)
    requires TableOk(t) && i <= k < |t.bands|
    ensures Lower(t.bands, i) <= Lower(t.bands, k)
  {
    if i < k {
      assert BandOk(t.bands, k - 1);
      BoundsAscend(t, i, k - 1);
    }
  }

  /** The amounts in the bands partition the taxable pay. */
  lemma BandsPartition(taxable: int, t: PayeTable)
    requires TableOk(t) && 0 <= taxable
    ensures PartsUpTo(taxable, t.bands, |t.bands|) == taxable
  {
    PartsAreMinimum(taxable, t, |t.bands|);
  }

  /** More pay never means less tax. */
  lemma {:induction false} PayeMonotone(a: int, b: int, t: PayeTable, k: nat)
    requires TableOk(t) && a <= b && k <= |t.bands|
    ensures 0 <= TaxUpTo(a, t.bands, k) <= TaxUpTo(b, t.bands, k)
  {
    if k > 0 {
      assert BandOk(t.bands, k - 1);
      PayeMonotone(a, b, t, k - 1);
      MulRateMonotone(Part(a, t.bands, k - 1), Part(b, t.bands, k - 1), t.bands[k - 1].rate);
    }
  }

  /** Rounding each band separately costs at most half a cent for each band reached. */
  lemma {:induction false} PayeNearExact(taxable: int, t: PayeTable, k: nat)
    requires TableOk(t) && k <= |t.bands|
    ensures 2 * Abs(TaxUpTo(taxable, t.bands, k) * RATE_ONE - ExactUpTo(taxable, t.bands, k))
         <= BandsReached(taxable, t.bands, k) * RATE_ONE
  {
    if k > 0 {
      PayeNearExact(taxable, t, k - 1);
      var part, rate := Part(taxable, t.bands, k - 1), t.bands[k - 1].rate;
      MulRateNearest(part, rate);
      if part == 0 { assert part * rate == 0; }
    }
  }

  /** One more cent of taxable pay adds at most one cent of tax, and none in bands it is past. */
  lemma {:induction false} PayeStep(taxable: int, t: PayeTable, k: nat)
    requires TableOk(t) && k <= |t.bands| && 0 <= taxable
    ensures TaxUpTo(taxable, t.bands, k) <= TaxUpTo(taxable + 1, t.bands, k) <= TaxUpTo(taxable, t.bands, k) + 1
    ensures k < |t.bands| && Lower(t.bands, k) <= taxable
        ==> TaxUpTo(taxable + 1, t.bands, k) == TaxUpTo(taxable, t.bands, k)
  {
    if k > 0 {
      assert BandOk(t.bands, k - 1);
      PayeStep(taxable, t, k - 1);
      var part, more := Part(taxable, t.bands, k - 1), Part(taxable + 1, t.bands, k - 1);
      assert more == part || (more == part + 1 && Lower(t.bands, k - 1) <= taxable);
      MulRateStep(part, t.bands[k - 1].rate);
    }
  }

  // ----- Payslips -----

  datatype Slip = Slip(
    basic: int, allowances: int, gross: int, ssEmployee: int, ssEmployer: int,
    taxable: int, paye: int, levy: int, net: int)

  predicate RuleOk(rule: SocialRule) { Percentage(rule.employeeRate) && Percentage(rule.employerRate) }

  function Insurable(gross: int, ceiling: int): int { if gross < ceiling then gross else ceiling }

  /** The figures for a gross pay under a ceiling. */
  function Figures(basic: int, allowances: int, t: PayeTable, rule: SocialRule, ceiling: nat): Slip {
    var gross := basic + allowances;
    var ssEmployee := MulRate(Insurable(gross, ceiling), rule.employeeRate);
    var taxable := if rule.deductible then gross - ssEmployee else gross;
    var paye, levy := Paye(taxable, t), Levy(taxable, t);
    Slip(basic, allowances, gross, ssEmployee, MulRate(Insurable(gross, ceiling), rule.employerRate),
         taxable, paye, levy, gross - ssEmployee - paye - levy)
  }

  function PayslipOf(basic: int, allowances: int, t: PayeTable, rule: SocialRule): Result<Slip> {
    var _ :- Require(0 <= basic && 0 <= allowances, BadRequest);
    var _ :- Require(rule.ceiling.Some?, BadRequest);
    var slip := Figures(basic, allowances, t, rule, rule.ceiling.value);
    var _ :- Require(0 <= slip.net, BadRequest);
    Ok(slip)
  }

  method ComputePayslip(basic: int, allowances: int, t: PayeTable, rule: SocialRule) returns (r: Result<Slip>)
    requires TableOk(t)
    ensures r == PayslipOf(basic, allowances, t, rule)
  {
    if basic < 0 || allowances < 0 { return Err(BadRequest); }
    var gross := basic + allowances;
    if rule.ceiling.None? { return Err(BadRequest); }
    var insurable := if gross < rule.ceiling.value then gross else rule.ceiling.value;
    var ssEmployee := MulRate(insurable, rule.employeeRate);
    var ssEmployer := MulRate(insurable, rule.employerRate);
    var taxable := if rule.deductible then gross - ssEmployee else gross;
    var paye, levy, trace := CalculatePaye(taxable, t);
    var net := gross - ssEmployee - paye - levy;
    if net < 0 { return Err(BadRequest); }
    return Ok(Slip(basic, allowances, gross, ssEmployee, ssEmployer, taxable, paye, levy, net));
  }

  /** No figure on a payslip is negative, and gross pay is what the deductions and the net add up to. */
  lemma SlipAddsUp(basic: int, allowances: int, t: PayeTable, rule: SocialRule)
    requires TableOk(t) && RuleOk(rule) && PayslipOf(basic, allowances, t, rule).Ok?
    ensures SlipOk(PayslipOf(basic, allowances, t, rule).value)
  {
    var slip := PayslipOf(basic, allowances, t, rule).value;
    var insurable := Insurable(slip.gross, rule.ceiling.value);
    MulRateStep(insurable, rule.employeeRate);
    MulRateStep(insurable, rule.employerRate);
    PayeMonotone(0, slip.taxable, t, |t.bands|);
    MulRateStep(slip.paye, t.levyRate);
  }

  predicate SlipOk(s: Slip) {
    && 0 <= s.ssEmployee && 0 <= s.ssEmployer && 0 <= s.paye && 0 <= s.levy && 0 <= s.net
    && s.gross == s.ssEmployee + s.paye + s.levy + s.net
  }

  /** The contribution, the tax and the levy all step up by a cent. */
  predicate AllStepUp(slip: Slip, more: Slip) {
    more.ssEmployee == slip.ssEmployee + 1 && more.paye == slip.paye + 1 && more.levy == slip.levy + 1
  }

  /** A raise of one cent costs at most one cent of net pay when contributions are deducted
      before tax, and at most two when they are not: two exactly when all three deductions step up. */
  lemma OneCentRaise(basic: int, allowances: int, t: PayeTable, rule: SocialRule, ceiling: nat)
    requires TableOk(t) && RuleOk(rule) && 0 <= basic && 0 <= allowances
    ensures var slip := Figures(basic, allowances, t, rule, ceiling);
            var more := Figures(basic, allowances + 1, t, rule, ceiling);
            && more.net >= slip.net - (if rule.deductible then 1 else 2)
            && (more.net == slip.net - 2 <==> !rule.deductible && AllStepUp(slip, more))
  {
    var slip := Figures(basic, allowances, t, rule, ceiling);
    var insurable := Insurable(slip.gross, ceiling);
    MulRateStep(insurable, rule.employeeRate);
    TaxStep(slip.taxable, t);
  }

  lemma TaxStep(taxable: int, t: PayeTable)
    requires TableOk(t) && 0 <= taxable
    ensures Paye(taxable, t) <= Paye(taxable + 1, t) <= Paye(taxable, t) + 1
    ensures Levy(taxable, t) <= Levy(taxable + 1, t) <= Levy(taxable, t) + 1
  {
    PayeStep(taxable, t, |t.bands|);
    PayeMonotone(taxable, taxable, t, |t.bands|);
    MulRateStep(Paye(taxable, t), t.levyRate);
  }

  /** The two cents do happen: ten percent each of contribution and tax, half the tax as levy. */
  lemma RaiseCanCostTwoCents()
    ensures var t := PayeTable([Band(None, 100_000)], 500_000);
            var rule := SocialRule(100_000, 0, Some(1_000), false);
            && PayslipOf(4, 0, t, rule).Ok? && PayslipOf(4, 0, t, rule).value.net == 4
            && PayslipOf(4, 1, t, rule).Ok? && PayslipOf(4, 1, t, rule).value.net == 2
  {
    var t := PayeTable([Band(None, 100_000)], 500_000);
    assert Lower(t.bands, 0) == 0;
    assert TaxUpTo(4, t.bands, 0) == 0 && TaxUpTo(5, t.bands, 0) == 0;
    assert TaxUpTo(4, t.bands, 1) == 0 && TaxUpTo(5, t.bands, 1) == 1;
  }

  // ----- Run totals -----

  datatype Totals = Totals(gross: int, paye: int, levy: int, ssEmployee: int, ssEmployer: int, net: int)

  function TotalsOf(slips: seq<Slip>): Totals {
    if slips == [] then Totals(0, 0, 0, 0, 0, 0)
    else
      var before, s := TotalsOf(slips[..|slips| - 1]), slips[|slips| - 1];
      Totals(before.gross + s.gross, before.paye + s.paye, before.levy + s.levy,
             before.ssEmployee + s.ssEmployee, before.ssEmployer + s.ssEmployer, before.net + s.net)
  }

  method RunTotals(slips: seq<Slip>) returns (t: Totals)
    ensures t == TotalsOf(slips)
  {
    var gross, paye, levy, ssE, ssR, net := 0, 0, 0, 0, 0, 0;
    for i := 0 to |slips|
      invariant Totals(gross, paye, levy, ssE, ssR, net) == TotalsOf(slips[..i])
    {
      assert slips[..i + 1][..i] == slips[..i];
      var s := slips[i];
      gross, paye, levy := gross + s.gross, paye + s.paye, levy + s.levy;
      ssE, ssR, net := ssE + s.ssEmployee, ssR + s.ssEmployer, net + s.net;
    }
    assert slips[..|slips|] == slips;
    return Totals(gross, paye, levy, ssE, ssR, net);
  }

  predicate TotalsOk(t: Totals) {
    && 0 <= t.paye && 0 <= t.levy && 0 <= t.ssEmployee && 0 <= t.ssEmployer && 0 <= t.net
    && t.gross == t.ssEmployee + t.paye + t.levy + t.net
  }

  lemma {:induction false} TotalsAddUp(slips: seq<Slip>)
    requires All(slips, SlipOk)
    ensures TotalsOk(TotalsOf(slips))
  {
    if slips != [] {
      AllAt(slips, |slips| - 1, SlipOk);
      TotalsAddUp(slips[..|slips| - 1]);
    }
  }
}
