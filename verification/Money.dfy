/** Money is integer cents, quantities are thousandths of a unit, rates are
    millionths. Every rounding in the books goes through one of the two
    functions below. */
module Money {
  const RATE_ONE := 1_000_000
  const QUANTITY_SCALE := 1_000
  const MAX_MONEY_CENTS := 99_999_999_999_999

  /** Round half away from zero: BigInt division truncates, so the half is added
      with the sign of the product. */
  function MulRate(cents: int, rate: int): int {
    var product := cents * rate;
    if product >= 0 then (product + 500_000) / RATE_ONE
    else -((-product + 500_000) / RATE_ONE)
  }

  /** A quantity string has three decimals, so as a rate it is a thousand millionths per unit. */
  function MulQuantity(cents: int, units: int): int {
    MulRate(cents, units * 1_000)
  }

  function RoundHalfUp(numerator: int, denominator: int): int
    requires 0 <= numerator && 0 < denominator
  {
    (numerator + denominator / 2) / denominator
  }

  function Abs(x: int): int {
    if x < 0 then -x else x
  }

  /** The rounded product is a nearest integer to the exact one. */
  lemma MulRateNearest(cents: int, rate: int)
    ensures 2 * Abs(MulRate(cents, rate) * RATE_ONE - cents * rate) <= RATE_ONE
  {
    var product := cents * rate;
    if product < 0 {
      assert -product + 500_000 == ((-product + 500_000) / RATE_ONE) * RATE_ONE + (-product + 500_000) % RATE_ONE;
    }
  }

  lemma MulRateSign(cents: int, rate: int)
    requires 0 <= cents && 0 <= rate
    ensures 0 <= MulRate(cents, rate)
    ensures cents == 0 ==> MulRate(cents, rate) == 0
  {
    assert 0 <= cents * rate;
  }

  lemma MulRateMonotone(a: int, b: int, rate: int)
    requires 0 <= a <= b && 0 <= rate
    ensures 0 <= MulRate(a, rate) <= MulRate(b, rate)
  {
    assert 0 <= a * rate;
    assert b * rate == a * rate + (b - a) * rate;
    assert 0 <= (b - a) * rate;
    DivMonotone(a * rate + 500_000, b * rate + 500_000, RATE_ONE);
  }

  /** At a rate of at most one, one more cent moves the rounded product by at most one cent. */
  lemma MulRateStep(cents: int, rate: int)
    requires 0 <= cents && 0 <= rate <= RATE_ONE
    ensures MulRate(cents, rate) <= MulRate(cents + 1, rate) <= MulRate(cents, rate) + 1
    ensures 0 <= MulRate(cents, rate) <= cents
  {
    MulRateMonotone(cents, cents + 1, rate);
    assert (cents + 1) * rate == cents * rate + rate;
    DivMonotone((cents + 1) * rate + 500_000, cents * rate + RATE_ONE + 500_000, RATE_ONE);
    assert cents * rate <= cents * RATE_ONE by { MulMonotone(rate, RATE_ONE, cents); }
    DivMonotone(cents * rate + 500_000, cents * RATE_ONE + 500_000, RATE_ONE);
  }

  lemma DivMonotone(a: int, b: int, d: int)
    requires a <= b && 0 < d
    ensures a / d <= b / d
  {
    if b / d < a / d {
      MulMonotone(b / d + 1, a / d, d);
    }
  }

  lemma MulMonotone(a: int, b: int, k: int)
    requires 0 <= k
    ensures a <= b ==> k * a <= k * b && a * k <= b * k
  {
    if a <= b { assert 0 <= (b - a) * k; }
  }

  /** Rounding half up is also nearest, never below zero and never above the whole. */
  lemma RoundHalfUpNearest(n: int, d: int)
    requires 0 <= n && 0 < d
    ensures 2 * Abs(RoundHalfUp(n, d) * d - n) <= d
    ensures 0 <= RoundHalfUp(n, d)
  {
    var s := n + d / 2;
    assert s == (s / d) * d + s % d;
  }

  lemma DivBelow(s: int, d: int, c: int)
    requires 0 < d && s < (c + 1) * d
    ensures s / d <= c
  {
    assert (s / d) * d <= s;
    MulMonotone(c + 1, s / d, d);
  }

  /** Issuing part of a layer never costs more than the layer holds. */
  lemma PartialIssueWithinCost(cost: int, part: int, whole: int)
    requires 0 <= cost && 0 < part < whole
    ensures 0 <= cost * part
    ensures 0 <= RoundHalfUp(cost * part, whole) <= cost
  {
    MulMonotone(0, part, cost);
    MulMonotone(part, whole, cost);
    assert (cost + 1) * whole == cost * whole + whole;
    DivBelow(cost * part + whole / 2, whole, cost);
    DivMonotone(0, cost * part + whole / 2, whole);
  }
}
