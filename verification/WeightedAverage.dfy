/** Rounding drift of the weighted average, and conservation of cost over a history. */
module WeightedAverage {
  import opened Wrappers
  import opened Money
  import opened Inventory
  import opened Valuation

  /** A run of issues with no receipt in between, taken from one layer. */
  function IssueAll(layer: Layer, parts: seq<nat>): Result<Layer> {
    if parts == [] then Ok(layer)
    else
      var before :- IssueAll(layer, parts[..|parts| - 1]);
      IssueOne(before, parts[|parts| - 1])
  }

  function IssueOne(layer: Layer, part: nat): Result<Layer> {
    var cost :- IssueCost(layer.quantity, layer.cost, part);
    Ok(Layer(layer.quantity - part, layer.cost - cost))
  }

  /** Twice the distance between two averages, over the product of their quantities. */
  function Drift(from: Layer, to: Layer): int {
    2 * Abs(to.cost * from.quantity - from.cost * to.quantity)
  }

  lemma CrossProducts(cost: int, taken: int, quantity: int, part: int)
    ensures (cost - taken) * quantity - cost * (quantity - part) == -(taken * quantity - cost * part)
  {
  }

  /** One issue: never more than the layer holds, and the average moves by at most half a
      cent over the quantity it was taken from. */
  lemma IssueStep(layer: Layer, part: nat)
    requires 0 <= layer.cost && 0 < part && IssueCost(layer.quantity, layer.cost, part).Ok?
    ensures var cost := IssueCost(layer.quantity, layer.cost, part).value;
            && 0 <= cost <= layer.cost
            && 0 <= layer.quantity - part
            && (part == layer.quantity ==> cost == layer.cost)
            && 2 * Abs((layer.cost - cost) * layer.quantity - layer.cost * (layer.quantity - part)) <= layer.quantity
  {
    if part < layer.quantity {
      var cost := RoundHalfUp(layer.cost * part, layer.quantity);
      PartialIssueWithinCost(layer.cost, part, layer.quantity);
      RoundHalfUpNearest(layer.cost * part, layer.quantity);
      CrossProducts(layer.cost, cost, layer.quantity, part);
    }
  }

  /** After n issues the average has drifted by at most n half-cents over the opening quantity. */
  lemma {:induction false} DriftBounded(layer: Layer, parts: seq<nat>)
    requires 0 <= layer.quantity && 0 <= layer.cost && (layer.quantity == 0 ==> layer.cost == 0)
    requires forall i :: 0 <= i < |parts| ==> 0 < parts[i]
    requires IssueAll(layer, parts).Ok?
    ensures WithinDrift(layer, IssueAll(layer, parts).value, |parts|)
  {
    if parts == [] {
      NoDrift(layer);
    } else {
      var n := |parts| - 1;
      LastIssue(layer, parts);
      DriftBounded(layer, parts[..n]);
      var before := IssueAll(layer, parts[..n]).value;
      OneMoreIssue(layer, before, IssueAll(layer, parts).value, parts[n], n);
    }
  }

  lemma NoDrift(layer: Layer)
    requires 0 <= layer.quantity && 0 <= layer.cost && (layer.quantity == 0 ==> layer.cost == 0)
    ensures WithinDrift(layer, layer, 0)
  {
  }

  lemma LastIssue(layer: Layer, parts: seq<nat>)
    requires parts != [] && IssueAll(layer, parts).Ok?
    ensures IssueAll(layer, parts[..|parts| - 1]).Ok?
    ensures IssueAll(layer, parts) == IssueOne(IssueAll(layer, parts[..|parts| - 1]).value, parts[|parts| - 1])
  {
  }

  predicate WithinDrift(from: Layer, to: Layer, issues: nat) {
    && 0 <= to.cost <= from.cost && 0 <= to.quantity <= from.quantity
    && (to.quantity == 0 ==> to.cost == 0)
    && Drift(from, to) <= issues * from.quantity
  }

  lemma OneMoreIssue(layer: Layer, before: Layer, last: Layer, part: nat, n: nat)
    requires 0 < part && WithinDrift(layer, before, n) && IssueOne(before, part) == Ok(last)
    ensures WithinDrift(layer, last, n + 1)
  {
    IssueStep(before, part);
    DriftStep(layer.quantity, layer.cost, before.quantity, before.cost, last.quantity, last.cost, n);
  }

  /** The arithmetic of one step: an error bound of n over q0 grows by one. */
  lemma DriftStep(q0: int, c0: int, q: int, c: int, q': int, c': int, n: nat)
    requires 0 < q <= q0 && 0 <= q' <= q
    requires 2 * Abs(c * q0 - c0 * q) <= n * q0
    requires 2 * Abs(c' * q - c * q') <= q
    ensures 2 * Abs(c' * q0 - c0 * q') <= (n + 1) * q0
  {
    var e, f, g := c * q0 - c0 * q, c' * q - c * q', c' * q0 - c0 * q';
    DriftIdentity(q0, c0, q, c, q', c');
    AbsSum(e * q', f * q0);
    AbsProduct(e, q');
    AbsProduct(f, q0);
    AbsProduct(g, q);
    CombineErrors(Abs(e), q', Abs(f), q0, q, n * q0, Abs(g));
  }

  lemma CombineErrors(e: nat, q': nat, f: nat, q0: nat, q: nat, bound: int, g: nat)
    requires 2 * e <= bound && 2 * f <= q && q' <= q && 0 < q
    requires g * q <= e * q' + f * q0
    ensures 2 * g <= bound + q0
  {
    assert (2 * e) * q' <= bound * q by {
      MulMonotone(2 * e, bound, q');
      MulMonotone(q', q, bound);
    }
    assert (2 * f) * q0 <= q * q0 by { MulMonotone(2 * f, q, q0); }
    assert (2 * g) * q <= (bound + q0) * q by {
      assert (2 * g) * q == 2 * (g * q);
      assert (bound + q0) * q == bound * q + q * q0;
    }
    CancelFactor(2 * g, bound + q0, q);
  }

  lemma DriftIdentity(q0: int, c0: int, q: int, c: int, q': int, c': int)
    ensures (c * q0 - c0 * q) * q' + (c' * q - c * q') * q0 == (c' * q0 - c0 * q') * q
  {
    assert (c * q0 - c0 * q) * q' == (c * q0) * q' - (c0 * q) * q';
    assert (c' * q - c * q') * q0 == (c' * q) * q0 - (c * q') * q0;
    assert (c' * q0 - c0 * q') * q == (c' * q0) * q - (c0 * q') * q;
  }

  lemma AbsSum(a: int, b: int)
    ensures Abs(a + b) <= Abs(a) + Abs(b)
  {
  }

  lemma AbsProduct(a: int, b: int)
    requires 0 <= b
    ensures Abs(a * b) == Abs(a) * b
  {
    if 0 <= a { assert 0 <= a * b; } else { assert a * b <= 0 by { MulMonotone(a, 0, b); } }
  }

  lemma CancelFactor(a: int, b: int, k: int)
    requires 0 < k && a * k <= b * k
    ensures a <= b
  {
    if b < a { MulMonotone(b + 1, a, k); }
  }

  // ----- The same bound over a stretch of recorded history -----

  /** Issued quantities of one key from position `start` on. */
  function Issued(ms: seq<Movement>, key: Key, start: nat): seq<nat>
    requires start <= |ms| && forall i :: start <= i < |ms| && ms[i].key == key ==> ms[i].delta < 0
    decreases |ms|
  {
    if |ms| == start then []
    else
      var n := |ms| - 1;
      Issued(ms[..n], key, start) + if ms[n].key == key then [-ms[n].delta] else []
  }

  /** One movement more on the history of a key, of the key or not. */
  lemma ReplayOneMore(first: Layer, parts: seq<nat>, before: Replayed, n: nat, m: Movement, e: Evidence, key: Key)
    requires IssueAll(first, parts) == Ok(before.layer) && n in before.evidence && before.evidence[n] == e
    requires m.key == key ==> m.delta < 0 && IssueRule(m, e) && ReplayStep(before, n, m).Ok?
    ensures IssueAll(first, parts + if m.key == key then [-m.delta] else [])
         == Ok(if m.key == key then ReplayStep(before, n, m).value.layer else before.layer)
  {
    if m.key == key {
      ReplayedIssue(first, parts, before, n, m, e);
    } else {
      assert parts + [] == parts;
    }
  }

  lemma {:induction false} IssuedArePositive(ms: seq<Movement>, key: Key, start: nat)
    requires start <= |ms| && forall i :: start <= i < |ms| && ms[i].key == key ==> ms[i].delta < 0
    ensures forall i :: 0 <= i < |Issued(ms, key, start)| ==> 0 < Issued(ms, key, start)[i]
  {
    if |ms| != start { IssuedArePositive(ms[..|ms| - 1], key, start); }
  }

  lemma {:induction false} ReplayOfIssues(ms: seq<Movement>, ev: map<nat, Evidence>, key: Key, start: nat)
    requires start <= |ms| && forall i :: start <= i < |ms| && ms[i].key == key ==> ms[i].delta < 0
    requires forall i :: 0 <= i < |ms| ==> i in ev && IssueRule(ms[i], ev[i])
    requires Replay(ms, ev, key).Ok?
    ensures Replay(ms[..start], ev, key).Ok?
    ensures IssueAll(Replay(ms[..start], ev, key).value.layer, Issued(ms, key, start))
        == Ok(Replay(ms, ev, key).value.layer)
    decreases |ms|
  {
    if |ms| == start {
      assert ms[..start] == ms;
    } else {
      var n := |ms| - 1;
      assert ms[..n][..start] == ms[..start];
      ReplayOfIssues(ms[..n], ev, key, start);
      ReplayKeeps(ms[..n], ev, key);
      ReplayOneMore(Replay(ms[..start], ev, key).value.layer, Issued(ms[..n], key, start),
          Replay(ms[..n], ev, key).value,
                    n, ms[n], ev[n], key);
    }
  }

  /** A replayed issue under the issue rule is one more step of the abstract issues. */
  lemma ReplayedIssue(start: Layer, parts: seq<nat>, r: Replayed, id: nat, m: Movement, e: Evidence)
    requires IssueAll(start, parts) == Ok(r.layer) && m.delta < 0 && IssueRule(m, e)
    requires id in r.evidence && r.evidence[id] == e && ReplayStep(r, id, m).Ok?
    ensures IssueAll(start, parts + [-m.delta]) == Ok(ReplayStep(r, id, m).value.layer)
  {
    assert (parts + [-m.delta])[..|parts|] == parts;
  }

  /** In any reachable stock, a stretch of history holding only issues of a key moves the
      average cost of that key by at most half a cent per issue. */
  lemma DriftOverHistory(s: Stock, key: Key, start: nat)
    requires StockOk(s) && key in s.layers && start <= |s.movements|
    requires forall i :: start <= i < |s.movements| && s.movements[i].key == key ==> s.movements[i].delta < 0
    ensures Replay(s.movements[..start], s.evidence, key).Ok?
    ensures WithinDrift(Replay(s.movements[..start], s.evidence, key).value.layer, s.layers[key],
                        |Issued(s.movements, key, start)|)
  {
    assert LayerOk(s, key);
    forall i | 0 <= i < |s.movements| ensures i in s.evidence && IssueRule(s.movements[i], s.evidence[i]) {
      assert MovementOk(s, i);
    }
    ReplayOfIssues(s.movements, s.evidence, key, start);
    ReplayIsConsistent(s.movements[..start], s.evidence, key);
    IssuedArePositive(s.movements, key, start);
    DriftBounded(Replay(s.movements[..start], s.evidence, key).value.layer, Issued(s.movements, key, start));
  }

  lemma {:induction false} ReplayIsConsistent(ms: seq<Movement>, ev: map<nat, Evidence>, key: Key)
    requires Replay(ms, ev, key).Ok?
    ensures var layer := Replay(ms, ev, key).value.layer;
            0 <= layer.quantity && Consistent(layer.quantity, layer.cost)
  {
    if ms != [] {
      ReplayIsConsistent(ms[..|ms| - 1], ev, key);
    }
  }

  // ----- Conservation over a whole history -----

  function ReceiptCosts(ms: seq<Movement>, ev: map<nat, Evidence>, key: Key): int
    requires forall id :: 0 <= id < |ms| ==> id in ev
  {
    if ms == [] then 0
    else
      var n := |ms| - 1;
      ReceiptCosts(ms[..n], ev, key) + if ms[n].key == key && ms[n].delta > 0 then ev[n].movementCost else 0
  }

  function IssueCosts(ms: seq<Movement>, ev: map<nat, Evidence>, key: Key): int
    requires forall id :: 0 <= id < |ms| ==> id in ev
  {
    if ms == [] then 0
    else
      var n := |ms| - 1;
      IssueCosts(ms[..n], ev, key) + if ms[n].key == key && ms[n].delta <= 0 then ev[n].movementCost else 0
  }

  lemma {:induction false} ReplayConserves(ms: seq<Movement>, ev: map<nat, Evidence>, key: Key)
    requires forall id :: 0 <= id < |ms| ==> id in ev
    requires Replay(ms, ev, key).Ok?
    ensures ReceiptCosts(ms, ev, key) == IssueCosts(ms, ev, key) + Replay(ms, ev, key).value.layer.cost
  {
    if ms != [] {
      var n := |ms| - 1;
      ReplayConserves(ms[..n], ev, key);
      ReplayKeeps(ms[..n], ev, key);
    }
  }

  /** Every cent received is either issued or still in the layer, and nothing is left in
      an empty layer. */
  lemma CostIsConserved(s: Stock, key: Key)
    requires StockOk(s) && key in s.layers
    ensures forall id :: 0 <= id < |s.movements| ==> id in s.evidence
    ensures ReceiptCosts(s.movements, s.evidence, key)
         == IssueCosts(s.movements, s.evidence, key) + s.layers[key].cost
    ensures s.levels[key] == 0
         ==> ReceiptCosts(s.movements, s.evidence, key) == IssueCosts(s.movements, s.evidence, key)
  {
    forall id | 0 <= id < |s.movements| ensures id in s.evidence { assert MovementOk(s, id); }
    assert LayerOk(s, key);
    ReplayConserves(s.movements, s.evidence, key);
  }
}
