/** What every stock movement keeps: level and layer agree, evidence is complete, and
    replaying the history gives back the layer. */
module Valuation {
  import opened Wrappers
  import opened Money
  import opened Inventory

  /** The evidence of an issue follows the weighted-average rule. */
  predicate IssueRule(m: Movement, e: Evidence) {
    m.delta < 0 ==> IssueCost(e.quantityBefore, e.costBefore, -m.delta) == Ok(e.movementCost)
  }

  /** A receipt whose cost can be recomputed from its unit-cost snapshot. */
  predicate Recomputable(m: Movement, e: Evidence) {
    m.delta > 0 ==> m.unitCost.Some? && e.movementCost == MulQuantity(m.unitCost.value, m.delta)
  }

  predicate MovementOk(s: Stock, id: nat)
    requires id < |s.movements|
  {
    && id in s.evidence
    && s.movements[id].key in s.layers
    && s.movements[id].delta != 0
    && 0 <= s.evidence[id].movementCost
    && IssueRule(s.movements[id], s.evidence[id])
  }

  predicate LayerOk(s: Stock, key: Key)
    requires key in s.layers
  {
    && key in s.levels && s.levels[key] == s.layers[key].quantity
    && 0 <= s.layers[key].quantity
    && Consistent(s.layers[key].quantity, s.layers[key].cost)
    && Replay(s.movements, s.evidence, key) == Ok(Replayed(s.evidence, s.layers[key]))
  }

  ghost predicate StockOk(s: Stock) {
    && s.levels.Keys == s.layers.Keys
    && (forall id <- s.evidence :: id < |s.movements|)
    && (forall id :: 0 <= id < |s.movements| ==> MovementOk(s, id))
    && (forall key <- s.layers :: LayerOk(s, key))
  }

  // ----- Sum of the layer costs -----

  ghost function TotalCost(layers: map<Key, Layer>): int {
    if layers == map[] then 0
    else
      var key :| key in layers;
      layers[key].cost + TotalCost(layers - {key})
  }

  lemma {:induction false} TotalCostTake(layers: map<Key, Layer>, key: Key)
    requires key in layers
    ensures TotalCost(layers) == layers[key].cost + TotalCost(layers - {key})
    decreases |layers|
  {
    var pick :| pick in layers && TotalCost(layers) == layers[pick].cost + TotalCost(layers - {pick});
    if pick != key {
      TotalCostTake(layers - {pick}, key);
      TotalCostTake(layers - {key}, pick);
      assert layers - {pick} - {key} == layers - {key} - {pick};
    }
  }

  lemma TotalCostUpdate(layers: map<Key, Layer>, key: Key, layer: Layer)
    ensures TotalCost(layers[key := layer])
         == TotalCost(layers) + layer.cost - if key in layers then layers[key].cost else 0
  {
    TotalCostTake(layers[key := layer], key);
    if key in layers {
      TotalCostTake(layers, key);
      assert layers[key := layer] - {key} == layers - {key};
    } else {
      assert layers[key := layer] - {key} == layers;
    }
  }

  // ----- Replay -----

  predicate Agree(n: nat, a: map<nat, Evidence>, b: map<nat, Evidence>) {
    forall id :: 0 <= id < n ==> id in a && id in b && a[id] == b[id]
  }

  /** Replay over complete evidence only looks at the evidence of its own movements. */
  lemma {:induction false} ReplayFrame(ms: seq<Movement>, a: map<nat, Evidence>, b: map<nat, Evidence>, key: Key)
    requires Agree(|ms|, a, b)
    requires Replay(ms, a, key).Ok? && Replay(ms, a, key).value.evidence == a
    ensures Replay(ms, b, key) == Ok(Replayed(b, Replay(ms, a, key).value.layer))
  {
    if ms != [] {
      var n := |ms| - 1;
      ReplayKeeps(ms[..n], a, key);
      ReplayFrame(ms[..n], a, b, key);
      var layer := Replay(ms[..n], a, key).value.layer;
      if ms[n].key == key {
        assert ReplayStep(Replayed(a, layer), n, ms[n]).Ok?;
        assert b[n := b[n]] == b;
      }
    }
  }

  /** Replay never changes evidence that is there. */
  lemma {:induction false} ReplayKeeps(ms: seq<Movement>, ev: map<nat, Evidence>, key: Key)
    requires Replay(ms, ev, key).Ok?
    ensures forall id <- ev ::
        id in Replay(ms, ev, key).value.evidence && Replay(ms, ev, key).value.evidence[id] == ev[id]
    ensures (forall id :: 0 <= id < |ms| ==> id in ev) ==> Replay(ms, ev, key).value.evidence == ev
  {
    if ms != [] {
      ReplayKeeps(ms[..|ms| - 1], ev, key);
    }
  }

  lemma {:induction false} ReplayOfNothing(ms: seq<Movement>, ev: map<nat, Evidence>, key: Key)
    requires !HasHistory(ms, key)
    ensures Replay(ms, ev, key) == Ok(Replayed(ev, Layer(0, 0)))
  {
    if ms != [] {
      assert ms[|ms| - 1] in ms;
      ReplayOfNothing(ms[..|ms| - 1], ev, key);
    }
  }

  // ----- Recording keeps the invariant -----

  function LockStock(s: Stock, key: Key): Result<Stock> {
    LockLayer(LockLevel(s, key), key)
  }

  lemma LockKeeps(s: Stock, key: Key)
    requires StockOk(s)
    ensures LockStock(s, key).Ok?
    ensures var t := LockStock(s, key).value;
            && StockOk(t) && TotalCost(t.layers) == TotalCost(s.layers)
            && t == s.(levels := t.levels, layers := t.layers)
            && key in t.layers && (forall k <- s.layers :: k in t.layers && t.layers[k] == s.layers[k])
  {
    var t := LockLevel(s, key);
    if key !in s.layers {
      forall id | 0 <= id < |s.movements| ensures s.movements[id].key != key { assert MovementOk(s, id); }
      ReplayOfNothing(s.movements, s.evidence, key);
      TotalCostUpdate(s.layers, key, Layer(0, 0));
      var u := LockStock(s, key).value;
      assert u == t.(layers := s.layers[key := Layer(0, 0)]);
      forall id | 0 <= id < |u.movements| ensures MovementOk(u, id) {
        assert MovementOk(s, id);
      }
      forall k | k in u.layers ensures LayerOk(u, k) {
        if k != key { assert LayerOk(s, k); }
      }
    } else {
      assert t == s;
    }
  }

  /** The signed effect of a movement on the value of the stock. */
  function SignedCost(q: Request, valued: Valued): int {
    if valued.replayed then 0 else if q.movement.delta > 0 then valued.cost else -valued.cost
  }

  lemma ApplyKeeps(s: Stock, q: Request)
    requires StockOk(s) && q.movement.key in s.layers && q.movement.delta != 0
    requires Apply(s, q).Ok?
    ensures StockOk(Apply(s, q).value.stock)
  {
    var t := Apply(s, q).value.stock;
    var key, id := q.movement.key, |s.movements|;
    assert LayerOk(s, key);
    assert Agree(id, s.evidence, t.evidence) by {
      forall i | 0 <= i < id ensures i in s.evidence { assert MovementOk(s, i); }
    }
    forall i | 0 <= i < |t.movements| ensures MovementOk(t, i) {
      if i < id { assert MovementOk(s, i); }
    }
    forall k | k in t.layers ensures LayerOk(t, k) {
      assert LayerOk(s, k);
      ReplayFrame(s.movements, s.evidence, t.evidence, k);
      assert t.movements[..id] == s.movements;
      assert t.evidence[id := t.evidence[id]] == t.evidence;
    }
  }

  lemma ApplyValue(s: Stock, q: Request)
    requires StockOk(s) && q.movement.key in s.layers && q.movement.delta != 0
    requires Apply(s, q).Ok?
    ensures var m := Apply(s, q).value;
            && 0 <= m.valued.cost
            && TotalCost(m.stock.layers) == TotalCost(s.layers) + SignedCost(q, m.valued)
  {
    var t := Apply(s, q).value.stock;
    TotalCostUpdate(s.layers, q.movement.key, t.layers[q.movement.key]);
  }

  /** Recording a movement keeps every stock invariant and moves the total value by
      exactly the cost it reports; a replay moves nothing. */
  lemma RecordKeeps(s: Stock, q: Request)
    requires StockOk(s) && Record(s, q).Ok?
    ensures StockOk(Record(s, q).value.stock)
    ensures TotalCost(Record(s, q).value.stock.layers) == TotalCost(s.layers) + SignedCost(q, Record(s, q).value.valued)
    ensures 0 <= Record(s, q).value.valued.cost
  {
    LockKeeps(s, q.movement.key);
    var locked := LockStock(s, q.movement.key).value;
    var r := Record(s, q).value;
    if r.valued.replayed {
      assert MovementOk(s, r.valued.id);
    } else {
      ApplyKeeps(locked, q);
      ApplyValue(locked, q);
    }
  }

  lemma RecordedOn(s: Stock, locked: Stock, q: Request)
    requires LockStock(s, q.movement.key) == Ok(locked)
        && locked == s.(levels := locked.levels, layers := locked.layers)
    requires q.movement.key in locked.layers && (forall i :: 0 <= i < |s.movements| ==> i in s.evidence)
        && Record(s, q).Ok?
    ensures var r := Record(s, q).value;
            && r.stock.products == s.products && r.stock.warehouses == s.warehouses
            && q.movement.key in r.stock.layers
            && if r.valued.replayed then
                 && r.stock.movements == s.movements && r.stock.evidence == s.evidence
                 && q.movement.idempotencyKey.Some? && r.valued.id < |s.movements|
                 && s.movements[r.valued.id].idempotencyKey == q.movement.idempotencyKey
                 && (q.movement.fingerprint.Some? ==> s.movements[r.valued.id].fingerprint == q.movement.fingerprint)
               else
                 && r.valued.id == |s.movements| == |r.stock.movements| - 1
                 && r.stock.movements[..|s.movements|] == s.movements
                 && r.stock.movements[|s.movements|]
                     == q.movement.(unitCost := r.stock.movements[|s.movements|].unitCost)
                 && (forall i ::
                     0 <= i < |s.movements| ==>
                       i in s.evidence && i in r.stock.evidence && r.stock.evidence[i] == s.evidence[i])
                 && |s.movements| in r.stock.evidence && r.stock.evidence[|s.movements|].movementCost == r.valued.cost
  {
  }

  /** What a recorded movement adds to the tables. */
  lemma RecordAppends(s: Stock, q: Request)
    requires StockOk(s) && Record(s, q).Ok?
    ensures var r := Record(s, q).value;
            && r.stock.products == s.products && r.stock.warehouses == s.warehouses
            && q.movement.key in r.stock.layers
            && if r.valued.replayed then
                 && r.stock.movements == s.movements && r.stock.evidence == s.evidence
                 && q.movement.idempotencyKey.Some? && r.valued.id < |s.movements|
                 && s.movements[r.valued.id].idempotencyKey == q.movement.idempotencyKey
                 && (q.movement.fingerprint.Some? ==> s.movements[r.valued.id].fingerprint == q.movement.fingerprint)
               else
                 && r.valued.id == |s.movements| == |r.stock.movements| - 1
                 && r.stock.movements[..|s.movements|] == s.movements
                 && r.stock.movements[|s.movements|]
                     == q.movement.(unitCost := r.stock.movements[|s.movements|].unitCost)
                 && (forall i ::
                     0 <= i < |s.movements| ==>
                       i in s.evidence && i in r.stock.evidence && r.stock.evidence[i] == s.evidence[i])
                 && |s.movements| in r.stock.evidence && r.stock.evidence[|s.movements|].movementCost == r.valued.cost
  {
    forall i | 0 <= i < |s.movements| ensures i in s.evidence { assert MovementOk(s, i); }
    LockKeeps(s, q.movement.key);
    RecordedOn(s, LockStock(s, q.movement.key).value, q);
  }

  /** Stock on hand goes up or down by exactly the delta, and no other key moves. */
  lemma RecordMovesOneKey(s: Stock, q: Request, key: Key)
    requires StockOk(s) && Record(s, q).Ok? && !Record(s, q).value.valued.replayed
    ensures var t := Record(s, q).value.stock;
            (if key in t.levels then t.levels[key] else 0)
            == (if key in s.levels then s.levels[key] else 0) + if key == q.movement.key then q.movement.delta else 0
  {
    LockKeeps(s, q.movement.key);
    if q.movement.key in s.layers { assert LayerOk(s, q.movement.key); }
  }

  /** A receipt recorded without an authoritative total can be recomputed later. */
  lemma RecordedByUnitCost(s: Stock, q: Request)
    requires StockOk(s) && Record(s, q).Ok? && !Record(s, q).value.valued.replayed
    requires q.movement.delta > 0 ==> q.totalCost.None?
    ensures var t := Record(s, q).value.stock;
            && |s.movements| in t.evidence && |t.movements| == |s.movements| + 1
            && Recomputable(t.movements[|s.movements|], t.evidence[|s.movements|])
  {
    LockKeeps(s, q.movement.key);
  }
}
