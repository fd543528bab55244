/** Rebuilding a lost layer from history, with some of its evidence lost too. */
module LayerRebuild {
  import opened Wrappers
  import opened Money
  import Accounting
  import opened Inventory
  import opened Valuation

  /** Evidence in which the rows of `lost` numbered n and above are missing. */
  function Restored(ev: map<nat, Evidence>, lost: set<nat>, n: nat): map<nat, Evidence> {
    map id | id in ev && (id in lost ==> id < n) :: ev[id]
  }

  predicate AllRecomputable(ms: seq<Movement>, ev: map<nat, Evidence>, lost: set<nat>)
    requires forall id :: 0 <= id < |ms| ==> id in ev
  {
    forall id :: 0 <= id < |ms| && id in lost ==> Recomputable(ms[id], ev[id])
  }

  predicate Differs(r: Result<Replayed>, ev: map<nat, Evidence>) {
    r.Err? || exists id <- ev :: id in r.value.evidence && r.value.evidence[id] != ev[id]
  }

  lemma OneMoreRecomputable(ms: seq<Movement>, ev: map<nat, Evidence>, lost: set<nat>)
    requires ms != [] && forall id :: 0 <= id < |ms| ==> id in ev
    ensures var n := |ms| - 1;
            AllRecomputable(ms, ev, lost) <==> AllRecomputable(ms[..n], ev, lost) && (n in lost ==>
                Recomputable(ms[n], ev[n]))
  {
  }

  /** Replay over incomplete evidence: the kept history, or a row that is not the original. */
  lemma {:induction false} ReplayWithLoss(ms: seq<Movement>, ev: map<nat, Evidence>, lost: set<nat>, key: Key)
    requires forall id :: 0 <= id < |ms| ==> id in ev && ms[id].delta != 0 && IssueRule(ms[id], ev[id])
    requires forall id <- lost :: id < |ms| ==> ms[id].key == key
    requires Replay(ms, ev, key).Ok?
    ensures var r := Replay(ms, Restored(ev, lost, 0), key);
            if AllRecomputable(ms, ev, lost)
            then r == Ok(Replayed(Restored(ev, lost, |ms|), Replay(ms, ev, key).value.layer))
            else Differs(r, ev)
  {
    if ms != [] {
      var n := |ms| - 1;
      ReplayWithLoss(ms[..n], ev, lost, key);
      ReplayKeeps(ms[..n], ev, key);
      OneMoreRecomputable(ms, ev, lost);
      var before := Replay(ms[..n], Restored(ev, lost, 0), key);
      if ms[n].key != key {
        assert Restored(ev, lost, n + 1) == Restored(ev, lost, n);
      } else if AllRecomputable(ms[..n], ev, lost) {
        StepWithLoss(ev, lost, n, before.value.layer, ms[n]);
      } else if before.Ok? {
        StaysDifferent(before.value, n, ms[n], ev);
      }
    }
  }

  /** One turn of the loop at the first row that may be missing. */
  lemma StepWithLoss(ev: map<nat, Evidence>, lost: set<nat>, n: nat, layer: Layer, m: Movement)
    requires m.delta != 0 && n in ev && IssueRule(m, ev[n]) && ReplayStep(Replayed(ev, layer), n, m).Ok?
    ensures var r := ReplayStep(Replayed(Restored(ev, lost, n), layer), n, m);
            if n in lost ==> Recomputable(m, ev[n])
            then r == Ok(Replayed(Restored(ev, lost, n + 1), ReplayStep(Replayed(ev, layer), n, m).value.layer))
            else Differs(r, ev)
  {
    var row, kept := ev[n], Replayed(Restored(ev, lost, n), layer);
    assert row == Evidence(layer.quantity, layer.quantity + m.delta, layer.cost, row.movementCost,
                           CostAfter(layer.cost, m.delta, row.movementCost));
    if n !in lost {
      StepAt(ev, lost, n, layer, m.delta, row.movementCost);
    } else {
      var cost := ReplayMovementCost(layer, m.delta, m.unitCost);
      assert Recomputable(m, row) <==> cost == Ok(row.movementCost);
      if cost.Ok? {
        StepAt(ev, lost, n, layer, m.delta, cost.value);
      }
    }
  }

  lemma StepAt(ev: map<nat, Evidence>, lost: set<nat>, n: nat, layer: Layer, delta: int, cost: int)
    requires n in ev && ReplayAt(Replayed(ev, layer), n, delta, ev[n].movementCost).Ok?
    requires n !in lost ==> cost == ev[n].movementCost
    ensures var r := ReplayAt(Replayed(Restored(ev, lost, n), layer), n, delta, cost);
            if cost == ev[n].movementCost
            then r == Ok(Replayed(Restored(ev, lost, n + 1), ReplayAt(Replayed(ev, layer), n, delta, cost).value.layer))
            else Differs(r, ev)
  {
    var r := ReplayAt(Replayed(Restored(ev, lost, n), layer), n, delta, cost);
    if cost == ev[n].movementCost {
      assert Restored(ev, lost, n)[n := ev[n]] == Restored(ev, lost, n + 1);
    } else if r.Ok? {
      assert n in r.value.evidence && r.value.evidence[n] != ev[n];
    }
  }

  lemma StaysDifferent(r: Replayed, n: nat, m: Movement, ev: map<nat, Evidence>)
    requires Differs(Ok(r), ev)
    ensures Differs(ReplayStep(r, n, m), ev)
  {
    var id :| id in ev && id in r.evidence && r.evidence[id] != ev[id];
    var next := ReplayStep(r, n, m);
    if next.Ok? {
      assert id in next.value.evidence && next.value.evidence[id] != ev[id];
    }
  }

  /** A stock that lost one layer and any part of that key's evidence. */
  function Lose(s: Stock, key: Key, lost: set<nat>): Stock {
    s.(layers := s.layers - {key}, evidence := Restored(s.evidence, lost, 0))
  }

  /** The rebuild recovers the layer and every lost row exactly when each lost receipt was
      costed by its unit cost. Lost issues never stand in the way. */
  lemma RebuildRecoversExactlyWhen(s: Stock, key: Key, lost: set<nat>)
    requires StockOk(s) && key in s.layers
    requires forall id <- lost :: id < |s.movements| && s.movements[id].key == key
    ensures forall id <- lost :: id in s.evidence
    ensures Rebuild(Lose(s, key, lost), key) == Ok(s)
            <==> forall id <- lost :: Recomputable(s.movements[id], s.evidence[id])
  {
    var ms, ev := s.movements, s.evidence;
    forall id | 0 <= id < |ms| ensures id in ev && ms[id].delta != 0 && IssueRule(ms[id], ev[id]) {
      assert MovementOk(s, id);
    }
    assert LayerOk(s, key);
    ReplayWithLoss(ms, ev, lost, key);
    assert AllRecomputable(ms, ev, lost) <==> forall id <- lost :: Recomputable(ms[id], ev[id]);
    assert Restored(ev, lost, |ms|) == ev;
    assert (s.layers - {key})[key := s.layers[key]] == s.layers;
    var r := Replay(ms, Restored(ev, lost, 0), key);
    if Differs(r, ev) && r.Ok? {
      assert r.value.evidence != ev;
    }
  }

  /** A second rebuild finds the layer and every row in place. */
  lemma RebuildIsIdempotent(s: Stock, key: Key)
    requires StockOk(s) && key in s.layers
    ensures Rebuild(s, key) == Ok(s)
  {
    assert LayerOk(s, key);
  }

  /** A goods receipt of 3 units at 1.00 and rate 0.3333 is worth 1.00 in base, but its unit
      cost rounds to 0.33: losing that row of evidence loses a cent. */
  lemma RebuildLosesACent()
    ensures var key := Key(1, 1);
            var empty := Stock(map[1 := Product(true, 0)], {1}, map[], map[], [], map[]);
            var m := Movement(key, 3_000, Some(33), Purchase, Accounting.GoodsReceiptSource, Accounting.ReceiptId(0),
                None, None);
            var received := Record(empty, Request(m, Some(100), false, false));
            && MulRate(MulQuantity(100, 3_000), 333_300) == 100 && MulRate(100, 333_300) == 33
            && received.Ok? && received.value.stock.layers[key] == Layer(3_000, 100)
            && var rebuilt := Rebuild(Lose(received.value.stock, key, {0}), key);
               rebuilt.Ok? && key in rebuilt.value.layers && rebuilt.value.layers[key] == Layer(3_000, 99)
  {
    var key := Key(1, 1);
    var empty := Stock(map[1 := Product(true, 0)], {1}, map[], map[], [], map[]);
    var m := Movement(key, 3_000, Some(33), Purchase, Accounting.GoodsReceiptSource, Accounting.ReceiptId(0), None,
        None);
    ReplayOfNothing([], map[], key);
    assert LockStock(empty, key) == Ok(empty.(levels := map[key := 0], layers := map[key := Layer(0, 0)]));
    var s := Record(empty, Request(m, Some(100), false, false)).value.stock;
    assert s.movements == [m];
    assert Lose(s, key, {0}).evidence == map[];
    assert [m][..0] == [];
    assert Replay([m], map[], key) == ReplayStep(Replayed(map[], Layer(0, 0)), 0, m);
  }
}
