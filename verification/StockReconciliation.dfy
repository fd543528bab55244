/** The Inventory control-account report, and why it always says RECONCILED. */
module StockReconciliation {
  import opened Wrappers
  import opened Money
  import opened Accounting
  import opened Inventory
  import opened Books
  import opened Valuation
  import opened LayerRebuild
  import opened WeightedAverage
  import opened StockTieOut

  datatype ReconciliationReport = ReconciliationReport(
    reconciled: bool,
    ledgerBalance: int,
    stockValuation: int,
    missingLayers: int,
    missingLevels: int,
    mismatches: int)

  /** One row per position: a stock level, or a layer without one. */
  method InventoryValuationReconciliation(stock: Stock, ledger: Ledger) returns (r: ReconciliationReport)
    ensures r.ledgerBalance == Balance(ledger.entries, Account.Inventory)
    ensures r.stockValuation == TotalCost(stock.layers)
    ensures r.reconciled
        <==> && Balance(ledger.entries, Account.Inventory) == TotalCost(stock.layers)
             && stock.levels.Keys == stock.layers.Keys
             && forall key <- stock.layers :: stock.levels[key] == stock.layers[key].quantity
  {
    var positions := stock.levels.Keys + stock.layers.Keys;
    var valuation, missingLayers, missingLevels, mismatches := 0, 0, 0, 0;
    ghost var seen: set<Key> := {};
    assert stock.layers - seen == stock.layers;
    while positions != {}
      invariant positions !! seen && positions + seen == stock.levels.Keys + stock.layers.Keys
      invariant valuation + TotalCost(stock.layers - seen) == TotalCost(stock.layers)
      invariant 0 <= missingLayers && 0 <= missingLevels && 0 <= mismatches
      invariant missingLayers == 0 <==> forall key <- seen :: key in stock.layers
      invariant missingLevels == 0 <==> forall key <- seen :: key in stock.layers ==> key in stock.levels
      invariant mismatches == 0 <==>
        forall key <- seen ::
            key in stock.layers && key in stock.levels ==> stock.levels[key] == stock.layers[key].quantity
    {
      var key :| key in positions;
      if key !in stock.layers {
        missingLayers := missingLayers + 1;
        assert stock.layers - (seen + {key}) == stock.layers - seen;
      } else {
        TotalCostTake(stock.layers - seen, key);
        assert stock.layers - seen - {key} == stock.layers - (seen + {key});
        valuation := valuation + stock.layers[key].cost;
        if key !in stock.levels {
          missingLevels := missingLevels + 1;
        } else if stock.levels[key] != stock.layers[key].quantity {
          mismatches := mismatches + 1;
        }
      }
      positions, seen := positions - {key}, seen + {key};
    }
    assert stock.layers - seen == map[];
    var balance := Balance(ledger.entries, Account.Inventory);
    r := ReconciliationReport(balance == valuation && missingLayers == 0 && missingLevels == 0 && mismatches == 0,
                              balance, valuation, missingLayers, missingLevels, mismatches);
    if r.reconciled {
      forall key ensures key in stock.levels <==> key in stock.layers {
        assert key in stock.levels || key in stock.layers ==> key in seen;
      }
    }
  }

  lemma OpenedTies(b: Books)
    requires IsOpened(b)
    ensures Ties(b)
  {
  }

  lemma {:induction false} RunTies(b: Books, ops: seq<Timed>)
    requires Ties(b)
    ensures Ties(Run(b, ops))
  {
    if ops != [] {
      var n := |ops| - 1;
      RunTies(b, ops[..n]);
      var before := Run(b, ops[..n]);
      if Step(before, ops[n].op, ops[n].now).Ok? {
        StepTies(before, ops[n].op, ops[n].now);
      }
    }
  }

  lemma ReachableTies(b: Books)
    requires Reachable(b)
    ensures Ties(b)
  {
    var start: Books :| IsOpened(start) && Leads(start, b);
    var ops :| b == Run(start, ops);
    OpenedTies(start);
    RunTies(start, ops);
  }

  /** In every reachable state, whatever ran and was accepted or refused, each level equals its
      layer and is not negative, layer costs are in range and zero with the quantity, and the
      Inventory account equals the sum of the layer costs: the report reconciles. */
  lemma EveryRunReconciles(b: Books)
    requires Reachable(b)
    ensures b.stock.levels.Keys == b.stock.layers.Keys
    ensures forall key <- b.stock.layers ::
              && b.stock.levels[key] == b.stock.layers[key].quantity
              && 0 <= b.stock.levels[key]
              && 0 <= b.stock.layers[key].cost <= MAX_MONEY_CENTS
              && (b.stock.levels[key] == 0 ==> b.stock.layers[key].cost == 0)
    ensures Balance(b.ledger.entries, Account.Inventory) == TotalCost(b.stock.layers)
  {
    ReachableTies(b);
    forall key <- b.stock.layers ensures LayerOk(b.stock, key) {}
  }

  /** After any run, replaying the history of a position gives its stored layer, a rebuild of a
      layer that is there changes nothing, and a rebuild after losing the layer and some evidence
      restores both exactly when every lost receipt was costed by its unit cost. */
  lemma EveryRunRebuilds(b: Books, key: Key, lost: set<nat>)
    requires Reachable(b) && key in b.stock.layers
    requires forall id <- lost :: id < |b.stock.movements| && b.stock.movements[id].key == key
    ensures var s := b.stock;
            && Replay(s.movements, s.evidence, key) == Ok(Replayed(s.evidence, s.layers[key]))
            && Rebuild(s, key) == Ok(s)
            && (forall id <- lost :: id in s.evidence)
            && (Rebuild(Lose(s, key, lost), key) == Ok(s)
                <==> forall id <- lost :: Recomputable(s.movements[id], s.evidence[id]))
  {
    ReachableTies(b);
    assert LayerOk(b.stock, key);
    RebuildIsIdempotent(b.stock, key);
    RebuildRecoversExactlyWhen(b.stock, key, lost);
  }

  /** After any run, what a position received in cost is what was issued from it plus what its
      layer still holds, and over a stretch of issues its average cost drifts by at most half a
      cent per issue. */
  lemma EveryRunConserves(b: Books, key: Key, start: nat)
    requires Reachable(b)
    requires var s := b.stock;
             && key in s.layers && start <= |s.movements|
             && forall i :: start <= i < |s.movements| && s.movements[i].key == key ==> s.movements[i].delta < 0
    ensures var s := b.stock;
            && (forall id :: 0 <= id < |s.movements| ==> id in s.evidence)
            && ReceiptCosts(s.movements, s.evidence, key)
                == IssueCosts(s.movements, s.evidence, key) + s.layers[key].cost
            && Replay(s.movements[..start], s.evidence, key).Ok?
            && WithinDrift(Replay(s.movements[..start], s.evidence, key).value.layer, s.layers[key],
                           |Issued(s.movements, key, start)|)
  {
    ReachableTies(b);
    CostIsConserved(b.stock, key);
    DriftOverHistory(b.stock, key, start);
  }
}
