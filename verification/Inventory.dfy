/** The stock ledger: cached levels, weighted-average valuation layers, append-only
    movements and one immutable piece of valuation evidence per movement. */
module Inventory {
  import opened Wrappers
  import opened Money
  import opened Accounting
  import opened Text

  datatype Key = Key(product: nat, warehouse: nat)

  datatype Layer = Layer(quantity: int, cost: int)

  datatype Reason = Sale | Purchase | Adjustment | Opening

  /** Idempotency keys of stock movements. A user may submit any key, the derived
      shapes included. */
  datatype IdempotencyKey =
    | UserKey(text: string)
    | IssueKey(invoice: nat, line: nat)
    | ReturnKey(invoice: nat, movement: nat)
    | ReceiptKey(receipt: nat, orderLine: nat)

  /** A SHA-256 fingerprint stands for the payload it was computed from. */
  datatype Fingerprint =
    | AdjustmentOf(key: Key, delta: int, note: string)
    | IssueOf(invoice: nat, line: nat, key: Key, quantity: int)
    | ReturnOf(invoice: nat, movement: nat, quantity: int, cost: int)
    | ReceiptOf(order: nat, quantities: map<nat, int>, receivedAt: Option<int>, note: string)

  datatype Movement = Movement(
    key: Key,
    delta: int,
    unitCost: Option<int>,
    reason: Reason,
    sourceType: SourceType,
    sourceId: RecordId,
    idempotencyKey: Option<IdempotencyKey>,
    fingerprint: Option<Fingerprint>)

  datatype Evidence = Evidence(
    quantityBefore: int,
    quantityAfter: int,
    costBefore: int,
    movementCost: int,
    costAfter: int)

  datatype Product = Product(trackStock: bool, costPrice: int)

  /** A movement is identified by its position, so application order is id order. */
  datatype Stock = Stock(
    products: map<nat, Product>,
    warehouses: set<nat>,
    levels: map<Key, int>,
    layers: map<Key, Layer>,
    movements: seq<Movement>,
    evidence: map<nat, Evidence>)

  datatype Request = Request(
    movement: Movement,
    totalCost: Option<int>,
    requireZeroCurrent: bool,
    requireNoHistory: bool)

  datatype Valued = Valued(id: nat, cost: int, replayed: bool)

  datatype Moved = Moved(stock: Stock, valued: Valued)

  function UnitCostFromAllocation(cost: int, units: int): int
    requires 0 <= cost
  {
    if units <= 0 || cost == 0 then 0 else RoundHalfUp(cost * QUANTITY_SCALE, units)
  }

  /** Weighted-average cost of taking `part` out of a layer; the last unit takes all that is left. */
  function IssueCost(quantity: int, cost: int, part: nat): Result<int> {
    if quantity <= 0 || part > quantity then Err(Conflict)
    else if part == quantity then Ok(cost)
    else if cost < 0 then Err(BadRequest)
    else
      assert 0 <= cost * part;
      Ok(RoundHalfUp(cost * part, quantity))
  }

  predicate Consistent(quantity: int, cost: int) {
    0 <= cost <= MAX_MONEY_CENTS && (quantity == 0 ==> cost == 0)
  }

  function CostAfter(cost: int, delta: int, movementCost: int): int {
    if delta > 0 then cost + movementCost else cost - movementCost
  }

  // ----- Rebuilding a layer from history -----

  datatype Replayed = Replayed(evidence: map<nat, Evidence>, layer: Layer)

  function ReplayMovementCost(layer: Layer, delta: int, unitCost: Option<int>): Result<int> {
    if delta > 0 then
      if unitCost.None? then Err(Conflict) else Ok(MulQuantity(unitCost.value, delta))
    else
      IssueCost(layer.quantity, layer.cost, -delta)
  }

  /** One turn of the rebuild loop: movement `id` applied to `r`. */
  function ReplayStep(r: Replayed, id: nat, m: Movement): Result<Replayed> {
    var _ :- Require(0 <= r.layer.quantity + m.delta, Conflict);
    var movementCost :- if id in r.evidence then Ok(r.evidence[id].movementCost)
                        else ReplayMovementCost(r.layer, m.delta, m.unitCost);
    ReplayAt(r, id, m.delta, movementCost)
  }

  /** The costed movement applied: missing evidence is written, stored evidence must match. */
  function ReplayAt(r: Replayed, id: nat, delta: int, movementCost: int): Result<Replayed> {
    var quantityAfter, costAfter := r.layer.quantity + delta, CostAfter(r.layer.cost, delta, movementCost);
    var _ :- Require(Consistent(quantityAfter, costAfter), Conflict);
    var row := Evidence(r.layer.quantity, quantityAfter, r.layer.cost, movementCost, costAfter);
    var _ :- Require(id in r.evidence ==> r.evidence[id] == row, Conflict);
    Ok(Replayed(r.evidence[id := row], Layer(quantityAfter, costAfter)))
  }

  /** The movements of one key among the first n, applied in order to an empty layer. */
  function Replay(movements: seq<Movement>, evidence: map<nat, Evidence>, key: Key): Result<Replayed> {
    if movements == [] then Ok(Replayed(evidence, Layer(0, 0)))
    else
      var n := |movements| - 1;
      var r :- Replay(movements[..n], evidence, key);
      if movements[n].key == key then ReplayStep(r, n, movements[n]) else Ok(r)
  }

  /** Rebuild of a missing layer; a layer that exists is left alone. */
  function Rebuild(s: Stock, key: Key): Result<Stock> {
    var r :- Replay(s.movements, s.evidence, key);
    Ok(s.(evidence := r.evidence,
          layers := if key in s.layers then s.layers else s.layers[key := r.layer]))
  }

  // ----- Recording a movement -----

  function LockLevel(s: Stock, key: Key): Stock {
    if key in s.levels then s else s.(levels := s.levels[key := 0])
  }

  function LockLayer(s: Stock, key: Key): (r: Result<Stock>)
    ensures r.Ok? ==> key in r.value.layers
    ensures r.Ok? ==> r.value == s.(layers := r.value.layers, evidence := r.value.evidence)
  {
    if key in s.layers then Ok(s) else Rebuild(s, key)
  }

  function FindByKey(movements: seq<Movement>, key: IdempotencyKey): (r: Option<nat>)
    ensures r.Some? ==> r.value < |movements| && movements[r.value].idempotencyKey == Some(key)
    ensures r.None? ==> forall m <- movements :: m.idempotencyKey != Some(key)
  {
    if movements == [] then None
    else if movements[|movements| - 1].idempotencyKey == Some(key) then Some(|movements| - 1)
    else FindByKey(movements[..|movements| - 1], key)
  }

  predicate HasHistory(movements: seq<Movement>, key: Key) {
    exists m <- movements :: m.key == key
  }

  function Replayable(s: Stock, id: nat, m: Movement): Result<Valued>
    requires id < |s.movements|
  {
    var prior := s.movements[id];
    var _ :- Require(m.fingerprint.Some? ==> prior.fingerprint == m.fingerprint, Conflict);
    var _ :- Require(prior.key == m.key && prior.delta == m.delta && prior.reason == m.reason, Conflict);
    var _ :- Require(id in s.evidence, Conflict);
    Ok(Valued(id, s.evidence[id].movementCost, true))
  }

  /** Cost and unit-cost snapshot of a new movement against its layer. */
  function Value(layer: Layer, q: Request): Result<(int, int)> {
    var delta := q.movement.delta;
    if delta > 0 then
      var _ :- Require(q.totalCost.Some? || q.movement.unitCost.Some?, BadRequest);
      var cost := if q.totalCost.Some? then q.totalCost.value else MulQuantity(q.movement.unitCost.value, delta);
      var _ :- Require(0 <= cost, BadRequest);
      Ok((cost, if q.movement.unitCost.Some? then q.movement.unitCost.value else UnitCostFromAllocation(cost, delta)))
    else
      var cost :- IssueCost(layer.quantity, layer.cost, -delta);
      var _ :- Require(0 <= cost, BadRequest);
      Ok((cost, UnitCostFromAllocation(cost, -delta)))
  }

  function Apply(s: Stock, q: Request): Result<Moved>
    requires q.movement.key in s.layers
  {
    var key := q.movement.key;
    var layer := s.layers[key];
    var _ :- Require(!q.requireZeroCurrent || layer.quantity == 0, Conflict);
    var _ :- Require(!q.requireNoHistory || !HasHistory(s.movements, key), Conflict);
    var next := layer.quantity + q.movement.delta;
    var _ :- Require(0 <= next, Conflict);
    var (cost, unitCost) :- Value(layer, q);
    var costAfter := CostAfter(layer.cost, q.movement.delta, cost);
    var _ :- Require(Consistent(next, costAfter), Conflict);
    var id := |s.movements|;
    Ok(Moved(
      s.(levels := s.levels[key := next],
         layers := s.layers[key := Layer(next, costAfter)],
         movements := s.movements + [q.movement.(unitCost := Some(unitCost))],
         evidence := s.evidence[id := Evidence(layer.quantity, next, layer.cost, cost, costAfter)]),
      Valued(id, cost, false)))
  }

  function Record(s: Stock, q: Request): Result<Moved> {
    var m := q.movement;
    var _ :- Require(m.delta != 0, BadRequest);
    var _ :- Require(m.key.product in s.products && m.key.warehouse in s.warehouses, BadRequest);
    var _ :- Require(s.products[m.key.product].trackStock, BadRequest);
    var locked :- LockLayer(LockLevel(s, m.key), m.key);
    var _ :- Require(locked.levels[m.key] == locked.layers[m.key].quantity, Conflict);
    var existing := if m.idempotencyKey.Some? then FindByKey(locked.movements, m.idempotencyKey.value) else None;
    if existing.Some? then
      var valued :- Replayable(locked, existing.value, m);
      Ok(Moved(locked, valued))
    else
      Apply(locked, q)
  }

  // ----- Stock transactions: each is one database transaction over stock and journal -----

  datatype StockBooks = StockBooks(stock: Stock, ledger: Ledger)

  function OpeningRequest(key: Key, quantity: int, unitCost: int, sourceType: SourceType, sourceId: RecordId): Request {
    Request(Movement(key, quantity, Some(unitCost), Opening, sourceType, sourceId, None, None), None, true, true)
  }

  function RecordOpening(b: StockBooks, key: Key, quantity: int, unitCost: int, now: int): Result<StockBooks> {
    var moved :- Record(b.stock, OpeningRequest(key, quantity, unitCost, OtherSource, OtherId(0)));
    var value := moved.valued.cost;
    var ledger :- Post(b.ledger, Entry(now, StockAdjustmentSource, MovementId(moved.valued.id),
                                       [Debit(Account.Inventory, value), Credit(OpeningEquity, value)]));
    Ok(StockBooks(moved.stock, ledger))
  }

  function AdjustRequest(s: Stock, key: Key, delta: int, note: string, idem: IdempotencyKey): Request
    requires key.product in s.products
  {
    Request(Movement(key, delta, Some(s.products[key.product].costPrice), Adjustment, OtherSource, OtherId(0),
                     Some(idem), Some(AdjustmentOf(key, delta, note))), None, false, false)
  }

  function AdjustmentLines(delta: int, value: int): seq<Line> {
    if delta < 0 then [Debit(GeneralExpenses, value), Credit(Account.Inventory, value)]
    else [Debit(Account.Inventory, value), Credit(GeneralExpenses, value)]
  }

  /** A count correction: the journal follows the valuation, and a zero valuation posts nothing. */
  function Adjust(b: StockBooks, key: Key, delta: int, note: string, idem: IdempotencyKey,
      now: int): Result<StockBooks> {
    var existing := FindByKey(b.stock.movements, idem);
    if existing.Some? then
      var _ :- Require(b.stock.movements[existing.value].fingerprint == Some(AdjustmentOf(key, delta, note)), Conflict);
      Ok(b)
    else
      var _ :- Require(key.product in b.stock.products, BadRequest);
      var _ :- Require(!IsBlank(note), BadRequest);
      var moved :- Record(b.stock, AdjustRequest(b.stock, key, delta, note, idem));
      var value := moved.valued.cost;
      if value <= 0 then Ok(b.(stock := moved.stock))
      else
        var ledger :- Post(b.ledger, Entry(now, StockAdjustmentSource, MovementId(moved.valued.id),
                                           AdjustmentLines(delta, value)));
        Ok(StockBooks(moved.stock, ledger))
  }

  datatype OpeningRow = OpeningRow(key: Key, quantity: int, unitCost: int)

  function ImportRow(s: Stock, total: int, row: OpeningRow, batch: nat): Result<(Stock, int)> {
    var moved :- Record(s, OpeningRequest(row.key, row.quantity, row.unitCost, OpeningImportSource, BatchId(batch)));
    var value := total + MulQuantity(row.unitCost, row.quantity);
    var _ :- Require(value <= MAX_MONEY_CENTS, BadRequest);
    Ok((moved.stock, value))
  }

  /** Stock after every row of an opening import, with the running value. */
  function ImportRows(s: Stock, rows: seq<OpeningRow>, batch: nat): Result<(Stock, int)> {
    if rows == [] then Ok((s, 0))
    else
      var (before, total) :- ImportRows(s, rows[..|rows| - 1], batch);
      ImportRow(before, total, rows[|rows| - 1], batch)
  }

  function WithCostPrice(s: Stock, product: nat, costPrice: int): Stock {
    if product in s.products then s.(products := s.products[product := s.products[product].(costPrice := costPrice)])
        else s
  }

  function WithCostPrices(s: Stock, rows: seq<OpeningRow>): Stock {
    if rows == [] then s
    else WithCostPrice(WithCostPrices(s, rows[..|rows| - 1]), rows[|rows| - 1].key.product, rows[|rows| - 1].unitCost)
  }

  function ImportOpening(b: StockBooks, rows: seq<OpeningRow>, batch: nat, now: int): Result<StockBooks> {
    var (stock, total) :- ImportRows(b.stock, rows, batch);
    var _ :- Require(0 < total, BadRequest);
    var ledger :- Post(b.ledger, Entry(now, OpeningImportSource, BatchId(batch),
                                       [Debit(Account.Inventory, total), Credit(OpeningEquity, total)]));
    Ok(StockBooks(WithCostPrices(stock, rows), ledger))
  }

  // ----- The same, as the tables are written -----

  class StockLedger {
    var products: map<nat, Product>
    var warehouses: set<nat>
    var levels: map<Key, int>
    var layers: map<Key, Layer>
    var movements: seq<Movement>
    var evidence: map<nat, Evidence>

    function State(): Stock
      reads this
    {
      Stock(products, warehouses, levels, layers, movements, evidence)
    }

    constructor (products: map<nat, Product>, warehouses: set<nat>)
      ensures State() == Stock(products, warehouses, map[], map[], [], map[])
    {
      this.products, this.warehouses := products, warehouses;
      levels, layers, movements, evidence := map[], map[], [], map[];
    }

    method Rollback(saved: Stock)
      modifies this
      ensures State() == saved
    {
      products, warehouses, levels := saved.products, saved.warehouses, saved.levels;
      layers, movements, evidence := saved.layers, saved.movements, saved.evidence;
    }

    /** One movement of the history: its evidence is written when missing and checked when there. */
    method ReplayMovement(id: nat, quantity: int, cost: int) returns (r: Result<Layer>)
      requires id < |movements|
      modifies this`evidence
      ensures r.Ok? <==> ReplayStep(Replayed(old(evidence), Layer(quantity, cost)), id, movements[id]).Ok?
      ensures r.Ok? ==>
                ReplayStep(Replayed(old(evidence), Layer(quantity, cost)), id, movements[id])
                    == Ok(Replayed(evidence, r.value))
    {
      var delta := movements[id].delta;
      var quantityAfter := quantity + delta;
      if quantityAfter < 0 { return Err(Conflict); }
      var movementCost;
      if id in evidence {
        movementCost := evidence[id].movementCost;
      } else {
        movementCost :- ReplayMovementCost(Layer(quantity, cost), delta, movements[id].unitCost);
      }
      var costAfter := if delta > 0 then cost + movementCost else cost - movementCost;
      if costAfter < 0 || costAfter > MAX_MONEY_CENTS || (quantityAfter == 0 && costAfter != 0) {
        return Err(Conflict);
      }
      var row := Evidence(quantity, quantityAfter, cost, movementCost, costAfter);
      if id in evidence {
        if evidence[id] != row { return Err(Conflict); }
        assert evidence[id := row] == evidence;
      } else {
        evidence := evidence[id := row];
      }
      return Ok(Layer(quantityAfter, costAfter));
    }

    /** Walks the history of one key, writing missing evidence and checking what is there.
        A failure part-way leaves evidence behind for the caller's transaction to undo. */
    method RebuildValuationLayer(key: Key) returns (r: Result<()>)
      modifies this`evidence, this`layers
      ensures r.Ok? <==> Rebuild(old(State()), key).Ok?
      ensures r.Ok? ==> State() == Rebuild(old(State()), key).value
      ensures r.Err? ==> layers == old(layers)
    {
      var quantity, cost := 0, 0;
      ghost var before := evidence;
      for id := 0 to |movements|
        invariant unchanged(`layers)
        invariant Replay(movements[..id], before, key) == Ok(Replayed(evidence, Layer(quantity, cost)))
      {
        assert movements[..id + 1][..id] == movements[..id];
        ReplayFailsOnward(movements, before, key, id + 1);
        if movements[id].key == key {
          var after := ReplayMovement(id, quantity, cost);
          if after.Err? { return Err(after.error); }
          quantity, cost := after.value.quantity, after.value.cost;
        }
      }
      assert movements[..|movements|] == movements;
      if key !in layers {
        layers := layers[key := Layer(quantity, cost)];
      }
      return Ok(());
    }

    /** Stock level first, then valuation layer, each created when missing. */
    method LockStock(key: Key) returns (r: Result<()>)
      modifies this`levels, this`layers, this`evidence
      ensures r.Ok? <==> LockLayer(LockLevel(old(State()), key), key).Ok?
      ensures r.Ok? ==> State() == LockLayer(LockLevel(old(State()), key), key).value
    {
      if key !in levels { levels := levels[key := 0]; }
      if key !in layers {
        var rebuilt := RebuildValuationLayer(key);
        return rebuilt;
      }
      return Ok(());
    }

    /** Values the movement against its layer and writes all four tables. */
    method ApplyMovement(q: Request) returns (r: Result<Valued>)
      requires q.movement.key in layers && q.movement.key in levels
      requires levels[q.movement.key] == layers[q.movement.key].quantity
      modifies this`levels, this`layers, this`movements, this`evidence
      ensures r.Ok? <==> Apply(old(State()), q).Ok?
      ensures r.Ok? ==> Apply(old(State()), q).value == Moved(State(), r.value)
      ensures r.Err? ==> State() == old(State())
    {
      var m := q.movement;
      var key := m.key;
      var current, layer := levels[key], layers[key];
      if q.requireZeroCurrent && current != 0 { return Err(Conflict); }
      if q.requireNoHistory && HasHistory(movements, key) { return Err(Conflict); }
      var next := current + m.delta;
      if next < 0 { return Err(Conflict); }

      var movementCost, costAfter, unitCost;
      if m.delta > 0 {
        if q.totalCost.None? && m.unitCost.None? { return Err(BadRequest); }
        movementCost := if q.totalCost.Some? then q.totalCost.value else MulQuantity(m.unitCost.value, m.delta);
        if movementCost < 0 { return Err(BadRequest); }
        unitCost := if m.unitCost.Some? then m.unitCost.value else UnitCostFromAllocation(movementCost, m.delta);
        costAfter := layer.cost + movementCost;
      } else {
        movementCost :- IssueCost(current, layer.cost, -m.delta);
        if movementCost < 0 { return Err(BadRequest); }
        unitCost := UnitCostFromAllocation(movementCost, -m.delta);
        costAfter := layer.cost - movementCost;
      }
      if costAfter < 0 || costAfter > MAX_MONEY_CENTS || (next == 0 && costAfter != 0) { return Err(Conflict); }

      levels := levels[key := next];
      var id := |movements|;
      movements := movements + [m.(unitCost := Some(unitCost))];
      evidence := evidence[id := Evidence(current, next, layer.cost, movementCost, costAfter)];
      layers := layers[key := Layer(next, costAfter)];
      return Ok(Valued(id, movementCost, false));
    }

    method RecordStockMovement(q: Request) returns (r: Result<Valued>)
      modifies this
      ensures r.Ok? <==> Record(old(State()), q).Ok?
      ensures r.Ok? ==> Record(old(State()), q).value == Moved(State(), r.value)
    {
      var m := q.movement;
      var key := m.key;
      if m.delta == 0 { return Err(BadRequest); }
      if key.product !in products || key.warehouse !in warehouses { return Err(BadRequest); }
      if !products[key.product].trackStock { return Err(BadRequest); }
      var locked := LockStock(key);
      if locked.Err? { return Err(locked.error); }
      if levels[key] != layers[key].quantity { return Err(Conflict); }
      if m.idempotencyKey.Some? {
        var existing := FindByKey(movements, m.idempotencyKey.value);
        if existing.Some? {
          r := Replayable(State(), existing.value, m);
          return;
        }
      }
      r := ApplyMovement(q);
    }

    method RecordOpeningStock(journal: Journal, key: Key, quantity: int, unitCost: int, now: int)
      returns (r: Result<()>)
      modifies this, journal
      ensures r.Ok? <==> RecordOpening(old(StockBooks(State(), journal.State())), key, quantity, unitCost, now).Ok?
      ensures StockBooks(State(), journal.State())
           == OrElse(RecordOpening(old(StockBooks(State(), journal.State())), key, quantity, unitCost, now),
                     old(StockBooks(State(), journal.State())))
    {
      var saved := State();
      var moved := RecordStockMovement(OpeningRequest(key, quantity, unitCost, OtherSource, OtherId(0)));
      if moved.Err? { Rollback(saved); return Err(moved.error); }
      var value := moved.value.cost;
      r := journal.PostJournal(now, StockAdjustmentSource, MovementId(moved.value.id),
                               [Debit(Account.Inventory, value), Credit(OpeningEquity, value)]);
      if r.Err? { Rollback(saved); }
    }

    method AdjustStock(journal: Journal, key: Key, delta: int, note: string, idem: IdempotencyKey, now: int)
      returns (r: Result<()>)
      modifies this, journal
      ensures r.Ok? <==> Adjust(old(StockBooks(State(), journal.State())), key, delta, note, idem, now).Ok?
      ensures StockBooks(State(), journal.State())
           == OrElse(Adjust(old(StockBooks(State(), journal.State())), key, delta, note, idem, now),
                     old(StockBooks(State(), journal.State())))
    {
      var existing := FindByKey(movements, idem);
      if existing.Some? {
        if movements[existing.value].fingerprint != Some(AdjustmentOf(key, delta, note)) { return Err(Conflict); }
        return Ok(());
      }
      if key.product !in products { return Err(BadRequest); }
      if IsBlank(note) { return Err(BadRequest); }
      var saved := State();
      var moved := RecordStockMovement(AdjustRequest(State(), key, delta, note, idem));
      if moved.Err? { Rollback(saved); return Err(moved.error); }
      var value := moved.value.cost;
      if value > 0 {
        var lines := if delta < 0 then [Debit(GeneralExpenses, value), Credit(Account.Inventory, value)]
                     else [Debit(Account.Inventory, value), Credit(GeneralExpenses, value)];
        r := journal.PostJournal(now, StockAdjustmentSource, MovementId(moved.value.id), lines);
        if r.Err? { Rollback(saved); }
        return;
      }
      return Ok(());
    }

    method UpdateCostPrices(rows: seq<OpeningRow>)
      modifies this`products
      ensures State() == WithCostPrices(old(State()), rows)
    {
      for i := 0 to |rows|
        invariant State() == WithCostPrices(old(State()), rows[..i])
      {
        assert rows[..i + 1][..i] == rows[..i];
        var product := rows[i].key.product;
        if product in products {
          products := products[product := products[product].(costPrice := rows[i].unitCost)];
        }
      }
      assert rows[..|rows|] == rows;
    }

    method RecordRow(row: OpeningRow, total: int, batch: nat) returns (r: Result<int>)
      modifies this
      ensures r.Ok? <==> ImportRow(old(State()), total, row, batch).Ok?
      ensures r.Ok? ==> ImportRow(old(State()), total, row, batch).value == (State(), r.value)
    {
      var moved := RecordStockMovement(OpeningRequest(row.key, row.quantity, row.unitCost, OpeningImportSource,
          BatchId(batch)));
      if moved.Err? { return Err(moved.error); }
      var value := total + MulQuantity(row.unitCost, row.quantity);
      if value > MAX_MONEY_CENTS { return Err(BadRequest); }
      return Ok(value);
    }

    /** Records the rows one by one and returns their total value. */
    method RecordRows(rows: seq<OpeningRow>, batch: nat) returns (r: Result<int>)
      modifies this
      ensures r.Ok? <==> ImportRows(old(State()), rows, batch).Ok?
      ensures r.Ok? ==> ImportRows(old(State()), rows, batch).value == (State(), r.value)
    {
      ghost var saved := State();
      var total := 0;
      for i := 0 to |rows|
        invariant ImportRows(saved, rows[..i], batch) == Ok((State(), total))
      {
        assert rows[..i + 1][..i] == rows[..i];
        ImportFailsOnward(saved, rows, batch, i + 1);
        var next := RecordRow(rows[i], total, batch);
        if next.Err? { return Err(next.error); }
        total := next.value;
      }
      assert rows[..|rows|] == rows;
      return Ok(total);
    }

    method CommitOpeningImport(journal: Journal, rows: seq<OpeningRow>, batch: nat, now: int) returns (r: Result<()>)
      modifies this, journal
      ensures r.Ok? <==> ImportOpening(old(StockBooks(State(), journal.State())), rows, batch, now).Ok?
      ensures StockBooks(State(), journal.State())
           == OrElse(ImportOpening(old(StockBooks(State(), journal.State())), rows, batch, now),
                     old(StockBooks(State(), journal.State())))
    {
      var saved := State();
      var total := RecordRows(rows, batch);
      if total.Err? { Rollback(saved); return Err(total.error); }
      if total.value <= 0 { Rollback(saved); return Err(BadRequest); }
      UpdateCostPrices(rows);
      r := journal.PostJournal(now, OpeningImportSource, BatchId(batch),
                               [Debit(Account.Inventory, total.value), Credit(OpeningEquity, total.value)]);
      if r.Err? { Rollback(saved); }
    }
  }

  /** Once the walk over a prefix is refused, the whole walk is. */
  lemma {:induction false} ReplayFailsOnward(movements: seq<Movement>, evidence: map<nat, Evidence>, key: Key, n: nat)
    requires n <= |movements|
    ensures Replay(movements[..n], evidence, key).Err? ==> Replay(movements, evidence, key).Err?
    decreases |movements| - n
  {
    if n < |movements| {
      assert movements[..n + 1][..n] == movements[..n];
      ReplayFailsOnward(movements, evidence, key, n + 1);
    } else {
      assert movements[..n] == movements;
    }
  }

  lemma {:induction false} ImportFailsOnward(s: Stock, rows: seq<OpeningRow>, batch: nat, n: nat)
    requires n <= |rows|
    ensures ImportRows(s, rows[..n], batch).Err? ==> ImportRows(s, rows, batch).Err?
    decreases |rows| - n
  {
    if n < |rows| {
      assert rows[..n + 1][..n] == rows[..n];
      ImportFailsOnward(s, rows, batch, n + 1);
    } else {
      assert rows[..n] == rows;
    }
  }
}
