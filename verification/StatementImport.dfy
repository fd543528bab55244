/** Importing bank statements: a preview marks what is already stored, a commit stores the
    rest, and equal rows of one file are told apart by their occurrence number. */
module StatementImport {
  import opened Wrappers

  /** Account, date, amount, description and reference of a statement row, in the form that is
      hashed. */
  datatype Print = Print(account: nat, date: int, amount: int, text: string)

  /** A source key stands for the print and occurrence number it is the hash of. */
  datatype Key = Key(source: Print, occurrence: nat)

  datatype RowStatus = Valid | Duplicate | Invalid | Imported

  /** An invalid row has no key. */
  datatype Row = Row(key: Option<Key>, status: RowStatus)

  datatype BatchStatus = Previewed | Completed

  datatype Batch = Batch(rows: seq<Row>, status: BatchStatus)

  /** The bank transactions, by source key, and the import batches. */
  datatype Desk = Desk(stored: seq<Key>, batches: seq<Batch>)

  /** The rows of a statement file; None is a row that does not parse. */
  type File = seq<Option<Print>>

  function Count(file: File, p: Print): nat {
    if file == [] then 0 else Count(file[..|file| - 1], p) + if file[|file| - 1] == Some(p) then 1 else 0
  }

  function KeyAt(file: File, i: nat): Option<Key>
    requires i < |file|
  {
    if file[i].None? then None else Some(Key(file[i].value, Count(file[..i + 1], file[i].value)))
  }

  predicate InFile(file: File, key: Key) { 1 <= key.occurrence <= Count(file, key.source) }

  // ----- Preview and commit -----

  function Stage(stored: seq<Key>, file: File): seq<Row> {
    seq(|file|, i requires 0 <= i < |file| =>
      var key := KeyAt(file, i);
      Row(key, if key.None? then Invalid else if key.value in stored then Duplicate else Valid))
  }

  function Preview(d: Desk, file: File): Desk {
    d.(batches := d.batches + [Batch(Stage(d.stored, file), Previewed)])
  }

  function ValidKeys(rows: seq<Row>): seq<Key> {
    if rows == [] then []
    else
      var last := rows[|rows| - 1];
      ValidKeys(rows[..|rows| - 1]) + if last.status == Valid && last.key.Some? then [last.key.value] else []
  }

  /** Stores the keys not stored yet and skips the others. */
  function InsertNew(stored: seq<Key>, keys: seq<Key>): seq<Key> {
    if keys == [] then stored
    else
      var before := InsertNew(stored, keys[..|keys| - 1]);
      if keys[|keys| - 1] in before then before else before + [keys[|keys| - 1]]
  }

  function Settled(stored: seq<Key>, rows: seq<Row>): seq<Row> {
    seq(|rows|, i requires 0 <= i < |rows| =>
      if rows[i].status == Valid && rows[i].key.Some?
      then rows[i].(status := if rows[i].key.value in stored then Duplicate else Imported)
      else rows[i])
  }

  function Commit(d: Desk, id: nat): Result<Desk> {
    var _ :- Require(id < |d.batches| && d.batches[id].status == Previewed, Conflict);
    var rows := d.batches[id].rows;
    var keys := ValidKeys(rows);
    var _ :- Require(keys != [], BadRequest);
    Ok(Desk(InsertNew(d.stored, keys), d.batches[id := Batch(Settled(d.stored, rows), Completed)]))
  }

  class ImportDesk {
    var stored: seq<Key>
    var batches: seq<Batch>

    function State(): Desk
      reads this
    {
      Desk(stored, batches)
    }

    constructor ()
      ensures State() == Desk([], [])
    {
      stored, batches := [], [];
    }

    /** Numbers equal rows as it goes and marks the keys already stored or already met. */
    method PreviewStatement(file: File)
      modifies this`batches
      ensures State() == Preview(old(State()), file)
    {
      var sourceKeys := set key <- stored;
      var occurrences: map<Print, nat> := map[];
      var staged: seq<Row> := [];
      for i := 0 to |file|
        invariant unchanged(this)
        invariant staged == Stage(stored, file)[..i]
        invariant forall p :: (if p in occurrences then occurrences[p] else 0) == Count(file[..i], p)
        invariant forall key :: key in sourceKeys <==> key in stored || InFile(file[..i], key)
      {
        assert file[..i + 1][..i] == file[..i];
        if file[i].None? {
          staged := staged + [Row(None, Invalid)];
        } else {
          var source := file[i].value;
          var occurrence := (if source in occurrences then occurrences[source] else 0) + 1;
          occurrences := occurrences[source := occurrence];
          var key := Key(source, occurrence);
          assert !InFile(file[..i], key);
          var duplicate := key in sourceKeys;
          sourceKeys := sourceKeys + {key};
          staged := staged + [Row(Some(key), if duplicate then Duplicate else Valid)];
          forall k: Key ensures InFile(file[..i + 1], k) <==> InFile(file[..i], k) || k == key {}
        }
      }
      assert Stage(stored, file)[..|file|] == Stage(stored, file);
      batches := batches + [Batch(staged, Previewed)];
    }

    /** Inserts the keys that are not stored yet and returns them. */
    method InsertRows(keys: seq<Key>) returns (created: set<Key>)
      modifies this`stored
      ensures stored == InsertNew(old(stored), keys)
      ensures forall key :: key in created <==> key in stored && key !in old(stored)
    {
      created := {};
      for i := 0 to |keys|
        invariant stored == InsertNew(old(stored), keys[..i])
        invariant forall key :: key in created <==> key in stored && key !in old(stored)
        invariant forall key <- old(stored) :: key in stored
      {
        assert keys[..i + 1][..i] == keys[..i];
        if keys[i] !in stored {
          stored := stored + [keys[i]];
          created := created + {keys[i]};
        }
      }
      assert keys[..|keys|] == keys;
    }

    static method SettleRows(rows: seq<Row>, created: set<Key>, ghost before: seq<Key>) returns (settled: seq<Row>)
      requires forall key <- ValidKeys(rows) :: key in created <==> key !in before
      ensures settled == Settled(before, rows)
    {
      settled := [];
      for i := 0 to |rows|
        invariant settled == Settled(before, rows)[..i]
      {
        if rows[i].status == Valid && rows[i].key.Some? {
          ValidIsIn(rows, i);
          settled := settled + [rows[i].(status := if rows[i].key.value in created then Imported else Duplicate)];
        } else {
          settled := settled + [rows[i]];
        }
      }
      assert Settled(before, rows)[..|rows|] == Settled(before, rows);
    }

    /** Claims the batch, inserts its valid rows skipping conflicts, and settles their status. */
    method CommitStatement(id: nat) returns (r: Result<()>)
      modifies this
      ensures r.Ok? <==> Commit(old(State()), id).Ok?
      ensures State() == OrElse(Commit(old(State()), id), old(State()))
    {
      if id >= |batches| || batches[id].status != Previewed { return Err(Conflict); }
      var rows := batches[id].rows;
      var keys := ValidKeys(rows);
      if keys == [] { return Err(BadRequest); }
      var created := InsertRows(keys);
      InsertHolds(old(stored), keys);
      var settled := SettleRows(rows, created, old(stored));
      batches := batches[id := Batch(settled, Completed)];
      return Ok(());
    }
  }

  lemma {:induction false} InsertHolds(stored: seq<Key>, keys: seq<Key>)
    ensures forall key :: key in InsertNew(stored, keys) <==> key in stored || key in keys
    ensures StoredOnce(stored) ==> StoredOnce(InsertNew(stored, keys))
  {
    if keys != [] {
      InsertHolds(stored, keys[..|keys| - 1]);
      assert keys == keys[..|keys| - 1] + [keys[|keys| - 1]];
    }
  }

  predicate StoredOnce(stored: seq<Key>) { forall i, j :: 0 <= i < j < |stored| ==> stored[i] != stored[j] }

  lemma {:induction false} ValidIsIn(rows: seq<Row>, i: nat)
    requires i < |rows| && rows[i].status == Valid && rows[i].key.Some?
    ensures rows[i].key.value in ValidKeys(rows)
  {
    if i < |rows| - 1 {
      ValidIsIn(rows[..|rows| - 1], i);
    }
  }

  lemma {:induction false} OnlyValid(rows: seq<Row>, key: Key)
    requires key in ValidKeys(rows)
    ensures exists i :: 0 <= i < |rows| && rows[i] == Row(Some(key), Valid)
  {
    var n := |rows| - 1;
    if key in ValidKeys(rows[..n]) {
      OnlyValid(rows[..n], key);
      var i :| 0 <= i < n && rows[..n][i] == Row(Some(key), Valid);
      assert rows[i] == Row(Some(key), Valid);
    } else {
      assert rows[n] == Row(Some(key), Valid);
    }
  }

  // ----- Any run of previews and commits -----

  datatype ImportStep = PreviewFile(file: File) | CommitBatch(batch: nat)

  function StepDesk(d: Desk, step: ImportStep): Desk {
    match step
    case PreviewFile(file) => Preview(d, file)
    case CommitBatch(id) => OrElse(Commit(d, id), d)
  }

  function RunDesk(d: Desk, steps: seq<ImportStep>): Desk {
    if steps == [] then d else StepDesk(RunDesk(d, steps[..|steps| - 1]), steps[|steps| - 1])
  }

  /** The file a batch was staged from. */
  function FileOf(batch: Batch): File {
    seq(|batch.rows|, i requires 0 <= i < |batch.rows| =>
      if batch.rows[i].key.Some? then Some(batch.rows[i].key.value.source) else None)
  }

  /** Stored by some committed file. */
  predicate Committed(d: Desk, key: Key) {
    exists id :: 0 <= id < |d.batches| && d.batches[id].status == Completed && InFile(FileOf(d.batches[id]), key)
  }

  predicate RowOk(stored: seq<Key>, batch: Batch, i: nat)
    requires i < |batch.rows|
  {
    var row := batch.rows[i];
    && row.key == KeyAt(FileOf(batch), i)
    && (row.key.Some? ==>
          (row.status == Valid && batch.status == Previewed)
              || (row.status in {Duplicate, Imported} && row.key.value in stored))
  }

  predicate BatchOk(stored: seq<Key>, batch: Batch) {
    forall i :: 0 <= i < |batch.rows| ==> RowOk(stored, batch, i)
  }

  /** Nothing is stored twice, and what is stored is exactly the union of the committed files. */
  ghost predicate DeskOk(d: Desk) {
    && StoredOnce(d.stored)
    && (forall batch <- d.batches :: BatchOk(d.stored, batch))
    && (forall key :: key in d.stored <==> Committed(d, key))
  }

  lemma {:induction false} KeyOfRow(file: File, key: Key) returns (i: nat)
    requires InFile(file, key)
    ensures i < |file| && KeyAt(file, i) == Some(key)
  {
    var n := |file| - 1;
    if InFile(file[..n], key) {
      i := KeyOfRow(file[..n], key);
      assert file[..n][..i + 1] == file[..i + 1];
    } else {
      i := n;
      assert file[..n + 1] == file;
    }
  }

  lemma {:induction false} KeyAtInFile(file: File, i: nat, n: nat)
    requires i < n <= |file| && file[i].Some?
    ensures InFile(file[..n], KeyAt(file, i).value)
    decreases n
  {
    var p := file[i].value;
    assert file[..n][..n - 1] == file[..n - 1];
    if i < n - 1 {
      KeyAtInFile(file, i, n - 1);
    }
  }

  lemma StagedBatch(stored: seq<Key>, file: File)
    ensures BatchOk(stored, Batch(Stage(stored, file), Previewed))
        && FileOf(Batch(Stage(stored, file), Previewed)) == file
  {
    var batch := Batch(Stage(stored, file), Previewed);
    assert FileOf(batch) == file;
  }

  lemma PreviewKeeps(d: Desk, file: File)
    requires DeskOk(d)
    ensures DeskOk(Preview(d, file))
  {
    StagedBatch(d.stored, file);
    var e := Preview(d, file);
    forall key ensures key in e.stored <==> Committed(e, key) {
      if Committed(d, key) {
        var id :| 0 <= id < |d.batches| && d.batches[id].status == Completed && InFile(FileOf(d.batches[id]), key);
        assert e.batches[id] == d.batches[id];
      }
    }
  }

  /** A commit stores every key of the file its batch was staged from: the valid ones now, the
      duplicates since some earlier commit. */
  lemma CommitStores(d: Desk, id: nat, key: Key)
    requires DeskOk(d) && Commit(d, id).Ok?
    ensures var batch := d.batches[id];
            key in Commit(d, id).value.stored <==> key in d.stored || InFile(FileOf(batch), key)
  {
    var batch := d.batches[id];
    var file := FileOf(batch);
    assert batch in d.batches;
    InsertHolds(d.stored, ValidKeys(batch.rows));
    if InFile(file, key) {
      var i := KeyOfRow(file, key);
      assert RowOk(d.stored, batch, i);
      if batch.rows[i].status == Valid { ValidIsIn(batch.rows, i); }
    }
    if key in ValidKeys(batch.rows) {
      OnlyValid(batch.rows, key);
      var i :| 0 <= i < |batch.rows| && batch.rows[i] == Row(Some(key), Valid);
      assert RowOk(d.stored, batch, i);
      KeyAtInFile(file, i, |file|);
      assert file[..|file|] == file;
    }
  }

  lemma SettledBatch(d: Desk, id: nat)
    requires DeskOk(d) && Commit(d, id).Ok?
    ensures var e := Commit(d, id).value;
            BatchOk(e.stored, e.batches[id]) && FileOf(e.batches[id]) == FileOf(d.batches[id])
  {
    var e, batch := Commit(d, id).value, d.batches[id];
    assert batch in d.batches;
    var settled := e.batches[id];
    assert FileOf(settled) == FileOf(batch);
    InsertHolds(d.stored, ValidKeys(batch.rows));
    forall i | 0 <= i < |settled.rows| ensures RowOk(e.stored, settled, i) {
      assert RowOk(d.stored, batch, i);
      if batch.rows[i].status == Valid && batch.rows[i].key.Some? { ValidIsIn(batch.rows, i); }
    }
  }

  lemma CommitKeeps(d: Desk, id: nat)
    requires DeskOk(d) && Commit(d, id).Ok?
    ensures DeskOk(Commit(d, id).value)
  {
    var e := Commit(d, id).value;
    InsertHolds(d.stored, ValidKeys(d.batches[id].rows));
    SettledBatch(d, id);
    forall batch <- e.batches ensures BatchOk(e.stored, batch) {
      if batch != e.batches[id] {
        assert batch in d.batches;
        StillOk(d.stored, e.stored, batch);
      }
    }
    forall key ensures key in e.stored <==> Committed(e, key) {
      CommitStores(d, id, key);
      CommittedGrows(d, e, id, key);
    }
  }

  lemma StillOk(stored: seq<Key>, more: seq<Key>, batch: Batch)
    requires BatchOk(stored, batch) && forall key <- stored :: key in more
    ensures BatchOk(more, batch)
  {
    forall i | 0 <= i < |batch.rows| ensures RowOk(more, batch, i) { assert RowOk(stored, batch, i); }
  }

  lemma CommittedGrows(d: Desk, e: Desk, id: nat, key: Key)
    requires id < |d.batches| && |e.batches| == |d.batches| && d.batches[id].status == Previewed
        && e.batches[id].status == Completed
    requires FileOf(e.batches[id]) == FileOf(d.batches[id])
    requires forall i :: 0 <= i < |d.batches| && i != id ==> e.batches[i] == d.batches[i]
    ensures Committed(e, key) <==> Committed(d, key) || InFile(FileOf(d.batches[id]), key)
  {
    if Committed(d, key) {
      var i :| 0 <= i < |d.batches| && d.batches[i].status == Completed && InFile(FileOf(d.batches[i]), key);
      assert e.batches[i] == d.batches[i];
    }
  }

  lemma {:induction false} RunKeeps(d: Desk, steps: seq<ImportStep>)
    requires DeskOk(d)
    ensures DeskOk(RunDesk(d, steps))
  {
    if steps != [] {
      var n := |steps| - 1;
      RunKeeps(d, steps[..n]);
      match steps[n]
      case PreviewFile(file) => PreviewKeeps(RunDesk(d, steps[..n]), file);
      case CommitBatch(id) => if Commit(RunDesk(d, steps[..n]), id).Ok? { CommitKeeps(RunDesk(d, steps[..n]), id); }
    }
  }

  // ----- Main results -----

  function Largest(d: Desk, n: nat, p: Print): nat
    requires n <= |d.batches|
  {
    if n == 0 then 0
    else
      var before, count := Largest(d, n - 1, p), Count(FileOf(d.batches[n - 1]), p);
      if d.batches[n - 1].status == Completed && count > before then count else before
  }

  function TimesStored(stored: seq<Key>, p: Print): nat {
    if stored == [] then 0 else TimesStored(stored[..|stored| - 1], p) + if stored[|stored| - 1].source == p then 1
    else 0
  }

  lemma {:induction false} LargestIsCommitted(d: Desk, n: nat, p: Print, k: nat)
    requires n <= |d.batches|
    ensures 1 <= k <= Largest(d, n, p)
       <==> exists id :: 0 <= id < n && d.batches[id].status == Completed && InFile(FileOf(d.batches[id]), Key(p, k))
  {
    if n > 0 {
      LargestIsCommitted(d, n - 1, p, k);
    }
  }

  lemma {:induction false} TimesAppend(a: seq<Key>, b: seq<Key>, p: Print)
    ensures TimesStored(a + b, p) == TimesStored(a, p) + TimesStored(b, p)
  {
    if b == [] {
      assert a + b == a;
    } else {
      assert (a + b)[..|a + b| - 1] == a + b[..|b| - 1];
      TimesAppend(a, b[..|b| - 1], p);
    }
  }

  lemma {:induction false} NeverStored(stored: seq<Key>, p: Print)
    requires forall key <- stored :: key.source != p
    ensures TimesStored(stored, p) == 0
  {
    if stored != [] {
      assert stored[|stored| - 1] in stored;
      NeverStored(stored[..|stored| - 1], p);
    }
  }

  /** Distinct keys numbered 1 to m are m rows. */
  lemma {:induction false} TimesIs(stored: seq<Key>, p: Print, m: nat)
    requires StoredOnce(stored) && forall k: nat :: Key(p, k) in stored <==> 1 <= k <= m
    ensures TimesStored(stored, p) == m
    decreases m
  {
    if m == 0 {
      forall key <- stored ensures key.source != p {
        assert key == Key(key.source, key.occurrence);
      }
      NeverStored(stored, p);
    } else {
      var i :| 0 <= i < |stored| && stored[i] == Key(p, m);
      var rest := stored[..i] + stored[i + 1..];
      forall k: nat ensures Key(p, k) in rest <==> 1 <= k <= m - 1 {
        assert Key(p, k) in stored <==> Key(p, k) in rest || k == m;
        assert Key(p, m) !in rest;
      }
      TimesIs(rest, p, m - 1);
      WithoutOne(stored, i, p);
    }
  }

  lemma WithoutOne(stored: seq<Key>, i: nat, p: Print)
    requires i < |stored| && stored[i].source == p
    ensures TimesStored(stored, p) == TimesStored(stored[..i] + stored[i + 1..], p) + 1
  {
    assert stored == stored[..i] + [stored[i]] + stored[i + 1..];
    TimesAppend(stored[..i] + [stored[i]], stored[i + 1..], p);
    TimesAppend(stored[..i], [stored[i]], p);
    TimesAppend(stored[..i], stored[i + 1..], p);
    assert [stored[i]][..0] == [];
  }

  /** Whatever the interleaving of previews and commits, what is stored is the union of the
      committed files, and each row is stored as many times as it occurs in the committed file
      where it occurs most. */
  lemma StoredIsUnionOfCommitted(steps: seq<ImportStep>, p: Print)
    ensures var d := RunDesk(Desk([], []), steps);
            && StoredOnce(d.stored) && (forall key :: key in d.stored <==> Committed(d, key))
            && TimesStored(d.stored, p) == Largest(d, |d.batches|, p)
  {
    RunKeeps(Desk([], []), steps);
    var d := RunDesk(Desk([], []), steps);
    forall k: nat ensures Key(p, k) in d.stored <==> 1 <= k <= Largest(d, |d.batches|, p) {
      LargestIsCommitted(d, |d.batches|, p, k);
    }
    TimesIs(d.stored, p, Largest(d, |d.batches|, p));
  }

  predicate Commits(d: Desk, file: File) {
    exists batch <- d.batches :: batch.status == Completed && FileOf(batch) == file
  }

  ghost predicate SameFiles(d: Desk, e: Desk) { forall file :: Commits(d, file) <==> Commits(e, file) }

  /** Two runs that commit the same files, in whatever order and however previewed, store the same. */
  lemma OrderDoesNotMatter(steps: seq<ImportStep>, other: seq<ImportStep>)
    requires var d, e := RunDesk(Desk([], []), steps), RunDesk(Desk([], []), other);
             SameFiles(d, e)
    ensures forall key :: key in RunDesk(Desk([], []), steps).stored <==> key in RunDesk(Desk([], []), other).stored
  {
    RunKeeps(Desk([], []), steps);
    RunKeeps(Desk([], []), other);
    var d, e := RunDesk(Desk([], []), steps), RunDesk(Desk([], []), other);
    assert SameFiles(d, e);
    forall key ensures Committed(d, key) <==> Committed(e, key) {
      if Committed(d, key) {
        SharedFile(d, e, key);
      }
      if Committed(e, key) {
        SharedFile(e, d, key);
      }
    }
  }

  lemma SharedFile(d: Desk, e: Desk, key: Key)
    requires Committed(d, key)
    requires SameFiles(d, e) || SameFiles(e, d)
    ensures Committed(e, key)
  {
    var id :| 0 <= id < |d.batches| && d.batches[id].status == Completed && InFile(FileOf(d.batches[id]), key);
    assert d.batches[id] in d.batches && Commits(d, FileOf(d.batches[id]));
    var batch :| batch in e.batches && batch.status == Completed && FileOf(batch) == FileOf(d.batches[id]);
  }

  lemma {:induction false} NothingValid(rows: seq<Row>)
    requires forall i :: 0 <= i < |rows| ==> rows[i].status != Valid
    ensures ValidKeys(rows) == []
  {
    if rows != [] {
      NothingValid(rows[..|rows| - 1]);
    }
  }

  /** Previewing a committed file again finds nothing valid, and its commit is refused. */
  lemma ReimportAddsNothing(steps: seq<ImportStep>, id: nat)
    requires var d := RunDesk(Desk([], []), steps); id < |d.batches| && d.batches[id].status == Completed
    ensures var d := RunDesk(Desk([], []), steps);
            var e := Preview(d, FileOf(d.batches[id]));
            && (forall row <- e.batches[|d.batches|].rows :: row.status != Valid)
            && Commit(e, |d.batches|) == Err(BadRequest)
  {
    RunKeeps(Desk([], []), steps);
    var d := RunDesk(Desk([], []), steps);
    var file := FileOf(d.batches[id]);
    var rows := Stage(d.stored, file);
    forall i | 0 <= i < |rows| ensures rows[i].status != Valid {
      if file[i].Some? {
        KeyAtInFile(file, i, |file|);
        assert file[..|file|] == file;
        assert Committed(d, KeyAt(file, i).value);
      }
    }
    NothingValid(rows);
  }
}
