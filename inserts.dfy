/** The insert strategies the benchmark compares, the row-count validation
    that follows them, and the benchmark loop that drives one strategy.

    Every bind and every exec inside the loops is shown to succeed (the
    `assert`s after each call), so the error handler around an iteration is
    never entered on these loops. */
module Inserts {
  import opened Rows
  import opened Sqlite
  import opened Batching

  /** The value bound for column `c` of row `r`. */
  function FieldValue(r: Row, c: Column): Value {
    match c
    case PathColumn => Text(r.path)
    case XColumn => Integer(r.x)
    case YColumn => Real(r.y)
    case ZColumn => RealFromFloat(r.z)
  }

  /** The table row that inserting `r` stores. */
  function Stored(r: Row): TableRow {
    TableRow(FieldValue(r, PathColumn), FieldValue(r, XColumn), FieldValue(r, YColumn), FieldValue(r, ZColumn))
  }

  function StoredRows(rows: seq<Row>): (t: seq<TableRow>)
    ensures |t| == |rows|
  {
    seq(|rows|, i requires 0 <= i < |rows| => Stored(rows[i]))
  }

  lemma StoredRowsAppend(a: seq<Row>, b: seq<Row>)
    ensures StoredRows(a + b) == StoredRows(a) + StoredRows(b)
  {
    assert forall i :: 0 <= i < |a + b| ==> StoredRows(a + b)[i] == (StoredRows(a) + StoredRows(b))[i];
  }

  /** The stored table determines the rows it came from. */
  lemma StoredRowsInjective(a: seq<Row>, b: seq<Row>)
    requires StoredRows(a) == StoredRows(b)
    ensures a == b
  {
    forall i | 0 <= i < |a|
      ensures a[i] == b[i]
    {
      assert StoredRows(a)[i] == StoredRows(b)[i];
    }
  }

  /** A bind array whose k groups hold rows data[i .. i + k] inserts exactly
      those rows, and none of them violates the `not null` constraint. */
  lemma BoundBatch(b: seq<Value>, data: seq<Row>, i: nat, k: nat)
    requires |b| == 4 * k && i + k <= |data|
    requires forall j :: 0 <= j < k ==> GroupAt(b, j) == Stored(data[i + j])
    ensures Groups(b) == StoredRows(data[i..i + k])
    ensures Insertable(Groups(b))
  {
    assert |b| / 4 == k;
    assert forall j :: 0 <= j < k ==> Groups(b)[j] == StoredRows(data[i..i + k])[j];
  }

  /** The `singleInsert(j)` step: binds the fields path, x, y, z of row
      `data[i + j]` to parameters 4j+1, 4j+2, 4j+3, 4j+4. */
  method BindRow(stmt: Statement, data: seq<Row>, i: nat, j: nat) returns (ok: bool)
    requires i + j < |data|
    modifies stmt.binds
    ensures ok <==> !stmt.done && 4 * j + 4 <= stmt.binds.Length
    ensures ok ==> GroupAt(stmt.binds[..], j) == Stored(data[i + j])
    ensures ok ==> forall s :: 0 <= s < stmt.binds.Length && !(4 * j <= s < 4 * j + 4) ==>
                                stmt.binds[s] == old(stmt.binds[s])
  {
    var r := data[i + j];
    ok := stmt.Bind(Slot(j, PathColumn), FieldValue(r, PathColumn));
    if ok {
      ok := stmt.Bind(Slot(j, XColumn), FieldValue(r, XColumn));
    }
    if ok {
      ok := stmt.Bind(Slot(j, YColumn), FieldValue(r, YColumn));
    }
    if ok {
      ok := stmt.Bind(Slot(j, ZColumn), FieldValue(r, ZColumn));
    }
  }

  /** The inner loop `for (j = 0; j < k; ++j) singleInsert(j)`: binds the k
      rows starting at `data[i]` to the k groups of the statement. */
  method BindBatch(stmt: Statement, data: seq<Row>, i: nat)
    requires stmt.Valid() && !stmt.done && i + stmt.width <= |data|
    modifies stmt.binds
    ensures Groups(stmt.binds[..]) == StoredRows(data[i..i + stmt.width])
    ensures Insertable(Groups(stmt.binds[..]))
  {
    var k := stmt.width;
    var j := 0;
    while j < k
      invariant j <= k
      invariant forall j' :: 0 <= j' < j ==> GroupAt(stmt.binds[..], j') == Stored(data[i + j'])
    {
      ghost var before := stmt.binds[..];
      var bound := BindRow(stmt, data, i, j);
      assert bound;
      forall j' | 0 <= j' < j
        ensures GroupAt(stmt.binds[..], j') == GroupAt(before, j')
      {
        assert Slot(j', ZColumn) <= 4 * j;
      }
      j := j + 1;
    }
    BoundBatch(stmt.binds[..], data, i, k);
  }

  /** The body of a loop that does not reuse its statement: prepare a
      statement for `k` rows, bind rows data[i .. i + k] and execute it. */
  method PrepareBindExec(db: Database, data: seq<Row>, i: nat, k: nat)
    requires 1 <= k && i + k <= |data|
    modifies db
    ensures db.rows == old(db.rows) + StoredRows(data[i..i + k])
  {
    var stmt := new Statement(db, k);
    BindBatch(stmt, data, i);
    var ran := stmt.Exec();
    assert ran;
  }

  /** The body of a loop that reuses its prepared statement: bind rows
      data[i .. i + width], execute, then reset for the next round. */
  method BindExecReset(stmt: Statement, data: seq<Row>, i: nat)
    requires stmt.Valid() && !stmt.done && i + stmt.width <= |data|
    modifies stmt`done, stmt.binds, stmt.db
    ensures !stmt.done
    ensures stmt.db.rows == old(stmt.db.rows) + StoredRows(data[i..i + stmt.width])
  {
    BindBatch(stmt, data, i);
    var ran := stmt.Exec();
    assert ran;
    stmt.Reset();
  }

  /** Single-row inserts, preparing a new statement for every row. */
  method InsertSingleNoPrepare(db: Database, data: seq<Row>) returns (executed: nat)
    modifies db
    ensures executed == |data|
    ensures db.rows == old(db.rows) + StoredRows(data)
  {
    executed := 0;
    var i := 0;
    while i < |data|
      invariant i <= |data| && executed == i
      invariant db.rows == old(db.rows) + StoredRows(data[..i])
    {
      PrepareBindExec(db, data, i, 1);
      StoredRowsAppend(data[..i], data[i..i + 1]);
      assert data[..i] + data[i..i + 1] == data[..i + 1];
      i := i + 1;
      executed := executed + 1;
    }
    assert data[..i] == data;
  }

  /** Single-row inserts through one prepared statement, rebound, executed
      and reset for every row. */
  method InsertSinglePrepared(db: Database, data: seq<Row>) returns (executed: nat)
    modifies db
    ensures executed == |data|
    ensures db.rows == old(db.rows) + StoredRows(data)
  {
    var stmt := new Statement(db, 1);
    executed := 0;
    var i := 0;
    while i < |data|
      invariant i <= |data| && executed == i
      invariant stmt.Valid() && stmt.db == db && stmt.width == 1 && !stmt.done
      invariant db.rows == old(db.rows) + StoredRows(data[..i])
    {
      BindExecReset(stmt, data, i);
      StoredRowsAppend(data[..i], data[i..i + 1]);
      assert data[..i] + data[i..i + 1] == data[..i + 1];
      i := i + 1;
      executed := executed + 1;
    }
    assert data[..i] == data;
  }

  /** One more whole batch starting at `i`: the batches still ahead of the
      loop start with rows i .. i + k - 1, and those rows extend the prefix
      already stored. */
  lemma NextBatch(data: seq<Row>, k: nat, i: nat)
    requires 1 <= k && i + k <= |data|
    ensures |Batches(data[i..], k)| == 1 + |Batches(data[i + k..], k)|
    ensures Flatten(Batches(data[i..], k)) == data[i..i + k] + Flatten(Batches(data[i + k..], k))
    ensures StoredRows(data[..i + k]) == StoredRows(data[..i]) + StoredRows(data[i..i + k])
    ensures data[..i] + Flatten(Batches(data[i..], k)) == data[..i + k] + Flatten(Batches(data[i + k..], k))
  {
    assert data[i..][..k] == data[i..i + k];
    assert data[i..][k..] == data[i + k..];
    assert data[..i] + data[i..i + k] == data[..i + k];
    StoredRowsAppend(data[..i], data[i..i + k]);
  }

  /** Fewer than `k` rows left: the loop guard fails and no batch remains. */
  lemma NoBatchLeft(data: seq<Row>, k: nat, i: nat)
    requires 1 <= k && i <= |data| < i + k
    ensures Batches(data[i..], k) == [] && Flatten(Batches(data[i..], k)) == []
  {
  }

  /** Multi-row inserts of width `k`, preparing a new statement per batch. */
  method InsertBatchedNoPrepare(db: Database, data: seq<Row>, k: nat) returns (executed: nat)
    requires 1 <= k
    modifies db
    ensures executed == |Batches(data, k)|
    ensures db.rows == old(db.rows) + StoredRows(Flatten(Batches(data, k)))
  {
    var i := 0;
    executed := 0;
    while i + (k - 1) < |data|
      invariant i <= |data|
      invariant |Batches(data, k)| == executed + |Batches(data[i..], k)|
      invariant Flatten(Batches(data, k)) == data[..i] + Flatten(Batches(data[i..], k))
      invariant db.rows == old(db.rows) + StoredRows(data[..i])
    {
      PrepareBindExec(db, data, i, k);
      NextBatch(data, k, i);
      i := i + k;
      executed := executed + 1;
    }
    NoBatchLeft(data, k, i);
  }

  /** Multi-row inserts of width `k` through one prepared statement, rebound,
      executed and reset for every batch. */
  method InsertBatchedPrepared(db: Database, data: seq<Row>, k: nat) returns (executed: nat)
    requires 1 <= k
    modifies db
    ensures executed == |Batches(data, k)|
    ensures db.rows == old(db.rows) + StoredRows(Flatten(Batches(data, k)))
  {
    var stmt := new Statement(db, k);
    var i := 0;
    executed := 0;
    while i + (k - 1) < |data|
      invariant i <= |data|
      invariant stmt.Valid() && stmt.db == db && stmt.width == k && !stmt.done
      invariant |Batches(data, k)| == executed + |Batches(data[i..], k)|
      invariant Flatten(Batches(data, k)) == data[..i] + Flatten(Batches(data[i..], k))
      invariant db.rows == old(db.rows) + StoredRows(data[..i])
    {
      BindExecReset(stmt, data, i);
      NextBatch(data, k, i);
      i := i + k;
      executed := executed + 1;
    }
    NoBatchLeft(data, k, i);
  }

  /** `validateDb`: steps through the result of `select count(*)` and
      accepts exactly when the count it reports is N. */
  method ValidateDb(db: Database) returns (valid: bool)
    ensures valid <==> |db.rows| == N
  {
    var results := [|db.rows|];
    valid := true;
    var n := 0;
    while n < |results|
      invariant n <= |results| && valid
      invariant forall m :: 0 <= m < n ==> results[m] == N
    {
      if results[n] != N {
        valid := false;
        return;
      }
      n := n + 1;
    }
    assert results[0] == |db.rows|;
  }

  /** The insert strategies: single-row without and with a prepared
      statement, and multi-row without and with a prepared statement. */
  datatype Variant = SingleNoPrepare | SinglePrepared | MultiNoPrepare | MultiPrepared(width: nat)

  /** Rows per executed insert statement. */
  function RowsPerStatement(v: Variant): (w: nat)
    ensures v in Benchmarks ==> 1 <= w <= 32 && N % w == 0
  {
    match v
    case SingleNoPrepare => 1
    case SinglePrepared => 1
    case MultiNoPrepare => 8
    case MultiPrepared(w) => w
  }

  /** The six registered benchmarks. */
  const Benchmarks: set<Variant> :=
    {SingleNoPrepare, SinglePrepared, MultiNoPrepare, MultiPrepared(8), MultiPrepared(16), MultiPrepared(32)}

  /** One timed iteration: a fresh database with an empty table, one
      strategy's inserts, then `validateDb`. Reports the statements executed,
      the final row count and the validation verdict. */
  method RunIteration(data: seq<Row>, v: Variant) returns (executed: nat, count: nat, valid: bool)
    requires 1 <= RowsPerStatement(v)
    ensures executed == |data| / RowsPerStatement(v)
    ensures count == |data| - |data| % RowsPerStatement(v)
    ensures valid <==> count == N
  {
    var db := new Database();
    var k := RowsPerStatement(v);
    match v {
      case SingleNoPrepare =>
        executed := InsertSingleNoPrepare(db, data);
        WidthOne(data);
      case SinglePrepared =>
        executed := InsertSinglePrepared(db, data);
        WidthOne(data);
      case MultiNoPrepare =>
        executed := InsertBatchedNoPrepare(db, data, k);
      case MultiPrepared(_) =>
        executed := InsertBatchedPrepared(db, data, k);
    }
    BatchCount(data, k);
    DroppedTail(data, k);
    count := |db.rows|;
    valid := ValidateDb(db);
  }

  /** One benchmark: the dataset is generated once from a fresh engine
      seeded with `Seed`, whose draws are `src`, then `iterations` timed iterations run, each on a
      fresh database. Returns how many iterations passed `validateDb`. */
  method RunBenchmark(src: Source, v: Variant, iterations: nat) returns (passed: nat)
    requires 1 <= RowsPerStatement(v)
    ensures passed == if N % RowsPerStatement(v) == 0 then iterations else 0
  {
    var device := new Device(src);
    var data := GenerateData(device);
    passed := 0;
    var t := 0;
    while t < iterations
      invariant t <= iterations
      invariant passed == if N % RowsPerStatement(v) == 0 then t else 0
    {
      var executed, count, valid := RunIteration(data, v);
      if valid {
        passed := passed + 1;
      }
      t := t + 1;
    }
  }

  /** Every registered benchmark inserts the whole N-row dataset, in order. */
  lemma {:induction false} EveryBenchmarkInsertsAll(data: seq<Row>, v: Variant)
    requires |data| == N && v in Benchmarks
    ensures Flatten(Batches(data, RowsPerStatement(v))) == data
    ensures |Batches(data, RowsPerStatement(v))| == N / RowsPerStatement(v)
  {
    BatchesCoverPrefix(data, RowsPerStatement(v));
    BatchCount(data, RowsPerStatement(v));
  }

  /** Width 8 over the N-row dataset: 128 statements and no row left out. */
  lemma {:induction false} Width8Dataset(data: seq<Row>)
    requires |data| == N
    ensures |Batches(data, 8)| == 128
    ensures Flatten(Batches(data, 8)) == data
  {
    BatchesCoverPrefix(data, 8);
    BatchCount(data, 8);
  }

  /** Width 32 over 1000 rows: 31 statements insert 992 rows; the last 8
      rows are never inserted. */
  lemma {:induction false} Width32ThousandRows(data: seq<Row>)
    requires |data| == 1000
    ensures |Batches(data, 32)| == 31
    ensures Flatten(Batches(data, 32)) == data[..992]
  {
    BatchesCoverPrefix(data, 32);
    BatchCount(data, 32);
  }
}
