/** The part of the embedded database the benchmark relies on: values bound
    to positional parameters, the positional slot layout of a multi-row
    insert, the insert statement text, and prepared statements that append
    their bound rows to the destination table. */
module Sqlite {
  import opened Rows

  /** A value bound to a statement parameter. A parameter that was never
      bound reads as `Null`. A `float` goes through the `double` overload of
      bind; the widening is exact, so the model keeps the float itself. */
  datatype Value = Null | Text(s: string) | Integer(i: Int32) | Real(d: Double) | RealFromFloat(f: Float)

  /** One row of `test_table (path text not null, x int, y real, z real)`. */
  datatype TableRow = TableRow(path: Value, x: Value, y: Value, z: Value)

  /** The four columns, in declaration order. */
  datatype Column = PathColumn | XColumn | YColumn | ZColumn

  const AllColumns: set<Column> := {PathColumn, XColumn, YColumn, ZColumn}

  function Offset(c: Column): (o: nat)
    ensures o < 4
  {
    match c
    case PathColumn => 0
    case XColumn => 1
    case YColumn => 2
    case ZColumn => 3
  }

  function ColumnAt(o: nat): (c: Column)
    requires o < 4
    ensures Offset(c) == o
  {
    if o == 0 then PathColumn else if o == 1 then XColumn else if o == 2 then YColumn else ZColumn
  }

  /** The 1-based parameter index that receives column `c` of the row at
      batch position `j`. */
  function Slot(j: nat, c: Column): (s: nat)
    ensures 4 * j + 1 <= s <= 4 * j + 4
  {
    j * 4 + Offset(c) + 1
  }

  /** The batch position and column that a 1-based parameter index belongs to. */
  function SlotOwner(s: nat): (jc: (nat, Column))
    requires 1 <= s
  {
    ((s - 1) / 4, ColumnAt((s - 1) % 4))
  }

  /** Slots are pairwise distinct: each (position, column) pair has its own slot. */
  lemma SlotInjective(j: nat, c: Column, j': nat, c': Column)
    requires Slot(j, c) == Slot(j', c')
    ensures j == j' && c == c'
  {
    assert Offset(c) == Offset(c');
  }

  /** SlotOwner inverts Slot in both directions. */
  lemma SlotOwnerInverse(j: nat, c: Column, s: nat)
    requires 1 <= s
    ensures SlotOwner(Slot(j, c)) == (j, c)
    ensures Slot(SlotOwner(s).0, SlotOwner(s).1) == s
  {
  }

  /** The slots the rows of a batch of `k` rows are bound to. */
  function BatchSlots(k: nat): set<nat> {
    set j, c | 0 <= j < k && c in AllColumns :: Slot(j, c)
  }

  /** The slots of a batch of `k` rows are exactly the parameters 1..4k. */
  lemma SlotsOfBatch(k: nat)
    ensures forall s :: s in BatchSlots(k) <==> 1 <= s <= 4 * k
  {
    forall s | 1 <= s <= 4 * k
      ensures s in BatchSlots(k)
    {
      SlotOwnerInverse(0, PathColumn, s);
      var (j, c) := SlotOwner(s);
      assert c in AllColumns;
      assert Slot(j, c) == s;
    }
  }

  // ---------------------------------------------------------------------
  // Statement text

  const InsertPrefix: string := "insert into test_table values "

  /** One parenthesised group of four placeholders. */
  const Tuple: string := "(?, ?, ?, ?)"

  /** `k` groups separated by ", ". */
  function Tuples(k: nat): string {
    if k == 0 then "" else if k == 1 then Tuple else Tuple + ", " + Tuples(k - 1)
  }

  /** The text of the insert statement that inserts `k` rows at once. */
  function InsertSql(k: nat): string {
    InsertPrefix + Tuples(k)
  }

  /** Number of anonymous `?` parameters in a statement text. */
  function Placeholders(s: string): nat {
    if s == [] then 0 else (if s[0] == '?' then 1 else 0) + Placeholders(s[1..])
  }

  lemma {:induction false} PlaceholdersAppend(a: string, b: string)
    ensures Placeholders(a + b) == Placeholders(a) + Placeholders(b)
  {
    if a == [] {
      assert a + b == b;
    } else {
      assert (a + b)[1..] == a[1..] + b;
      PlaceholdersAppend(a[1..], b);
    }
  }

  lemma {:induction false} NoPlaceholders(s: string)
    requires '?' !in s
    ensures Placeholders(s) == 0
  {
    if s != [] {
      assert s[0] in s;
      NoPlaceholders(s[1..]);
    }
  }

  lemma PrefixPlaceholders()
    ensures Placeholders(InsertPrefix) == 0
  {
    NoPlaceholders(InsertPrefix);
  }

  /** A statement inserting `k` rows declares exactly 4k parameters. */
  lemma {:induction false} InsertSqlPlaceholders(k: nat)
    ensures Placeholders(InsertSql(k)) == 4 * k
  {
    PrefixPlaceholders();
    PlaceholdersAppend(InsertPrefix, Tuples(k));
    TuplesPlaceholders(k);
  }

  lemma TuplePlaceholders()
    ensures Placeholders(Tuple) == 4 && Placeholders(", ") == 0
  {
    NoPlaceholders(", ");
  }

  lemma {:induction false} TuplesPlaceholders(k: nat)
    ensures Placeholders(Tuples(k)) == 4 * k
  {
    TuplePlaceholders();
    if k > 1 {
      PlaceholdersAppend(Tuple + ", ", Tuples(k - 1));
      PlaceholdersAppend(Tuple, ", ");
      TuplesPlaceholders(k - 1);
    }
  }

  /** Splitting a run of groups: m groups, a separator, then n groups. */
  lemma {:induction false} TuplesSplit(m: nat, n: nat)
    requires 1 <= m && 1 <= n
    ensures Tuples(m + n) == Tuples(m) + ", " + Tuples(n)
    decreases m
  {
    if m > 1 {
      TuplesSplit(m - 1, n);
      assert Tuples(m + n) == Tuple + ", " + Tuples(m - 1 + n);
    }
  }

  /** One line of three groups as the source spells it, separator included. */
  const TripleLine: string := "(?, ?, ?, ?), (?, ?, ?, ?), (?, ?, ?, ?), "

  lemma TripleLineText()
    ensures Tuples(3) + ", " == TripleLine
  {
  }

  lemma PairText()
    ensures Tuples(2) == "(?, ?, ?, ?), (?, ?, ?, ?)"
  {
  }

  /** `a` followed by `n` source lines of three groups each. */
  function Lines(a: string, n: nat): string {
    if n == 0 then a else Lines(a, n - 1) + TripleLine
  }

  /** `n` lines of three groups followed by the last `r` groups spell the
      same text as `3n + r` groups. */
  lemma {:induction false} LinesThenTuples(a: string, n: nat, r: nat)
    requires 1 <= r
    ensures Lines(a, n) + Tuples(r) == a + Tuples(3 * n + r)
  {
    if n > 0 {
      TuplesSplit(3, r);
      TripleLineText();
      assert Lines(a, n) + Tuples(r) == Lines(a, n - 1) + (TripleLine + Tuples(r));
      LinesThenTuples(a, n - 1, r + 3);
    }
  }

  /** The single-row statement is the one-group case of `InsertSql`. */
  lemma SingleRowText()
    ensures InsertSql(1) == "insert into test_table values (?, ?, ?, ?)"
  {
  }

  /** The eight-row statement, written as its source literals concatenate. */
  lemma EightRowText()
    ensures InsertSql(8) ==
      "insert into test_table values "
      + "(?, ?, ?, ?), (?, ?, ?, ?), (?, ?, ?, ?), "
      + "(?, ?, ?, ?), (?, ?, ?, ?), (?, ?, ?, ?), "
      + "(?, ?, ?, ?), (?, ?, ?, ?)"
  {
    LinesThenTuples(InsertPrefix, 2, 2);
    PairText();
  }

  /** The sixteen-row statement, written as its source literals concatenate. */
  lemma SixteenRowText()
    ensures InsertSql(16) ==
      "insert into test_table values "
      + "(?, ?, ?, ?), (?, ?, ?, ?), (?, ?, ?, ?), "
      + "(?, ?, ?, ?), (?, ?, ?, ?), (?, ?, ?, ?), "
      + "(?, ?, ?, ?), (?, ?, ?, ?), (?, ?, ?, ?), "
      + "(?, ?, ?, ?), (?, ?, ?, ?), (?, ?, ?, ?), "
      + "(?, ?, ?, ?), (?, ?, ?, ?), (?, ?, ?, ?), "
      + "(?, ?, ?, ?)"
  {
    LinesThenTuples(InsertPrefix, 5, 1);
  }

  /** The thirty-two-row statement, written as its source literals concatenate. */
  lemma ThirtyTwoRowText()
    ensures InsertSql(32) ==
      "insert into test_table values "
      + "(?, ?, ?, ?), (?, ?, ?, ?), (?, ?, ?, ?), "
      + "(?, ?, ?, ?), (?, ?, ?, ?), (?, ?, ?, ?), "
      + "(?, ?, ?, ?), (?, ?, ?, ?), (?, ?, ?, ?), "
      + "(?, ?, ?, ?), (?, ?, ?, ?), (?, ?, ?, ?), "
      + "(?, ?, ?, ?), (?, ?, ?, ?), (?, ?, ?, ?), "
      + "(?, ?, ?, ?), (?, ?, ?, ?), (?, ?, ?, ?), "
      + "(?, ?, ?, ?), (?, ?, ?, ?), (?, ?, ?, ?), "
      + "(?, ?, ?, ?), (?, ?, ?, ?), (?, ?, ?, ?), "
      + "(?, ?, ?, ?), (?, ?, ?, ?), (?, ?, ?, ?), "
      + "(?, ?, ?, ?), (?, ?, ?, ?), (?, ?, ?, ?), "
      + "(?, ?, ?, ?), (?, ?, ?, ?)"
  {
    LinesThenTuples(InsertPrefix, 10, 2);
    PairText();
  }

  // ---------------------------------------------------------------------
  // Bound rows

  /** The row a statement's bind array holds at batch position `j`. */
  function GroupAt(b: seq<Value>, j: nat): TableRow
    requires 4 * j + 4 <= |b|
  {
    TableRow(b[Slot(j, PathColumn) - 1], b[Slot(j, XColumn) - 1],
             b[Slot(j, YColumn) - 1], b[Slot(j, ZColumn) - 1])
  }

  /** The rows a bind array of 4k values inserts, in batch order. */
  function Groups(b: seq<Value>): (g: seq<TableRow>)
    ensures |g| == |b| / 4
  {
    seq(|b| / 4, j requires 0 <= j < |b| / 4 => GroupAt(b, j))
  }

  /** The `not null` constraint on `path`. */
  predicate Insertable(rows: seq<TableRow>) {
    forall j :: 0 <= j < |rows| ==> rows[j].path != Null
  }

  /** The database file: the rows of `test_table`. */
  class Database {
    var rows: seq<TableRow>

    /** A freshly created database whose table has just been created. */
    constructor ()
      ensures rows == []
    {
      rows := [];
    }
  }

  /** A prepared `insert` statement with `width` groups of four parameters. */
  class Statement {
    const db: Database
    const width: nat
    const sql: string
    /** Parameter values; parameter s (1-based) lives at index s - 1. */
    const binds: array<Value>
    /** Whether the statement has run to completion since it was last reset. */
    var done: bool

    ghost predicate Valid()
      reads this
    {
      sql == InsertSql(width) && binds.Length == Placeholders(sql) == 4 * width
    }

    /** Prepares the statement: every parameter starts out unbound. */
    constructor (db: Database, width: nat)
      requires 1 <= width
      ensures Valid() && this.db == db && this.width == width && fresh(binds)
      ensures !done && forall s :: 0 <= s < binds.Length ==> binds[s] == Null
    {
      InsertSqlPlaceholders(width);
      this.db := db;
      this.width := width;
      sql := InsertSql(width);
      binds := new Value[Placeholders(InsertSql(width))](_ => Null);
      done := false;
    }

    /** Binds `v` to the 1-based parameter `slot`. Fails, changing nothing,
        when the slot is out of range or the statement has run and was not
        reset. */
    method Bind(slot: int, v: Value) returns (ok: bool)
      modifies binds
      ensures ok <==> !done && 1 <= slot <= binds.Length
      ensures ok ==> binds[..] == old(binds[..])[slot - 1 := v]
      ensures !ok ==> binds[..] == old(binds[..])
    {
      ok := !done && 1 <= slot <= binds.Length;
      if ok {
        binds[slot - 1] := v;
      }
    }

    /** Runs the statement. It fails, inserting nothing, when it already ran
        without a reset or when a bound row has a NULL path; otherwise it
        appends all bound rows to the table at once. Either way the statement
        is halted afterwards and takes no binding until it is reset. */
    method Exec() returns (ok: bool)
      modifies this`done, db
      ensures ok <==> !old(done) && Insertable(Groups(binds[..]))
      ensures db.rows == if ok then old(db.rows) + Groups(binds[..]) else old(db.rows)
      ensures done
    {
      ok := !done && Insertable(Groups(binds[..]));
      if ok {
        db.rows := db.rows + Groups(binds[..]);
      }
      done := true;
    }

    /** Makes the statement runnable again; the bindings are kept. */
    method Reset()
      modifies this`done
      ensures !done
    {
      done := false;
    }
  }
}
