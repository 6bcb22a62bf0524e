# SQLite insert-batching benchmark, modelled in Dafny

The benchmark compares ways of inserting the same 1024-row dataset into a
fresh `test_table (path text not null, x int, y real, z real) strict`:
single-row inserts with a new statement per row or one prepared statement,
and multi-row inserts of 8, 16 or 32 rows per statement. The multi-row
variants either prepare a new statement per batch (width 8) or reuse one
prepared statement. After every timed iteration, `validateDb` checks the row
count against `N`.

This project models that insert protocol:

- `rows.dfy` (module `Rows`): the row record, `N`, the constant path, the
  random engine as a `Device` class whose draws come from a `Source`, and
  `GenerateData`, which pushes `N` drawn rows.
- `sqlite.dfy` (module `Sqlite`): bound values and table rows. It has the
  slot arithmetic of the `singleInsert` macro (`Slot`, `SlotOwner`) and the
  insert statement text with its placeholder count, with lemmas that the
  literals of the 1-, 8-, 16- and 32-row statements spell that text. It also has the
  `Database` and `Statement` classes. A statement owns a bind array of `4k`
  cells, and `Exec` appends its `k` bound rows to the table.
- `batching.dfy` (module `Batching`): a reference definition of the batches
  a loop `for (i = 0; i + (k-1) < size; i += k)` visits, with the lemmas
  about how many there are and which rows they cover.
- `inserts.dfy` (module `Inserts`): the `singleInsert` step, the insert
  loops of the six benchmarks (the batched ones take the width `k` as a
  parameter), `validateDb`, one timed iteration and one benchmark run.

Behaviour of the database binding layer that the loops depend on is part of
the model:

- Binding a parameter index outside `1..4k` fails.
- Binding on a statement that has run and was not reset fails.
- `exec` fails if the statement already ran without a reset.
- `exec` fails, inserting nothing, if a bound row has a NULL `path`.
- After `exec`, whether it succeeded or not, the statement is halted and
  takes no binding until it is reset.
- `reset` keeps the bindings.

The insert loops prove that every one of these calls succeeds. So the
`catch` handler is never reached from these loops.

Two details of the code are modelled as written:

- `std::uniform_int_distribution<int>` is default-constructed. It draws `x`
  from `[0, INT_MAX]`, not the whole signed range, so `x` has type
  `NonNegInt32`.
- `validateDb` compares the count with `N` for every variant, not with the
  number of rows the variant inserted. `RunIteration` states this. Every
  registered width divides 1024, so every benchmark passes
  (`EveryBenchmarkInsertsAll`, `RunBenchmark`).

## Model

| member | source | states |
|---|---|---|
| `Rows.Dataset` | main.cpp:22-35 | the generated dataset has exactly `n` rows, every `path` is the constant path, and every `x` lies in `[0, INT_MAX]` |
| `Rows.GenerateData` | main.cpp:22-35 | pushes `N` rows, each built from the next int, double and float draw in that order; the result is a function of the engine's draws alone, so the same seed gives the same dataset, and the engine has advanced by `3N` calls |
| `Rows.Device.constructor` | main.cpp:49 | a freshly seeded engine (also main.cpp:101, 162, 214, 267 and 323) has served no draws yet, so every benchmark starts from the same stream of values |
| `Rows.Device.NextInt` | main.cpp:30 | one call of the int distribution returns the draw at the engine's current position and advances the engine by one |
| `Rows.Device.NextDouble` | main.cpp:31 | one call of the double distribution returns the draw at the engine's current position and advances the engine by one |
| `Rows.Device.NextFloat` | main.cpp:32 | one call of the float distribution returns the draw at the engine's current position and advances the engine by one |
| `Sqlite.Slot` | main.cpp:153-159 | field `c` of batch position `j` goes to a parameter in `4j+1 .. 4j+4` |
| `Sqlite.SlotInjective` | main.cpp:153-159 | two (position, column) pairs share a slot only if they are equal, so the slots bound in one batch are pairwise distinct |
| `Sqlite.SlotOwnerInverse` | main.cpp:153-159 | mapping a slot back to its (position, column) pair inverts `Slot`, in both directions |
| `Sqlite.SlotsOfBatch` | main.cpp:153-159 | the slots bound for positions `0..k-1` are exactly the parameters `1..4k` |
| `Sqlite.InsertSqlPlaceholders` | main.cpp:188-192 | the `k`-row insert text (`insert into test_table values ` followed by `k` groups `(?, ?, ?, ?)` separated by `, `) declares exactly `4k` parameters |
| `Sqlite.TuplesSplit` | main.cpp:189-192 | a run of `m + n` placeholder groups is `m` groups, the separator `, `, then `n` groups |
| `Sqlite.LinesThenTuples` | main.cpp:240-243 | `n` source lines of three groups each, followed by `r` more groups, spell the same text as `3n + r` groups |
| `Sqlite.SingleRowText` | main.cpp:75-76 | the single-row insert text is the one-group statement text |
| `Sqlite.EightRowText` | main.cpp:188-192 | the eight-row insert text, as its string literals concatenate, is the eight-group statement text |
| `Sqlite.SixteenRowText` | main.cpp:292-299 | the sixteen-row insert text, as its string literals concatenate, is the sixteen-group statement text |
| `Sqlite.ThirtyTwoRowText` | main.cpp:348-360 | the thirty-two-row insert text, as its string literals concatenate, is the thirty-two-group statement text |
| `Sqlite.Statement.constructor` | main.cpp:239-243 | preparing the `k`-row insert gives a bind array of `4k` unbound (NULL) parameters and a statement that has not run |
| `Sqlite.Statement.Bind` | main.cpp:78-81 | binding sets exactly parameter `slot`; it fails and changes nothing when the slot is outside `1..4k` or the statement ran without a reset |
| `Sqlite.Statement.Exec` | main.cpp:83 | running appends all `k` bound rows at once; it fails and inserts nothing when it already ran without a reset or a bound `path` is NULL; either way the statement is halted until reset |
| `Sqlite.Statement.Reset` | main.cpp:137 | after a reset the statement can run again; the bindings are kept |
| `Sqlite.Database.constructor` | main.cpp:59-72 | the table of a freshly created database file is empty |
| `Batching.BatchCount` | main.cpp:245 | a width-`k` loop over `s` executes (length of `s`) / `k` statements |
| `Batching.BatchAt` | main.cpp:245-251 | batch number `b` holds exactly rows `b*k .. b*k+k-1`, all in bounds |
| `Batching.BatchesCoverPrefix` | main.cpp:362-368 | the executed batches, concatenated in loop order, are exactly the prefix of `s` without its last (length of `s`) mod `k` rows |
| `Batching.DroppedTail` | main.cpp:301 | the rows left out number (length of `s`) mod `k`, fewer than `k`, and there are none exactly when `k` divides the length of `s` |
| `Batching.WidthOne` | main.cpp:129-138 | a width-1 loop visits every row in order, so the single-row loops are the width-1 case |
| `Inserts.StoredRowsInjective` | main.cpp:74-84 | the stored table determines the rows inserted, so "the table holds the dataset's rows" is equality with the dataset |
| `Inserts.BindRow` | main.cpp:153-159 | `singleInsert(j)` stores path, x, y, z of row `data[i+j]` as the table row read from slots `4j+1..4j+4`; it touches no other parameter and succeeds exactly when the statement can be bound and `4j+4 <= 4k` |
| `Inserts.BindBatch` | main.cpp:194-195 | after the inner `j` loop the `k` bound rows are `data[i .. i+k]` in order, and none has a NULL path |
| `Inserts.PrepareBindExec` | main.cpp:188-197 | preparing, binding and running one statement appends rows `data[i .. i+k]` to the table |
| `Inserts.BindExecReset` | main.cpp:246-250 | one round of a reused prepared statement appends rows `data[i .. i+k]` and leaves the statement ready to be bound again |
| `Inserts.InsertSingleNoPrepare` | main.cpp:74-84 | executes one statement per row, and the table gains exactly the dataset's rows, in order |
| `Inserts.InsertSinglePrepared` | main.cpp:126-138 | executes one statement per row with one prepared statement, and the table gains exactly the dataset's rows, in order |
| `Inserts.InsertBatchedNoPrepare` | main.cpp:187-198 | executes one statement per whole batch, and the table gains exactly the rows of those batches in loop order; the trailing partial batch is never inserted |
| `Inserts.InsertBatchedPrepared` | main.cpp:245-251 | the same for one reused prepared statement of width `k` (the loops at main.cpp:301-307 and main.cpp:362-368 are `k` = 16 and 32) |
| `Inserts.RowsPerStatement` | main.cpp:186-194 | the rows each executed statement inserts; for each of the six registered benchmarks (widths 1, 1, 8, 8, 16 and 32) it is between 1 and 32 and divides `N` |
| `Inserts.ValidateDb` | main.cpp:37-46 | accepts exactly when the table's row count equals `N` |
| `Inserts.RunIteration` | main.cpp:57-94 | on a fresh database a variant of width `w` executes (length of `data`) / `w` statements and leaves the length of `data` minus (length of `data`) mod `w` rows, and validation accepts exactly when that count is `N` |
| `Inserts.RunBenchmark` | main.cpp:100-149 | with the dataset generated once, every iteration passes validation when `w` divides `N`, and none passes otherwise |
| `Inserts.EveryBenchmarkInsertsAll` | main.cpp:12 | for each of the six registered benchmarks over an `N`-row dataset, the executed batches are the whole dataset in order, numbering `N / w` |
| `Inserts.Width8Dataset` | main.cpp:187 | width 8 over 1024 rows executes 128 statements and leaves no row out |
| `Inserts.Width32ThousandRows` | main.cpp:362 | width 32 over 1000 rows executes 31 statements that insert the first 992 rows; the last 8 are never inserted |

## Left out

- SQLite internals are left out: opening and creating the file, `PRAGMA synchronous = 0`, `begin`/`end transaction`, `create table ... strict` and statement parsing. Only their effect is kept: a new database has an empty table, and `exec` appends the bound rows.
- STRICT column typing is not modelled. The only constraint checked is `not null` on `path`, because the loops only ever bind values of the declared column types.
- Transactions and rollback are not modelled. The loops are proved never to fail, so nothing is rolled back.
- `Rows.GenerateData`: the Mersenne Twister and the distributions are foreign library code. The n-th distribution call's value is taken from a `Source` oracle. How many engine words a call consumes is not modelled. The floating-point values are opaque bit patterns, so their `[0, 1)` range is not stated.
- `float` to `double` widening at bind time is kept as a separate `RealFromFloat` value rather than computed, because the widening is exact.
- The temporary directory, `tmpnam`, and removing the database file and directory are filesystem I/O. Each iteration gets a new `Database` object instead.
- The Google Benchmark harness is left out: the `state` loop's iteration count becomes a parameter, and timing is not modelled.
- The `catch` handler's `std::cerr` logging is left out, because the loops are proved never to raise.
- `assert(validateDb(...))` is modelled as a count of iterations that passed validation, not as process abort.
- `size_t` arithmetic in the loop guards `i + (k-1) < size` is modelled on unbounded integers. It cannot wrap for any dataset that fits in memory.
- `unsigned sz` narrowing of the count in `validateDb` is modelled on unbounded integers. Counts here are at most 1024.
