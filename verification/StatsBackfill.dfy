/** The log table, its rollup, and the backfill of rows older than the rollup
    (src/db/logs.ts, src/db/index.ts, src/db/stats.ts). */
module StatsBackfill {
  import opened Core
  import opened StatsRollup
  import opened StatsRows

  /** `chat_logs` with its AUTOINCREMENT counter, the rollup, and the `stats.*` settings. */
  datatype Db = Db(logs: Rows, nextId: nat, rollup: Rollup, maxId: nat, cursor: nat, done: bool)

  /** `SELECT MAX(id)` over ids below n; ids start at 1. */
  function MaxBelow(logs: Rows, n: nat): (m: nat)
    ensures m > 0 ==> m in logs && m < n
    ensures forall id :: id in logs && id < n ==> id <= m
  {
    if n == 0 then 0 else if n - 1 in logs then n - 1 else MaxBelow(logs, n - 1)
  }

  /** The database as the first opening with a rollup leaves it: nothing counted yet, and the
      rows already there are left to the backfill. */
  function Seeded(logs: Rows, nextId: nat): Db {
    var m := MaxBelow(logs, nextId);
    Db(logs, nextId, map[], m, m, m == 0)
  }

  function Inserted(d: Db, row: Row): Db {
    d.(logs := d.logs[d.nextId := row], nextId := d.nextId + 1, rollup := Upserted(d.rollup, row))
  }

  function Deleted(d: Db, ids: set<nat>): Db {
    d.(logs := d.logs - ids)
  }

  /** `WHERE id <= cursor ORDER BY id DESC LIMIT n`. */
  function Batch(logs: Rows, cursor: nat, n: nat): (ids: seq<nat>)
    ensures |ids| <= n
  {
    if cursor == 0 || n == 0 then []
    else if cursor in logs then [cursor] + Batch(logs, cursor - 1, n - 1)
    else Batch(logs, cursor - 1, n)
  }

  predicate InLogs(logs: Rows, ids: seq<nat>) {
    forall i :: 0 <= i < |ids| ==> ids[i] in logs
  }

  /** What a step makes of a rollup, row by row, for the first n of these rows. */
  function FoldTo(step: (Rollup, Row) -> Rollup, rollup: Rollup, logs: Rows, ids: seq<nat>, n: nat): Rollup
    requires InLogs(logs, ids) && n <= |ids|
  {
    if n == 0 then rollup else step(FoldTo(step, rollup, logs, ids, n - 1), logs[ids[n - 1]])
  }

  function Folded(rollup: Rollup, logs: Rows, ids: seq<nat>): Rollup
    requires InLogs(logs, ids)
  {
    FoldTo(Upserted, rollup, logs, ids, |ids|)
  }

  lemma {:induction false} FoldPrefix(step: (Rollup, Row) -> Rollup, rollup: Rollup, logs: Rows, init: seq<nat>,
                                      id: nat, n: nat)
    requires InLogs(logs, init) && InLogs(logs, init + [id]) && n <= |init|
    ensures FoldTo(step, rollup, logs, init + [id], n) == FoldTo(step, rollup, logs, init, n)
  {
    if n > 0 {
      FoldPrefix(step, rollup, logs, init, id, n - 1);
      assert (init + [id])[n - 1] == init[n - 1];
    }
  }

  lemma {:induction false} BatchSorted(logs: Rows, cursor: nat, n: nat)
    ensures var ids := Batch(logs, cursor, n);
      && (forall id :: id in ids ==> id in logs && 1 <= id <= cursor)
      && (forall i, j :: 0 <= i < j < |ids| ==> ids[i] > ids[j])
  {
    if cursor > 0 && n > 0 {
      if cursor in logs {
        var rest := Batch(logs, cursor - 1, n - 1);
        BatchSorted(logs, cursor - 1, n - 1);
        assert forall id :: id in [cursor] + rest <==> id == cursor || id in rest;
        var ids := [cursor] + rest;
        forall i, j | 0 <= i < j < |ids| ensures ids[i] > ids[j] {
          assert ids[j] == rest[j - 1] && rest[j - 1] in rest;
        }
      } else {
        BatchSorted(logs, cursor - 1, n);
      }
    }
  }

  lemma {:induction false} BatchCovers(logs: Rows, cursor: nat, n: nat)
    ensures var ids := Batch(logs, cursor, n);
      && (ids == [] && n > 0 ==> forall id :: id in logs ==> id == 0 || id > cursor)
      && (ids != [] ==> forall id :: id in logs && ids[|ids| - 1] <= id <= cursor ==> id in ids)
      && (|ids| < n ==> forall id :: id in logs && 1 <= id <= cursor ==> id in ids)
  {
    if cursor > 0 && n > 0 {
      if cursor in logs {
        var rest := Batch(logs, cursor - 1, n - 1);
        BatchCovers(logs, cursor - 1, n - 1);
        assert forall id :: id in [cursor] + rest <==> id == cursor || id in rest;
        assert rest != [] ==> ([cursor] + rest)[|rest|] == rest[|rest| - 1];
      } else {
        BatchCovers(logs, cursor - 1, n);
      }
    }
  }

  lemma {:induction false} BatchIds(logs: Rows, cursor: nat, n: nat)
    ensures var ids := Batch(logs, cursor, n);
      && (forall id :: id in ids ==> id in logs && 1 <= id <= cursor)
      && (forall i, j :: 0 <= i < j < |ids| ==> ids[i] > ids[j])
      && (ids == [] && n > 0 ==> forall id :: id in logs ==> id == 0 || id > cursor)
      && (ids != [] ==> forall id :: id in logs && ids[|ids| - 1] <= id <= cursor ==> id in ids)
      && (|ids| < n ==> forall id :: id in logs && 1 <= id <= cursor ==> id in ids)
  {
    BatchSorted(logs, cursor, n);
    BatchCovers(logs, cursor, n);
  }

  datatype ChunkResult = ChunkResult(processed: nat, done: bool)

  /** One backfill chunk: the newest rows at or below the cursor are folded in, newest first. */
  function Chunked(d: Db, batchSize: int): (ChunkResult, Db) {
    var batch := Max(1, batchSize);
    if d.done then (ChunkResult(0, true), d)
    else if d.cursor < 1 then (ChunkResult(0, true), d.(done := true))
    else
      var ids := Batch(d.logs, d.cursor, batch);
      BatchIds(d.logs, d.cursor, batch);
      if ids == [] then (ChunkResult(0, true), d.(done := true))
      else
        assert ids[|ids| - 1] in ids;
        var next := ids[|ids| - 1] - 1;
        var done := |ids| < batch || next < 1;
        (ChunkResult(|ids|, done), d.(rollup := Folded(d.rollup, d.logs, ids), cursor := next, done := done))
  }

  // ---- runs ------------------------------------------------------------------------------

  datatype Op = Insert(row: Row) | Delete(ids: set<nat>) | Backfill(batchSize: int)

  /** A run with its history: every row ever logged, the rows counted in the rollup so far, and
      the rows deleted before they were counted. */
  datatype Run = Run(d: Db, ever: Rows, counted: Rows, lost: set<nat>)

  function Fetched(d: Db, batchSize: int): seq<nat> {
    if d.done then [] else Batch(d.logs, d.cursor, Max(1, batchSize))
  }

  function CountAll(counted: Rows, logs: Rows, ids: seq<nat>): Rows {
    map id | id in counted.Keys + (set i | i in ids && i in logs) :: if id in counted then counted[id] else logs[id]
  }

  function Step(run: Run, op: Op): Run {
    match op
    case Insert(row) =>
      Run(Inserted(run.d, row), run.ever[run.d.nextId := row], run.counted[run.d.nextId := row], run.lost)
    case Delete(ids) =>
      Run(Deleted(run.d, ids), run.ever, run.counted,
          run.lost + (set id | id in ids && id in run.d.logs && id !in run.counted))
    case Backfill(batchSize) =>
      Run(Chunked(run.d, batchSize).1, run.ever, CountAll(run.counted, run.d.logs, Fetched(run.d, batchSize)), run.lost)
  }

  function Played(logs: Rows, nextId: nat, ops: seq<Op>): Run {
    if ops == [] then Run(Seeded(logs, nextId), logs, map[], {})
    else Step(Played(logs, nextId, ops[..|ops| - 1]), ops[|ops| - 1])
  }

  /** Ids are numbered from 1 and stay below the counter. */
  predicate Numbered(rows: Rows, nextId: nat) {
    nextId >= 1 && forall id :: id in rows ==> 1 <= id < nextId
  }

  predicate Within(rows: Rows, all: Rows) {
    forall id :: id in rows ==> id in all && rows[id] == all[id]
  }

  /** Every row ever logged is counted, waiting at or below the cursor, or lost. */
  predicate Accounted(run: Run) {
    && Numbered(run.ever, run.d.nextId) && Within(run.d.logs, run.ever) && Within(run.counted, run.ever)
    && run.d.cursor <= run.d.maxId < run.d.nextId
    && (forall id :: id in run.ever && id > run.d.maxId ==> id in run.counted)
    && (forall id :: id in run.counted ==> id > run.d.cursor)
    && (forall id :: id in run.d.logs && id !in run.counted ==> id <= run.d.cursor && !run.d.done)
    && (forall id :: id in run.ever ==> id in run.counted || id in run.d.logs || id in run.lost)
    && (forall id :: id in run.lost ==> id in run.ever && id <= run.d.maxId && id !in run.counted && id !in run.d.logs)
  }

  /** The rollup indexes exactly the counted rows. */
  ghost predicate Sound(run: Run) {
    Accounted(run) && Indexes(run.d.rollup, run.counted, run.d.nextId)
  }

  lemma {:induction false} SeedSound(logs: Rows, nextId: nat)
    requires Numbered(logs, nextId)
    ensures Sound(Run(Seeded(logs, nextId), logs, map[], {}))
  {
    forall k ensures Aggregate(map[], nextId, Exactly(k)) == None {
      AggregateSettles(map[], 0, nextId, Exactly(k));
    }
  }

  lemma {:induction false} InsertIndexes(run: Run, row: Row)
    requires Numbered(run.counted, run.d.nextId) && Indexes(run.d.rollup, run.counted, run.d.nextId)
    ensures Indexes(Upserted(run.d.rollup, row), run.counted[run.d.nextId := row], run.d.nextId + 1)
  {
    var n := run.d.nextId;
    forall k ensures Lookup(run.d.rollup, k) == Aggregate(run.counted, n + 1, Exactly(k)) {
      AggregateSettles(run.counted, n, n + 1, Exactly(k));
      assert Lookup(run.d.rollup, k) == Aggregate(run.counted, n, Exactly(k));
    }
    UpsertIndexes(run.d.rollup, run.counted, n, row, n + 1);
  }

  lemma {:induction false} InsertAccounted(run: Run, row: Row)
    requires Accounted(run)
    ensures Accounted(Step(run, Insert(row)))
  {
  }

  lemma {:induction false} InsertSound(run: Run, row: Row)
    requires Sound(run)
    ensures Sound(Step(run, Insert(row)))
  {
    InsertIndexes(run, row);
    InsertAccounted(run, row);
  }

  lemma {:induction false} DeleteSound(run: Run, ids: set<nat>)
    requires Sound(run)
    ensures Sound(Step(run, Delete(ids)))
  {
  }

  lemma {:induction false} CountAllSnoc(counted: Rows, logs: Rows, init: seq<nat>, id: nat)
    requires id in logs && id !in counted && id !in init
    ensures id !in CountAll(counted, logs, init)
    ensures CountAll(counted, logs, init + [id]) == CountAll(counted, logs, init)[id := logs[id]]
  {
  }

  lemma {:induction false} FoldedSnoc(rollup: Rollup, logs: Rows, init: seq<nat>, id: nat)
    requires id in logs && InLogs(logs, init)
    ensures InLogs(logs, init + [id])
    ensures Folded(rollup, logs, init + [id]) == Upserted(Folded(rollup, logs, init), logs[id])
  {
    FoldSnoc(Upserted, rollup, logs, init, id);
  }

  lemma {:induction false} FoldSnoc(step: (Rollup, Row) -> Rollup, rollup: Rollup, logs: Rows, init: seq<nat>, id: nat)
    requires id in logs && InLogs(logs, init) && InLogs(logs, init + [id])
    ensures FoldTo(step, rollup, logs, init + [id], |init + [id]|)
         == step(FoldTo(step, rollup, logs, init, |init|), logs[id])
  {
    FoldPrefix(step, rollup, logs, init, id, |init|);
    assert (init + [id])[|init|] == id;
  }

  predicate Distinct(ids: seq<nat>) {
    forall i, j :: 0 <= i < j < |ids| ==> ids[i] != ids[j]
  }

  lemma {:induction false} NotCounted(counted: Rows, logs: Rows, ids: seq<nat>, id: nat)
    requires id !in counted && id !in ids
    ensures id !in CountAll(counted, logs, ids)
  {
  }

  /** Rows of the log under these ids, none of them counted yet. */
  predicate Waiting(counted: Rows, logs: Rows, ids: seq<nat>, n: nat) {
    forall id :: id in ids ==> id in logs && id < n && id !in counted
  }

  lemma {:induction false} WaitingInit(counted: Rows, logs: Rows, init: seq<nat>, id: nat, n: nat)
    requires Waiting(counted, logs, init + [id], n) && Distinct(init + [id])
    ensures Waiting(counted, logs, init, n) && Distinct(init)
    ensures id in logs && id < n && id !in counted && id !in init
  {
    var ids := init + [id];
    assert ids[|init|] == id && forall i :: 0 <= i < |init| ==> ids[i] == init[i];
    assert id in ids && forall other :: other in init ==> other in ids;
  }

  /** Folding rows not yet counted, in any order, indexes them with the rest. */
  lemma {:induction false} FoldIndexes(rollup: Rollup, counted: Rows, logs: Rows, ids: seq<nat>, n: nat)
    requires Indexes(rollup, counted, n) && Distinct(ids) && Waiting(counted, logs, ids, n)
    ensures Indexes(Folded(rollup, logs, ids), CountAll(counted, logs, ids), n)
  {
    if ids == [] {
      assert CountAll(counted, logs, ids) == counted;
    } else {
      var init, id := ids[..|ids| - 1], ids[|ids| - 1];
      assert ids == init + [id];
      WaitingInit(counted, logs, init, id, n);
      FoldIndexes(rollup, counted, logs, init, n);
      CountAllSnoc(counted, logs, init, id);
      FoldedSnoc(rollup, logs, init, id);
      NotCounted(counted, logs, init, id);
      UpsertIndexes(Folded(rollup, logs, init), CountAll(counted, logs, init), id, logs[id], n);
    }
  }

  /** A batch holds rows not yet counted, each once, and none below it is skipped. */
  lemma {:induction false} FetchedIds(run: Run, batchSize: int)
    requires Accounted(run)
    ensures var ids := Fetched(run.d, batchSize);
      && Distinct(ids)
      && forall id :: id in ids ==> id in run.d.logs && id < run.d.nextId && id !in run.counted
  {
    BatchIds(run.d.logs, run.d.cursor, Max(1, batchSize));
  }

  lemma {:induction false} BackfillIndexes(run: Run, batchSize: int)
    requires Sound(run)
    ensures Indexes(Step(run, Backfill(batchSize)).d.rollup, Step(run, Backfill(batchSize)).counted, run.d.nextId)
  {
    var ids := Fetched(run.d, batchSize);
    FetchedIds(run, batchSize);
    FoldIndexes(run.d.rollup, run.counted, run.d.logs, ids, run.d.nextId);
    BatchIds(run.d.logs, run.d.cursor, Max(1, batchSize));
    assert Chunked(run.d, batchSize).1.rollup == Folded(run.d.rollup, run.d.logs, ids);
  }

  function SetOf(ids: seq<nat>): set<nat> {
    set id | id in ids
  }

  /** A batch is exactly what the log holds between the next cursor and this one, and when it
      reports done nothing is left below. */
  predicate Covers(d: Db, next: Db, taken: set<nat>) {
    && next.cursor <= d.cursor
    && (forall id :: id in taken ==> id in d.logs && next.cursor < id <= d.cursor)
    && (forall id :: id in d.logs && next.cursor < id <= d.cursor ==> id in taken)
    && (next.done ==> d.done || forall id :: id in d.logs && 1 <= id <= next.cursor ==> id in taken)
  }

  lemma {:induction false} ChunkCovers(d: Db, batchSize: int)
    ensures Covers(d, Chunked(d, batchSize).1, SetOf(Fetched(d, batchSize)))
  {
    var ids := Fetched(d, batchSize);
    BatchIds(d.logs, d.cursor, Max(1, batchSize));
    if ids != [] {
      assert ids[|ids| - 1] in ids;
      LastIsLeast(ids);
    }
  }

  lemma {:induction false} CoveringAccounts(run: Run, next: Run, taken: set<nat>)
    requires Accounted(run) && Covers(run.d, next.d, taken)
    requires next.ever == run.ever && next.lost == run.lost && next.d.logs == run.d.logs
    requires next.d.nextId == run.d.nextId && next.d.maxId == run.d.maxId && (run.d.done ==> next.d.done)
    requires next.counted.Keys == run.counted.Keys + taken
    requires forall id :: id in next.counted ==>
      next.counted[id] == if id in run.counted then run.counted[id] else run.d.logs[id]
    requires run.d.done ==> next.d.cursor == run.d.cursor
    ensures Accounted(next)
  {
    forall id | id in next.d.logs && id !in next.counted ensures id <= next.d.cursor && !next.d.done {
      assert id in run.d.logs && id !in run.counted && 1 <= id <= run.d.cursor;
    }
  }

  lemma {:induction false} BackfillAccounted(run: Run, batchSize: int)
    requires Accounted(run)
    ensures Accounted(Step(run, Backfill(batchSize)))
  {
    var ids := Fetched(run.d, batchSize);
    FetchedIds(run, batchSize);
    ChunkCovers(run.d, batchSize);
    assert CountAll(run.counted, run.d.logs, ids).Keys == run.counted.Keys + SetOf(ids);
    CoveringAccounts(run, Step(run, Backfill(batchSize)), SetOf(ids));
  }

  lemma {:induction false} LastIsLeast(ids: seq<nat>)
    requires ids != [] && forall i, j :: 0 <= i < j < |ids| ==> ids[i] > ids[j]
    ensures forall id :: id in ids ==> ids[|ids| - 1] <= id
  {
  }

  lemma {:induction false} BackfillSound(run: Run, batchSize: int)
    requires Sound(run)
    ensures Sound(Step(run, Backfill(batchSize)))
  {
    BackfillIndexes(run, batchSize);
    BackfillAccounted(run, batchSize);
    assert Step(run, Backfill(batchSize)).d.nextId == run.d.nextId;
  }

  lemma {:induction false} StepSound(run: Run, op: Op)
    requires Sound(run)
    ensures Sound(Step(run, op))
  {
    match op
    case Insert(row) =>
      InsertSound(run, row);
    case Delete(ids) =>
      DeleteSound(run, ids);
    case Backfill(batchSize) =>
      BackfillSound(run, batchSize);
  }

  /** Along every interleaving of inserts, deletes and chunks the rollup is the aggregate of
      exactly the counted rows, none of them twice. */
  lemma {:induction false} RunsSound(logs: Rows, nextId: nat, ops: seq<Op>)
    requires Numbered(logs, nextId)
    ensures Sound(Played(logs, nextId, ops))
  {
    if ops == [] {
      SeedSound(logs, nextId);
    } else {
      RunsSound(logs, nextId, ops[..|ops| - 1]);
      StepSound(Played(logs, nextId, ops[..|ops| - 1]), ops[|ops| - 1]);
    }
  }

  // ---- when the rollup is the whole history ----------------------------------------------

  /** No delete takes a row the backfill has yet to reach: whenever rows are deleted, the backfill
      is done or those in the log are above the cursor. */
  ghost predicate Spared(logs: Rows, nextId: nat, ops: seq<Op>) {
    forall i :: 0 <= i < |ops| && ops[i].Delete? ==> Harmless(Played(logs, nextId, ops[..i]).d, ops[i].ids)
  }

  predicate Harmless(d: Db, ids: set<nat>) {
    d.done || forall id :: id in ids && id in d.logs ==> id > d.cursor
  }

  lemma {:induction false} SparedSnoc(logs: Rows, nextId: nat, init: seq<Op>, op: Op)
    ensures Spared(logs, nextId, init + [op])
       <==> Spared(logs, nextId, init) && (op.Delete? ==> Harmless(Played(logs, nextId, init).d, op.ids))
  {
    var ops := init + [op];
    assert ops[..|init|] == init;
    forall i | 0 <= i < |init| ensures ops[..i] == init[..i] {
    }
    if Spared(logs, nextId, ops) {
      forall i | 0 <= i < |init| && init[i].Delete?
        ensures Harmless(Played(logs, nextId, init[..i]).d, init[i].ids)
      {
        assert ops[i] == init[i] && ops[..i] == init[..i];
      }
    }
  }

  /** A row still to be counted is one at or below the cursor while the backfill is not done. */
  lemma {:induction false} LosesIff(run: Run, ids: set<nat>)
    requires Accounted(run)
    ensures Step(run, Delete(ids)).lost == run.lost <==> Harmless(run.d, ids)
  {
    var taken := set id | id in ids && id in run.d.logs && id !in run.counted;
    assert taken !! run.lost;
    if !Harmless(run.d, ids) {
      var id :| id in ids && id in run.d.logs && id <= run.d.cursor;
      assert id in taken;
    } else {
      assert taken == {};
    }
  }

  lemma {:induction false} LostIff(logs: Rows, nextId: nat, ops: seq<Op>)
    requires Numbered(logs, nextId)
    ensures Played(logs, nextId, ops).lost == {} <==> Spared(logs, nextId, ops)
  {
    if ops != [] {
      var init, op := ops[..|ops| - 1], ops[|ops| - 1];
      assert ops == init + [op];
      LostIff(logs, nextId, init);
      RunsSound(logs, nextId, init);
      SparedSnoc(logs, nextId, init, op);
      if op.Delete? { LosesIff(Played(logs, nextId, init), op.ids); }
    }
  }

  function Requests(b: Option<Bucket>): nat {
    if b.Some? then b.value.requests else 0
  }

  lemma {:induction false} RequestsJoin(a: Option<Bucket>, b: Option<Bucket>)
    ensures Requests(Join(a, b)) == Requests(a) + Requests(b)
  {
  }

  /** Fewer rows are never more requests, and a row left out is one request less. */
  lemma {:induction false} RequestsTell(part: Rows, all: Rows, id: nat, n: nat, f: Filter)
    requires Within(part, all) && id in all && id !in part && Admits(f, KeyOf(all[id]))
    ensures Requests(Aggregate(part, n, f)) + (if id < n then 1 else 0) <= Requests(Aggregate(all, n, f))
  {
    if n > 0 {
      RequestsTell(part, all, id, n - 1, f);
      RequestsJoin(Aggregate(part, n - 1, f), Share(part, n - 1, f));
      RequestsJoin(Aggregate(all, n - 1, f), Share(all, n - 1, f));
    }
  }

  /** A rollup of some of the rows is the rollup of all of them only if they are all of them. */
  lemma {:induction false} IndexesAll(rollup: Rollup, part: Rows, all: Rows, n: nat)
    requires Indexes(rollup, part, n) && Within(part, all) && Numbered(all, n)
    ensures Indexes(rollup, all, n) <==> part == all
  {
    if forall id :: id in all ==> id in part {
      assert part == all;
    } else {
      var id :| id in all && id !in part;
      var k := KeyOf(all[id]);
      RequestsTell(part, all, id, n, Exactly(k));
      assert Lookup(rollup, k) == Aggregate(part, n, Exactly(k));
    }
  }

  /** When the backfill reports done, the counted rows are all rows ever logged but those deleted
      before their turn. */
  lemma {:induction false} DoneCounts(logs: Rows, nextId: nat, ops: seq<Op>)
    requires Numbered(logs, nextId) && Played(logs, nextId, ops).d.done
    ensures var run := Played(logs, nextId, ops);
      run.counted == run.ever - run.lost && Indexes(run.d.rollup, run.ever - run.lost, run.d.nextId)
  {
    RunsSound(logs, nextId, ops);
    var run := Played(logs, nextId, ops);
    assert run.counted == run.ever - run.lost;
  }

  /** Once the backfill is done, the rollup is the aggregate of every row ever logged if and only
      if no delete took a row the backfill had yet to reach. */
  lemma {:induction false} DoneCoversHistory(logs: Rows, nextId: nat, ops: seq<Op>)
    requires Numbered(logs, nextId) && Played(logs, nextId, ops).d.done
    ensures var run := Played(logs, nextId, ops);
      Indexes(run.d.rollup, run.ever, run.d.nextId) <==> Spared(logs, nextId, ops)
  {
    var run := Played(logs, nextId, ops);
    RunsSound(logs, nextId, ops);
    DoneCounts(logs, nextId, ops);
    LostIff(logs, nextId, ops);
    IndexesAll(run.d.rollup, run.counted, run.ever, run.d.nextId);
    if run.lost != {} {
      var id :| id in run.lost;
      assert id in run.ever && id !in run.counted;
    } else {
      assert run.ever - run.lost == run.ever;
    }
  }

  /** One old row, deleted before the first chunk: the backfill ends done, and the row is in no
      bucket. */
  lemma {:induction false} DeletedBeforeItsTurn(row: Row)
    ensures var run := Played(map[1 := row], 2, [Delete({1}), Backfill(10)]);
      run.d.done && run.d.rollup == map[] && run.ever == map[1 := row]
      && !Indexes(run.d.rollup, run.ever, run.d.nextId)
  {
    var logs: Rows := map[1 := row];
    var ops := [Delete({1}), Backfill(10)];
    assert ops[..1] == [Delete({1})] && ops[..1][..0] == [];
    var first := Played(logs, 2, ops[..1]);
    assert first == Step(Played(logs, 2, []), Delete({1}));
    assert first.d.logs == map[] && first.d.cursor == 1;
    assert Batch(map[], 1, 10) == Batch(map[], 0, 10) == [];
    var run := Played(logs, 2, ops);
    assert run.lost == {1} by { assert 1 in first.lost; }
    LostIff(logs, 2, ops);
    DoneCoversHistory(logs, 2, ops);
  }

  /** Each chunk either reports done or moves the cursor down and counts rows; a done backfill
      does nothing more. So a backfill takes no more chunks than there are old rows. */
  lemma {:induction false} ChunkProgress(d: Db, batchSize: int)
    ensures var (result, next) := Chunked(d, batchSize);
      && result.done == next.done
      && (d.done ==> result.processed == 0 && next == d)
      && (!d.done ==> next.done || next.cursor < d.cursor)
      && (result.processed > 0 ==> next.cursor < d.cursor)
      && result.processed <= Max(1, batchSize)
      && result.processed <= d.cursor
  {
    BatchIds(d.logs, d.cursor, Max(1, batchSize));
    var ids := Batch(d.logs, d.cursor, Max(1, batchSize));
    if ids != [] {
      assert ids[|ids| - 1] in ids;
      BatchSpan(d.logs, d.cursor, Max(1, batchSize));
    }
  }

  /** The rows the cursor passes over. */
  function PassedOver(d: Db, next: Db): set<nat> {
    set id | id in d.logs && next.cursor < id <= d.cursor
  }

  /** A chunk takes the newest rows at or below the cursor, as many as it may, each once, and puts the
      cursor below them; it is done when there was room for more or nothing is left below. */
  lemma {:induction false} ChunkTakes(d: Db, batchSize: int)
    requires !d.done && d.cursor >= 1
    ensures var (result, next) := Chunked(d, batchSize);
      && next.logs == d.logs && next.nextId == d.nextId && next.maxId == d.maxId
      && (result.processed == 0 ==>
            next.done && next.rollup == d.rollup && forall id :: id in d.logs ==> id < 1 || id > d.cursor)
      && (result.processed > 0 ==>
            result.processed == |PassedOver(d, next)| && next.cursor + 1 in d.logs
            && (next.done <==> result.processed < Max(1, batchSize) || next.cursor == 0))
  {
    var n := Max(1, batchSize);
    var ids := Batch(d.logs, d.cursor, n);
    BatchIds(d.logs, d.cursor, n);
    if ids != [] {
      assert ids[|ids| - 1] in ids;
      LastIsLeast(ids);
      assert PassedOver(d, Chunked(d, batchSize).1) == SetOf(ids);
      DistinctSize(ids);
    }
  }

  lemma {:induction false} SetOfSnoc(ids: seq<nat>, id: nat)
    ensures SetOf(ids + [id]) == SetOf(ids) + {id}
  {
  }

  lemma {:induction false} DistinctSize(ids: seq<nat>)
    requires forall i, j :: 0 <= i < j < |ids| ==> ids[i] > ids[j]
    ensures |SetOf(ids)| == |ids|
  {
    if ids != [] {
      var init, last := ids[..|ids| - 1], ids[|ids| - 1];
      DistinctSize(init);
      assert ids == init + [last];
      SetOfSnoc(init, last);
      forall i | 0 <= i < |init| ensures init[i] > last { assert init[i] == ids[i]; }
    }
  }

  lemma {:induction false} BatchSpan(logs: Rows, cursor: nat, n: nat)
    ensures |Batch(logs, cursor, n)| <= cursor
  {
    if cursor > 0 && n > 0 {
      BatchSpan(logs, cursor - 1, if cursor in logs then n - 1 else n);
    }
  }

  function Chunks(ops: seq<Op>): nat {
    if ops == [] then 0 else Chunks(ops[..|ops| - 1]) + if ops[|ops| - 1].Backfill? then 1 else 0
  }

  /** However inserts and deletes interleave, the backfill is done after at most as many chunks
      as the boundary id counts, and one when there is nothing to do. */
  lemma {:induction false} BackfillTerminates(logs: Rows, nextId: nat, ops: seq<Op>)
    requires Numbered(logs, nextId)
    ensures var d := Played(logs, nextId, ops).d;
      d.done || (d.cursor + Chunks(ops) <= MaxBelow(logs, nextId) && d.cursor >= 1)
  {
    if ops != [] {
      BackfillTerminates(logs, nextId, ops[..|ops| - 1]);
      var before, op := Played(logs, nextId, ops[..|ops| - 1]), ops[|ops| - 1];
      if op.Backfill? { ChunkProgress(before.d, op.batchSize); }
    }
  }

  /** `Math.floor(total * f)` with the fraction clamped to 0..1. */
  function Quota(total: nat, fraction: real): (n: nat)
    ensures n <= total
    ensures fraction <= 0.0 ==> n == 0
    ensures fraction >= 1.0 ==> n == total
    ensures 0.0 <= fraction <= 1.0 ==> n as real <= total as real * fraction < n as real + 1.0
  {
    var f := if fraction < 0.0 then 0.0 else if fraction > 1.0 then 1.0 else fraction;
    assert 0.0 <= total as real * f <= total as real;
    (total as real * f).Floor
  }

  /** `WHERE ts < ?`. */
  function Before(logs: Rows, ts: int): set<nat> {
    set id | id in logs && logs[id].ts < ts
  }

  /** No row taken is newer than a row left. */
  predicate OldestOf(logs: Rows, victims: set<nat>)
    requires victims <= logs.Keys
  {
    forall v, k :: v in victims && k in logs && k !in victims ==> logs[v].ts <= logs[k].ts
  }

  // ---- the statements as the program issues them -----------------------------------------

  class StatsDb {
    var logs: Rows
    var nextId: nat
    var rollup: Rollup
    var maxId: Option<nat>
    var cursor: nat
    var done: bool

    constructor (logs: Rows, nextId: nat)
      ensures this.logs == logs && this.nextId == nextId && rollup == map[] && maxId == None
    {
      this.logs, this.nextId, rollup, maxId, cursor, done := logs, nextId, map[], None, 0, false;
    }

    ghost function State(): Db
      reads this
      requires maxId.Some?
    {
      Db(logs, nextId, rollup, maxId.value, cursor, done)
    }

    /** Taken once, when the rollup first exists; later openings leave it alone. */
    method SeedStatsBackfill()
      modifies this`maxId, this`cursor, this`done
      ensures maxId.Some?
      ensures old(maxId).Some? ==> State() == old(State())
      ensures old(maxId).None? && rollup == map[] ==> State() == Seeded(logs, nextId)
    {
      if maxId.Some? { return; }
      var m := nextId;
      while m > 0 && m - 1 !in logs
        invariant 0 <= m <= nextId && MaxBelow(logs, m) == MaxBelow(logs, nextId)
      {
        m := m - 1;
      }
      var top := if m > 0 then m - 1 else 0;
      maxId, cursor, done := Some(top), top, top == 0;
    }

    method UpsertOne(row: Row)
      modifies this`rollup
      ensures rollup == Upserted(old(rollup), row) && Counted(old(rollup), rollup, row)
    {
      var b := [0, 0, 0, 0, 0, 0, 0, 0];
      var dur := 0;
      if row.duration.Some? {
        dur := row.duration.value;
        var index := FindLatencyBucket(dur);
        b := b[index := 1];
        assert b == Mark(index);
      } else {
        assert b == NoMarks();
      }
      var key := Key(FloorHourMs(row.ts), row.provider, row.clientModel, row.upstreamModel);
      var added := Bucket(1, if row.status >= 400 then 1 else 0, OrZero(row.promptTokens), OrZero(row.completionTokens),
                           OrZero(row.totalTokens), OrZero(row.cachedTokens), dur,
                           if row.duration.Some? then 1 else 0, row.ts, b);
      assert added == One(row);
      UpsertCounts(rollup, row);
      rollup := rollup[key := if key in rollup then Plus(rollup[key], added) else added];
    }

    method InsertLog(row: Row)
      requires maxId.Some?
      modifies this`logs, this`nextId, this`rollup
      ensures maxId.Some? && State() == Inserted(old(State()), row) && Counted(old(rollup), rollup, row)
    {
      logs := logs[nextId := row];
      nextId := nextId + 1;
      UpsertOne(row);
    }

    method DeleteLogsBefore(ts: int) returns (changes: nat)
      requires maxId.Some?
      modifies this`logs
      ensures maxId.Some? && State() == Deleted(old(State()), Before(old(logs), ts))
      ensures changes == |Before(old(logs), ts)|
      ensures forall id :: id in logs <==> id in old(logs) && old(logs)[id].ts >= ts
      ensures changes == |old(logs).Keys - logs.Keys|
    {
      var victims := Before(logs, ts);
      changes := |victims|;
      logs := logs - victims;
    }

    method DeleteAllLogs() returns (changes: nat)
      requires maxId.Some?
      modifies this`logs
      ensures maxId.Some? && State() == Deleted(old(State()), old(logs).Keys) && logs == map[]
      ensures changes == |old(logs)|
    {
      changes := |logs|;
      assert logs - logs.Keys == map[];
      logs := map[];
    }

    /** `ORDER BY ts ASC LIMIT n`: n rows none of which is newer than any row left. */
    method Oldest(n: nat) returns (victims: set<nat>)
      requires n <= |logs|
      ensures victims <= logs.Keys && |victims| == n && OldestOf(logs, victims)
    {
      victims := {};
      var rest := logs.Keys;
      while |victims| < n
        invariant victims <= logs.Keys && rest == logs.Keys - victims && |victims| <= n
        invariant |rest| + |victims| == |logs|
        invariant forall v, k :: v in victims && k in rest ==> logs[v].ts <= logs[k].ts
        decreases n - |victims|
      {
        var id := Eldest(rest);
        victims := victims + {id};
        rest := rest - {id};
      }
    }

    method Eldest(ids: set<nat>) returns (id: nat)
      requires ids != {} && ids <= logs.Keys
      ensures id in ids && forall k :: k in ids ==> logs[id].ts <= logs[k].ts
    {
      id :| id in ids;
      var rest := ids - {id};
      while rest != {}
        invariant rest <= ids && id in ids && forall k :: k in ids - rest ==> logs[id].ts <= logs[k].ts
        decreases |rest|
      {
        var k :| k in rest;
        if logs[k].ts < logs[id].ts { id := k; }
        rest := rest - {k};
      }
    }

    method DeleteOldestLogs(fraction: real) returns (changes: nat)
      requires maxId.Some?
      modifies this`logs
      ensures changes == Quota(|old(logs)|, fraction)
      ensures exists victims :: victims <= old(logs).Keys && |victims| == changes && OldestOf(old(logs), victims)
                             && maxId.Some? && State() == Deleted(old(State()), victims)
    {
      var toDelete := Quota(|logs|, fraction);
      var victims := Oldest(toDelete);
      logs := logs - victims;
      changes := toDelete;
    }

    /** The row transaction of a chunk. */
    method FoldRows(ids: seq<nat>) returns (minId: nat)
      requires ids != [] && InLogs(logs, ids)
      modifies this`rollup
      ensures rollup == Folded(old(rollup), logs, ids) && minId == ids[|ids| - 1]
    {
      ghost var before := rollup;
      minId := 0;
      for i := 0 to |ids|
        invariant rollup == FoldTo(Upserted, before, logs, ids, i)
        invariant i > 0 ==> minId == ids[i - 1]
      {
        UpsertOne(logs[ids[i]]);
        minId := ids[i];
      }
    }

    method BackfillStatsChunk(batchSize: int) returns (result: ChunkResult)
      requires maxId.Some?
      modifies this`rollup, this`cursor, this`done
      ensures maxId.Some? && (result, State()) == Chunked(old(State()), batchSize)
    {
      var batch := Max(1, batchSize);
      var ids := if done || cursor < 1 then [] else Batch(logs, cursor, batch);
      if |ids| == 0 {
        done := true;
        result := ChunkResult(0, true);
      } else {
        BatchIds(logs, cursor, batch);
        assert ids[|ids| - 1] in ids;
        var minId := FoldRows(ids);
        cursor := minId - 1;
        done := |ids| < batch || cursor < 1;
        result := ChunkResult(|ids|, done);
      }
    }
  }
}
