/** The dashboard's readings of the rollup, against the log (src/db/logs.ts, src/db/stats.ts). */
module StatsReads {
  import opened Core
  import opened StatsBackfill
  import opened StatsRollup
  import opened StatsRows

  // ---- sums over a window ----------------------------------------------------------------

  /** `SUM` over the given buckets. */
  function Total(rollup: Rollup, keys: seq<Key>): Option<Bucket> {
    if keys == [] then None else Join(Total(rollup, keys[..|keys| - 1]), Lookup(rollup, keys[|keys| - 1]))
  }

  /** The keys are the rollup's buckets the filter admits, each once, in whatever order. */
  predicate Enumerates(keys: seq<Key>, rollup: Rollup, f: Filter) {
    && (forall i, j :: 0 <= i < j < |keys| ==> keys[i] != keys[j])
    && (forall k :: k in keys ==> k in rollup && Admits(f, k))
    && (forall k :: k in rollup && Admits(f, k) ==> k in keys)
  }

  function Shares(rows: Rows, id: nat, keys: seq<Key>): Option<Bucket> {
    if id in rows && KeyOf(rows[id]) in keys then Some(One(rows[id])) else None
  }

  /** The aggregate of the rows whose bucket is among the keys. */
  function Among(rows: Rows, n: nat, keys: seq<Key>): Option<Bucket> {
    if n == 0 then None else Join(Among(rows, n - 1, keys), Shares(rows, n - 1, keys))
  }

  lemma {:induction false} AmongSnoc(rows: Rows, n: nat, keys: seq<Key>, k: Key)
    requires k !in keys
    ensures Among(rows, n, keys + [k]) == Join(Among(rows, n, keys), Aggregate(rows, n, Exactly(k)))
  {
    if n > 0 {
      AmongSnoc(rows, n - 1, keys, k);
      var a, b := Among(rows, n - 1, keys), Aggregate(rows, n - 1, Exactly(k));
      var s, t := Shares(rows, n - 1, keys), Share(rows, n - 1, Exactly(k));
      Swap4(a, b, s, t);
      assert Shares(rows, n - 1, keys + [k]) == Join(s, t);
    }
  }

  lemma {:induction false} Swap4(a: Option<Bucket>, b: Option<Bucket>, s: Option<Bucket>, t: Option<Bucket>)
    ensures Join(Join(a, b), Join(s, t)) == Join(Join(a, s), Join(b, t))
  {
    JoinSwap(Join(a, b), s, t);
    JoinSwap(a, b, s);
    JoinSwap(Join(a, s), b, t);
  }

  lemma {:induction false} AmongNothing(rows: Rows, n: nat)
    ensures Among(rows, n, []) == None
  {
    if n > 0 { AmongNothing(rows, n - 1); }
  }

  lemma {:induction false} TotalAmong(rollup: Rollup, rows: Rows, n: nat, keys: seq<Key>)
    requires Indexes(rollup, rows, n)
    requires forall i, j :: 0 <= i < j < |keys| ==> keys[i] != keys[j]
    ensures Total(rollup, keys) == Among(rows, n, keys)
  {
    if keys == [] {
      AmongNothing(rows, n);
    } else {
      var init, k := keys[..|keys| - 1], keys[|keys| - 1];
      TotalAmong(rollup, rows, n, init);
      assert keys == init + [k];
      AmongSnoc(rows, n, init, k);
      assert Lookup(rollup, k) == Aggregate(rows, n, Exactly(k));
    }
  }

  /** A row's bucket exists in the aggregate it belongs to. */
  lemma {:induction false} RowHasBucket(rows: Rows, n: nat, id: nat)
    requires id in rows && id < n
    ensures Aggregate(rows, n, Exactly(KeyOf(rows[id]))).Some?
  {
    if n - 1 != id { RowHasBucket(rows, n - 1, id); }
  }

  lemma {:induction false} AmongAdmitted(rows: Rows, n: nat, keys: seq<Key>, f: Filter)
    requires forall id :: id in rows && id < n ==> (KeyOf(rows[id]) in keys <==> Admits(f, KeyOf(rows[id])))
    ensures Among(rows, n, keys) == Aggregate(rows, n, f)
  {
    if n > 0 { AmongAdmitted(rows, n - 1, keys, f); }
  }

  /** A reading of the rollup is the aggregate, over the log's counted rows, of the rows the
      filter admits. */
  lemma {:induction false} ReadingIsAggregate(rollup: Rollup, rows: Rows, n: nat, keys: seq<Key>, f: Filter)
    requires Indexes(rollup, rows, n) && Enumerates(keys, rollup, f)
    ensures Total(rollup, keys) == Aggregate(rows, n, f)
  {
    TotalAmong(rollup, rows, n, keys);
    forall id | id in rows && id < n ensures KeyOf(rows[id]) in keys <==> Admits(f, KeyOf(rows[id])) {
      RowHasBucket(rows, n, id);
      assert Lookup(rollup, KeyOf(rows[id])).Some?;
    }
    AmongAdmitted(rows, n, keys, f);
  }

  /** A window from `since` covers exactly the rows from the start of that hour on: every row
      asked for, and less than an hour more. */
  lemma {:induction false} WindowCovers(row: Row, since: int)
    ensures Admits(From(FloorHourMs(since), None, None, None), KeyOf(row)) <==> row.ts >= FloorHourMs(since)
    ensures row.ts >= since ==> row.ts >= FloorHourMs(since)
    ensures row.ts >= FloorHourMs(since) ==> row.ts > since - HOUR_MS
  {
    HourOrder(row.ts, since);
  }

  lemma {:induction false} HourOrder(a: int, b: int)
    ensures FloorHourMs(a) >= FloorHourMs(b) <==> a >= FloorHourMs(b)
  {
    var x, y := a / HOUR_MS, b / HOUR_MS;
    assert x * HOUR_MS <= a < (x + 1) * HOUR_MS;
    assert a >= y * HOUR_MS <==> x >= y;
  }

  /** In every run, every reading is the aggregate of the counted rows in its window. */
  lemma {:induction false} ReadingsRefineLog(logs: Rows, nextId: nat, ops: seq<Op>, since: int,
      provider: Option<string>, clientModel: Option<string>, upstreamModel: Option<string>, keys: seq<Key>)
    requires Numbered(logs, nextId)
    requires Enumerates(keys, Played(logs, nextId, ops).d.rollup,
      From(FloorHourMs(since), provider, clientModel, upstreamModel))
    ensures var run := Played(logs, nextId, ops);
      Total(run.d.rollup, keys)
      == Aggregate(run.counted, run.d.nextId, From(FloorHourMs(since), provider, clientModel, upstreamModel))
  {
    StatsBackfill.RunsSound(logs, nextId, ops);
    var run := Played(logs, nextId, ops);
    ReadingIsAggregate(run.d.rollup, run.counted, run.d.nextId, keys,
        From(FloorHourMs(since), provider, clientModel, upstreamModel));
  }

  // ---- what an aggregate says about its rows ---------------------------------------------

  /** The rows a filter admits, in id order. */
  function Admitted(rows: Rows, n: nat, f: Filter): seq<Row> {
    if n == 0 then []
    else Admitted(rows, n - 1, f) + if n - 1 in rows && Admits(f, KeyOf(rows[n - 1])) then [rows[n - 1]] else []
  }

  function ErrorOf(row: Row): int { if row.status >= 400 then 1 else 0 }
  function PromptOf(row: Row): int { OrZero(row.promptTokens) }
  function CompletionOf(row: Row): int { OrZero(row.completionTokens) }
  function TotalOf(row: Row): int { OrZero(row.totalTokens) }
  function CachedOf(row: Row): int { OrZero(row.cachedTokens) }

  function SumBy(list: seq<Row>, of: Row -> int): int {
    if list == [] then 0 else SumBy(list[..|list| - 1], of) + of(list[|list| - 1])
  }

  lemma {:induction false} SumBySnoc(list: seq<Row>, row: Row, of: Row -> int)
    ensures SumBy(list + [row], of) == SumBy(list, of) + of(row)
  {
    assert (list + [row])[..|list|] == list;
  }

  /** One request per row, errors and tokens added up, the latest time. */
  ghost predicate AddsUp(b: Bucket, list: seq<Row>) {
    && b.requests == |list| && b.errors == SumBy(list, ErrorOf)
    && b.prompt == SumBy(list, PromptOf) && b.completion == SumBy(list, CompletionOf)
    && b.total == SumBy(list, TotalOf) && b.cached == SumBy(list, CachedOf)
    && (forall row :: row in list ==> row.ts <= b.lastTs)
    && exists row :: row in list && row.ts == b.lastTs
  }

  lemma {:induction false} AddsUpSnoc(b: Bucket, list: seq<Row>, row: Row)
    requires AddsUp(b, list)
    ensures AddsUp(Plus(b, One(row)), list + [row])
  {
    SumBySnoc(list, row, ErrorOf);
    SumBySnoc(list, row, PromptOf);
    SumBySnoc(list, row, CompletionOf);
    SumBySnoc(list, row, TotalOf);
    SumBySnoc(list, row, CachedOf);
    var latest :| latest in list && latest.ts == b.lastTs;
    var newer := if b.lastTs < row.ts then row else latest;
    assert newer in list + [row] && newer.ts == Max(b.lastTs, row.ts);
  }

  lemma {:induction false} AddsUpOne(row: Row)
    ensures AddsUp(One(row), [row])
  {
    assert [row] == [] + [row];
    SumBySnoc([], row, ErrorOf);
    SumBySnoc([], row, PromptOf);
    SumBySnoc([], row, CompletionOf);
    SumBySnoc([], row, TotalOf);
    SumBySnoc([], row, CachedOf);
    assert row in [row];
  }

  lemma {:induction false} AddsUpJoin(a: Option<Bucket>, list: seq<Row>, row: Row)
    requires if a.None? then list == [] else AddsUp(a.value, list)
    ensures Join(a, Some(One(row))).Some? && AddsUp(Join(a, Some(One(row))).value, list + [row])
  {
    EmptyEnds([row]);
    if a.Some? { AddsUpSnoc(a.value, list, row); } else { AddsUpOne(row); }
  }

  /** An aggregate is nothing for no rows, and otherwise adds its rows up. */
  lemma {:induction false} AggregateAddsUp(rows: Rows, n: nat, f: Filter)
    ensures var a, list := Aggregate(rows, n, f), Admitted(rows, n, f);
      if a.None? then list == [] else AddsUp(a.value, list)
  {
    if n > 0 {
      AggregateAddsUp(rows, n - 1, f);
      var a, list, share := Aggregate(rows, n - 1, f), Admitted(rows, n - 1, f), Share(rows, n - 1, f);
      EmptyEnds(list);
      if share.Some? { AddsUpJoin(a, list, rows[n - 1]); }
    }
  }

  // ---- the latency histogram -------------------------------------------------------------

  function SumFirst(counts: seq<nat>, n: nat): nat
    requires n <= |counts|
  {
    if n == 0 then 0 else SumFirst(counts, n - 1) + counts[n - 1]
  }

  lemma {:induction false} SumAdds(a: Hist, b: Hist, n: nat)
    requires n <= 8
    ensures SumFirst(AddHist(a, b), n) == SumFirst(a, n) + SumFirst(b, n)
  {
    if n > 0 { SumAdds(a, b, n - 1); }
  }

  lemma {:induction false} SumMarks(b: nat, n: nat)
    requires n <= 8
    ensures SumFirst(Mark(b), n) == if b < n then 1 else 0
    ensures SumFirst(NoMarks(), n) == 0
  {
    if n > 0 { SumMarks(b, n - 1); }
  }

  /** The histogram of any aggregate counts each timed row once. */
  lemma {:induction false} HistogramComplete(rows: Rows, n: nat, f: Filter)
    ensures var a := Aggregate(rows, n, f); a.Some? ==> SumFirst(a.value.hist, 8) == a.value.durationCount
  {
    if n > 0 {
      HistogramComplete(rows, n - 1, f);
      var a, s := Aggregate(rows, n - 1, f), Share(rows, n - 1, f);
      if s.Some? {
        var row := rows[n - 1];
        SumMarks(if row.duration.Some? then LatencyBucketIndex(row.duration.value) else 0, 8);
        if a.Some? { SumAdds(a.value.hist, s.value.hist, 8); }
      }
    }
  }

  /** Durations of the timed rows a filter admits, in id order. */
  function Durations(rows: Rows, n: nat, f: Filter): seq<int> {
    if n == 0 then []
    else
      Durations(rows, n - 1, f)
      + (if n - 1 in rows && Admits(f, KeyOf(rows[n - 1])) && rows[n - 1].duration.Some?
         then [rows[n - 1].duration.value] else [])
  }

  function Sum(ds: seq<int>): int {
    if ds == [] then 0 else Sum(ds[..|ds| - 1]) + ds[|ds| - 1]
  }

  /** How many durations fall in one of the first n buckets. */
  function InFirst(ds: seq<int>, n: nat): nat {
    if ds == [] then 0 else InFirst(ds[..|ds| - 1], n) + if LatencyBucketIndex(ds[|ds| - 1]) < n then 1 else 0
  }

  /** What the aggregate says about latency: the number of timed rows, their exact sum, and how
      many fell in each stretch of buckets. */
  predicate Summarises(a: Option<Bucket>, ds: seq<int>) {
    if a.None? then ds == []
    else a.value.durationCount == |ds| && a.value.durationSum == Sum(ds)
         && forall n :: 0 <= n <= 8 ==> SumFirst(a.value.hist, n) == InFirst(ds, n)
  }

  lemma {:induction false} SummarisesOne(row: Row)
    ensures Summarises(Some(One(row)), if row.duration.Some? then [row.duration.value] else [])
  {
    forall n | 0 <= n <= 8
      ensures SumFirst(One(row).hist, n) == InFirst(if row.duration.Some? then [row.duration.value] else [], n)
    {
      SumMarks(if row.duration.Some? then LatencyBucketIndex(row.duration.value) else 0, n);
      if row.duration.Some? {
        assert [row.duration.value][..0] == [];
        assert InFirst([], n) == 0;
      }
    }
    if row.duration.Some? {
      assert [row.duration.value][..0] == [];
      assert Sum([]) == 0;
    }
  }

  lemma {:induction false} InFirstAppend(a: seq<int>, b: seq<int>, n: nat)
    ensures InFirst(a + b, n) == InFirst(a, n) + InFirst(b, n)
  {
    if b == [] {
      assert a + b == a;
    } else {
      assert (a + b)[..|a + b| - 1] == a + b[..|b| - 1];
      InFirstAppend(a, b[..|b| - 1], n);
    }
  }

  lemma {:induction false} SumAppend(a: seq<int>, b: seq<int>)
    ensures Sum(a + b) == Sum(a) + Sum(b)
  {
    if b == [] {
      assert a + b == a;
    } else {
      assert (a + b)[..|a + b| - 1] == a + b[..|b| - 1];
      SumAppend(a, b[..|b| - 1]);
    }
  }

  lemma {:induction false} SummarisesJoin(a: Option<Bucket>, b: Option<Bucket>, ds: seq<int>, es: seq<int>)
    requires Summarises(a, ds) && Summarises(b, es)
    ensures Summarises(Join(a, b), ds + es)
  {
    if a.None? {
      assert ds + es == es;
    } else if b.None? {
      assert ds + es == ds;
    } else {
      SumAppend(ds, es);
      forall n | 0 <= n <= 8
        ensures SumFirst(AddHist(a.value.hist, b.value.hist), n) == InFirst(ds + es, n)
      {
        SumAdds(a.value.hist, b.value.hist, n);
        InFirstAppend(ds, es, n);
      }
    }
  }

  lemma {:induction false} AggregateSummarises(rows: Rows, n: nat, f: Filter)
    ensures Summarises(Aggregate(rows, n, f), Durations(rows, n, f))
  {
    if n > 0 {
      AggregateSummarises(rows, n - 1, f);
      var s := Share(rows, n - 1, f);
      if s.Some? {
        var row := rows[n - 1];
        var es := if row.duration.Some? then [row.duration.value] else [];
        SummarisesOne(row);
        SummarisesJoin(Aggregate(rows, n - 1, f), s, Durations(rows, n - 1, f), es);
      } else {
        assert Durations(rows, n - 1, f) + [] == Durations(rows, n - 1, f);
      }
    }
  }

  // ---- the rows of a reading -------------------------------------------------------------

  lemma {:induction false} AdmittedWanted(rows: Rows, n: nat, hour: int, provider: Option<string>,
                                          clientModel: Option<string>, upstreamModel: Option<string>)
    requires hour % HOUR_MS == 0
    ensures var f, list := From(hour, provider, clientModel, upstreamModel),
                           Wanted(rows, n, hour, provider, clientModel, upstreamModel);
      Admitted(rows, n, f) == list && Durations(rows, n, f) == Timings(list)
  {
    if n > 0 {
      AdmittedWanted(rows, n - 1, hour, provider, clientModel, upstreamModel);
      var list := Wanted(rows, n - 1, hour, provider, clientModel, upstreamModel);
      EmptyEnds(list);
      EmptyEnds(Timings(list));
      if n - 1 in rows {
        AdmitsRow(rows[n - 1], hour, provider, clientModel, upstreamModel);
        TimingsSnoc(list, rows[n - 1]);
      }
    }
  }

  /** How many durations fall in one slot. */
  function FallIn(ds: seq<int>, b: nat): nat
    requires b < 8
  {
    if ds == [] then 0 else FallIn(ds[..|ds| - 1], b) + if Falls(ds[|ds| - 1], b) then 1 else 0
  }

  lemma {:induction false} FallBetween(ds: seq<int>, b: nat)
    requires b < 8
    ensures InFirst(ds, b + 1) == InFirst(ds, b) + FallIn(ds, b)
  {
    if ds != [] {
      FallBetween(ds[..|ds| - 1], b);
      SlotOf(ds[|ds| - 1], b);
    }
  }

  /** A reading says of a list of rows how many there are, what they add up to, how many are
      timed, how long they took together, and how many fell in each slot. */
  ghost predicate Tells(total: Option<Bucket>, list: seq<Row>) {
    if total.None? then list == []
    else
      && AddsUp(total.value, list)
      && total.value.durationCount == |Timings(list)| && total.value.durationSum == Sum(Timings(list))
      && forall b :: 0 <= b < 8 ==> total.value.hist[b] == FallIn(Timings(list), b)
  }

  lemma {:induction false} AggregateTells(rows: Rows, n: nat, hour: int, provider: Option<string>,
                                          clientModel: Option<string>, upstreamModel: Option<string>)
    requires hour % HOUR_MS == 0
    ensures Tells(Aggregate(rows, n, From(hour, provider, clientModel, upstreamModel)),
                  Wanted(rows, n, hour, provider, clientModel, upstreamModel))
  {
    var f := From(hour, provider, clientModel, upstreamModel);
    AdmittedWanted(rows, n, hour, provider, clientModel, upstreamModel);
    AggregateAddsUp(rows, n, f);
    AggregateSummarises(rows, n, f);
    var a, ds := Aggregate(rows, n, f), Durations(rows, n, f);
    if a.Some? {
      forall b | 0 <= b < 8 ensures a.value.hist[b] == FallIn(ds, b) {
        FallBetween(ds, b);
        assert SumFirst(a.value.hist, b + 1) == InFirst(ds, b + 1) && SumFirst(a.value.hist, b) == InFirst(ds, b);
      }
    }
  }

  /** In every run, a reading of the rollup tells of exactly the counted rows that were logged
      from the start of the asked hour on, by the asked provider and models. */
  lemma {:induction false} ReadingTellsRows(logs: Rows, nextId: nat, ops: seq<Op>, since: int,
      provider: Option<string>, clientModel: Option<string>, upstreamModel: Option<string>, keys: seq<Key>)
    requires Numbered(logs, nextId)
    requires Enumerates(keys, Played(logs, nextId, ops).d.rollup,
      From(FloorHourMs(since), provider, clientModel, upstreamModel))
    ensures var run := Played(logs, nextId, ops);
      Tells(Total(run.d.rollup, keys),
            Wanted(run.counted, run.d.nextId, FloorHourMs(since), provider, clientModel, upstreamModel))
  {
    ReadingsRefineLog(logs, nextId, ops, since, provider, clientModel, upstreamModel, keys);
    var run := Played(logs, nextId, ops);
    AggregateTells(run.counted, run.d.nextId, FloorHourMs(since), provider, clientModel, upstreamModel);
  }

  // ---- percentiles -----------------------------------------------------------------------

  const LATENCY_REP_VALUES: seq<int> := [100, 250, 500, 1000, 2000, 5000, 10000, 15000]

  function Target(count: nat, q: real): real {
    q * count as real
  }

  function RepValue(b: nat): int
    requires b <= 7
  {
    LATENCY_REP_VALUES[b]
  }

  /** The first bucket from i on whose running count reaches the target; the top one if none. */
  function QuantileBucket(buckets: Hist, target: real, i: nat): (b: nat)
    requires i <= 8
    ensures b <= 7
    decreases 8 - i
  {
    if i == 8 then 7
    else if SumFirst(buckets, i + 1) as real >= target then i
    else QuantileBucket(buckets, target, i + 1)
  }

  function Percentile(buckets: Hist, count: nat, q: real): int {
    RepValue(QuantileBucket(buckets, Target(count, q), 0))
  }

  method At(buckets: Hist, count: nat, q: real) returns (value: int)
    ensures value == Percentile(buckets, count, q)
  {
    var target := Target(count, q);
    var cum := 0;
    for i := 0 to 8
      invariant cum == SumFirst(buckets, i)
      invariant QuantileBucket(buckets, target, i) == QuantileBucket(buckets, target, 0)
    {
      cum := cum + buckets[i];
      if cum as real >= target { return RepValue(i); }
    }
    value := RepValue(7);
  }

  method PercentilesFromBuckets(buckets: Hist, count: nat) returns (p50: int, p95: int, p99: int)
    ensures count == 0 ==> p50 == p95 == p99 == 0
    ensures count > 0 ==> p50 == Percentile(buckets, count, 0.5) && p95 == Percentile(buckets, count, 0.95)
                          && p99 == Percentile(buckets, count, 0.99)
    ensures p50 <= p95 <= p99
  {
    if count == 0 { return 0, 0, 0; }
    p50 := At(buckets, count, 0.5);
    p95 := At(buckets, count, 0.95);
    p99 := At(buckets, count, 0.99);
    PercentilesOrdered(buckets, count, 0.5, 0.95);
    PercentilesOrdered(buckets, count, 0.95, 0.99);
  }

  lemma {:induction false} QuantilesOrdered(buckets: Hist, s: real, t: real, i: nat)
    requires i <= 8 && s <= t
    ensures QuantileBucket(buckets, s, i) <= QuantileBucket(buckets, t, i)
    ensures QuantileBucket(buckets, s, i) >= if i == 8 then 7 else i
    ensures QuantileBucket(buckets, t, i) >= if i == 8 then 7 else i
    decreases 8 - i
  {
    if i < 8 { QuantilesOrdered(buckets, s, t, i + 1); }
  }

  lemma {:induction false} PercentilesOrdered(buckets: Hist, count: nat, p: real, q: real)
    requires p <= q
    ensures Percentile(buckets, count, p) <= Percentile(buckets, count, q)
  {
    assert p * count as real <= q * count as real;
    QuantilesOrdered(buckets, Target(count, p), Target(count, q), 0);
    assert forall i, j :: 0 <= i <= j < 8 ==> LATENCY_REP_VALUES[i] <= LATENCY_REP_VALUES[j];
  }

  function Below(ds: seq<int>, v: int): nat {
    if ds == [] then 0 else Below(ds[..|ds| - 1], v) + if ds[|ds| - 1] < v then 1 else 0
  }

  /** The nearest-rank q-quantile of a list, by its definition: less than q of the list is below
      it, and at least q of it is not above it. */
  predicate NearestRank(ds: seq<int>, q: real, v: int) {
    Below(ds, v) as real < q * (|ds| as real) <= Below(ds, v + 1) as real
  }

  /** Bounds between which all of a list lies. */
  lemma {:induction false} Spanned(ds: seq<int>) returns (lo: int, hi: int)
    ensures lo <= hi && Below(ds, lo) == 0 && Below(ds, hi) == |ds|
    ensures forall v :: v <= lo ==> Below(ds, v) == 0
    ensures forall v :: v >= hi ==> Below(ds, v) == |ds|
  {
    if ds == [] {
      lo, hi := 0, 0;
    } else {
      var d := ds[|ds| - 1];
      lo, hi := Spanned(ds[..|ds| - 1]);
      lo, hi := if d < lo then d else lo, if d >= hi then d + 1 else hi;
    }
  }

  lemma {:induction false} CountedBetween(ds: seq<int>, v: int)
    ensures Below(ds, v) <= Below(ds, v + 1)
    ensures Below(ds, v) < Below(ds, v + 1) ==> v in ds
  {
    if ds != [] { CountedBetween(ds[..|ds| - 1], v); }
  }

  /** Every list that is not empty has a nearest-rank quantile, and it is one of the list. */
  lemma {:induction false} NearestRankExists(ds: seq<int>, q: real) returns (v: int)
    requires ds != [] && 0.0 < q <= 1.0
    ensures v in ds && NearestRank(ds, q, v)
  {
    var lo, hi := Spanned(ds);
    RankReached(|ds|, q);
    v := lo - 1;
    while (Below(ds, v + 1) as real) < Target(|ds|, q)
      invariant (Below(ds, v) as real) < Target(|ds|, q) && v < hi
      decreases hi - v
    {
      v := v + 1;
    }
    CountedBetween(ds, v);
  }

  lemma {:induction false} RankReached(n: nat, q: real)
    requires n > 0 && 0.0 < q <= 1.0
    ensures 0.0 < Target(n, q) <= n as real
  {
  }

  lemma {:induction false} IndexMonotone(a: int, b: int)
    ensures LatencyBucketIndex(a) < LatencyBucketIndex(b) ==> a < b
    ensures a <= b ==> LatencyBucketIndex(a) <= LatencyBucketIndex(b)
  {
    var i, j := LatencyBucketIndex(a), LatencyBucketIndex(b);
    if i < j { assert LATENCY_BOUNDS[i] < b; }
    if j < i { assert LATENCY_BOUNDS[j] < a; }
  }

  /** Buckets before v's hold only smaller durations, and hold every duration up to v with it. */
  lemma {:induction false} BucketBracketsRank(ds: seq<int>, v: int)
    ensures InFirst(ds, LatencyBucketIndex(v)) <= Below(ds, v)
    ensures Below(ds, v + 1) <= InFirst(ds, LatencyBucketIndex(v) + 1)
  {
    if ds != [] {
      BucketBracketsRank(ds[..|ds| - 1], v);
      IndexMonotone(ds[|ds| - 1], v);
    }
  }

  lemma {:induction false} SumGrows(counts: seq<nat>, i: nat, j: nat)
    requires i <= j <= |counts|
    ensures SumFirst(counts, i) <= SumFirst(counts, j)
  {
    if i < j { SumGrows(counts, i, j - 1); }
  }

  lemma {:induction false} FirstReaching(buckets: Hist, target: real, i: nat, b: nat)
    requires i <= b <= 7
    requires SumFirst(buckets, b) as real < target <= SumFirst(buckets, b + 1) as real
    ensures QuantileBucket(buckets, target, i) == b
    decreases b - i
  {
    if i < b {
      SumGrows(buckets, i + 1, b);
      FirstReaching(buckets, target, i + 1, b);
    }
  }

  lemma {:induction false} RankBucket(buckets: Hist, ds: seq<int>, target: real, v: int)
    requires forall n :: 0 <= n <= 8 ==> SumFirst(buckets, n) == InFirst(ds, n)
    requires Below(ds, v) as real < target <= Below(ds, v + 1) as real
    ensures QuantileBucket(buckets, target, 0) == LatencyBucketIndex(v)
  {
    BucketBracketsRank(ds, v);
    FirstReaching(buckets, target, 0, LatencyBucketIndex(v));
  }

  lemma {:induction false} PercentileOf(buckets: Hist, count: nat, ds: seq<int>, q: real, v: int)
    requires forall n :: 0 <= n <= 8 ==> SumFirst(buckets, n) == InFirst(ds, n)
    requires count == |ds| && NearestRank(ds, q, v)
    ensures LatencyBucketIndex(v) <= 7
    ensures Percentile(buckets, count, q) == RepValue(LatencyBucketIndex(v))
  {
    RankBucket(buckets, ds, Target(count, q), v);
  }

  /** In exact arithmetic each reported percentile stands for the bucket that holds the
      nearest-rank quantile of the durations themselves; below the open top bucket it is the upper
      edge of that bucket, so it never understates. */
  lemma {:induction false} PercentileIsNearestRank(rows: Rows, n: nat, f: Filter, q: real) returns (v: int)
    requires Durations(rows, n, f) != [] && 0.0 < q <= 1.0
    ensures v in Durations(rows, n, f) && NearestRank(Durations(rows, n, f), q, v)
    ensures Aggregate(rows, n, f).Some?
    ensures var a := Aggregate(rows, n, f).value;
      EdgeOf(Percentile(a.hist, a.durationCount, q), v)
  {
    var ds := Durations(rows, n, f);
    AggregateSummarises(rows, n, f);
    var a := Aggregate(rows, n, f).value;
    v := NearestRankExists(ds, q);
    PercentileOf(a.hist, a.durationCount, ds, q, v);
    RepIsEdge(v);
  }

  // ---- the latency reading as issued -----------------------------------------------------

  method SelectKeys(rollup: Rollup, f: Filter) returns (keys: seq<Key>)
    ensures Enumerates(keys, rollup, f)
  {
    keys := [];
    var rest := rollup.Keys;
    while rest != {}
      invariant rest <= rollup.Keys
      invariant forall i, j :: 0 <= i < j < |keys| ==> keys[i] != keys[j]
      invariant forall k :: k in keys <==> k in rollup && k !in rest && Admits(f, k)
      decreases |rest|
    {
      var k :| k in rest;
      if Admits(f, k) { keys := keys + [k]; }
      rest := rest - {k};
    }
  }

  method SumBuckets(rollup: Rollup, f: Filter) returns (total: Option<Bucket>)
    ensures forall rows: Rows, n: nat :: Indexes(rollup, rows, n) ==> total == Aggregate(rows, n, f)
  {
    var keys := SelectKeys(rollup, f);
    total := None;
    for i := 0 to |keys|
      invariant total == Total(rollup, keys[..i])
    {
      assert keys[..i + 1][..i] == keys[..i];
      assert keys[i] in keys;
      total := Join(total, Lookup(rollup, keys[i]));
    }
    assert keys[..|keys|] == keys;
    forall rows: Rows, n: nat | Indexes(rollup, rows, n) ensures total == Aggregate(rows, n, f) {
      ReadingIsAggregate(rollup, rows, n, keys, f);
    }
  }

  datatype LatencyStats = LatencyStats(count: nat, avg: int, p50: int, p95: int, p99: int)

  /** `Math.round(sum / count)`. */
  function RoundedMean(sum: int, count: nat): int
    requires count > 0
  {
    (2 * sum + count) / (2 * count)
  }

  /** The whole number nearest to a list's mean, the greater one when two are as near. */
  predicate NearestToMean(avg: int, ds: seq<int>) {
    avg * (2 * |ds|) - |ds| <= 2 * Sum(ds) < avg * (2 * |ds|) + |ds|
  }

  lemma {:induction false} MeanRounds(ds: seq<int>)
    requires ds != []
    ensures NearestToMean(RoundedMean(Sum(ds), |ds|), ds)
  {
    Division(2 * Sum(ds) + |ds|, 2 * |ds|);
  }

  lemma {:induction false} Division(a: int, n: nat)
    requires n > 0
    ensures (a / n) * n <= a < (a / n) * n + n
  {
  }

  /** The upper edge of the bucket a duration falls in; 15000 stands for the open top. */
  predicate EdgeOf(value: int, v: int) {
    if v > 10000 then value == 15000
    else value in LATENCY_BOUNDS && v <= value && forall b :: b in LATENCY_BOUNDS && v <= b ==> value <= b
  }

  lemma {:induction false} RepIsEdge(v: int)
    ensures LatencyBucketIndex(v) <= 7 && EdgeOf(RepValue(LatencyBucketIndex(v)), v)
  {
    var b := LatencyBucketIndex(v);
    assert forall i, j :: 0 <= i <= j < 7 ==> LATENCY_BOUNDS[i] <= LATENCY_BOUNDS[j];
    if b < 7 {
      assert LATENCY_REP_VALUES[b] == LATENCY_BOUNDS[b];
    } else {
      assert LATENCY_BOUNDS[6] < v;
    }
  }

  /** The value reported for q is the edge of the bucket of the list's nearest-rank q-quantile,
      which is one of the list. */
  ghost predicate Reports(value: int, ds: seq<int>, q: real) {
    && (exists v {:trigger NearestRank(ds, q, v)} :: v in ds && NearestRank(ds, q, v))
    && forall v {:trigger NearestRank(ds, q, v)} :: NearestRank(ds, q, v) ==> EdgeOf(value, v)
  }

  lemma {:induction false} PercentileReports(b: Bucket, ds: seq<int>, q: real)
    requires Summarises(Some(b), ds) && ds != [] && 0.0 < q <= 1.0
    ensures Reports(Percentile(b.hist, b.durationCount, q), ds, q)
  {
    var rank := NearestRankExists(ds, q);
    forall v | NearestRank(ds, q, v) ensures EdgeOf(Percentile(b.hist, b.durationCount, q), v) {
      PercentileOf(b.hist, b.durationCount, ds, q, v);
      RepIsEdge(v);
    }
  }

  /** What the latency reading says of a list of durations: how many there are, their mean to the
      nearest whole number, and the buckets of their quantiles. */
  ghost predicate Reads(stats: LatencyStats, ds: seq<int>) {
    && stats.count == |ds|
    && (if ds == [] then stats.avg == 0 else NearestToMean(stats.avg, ds))
    && (ds != [] ==> Reports(stats.p50, ds, 0.5) && Reports(stats.p95, ds, 0.95) && Reports(stats.p99, ds, 0.99))
  }

  lemma {:induction false} BucketReads(b: Bucket, ds: seq<int>, p50: int, p95: int, p99: int)
    requires Summarises(Some(b), ds) && ds != []
    requires p50 == Percentile(b.hist, b.durationCount, 0.5) && p95 == Percentile(b.hist, b.durationCount, 0.95)
    requires p99 == Percentile(b.hist, b.durationCount, 0.99)
    ensures Reads(LatencyStats(b.durationCount, RoundedMean(b.durationSum, b.durationCount), p50, p95, p99), ds)
  {
    MeanRounds(ds);
    PercentileReports(b, ds, 0.5);
    PercentileReports(b, ds, 0.95);
    PercentileReports(b, ds, 0.99);
  }

  /** The reading is of the durations of the counted rows logged from the start of that hour on. */
  method AggregateLatency(rollup: Rollup, since: int) returns (stats: LatencyStats)
    ensures forall rows: Rows, n: nat :: Indexes(rollup, rows, n) ==>
      Reads(stats, Timings(Wanted(rows, n, FloorHourMs(since), None, None, None)))
    ensures stats.p50 <= stats.p95 <= stats.p99
  {
    var f := From(FloorHourMs(since), None, None, None);
    var total := SumBuckets(rollup, f);
    forall rows: Rows, n: nat | Indexes(rollup, rows, n)
      ensures Summarises(total, Timings(Wanted(rows, n, FloorHourMs(since), None, None, None)))
    {
      AggregateSummarises(rows, n, f);
      AdmittedWanted(rows, n, FloorHourMs(since), None, None, None);
    }
    if total.None? || total.value.durationCount == 0 { return LatencyStats(0, 0, 0, 0, 0); }
    var b := total.value;
    var p50, p95, p99 := PercentilesFromBuckets(b.hist, b.durationCount);
    stats := LatencyStats(b.durationCount, RoundedMean(b.durationSum, b.durationCount), p50, p95, p99);
    forall rows: Rows, n: nat | Indexes(rollup, rows, n)
      ensures Reads(stats, Timings(Wanted(rows, n, FloorHourMs(since), None, None, None)))
    {
      BucketReads(b, Timings(Wanted(rows, n, FloorHourMs(since), None, None, None)), p50, p95, p99);
    }
  }
}
