/** What the hourly rollup means for the rows themselves, by their own fields: where a row is
    counted (src/db/stats.ts), and which rows a reading is about (src/db/logs.ts). */
module StatsRows {
  import opened Core
  import opened StatsRollup

  // ---- one row counted -------------------------------------------------------------------

  /** The bucket a row belongs to: its own provider and models, at the hour it was logged in. */
  predicate Homes(k: Key, row: Row) {
    && k.provider == row.provider && k.clientModel == row.clientModel && k.upstreamModel == row.upstreamModel
    && k.hour % HOUR_MS == 0 && k.hour <= row.ts < k.hour + HOUR_MS
  }

  /** A duration falls between the bound below a bucket and the bucket's own; the last is open. */
  predicate Falls(d: int, b: nat)
    requires b < 8
  {
    (b > 0 ==> LATENCY_BOUNDS[b - 1] < d) && (b < 7 ==> d <= LATENCY_BOUNDS[b])
  }

  function RequestsAt(rollup: Rollup, k: Key): nat { if k in rollup then rollup[k].requests else 0 }
  function ErrorsAt(rollup: Rollup, k: Key): nat { if k in rollup then rollup[k].errors else 0 }
  function PromptAt(rollup: Rollup, k: Key): int { if k in rollup then rollup[k].prompt else 0 }
  function CompletionAt(rollup: Rollup, k: Key): int { if k in rollup then rollup[k].completion else 0 }
  function TotalAt(rollup: Rollup, k: Key): int { if k in rollup then rollup[k].total else 0 }
  function CachedAt(rollup: Rollup, k: Key): int { if k in rollup then rollup[k].cached else 0 }
  function SpentAt(rollup: Rollup, k: Key): int { if k in rollup then rollup[k].durationSum else 0 }
  function TimedAt(rollup: Rollup, k: Key): nat { if k in rollup then rollup[k].durationCount else 0 }

  function SlotAt(rollup: Rollup, k: Key, b: nat): nat
    requires b < 8
  {
    if k in rollup then rollup[k].hist[b] else 0
  }

  /** The row's bucket has grown by the row. */
  predicate Grown(before: Rollup, after: Rollup, k: Key, row: Row) {
    && k in after
    && RequestsAt(after, k) == RequestsAt(before, k) + 1
    && ErrorsAt(after, k) == ErrorsAt(before, k) + (if row.status >= 400 then 1 else 0)
    && (if row.promptTokens.None? then PromptAt(after, k) == PromptAt(before, k)
        else PromptAt(after, k) == PromptAt(before, k) + row.promptTokens.value)
    && (if row.completionTokens.None? then CompletionAt(after, k) == CompletionAt(before, k)
        else CompletionAt(after, k) == CompletionAt(before, k) + row.completionTokens.value)
    && (if row.totalTokens.None? then TotalAt(after, k) == TotalAt(before, k)
        else TotalAt(after, k) == TotalAt(before, k) + row.totalTokens.value)
    && (if row.cachedTokens.None? then CachedAt(after, k) == CachedAt(before, k)
        else CachedAt(after, k) == CachedAt(before, k) + row.cachedTokens.value)
    && after[k].lastTs >= row.ts
    && after[k].lastTs == (if k in before && before[k].lastTs > row.ts then before[k].lastTs else row.ts)
  }

  /** Its duration, if it has one, is added and counted in the one slot it falls in. */
  predicate Clocked(before: Rollup, after: Rollup, k: Key, row: Row) {
    && TimedAt(after, k) == TimedAt(before, k) + (if row.duration.Some? then 1 else 0)
    && SpentAt(after, k) == SpentAt(before, k) + (if row.duration.Some? then row.duration.value else 0)
    && forall b :: 0 <= b < 8 ==>
         SlotAt(after, k, b)
         == SlotAt(before, k, b) + if row.duration.Some? && Falls(row.duration.value, b) then 1 else 0
  }

  /** One row more: in its own bucket, and in no other. */
  ghost predicate Counted(before: Rollup, after: Rollup, row: Row) {
    && (exists k :: Homes(k, row))
    && (forall k :: Homes(k, row) ==> Grown(before, after, k, row) && Clocked(before, after, k, row))
    && (forall k :: !Homes(k, row) ==> Lookup(after, k) == Lookup(before, k))
  }

  lemma {:induction false} HomeIsKey(k: Key, row: Row)
    ensures Homes(k, row) <==> k == KeyOf(row)
  {
    if Homes(k, row) {
      var x := k.hour / HOUR_MS;
      assert k.hour == x * HOUR_MS;
      assert row.ts / HOUR_MS == x;
    }
  }

  lemma {:induction false} SlotOf(d: int, b: nat)
    requires b < 8
    ensures Falls(d, b) <==> b == LatencyBucketIndex(d)
  {
    var i := LatencyBucketIndex(d);
    assert forall j, k :: 0 <= j <= k < 7 ==> LATENCY_BOUNDS[j] <= LATENCY_BOUNDS[k];
    if i < b { assert LATENCY_BOUNDS[i] <= LATENCY_BOUNDS[b - 1]; }
  }

  lemma {:induction false} UpsertClocks(rollup: Rollup, row: Row)
    ensures Clocked(rollup, Upserted(rollup, row), KeyOf(row), row)
  {
    var k, after := KeyOf(row), Upserted(rollup, row);
    forall b | 0 <= b < 8
      ensures SlotAt(after, k, b)
           == SlotAt(rollup, k, b) + if row.duration.Some? && Falls(row.duration.value, b) then 1 else 0
    {
      if row.duration.Some? { SlotOf(row.duration.value, b); }
    }
  }

  /** An upsert counts the row once, in the bucket of its own hour, provider and models. */
  lemma {:induction false} UpsertCounts(rollup: Rollup, row: Row)
    ensures Counted(rollup, Upserted(rollup, row), row)
  {
    var after := Upserted(rollup, row);
    HomeIsKey(KeyOf(row), row);
    UpsertClocks(rollup, row);
    forall k ensures Homes(k, row) <==> k == KeyOf(row) { HomeIsKey(k, row); }
    assert Grown(rollup, after, KeyOf(row), row);
  }

  // ---- the rows a reading is about -------------------------------------------------------

  /** Logged from that hour on, by that provider and those models where they are given. */
  predicate Wants(row: Row, hour: int, provider: Option<string>, clientModel: Option<string>,
                  upstreamModel: Option<string>)
  {
    && row.ts >= hour
    && (provider.Some? ==> row.provider == provider.value)
    && (clientModel.Some? ==> row.clientModel == clientModel.value)
    && (upstreamModel.Some? ==> row.upstreamModel == upstreamModel.value)
  }

  /** Those rows, in id order. */
  function Wanted(rows: Rows, n: nat, hour: int, provider: Option<string>, clientModel: Option<string>,
                  upstreamModel: Option<string>): seq<Row>
  {
    if n == 0 then []
    else
      Wanted(rows, n - 1, hour, provider, clientModel, upstreamModel)
      + if n - 1 in rows && Wants(rows[n - 1], hour, provider, clientModel, upstreamModel) then [rows[n - 1]] else []
  }

  /** The durations among them. */
  function Timings(list: seq<Row>): seq<int> {
    if list == [] then []
    else
      Timings(list[..|list| - 1])
      + if list[|list| - 1].duration.Some? then [list[|list| - 1].duration.value] else []
  }

  lemma {:induction false} TimingsSnoc(list: seq<Row>, row: Row)
    ensures Timings(list + [row]) == Timings(list) + if row.duration.Some? then [row.duration.value] else []
  {
    assert (list + [row])[..|list|] == list;
  }

  /** The bucket filter, read off the row. */
  lemma {:induction false} AdmitsRow(row: Row, hour: int, provider: Option<string>, clientModel: Option<string>,
                                     upstreamModel: Option<string>)
    requires hour % HOUR_MS == 0
    ensures Admits(From(hour, provider, clientModel, upstreamModel), KeyOf(row))
       <==> Wants(row, hour, provider, clientModel, upstreamModel)
  {
    var x, y := row.ts / HOUR_MS, hour / HOUR_MS;
    assert hour == y * HOUR_MS;
    assert x * HOUR_MS <= row.ts < (x + 1) * HOUR_MS;
    assert row.ts >= y * HOUR_MS <==> x >= y;
  }
}
