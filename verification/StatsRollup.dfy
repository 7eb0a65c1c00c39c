/** Hourly buckets and what folding a log row into them amounts to (src/db/stats.ts). */
module StatsRollup {
  import opened Core

  const HOUR_MS: int := 3600000

  /** `Math.floor(ts / HOUR_MS) * HOUR_MS`. */
  function FloorHourMs(ts: int): (hour: int)
    ensures hour <= ts < hour + HOUR_MS && hour % HOUR_MS == 0
  {
    ts / HOUR_MS * HOUR_MS
  }

  datatype Row = Row(ts: int, provider: string, clientModel: string, upstreamModel: string, status: int,
    duration: Option<int>, promptTokens: Option<int>, completionTokens: Option<int>, totalTokens: Option<int>,
    cachedTokens: Option<int>)

  datatype Key = Key(hour: int, provider: string, clientModel: string, upstreamModel: string)

  type Hist = h: seq<nat> | |h| == 8 witness [0, 0, 0, 0, 0, 0, 0, 0]

  datatype Bucket = Bucket(requests: nat, errors: nat, prompt: int, completion: int, total: int, cached: int,
    durationSum: int, durationCount: nat, lastTs: int, hist: Hist)

  type Rollup = map<Key, Bucket>

  type Rows = map<nat, Row>

  const LATENCY_BOUNDS: seq<int> := [100, 250, 500, 1000, 2000, 5000, 10000]

  /** The first bound the duration does not exceed; 7 is the open top. */
  function LatencyIndex(duration: int, i: nat): (b: nat)
    requires i <= 7
    ensures i <= b <= 7
    ensures b < 7 ==> duration <= LATENCY_BOUNDS[b]
    ensures forall k :: i <= k < b ==> LATENCY_BOUNDS[k] < duration
    decreases 7 - i
  {
    if i == 7 || duration <= LATENCY_BOUNDS[i] then i else LatencyIndex(duration, i + 1)
  }

  function LatencyBucketIndex(duration: int): nat {
    LatencyIndex(duration, 0)
  }

  method FindLatencyBucket(duration: int) returns (index: nat)
    ensures index == LatencyBucketIndex(duration)
    ensures index <= 7
    ensures index < 7 ==> duration <= LATENCY_BOUNDS[index]
    ensures forall k :: 0 <= k < index ==> LATENCY_BOUNDS[k] < duration
  {
    for i := 0 to |LATENCY_BOUNDS|
      invariant LatencyIndex(duration, i) == LatencyBucketIndex(duration)
      invariant forall k :: 0 <= k < i ==> LATENCY_BOUNDS[k] < duration
    {
      if duration <= LATENCY_BOUNDS[i] { return i; }
    }
    index := |LATENCY_BOUNDS|;
  }

  function KeyOf(row: Row): Key {
    Key(FloorHourMs(row.ts), row.provider, row.clientModel, row.upstreamModel)
  }

  function OrZero(n: Option<int>): int {
    if n.Some? then n.value else 0
  }

  function Mark(b: nat): Hist {
    seq(8, i => if i == b then 1 else 0)
  }

  function NoMarks(): Hist {
    seq(8, i => 0)
  }

  /** What one row contributes to its bucket. */
  function One(row: Row): Bucket {
    Bucket(1, if row.status >= 400 then 1 else 0,
           OrZero(row.promptTokens), OrZero(row.completionTokens), OrZero(row.totalTokens), OrZero(row.cachedTokens),
           OrZero(row.duration), if row.duration.Some? then 1 else 0, row.ts,
           if row.duration.Some? then Mark(LatencyBucketIndex(row.duration.value)) else NoMarks())
  }

  function Max(a: int, b: int): int {
    if a < b then b else a
  }

  function AddHist(a: Hist, b: Hist): Hist {
    seq(8, i requires 0 <= i < 8 => a[i] + b[i])
  }

  /** The update the upsert makes on conflict. */
  function Plus(a: Bucket, b: Bucket): Bucket {
    Bucket(a.requests + b.requests, a.errors + b.errors, a.prompt + b.prompt, a.completion + b.completion,
           a.total + b.total, a.cached + b.cached, a.durationSum + b.durationSum, a.durationCount + b.durationCount,
           Max(a.lastTs, b.lastTs), AddHist(a.hist, b.hist))
  }

  function Upserted(rollup: Rollup, row: Row): Rollup {
    var k := KeyOf(row);
    rollup[k := if k in rollup then Plus(rollup[k], One(row)) else One(row)]
  }

  // ---- sums of buckets -------------------------------------------------------------------

  function Join(a: Option<Bucket>, b: Option<Bucket>): Option<Bucket> {
    if a.None? then b else if b.None? then a else Some(Plus(a.value, b.value))
  }

  lemma {:induction false} AddHistLaws(a: Hist, b: Hist, c: Hist)
    ensures AddHist(a, b) == AddHist(b, a)
    ensures AddHist(AddHist(a, b), c) == AddHist(a, AddHist(b, c))
  {
  }

  lemma {:induction false} JoinSwap(a: Option<Bucket>, b: Option<Bucket>, c: Option<Bucket>)
    ensures Join(a, b) == Join(b, a)
    ensures Join(Join(a, b), c) == Join(Join(a, c), b)
    ensures Join(Join(a, b), c) == Join(a, Join(b, c))
  {
    if a.Some? && b.Some? { AddHistLaws(a.value.hist, b.value.hist, a.value.hist); }
    if a.Some? && c.Some? { AddHistLaws(a.value.hist, c.value.hist, a.value.hist); }
    if b.Some? && c.Some? { AddHistLaws(b.value.hist, c.value.hist, b.value.hist); }
    if a.Some? && b.Some? && c.Some? {
      AddHistLaws(a.value.hist, b.value.hist, c.value.hist);
      AddHistLaws(a.value.hist, c.value.hist, b.value.hist);
    }
  }

  /** Which buckets a reading covers: one bucket, or all from an hour on, narrowed by provider
      and models. */
  datatype Filter =
    | Exactly(key: Key)
    | From(hour: int, provider: Option<string>, clientModel: Option<string>, upstreamModel: Option<string>)

  predicate Matches(want: Option<string>, got: string) {
    want.None? || want.value == got
  }

  predicate Admits(f: Filter, k: Key) {
    match f
    case Exactly(key) => k == key
    case From(hour, provider, clientModel, upstreamModel) =>
      k.hour >= hour && Matches(provider, k.provider) && Matches(clientModel, k.clientModel)
          && Matches(upstreamModel, k.upstreamModel)
  }

  function Share(rows: Rows, id: nat, f: Filter): Option<Bucket> {
    if id in rows && Admits(f, KeyOf(rows[id])) then Some(One(rows[id])) else None
  }

  /** The aggregate over the log: what the rows with ids below n contribute, in id order. */
  function Aggregate(rows: Rows, n: nat, f: Filter): Option<Bucket> {
    if n == 0 then None else Join(Aggregate(rows, n - 1, f), Share(rows, n - 1, f))
  }

  /** The order rows are folded in does not matter: a row joins the aggregate from any place. */
  lemma {:induction false} AggregateAdds(rows: Rows, id: nat, row: Row, n: nat, f: Filter)
    requires id !in rows
    ensures Aggregate(rows[id := row], n, f)
         == Join(Aggregate(rows, n, f), if id < n && Admits(f, KeyOf(row)) then Some(One(row)) else None)
  {
    if n > 0 {
      AggregateAdds(rows, id, row, n - 1, f);
      var added := if Admits(f, KeyOf(row)) then Some(One(row)) else None;
      ShareAdds(rows, id, row, n - 1, f);
      JoinSwap(Aggregate(rows, n - 1, f), Share(rows, n - 1, f), added);
    }
  }

  lemma {:induction false} ShareAdds(rows: Rows, id: nat, row: Row, k: nat, f: Filter)
    requires id !in rows
    ensures Share(rows[id := row], k, f)
         == if k == id then (if Admits(f, KeyOf(row)) then Some(One(row)) else None) else Share(rows, k, f)
    ensures k == id ==> Share(rows, k, f) == None
  {
  }

  /** Ids above all rows add nothing. */
  lemma {:induction false} AggregateSettles(rows: Rows, n: nat, m: nat, f: Filter)
    requires n <= m && forall id :: id in rows ==> id < n
    ensures Aggregate(rows, m, f) == Aggregate(rows, n, f)
  {
    if n < m { AggregateSettles(rows, n, m - 1, f); }
  }

  function Lookup(rollup: Rollup, k: Key): Option<Bucket> {
    if k in rollup then Some(rollup[k]) else None
  }

  /** The rollup holds, bucket by bucket, the aggregate of the rows. */
  ghost predicate Indexes(rollup: Rollup, rows: Rows, n: nat) {
    forall k :: Lookup(rollup, k) == Aggregate(rows, n, Exactly(k))
  }

  /** One upsert keeps the rollup the aggregate of one row more. */
  lemma {:induction false} UpsertIndexes(rollup: Rollup, rows: Rows, id: nat, row: Row, n: nat)
    requires Indexes(rollup, rows, n) && id !in rows && id < n
    ensures Indexes(Upserted(rollup, row), rows[id := row], n)
  {
    forall k ensures Lookup(Upserted(rollup, row), k) == Aggregate(rows[id := row], n, Exactly(k)) {
      AggregateAdds(rows, id, row, n, Exactly(k));
      assert Lookup(rollup, k) == Aggregate(rows, n, Exactly(k));
    }
  }
}
