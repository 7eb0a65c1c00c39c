/** Which backups of one file are still there after any number of applies. */
module CodexHistory {
  import opened Core
  import opened CodexFiles

  /** One apply, as one of the two files saw it: its content before, and the backup's tag. */
  datatype Half = Half(ts: nat, before: Option<string>, preserved: bool)

  /** One apply's effect on the backups: the file is backed up, then old backups are pruned. */
  function Next(held: Backups, h: Half): Backups {
    Pruned(Backed(held, h.ts, h.before, h.preserved), BACKUP_KEEP)
  }

  /** The backups after a run of applies. */
  function Held(log: seq<Half>): Backups {
    if log == [] then map[] else Next(Held(log[..|log| - 1]), log[|log| - 1])
  }

  lemma {:induction false} HeldSnoc(log: seq<Half>, h: Half, next: seq<Half>)
    requires next == log + [h]
    ensures Held(next) == Next(Held(log), h)
  {
    assert next[..|next| - 1] == log;
  }

  predicate Ascending(log: seq<Half>) {
    forall i, j :: 0 <= i < j < |log| ==> log[i].ts < log[j].ts
  }

  predicate Prunable(h: Half) {
    h.before.Some? && !h.preserved
  }

  /** The prunable backups made after apply i. */
  function Later(log: seq<Half>, i: nat): set<nat> {
    set j | i < j < |log| && Prunable(log[j]) :: log[j].ts
  }

  /** Apply i's backup is due to be there still: it was made, and it is preserved or fewer than
      ten prunable backups were made after it. */
  predicate Due(log: seq<Half>, i: nat)
    requires i < |log|
  {
    log[i].before.Some? && (log[i].preserved || |Later(log, i)| < BACKUP_KEEP)
  }

  lemma {:induction false} SmallerSet(a: set<nat>, b: set<nat>)
    requires a <= b
    ensures |a| <= |b|
  {
    if a != {} {
      var x :| x in a;
      SmallerSet(a - {x}, b - {x});
    }
  }

  lemma {:induction false} LaterGrows(log: seq<Half>, h: Half, i: nat)
    requires i < |log|
    ensures Later(log + [h], i) == Later(log, i) + if Prunable(h) then {h.ts} else {}
  {
    var next := log + [h];
    forall ts | ts in Later(log, i) ensures ts in Later(next, i) {
      var j :| i < j < |log| && Prunable(log[j]) && log[j].ts == ts;
      assert next[j] == log[j];
    }
    if Prunable(h) { assert next[|log|] == h; }
  }

  lemma {:induction false} LaterNested(log: seq<Half>, i: nat, j: nat)
    requires i < j < |log|
    ensures Later(log, j) <= Later(log, i)
  {
  }

  /** Apply i's backup is there exactly when it is due, with the content it was made of. */
  predicate HeldAt(log: seq<Half>, held: Backups, i: nat) {
    i < |log| ==>
      && (log[i].ts in held <==> Due(log, i))
      && (log[i].ts in held ==> held[log[i].ts] == Backup(log[i].preserved, log[i].before.value))
  }

  predicate MadeAt(log: seq<Half>, ts: nat) {
    exists i :: 0 <= i < |log| && log[i].ts == ts
  }

  ghost predicate HeldAsDue(log: seq<Half>, held: Backups) {
    (forall i: nat :: HeldAt(log, held, i)) && forall ts :: ts in held ==> MadeAt(log, ts)
  }

  /** Every prunable backup made after a due one is due, so it is still there. */
  lemma {:induction false} LaterHeld(log: seq<Half>, held: Backups, i: nat, ts: nat)
    requires Ascending(log) && HeldAsDue(log, held) && i < |log| && Due(log, i) && !log[i].preserved
    requires ts in Later(log, i)
    ensures ts > log[i].ts && ts in held && !held[ts].preserved
  {
    var j :| i < j < |log| && Prunable(log[j]) && log[j].ts == ts;
    LaterNested(log, i, j);
    SmallerSet(Later(log, j), Later(log, i));
    assert Due(log, j) && HeldAt(log, held, j);
  }

  lemma {:induction false} HeldLater(log: seq<Half>, held: Backups, i: nat, ts: nat)
    requires Ascending(log) && HeldAsDue(log, held) && i < |log|
    requires ts in held && !held[ts].preserved && ts > log[i].ts
    ensures ts in Later(log, i)
  {
    assert MadeAt(log, ts);
    var j :| 0 <= j < |log| && log[j].ts == ts;
    assert HeldAt(log, held, j) && Due(log, j);
    assert j > i;
  }

  lemma {:induction false} AscendingInit(log: seq<Half>, h: Half)
    requires Ascending(log + [h])
    ensures Ascending(log) && forall i :: 0 <= i < |log| ==> log[i].ts < h.ts
  {
    var next := log + [h];
    assert next[|log|] == h;
    assert forall i :: 0 <= i < |log| ==> next[i] == log[i];
  }

  lemma {:induction false} NewerAt(log: seq<Half>, h: Half, held: Backups, i: nat, ts: nat, later: set<nat>)
    requires Ascending(log) && h.ts !in held && i < |log| && log[i].ts < h.ts
    requires HeldAsDue(log, held) && Due(log, i) && !log[i].preserved && later == Later(log, i)
    ensures ts in Newer(Backed(held, h.ts, h.before, h.preserved), log[i].ts)
       <==> ts in later || (Prunable(h) && ts == h.ts)
  {
    if ts in later { LaterHeld(log, held, i, ts); }
    if ts in held && !held[ts].preserved && ts > log[i].ts { HeldLater(log, held, i, ts); }
  }

  /** Among the backups before a prune, those newer than apply i's are the ones made later. */
  lemma {:induction false} NewerIsLater(log: seq<Half>, h: Half, held: Backups, i: nat)
    requires Ascending(log + [h]) && HeldAsDue(log, held) && i < |log| && Due(log, i) && !log[i].preserved
    ensures Newer(Backed(held, h.ts, h.before, h.preserved), log[i].ts) == Later(log + [h], i)
  {
    AscendingInit(log, h);
    NoneNewer(log, h, held);
    LaterGrows(log, h, i);
    var newer, later := Newer(Backed(held, h.ts, h.before, h.preserved), log[i].ts), Later(log, i);
    forall ts ensures ts in newer <==> ts in later || (Prunable(h) && ts == h.ts) {
      NewerAt(log, h, held, i, ts, later);
    }
  }

  lemma {:induction false} HeldStep(log: seq<Half>, h: Half, held: Backups, i: nat)
    requires Ascending(log + [h]) && HeldAsDue(log, held) && i <= |log|
    ensures HeldAt(log + [h], Next(held, h), i)
  {
    if i < |log| {
      HeldStill(log, h, held, i);
    } else {
      HeldNew(log, h, held);
    }
  }

  lemma {:induction false} HeldStill(log: seq<Half>, h: Half, held: Backups, i: nat)
    requires Ascending(log + [h]) && HeldAsDue(log, held) && i < |log|
    ensures HeldAt(log + [h], Next(held, h), i)
  {
    var next := log + [h];
    assert next[i] == log[i] && next[|log|] == h && HeldAt(log, held, i);
    LaterGrows(log, h, i);
    SmallerSet(Later(log, i), Later(next, i));
    if Due(log, i) && !log[i].preserved { NewerIsLater(log, h, held, i); }
  }

  lemma {:induction false} HeldNew(log: seq<Half>, h: Half, held: Backups)
    requires Ascending(log + [h]) && HeldAsDue(log, held)
    ensures HeldAt(log + [h], Next(held, h), |log|)
  {
    assert (log + [h])[|log|] == h;
    NoneNewer(log, h, held);
    assert Later(log + [h], |log|) == {};
  }

  lemma {:induction false} NoneNewer(log: seq<Half>, h: Half, held: Backups)
    requires Ascending(log + [h]) && HeldAsDue(log, held)
    ensures h.ts !in held && Newer(Backed(held, h.ts, h.before, h.preserved), h.ts) == {}
  {
    var next := log + [h];
    assert next[|log|] == h;
    forall ts | ts in held ensures ts < h.ts {
      assert MadeAt(log, ts);
      var j :| 0 <= j < |log| && log[j].ts == ts;
      assert next[j] == log[j];
    }
  }

  lemma {:induction false} MadeSnoc(log: seq<Half>, h: Half, ts: nat)
    requires ts == h.ts || MadeAt(log, ts)
    ensures MadeAt(log + [h], ts)
  {
    var next := log + [h];
    assert next[|log|] == h;
    if MadeAt(log, ts) {
      var j :| 0 <= j < |log| && log[j].ts == ts;
      assert next[j] == log[j];
    }
  }

  /** A backup is still there exactly when it is due, with the content it was made of; and
      nothing else is there. */
  lemma {:induction false} BackupsHeld(log: seq<Half>)
    requires Ascending(log)
    ensures HeldAsDue(log, Held(log))
  {
    if log != [] {
      var init, h := log[..|log| - 1], log[|log| - 1];
      assert log == init + [h];
      BackupsHeld(init);
      var held, now := Held(init), Held(log);
      forall i: nat ensures HeldAt(log, now, i) {
        if i < |log| { HeldStep(init, h, held, i); }
      }
      forall ts | ts in now ensures MadeAt(log, ts) {
        assert ts == h.ts || ts in held;
        MadeSnoc(init, h, ts);
      }
    }
  }

  function Unpreserved(held: Backups): set<nat> {
    set ts | ts in held && !held[ts].preserved
  }

  lemma {:induction false} Oldest(s: set<nat>) returns (least: nat)
    requires s != {}
    ensures least in s && forall x :: x in s ==> least <= x
  {
    least :| least in s;
    if s != {least} {
      var first := least;
      var other := Oldest(s - {first});
      if other < first { least := other; }
      forall x | x in s ensures least <= x {
        if x != first { assert x in s - {first}; }
      }
    }
  }

  /** At most ten backups that may be pruned are kept. */
  lemma {:induction false} FewUnpreserved(log: seq<Half>)
    requires Ascending(log)
    ensures |Unpreserved(Held(log))| <= BACKUP_KEEP
  {
    BackupsHeld(log);
    FewHeld(log, Held(log));
  }

  lemma {:induction false} FewHeld(log: seq<Half>, held: Backups)
    requires Ascending(log) && HeldAsDue(log, held)
    ensures |Unpreserved(held)| <= BACKUP_KEEP
  {
    if Unpreserved(held) != {} {
      var least := Oldest(Unpreserved(held));
      assert MadeAt(log, least);
      var i :| 0 <= i < |log| && log[i].ts == least;
      FewSince(log, held, i, Unpreserved(held) - {least});
    }
  }

  lemma {:induction false} FewSince(log: seq<Half>, held: Backups, i: nat, rest: set<nat>)
    requires Ascending(log) && HeldAsDue(log, held) && i < |log| && log[i].ts in held && !held[log[i].ts].preserved
    requires forall ts :: ts in rest ==> ts in held && !held[ts].preserved && ts > log[i].ts
    ensures |rest| < BACKUP_KEEP
  {
    assert HeldAt(log, held, i) && Due(log, i);
    RestLater(log, held, i, rest);
  }

  lemma {:induction false} RestLater(log: seq<Half>, held: Backups, i: nat, rest: set<nat>)
    requires Ascending(log) && HeldAsDue(log, held) && i < |log|
    requires forall ts :: ts in rest ==> ts in held && !held[ts].preserved && ts > log[i].ts
    ensures |rest| <= |Later(log, i)|
  {
    forall ts | ts in rest ensures ts in Later(log, i) {
      HeldLater(log, held, i, ts);
    }
    SmallerSet(rest, Later(log, i));
  }
}
