/** A live file of the Codex directory with its timestamped backups (src/codex/files.ts). */
module CodexFiles {
  import opened Core

  datatype Backup = Backup(preserved: bool, content: string)

  type Backups = map<nat, Backup>

  const BACKUP_KEEP: nat := 10

  // ---- what each operation makes of the backups ------------------------------------------

  function Backed(backups: Backups, ts: nat, live: Option<string>, preserve: bool): Backups {
    if live.None? then backups else backups[ts := Backup(preserve, live.value)]
  }

  /** Timestamps of the unpreserved backups newer than ts. */
  function Newer(backups: Backups, ts: nat): set<nat> {
    set u | u in backups && !backups[u].preserved && u > ts
  }

  /** A backup survives a prune when it is preserved or among the `keep` newest that are not. */
  predicate Survives(backups: Backups, keep: nat, ts: nat)
    requires ts in backups
  {
    backups[ts].preserved || |Newer(backups, ts)| < keep
  }

  function Pruned(backups: Backups, keep: nat): Backups {
    map ts | ts in backups && Survives(backups, keep, ts) :: backups[ts]
  }

  function ContentAt(backups: Backups, ts: nat): Option<string> {
    if ts in backups then Some(backups[ts].content) else None
  }

  predicate AnyPreserved(backups: Backups) {
    exists ts :: ts in backups && backups[ts].preserved
  }

  // ---- newest first ----------------------------------------------------------------------

  predicate Descending(order: seq<nat>) {
    forall i, j :: 0 <= i < j < |order| ==> order[i] > order[j]
  }

  function Members(order: seq<nat>): set<nat> {
    set ts | ts in order
  }

  function Inserted(order: seq<nat>, ts: nat): seq<nat> {
    if order == [] then [ts]
    else if ts > order[0] then [ts] + order
    else [order[0]] + Inserted(order[1..], ts)
  }

  lemma {:induction false} MembersCons(ts: nat, order: seq<nat>)
    ensures Members([ts] + order) == {ts} + Members(order)
  {
  }

  lemma {:induction false} DescendingCons(first: nat, rest: seq<nat>)
    requires Descending(rest) && forall j :: 0 <= j < |rest| ==> first > rest[j]
    ensures Descending([first] + rest)
  {
  }

  lemma {:induction false} InsertedOrder(order: seq<nat>, ts: nat)
    requires Descending(order) && ts !in order
    ensures Descending(Inserted(order, ts)) && Members(Inserted(order, ts)) == Members(order) + {ts}
  {
    if order != [] {
      var first, rest := order[0], order[1..];
      assert order == [first] + rest;
      MembersCons(first, rest);
      if ts > first {
        MembersCons(ts, order);
        DescendingCons(ts, order);
      } else {
        InsertedOrder(rest, ts);
        var out := Inserted(rest, ts);
        MembersCons(first, out);
        forall j | 0 <= j < |out| ensures first > out[j] {
          assert out[j] in Members(out);
        }
        DescendingCons(first, out);
      }
    }
  }

  method SortDescending(names: set<nat>) returns (order: seq<nat>)
    ensures Descending(order) && Members(order) == names
  {
    order := [];
    var rest := names;
    while rest != {}
      invariant rest <= names && Descending(order) && Members(order) == names - rest
      decreases |rest|
    {
      var ts :| ts in rest;
      assert ts !in Members(order);
      InsertedOrder(order, ts);
      order := Inserted(order, ts);
      rest := rest - {ts};
    }
  }

  lemma {:induction false} DistinctSize(order: seq<nat>)
    requires Descending(order)
    ensures |Members(order)| == |order|
  {
    if order != [] {
      DistinctSize(order[1..]);
      assert Members(order) == {order[0]} + Members(order[1..]);
      assert order[0] !in order[1..];
    }
  }

  /** The place of a timestamp in a newest-first list counts the newer ones. */
  lemma {:induction false} RankIsIndex(backups: Backups, order: seq<nat>, i: nat)
    requires Descending(order) && i < |order|
    requires forall ts :: ts in order <==> ts in backups && !backups[ts].preserved
    ensures |Newer(backups, order[i])| == i
  {
    assert Newer(backups, order[i]) == Members(order[..i]) by {
      forall u | u in Newer(backups, order[i]) ensures u in order[..i] {
        var j :| 0 <= j < |order| && order[j] == u;
        assert j < i;
        assert order[..i][j] == u;
      }
    }
    DistinctSize(order[..i]);
  }

  /** One live file and its backups. */
  class TrackedFile {
    var live: Option<string>
    var backups: Backups

    constructor (live: Option<string>)
      ensures this.live == live && backups == map[]
    {
      this.live := live;
      backups := map[];
    }

    method BackupFile(ts: nat, preserve: bool) returns (made: bool)
      modifies this`backups
      ensures backups == Backed(old(backups), ts, live, preserve)
      ensures made == live.Some?
    {
      if live.None? { return false; }
      backups := backups[ts := Backup(preserve, live.value)];
      made := true;
    }

    method ListBackups() returns (order: seq<nat>)
      ensures Descending(order) && Members(order) == backups.Keys
    {
      order := SortDescending(backups.Keys);
    }

    method ListUnpreserved() returns (order: seq<nat>)
      ensures Descending(order)
      ensures forall ts :: ts in order <==> ts in backups && !backups[ts].preserved
    {
      var all := ListBackups();
      assert forall ts :: ts in all <==> ts in Members(all);
      order := [];
      for i := 0 to |all|
        invariant Descending(order)
        invariant forall ts :: ts in order <==> ts in all[..i] && !backups[ts].preserved
      {
        assert all[i] in Members(all);
        assert all[..i + 1] == all[..i] + [all[i]];
        if !backups[all[i]].preserved {
          forall j | 0 <= j < |order| ensures order[j] > all[i] {
            assert order[j] in all[..i];
          }
          order := order + [all[i]];
        }
      }
      assert all[..|all|] == all;
    }

    method PruneBackups(keep: nat)
      modifies this`backups
      ensures backups == Pruned(old(backups), keep)
    {
      ghost var before := backups;
      var unpreserved := ListUnpreserved();
      var doomed := Beyond(unpreserved, keep);
      for i := 0 to |doomed|
        invariant backups == Without(before, doomed[..i])
      {
        backups := backups - {doomed[i]};
        assert doomed[..i + 1] == doomed[..i] + [doomed[i]];
      }
      assert doomed[..|doomed|] == doomed;
      BeyondIsPruned(before, unpreserved, keep);
    }

    method DeleteBackupsAt(ts: nat) returns (n: nat)
      modifies this`backups
      ensures backups == old(backups) - {ts}
      ensures n == if ts in old(backups) then 1 else 0
    {
      ghost var before := backups;
      n := 0;
      var all := ListBackups();
      assert ts in all <==> ts in Members(all);
      for i := 0 to |all|
        invariant backups == if ts in all[..i] then before - {ts} else before
        invariant n == if ts in all[..i] then 1 else 0
      {
        assert all[..i + 1] == all[..i] + [all[i]];
        if all[i] == ts {
          backups := backups - {ts};
          n := n + 1;
        }
      }
      assert all[..|all|] == all;
    }
  }

  /** `order.slice(keep)`. */
  function Beyond(order: seq<nat>, keep: nat): seq<nat> {
    if keep < |order| then order[keep..] else []
  }

  function Without(backups: Backups, doomed: seq<nat>): Backups {
    map ts | ts in backups && ts !in doomed :: backups[ts]
  }

  lemma {:induction false} InTail(order: seq<nat>, keep: nat, i: nat)
    requires Descending(order) && i < |order|
    ensures order[i] in Beyond(order, keep) <==> i >= keep
  {
    if i >= keep {
      assert order[keep..][i - keep] == order[i];
    }
  }

  lemma {:induction false} BeyondIsPruned(backups: Backups, order: seq<nat>, keep: nat)
    requires Descending(order)
    requires forall ts :: ts in order <==> ts in backups && !backups[ts].preserved
    ensures Without(backups, Beyond(order, keep)) == Pruned(backups, keep)
  {
    forall ts | ts in backups ensures ts !in Beyond(order, keep) <==> Survives(backups, keep, ts) {
      if !backups[ts].preserved {
        var i :| 0 <= i < |order| && order[i] == ts;
        RankIsIndex(backups, order, i);
        InTail(order, keep, i);
      } else {
        assert ts !in order;
      }
    }
  }
}
