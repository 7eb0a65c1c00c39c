/** Applying, restoring and deleting Codex configurations
    (src/codex/state.ts, src/codex/preserveLogin.ts). */
module CodexState {
  import opened Core
  import opened CodexFiles
  import TomlMerge

  datatype Owner = Ours | External | Missing

  /** The auth.json this program writes, and how it recognises one of its own. */
  datatype Env = Env(sentinel: string, ours: string -> bool)

  /** What the chosen provider and model put into config.toml: a patch, or a whole first file. */
  datatype Target = Target(patch: TomlMerge.Patch, snippet: string)

  datatype Mode = Overwrite | KeepLogin

  datatype Disk = Disk(auth: Option<string>, toml: Option<string>, authBackups: Backups, tomlBackups: Backups)

  function OwnerOf(env: Env, auth: Option<string>): Owner {
    if auth.None? then Missing else if env.ours(auth.value) then Ours else External
  }

  /** Whether an apply tags its backups as never to be pruned. */
  predicate Tags(env: Env, mode: Mode, auth: Option<string>, authBackups: Backups) {
    OwnerOf(env, auth).External? && (mode.KeepLogin? ==> !AnyPreserved(authBackups))
  }

  function TomlOut(toml: Option<string>, t: Target): string {
    if toml.None? then t.snippet else TomlMerge.Merge(toml, t.patch)
  }

  function AuthOut(env: Env, mode: Mode, auth: Option<string>): string {
    if mode.KeepLogin? && auth.Some? then auth.value else env.sentinel
  }

  function Applied(env: Env, mode: Mode, d: Disk, ts: nat, t: Target): Disk {
    var tag := Tags(env, mode, d.auth, d.authBackups);
    Disk(Some(AuthOut(env, mode, d.auth)), Some(TomlOut(d.toml, t)),
         Pruned(Backed(d.authBackups, ts, d.auth, tag), BACKUP_KEEP),
         Pruned(Backed(d.tomlBackups, ts, d.toml, tag), BACKUP_KEEP))
  }

  predicate HasPair(d: Disk, ts: nat) {
    ts in d.authBackups || ts in d.tomlBackups
  }

  function Restored(d: Disk, ts: nat): Disk {
    if HasPair(d, ts) then d.(auth := ContentAt(d.authBackups, ts), toml := ContentAt(d.tomlBackups, ts)) else d
  }

  datatype BackupPair = BackupPair(ts: nat, auth: Option<Backup>, toml: Option<Backup>)

  function Find(backups: Backups, ts: nat): Option<Backup> {
    if ts in backups then Some(backups[ts]) else None
  }

  function PairAt(d: Disk, ts: nat): BackupPair {
    BackupPair(ts, Find(d.authBackups, ts), Find(d.tomlBackups, ts))
  }

  /** Each half of a pair is its own file's backup of that time, if there is one. */
  predicate Halves(p: BackupPair, auth: Backups, toml: Backups) {
    && (p.auth.Some? <==> p.ts in auth) && (p.auth.Some? ==> p.auth.value == auth[p.ts])
    && (p.toml.Some? <==> p.ts in toml) && (p.toml.Some? ==> p.toml.value == toml[p.ts])
  }

  predicate PairPreserved(p: BackupPair) {
    (p.auth.Some? && p.auth.value.preserved) || (p.toml.Some? && p.toml.value.preserved)
  }

  datatype DeleteResult = NoPair | PreservedPair | Deleted(files: nat)

  function DeletedPair(d: Disk, ts: nat, force: bool): (DeleteResult, Disk) {
    if !HasPair(d, ts) then (NoPair, d)
    else if PairPreserved(PairAt(d, ts)) && !force then (PreservedPair, d)
    else
      (Deleted((if ts in d.authBackups then 1 else 0) + (if ts in d.tomlBackups then 1 else 0)),
       d.(authBackups := d.authBackups - {ts}, tomlBackups := d.tomlBackups - {ts}))
  }

  /** All auth halves, and the config.toml halves of the timestamps in `done`. */
  predicate HalvesUpTo(a: Backups, b: Backups, done: set<nat>, byTs: map<nat, BackupPair>) {
    && byTs.Keys == a.Keys + done
    && forall ts :: ts in byTs ==> byTs[ts] == BackupPair(ts, Find(a, ts), if ts in done then Find(b, ts) else None)
  }

  lemma {:induction false} HalvesStep(a: Backups, b: Backups, done: set<nat>, byTs: map<nat, BackupPair>, ts: nat)
    requires HalvesUpTo(a, b, done, byTs) && ts in b
    ensures var known := if ts in byTs then byTs[ts] else BackupPair(ts, None, None);
      HalvesUpTo(a, b, done + {ts}, byTs[ts := known.(toml := Some(b[ts]))])
  {
  }

  class CodexDir {
    const env: Env
    const auth: TrackedFile
    const toml: TrackedFile

    constructor (env: Env, auth: TrackedFile, toml: TrackedFile)
      requires auth != toml
      ensures this.env == env && this.auth == auth && this.toml == toml
    {
      this.env, this.auth, this.toml := env, auth, toml;
    }

    ghost function State(): Disk
      reads auth, toml
    {
      Disk(auth.live, toml.live, auth.backups, toml.backups)
    }

    method DetectAuthJsonOwner() returns (owner: Owner)
      ensures owner == OwnerOf(env, auth.live)
    {
      if auth.live.None? { return Missing; }
      owner := if env.ours(auth.live.value) then Ours else External;
    }

    method ApplyCodex(ts: nat, t: Target) returns (preserve: bool)
      requires auth != toml
      modifies auth, toml
      ensures State() == Applied(env, Overwrite, old(State()), ts, t)
      ensures preserve == old(Tags(env, Overwrite, auth.live, auth.backups))
    {
      var ownerBefore := DetectAuthJsonOwner();
      preserve := ownerBefore == External;
      var _ := auth.BackupFile(ts, preserve);
      var _ := toml.BackupFile(ts, preserve);
      auth.live := Some(env.sentinel);
      if toml.live.None? {
        toml.live := Some(t.snippet);
      } else {
        var text := TomlMerge.MergeCodexProviderToml(toml.live, t.patch);
        toml.live := Some(text);
      }
      auth.PruneBackups(BACKUP_KEEP);
      toml.PruneBackups(BACKUP_KEEP);
    }

    method AlreadyPreserved() returns (found: bool)
      ensures found == AnyPreserved(auth.backups)
    {
      var order := auth.ListBackups();
      assert forall ts :: ts in auth.backups ==> ts in Members(order);
      found := false;
      for i := 0 to |order|
        invariant found == exists ts :: ts in order[..i] && auth.backups[ts].preserved
        invariant forall ts :: ts in order ==> ts in Members(order)
      {
        assert order[..i + 1] == order[..i] + [order[i]];
        if auth.backups[order[i]].preserved { found := true; }
      }
      assert order[..|order|] == order;
    }

    method ApplyCodexPreserveLogin(ts: nat, t: Target) returns (preserve: bool)
      requires auth != toml
      modifies auth, toml
      ensures State() == Applied(env, KeepLogin, old(State()), ts, t)
      ensures preserve == old(Tags(env, KeepLogin, auth.live, auth.backups))
    {
      var ownerBefore := DetectAuthJsonOwner();
      var alreadyPreserved := AlreadyPreserved();
      preserve := ownerBefore == External && !alreadyPreserved;
      var _ := auth.BackupFile(ts, preserve);
      var _ := toml.BackupFile(ts, preserve);
      if ownerBefore == Missing {
        auth.live := Some(env.sentinel);
      }
      if toml.live.None? {
        toml.live := Some(t.snippet);
      } else {
        var text := TomlMerge.MergeCodexProviderToml(toml.live, t.patch);
        toml.live := Some(text);
      }
      auth.PruneBackups(BACKUP_KEEP);
      toml.PruneBackups(BACKUP_KEEP);
    }

    method AuthHalves() returns (byTs: map<nat, BackupPair>)
      ensures byTs.Keys == auth.backups.Keys
      ensures forall ts :: ts in byTs ==> byTs[ts] == BackupPair(ts, Some(auth.backups[ts]), None)
    {
      var order := auth.ListBackups();
      byTs := map[];
      for i := 0 to |order|
        invariant byTs.Keys == Members(order[..i])
        invariant forall ts :: ts in byTs ==>
          ts in auth.backups && byTs[ts] == BackupPair(ts, Some(auth.backups[ts]), None)
      {
        assert order[i] in Members(order);
        assert Members(order[..i + 1]) == Members(order[..i]) + {order[i]};
        byTs := byTs[order[i] := BackupPair(order[i], Some(auth.backups[order[i]]), None)];
      }
      assert order[..|order|] == order;
    }

    method BothHalves() returns (byTs: map<nat, BackupPair>)
      ensures byTs.Keys == auth.backups.Keys + toml.backups.Keys
      ensures forall ts :: ts in byTs ==> byTs[ts] == PairAt(State(), ts)
    {
      byTs := AuthHalves();
      var order := toml.ListBackups();
      assert Members(order[..0]) == {};
      for i := 0 to |order|
        invariant HalvesUpTo(auth.backups, toml.backups, Members(order[..i]), byTs)
      {
        var ts := order[i];
        assert ts in Members(order);
        assert Members(order[..i + 1]) == Members(order[..i]) + {ts};
        HalvesStep(auth.backups, toml.backups, Members(order[..i]), byTs, ts);
        var known := if ts in byTs then byTs[ts] else BackupPair(ts, None, None);
        byTs := byTs[ts := known.(toml := Some(toml.backups[ts]))];
      }
      assert order[..|order|] == order;
    }

    /** Every timestamp either file has a backup of, newest first, with both halves. */
    method ListBackupPairs() returns (pairs: seq<BackupPair>)
      ensures forall i, j :: 0 <= i < j < |pairs| ==> pairs[i].ts > pairs[j].ts
      ensures forall i :: 0 <= i < |pairs| ==> HasPair(State(), pairs[i].ts) && pairs[i] == PairAt(State(), pairs[i].ts)
      ensures forall ts :: HasPair(State(), ts) ==> PairAt(State(), ts) in pairs
      ensures forall i :: 0 <= i < |pairs| ==> Halves(pairs[i], auth.backups, toml.backups)
    {
      var byTs := BothHalves();
      var order := SortDescending(byTs.Keys);
      pairs := [];
      for i := 0 to |order|
        invariant |pairs| == i
        invariant forall k :: 0 <= k < i ==> pairs[k] == PairAt(State(), order[k]) && order[k] in byTs
      {
        assert order[i] in Members(order);
        pairs := pairs + [byTs[order[i]]];
      }
      forall ts | HasPair(State(), ts) ensures PairAt(State(), ts) in pairs {
        assert ts in Members(order);
        var k :| 0 <= k < |order| && order[k] == ts;
        assert pairs[k] == PairAt(State(), ts);
      }
    }

    /** `listBackupPairs().find((p) => p.ts === ts)`. */
    method FindPair(ts: nat) returns (pair: Option<BackupPair>)
      ensures pair == if HasPair(State(), ts) then Some(PairAt(State(), ts)) else None
    {
      var pairs := ListBackupPairs();
      for i := 0 to |pairs|
        invariant forall k :: 0 <= k < i ==> pairs[k].ts != ts
      {
        if pairs[i].ts == ts { return Some(pairs[i]); }
      }
      pair := None;
    }

    method RestoreCodex(ts: nat) returns (ok: bool)
      requires auth != toml
      modifies auth, toml
      ensures ok == old(HasPair(State(), ts))
      ensures State() == Restored(old(State()), ts)
    {
      var pair := FindPair(ts);
      if pair.None? { return false; }
      if pair.value.auth.Some? {
        auth.live := Some(pair.value.auth.value.content);
      } else if auth.live.Some? {
        auth.live := None;
      }
      if pair.value.toml.Some? {
        toml.live := Some(pair.value.toml.value.content);
      } else if toml.live.Some? {
        toml.live := None;
      }
      ok := true;
    }

    method DeleteBackupPair(ts: nat, force: bool) returns (result: DeleteResult)
      requires auth != toml
      modifies auth, toml
      ensures (result, State()) == DeletedPair(old(State()), ts, force)
      ensures auth.live == old(auth.live) && toml.live == old(toml.live)
      // Kept if either half is preserved, unless forced; otherwise both halves go, and nothing else.
      ensures result.NoPair? <==> ts !in old(auth.backups) && ts !in old(toml.backups)
      ensures result.PreservedPair? <==>
        !force && ((ts in old(auth.backups) && old(auth.backups)[ts].preserved)
                   || (ts in old(toml.backups) && old(toml.backups)[ts].preserved))
      ensures !result.Deleted? ==> auth.backups == old(auth.backups) && toml.backups == old(toml.backups)
      ensures result.Deleted? ==>
        && auth.backups == old(auth.backups) - {ts} && toml.backups == old(toml.backups) - {ts}
        && result.files == |old(auth.backups)| - |auth.backups| + |old(toml.backups)| - |toml.backups|
    {
      var pair := FindPair(ts);
      if pair.None? { return NoPair; }
      if PairPreserved(pair.value) && !force { return PreservedPair; }
      var a := auth.DeleteBackupsAt(ts);
      var b := toml.DeleteBackupsAt(ts);
      result := Deleted(a + b);
    }
  }
}
