/** Whole runs over the Codex directory: applies of both modes, restores, and outside edits of
    the two live files, in any order. */
module CodexRuns {
  import opened Core
  import opened CodexFiles
  import opened CodexHistory
  import opened CodexState
  import TomlMerge
  import TomlMergeLaws
  import TomlRead

  /** `Edit` is anything another program does to the live files, such as signing in. */
  datatype Op =
    | Apply(mode: Mode, at: nat, target: Target)
    | Restore(ts: nat)
    | Edit(auth: Option<string>, toml: Option<string>)

  /** What an apply found: both files as they were, and the tag it put on their backups. */
  datatype Record = Record(ts: nat, auth: Option<string>, toml: Option<string>, preserved: bool)

  datatype Run = Run(disk: Disk, log: seq<Record>)

  function Recorded(env: Env, d: Disk, op: Op): seq<Record> {
    if op.Apply? then [Record(op.at, d.auth, d.toml, Tags(env, op.mode, d.auth, d.authBackups))] else []
  }

  function After(env: Env, d: Disk, op: Op): Disk {
    match op
    case Apply(mode, at, target) => Applied(env, mode, d, at, target)
    case Restore(ts) => Restored(d, ts)
    case Edit(auth, toml) => d.(auth := auth, toml := toml)
  }

  /** A run from a directory without backups. */
  function Played(env: Env, auth: Option<string>, toml: Option<string>, ops: seq<Op>): Run {
    if ops == [] then Run(Disk(auth, toml, map[], map[]), [])
    else
      var before := Played(env, auth, toml, ops[..|ops| - 1]);
      var op := ops[|ops| - 1];
      Run(After(env, before.disk, op), before.log + Recorded(env, before.disk, op))
  }

  /** The clock moves forward from apply to apply. */
  predicate InTime(ops: seq<Op>) {
    forall i, j :: 0 <= i < j < |ops| && ops[i].Apply? && ops[j].Apply? ==> ops[i].at < ops[j].at
  }

  function AuthLog(log: seq<Record>): seq<Half> {
    seq(|log|, i requires 0 <= i < |log| => Half(log[i].ts, log[i].auth, log[i].preserved))
  }

  function TomlLog(log: seq<Record>): seq<Half> {
    seq(|log|, i requires 0 <= i < |log| => Half(log[i].ts, log[i].toml, log[i].preserved))
  }

  predicate Timed(log: seq<Record>) {
    forall i, j :: 0 <= i < j < |log| ==> log[i].ts < log[j].ts
  }

  predicate Sound(run: Run) {
    && Timed(run.log)
    && run.disk.authBackups == Held(AuthLog(run.log))
    && run.disk.tomlBackups == Held(TomlLog(run.log))
  }

  lemma {:induction false} LogsSnoc(log: seq<Record>, r: Record)
    ensures AuthLog(log + [r]) == AuthLog(log) + [Half(r.ts, r.auth, r.preserved)]
    ensures TomlLog(log + [r]) == TomlLog(log) + [Half(r.ts, r.toml, r.preserved)]
  {
  }

  predicate StampOf(ops: seq<Op>, ts: nat) {
    exists i :: 0 <= i < |ops| && ops[i].Apply? && ops[i].at == ts
  }

  predicate Stamped(log: seq<Record>, ops: seq<Op>) {
    forall k :: 0 <= k < |log| ==> StampOf(ops, log[k].ts)
  }

  lemma {:induction false} StampSnoc(ops: seq<Op>, op: Op, ts: nat)
    requires StampOf(ops, ts) || (op.Apply? && op.at == ts)
    ensures StampOf(ops + [op], ts)
  {
    var more := ops + [op];
    if StampOf(ops, ts) {
      var i :| 0 <= i < |ops| && ops[i].Apply? && ops[i].at == ts;
      assert more[i] == ops[i];
    } else {
      assert more[|ops|] == op;
    }
  }

  lemma {:induction false} StampedMore(log: seq<Record>, more: seq<Record>, ops: seq<Op>, op: Op)
    requires Stamped(log, ops) && forall k :: 0 <= k < |more| ==> op.Apply? && more[k].ts == op.at
    ensures Stamped(log + more, ops + [op])
  {
    forall k | 0 <= k < |log + more| ensures StampOf(ops + [op], (log + more)[k].ts) {
      StampSnoc(ops, op, (log + more)[k].ts);
    }
  }

  lemma {:induction false} StampsFromApplies(env: Env, auth: Option<string>, toml: Option<string>, ops: seq<Op>)
    ensures Stamped(Played(env, auth, toml, ops).log, ops)
  {
    if ops != [] {
      var init, op := ops[..|ops| - 1], ops[|ops| - 1];
      StampsFromApplies(env, auth, toml, init);
      var before := Played(env, auth, toml, init);
      StampedMore(before.log, Recorded(env, before.disk, op), init, op);
      assert init + [op] == ops;
    }
  }

  lemma {:induction false} InTimeInit(ops: seq<Op>)
    requires ops != [] && InTime(ops)
    ensures InTime(ops[..|ops| - 1])
  {
    assert forall i :: 0 <= i < |ops| - 1 ==> ops[..|ops| - 1][i] == ops[i];
  }

  lemma {:induction false} TimedSnoc(log: seq<Record>, r: Record)
    requires Timed(log) && forall k :: 0 <= k < |log| ==> log[k].ts < r.ts
    ensures Timed(log + [r])
  {
    var next := log + [r];
    forall i, j | 0 <= i < j < |next| ensures next[i].ts < next[j].ts {
      assert next[i] == log[i];
    }
  }

  /** At every point of every run the two files hold just the backups their histories call for. */
  lemma {:induction false} RunsSound(env: Env, auth: Option<string>, toml: Option<string>, ops: seq<Op>)
    requires InTime(ops)
    ensures Sound(Played(env, auth, toml, ops))
  {
    if ops != [] {
      var init, op := ops[..|ops| - 1], ops[|ops| - 1];
      InTimeInit(ops);
      RunsSound(env, auth, toml, init);
      var before := Played(env, auth, toml, init);
      if op.Apply? {
        var r := Record(op.at, before.disk.auth, before.disk.toml,
            Tags(env, op.mode, before.disk.auth, before.disk.authBackups));
        LogsSnoc(before.log, r);
        HeldSnoc(AuthLog(before.log), Half(r.ts, r.auth, r.preserved), AuthLog(before.log + [r]));
        HeldSnoc(TomlLog(before.log), Half(r.ts, r.toml, r.preserved), TomlLog(before.log + [r]));
        StampsFromApplies(env, auth, toml, init);
        forall k | 0 <= k < |before.log| ensures before.log[k].ts < op.at {
          assert StampOf(init, before.log[k].ts);
          var i :| 0 <= i < |init| && init[i].Apply? && init[i].at == before.log[k].ts;
          assert ops[i] == init[i];
        }
        TimedSnoc(before.log, r);
      } else {
        assert before.log + [] == before.log;
      }
    }
  }

  // ---- what the backups are worth --------------------------------------------------------

  /** The half of apply i that a file holds, if it holds the right one: nothing where there was
      nothing, and otherwise a backup not yet pruned. */
  predicate Kept(log: seq<Half>, i: nat)
    requires i < |log|
  {
    log[i].before.Some? ==> Due(log, i)
  }

  lemma {:induction false} HalfContent(log: seq<Half>, i: nat)
    requires Ascending(log) && i < |log|
    ensures ContentAt(Held(log), log[i].ts) == if Due(log, i) then log[i].before else None
  {
    BackupsHeld(log);
    assert HeldAt(log, Held(log), i);
  }

  lemma {:induction false} TimedLogs(log: seq<Record>)
    requires Timed(log)
    ensures Ascending(AuthLog(log)) && Ascending(TomlLog(log))
  {
  }

  /** Restoring to apply i brings back exactly the two files it found — presence and content —
      if and only if neither file's backup of it has been pruned. It is offered as long as one of
      them is there. */
  lemma {:induction false} RestoreReproduces(env: Env, auth: Option<string>, toml: Option<string>, ops: seq<Op>, i: nat)
    requires InTime(ops) && i < |Played(env, auth, toml, ops).log|
    ensures var run := Played(env, auth, toml, ops);
      var r, back := run.log[i], Restored(run.disk, run.log[i].ts);
      && (HasPair(run.disk, r.ts) <==> Due(AuthLog(run.log), i) || Due(TomlLog(run.log), i))
      && (HasPair(run.disk, r.ts) ==>
            ((back.auth, back.toml) == (r.auth, r.toml) <==> Kept(AuthLog(run.log), i) && Kept(TomlLog(run.log), i)))
      && back.authBackups == run.disk.authBackups && back.tomlBackups == run.disk.tomlBackups
  {
    var run := Played(env, auth, toml, ops);
    RunsSound(env, auth, toml, ops);
    TimedLogs(run.log);
    HalfContent(AuthLog(run.log), i);
    HalfContent(TomlLog(run.log), i);
  }

  /** Applies after i that left something a prune may drop. */
  function LaterPairs(log: seq<Record>, i: nat): set<nat> {
    set j | i < j < |log| && !log[j].preserved && (log[j].auth.Some? || log[j].toml.Some?) :: log[j].ts
  }

  lemma {:induction false} LaterInPairs(log: seq<Record>, i: nat)
    requires i < |log|
    ensures Later(AuthLog(log), i) <= LaterPairs(log, i)
    ensures Later(TomlLog(log), i) <= LaterPairs(log, i)
  {
    forall ts | ts in Later(AuthLog(log), i) ensures ts in LaterPairs(log, i) {
      var j :| i < j < |log| && Prunable(AuthLog(log)[j]) && AuthLog(log)[j].ts == ts;
      assert log[j].ts == ts;
    }
    forall ts | ts in Later(TomlLog(log), i) ensures ts in LaterPairs(log, i) {
      var j :| i < j < |log| && Prunable(TomlLog(log)[j]) && TomlLog(log)[j].ts == ts;
      assert log[j].ts == ts;
    }
  }

  /** Preserved pairs and the ten newest others always restore exactly. */
  lemma {:induction false} PreservedAndRecentRestore(env: Env, auth: Option<string>, toml: Option<string>,
                                                     ops: seq<Op>, i: nat)
    requires InTime(ops) && i < |Played(env, auth, toml, ops).log|
    requires var log := Played(env, auth, toml, ops).log;
      && (log[i].auth.Some? || log[i].toml.Some?)
      && (log[i].preserved || |LaterPairs(log, i)| < BACKUP_KEEP)
    ensures var run := Played(env, auth, toml, ops);
      && HasPair(run.disk, run.log[i].ts)
      && Restored(run.disk, run.log[i].ts).auth == run.log[i].auth
      && Restored(run.disk, run.log[i].ts).toml == run.log[i].toml
  {
    var log := Played(env, auth, toml, ops).log;
    RestoreReproduces(env, auth, toml, ops, i);
    LaterInPairs(log, i);
    SmallerSet(Later(AuthLog(log), i), LaterPairs(log, i));
    SmallerSet(Later(TomlLog(log), i), LaterPairs(log, i));
  }

  /** At no point are there more than ten unpreserved backups of either file. */
  lemma {:induction false} FewBackups(env: Env, auth: Option<string>, toml: Option<string>, ops: seq<Op>)
    requires InTime(ops)
    ensures var d := Played(env, auth, toml, ops).disk;
      |Unpreserved(d.authBackups)| <= BACKUP_KEEP && |Unpreserved(d.tomlBackups)| <= BACKUP_KEEP
  {
    var run := Played(env, auth, toml, ops);
    RunsSound(env, auth, toml, ops);
    TimedLogs(run.log);
    FewUnpreserved(AuthLog(run.log));
    FewUnpreserved(TomlLog(run.log));
  }

  // ---- what an apply leaves live ---------------------------------------------------------

  /** A config.toml that reads as the patch's four settings above all tables, everything the user
      had, and the patch's table. */
  ghost predicate Configured(existing: Option<string>, p: TomlMerge.Patch, text: string) {
    var entries := TomlRead.Entries(TomlMerge.Split(text));
    && TomlRead.SetOnce(entries, "model", "\"" + p.model + "\"")
    && TomlRead.SetOnce(entries, "model_provider", "\"" + p.modelProvider + "\"")
    && TomlRead.SetIf(entries, "model_context_window", p.contextWindow)
    && TomlRead.SetIf(entries, "model_max_output_tokens", p.maxOutputTokens)
    && entries == TomlRead.Entries(TomlMerge.ManagedBlock(p)) + TomlRead.OfUser(existing, p.providerKey)
                  + TomlRead.Entries(TomlMerge.BlockLines(p))
  }

  /** Whatever the run before, an apply leaves a config.toml for its target, with all the user had in
      it, or the first file where there was none; and the program's login, or the user's where it is
      to be kept and there is one. */
  lemma {:induction false} LiveAfterApply(env: Env, auth: Option<string>, toml: Option<string>, ops: seq<Op>,
                                          mode: Mode, at: nat, t: Target)
    requires TomlMergeLaws.SingleTable(t.patch)
    ensures var found := Played(env, auth, toml, ops).disk;
      var live := Played(env, auth, toml, ops + [Apply(mode, at, t)]).disk;
      && live.auth == (if mode.KeepLogin? && found.auth.Some? then found.auth else Some(env.sentinel))
      && live.toml.Some?
      && if found.toml.None? then live.toml == Some(t.snippet) else Configured(found.toml, t.patch, live.toml.value)
  {
    var found := Played(env, auth, toml, ops).disk;
    assert (ops + [Apply(mode, at, t)])[..|ops|] == ops;
    TomlRead.MergeReads(found.toml, t.patch);
    TomlRead.MergeSets(found.toml, t.patch);
  }

  // ---- nothing preserved is ever lost ----------------------------------------------------

  lemma {:induction false} LogGrows(env: Env, auth: Option<string>, toml: Option<string>, ops: seq<Op>, more: seq<Op>)
    ensures Played(env, auth, toml, ops).log <= Played(env, auth, toml, ops + more).log
  {
    if more == [] {
      assert ops + more == ops;
    } else {
      var init := more[..|more| - 1];
      LogGrows(env, auth, toml, ops, init);
      assert (ops + more)[..|ops + more| - 1] == ops + init;
    }
  }

  lemma {:induction false} InTimePrefix(ops: seq<Op>, more: seq<Op>)
    requires InTime(ops + more)
    ensures InTime(ops)
  {
    assert forall i :: 0 <= i < |ops| ==> (ops + more)[i] == ops[i];
  }

  lemma {:induction false} PreservedHalf(log: seq<Half>, longer: seq<Half>, ts: nat)
    requires Ascending(log) && Ascending(longer) && log <= longer
    requires ts in Held(log) && Held(log)[ts].preserved
    ensures ts in Held(longer) && Held(longer)[ts] == Held(log)[ts]
  {
    BackupsHeld(log);
    BackupsHeld(longer);
    assert MadeAt(log, ts);
    var i :| 0 <= i < |log| && log[i].ts == ts;
    assert longer[i] == log[i];
    PreservedAt(log, longer, Held(log), Held(longer), i);
  }

  lemma {:induction false} PreservedAt(log: seq<Half>, longer: seq<Half>, held: Backups, later: Backups, i: nat)
    requires HeldAt(log, held, i) && HeldAt(longer, later, i) && i < |log| <= |longer| && longer[i] == log[i]
    requires log[i].ts in held && held[log[i].ts].preserved
    ensures log[i].ts in later && later[log[i].ts] == held[log[i].ts]
  {
    assert Due(log, i) && Due(longer, i);
  }

  /** A preserved backup is still there, unchanged, after any further applies, restores and
      outside edits. */
  lemma {:induction false} PreservedForever(env: Env, auth: Option<string>, toml: Option<string>, ops: seq<Op>,
                                            more: seq<Op>, ts: nat)
    requires InTime(ops + more)
    ensures var d, later := Played(env, auth, toml, ops).disk, Played(env, auth, toml, ops + more).disk;
      && (ts in d.authBackups && d.authBackups[ts].preserved ==>
          ts in later.authBackups && later.authBackups[ts] == d.authBackups[ts])
      && (ts in d.tomlBackups && d.tomlBackups[ts].preserved ==>
          ts in later.tomlBackups && later.tomlBackups[ts] == d.tomlBackups[ts])
  {
    InTimePrefix(ops, more);
    RunsSound(env, auth, toml, ops);
    RunsSound(env, auth, toml, ops + more);
    LogGrows(env, auth, toml, ops, more);
    var log, longer := Played(env, auth, toml, ops).log, Played(env, auth, toml, ops + more).log;
    TimedLogs(log);
    TimedLogs(longer);
    assert AuthLog(log) <= AuthLog(longer) && TomlLog(log) <= TomlLog(longer);
    var d := Played(env, auth, toml, ops).disk;
    if ts in d.authBackups && d.authBackups[ts].preserved { PreservedHalf(AuthLog(log), AuthLog(longer), ts); }
    if ts in d.tomlBackups && d.tomlBackups[ts].preserved { PreservedHalf(TomlLog(log), TomlLog(longer), ts); }
  }

  /** However the run goes on, the login an overwriting apply found can be restored, together
      with the config.toml beside it. */
  lemma {:induction false} OverwrittenLoginRecoverable(env: Env, auth: Option<string>, toml: Option<string>,
                                                       ops: seq<Op>,
                                                       at: nat, t: Target, more: seq<Op>)
    requires InTime(ops + [Apply(Overwrite, at, t)] + more)
    requires OwnerOf(env, Played(env, auth, toml, ops).disk.auth).External?
    ensures var found := Played(env, auth, toml, ops).disk;
      var later := Played(env, auth, toml, ops + [Apply(Overwrite, at, t)] + more).disk;
      HasPair(later, at) && Restored(later, at).auth == found.auth && Restored(later, at).toml == found.toml
  {
    var found := Played(env, auth, toml, ops);
    var upto := ops + [Apply(Overwrite, at, t)];
    var r := Record(at, found.disk.auth, found.disk.toml, true);
    assert upto[..|upto| - 1] == ops;
    assert Played(env, auth, toml, upto).log == found.log + [r];
    LogGrows(env, auth, toml, upto, more);
    var i := |found.log|;
    assert (found.log + [r])[i] == r;
    assert Played(env, auth, toml, upto + more).log[i] == r;
    PreservedAndRecentRestore(env, auth, toml, upto + more, i);
  }

  /** The first overwriting apply, if there is one. */
  function FirstOverwrite(ops: seq<Op>): (k: nat)
    ensures k <= |ops|
    ensures forall i :: 0 <= i < k && ops[i].Apply? ==> ops[i].mode.KeepLogin?
    ensures k < |ops| ==> ops[k].Apply? && ops[k].mode.Overwrite?
  {
    if ops == [] || (ops[0].Apply? && ops[0].mode.Overwrite?) then 0 else 1 + FirstOverwrite(ops[1..])
  }

  predicate OnlyApplies(ops: seq<Op>) {
    forall i :: 0 <= i < |ops| ==> ops[i].Apply?
  }

  lemma {:induction false} PlayedSnoc(env: Env, auth: Option<string>, toml: Option<string>, ops: seq<Op>, more: seq<Op>)
    requires more != []
    ensures var before := Played(env, auth, toml, ops + more[..|more| - 1]);
      var op := more[|more| - 1];
      Played(env, auth, toml, ops + more)
      == Run(After(env, before.disk, op), before.log + Recorded(env, before.disk, op))
  {
    assert (ops + more)[..|ops + more| - 1] == ops + more[..|more| - 1];
  }

  lemma {:induction false} LoginKept(env: Env, auth: Option<string>, toml: Option<string>, ops: seq<Op>, more: seq<Op>)
    requires OnlyApplies(more) && OnlyKeepLogin(more) && Played(env, auth, toml, ops).disk.auth.Some?
    ensures Played(env, auth, toml, ops + more).disk.auth == Played(env, auth, toml, ops).disk.auth
  {
    if more == [] {
      assert ops + more == ops;
    } else {
      var init := more[..|more| - 1];
      assert forall i :: 0 <= i < |init| ==> init[i] == more[i];
      LoginKept(env, auth, toml, ops, init);
      PlayedSnoc(env, auth, toml, ops, more);
    }
  }

  lemma {:induction false} SplitAt(ops: seq<Op>, more: seq<Op>, k: nat)
    requires k < |more|
    ensures ops + more == (ops + more[..k]) + [more[k]] + more[k + 1..]
  {
  }

  /** An external login is safe through any further run in which nobody but an apply touches it
      before the first overwriting apply: as long as there is none it is live, and afterwards the
      pair of that apply restores it, whatever else happens. */
  lemma {:induction false} ExternalLoginSafe(env: Env, auth: Option<string>, toml: Option<string>, ops: seq<Op>,
                                             more: seq<Op>)
    requires InTime(ops + more) && OnlyApplies(more[..FirstOverwrite(more)])
    requires OwnerOf(env, Played(env, auth, toml, ops).disk.auth).External?
    ensures var login, later := Played(env, auth, toml, ops).disk.auth, Played(env, auth, toml, ops + more).disk;
      var k := FirstOverwrite(more);
      if k == |more| then later.auth == login
      else HasPair(later, more[k].at) && Restored(later, more[k].at).auth == login
  {
    var k := FirstOverwrite(more);
    var kept := more[..k];
    assert OnlyKeepLogin(kept) by { assert forall i :: 0 <= i < k ==> kept[i] == more[i]; }
    LoginKept(env, auth, toml, ops, kept);
    if k == |more| {
      assert kept == more;
    } else {
      var op := more[k];
      assert op == Apply(Overwrite, op.at, op.target);
      SplitAt(ops, more, k);
      OverwrittenLoginRecoverable(env, auth, toml, ops + kept, op.at, op.target, more[k + 1..]);
    }
  }

  /** How many applies tagged their backups. */
  function TagCount(log: seq<Record>): nat {
    if log == [] then 0 else TagCount(log[..|log| - 1]) + if log[|log| - 1].preserved then 1 else 0
  }

  lemma {:induction false} TagCountSnoc(log: seq<Record>, more: seq<Record>, r: Record)
    requires log <= more
    ensures (more + [r])[|log|..] == more[|log|..] + [r]
    ensures TagCount((more + [r])[|log|..]) == TagCount(more[|log|..]) + if r.preserved then 1 else 0
  {
    var tail := more[|log|..];
    assert (more + [r])[|log|..] == tail + [r];
    assert (tail + [r])[..|tail|] == tail;
  }

  /** The first apply keeps the login, and no backup is preserved yet. */
  predicate TagsFirst(d: Disk, more: seq<Op>) {
    more != [] && more[0].Apply? && more[0].mode.KeepLogin? && !AnyPreserved(d.authBackups)
  }

  /** The tags a run of applies over an external login makes. */
  function Points(start: Disk, more: seq<Op>): nat {
    (if TagsFirst(start, more) then 1 else 0) + (if FirstOverwrite(more) < |more| then 1 else 0)
  }

  /** Where a run of applies over an external login stands. */
  predicate LoginStands(env: Env, login: Option<string>, d: Disk, more: seq<Op>) {
    && d.auth == (if FirstOverwrite(more) < |more| then Some(env.sentinel) else login)
    && (more != [] ==> AnyPreserved(d.authBackups))
  }

  lemma {:induction false} FirstOverwriteSnoc(init: seq<Op>, op: Op)
    ensures var (k, n) := (FirstOverwrite(init), |init|);
      FirstOverwrite(init + [op]) == if k < n then k else if op.Apply? && op.mode.Overwrite? then n else n + 1
  {
    var all := init + [op];
    if init == [] {
      assert all[1..] == [];
    } else if !(init[0].Apply? && init[0].mode.Overwrite?) {
      assert all[1..] == init[1..] + [op];
      FirstOverwriteSnoc(init[1..], op);
    }
  }

  lemma {:induction false} LoginStandsOn(env: Env, login: Option<string>, start: Disk, d: Disk, init: seq<Op>, op: Op)
    requires OwnerOf(env, login).External? && env.ours(env.sentinel) && op.Apply? && start.auth == login
    requires LoginStands(env, login, d, init) && (init == [] ==> d == start)
    requires OwnerOf(env, d.auth).External? || AnyPreserved(d.authBackups) ==>
      AnyPreserved(After(env, d, op).authBackups)
    ensures LoginStands(env, login, After(env, d, op), init + [op])
    ensures Points(start, init + [op]) == Points(start, init) + if Recorded(env, d, op)[0].preserved then 1 else 0
  {
    FirstOverwriteSnoc(init, op);
    assert init != [] ==> (init + [op])[0] == init[0];
  }

  /** What a run that went on only with applies has tagged since, and where it stands. */
  predicate PointsMade(env: Env, run: Run, later: Run, more: seq<Op>) {
    && run.log <= later.log && LoginStands(env, run.disk.auth, later.disk, more)
    && TagCount(later.log[|run.log|..]) == Points(run.disk, more)
  }

  lemma {:induction false} PointsNone(env: Env, run: Run)
    ensures PointsMade(env, run, run, [])
  {
    assert run.log[|run.log|..] == [];
  }

  lemma {:induction false} PointsNext(env: Env, run: Run, before: Run, after: Run, init: seq<Op>, op: Op)
    requires op.Apply? && env.ours(env.sentinel) && OwnerOf(env, run.disk.auth).External?
    requires PointsMade(env, run, before, init) && (init == [] ==> before == run)
    requires after == Run(After(env, before.disk, op), before.log + Recorded(env, before.disk, op))
    requires OwnerOf(env, before.disk.auth).External? || AnyPreserved(before.disk.authBackups) ==>
      AnyPreserved(after.disk.authBackups)
    ensures PointsMade(env, run, after, init + [op])
  {
    TagCountSnoc(run.log, before.log, Recorded(env, before.disk, op)[0]);
    LoginStandsOn(env, run.disk.auth, run.disk, before.disk, init, op);
  }

  lemma {:induction false} PointsStep(env: Env, auth: Option<string>, toml: Option<string>, run: Run, upto: seq<Op>,
                                      init: seq<Op>, op: Op)
    requires InTime(upto + [op]) && op.Apply? && env.ours(env.sentinel) && OwnerOf(env, run.disk.auth).External?
    requires PointsMade(env, run, Played(env, auth, toml, upto), init)
    requires init == [] ==> Played(env, auth, toml, upto) == run
    ensures PointsMade(env, run, Played(env, auth, toml, upto + [op]), init + [op])
  {
    PlayedSnoc(env, auth, toml, upto, [op]);
    assert upto + [] == upto;
    TaggedStays(env, auth, toml, upto, op);
    PointsNext(env, run, Played(env, auth, toml, upto), Played(env, auth, toml, upto + [op]), init, op);
  }

  lemma {:induction false} AppliesInit(ops: seq<Op>, more: seq<Op>, init: seq<Op>, op: Op)
    requires InTime(ops + more) && OnlyApplies(more) && more != []
    requires init == more[..|more| - 1] && op == more[|more| - 1]
    ensures init + [op] == more && ops + more == (ops + init) + [op] && InTime(ops + init)
    ensures OnlyApplies(init) && op.Apply? && (init == [] ==> ops + init == ops)
  {
    assert ops + more == (ops + init) + [op];
    InTimePrefix(ops + init, [op]);
    assert forall i :: 0 <= i < |init| ==> init[i] == more[i];
  }

  /** A run that goes on only with applies tags an external login once for the first apply, if it
      keeps the login and nothing was preserved before, and once for the first that overwrites it;
      so never more than twice, and at most once if all applies are of one mode. */
  lemma {:induction false} RollbackPoints(env: Env, auth: Option<string>, toml: Option<string>, ops: seq<Op>,
                                          more: seq<Op>)
    requires InTime(ops + more) && OnlyApplies(more) && env.ours(env.sentinel)
    requires OwnerOf(env, Played(env, auth, toml, ops).disk.auth).External?
    ensures PointsMade(env, Played(env, auth, toml, ops), Played(env, auth, toml, ops + more), more)
  {
    var run := Played(env, auth, toml, ops);
    if more == [] {
      assert ops + more == ops;
      PointsNone(env, run);
    } else {
      var init, op := more[..|more| - 1], more[|more| - 1];
      AppliesInit(ops, more, init, op);
      RollbackPoints(env, auth, toml, ops, init);
      PointsStep(env, auth, toml, run, ops + init, init, op);
    }
  }

  /** Keeping a login first and overwriting it then leaves two rollback points of the same login. */
  lemma {:induction false} TwoRollbackPoints(env: Env, login: string, toml: Option<string>, t: Target)
    requires !env.ours(login) && env.ours(env.sentinel)
    ensures var ops := [Apply(KeepLogin, 0, t), Apply(Overwrite, 1, t)];
      TagCount(Played(env, Some(login), toml, ops).log) == 2
  {
    var ops := [Apply(KeepLogin, 0, t), Apply(Overwrite, 1, t)];
    assert [] + ops == ops && ops[1..] == [Apply(Overwrite, 1, t)];
    assert FirstOverwrite(ops[1..]) == 0;
    RollbackPoints(env, Some(login), toml, [], ops);
    var log := Played(env, Some(login), toml, ops).log;
    assert log[0..] == log;
  }

  /** After an apply to an external login, or over a preserved backup, one is preserved. */
  lemma {:induction false} TaggedStays(env: Env, auth: Option<string>, toml: Option<string>, ops: seq<Op>, op: Op)
    requires InTime(ops + [op]) && op.Apply?
    ensures var d := Played(env, auth, toml, ops).disk;
      OwnerOf(env, d.auth).External? || AnyPreserved(d.authBackups) ==>
        AnyPreserved(Played(env, auth, toml, ops + [op]).disk.authBackups)
  {
    var before, after := Played(env, auth, toml, ops), Played(env, auth, toml, ops + [op]);
    PlayedSnoc(env, auth, toml, ops, [op]);
    assert ops + [] == ops;
    if AnyPreserved(before.disk.authBackups) {
      var ts :| ts in before.disk.authBackups && before.disk.authBackups[ts].preserved;
      PreservedForever(env, auth, toml, ops, [op], ts);
    } else if OwnerOf(env, before.disk.auth).External? {
      RunsSound(env, auth, toml, ops + [op]);
      PreservedRecordHeld(after, |before.log|);
    }
  }

  predicate OnlyKeepLogin(ops: seq<Op>) {
    forall i :: 0 <= i < |ops| && ops[i].Apply? ==> ops[i].mode.KeepLogin?
  }

  /** At most one apply tagged its pair, and its backup is what stops the next from doing so. */
  predicate SingleTag(run: Run) {
    && (forall i, j :: 0 <= i < j < |run.log| ==> !(run.log[i].preserved && run.log[j].preserved))
    && (forall i :: 0 <= i < |run.log| && run.log[i].preserved ==>
          run.log[i].auth.Some? && AnyPreserved(run.disk.authBackups))
  }

  lemma {:induction false} KeepsSingleTag(env: Env, before: Run, op: Op, run: Run)
    requires SingleTag(before) && (op.Apply? ==> op.mode.KeepLogin?)
    requires run == Run(After(env, before.disk, op), before.log + Recorded(env, before.disk, op)) && Sound(run)
    ensures SingleTag(run)
  {
    var n := |before.log|;
    assert forall i :: 0 <= i < n ==> run.log[i] == before.log[i];
    assert |run.log| > n ==> run.log[n] == Recorded(env, before.disk, op)[0];
    forall i | 0 <= i < |run.log| && run.log[i].preserved
      ensures AnyPreserved(run.disk.authBackups) && run.log[i].auth.Some?
    {
      assert i < n ==> before.log[i].preserved;
      PreservedRecordHeld(run, i);
    }
  }

  /** Applies that keep the login tag at most one pair, so preserved backups do not pile up. */
  lemma {:induction false} OneRollbackPoint(env: Env, auth: Option<string>, toml: Option<string>, ops: seq<Op>)
    requires InTime(ops) && OnlyKeepLogin(ops)
    ensures SingleTag(Played(env, auth, toml, ops))
  {
    if ops != [] {
      var init := ops[..|ops| - 1];
      InTimeInit(ops);
      assert OnlyKeepLogin(init) by { assert forall i :: 0 <= i < |init| ==> init[i] == ops[i]; }
      OneRollbackPoint(env, auth, toml, init);
      RunsSound(env, auth, toml, ops);
      KeepsSingleTag(env, Played(env, auth, toml, init), ops[|ops| - 1], Played(env, auth, toml, ops));
    }
  }

  lemma {:induction false} PreservedRecordHeld(run: Run, i: nat)
    requires Sound(run) && i < |run.log| && run.log[i].preserved && run.log[i].auth.Some?
    ensures AnyPreserved(run.disk.authBackups)
  {
    TimedLogs(run.log);
    BackupsHeld(AuthLog(run.log));
    var h := AuthLog(run.log)[i];
    assert HeldAt(AuthLog(run.log), Held(AuthLog(run.log)), i) && Due(AuthLog(run.log), i);
    assert h.ts in run.disk.authBackups;
  }

  // ---- old pairs may lose one half first -------------------------------------------------

  /** One apply over both files, then n times: auth.json is deleted and the apply repeated. */
  function Churn(n: nat, t: Target): seq<Op> {
    if n == 0 then [Apply(Overwrite, 0, t)]
    else Churn(n - 1, t) + [Edit(None, Some("")), Apply(Overwrite, n, t)]
  }

  predicate Churned(log: seq<Record>, own: string, n: nat) {
    && |log| == n + 1 && log[0] == Record(0, Some(own), Some(""), false)
    && forall k :: 1 <= k <= n ==> log[k] == Record(k, None, Some(""), false)
  }

  lemma {:induction false} ChurnInTime(n: nat, t: Target)
    ensures InTime(Churn(n, t))
    ensures forall i :: 0 <= i < |Churn(n, t)| && Churn(n, t)[i].Apply? ==> Churn(n, t)[i].at <= n
  {
    if n > 0 { ChurnInTime(n - 1, t); }
  }

  lemma {:induction false} ChurnLog(env: Env, own: string, n: nat, t: Target)
    requires env.ours(own)
    ensures Churned(Played(env, Some(own), Some(""), Churn(n, t)).log, own, n)
  {
    var ops := Churn(n, t);
    if n == 0 {
      assert ops[..0] == [];
      assert Played(env, Some(own), Some(""), []).log == [];
    } else {
      ChurnLog(env, own, n - 1, t);
      var before := Churn(n - 1, t);
      var edited := before + [Edit(None, Some(""))];
      assert ops[..|ops| - 1] == edited && edited[..|edited| - 1] == before;
      var run := Played(env, Some(own), Some(""), edited);
      assert run.log == Played(env, Some(own), Some(""), before).log + [];
    }
  }

  /** Older unpreserved pairs may come back wrong: after ten applies that found no auth.json, the
      first pair still offers its auth.json, but its config.toml backup is gone, and restoring it
      deletes a config.toml that did exist. */
  lemma {:induction false} OldPairLosesHalf(env: Env, own: string, t: Target)
    requires env.ours(own)
    ensures var run := Played(env, Some(own), Some(""), Churn(10, t));
      && run.log[0] == Record(0, Some(own), Some(""), false)
      && HasPair(run.disk, 0)
      && Restored(run.disk, 0).auth == Some(own) && Restored(run.disk, 0).toml == None
  {
    var log := Played(env, Some(own), Some(""), Churn(10, t)).log;
    ChurnLog(env, own, 10, t);
    ChurnInTime(10, t);
    RunsSound(env, Some(own), Some(""), Churn(10, t));
    TimedLogs(log);
    HalfContent(AuthLog(log), 0);
    HalfContent(TomlLog(log), 0);
    ChurnRanks(log, own);
  }

  lemma {:induction false} ChurnRanks(log: seq<Record>, own: string)
    requires Churned(log, own, 10)
    ensures Due(AuthLog(log), 0) && !Due(TomlLog(log), 0)
  {
    assert Later(AuthLog(log), 0) == {};
    var ten := {1, 2, 3, 4, 5, 6, 7, 8, 9, 10};
    forall k | k in ten ensures k in Later(TomlLog(log), 0) {
      assert TomlLog(log)[k].ts == k && Prunable(TomlLog(log)[k]);
    }
    SmallerSet(ten, Later(TomlLog(log), 0));
  }
}
