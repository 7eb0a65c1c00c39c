/** When repairing a repaired history changes nothing. */
module RepairTwice {
  import opened Core
  import opened ChatTypes
  import opened Repair

  function Named(ids: seq<string>): seq<string> {
    if ids == [] then [] else (if ids[0] == "" then [] else [ids[0]]) + Named(ids[1..])
  }

  function Unnamed(ids: seq<string>): seq<string> {
    if ids == [] then [] else (if ids[0] == "" then [ids[0]] else []) + Unnamed(ids[1..])
  }

  /** No anonymous call stands before a named one. */
  predicate NamedFirst(ids: seq<string>) {
    forall i, j :: 0 <= i < j < |ids| && ids[i] == "" ==> ids[j] == ""
  }

  lemma {:induction false} AllUnnamed(ids: seq<string>)
    requires forall i :: 0 <= i < |ids| ==> ids[i] == ""
    ensures Named(ids) == [] && Unnamed(ids) == ids
  {
    if ids != [] { AllUnnamed(ids[1..]); }
  }

  lemma {:induction false} NoneNamed(ids: seq<string>)
    requires Named(ids) == []
    ensures forall i :: 0 <= i < |ids| ==> ids[i] == ""
  {
    if ids != [] { NoneNamed(ids[1..]); }
  }

  lemma {:induction false} NamedHead(ids: seq<string>)
    requires Named(ids) != []
    ensures Named(ids)[0] != ""
  {
    if ids[0] == "" { NamedHead(ids[1..]); }
  }

  lemma {:induction false} SortedTail(id: string, rest: seq<string>)
    requires id != ""
    ensures NamedFirst([id] + rest) <==> NamedFirst(rest)
    ensures Named([id] + rest) + Unnamed([id] + rest) == [id] + (Named(rest) + Unnamed(rest))
  {
    var ids := [id] + rest;
    assert ids[1..] == rest;
    assert forall i :: 0 <= i < |rest| ==> rest[i] == ids[i + 1];
  }

  /** Naming the named ones first is no change exactly when they are first already. */
  lemma {:induction false} SortedIff(ids: seq<string>)
    ensures Named(ids) + Unnamed(ids) == ids <==> NamedFirst(ids)
  {
    if ids != [] {
      if ids[0] != "" {
        SortedIff(ids[1..]);
        SortedTail(ids[0], ids[1..]);
        assert ids == [ids[0]] + ids[1..];
      } else if Named(ids) != [] {
        NamedHead(ids);
        assert (Named(ids) + Unnamed(ids))[0] == Named(ids)[0];
        if NamedFirst(ids) { AllUnnamed(ids); }
      } else {
        NoneNamed(ids);
        AllUnnamed(ids);
      }
    }
  }

  // ---- one run, repaired once and again --------------------------------------------------

  lemma {:induction false} KeepAppend(a: seq<ChatMessage>, b: seq<ChatMessage>, valid: set<string>)
    ensures KeepIn(a + b, valid) == KeepIn(a, valid) + KeepIn(b, valid)
  {
    if a == [] {
      assert a + b == b;
    } else {
      assert (a + b)[1..] == a[1..] + b;
      KeepAppend(a[1..], b, valid);
    }
  }

  lemma {:induction false} KeepKept(run: seq<ChatMessage>, valid: set<string>)
    ensures KeepIn(KeepIn(run, valid), valid) == KeepIn(run, valid)
  {
    if run != [] {
      KeepKept(run[1..], valid);
      var kept := KeepIn(run[1..], valid);
      assert ([run[0]] + kept)[1..] == kept;
      assert [] + kept == kept;
    }
  }

  lemma {:induction false} PlaceholdersCons(id: string, ids: seq<string>)
    ensures Placeholders([id] + ids) == [ToolMessage(id, MISSING_OUTPUT)] + Placeholders(ids)
  {
  }

  lemma {:induction false} PlaceholdersAppend(a: seq<string>, b: seq<string>)
    ensures Placeholders(a + b) == Placeholders(a) + Placeholders(b)
  {
  }

  lemma {:induction false} KeepPlaceholders(ids: seq<string>, valid: set<string>)
    requires "" !in valid && forall i :: 0 <= i < |ids| && ids[i] != "" ==> ids[i] in valid
    ensures KeepIn(Placeholders(ids), valid) == Placeholders(Named(ids))
  {
    if ids != [] {
      var rest := ids[1..];
      KeepPlaceholders(rest, valid);
      assert ids == [ids[0]] + rest;
      PlaceholdersCons(ids[0], rest);
      assert ([ToolMessage(ids[0], MISSING_OUTPUT)] + Placeholders(rest))[1..] == Placeholders(rest);
      if ids[0] != "" { PlaceholdersCons(ids[0], Named(rest)); }
    }
  }

  /** Once every named call is answered, only the anonymous ones are left. */
  lemma {:induction false} OnlyUnnamedLeft(ids: seq<string>, seen: set<string>, more: set<string>)
    requires "" !in seen && "" !in more && forall i :: 0 <= i < |ids| && ids[i] != "" ==> ids[i] in more
    ensures Unanswered(ids, more) == Unnamed(Unanswered(ids, seen))
  {
    if ids != [] {
      OnlyUnnamedLeft(ids[1..], seen, more);
      var later := Unanswered(ids[1..], seen);
      assert ids[0] !in seen ==> ([ids[0]] + later)[1..] == later;
      assert [] + later == later;
    }
  }

  lemma {:induction false} UnansweredFrom(ids: seq<string>, seen: set<string>)
    ensures forall id :: id in Unanswered(ids, seen) ==> id in ids && id !in seen
    ensures forall id :: id in ids && id !in seen ==> id in Unanswered(ids, seen)
  {
    if ids != [] { UnansweredFrom(ids[1..], seen); }
  }

  lemma {:induction false} NamedKeeps(ids: seq<string>)
    ensures forall id :: id in Named(ids) <==> id in ids && id != ""
  {
    if ids != [] { NamedKeeps(ids[1..]); }
  }

  lemma {:induction false} AnsweredByPlaceholders(run: seq<ChatMessage>, ids: seq<string>)
    requires forall id :: id in ids ==> id != ""
    ensures AnsweredIds(run + Placeholders(ids)) == AnsweredIds(run) + (set id | id in ids)
  {
    if ids == [] {
      assert run + Placeholders(ids) == run;
    } else {
      var init, last := ids[..|ids| - 1], ids[|ids| - 1];
      assert ids == init + [last];
      assert forall id :: id in init ==> id in ids;
      AnsweredByPlaceholders(run, init);
      assert run + Placeholders(ids) == (run + Placeholders(init)) + [ToolMessage(last, MISSING_OUTPUT)];
      AnsweredSnoc(run + Placeholders(init), ToolMessage(last, MISSING_OUTPUT));
    }
  }

  /** The calls of an opener that its run, once cleared of orphans, leaves unanswered. */
  function LeftOpen(m: ChatMessage, run: seq<ChatMessage>): seq<string> {
    if m.role.Assistant? then Unanswered(CallIds(m.toolCalls), AnsweredIds(KeepIn(run, UsableIds(m)))) else []
  }

  function RepairedRun(m: ChatMessage, run: seq<ChatMessage>): seq<ChatMessage> {
    KeepIn(run, UsableIds(m)) + Owed(m, KeepIn(run, UsableIds(m)))
  }

  lemma {:induction false} UsableIsNamed(m: ChatMessage, ids: seq<string>)
    requires m.role.Assistant? && ids == CallIds(m.toolCalls)
    ensures "" !in UsableIds(m) && forall i :: 0 <= i < |ids| && ids[i] != "" ==> ids[i] in UsableIds(m)
  {
    forall i | 0 <= i < |ids| && ids[i] != "" ensures ids[i] in UsableIds(m) { assert ids[i] in Declared(m); }
  }

  /** The second repair of a run keeps what was kept and puts the named placeholders first. */
  lemma {:induction false} RunRepairedTwice(m: ChatMessage, run: seq<ChatMessage>)
    ensures var kept, open := KeepIn(run, UsableIds(m)), LeftOpen(m, run);
      && RepairedRun(m, run) == kept + Placeholders(open)
      && RepairedRun(m, RepairedRun(m, run)) == kept + Placeholders(Named(open) + Unnamed(open))
  {
    var valid := UsableIds(m);
    var kept, open := KeepIn(run, valid), LeftOpen(m, run);
    KeepKept(run, valid);
    if m.role.Assistant? {
      var ids, seen := CallIds(m.toolCalls), AnsweredIds(kept);
      UsableIsNamed(m, ids);
      UnansweredFrom(ids, seen);
      KeepAppend(kept, Placeholders(open), valid);
      KeepPlaceholders(open, valid);
      NamedKeeps(open);
      AnsweredByPlaceholders(kept, Named(open));
      OnlyUnnamedLeft(ids, seen, AnsweredIds(kept + Placeholders(Named(open))));
      PlaceholdersAppend(Named(open), Unnamed(open));
      Regroup(kept, Placeholders(Named(open)), Placeholders(Unnamed(open)));
    } else {
      EmptyEnds(kept);
    }
  }

  lemma {:induction false} SamePlaceholders(kept: seq<ChatMessage>, a: seq<string>, b: seq<string>)
    ensures kept + Placeholders(a) == kept + Placeholders(b) <==> a == b
  {
    if kept + Placeholders(a) == kept + Placeholders(b) {
      assert |a| == |b|;
      forall i | 0 <= i < |a| ensures a[i] == b[i] {
        assert (kept + Placeholders(a))[|kept| + i] == Placeholders(a)[i];
        assert (kept + Placeholders(b))[|kept| + i] == Placeholders(b)[i];
      }
    }
  }

  lemma {:induction false} RunSettles(m: ChatMessage, run: seq<ChatMessage>)
    ensures RepairedRun(m, RepairedRun(m, run)) == RepairedRun(m, run) <==> NamedFirst(LeftOpen(m, run))
  {
    var open := LeftOpen(m, run);
    RunRepairedTwice(m, run);
    SamePlaceholders(KeepIn(run, UsableIds(m)), Named(open) + Unnamed(open), open);
    SortedIff(open);
  }

  // ---- the whole history -----------------------------------------------------------------

  /** A history is its openers and its runs. */
  lemma {:induction false} RunsDetermine(a: seq<ChatMessage>, b: seq<ChatMessage>)
    requires Openers(a) == Openers(b) && Runs(a) == Runs(b)
    ensures a == b
    decreases |a|
  {
    if a == [] {
      if b != [] { RunsNonEmpty(b); }
    } else if b == [] {
      RunsNonEmpty(a);
    } else {
      RunsHead(a);
      RunsHead(b);
      RunsDetermine(a[1..], b[1..]);
      assert a == [a[0]] + a[1..] && b == [b[0]] + b[1..];
    }
  }

  lemma {:induction false} RunsNonEmpty(msgs: seq<ChatMessage>)
    requires msgs != []
    ensures Openers(msgs) != [] || Runs(msgs)[0] != []
  {
  }

  /** The first message can be read off the openers and the runs. */
  lemma {:induction false} RunsHead(msgs: seq<ChatMessage>)
    requires msgs != []
    ensures msgs[0].role.Tool? <==> Runs(msgs)[0] != []
    ensures msgs[0].role.Tool? ==>
      Runs(msgs)[0][0] == msgs[0] && Openers(msgs[1..]) == Openers(msgs)
      && Runs(msgs[1..]) == [Runs(msgs)[0][1..]] + Runs(msgs)[1..]
    ensures !msgs[0].role.Tool? ==>
      Openers(msgs) != [] && Openers(msgs)[0] == msgs[0] && Openers(msgs[1..]) == Openers(msgs)[1..]
      && Runs(msgs[1..]) == Runs(msgs)[1..]
  {
    var later := Runs(msgs[1..]);
    assert [later[0]] + later[1..] == later;
  }

  /** The b-th assistant turn has no call without an id before an unanswered call with one. */
  predicate SettledAt(msgs: seq<ChatMessage>, b: nat)
    requires b < |Openers(msgs)|
  {
    NamedFirst(LeftOpen(Openers(msgs)[b], Runs(msgs)[b + 1]))
  }

  /** The same messages after the b-th opener. */
  predicate SameRunAt(x: seq<ChatMessage>, y: seq<ChatMessage>, b: nat) {
    b + 1 < |Runs(x)| && b + 1 < |Runs(y)| && Runs(x)[b + 1] == Runs(y)[b + 1]
  }

  lemma {:induction false} SettlesAt(msgs: seq<ChatMessage>, b: nat)
    requires b < |Openers(msgs)|
    ensures SameRunAt(Repaired(Repaired(msgs)), Repaired(msgs), b) <==> SettledAt(msgs, b)
  {
    RepairByRun(msgs);
    RepairByRun(Repaired(msgs));
    var m, run := Openers(msgs)[b], Runs(msgs)[b + 1];
    assert Runs(Repaired(msgs))[b + 1] == RepairedRun(m, run);
    assert Runs(Repaired(Repaired(msgs)))[b + 1] == RepairedRun(m, RepairedRun(m, run));
    RunSettles(m, run);
  }

  lemma {:induction false} SameRuns(x: seq<ChatMessage>, y: seq<ChatMessage>)
    requires Openers(x) == Openers(y) && Runs(x)[0] == Runs(y)[0]
    requires forall b: nat :: b < |Openers(x)| ==> SameRunAt(x, y, b)
    ensures x == y
  {
    forall k | 0 <= k < |Runs(x)| ensures Runs(x)[k] == Runs(y)[k] {
      if k > 0 { assert SameRunAt(x, y, k - 1); }
    }
    RunsDetermine(x, y);
  }

  /** Repairing again changes nothing if and only if no assistant turn has a call without an id
      before an unanswered call with one. */
  lemma {:induction false} RepairSettlesIff(msgs: seq<ChatMessage>)
    ensures Repaired(Repaired(msgs)) == Repaired(msgs) <==> forall b: nat :: b < |Openers(msgs)| ==> SettledAt(msgs, b)
  {
    var once, twice := Repaired(msgs), Repaired(Repaired(msgs));
    RepairByRun(msgs);
    RepairByRun(once);
    forall b: nat | b < |Openers(msgs)| ensures SameRunAt(twice, once, b) <==> SettledAt(msgs, b) {
      SettlesAt(msgs, b);
    }
    if forall b: nat :: b < |Openers(msgs)| ==> SettledAt(msgs, b) {
      SameRuns(twice, once);
    }
  }

  lemma {:induction false} OpenersAmong(msgs: seq<ChatMessage>, b: nat)
    requires b < |Openers(msgs)|
    ensures Openers(msgs)[b] in msgs
  {
    if msgs[0].role.Tool? {
      OpenersAmong(msgs[1..], b);
    } else if b > 0 {
      OpenersAmong(msgs[1..], b - 1);
    }
  }

  /** With non-empty call ids, repairing twice is repairing once. */
  lemma {:induction false} RepairIdempotent(msgs: seq<ChatMessage>)
    requires CallIdsNonEmpty(msgs)
    ensures Repaired(Repaired(msgs)) == Repaired(msgs)
  {
    forall b: nat | b < |Openers(msgs)| ensures SettledAt(msgs, b) {
      var m := Openers(msgs)[b];
      OpenersAmong(msgs, b);
      if m.role.Assistant? {
        UnansweredFrom(CallIds(m.toolCalls), AnsweredIds(KeepIn(Runs(msgs)[b + 1], UsableIds(m))));
      }
    }
    RepairSettlesIff(msgs);
  }

  /** A lone assistant turn making an anonymous call beside a named one. */
  const TWO_CALLS := ChatMessage(Assistant, None, [ToolCall("", "f", "{}"), ToolCall("b", "g", "{}")], None, None)

  /** With an empty call id a second repair can reorder the placeholders of the first. */
  lemma {:induction false} EmptyCallIdReorders()
    ensures Repaired(Repaired([TWO_CALLS])) != Repaired([TWO_CALLS])
  {
    var ids := CallIds(TWO_CALLS.toolCalls);
    assert ids == ["", "b"] && ids[1..] == ["b"] && ids[1..][1..] == [];
    assert [TWO_CALLS][1..] == [];
    assert Openers([TWO_CALLS]) == [TWO_CALLS] && Runs([TWO_CALLS]) == [[], []];
    assert AnsweredIds([]) == {};
    assert Unanswered(ids[1..], {}) == ["b"];
    assert LeftOpen(TWO_CALLS, []) == ["", "b"];
    assert !SettledAt([TWO_CALLS], 0);
    RepairSettlesIff([TWO_CALLS]);
  }
}
