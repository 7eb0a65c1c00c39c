/** The two in-place passes that make an assembled history acceptable upstream:
    dropping orphan tool messages and answering calls that have no output
    (src/translate/reqToChat.ts, removeOrphanToolMessages and ensureToolCallsHaveOutputs). */
module Repair {
  import opened Core
  import opened ChatTypes
  import opened Pairing

  const MISSING_OUTPUT: string :=
    "[tool output missing — no function_call_output was provided for this call_id]"

  /** Ids an assistant message lets tool messages refer to; an empty id never counts. */
  function UsableIds(m: ChatMessage): set<string> {
    set id | id in Declared(m) && id != ""
  }

  function DropOrphans(msgs: seq<ChatMessage>, valid: set<string>): seq<ChatMessage> {
    if msgs == [] then []
    else if msgs[0].role.Tool? then
      if msgs[0].toolCallId.Some? && msgs[0].toolCallId.value in valid
      then [msgs[0]] + DropOrphans(msgs[1..], valid)
      else DropOrphans(msgs[1..], valid)
    else [msgs[0]] + DropOrphans(msgs[1..], UsableIds(msgs[0]))
  }

  function RunLength(msgs: seq<ChatMessage>): (n: nat)
    ensures n <= |msgs|
    ensures forall i :: 0 <= i < n ==> msgs[i].role.Tool?
    ensures n < |msgs| ==> !msgs[n].role.Tool?
  {
    if msgs != [] && msgs[0].role.Tool? then 1 + RunLength(msgs[1..]) else 0
  }

  /** Non-empty ids a run of tool messages answers. */
  function AnsweredIds(run: seq<ChatMessage>): set<string> {
    set m | m in run && m.toolCallId.Some? && m.toolCallId.value != "" :: m.toolCallId.value
  }

  function Unanswered(ids: seq<string>, seen: set<string>): seq<string> {
    if ids == [] then []
    else (if ids[0] in seen then [] else [ids[0]]) + Unanswered(ids[1..], seen)
  }

  function Placeholders(ids: seq<string>): (ms: seq<ChatMessage>)
    ensures |ms| == |ids|
    ensures forall i :: 0 <= i < |ids| ==> ms[i] == ToolMessage(ids[i], MISSING_OUTPUT)
  {
    seq(|ids|, i requires 0 <= i < |ids| => ToolMessage(ids[i], MISSING_OUTPUT))
  }

  /** The placeholders owed by the assistant message m after the run it opened. */
  function Owed(m: ChatMessage, run: seq<ChatMessage>): seq<ChatMessage> {
    if m.role.Assistant? then Placeholders(Unanswered(CallIds(m.toolCalls), AnsweredIds(run))) else []
  }

  function FillMissing(msgs: seq<ChatMessage>): seq<ChatMessage>
    decreases |msgs|
  {
    if msgs == [] then []
    else if msgs[0].role.Assistant? && msgs[0].toolCalls != [] then
      var n := RunLength(msgs[1..]);
      [msgs[0]] + (msgs[1..n + 1] + Owed(msgs[0], msgs[1..n + 1]) + FillMissing(msgs[n + 1..]))
    else [msgs[0]] + FillMissing(msgs[1..])
  }

  function Repaired(msgs: seq<ChatMessage>): seq<ChatMessage> {
    FillMissing(DropOrphans(msgs, {}))
  }

  // ---- the passes as written: index loops that splice ------------------------------------

  method RemoveOrphanToolMessages(list: MessageList)
    modifies list
    ensures list.items == DropOrphans(old(list.items), {})
  {
    var validIds: set<string> := {};
    var i := 0;
    while i < |list.items|
      invariant 0 <= i <= |list.items|
      invariant list.items[..i] + DropOrphans(list.items[i..], validIds) == DropOrphans(old(list.items), {})
      decreases |list.items| - i
    {
      var m := list.items[i];
      ghost var before := list.items;
      if m.role.Tool? && !(m.toolCallId.Some? && m.toolCallId.value in validIds) {
        list.items := list.items[..i] + list.items[i + 1..];
        assert list.items[..i] == before[..i] && list.items[i..] == before[i..][1..];
      } else {
        if !m.role.Tool? {
          validIds := UsableIds(m);
        }
        i := i + 1;
        assert before[i - 1..][1..] == before[i..];
        assert before[..i] == before[..i - 1] + [m];
      }
    }
    assert list.items[..i] == list.items && list.items[i..] == [];
  }

  lemma {:induction false} AnsweredSnoc(run: seq<ChatMessage>, m: ChatMessage)
    ensures AnsweredIds(run + [m])
         == AnsweredIds(run) + (if m.toolCallId.Some? && m.toolCallId.value != "" then {m.toolCallId.value} else {})
  {
    var all := run + [m];
    forall t | t in all ensures t in run || t == m { }
    forall t | t in run ensures t in all { }
    assert m in all by { assert all[|run|] == m; }
  }

  lemma {:induction false} RunGoesOn(msgs: seq<ChatMessage>, j: nat)
    requires j < |msgs| && msgs[j].role.Tool?
    ensures RunLength(msgs[j..]) == 1 + RunLength(msgs[j + 1..])
  {
    assert msgs[j..][1..] == msgs[j + 1..];
  }

  /** The id a tool message answers, if it gives one. */
  function AnswerOf(m: ChatMessage): set<string> {
    if m.toolCallId.Some? && m.toolCallId.value != "" then {m.toolCallId.value} else {}
  }

  lemma {:induction false} SeenGrows(msgs: seq<ChatMessage>, i: nat, j: nat)
    requires i < j < |msgs|
    ensures AnsweredIds(msgs[i + 1..j + 1]) == AnsweredIds(msgs[i + 1..j]) + AnswerOf(msgs[j])
  {
    AnsweredSnoc(msgs[i + 1..j], msgs[j]);
    assert msgs[i + 1..j + 1] == msgs[i + 1..j] + [msgs[j]];
  }

  method SeenInRun(msgs: seq<ChatMessage>, i: nat) returns (j: nat, seen: set<string>)
    requires i < |msgs|
    ensures j == i + 1 + RunLength(msgs[i + 1..])
    ensures seen == AnsweredIds(msgs[i + 1..j])
  {
    seen := {};
    j := i + 1;
    assert AnsweredIds(msgs[i + 1..j]) == {};
    while j < |msgs| && msgs[j].role.Tool?
      invariant i + 1 <= j <= |msgs|
      invariant j + RunLength(msgs[j..]) == i + 1 + RunLength(msgs[i + 1..])
      invariant seen == AnsweredIds(msgs[i + 1..j])
    {
      RunGoesOn(msgs, j);
      SeenGrows(msgs, i, j);
      seen := seen + AnswerOf(msgs[j]);
      j := j + 1;
    }
    RunStops(msgs, j);
  }

  lemma {:induction false} RunStops(msgs: seq<ChatMessage>, j: nat)
    requires j <= |msgs| && (j < |msgs| ==> !msgs[j].role.Tool?)
    ensures RunLength(msgs[j..]) == 0
  {
  }

  /** What is behind i, and what filling makes of the rest. */
  function FilledFrom(msgs: seq<ChatMessage>, i: nat): seq<ChatMessage>
    requires i <= |msgs|
  {
    msgs[..i] + FillMissing(msgs[i..])
  }

  /** Answer the calls of the assistant turn at i that its run leaves open. */
  method FillTurn(list: MessageList, i: nat) returns (next: nat)
    requires i < |list.items| && list.items[i].role.Assistant? && list.items[i].toolCalls != []
    modifies list
    ensures i < next <= |list.items| && FilledFrom(list.items, next) == old(FilledFrom(list.items, i))
  {
    ghost var before := list.items;
    ghost var total := FilledFrom(before, i);
    var j, seen := SeenInRun(list.items, i);
    var missing := Unanswered(CallIds(list.items[i].toolCalls), seen);
    if missing == [] {
      FillAnswered(before, i, j);
      Shift(before, i, FillMissing(before[i + 1..]), FillMissing(before[i..]), total);
      next := i + 1;
    } else {
      var placeholders := Placeholders(missing);
      FillOpener(before, i, j);
      Splice(before, i, j, placeholders, FillMissing(before[j..]), FillMissing(before[i..]), total);
      list.items := list.items[..j] + placeholders + list.items[j..];
      next := j + |placeholders|;
      assert list.items[next..] == before[j..];
      assert list.items[..next] == before[..j] + placeholders;
    }
  }

  lemma {:induction false} FillPasses(msgs: seq<ChatMessage>, i: nat)
    requires i < |msgs| && !(msgs[i].role.Assistant? && msgs[i].toolCalls != [])
    ensures FilledFrom(msgs, i + 1) == FilledFrom(msgs, i)
  {
    assert msgs[i..][1..] == msgs[i + 1..];
    Shift(msgs, i, FillMissing(msgs[i + 1..]), FillMissing(msgs[i..]), FilledFrom(msgs, i));
  }

  method EnsureToolCallsHaveOutputs(list: MessageList)
    modifies list
    ensures list.items == FillMissing(old(list.items))
  {
    ghost var total := FillMissing(list.items);
    var i := 0;
    assert list.items[..0] + total == total && list.items[0..] == list.items;
    while i < |list.items|
      invariant 0 <= i <= |list.items| && FilledFrom(list.items, i) == total
      decreases |total| - i
    {
      FillGrows(list.items[i..]);
      var m := list.items[i];
      if m.role.Assistant? && m.toolCalls != [] {
        i := FillTurn(list, i);
      } else {
        FillPasses(list.items, i);
        i := i + 1;
      }
    }
    assert list.items[..i] == list.items && list.items[i..] == [];
  }

  lemma {:induction false} Shift<T>(s: seq<T>, i: nat, after: seq<T>, now: seq<T>, total: seq<T>)
    requires i < |s| && now == [s[i]] + after && s[..i] + now == total
    ensures s[..i + 1] + after == total
  {
    assert s[..i + 1] == s[..i] + [s[i]];
  }

  lemma {:induction false} Splice<T>(s: seq<T>, i: nat, j: nat, added: seq<T>, after: seq<T>, now: seq<T>,
                                     total: seq<T>)
    requires i < j <= |s| && now == [s[i]] + (s[i + 1..j] + added + after) && s[..i] + now == total
    ensures s[..j] + added + after == total
  {
    assert s[..j] == s[..i] + [s[i]] + s[i + 1..j];
  }

  lemma {:induction false} OwingNothing(m: ChatMessage, run: seq<ChatMessage>, owed: seq<ChatMessage>,
                                        after: seq<ChatMessage>)
    requires owed == []
    ensures [m] + (run + owed + after) == [m] + (run + after)
  {
    assert run + owed == run;
  }

  lemma {:induction false} SliceJoin(msgs: seq<ChatMessage>, i: nat, j: nat)
    requires i <= j <= |msgs|
    ensures msgs[i..j] + msgs[j..] == msgs[i..]
  {
  }

  lemma {:induction false} RunIsTools(msgs: seq<ChatMessage>, i: nat, j: nat)
    requires i < |msgs| && j == i + 1 + RunLength(msgs[i + 1..])
    ensures forall m :: m in msgs[i + 1..j] ==> m.role.Tool?
  {
    var rest := msgs[i + 1..];
    assert msgs[i + 1..j] == rest[..j - i - 1];
  }

  /** An opener whose calls are all answered is passed over unchanged. */
  lemma {:induction false} FillAnswered(msgs: seq<ChatMessage>, i: nat, j: nat)
    requires i < |msgs| && msgs[i].role.Assistant? && msgs[i].toolCalls != []
    requires j == i + 1 + RunLength(msgs[i + 1..])
    requires Owed(msgs[i], msgs[i + 1..j]) == []
    ensures FillMissing(msgs[i..]) == [msgs[i]] + FillMissing(msgs[i + 1..])
  {
    FillOpener(msgs, i, j);
    OwingNothing(msgs[i], msgs[i + 1..j], Owed(msgs[i], msgs[i + 1..j]), FillMissing(msgs[j..]));
    RunIsTools(msgs, i, j);
    FillPastRun(msgs[i + 1..j], msgs[j..]);
    SliceJoin(msgs, i + 1, j);
  }

  lemma {:induction false} FillGrows(msgs: seq<ChatMessage>)
    ensures |FillMissing(msgs)| >= |msgs|
    decreases |msgs|
  {
    if msgs != [] {
      if msgs[0].role.Assistant? && msgs[0].toolCalls != [] {
        FillGrows(msgs[RunLength(msgs[1..]) + 1..]);
      } else {
        FillGrows(msgs[1..]);
      }
    }
  }

  lemma {:induction false} FillOpener(msgs: seq<ChatMessage>, i: nat, j: nat)
    requires i < |msgs| && msgs[i].role.Assistant? && msgs[i].toolCalls != []
    requires j == i + 1 + RunLength(msgs[i + 1..])
    ensures FillMissing(msgs[i..])
         == [msgs[i]] + (msgs[i + 1..j] + Owed(msgs[i], msgs[i + 1..j]) + FillMissing(msgs[j..]))
  {
    var s := msgs[i..];
    var n := j - i - 1;
    assert s[1..] == msgs[i + 1..];
    assert s[1..n + 1] == msgs[i + 1..j];
    assert s[n + 1..] == msgs[j..];
  }

  lemma {:induction false} FillPastRun(run: seq<ChatMessage>, rest: seq<ChatMessage>)
    requires forall m :: m in run ==> m.role.Tool?
    ensures FillMissing(run + rest) == run + FillMissing(rest)
  {
    if run == [] {
      assert run + rest == rest;
    } else {
      assert (run + rest)[1..] == run[1..] + rest;
      FillPastRun(run[1..], rest);
    }
  }

  // ---- repaired histories are well paired ------------------------------------------------

  /** No tool message lacks a call in scope, though calls may lack answers. */
  predicate OrphanFree(msgs: seq<ChatMessage>, valid: set<string>) {
    if msgs == [] then true
    else if msgs[0].role.Tool? then
      msgs[0].toolCallId.Some? && msgs[0].toolCallId.value in valid && OrphanFree(msgs[1..], valid)
    else OrphanFree(msgs[1..], UsableIds(msgs[0]))
  }

  lemma {:induction false} DropLeavesNoOrphans(msgs: seq<ChatMessage>, valid: set<string>)
    ensures OrphanFree(DropOrphans(msgs, valid), valid)
  {
    if msgs != [] {
      var rest := DropOrphans(msgs[1..], if msgs[0].role.Tool? then valid else UsableIds(msgs[0]));
      assert ([msgs[0]] + rest)[1..] == rest;
      DropLeavesNoOrphans(msgs[1..], if msgs[0].role.Tool? then valid else UsableIds(msgs[0]));
    }
  }

  lemma {:induction false} OrphanFreeSplit(msgs: seq<ChatMessage>, n: nat, valid: set<string>)
    requires OrphanFree(msgs, valid) && n == RunLength(msgs)
    ensures forall m :: m in msgs[..n] ==> m.role.Tool? && m.toolCallId.Some? && m.toolCallId.value in valid
    ensures OrphanFree(msgs[n..], {})
  {
    if n == 0 {
      assert msgs[0..] == msgs;
    } else {
      OrphanFreeSplit(msgs[1..], n - 1, valid);
      assert msgs[n..] == msgs[1..][n - 1..];
      assert msgs[..n] == [msgs[0]] + msgs[1..][..n - 1];
    }
  }

  /** A run settles exactly the ids it answers. */
  lemma {:induction false} RunPays(run: seq<ChatMessage>, rest: seq<ChatMessage>, declared: set<string>,
                                   owed: set<string>)
    requires forall m :: m in run ==> m.role.Tool? && m.toolCallId.Some? && m.toolCallId.value in declared
    requires WellPairedFrom(rest, declared, owed - set m | m in run && m.toolCallId.Some? :: m.toolCallId.value)
    ensures WellPairedFrom(run + rest, declared, owed)
  {
    var paid := set m | m in run && m.toolCallId.Some? :: m.toolCallId.value;
    if run == [] {
      assert run + rest == rest;
      assert owed - paid == owed;
    } else {
      var mine := run[0].toolCallId.value;
      var later := set m | m in run[1..] && m.toolCallId.Some? :: m.toolCallId.value;
      assert paid == {mine} + later;
      assert owed - paid == (owed - {mine}) - later;
      assert (run + rest)[1..] == run[1..] + rest;
      RunPays(run[1..], rest, declared, owed - {mine});
    }
  }

  lemma {:induction false} UnansweredMembers(ids: seq<string>, seen: set<string>)
    ensures forall id :: id in Unanswered(ids, seen) <==> id in ids && id !in seen
  {
    if ids != [] {
      UnansweredMembers(ids[1..], seen);
    }
  }

  lemma {:induction false} OwedSettles(m: ChatMessage, run: seq<ChatMessage>, rest: seq<ChatMessage>)
    requires m.role.Assistant?
    requires forall t :: t in run ==> t.role.Tool? && t.toolCallId.Some? && t.toolCallId.value in UsableIds(m)
    requires WellPaired(rest)
    ensures WellPairedFrom(run + Owed(m, run) + rest, Declared(m), Declared(m))
  {
    var ids := CallIds(m.toolCalls);
    UnansweredMembers(ids, AnsweredIds(run));
    var all := run + Owed(m, run);
    var paid := set t | t in all && t.toolCallId.Some? :: t.toolCallId.value;
    forall t | t in all ensures t.role.Tool? && t.toolCallId.Some? && t.toolCallId.value in Declared(m) {
      if t !in run {
        assert t in Owed(m, run);
      }
    }
    forall id | id in Declared(m) ensures id in paid {
      if id !in AnsweredIds(run) {
        var missing := Unanswered(ids, AnsweredIds(run));
        var k :| 0 <= k < |missing| && missing[k] == id;
        assert Owed(m, run)[k] in all;
      }
    }
    assert Declared(m) - paid == {};
    DeclaredIrrelevant(rest, Declared(m));
    RunPays(all, rest, Declared(m), Declared(m));
  }

  lemma {:induction false} BlockPairs(m: ChatMessage, run: seq<ChatMessage>, rest: seq<ChatMessage>)
    requires m.role.Assistant? && WellPaired(rest)
    requires forall t :: t in run ==> t.role.Tool? && t.toolCallId.Some? && t.toolCallId.value in UsableIds(m)
    ensures WellPaired([m] + (run + Owed(m, run) + rest))
  {
    OwedSettles(m, run, rest);
    PairedOpener(m, run + Owed(m, run) + rest);
  }

  lemma {:induction false} RunInScope(msgs: seq<ChatMessage>, n: nat, valid: set<string>)
    requires msgs != [] && OrphanFree(msgs[1..], valid) && n == RunLength(msgs[1..])
    ensures forall t :: t in msgs[1..n + 1] ==> t.role.Tool? && t.toolCallId.Some? && t.toolCallId.value in valid
    ensures OrphanFree(msgs[n + 1..], {})
  {
    assert msgs[1..n + 1] == msgs[1..][..n] && msgs[n + 1..] == msgs[1..][n..];
    OrphanFreeSplit(msgs[1..], n, valid);
  }

  lemma {:induction false} FillPairs(msgs: seq<ChatMessage>)
    requires OrphanFree(msgs, {})
    ensures WellPaired(FillMissing(msgs))
    decreases |msgs|
  {
    if msgs != [] {
      var m := msgs[0];
      if m.role.Assistant? && m.toolCalls != [] {
        var n := RunLength(msgs[1..]);
        RunInScope(msgs, n, UsableIds(m));
        FillPairs(msgs[n + 1..]);
        BlockPairs(m, msgs[1..n + 1], FillMissing(msgs[n + 1..]));
      } else {
        assert UsableIds(m) == {} == Declared(m);
        FillPairs(msgs[1..]);
        PairedOpener(m, FillMissing(msgs[1..]));
      }
    }
  }

  lemma {:induction false} PairedOpener(m: ChatMessage, rest: seq<ChatMessage>)
    requires !m.role.Tool? && WellPairedFrom(rest, Declared(m), Declared(m))
    ensures WellPaired([m] + rest)
  {
    assert ([m] + rest)[1..] == rest;
  }

  /** Whatever was assembled, the repaired history satisfies the pairing demand. */
  lemma {:induction false} RepairWellPaired(msgs: seq<ChatMessage>)
    ensures WellPaired(Repaired(msgs))
    ensures PairedByIndex(Repaired(msgs))
  {
    DropLeavesNoOrphans(msgs, {});
    FillPairs(DropOrphans(msgs, {}));
    PairedIffIndexed(Repaired(msgs));
  }

  // ---- what repair changes, run by run ---------------------------------------------------

  /** The messages that are not tool results, in order. */
  function Openers(msgs: seq<ChatMessage>): seq<ChatMessage> {
    if msgs == [] then []
    else (if msgs[0].role.Tool? then [] else [msgs[0]]) + Openers(msgs[1..])
  }

  /** The tool messages before the first opener, then those after each opener. */
  function Runs(msgs: seq<ChatMessage>): (runs: seq<seq<ChatMessage>>)
    ensures |runs| == |Openers(msgs)| + 1
  {
    if msgs == [] then [[]]
    else
      var later := Runs(msgs[1..]);
      if msgs[0].role.Tool? then [[msgs[0]] + later[0]] + later[1..] else [[]] + later
  }

  function KeepIn(run: seq<ChatMessage>, valid: set<string>): seq<ChatMessage> {
    if run == [] then []
    else
      (if run[0].toolCallId.Some? && run[0].toolCallId.value in valid then [run[0]] else []) + KeepIn(run[1..], valid)
  }

  lemma {:induction false} ToolFirst(m: ChatMessage, rest: seq<ChatMessage>)
    requires m.role.Tool?
    ensures Openers([m] + rest) == Openers(rest)
    ensures Runs([m] + rest) == [[m] + Runs(rest)[0]] + Runs(rest)[1..]
  {
    assert ([m] + rest)[1..] == rest;
  }

  /** `kept` has the same openers, and of each run just the messages that may stay. */
  predicate KeptByRun(msgs: seq<ChatMessage>, kept: seq<ChatMessage>, valid: set<string>) {
    && Openers(kept) == Openers(msgs)
    && Runs(kept)[0] == KeepIn(Runs(msgs)[0], valid)
    && forall b :: 0 <= b < |Openers(msgs)| ==>
        Runs(kept)[b + 1] == KeepIn(Runs(msgs)[b + 1], UsableIds(Openers(msgs)[b]))
  }

  lemma {:induction false} KeepCons(m: ChatMessage, run: seq<ChatMessage>, valid: set<string>)
    ensures KeepIn([m] + run, valid) == KeepIn([m], valid) + KeepIn(run, valid)
    ensures KeepIn([m], valid) == [] || KeepIn([m], valid) == [m]
  {
    assert ([m] + run)[1..] == run && [m][1..] == [];
    EmptyEnds(KeepIn([m], valid));
  }

  lemma {:induction false} KeptTool(m: ChatMessage, rest: seq<ChatMessage>, kept: seq<ChatMessage>, valid: set<string>)
    requires m.role.Tool? && KeptByRun(rest, kept, valid)
    ensures KeptByRun([m] + rest, KeepIn([m], valid) + kept, valid)
  {
    var run := Runs(rest)[0];
    ToolFirst(m, rest);
    KeepCons(m, run, valid);
    EmptyEnds(kept);
    EmptyEnds(KeepIn(run, valid));
    if KeepIn([m], valid) == [m] { ToolFirst(m, kept); }
  }

  lemma {:induction false} KeptOpener(m: ChatMessage, rest: seq<ChatMessage>, kept: seq<ChatMessage>,
                                      valid: set<string>)
    requires !m.role.Tool? && KeptByRun(rest, kept, UsableIds(m))
    ensures KeptByRun([m] + rest, [m] + kept, valid)
  {
    OpenerSplits(m, rest);
    OpenerSplits(m, kept);
  }

  lemma {:induction false} DropFirst(m: ChatMessage, rest: seq<ChatMessage>, valid: set<string>)
    ensures DropOrphans([m] + rest, valid)
         == if m.role.Tool? then KeepIn([m], valid) + DropOrphans(rest, valid)
             else [m] + DropOrphans(rest, UsableIds(m))
  {
    assert ([m] + rest)[1..] == rest;
    assert [m][1..] == [];
    EmptyEnds(DropOrphans(rest, valid));
  }

  lemma {:induction false} DropByRun(msgs: seq<ChatMessage>, valid: set<string>)
    ensures KeptByRun(msgs, DropOrphans(msgs, valid), valid)
  {
    if msgs != [] {
      var m, rest := msgs[0], msgs[1..];
      assert msgs == [m] + rest;
      DropFirst(m, rest, valid);
      if m.role.Tool? {
        DropByRun(rest, valid);
        KeptTool(m, rest, DropOrphans(rest, valid), valid);
      } else {
        DropByRun(rest, UsableIds(m));
        KeptOpener(m, rest, DropOrphans(rest, UsableIds(m)), valid);
      }
    }
  }

  lemma {:induction false} RunsAfterTools(run: seq<ChatMessage>, rest: seq<ChatMessage>)
    requires forall m :: m in run ==> m.role.Tool?
    ensures Openers(run + rest) == Openers(rest)
    ensures Runs(run + rest) == [run + Runs(rest)[0]] + Runs(rest)[1..]
  {
    if run == [] {
      assert run + rest == rest && run + Runs(rest)[0] == Runs(rest)[0];
    } else {
      assert (run + rest)[1..] == run[1..] + rest;
      RunsAfterTools(run[1..], rest);
      assert [run[0]] + (run[1..] + Runs(rest)[0]) == run + Runs(rest)[0];
    }
  }

  function Zipped(f: (ChatMessage, seq<ChatMessage>) -> seq<ChatMessage>, openers: seq<ChatMessage>,
                  runs: seq<seq<ChatMessage>>): (done: seq<seq<ChatMessage>>)
    requires |openers| == |runs|
    ensures |done| == |runs|
    ensures forall b :: 0 <= b < |runs| ==> done[b] == f(openers[b], runs[b])
  {
    seq(|runs|, b requires 0 <= b < |runs| => f(openers[b], runs[b]))
  }

  lemma {:induction false} ZippedCons(f: (ChatMessage, seq<ChatMessage>) -> seq<ChatMessage>, m: ChatMessage,
                                      openers: seq<ChatMessage>, run: seq<ChatMessage>, runs: seq<seq<ChatMessage>>)
    requires |openers| == |runs|
    ensures Zipped(f, [m] + openers, [run] + runs) == [f(m, run)] + Zipped(f, openers, runs)
  {
  }

  function WithOwed(m: ChatMessage, run: seq<ChatMessage>): seq<ChatMessage> {
    run + Owed(m, run)
  }

  /** Each opener's run followed by the placeholders it still needs. */
  function Completed(openers: seq<ChatMessage>, runs: seq<seq<ChatMessage>>): (done: seq<seq<ChatMessage>>)
    requires |openers| == |runs|
    ensures |done| == |runs|
  {
    Zipped(WithOwed, openers, runs)
  }

  lemma {:induction false} CompletedCons(m: ChatMessage, openers: seq<ChatMessage>, run: seq<ChatMessage>,
                                         runs: seq<seq<ChatMessage>>)
    requires |openers| == |runs|
    ensures Completed([m] + openers, [run] + runs) == [run + Owed(m, run)] + Completed(openers, runs)
  {
    ZippedCons(WithOwed, m, openers, run, runs);
  }

  predicate FilledByRun(msgs: seq<ChatMessage>, filled: seq<ChatMessage>) {
    && Openers(filled) == Openers(msgs)
    && Runs(filled) == [Runs(msgs)[0]] + Completed(Openers(msgs), Runs(msgs)[1..])
  }

  lemma {:induction false} CallerByRun(msgs: seq<ChatMessage>, n: nat)
    requires msgs != [] && msgs[0].role.Assistant? && msgs[0].toolCalls != [] && n == RunLength(msgs[1..])
    requires FilledByRun(msgs[n + 1..], FillMissing(msgs[n + 1..]))
    ensures FilledByRun(msgs, FillMissing(msgs))
  {
    var m, run, rest := msgs[0], msgs[1..n + 1], msgs[n + 1..];
    RunsOfRun(msgs, n);
    RunCompleted(m, run, rest, FillMissing(rest));
    CallerBlock(msgs, n);
  }

  lemma {:induction false} CallerBlock(msgs: seq<ChatMessage>, n: nat)
    requires msgs != [] && msgs[0].role.Assistant? && msgs[0].toolCalls != [] && n == RunLength(msgs[1..])
    ensures msgs == [msgs[0]] + (msgs[1..n + 1] + msgs[n + 1..])
    ensures FillMissing(msgs)
         == [msgs[0]] + (msgs[1..n + 1] + Owed(msgs[0], msgs[1..n + 1]) + FillMissing(msgs[n + 1..]))
  {
    assert msgs[1..] == msgs[1..n + 1] + msgs[n + 1..];
  }

  lemma {:induction false} FillByRun(msgs: seq<ChatMessage>)
    ensures FilledByRun(msgs, FillMissing(msgs))
    decreases |msgs|
  {
    if msgs != [] {
      var m := msgs[0];
      if m.role.Assistant? && m.toolCalls != [] {
        var n := RunLength(msgs[1..]);
        FillByRun(msgs[n + 1..]);
        CallerByRun(msgs, n);
      } else if m.role.Tool? {
        FillByRun(msgs[1..]);
        RunExtended(m, msgs[1..], FillMissing(msgs[1..]));
        assert [m] + msgs[1..] == msgs;
      } else {
        FillByRun(msgs[1..]);
        var run := Runs(msgs[1..])[0];
        assert Owed(m, run) == [] && run + [] == run;
        assert [run] + Runs(msgs[1..])[1..] == Runs(msgs[1..]);
        OpenerCompleted(m, msgs[1..], FillMissing(msgs[1..]), run, Runs(msgs[1..])[1..]);
        assert [m] + msgs[1..] == msgs;
      }
    }
  }

  lemma {:induction false} RunsOfRun(msgs: seq<ChatMessage>, n: nat)
    requires msgs != [] && n == RunLength(msgs[1..])
    ensures forall t :: t in msgs[1..n + 1] ==> t.role.Tool?
    ensures Runs(msgs[n + 1..])[0] == []
  {
    assert msgs[n + 1..] != [] ==> msgs[n + 1..][0] == msgs[1..][n];
    forall t | t in msgs[1..n + 1] ensures t.role.Tool? {
      var k :| 0 <= k < n && msgs[1..n + 1][k] == t;
      assert msgs[1..][k] == t;
    }
  }

  lemma {:induction false} RunExtended(m: ChatMessage, rest: seq<ChatMessage>, filled: seq<ChatMessage>)
    requires m.role.Tool? && FilledByRun(rest, filled)
    ensures FilledByRun([m] + rest, [m] + filled)
  {
    assert ([m] + rest)[1..] == rest && ([m] + filled)[1..] == filled;
    assert Runs([m] + rest)[1..] == Runs(rest)[1..];
    assert Openers([m] + rest) == Openers(rest);
    assert Runs(filled)[1..] == Completed(Openers(rest), Runs(rest)[1..]);
  }

  lemma {:induction false} OpenerCompleted(m: ChatMessage, rest: seq<ChatMessage>, filled: seq<ChatMessage>,
                                           run: seq<ChatMessage>, runs: seq<seq<ChatMessage>>)
    requires !m.role.Tool? && Openers(rest) == Openers(filled) && |runs| == |Openers(rest)|
    requires Runs(rest) == [run] + runs
    requires Runs(filled) == [run + Owed(m, run)] + Completed(Openers(rest), runs)
    ensures FilledByRun([m] + rest, [m] + filled)
  {
    OpenerSplits(m, rest);
    OpenerSplits(m, filled);
    CompletedCons(m, Openers(rest), run, runs);
  }

  lemma {:induction false} RunsLineUp(run: seq<ChatMessage>, rest: seq<ChatMessage>, longer: seq<ChatMessage>,
                                      filled: seq<ChatMessage>)
    requires (forall t :: t in run ==> t.role.Tool?) && (forall t :: t in longer ==> t.role.Tool?)
    requires Runs(rest)[0] == [] && FilledByRun(rest, filled)
    ensures Openers(run + rest) == Openers(longer + filled) == Openers(rest)
    ensures Runs(run + rest) == [run] + Runs(rest)[1..]
    ensures Runs(longer + filled) == [longer] + Completed(Openers(rest), Runs(rest)[1..])
  {
    RunAlone(run, rest);
    RunAlone(longer, filled);
  }

  lemma {:induction false} RunCompleted(m: ChatMessage, run: seq<ChatMessage>, rest: seq<ChatMessage>,
                                        filled: seq<ChatMessage>)
    requires m.role.Assistant?
    requires forall t :: t in run ==> t.role.Tool?
    requires Runs(rest)[0] == [] && FilledByRun(rest, filled)
    ensures FilledByRun([m] + (run + rest), [m] + (run + Owed(m, run) + filled))
  {
    var longer := run + Owed(m, run);
    LongerIsRun(m, run);
    RunsLineUp(run, rest, longer, filled);
    OpenerCompleted(m, run + rest, longer + filled, run, Runs(rest)[1..]);
  }

  lemma {:induction false} RunAlone(run: seq<ChatMessage>, rest: seq<ChatMessage>)
    requires forall t :: t in run ==> t.role.Tool?
    requires Runs(rest)[0] == []
    ensures Openers(run + rest) == Openers(rest)
    ensures Runs(run + rest) == [run] + Runs(rest)[1..]
  {
    RunsAfterTools(run, rest);
    assert run + [] == run;
  }

  lemma {:induction false} LongerIsRun(m: ChatMessage, run: seq<ChatMessage>)
    requires forall t :: t in run ==> t.role.Tool?
    ensures forall t :: t in run + Owed(m, run) ==> t.role.Tool?
  {
  }

  lemma {:induction false} OpenerSplits(m: ChatMessage, rest: seq<ChatMessage>)
    requires !m.role.Tool?
    ensures Openers([m] + rest) == [m] + Openers(rest)
    ensures Runs([m] + rest) == [[]] + Runs(rest)
    ensures Runs([m] + rest)[1..] == Runs(rest)
  {
    assert ([m] + rest)[1..] == rest;
  }

  /** Repair touches nothing but the runs: in each run the in-scope results stay, in order,
      followed by one placeholder for each call they leave unanswered. */
  lemma {:induction false} RepairByRun(msgs: seq<ChatMessage>)
    ensures Openers(Repaired(msgs)) == Openers(msgs)
    ensures Runs(Repaired(msgs))[0] == []
    ensures forall b :: 0 <= b < |Openers(msgs)| ==>
              var kept := KeepIn(Runs(msgs)[b + 1], UsableIds(Openers(msgs)[b]));
              Runs(Repaired(msgs))[b + 1] == kept + Owed(Openers(msgs)[b], kept)
  {
    DropByRun(msgs, {});
    var dropped := DropOrphans(msgs, {});
    FillByRun(dropped);
    NothingInScope(Runs(msgs)[0]);
    RunsCompleted(msgs, dropped, Repaired(msgs));
  }

  lemma {:induction false} RunsCompleted(msgs: seq<ChatMessage>, dropped: seq<ChatMessage>, filled: seq<ChatMessage>)
    requires KeptByRun(msgs, dropped, {}) && FilledByRun(dropped, filled)
    ensures forall b :: 0 <= b < |Openers(msgs)| ==>
              var kept := KeepIn(Runs(msgs)[b + 1], UsableIds(Openers(msgs)[b]));
              Runs(filled)[b + 1] == kept + Owed(Openers(msgs)[b], kept)
  {
    forall b | 0 <= b < |Openers(msgs)|
      ensures Runs(filled)[b + 1] == Runs(dropped)[b + 1] + Owed(Openers(msgs)[b], Runs(dropped)[b + 1])
    {
      assert Runs(dropped)[1..][b] == Runs(dropped)[b + 1];
    }
  }

  lemma {:induction false} NothingInScope(run: seq<ChatMessage>)
    ensures KeepIn(run, {}) == []
  {
    if run != [] { NothingInScope(run[1..]); }
  }

  // ---- repair leaves good histories alone ------------------------------------------------

  ghost predicate CallIdsNonEmpty(msgs: seq<ChatMessage>) {
    forall m :: m in msgs ==> "" !in Declared(m)
  }

  lemma {:induction false} DropIdentity(msgs: seq<ChatMessage>, declared: set<string>, owed: set<string>)
    requires WellPairedFrom(msgs, declared, owed) && CallIdsNonEmpty(msgs) && "" !in declared
    ensures DropOrphans(msgs, declared) == msgs
  {
    if msgs != [] {
      var m := msgs[0];
      assert m in msgs;
      forall t | t in msgs[1..] ensures t in msgs { }
      if m.role.Tool? {
        DropIdentity(msgs[1..], declared, owed - {m.toolCallId.value});
      } else {
        assert UsableIds(m) == Declared(m);
        DropIdentity(msgs[1..], Declared(m), Declared(m));
      }
    }
  }

  lemma {:induction false} RunOwes(run: seq<ChatMessage>, rest: seq<ChatMessage>, declared: set<string>,
                                   owed: set<string>)
    requires WellPairedFrom(run + rest, declared, owed) && "" !in declared
    requires forall m :: m in run ==> m.role.Tool?
    requires rest != [] ==> !rest[0].role.Tool?
    ensures owed <= AnsweredIds(run)
    ensures WellPaired(rest)
  {
    if run == [] {
      assert run + rest == rest;
    } else {
      assert (run + rest)[1..] == run[1..] + rest;
      RunOwes(run[1..], rest, declared, owed - {run[0].toolCallId.value});
      assert run[0] in run;
      forall id | id in AnsweredIds(run[1..]) ensures id in AnsweredIds(run) { }
    }
  }

  lemma {:induction false} NothingUnanswered(ids: seq<string>, seen: set<string>)
    requires forall id :: id in ids ==> id in seen
    ensures Unanswered(ids, seen) == []
  {
    if ids != [] {
      forall id | id in ids[1..] ensures id in ids { }
      NothingUnanswered(ids[1..], seen);
    }
  }

  lemma {:induction false} FillIdentity(msgs: seq<ChatMessage>, declared: set<string>, owed: set<string>)
    requires WellPairedFrom(msgs, declared, owed) && CallIdsNonEmpty(msgs)
    ensures FillMissing(msgs) == msgs
    decreases |msgs|
  {
    if msgs != [] {
      var m := msgs[0];
      assert m in msgs;
      forall t | t in msgs[1..] ensures t in msgs { }
      if m.role.Assistant? && m.toolCalls != [] {
        var n := RunLength(msgs[1..]);
        var run, rest := msgs[1..n + 1], msgs[n + 1..];
        CallerBlock(msgs, n);
        RunsOfRun(msgs, n);
        assert msgs[1..] == run + rest;
        RunOwes(run, rest, Declared(m), Declared(m));
        NothingUnanswered(CallIds(m.toolCalls), AnsweredIds(run));
        forall t | t in rest ensures t in msgs { }
        FillIdentity(rest, {}, {});
        assert run + [] == run;
      } else if m.role.Tool? {
        FillIdentity(msgs[1..], declared, owed - {m.toolCallId.value});
      } else {
        FillIdentity(msgs[1..], Declared(m), Declared(m));
      }
    }
  }

  lemma {:induction false} RepairIdentity(msgs: seq<ChatMessage>)
    requires WellPaired(msgs) && CallIdsNonEmpty(msgs)
    ensures Repaired(msgs) == msgs
  {
    DropIdentity(msgs, {}, {});
    FillIdentity(msgs, {}, {});
  }
}
