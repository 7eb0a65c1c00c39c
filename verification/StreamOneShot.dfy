/** Streaming refines one-shot, told by the chunks: a message whose deltas come in the one-shot
    order ends as the one-shot translation of the message they add up to
    (src/translate/streamToSse.ts, src/translate/respToResponses.ts). */
module StreamOneShot {
  import opened Core
  import opened ChatTypes
  import opened ResponseTypes
  import opened RespToResponses
  import opened StreamMachine
  import opened StreamConservation
  import opened StreamAgreement
  import opened StreamDeltas

  // ---- the order of the deltas -----------------------------------------------------------

  predicate Thinks(c: Chunk) {
    c.choice.Some? && OrElse(c.choice.value.delta.reasoning, "") != ""
  }

  predicate Talks(c: Chunk) {
    c.choice.Some? && (OrElse(c.choice.value.delta.content, "") != "" || c.choice.value.delta.annotations != [])
  }

  predicate Calls(c: Chunk) {
    c.choice.Some? && c.choice.value.delta.calls != []
  }

  /** No chunk thinks after one that talked or called, and none talks after one that called; one
      chunk may do all three. */
  predicate Orderly(chunks: seq<Chunk>) {
    forall i, j :: 0 <= i < j < |chunks| ==>
      (Talks(chunks[i]) ==> !Thinks(chunks[j])) && (Calls(chunks[i]) ==> !Thinks(chunks[j]) && !Talks(chunks[j]))
  }

  // ---- what the deltas add up to ---------------------------------------------------------

  /** A call that brings its id with its first delta, and some name, unless no name has a namespace. */
  predicate WholeCall(cfg: Config, deltas: seq<CallDelta>) {
    && deltas != [] && deltas[0].id.Some?
    && ((exists i :: 0 <= i < |deltas| && OrElse(deltas[i].name, "") != "") || cfg.Namespace("").None?)
  }

  /** The call that some deltas make. */
  predicate CallIs(deltas: seq<CallDelta>, c: ToolCall) {
    deltas != [] && deltas[0].id == Some(c.id) && FirstNamed(deltas, c.name) && c.arguments == Fragments(deltas)
  }

  /** The message that chunks add up to: texts joined, citations in order, one call per index, by
      ascending index. */
  ghost predicate AddsUpTo(chunks: seq<Chunk>, c: Completion, order: seq<int>) {
    && c.content == Concat(ContentDeltas(chunks)) && c.reasoning == Concat(ReasoningDeltas(chunks))
    && c.annotations == NotesIn(chunks)
    && (forall i, j :: 0 <= i < j < |order| ==> order[i] < order[j])
    && (forall k :: k in order <==> CallIn(chunks, k) != [])
    && |c.calls| == |order| && forall i :: 0 <= i < |order| ==> CallIs(CallIn(chunks, order[i]), c.calls[i])
  }

  // ---- the steps come in order -----------------------------------------------------------

  predicate Silent(step: Step) {
    step.UsageStep? || step.FinishStep?
  }

  predicate AtLeast(steps: seq<Step>, r: nat) {
    forall i :: 0 <= i < |steps| ==> Silent(steps[i]) || r <= Rank(steps[i])
  }

  predicate AtMost(steps: seq<Step>, r: nat) {
    forall i :: 0 <= i < |steps| ==> Rank(steps[i]) <= r
  }

  lemma {:induction false} ReachedAtMost(steps: seq<Step>, r: nat)
    requires AtMost(steps, r)
    ensures Reached(steps) <= r
  {
    if steps != [] { ReachedAtMost(steps[..|steps| - 1], r); }
  }

  lemma {:induction false} ReachedAppend(a: seq<Step>, b: seq<Step>)
    ensures Reached(a + b) == if Reached(a) < Reached(b) then Reached(b) else Reached(a)
  {
    if b == [] {
      assert a + b == a;
    } else {
      assert (a + b)[..|a + b| - 1] == a + b[..|b| - 1];
      ReachedAppend(a, b[..|b| - 1]);
    }
  }

  lemma {:induction false} InOrderAppend(a: seq<Step>, b: seq<Step>)
    requires InOrder(a) && InOrder(b) && AtLeast(b, Reached(a))
    ensures InOrder(a + b)
  {
    if b == [] {
      assert a + b == a;
    } else {
      var init := b[..|b| - 1];
      assert (a + b)[..|a + b| - 1] == a + init && (a + b)[|a + b| - 1] == b[|b| - 1];
      InOrderAppend(a, init);
      ReachedAppend(a, init);
    }
  }

  lemma {:induction false} OneRank(steps: seq<Step>, r: nat)
    requires AtLeast(steps, r) && AtMost(steps, r)
    ensures InOrder(steps)
  {
    if steps != [] {
      OneRank(steps[..|steps| - 1], r);
      ReachedAtMost(steps[..|steps| - 1], r);
    }
  }

  lemma {:induction false} SixParts<T>(u: seq<T>, r: seq<T>, t: seq<T>, n: seq<T>, c: seq<T>, f: seq<T>)
    ensures u + (r + t + n + c) + f == (u + r) + ((t + n) + (c + f))
  {
  }

  /** The steps of a chunk without extraction: thinking, then talking, then calls. */
  lemma {:induction false} ChunkInParts(chunk: Chunk)
    returns (think: seq<Step>, talk: seq<Step>, calls: seq<Step>, after: seq<Step>)
    ensures StepsOf(None, chunk).1 == think + (talk + (calls + after))
    ensures forall i :: 0 <= i < |think| ==> think[i].UsageStep? || (think[i].ReasonStep? && Thinks(chunk))
    ensures forall i :: 0 <= i < |talk| ==> talk[i].TextStep? || talk[i].NoteStep?
    ensures forall i :: 0 <= i < |calls| ==> calls[i].CallStep?
    ensures (talk != [] ==> Talks(chunk)) && (calls != [] ==> Calls(chunk))
    ensures forall i :: 0 <= i < |after| ==> after[i].FinishStep?
  {
    var u := UsageSteps(chunk.usage);
    if chunk.choice.None? {
      think, talk, calls, after := u, [], [], [];
      EmptyEnds(u);
    } else {
      var Choice(delta, finish) := chunk.choice.value;
      var text, thought := OrElse(delta.content, ""), OrElse(delta.reasoning, "");
      var r := if thought == "" then [] else [ReasonStep(thought)];
      var t := if text == "" then [] else [TextStep(text)];
      think, talk := u + r, t + NoteSteps(delta.annotations);
      calls, after := CallSteps(delta.calls), FinishSteps(finish);
      assert |talk| == |t| + |delta.annotations| && |calls| == |delta.calls|;
      SixParts(u, r, t, NoteSteps(delta.annotations), calls, after);
    }
  }

  lemma {:induction false} ChunkInThree(chunk: Chunk)
    returns (think: seq<Step>, talk: seq<Step>, calls: seq<Step>, after: seq<Step>)
    ensures StepsOf(None, chunk).1 == think + (talk + (calls + after))
    ensures AtLeast(think, 0) && AtMost(think, 0) && AtLeast(talk, 1) && AtMost(talk, 1)
    ensures AtLeast(calls, 2) && AtMost(calls, 2) && AtLeast(after, 2) && AtMost(after, 0)
    ensures !Thinks(chunk) ==> AtLeast(think, 2)
    ensures !Talks(chunk) ==> talk == []
    ensures !Calls(chunk) ==> calls == []
  {
    think, talk, calls, after := ChunkInParts(chunk);
    ThinkRanks(think);
    TalkRanks(talk);
    CallRanks(calls);
    AfterRanks(after);
    if !Thinks(chunk) { QuietRanks(think); }
  }

  lemma {:induction false} ThinkRanks(steps: seq<Step>)
    requires forall i :: 0 <= i < |steps| ==> steps[i].UsageStep? || steps[i].ReasonStep?
    ensures AtLeast(steps, 0) && AtMost(steps, 0)
  {
  }

  lemma {:induction false} QuietRanks(steps: seq<Step>)
    requires forall i :: 0 <= i < |steps| ==> steps[i].UsageStep?
    ensures AtLeast(steps, 2)
  {
  }

  lemma {:induction false} TalkRanks(steps: seq<Step>)
    requires forall i :: 0 <= i < |steps| ==> steps[i].TextStep? || steps[i].NoteStep?
    ensures AtLeast(steps, 1) && AtMost(steps, 1)
  {
  }

  lemma {:induction false} CallRanks(steps: seq<Step>)
    requires forall i :: 0 <= i < |steps| ==> steps[i].CallStep?
    ensures AtLeast(steps, 2) && AtMost(steps, 2)
  {
  }

  lemma {:induction false} AfterRanks(steps: seq<Step>)
    requires forall i :: 0 <= i < |steps| ==> steps[i].FinishStep?
    ensures AtLeast(steps, 2) && AtMost(steps, 0)
  {
  }

  lemma {:induction false} ThreeInOrder(think: seq<Step>, talk: seq<Step>, calls: seq<Step>, after: seq<Step>)
    requires AtLeast(think, 0) && AtMost(think, 0) && AtLeast(talk, 1) && AtMost(talk, 1)
    requires AtLeast(calls, 2) && AtMost(calls, 2) && AtLeast(after, 2) && AtMost(after, 0)
    ensures InOrder(think + (talk + (calls + after)))
  {
    SilentInOrder(after);
    OneRank(calls, 2);
    OneRank(talk, 1);
    OneRank(think, 0);
    ReachedAtMost(calls, 2);
    ReachedAtMost(talk, 1);
    ReachedAtMost(think, 0);
    InOrderAppend(calls, after);
    InOrderAppend(talk, calls + after);
    InOrderAppend(think, talk + (calls + after));
  }

  lemma {:induction false} SilentInOrder(steps: seq<Step>)
    requires AtLeast(steps, 2) && AtMost(steps, 0)
    ensures InOrder(steps)
  {
    if steps != [] { SilentInOrder(steps[..|steps| - 1]); }
  }

  /** How far a chunk goes, and from where it may start. */
  function Top(c: Chunk): nat {
    if Calls(c) then 2 else if Talks(c) then 1 else 0
  }

  function Low(c: Chunk): nat {
    if Thinks(c) then 0 else if Talks(c) then 1 else 2
  }

  lemma {:induction false} RanksAppend(a: seq<Step>, b: seq<Step>, low: nat, top: nat)
    requires AtLeast(a, low) && AtLeast(b, low) && AtMost(a, top) && AtMost(b, top)
    ensures AtLeast(a + b, low) && AtMost(a + b, top)
  {
  }

  lemma {:induction false} Wider(steps: seq<Step>, low: nat, top: nat, low': nat, top': nat)
    requires AtLeast(steps, low) && AtMost(steps, top) && low' <= low && top <= top'
    ensures AtLeast(steps, low') && AtMost(steps, top')
  {
  }

  lemma {:induction false} NoRanks(low: nat, top: nat)
    ensures AtLeast([], low) && AtMost([], top)
  {
  }

  lemma {:induction false} ChunkRanks(chunk: Chunk)
    ensures var steps := StepsOf(None, chunk).1;
      InOrder(steps) && AtMost(steps, Top(chunk)) && AtLeast(steps, Low(chunk)) && StepsOf(None, chunk).0 == None
  {
    var think, talk, calls, after := ChunkInThree(chunk);
    ThreeInOrder(think, talk, calls, after);
    var low, top := Low(chunk), Top(chunk);
    Wider(think, if Thinks(chunk) then 0 else 2, 0, low, top);
    Wider(after, 2, 0, low, top);
    NoRanks(low, top);
    if Talks(chunk) { Wider(talk, 1, 1, low, top); }
    if Calls(chunk) { Wider(calls, 2, 2, low, top); }
    RanksAppend(calls, after, low, top);
    RanksAppend(talk, calls + after, low, top);
    RanksAppend(think, talk + (calls + after), low, top);
  }

  lemma {:induction false} ChunksReach(chunks: seq<Chunk>, r: nat)
    requires forall i :: 0 <= i < |chunks| ==> Top(chunks[i]) <= r
    ensures StepsOfAll(None, chunks).0 == None && Reached(StepsOfAll(None, chunks).1) <= r
  {
    if chunks != [] {
      var init, last := chunks[..|chunks| - 1], chunks[|chunks| - 1];
      ChunksReach(init, r);
      ChunkRanks(last);
      ReachedAtMost(StepsOf(None, last).1, r);
      ReachedAppend(StepsOfAll(None, init).1, StepsOf(None, last).1);
    }
  }

  lemma {:induction false} OrderlySteps(chunks: seq<Chunk>)
    requires Orderly(chunks)
    ensures StepsOfAll(None, chunks).0 == None && InOrder(StepsOfAll(None, chunks).1)
  {
    if chunks != [] {
      var init, last := chunks[..|chunks| - 1], chunks[|chunks| - 1];
      assert forall i :: 0 <= i < |init| ==> init[i] == chunks[i];
      OrderlySteps(init);
      ChunkRanks(last);
      forall i | 0 <= i < |init| ensures Top(init[i]) <= Low(last) { assert init[i] == chunks[i]; }
      ChunksReach(init, Low(last));
      InOrderAppend(StepsOfAll(None, init).1, StepsOf(None, last).1);
    }
  }

  // ---- the whole -------------------------------------------------------------------------

  lemma {:induction false} StepsWhole(cfg: Config, chunks: seq<Chunk>, k: int)
    requires CallIn(chunks, k) != [] ==> WholeCall(cfg, CallIn(chunks, k))
    ensures var steps := AllSteps(false, chunks);
      && (k in CallIndexes(steps) <==> CallIn(chunks, k) != [])
      && (k in CallIndexes(steps) ==> Whole(cfg, steps, k) && CallIs(CallIn(chunks, k), SpelledCall(steps, k)))
  {
    var steps, deltas := AllSteps(false, chunks), CallIn(chunks, k);
    StoryAll(false, chunks, k);
    IndexHasStory(steps, k);
    if deltas != [] {
      assert StoryOf(Story(steps, k), deltas);
      if cfg.Namespace("").Some? { NameGiven(deltas, Story(steps, k).value.name); }
    }
  }

  lemma {:induction false} NameGiven(deltas: seq<CallDelta>, name: string)
    requires FirstNamed(deltas, name) && exists i :: 0 <= i < |deltas| && OrElse(deltas[i].name, "") != ""
    ensures name != ""
  {
  }

  lemma {:induction false} IndexHasStory(steps: seq<Step>, k: int)
    ensures k in CallIndexes(steps) <==> Story(steps, k).Some?
  {
    if steps != [] { IndexHasStory(steps[..|steps| - 1], k); }
  }

  /** A stream of deltas in the one-shot order, with whole calls and citations on text only, ends
      with the one-shot translation of the message the deltas add up to, up to generated ids. */
  lemma {:induction false} StreamIsOneShot(cfg: Config, n: nat, chunks: seq<Chunk>, ending: Ending)
    returns (c: Completion, order: seq<int>)
    requires Orderly(chunks) && (NotesIn(chunks) != [] ==> Concat(ContentDeltas(chunks)) != "")
    requires forall k :: CallIn(chunks, k) != [] ==> WholeCall(cfg, CallIn(chunks, k))
    ensures AddsUpTo(chunks, c, order)
    ensures AnonymousAll(Piped(cfg, false, chunks, ending).output) == AnonymousAll(OutputOf(cfg, n, c))
  {
    var steps := AllSteps(false, chunks);
    c, order := Spelled(steps), Ascending(CallIndexes(steps));
    SpelledAddsUp(cfg, chunks);
    OrderlySteps(chunks);
    PlainSteps(chunks);
    forall k | k in CallIndexes(steps) ensures Whole(cfg, steps, k) { StepsWhole(cfg, chunks, k); }
    NotesSpelled(steps);
    if RawNotes(steps) == [] { assert TranslateAll(RawNotes(steps)) == []; }
    StreamRefinesOneShot(cfg, n, false, chunks, ending);
  }

  lemma {:induction false} SpelledAddsUp(cfg: Config, chunks: seq<Chunk>)
    requires forall k :: CallIn(chunks, k) != [] ==> WholeCall(cfg, CallIn(chunks, k))
    ensures AddsUpTo(chunks, Spelled(AllSteps(false, chunks)), Ascending(CallIndexes(AllSteps(false, chunks))))
  {
    var steps := AllSteps(false, chunks);
    var order := Ascending(CallIndexes(steps));
    PlainChunksBring(chunks);
    PlainSteps(chunks);
    ChunksNotes(None, chunks);
    forall k ensures k in order <==> CallIn(chunks, k) != [] { StepsWhole(cfg, chunks, k); }
    forall i | 0 <= i < |order| ensures CallIs(CallIn(chunks, order[i]), Spelled(steps).calls[i]) {
      assert order[i] in order;
      StepsWhole(cfg, chunks, order[i]);
    }
  }
}
