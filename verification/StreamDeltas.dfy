/** What a stream says in the end, told from the fields of the chunks themselves: how it ended, its
    usage, its citations and its calls (src/translate/streamToSse.ts). */
module StreamDeltas {
  import opened Core
  import opened ResponseTypes
  import opened StreamMachine
  import opened StreamConservation
  import opened StreamAgreement

  // ---- what the chunks hold --------------------------------------------------------------

  /** The usage sent last. */
  function UsageIn(chunks: seq<Chunk>): Option<ChatUsage> {
    if chunks == [] then None
    else if chunks[|chunks| - 1].usage.Some? then chunks[|chunks| - 1].usage
    else UsageIn(chunks[..|chunks| - 1])
  }

  /** The last finish reason that says anything. */
  function FinishIn(chunks: seq<Chunk>): string {
    if chunks == [] then ""
    else
      var last := chunks[|chunks| - 1];
      if last.choice.Some? && OrElse(last.choice.value.finish, "") != "" then last.choice.value.finish.value
      else FinishIn(chunks[..|chunks| - 1])
  }

  /** All citations, in order. */
  function NotesIn(chunks: seq<Chunk>): seq<ChatAnnotation> {
    if chunks == [] then []
    else
      NotesIn(chunks[..|chunks| - 1])
      + if chunks[|chunks| - 1].choice.Some? then chunks[|chunks| - 1].choice.value.delta.annotations else []
  }

  /** The deltas at one call index among some. */
  function Picked(calls: seq<CallDelta>, k: int): seq<CallDelta> {
    if calls == [] then []
    else Picked(calls[..|calls| - 1], k) + if calls[|calls| - 1].index == k then [calls[|calls| - 1]] else []
  }

  /** All deltas at one call index, in order. */
  function CallIn(chunks: seq<Chunk>, k: int): seq<CallDelta> {
    if chunks == [] then []
    else
      CallIn(chunks[..|chunks| - 1], k)
      + if chunks[|chunks| - 1].choice.Some? then Picked(chunks[|chunks| - 1].choice.value.delta.calls, k) else []
  }

  /** The argument fragments of some deltas, joined. */
  function Fragments(deltas: seq<CallDelta>): string {
    if deltas == [] then "" else Fragments(deltas[..|deltas| - 1]) + OrElse(deltas[|deltas| - 1].fragment, "")
  }

  // ---- what the answer says of them ------------------------------------------------------

  /** A response of this status and output for these chunks. */
  predicate Answers(cfg: Config, chunks: seq<Chunk>, status: Status, output: seq<OutputItem>, r: Snapshot) {
    && r.id == "resp_" + cfg.token(0) && r.status == status && r.output == output
    && Counts(r.usage, UsageIn(chunks)) && (r.truncated <==> FinishIn(chunks) == "length")
  }

  /** The response as it is announced, with nothing in it yet. */
  predicate Blank(cfg: Config, r: Snapshot) {
    r.id == "resp_" + cfg.token(0) && r.status == InFlight && r.output == [] && r.usage == None && !r.truncated
  }

  /** A citation as it is passed on. */
  predicate Cites(a: Annotation, c: ChatAnnotation) {
    && a.kind == (if c.kind.Some? then c.kind.value else "url_citation")
    && a.url == (if c.url.Some? then c.url.value else "")
    && a.title == (if c.title.Some? then c.title.value else "")
    && a.snippet == c.summary
  }

  predicate CitesAll(notes: seq<Annotation>, given: seq<ChatAnnotation>) {
    |notes| == |given| && forall i :: 0 <= i < |given| ==> Cites(notes[i], given[i])
  }

  /** The first non-empty name given. */
  predicate FirstNamed(deltas: seq<CallDelta>, name: string) {
    if name == "" then forall i :: 0 <= i < |deltas| ==> OrElse(deltas[i].name, "") == ""
    else exists i :: 0 <= i < |deltas| && deltas[i].name == Some(name) && NamelessBefore(deltas, i)
  }

  predicate NamelessBefore(deltas: seq<CallDelta>, n: nat)
    requires n <= |deltas|
  {
    forall j :: 0 <= j < n ==> OrElse(deltas[j].name, "") == ""
  }

  /** The namespace the request's tools give a name. */
  predicate LookedUp(cfg: Config, name: string, ns: Option<string>) {
    ns == if name == "" || name !in cfg.namespaces || cfg.namespaces[name] == "" then None
          else Some(cfg.namespaces[name])
  }

  /** A finished call is made of its deltas: the id of the first or else a made-up one, the first
      name given, and all fragments joined, `{}` if they are no JSON. */
  predicate CallMade(cfg: Config, deltas: seq<CallDelta>, item: OutputItem) {
    && deltas != [] && item.CallItem? && "fc_" <= item.id
    && item.callId == (if deltas[0].id.Some? then deltas[0].id.value else "call_" + item.id[3..])
    && FirstNamed(deltas, item.name) && LookedUp(cfg, item.name, item.ns)
    && var raw := Fragments(deltas);
       item.arguments == if raw == "" || cfg.validJson(raw) then raw else "{}"
  }

  // ---- usage and finish ------------------------------------------------------------------

  function FinishAfter(steps: seq<Step>): Option<string> {
    if steps == [] then None
    else if steps[|steps| - 1].FinishStep? then Some(steps[|steps| - 1].reason)
    else FinishAfter(steps[..|steps| - 1])
  }

  lemma {:induction false} StepsLast(a: seq<Step>, b: seq<Step>)
    ensures LastUsage(a + b) == if LastUsage(b).Some? then LastUsage(b) else LastUsage(a)
    ensures FinishAfter(a + b) == if FinishAfter(b).Some? then FinishAfter(b) else FinishAfter(a)
  {
    if b == [] {
      assert a + b == a;
    } else {
      assert (a + b)[..|a + b| - 1] == a + b[..|b| - 1];
      StepsLast(a, b[..|b| - 1]);
    }
  }

  predicate Plain(step: Step) {
    !step.UsageStep? && !step.FinishStep?
  }

  lemma {:induction false} PlainLast(steps: seq<Step>)
    requires forall i :: 0 <= i < |steps| ==> Plain(steps[i])
    ensures LastUsage(steps) == None && FinishAfter(steps) == None
  {
    if steps != [] { PlainLast(steps[..|steps| - 1]); }
  }

  lemma {:induction false} ChunkLast(split: Splitting, chunk: Chunk)
    ensures LastUsage(StepsOf(split, chunk).1) == chunk.usage
    ensures FinishAfter(StepsOf(split, chunk).1)
         == if chunk.choice.None? || OrElse(chunk.choice.value.finish, "") == "" then None
            else chunk.choice.value.finish
  {
    var u := UsageSteps(chunk.usage);
    assert u != [] ==> u[..0] == [];
    if chunk.choice.Some? {
      var Choice(delta, finish) := chunk.choice.value;
      var told, f := DeltaSteps(Effective(split, delta).1, delta), FinishSteps(finish);
      assert f != [] ==> f[..0] == [];
      PlainLast(told);
      StepsLast(u, told);
      StepsLast(u + told, f);
    }
  }

  lemma {:induction false} ChunksLast(split: Splitting, chunks: seq<Chunk>)
    ensures LastUsage(StepsOfAll(split, chunks).1) == UsageIn(chunks)
    ensures OrElse(FinishAfter(StepsOfAll(split, chunks).1), "") == FinishIn(chunks)
  {
    if chunks != [] {
      var init, last := chunks[..|chunks| - 1], chunks[|chunks| - 1];
      ChunksLast(split, init);
      ChunkLast(StepsOfAll(split, init).0, last);
      StepsLast(StepsOfAll(split, init).1, StepsOf(StepsOfAll(split, init).0, last).1);
    }
  }

  lemma {:induction false} StepFinish(cfg: Config, s: Stream, step: Step)
    ensures Advance(cfg, s, step).finish == if step.FinishStep? then Some(step.reason) else s.finish
  {
  }

  lemma {:induction false} FinishKept(cfg: Config, steps: seq<Step>)
    ensures AdvanceAll(cfg, Opening(cfg), steps).finish == FinishAfter(steps)
  {
    if steps != [] {
      FinishKept(cfg, steps[..|steps| - 1]);
      StepFinish(cfg, AdvanceAll(cfg, Opening(cfg), steps[..|steps| - 1]), steps[|steps| - 1]);
    }
  }

  /** What the machine keeps of usage and finish is what the chunks say. */
  lemma {:induction false} Kept(cfg: Config, chunks: seq<Chunk>, steps: seq<Step>)
    requires LastUsage(steps) == UsageIn(chunks) && OrElse(FinishAfter(steps), "") == FinishIn(chunks)
    ensures var s := AdvanceAll(cfg, Opening(cfg), steps);
      Counts(s.usage, UsageIn(chunks)) && (s.finish == Some("length") <==> FinishIn(chunks) == "length")
  {
    UsageKept(cfg, steps);
    FinishKept(cfg, steps);
  }

  /** After any chunks, the response as it stands. */
  lemma {:induction false} StandsFor(cfg: Config, extract: bool, chunks: seq<Chunk>)
    ensures var s := AdvanceAll(cfg, Opening(cfg), StepsOfAll(StartSplit(extract), chunks).1);
      Counts(s.usage, UsageIn(chunks)) && (s.finish == Some("length") <==> FinishIn(chunks) == "length")
  {
    ChunksLast(StartSplit(extract), chunks);
    Kept(cfg, chunks, StepsOfAll(StartSplit(extract), chunks).1);
  }

  lemma {:induction false} FlushLast(extract: bool, chunks: seq<Chunk>)
    ensures LastUsage(AllSteps(extract, chunks)) == UsageIn(chunks)
    ensures OrElse(FinishAfter(AllSteps(extract, chunks)), "") == FinishIn(chunks)
  {
    var all := StepsOfAll(StartSplit(extract), chunks);
    ChunksLast(StartSplit(extract), chunks);
    PlainLast(FlushSteps(all.0));
    StepsLast(all.1, FlushSteps(all.0));
  }

  // ---- how a stream begins and ends ------------------------------------------------------

  /** Created and in progress with nothing in it; then no terminal event but the last, which is
      `completed` if the upstream ended and `failed` with its message if it threw. */
  predicate EndsAs(cfg: Config, chunks: seq<Chunk>, ending: Ending, output: seq<OutputItem>, log: seq<Event>) {
    && |log| >= 3
    && log[0].Created? && Blank(cfg, log[0].snapshot) && log[1].InProgress? && Blank(cfg, log[1].snapshot)
    && (forall i :: 2 <= i < |log| - 1 ==>
          !log[i].Created? && !log[i].InProgress? && !log[i].Completed? && !log[i].Failed?)
    && var last := log[|log| - 1];
       match ending
       case Ended => last.Completed? && Answers(cfg, chunks, Complete, output, last.snapshot)
       case Threw(message) => last.Failed? && Answers(cfg, chunks, Broken(message), output, last.snapshot)
  }

  /** Nothing but the first two events has a snapshot so far. */
  predicate Begun(cfg: Config, log: seq<Event>) {
    && |log| >= 2
    && log[0].Created? && Blank(cfg, log[0].snapshot) && log[1].InProgress? && Blank(cfg, log[1].snapshot)
    && forall i :: 2 <= i < |log| ==> Item(log[i])
  }

  predicate Item(e: Event) {
    !e.Created? && !e.InProgress? && !e.Completed? && !e.Failed?
  }

  /** A stream that goes on without another snapshot. */
  predicate GoesOn(s: Stream, t: Stream) {
    s.log <= t.log && forall i :: |s.log| <= i < |t.log| ==> Item(t.log[i])
  }

  lemma {:induction false} Onwards(s: Stream, t: Stream, u: Stream)
    requires GoesOn(s, t) && GoesOn(t, u)
    ensures GoesOn(s, u)
  {
    assert s.log <= u.log;
  }

  lemma {:induction false} CloseGoesOn(cfg: Config, s: Stream)
    ensures GoesOn(s, CloseActive(cfg, s))
  {
  }

  lemma {:induction false} OpenGoesOn(cfg: Config, s: Stream)
    ensures GoesOn(s, OpenReasoning(cfg, s)) && GoesOn(s, OpenMessage(cfg, s))
  {
    CloseGoesOn(cfg, s);
    var c := CloseActive(cfg, s);
    assert GoesOn(c, OpenReasoning(cfg, s)) && GoesOn(c, OpenMessage(cfg, s));
    Onwards(s, c, OpenReasoning(cfg, s));
    Onwards(s, c, OpenMessage(cfg, s));
  }

  lemma {:induction false} CallGoesOn(cfg: Config, s: Stream, index: int, id: Option<string>, name: Option<string>)
    ensures GoesOn(s, EnsureCall(cfg, s, index, id, name))
  {
    CloseGoesOn(cfg, s);
  }

  lemma {:induction false} ExtendGoesOn(s: Stream, index: int, fragment: string)
    requires index in s.calls
    ensures GoesOn(s, ExtendCall(s, index, fragment))
  {
  }

  lemma {:induction false} TextGoesOn(cfg: Config, s: Stream, text: string)
    ensures GoesOn(s, Think(cfg, s, text)) && GoesOn(s, Speak(cfg, s, text))
  {
    OpenGoesOn(cfg, s);
    var o, p := if s.active.Thinking? then s else OpenReasoning(cfg, s),
                if s.active.Speaking? then s else OpenMessage(cfg, s);
    assert GoesOn(o, Think(cfg, s, text)) && GoesOn(p, Speak(cfg, s, text));
    Onwards(s, o, Think(cfg, s, text));
    Onwards(s, p, Speak(cfg, s, text));
  }

  lemma {:induction false} NoteGoesOn(cfg: Config, s: Stream, note: ChatAnnotation)
    ensures GoesOn(s, Annotate(cfg, s, note))
  {
    OpenGoesOn(cfg, s);
    var p := if s.active.Speaking? then s else OpenMessage(cfg, s);
    assert GoesOn(p, Annotate(cfg, s, note));
    Onwards(s, p, Annotate(cfg, s, note));
  }

  lemma {:induction false} AdvanceGoesOn(cfg: Config, s: Stream, step: Step)
    ensures GoesOn(s, Advance(cfg, s, step))
  {
    match step {
      case UsageStep(_) =>
      case ReasonStep(text) => TextGoesOn(cfg, s, text);
      case TextStep(text) => TextGoesOn(cfg, s, text);
      case NoteStep(note) => NoteGoesOn(cfg, s, note);
      case CallStep(index, id, name, fragment) =>
        CallGoesOn(cfg, s, index, id, name);
        ExtendGoesOn(EnsureCall(cfg, s, index, id, name), index, fragment);
        Onwards(s, EnsureCall(cfg, s, index, id, name), Advance(cfg, s, step));
      case FinishStep(_) =>
    }
  }

  lemma {:induction false} StepsGoOn(cfg: Config, steps: seq<Step>)
    ensures Begun(cfg, AdvanceAll(cfg, Opening(cfg), steps).log)
  {
    if steps != [] {
      var init := steps[..|steps| - 1];
      StepsGoOn(cfg, init);
      AdvanceGoesOn(cfg, AdvanceAll(cfg, Opening(cfg), init), steps[|steps| - 1]);
    }
  }

  lemma {:induction false} FinishGoesOn(cfg: Config, s: Stream, order: seq<int>)
    requires forall i :: 0 <= i < |order| ==> order[i] in s.calls
    ensures GoesOn(s, FinishCalls(cfg, s, order))
    decreases |order|
  {
    if order != [] {
      var f := FinishCall(cfg, s, s.calls[order[0]]);
      assert GoesOn(s, f);
      FinishGoesOn(cfg, f, order[1..]);
      Onwards(s, f, FinishCalls(cfg, s, order));
    }
  }

  lemma {:induction false} SettleGoesOn(cfg: Config, s: Stream)
    ensures GoesOn(s, Settle(cfg, s))
  {
    var c := CloseActive(cfg, s);
    KeysInOrder(c.calls);
    CloseGoesOn(cfg, s);
    FinishGoesOn(cfg, c, Ascending(c.calls.Keys));
    Onwards(s, c, Settle(cfg, s));
  }

  lemma {:induction false} SettleKeeps(cfg: Config, s: Stream)
    ensures Settle(cfg, s).usage == s.usage && Settle(cfg, s).finish == s.finish
  {
    var c := CloseActive(cfg, s);
    KeysInOrder(c.calls);
    assert c.usage == s.usage && c.finish == s.finish;
    FinishCallsAppends(cfg, c, Ascending(c.calls.Keys));
  }

  /** However a stream is cut into chunks, it begins and ends as it should: it is completed if and
      only if the upstream ended, and failed with its message if and only if it threw. */
  lemma {:induction false} StreamEnds(cfg: Config, extract: bool, chunks: seq<Chunk>, ending: Ending)
    ensures var t := Piped(cfg, extract, chunks, ending); EndsAs(cfg, chunks, ending, t.output, t.log)
  {
    var steps := AllSteps(extract, chunks);
    var s := AdvanceAll(cfg, Opening(cfg), steps);
    FlushLast(extract, chunks);
    Kept(cfg, chunks, steps);
    StepsGoOn(cfg, steps);
    SettleGoesOn(cfg, s);
    SettleKeeps(cfg, s);
    assert Begun(cfg, Settle(cfg, s).log);
  }

  /** What the machine itself keeps of usage and finish, once it is over. */
  lemma {:induction false} OverFor(cfg: Config, extract: bool, chunks: seq<Chunk>, ending: Ending)
    ensures var t := Piped(cfg, extract, chunks, ending);
      Counts(t.usage, UsageIn(chunks)) && (t.finish == Some("length") <==> FinishIn(chunks) == "length")
  {
    var steps := AllSteps(extract, chunks);
    FlushLast(extract, chunks);
    Kept(cfg, chunks, steps);
    SettleKeeps(cfg, AdvanceAll(cfg, Opening(cfg), steps));
  }

  // ---- citations -------------------------------------------------------------------------

  lemma {:induction false} NotesAppend(a: seq<Step>, b: seq<Step>)
    ensures RawNotes(a + b) == RawNotes(a) + RawNotes(b)
  {
    if b == [] {
      assert a + b == a;
    } else {
      assert (a + b)[..|a + b| - 1] == a + b[..|b| - 1];
      NotesAppend(a, b[..|b| - 1]);
    }
  }

  lemma {:induction false} NoNotes(steps: seq<Step>)
    requires forall i :: 0 <= i < |steps| ==> !steps[i].NoteStep?
    ensures RawNotes(steps) == []
  {
    if steps != [] { NoNotes(steps[..|steps| - 1]); }
  }

  lemma {:induction false} NoteStepsRaw(notes: seq<ChatAnnotation>)
    ensures RawNotes(NoteSteps(notes)) == notes
  {
    if notes != [] {
      assert NoteSteps(notes)[..|notes| - 1] == NoteSteps(notes[..|notes| - 1]);
      NoteStepsRaw(notes[..|notes| - 1]);
    }
  }

  /** The steps of a chunk with a choice: citations and calls, and others before and after. */
  lemma {:induction false} ChunkInFour(split: Splitting, chunk: Chunk) returns (before: seq<Step>, after: seq<Step>)
    requires chunk.choice.Some?
    ensures StepsOf(split, chunk).1
         == before + (NoteSteps(chunk.choice.value.delta.annotations)
                      + (CallSteps(chunk.choice.value.delta.calls) + after))
    ensures forall i :: 0 <= i < |before| ==> !before[i].NoteStep? && !before[i].CallStep?
    ensures forall i :: 0 <= i < |after| ==> !after[i].NoteStep? && !after[i].CallStep?
  {
    var Choice(delta, finish) := chunk.choice.value;
    before := UsageSteps(chunk.usage) + SpokenSteps(Effective(split, delta).1);
    after := FinishSteps(finish);
  }

  lemma {:induction false} ChunkNotes(split: Splitting, chunk: Chunk)
    ensures RawNotes(StepsOf(split, chunk).1)
         == if chunk.choice.Some? then chunk.choice.value.delta.annotations else []
  {
    if chunk.choice.None? {
      NoNotes(UsageSteps(chunk.usage));
    } else {
      var notes, calls := chunk.choice.value.delta.annotations, CallSteps(chunk.choice.value.delta.calls);
      var before, after := ChunkInFour(split, chunk);
      NoNotes(before);
      NoNotes(after);
      NoNotes(calls);
      NoteStepsRaw(notes);
      NotesAppend(calls, after);
      NotesAppend(NoteSteps(notes), calls + after);
      NotesAppend(before, NoteSteps(notes) + (calls + after));
    }
  }

  lemma {:induction false} ChunksNotes(split: Splitting, chunks: seq<Chunk>)
    ensures RawNotes(StepsOfAll(split, chunks).1) == NotesIn(chunks)
  {
    if chunks != [] {
      var init, last := chunks[..|chunks| - 1], chunks[|chunks| - 1];
      ChunksNotes(split, init);
      ChunkNotes(StepsOfAll(split, init).0, last);
      NotesAppend(StepsOfAll(split, init).1, StepsOf(StepsOfAll(split, init).0, last).1);
    }
  }

  lemma {:induction false} TranslatedCites(notes: seq<ChatAnnotation>)
    ensures CitesAll(TranslateAll(notes), notes)
  {
    if notes != [] { TranslatedCites(notes[1..]); }
  }

  /** The messages cite exactly what the chunks cite, in order and field by field. */
  lemma {:induction false} StreamCites(cfg: Config, extract: bool, chunks: seq<Chunk>, ending: Ending)
    ensures CitesAll(SpeechIn(Piped(cfg, extract, chunks, ending).output).notes, NotesIn(chunks))
  {
    var all := StepsOfAll(StartSplit(extract), chunks);
    ChunksNotes(StartSplit(extract), chunks);
    NoNotes(FlushSteps(all.0));
    NotesAppend(all.1, FlushSteps(all.0));
    EmptyEnds(NotesIn(chunks));
    StreamConserves(cfg, extract, chunks, ending);
    NotesSpelled(AllSteps(extract, chunks));
    TranslatedCites(NotesIn(chunks));
  }

  // ---- calls -----------------------------------------------------------------------------

  /** The story of a call is that of its deltas. */
  predicate StoryOf(story: Option<CallStory>, deltas: seq<CallDelta>) {
    if deltas == [] then story.None?
    else
      && story.Some? && story.value.id == deltas[0].id && FirstNamed(deltas, story.value.name)
      && story.value.arguments == Fragments(deltas)
  }

  lemma {:induction false} FirstNamedSnoc(deltas: seq<CallDelta>, d: CallDelta, name: string)
    requires FirstNamed(deltas, name)
    ensures FirstNamed(deltas + [d], if name == "" then OrElse(d.name, "") else name)
  {
    var more := deltas + [d];
    if name == "" {
      assert NamelessBefore(more, |deltas|);
      if OrElse(d.name, "") != "" { assert more[|deltas|].name == Some(d.name.value); }
    } else {
      var i :| 0 <= i < |deltas| && deltas[i].name == Some(name) && NamelessBefore(deltas, i);
      assert more[i].name == Some(name) && NamelessBefore(more, i);
    }
  }

  lemma {:induction false} StorySnoc(story: Option<CallStory>, deltas: seq<CallDelta>, d: CallDelta, k: int)
    requires StoryOf(story, deltas)
    ensures StoryOf(Retold(story, CallStepOf(d), k), deltas + if d.index == k then [d] else [])
  {
    EmptyEnds(deltas);
    if d.index == k {
      assert (deltas + [d])[..|deltas|] == deltas;
      if deltas == [] {
        assert FirstNamed([], "") && Fragments([]) == "";
        FirstNamedSnoc([], d, "");
        assert [] + [d] == [d];
        EmptyEnds(OrElse(d.fragment, ""));
      } else {
        FirstNamedSnoc(deltas, d, story.value.name);
      }
    }
  }

  lemma {:induction false} StorySteps(before: seq<Step>, steps: seq<Step>, k: int)
    requires forall i :: 0 <= i < |steps| ==> !steps[i].CallStep?
    ensures Story(before + steps, k) == Story(before, k)
  {
    if steps == [] {
      EmptyEnds(before);
    } else {
      assert (before + steps)[..|before + steps| - 1] == before + steps[..|steps| - 1];
      StorySteps(before, steps[..|steps| - 1], k);
    }
  }

  lemma {:induction false} StoryCall(steps: seq<Step>, deltas: seq<CallDelta>, d: CallDelta, k: int)
    requires StoryOf(Story(steps, k), deltas)
    ensures StoryOf(Story(steps + [CallStepOf(d)], k), deltas + if d.index == k then [d] else [])
  {
    assert (steps + [CallStepOf(d)])[..|steps|] == steps;
    StorySnoc(Story(steps, k), deltas, d, k);
  }

  lemma {:induction false} StoryCalls(before: seq<Step>, deltas: seq<CallDelta>, calls: seq<CallDelta>, k: int)
    requires StoryOf(Story(before, k), deltas)
    ensures StoryOf(Story(before + CallSteps(calls), k), deltas + Picked(calls, k))
  {
    if calls == [] {
      EmptyEnds(before);
      EmptyEnds(deltas);
    } else {
      var init, d := calls[..|calls| - 1], calls[|calls| - 1];
      StoryCalls(before, deltas, init, k);
      assert CallSteps(calls) == CallSteps(init) + [CallStepOf(d)];
      Regroup(before, CallSteps(init), [CallStepOf(d)]);
      StoryCall(before + CallSteps(init), deltas + Picked(init, k), d, k);
      Regroup(deltas, Picked(init, k), if d.index == k then [d] else []);
    }
  }

  lemma {:induction false} StoryChunk(before: seq<Step>, deltas: seq<CallDelta>, split: Splitting, chunk: Chunk, k: int)
    requires StoryOf(Story(before, k), deltas)
    ensures StoryOf(Story(before + StepsOf(split, chunk).1, k),
                    deltas + if chunk.choice.Some? then Picked(chunk.choice.value.delta.calls, k) else [])
  {
    if chunk.choice.None? {
      StorySteps(before, UsageSteps(chunk.usage), k);
      EmptyEnds(deltas);
    } else {
      var notes, calls := NoteSteps(chunk.choice.value.delta.annotations), chunk.choice.value.delta.calls;
      var first, after := ChunkInFour(split, chunk);
      StorySteps(before, first, k);
      StorySteps(before + first, notes, k);
      StoryCalls(before + first + notes, deltas, calls, k);
      StorySteps(before + first + notes + CallSteps(calls), after, k);
      FourParts(before, first, notes, CallSteps(calls), after);
    }
  }

  lemma {:induction false} FourParts<T>(a: seq<T>, b: seq<T>, c: seq<T>, d: seq<T>, e: seq<T>)
    ensures a + (b + (c + (d + e))) == a + b + c + d + e
  {
  }

  lemma {:induction false} StoryChunks(split: Splitting, chunks: seq<Chunk>, k: int)
    ensures StoryOf(Story(StepsOfAll(split, chunks).1, k), CallIn(chunks, k))
  {
    if chunks != [] {
      var init, last := chunks[..|chunks| - 1], chunks[|chunks| - 1];
      StoryChunks(split, init, k);
      StoryChunk(StepsOfAll(split, init).1, CallIn(init, k), StepsOfAll(split, init).0, last, k);
    }
  }

  lemma {:induction false} StoryAll(extract: bool, chunks: seq<Chunk>, k: int)
    ensures StoryOf(Story(AllSteps(extract, chunks), k), CallIn(chunks, k))
  {
    var all := StepsOfAll(StartSplit(extract), chunks);
    StoryChunks(StartSplit(extract), chunks, k);
    StorySteps(all.1, FlushSteps(all.0), k);
  }

  /** One item for each index the chunks name, by ascending index, made of the deltas at it. */
  ghost predicate CallsMade(cfg: Config, chunks: seq<Chunk>, made: seq<OutputItem>, order: seq<int>) {
    && (forall i, j :: 0 <= i < j < |order| ==> order[i] < order[j])
    && (forall k :: k in order <==> CallIn(chunks, k) != [])
    && |made| == |order| && forall i :: 0 <= i < |order| ==> CallMade(cfg, CallIn(chunks, order[i]), made[i])
  }

  predicate NoCalls(items: seq<OutputItem>) {
    forall i :: 0 <= i < |items| ==> !items[i].CallItem?
  }

  lemma {:induction false} MadeUpKept(cfg: Config, extract: bool, chunks: seq<Chunk>, ending: Ending, k: int)
    requires k in Piped(cfg, extract, chunks, ending).calls
    ensures var t := Piped(cfg, extract, chunks, ending);
      CallMade(cfg, CallIn(chunks, k), CallItemOf(cfg, t.calls[k]))
  {
    var steps := AllSteps(extract, chunks);
    var s := AdvanceAll(cfg, Opening(cfg), steps);
    SettleOutput(cfg, s);
    StoryAll(extract, chunks, k);
    AdvanceAllTells(cfg, steps, k);
    StepsMakeUp(cfg, steps, k);
    FreshCalls(cfg, steps);
  }

  lemma {:induction false} ClosedSpoken(cfg: Config, s: Stream)
    requires NoCalls(s.output)
    ensures NoCalls(CloseActive(cfg, s).output)
  {
  }

  lemma {:induction false} StepSpoken(cfg: Config, s: Stream, step: Step)
    requires NoCalls(s.output)
    ensures NoCalls(Advance(cfg, s, step).output)
  {
    ClosedSpoken(cfg, s);
  }

  lemma {:induction false} SpokenOnly(cfg: Config, steps: seq<Step>)
    ensures NoCalls(AdvanceAll(cfg, Opening(cfg), steps).output)
  {
    if steps != [] {
      SpokenOnly(cfg, steps[..|steps| - 1]);
      StepSpoken(cfg, AdvanceAll(cfg, Opening(cfg), steps[..|steps| - 1]), steps[|steps| - 1]);
    }
  }

  lemma {:induction false} IndexesNamed(cfg: Config, extract: bool, chunks: seq<Chunk>, ending: Ending, k: int)
    ensures k in Piped(cfg, extract, chunks, ending).calls <==> CallIn(chunks, k) != []
  {
    StoryAll(extract, chunks, k);
    StreamConserves(cfg, extract, chunks, ending);
    assert Tells(Piped(cfg, extract, chunks, ending), k, Story(AllSteps(extract, chunks), k));
  }

  lemma {:induction false} SpokenFirst(cfg: Config, extract: bool, chunks: seq<Chunk>, ending: Ending)
    returns (spoken: seq<OutputItem>)
    ensures var t := Piped(cfg, extract, chunks, ending);
      t.output == spoken + FinalCalls(cfg, t.calls) && NoCalls(spoken)
  {
    var s := AdvanceAll(cfg, Opening(cfg), AllSteps(extract, chunks));
    SettleOutput(cfg, s);
    SpokenOnly(cfg, AllSteps(extract, chunks));
    ClosedSpoken(cfg, s);
    spoken := CloseActive(cfg, s).output;
  }

  lemma {:induction false} FinalsMade(cfg: Config, extract: bool, chunks: seq<Chunk>, ending: Ending)
    ensures var t := Piped(cfg, extract, chunks, ending);
      CallsMade(cfg, chunks, FinalCalls(cfg, t.calls), Ascending(t.calls.Keys))
  {
    var calls := Piped(cfg, extract, chunks, ending).calls;
    var order, made := Ascending(calls.Keys), FinalCalls(cfg, calls);
    KeysInOrder(calls);
    forall k ensures k in order <==> CallIn(chunks, k) != [] {
      IndexesNamed(cfg, extract, chunks, ending, k);
    }
    forall i | 0 <= i < |order| ensures CallMade(cfg, CallIn(chunks, order[i]), made[i]) {
      MadeUpKept(cfg, extract, chunks, ending, order[i]);
      assert made[i] == CallItemOf(cfg, calls[order[i]]);
    }
  }

  /** The calls of a stream come last in its output: those its chunks name, each made of the deltas
      at its index. */
  lemma {:induction false} StreamCalls(cfg: Config, extract: bool, chunks: seq<Chunk>, ending: Ending)
    returns (spoken: seq<OutputItem>, made: seq<OutputItem>, order: seq<int>)
    ensures Piped(cfg, extract, chunks, ending).output == spoken + made && NoCalls(spoken)
    ensures CallsMade(cfg, chunks, made, order)
  {
    spoken := SpokenFirst(cfg, extract, chunks, ending);
    var calls := Piped(cfg, extract, chunks, ending).calls;
    made, order := FinalCalls(cfg, calls), Ascending(calls.Keys);
    FinalsMade(cfg, extract, chunks, ending);
  }

  // ---- ids and names announced -----------------------------------------------------------

  /** Every item is announced under a fresh id of its kind, a call with its name's namespace, and
      every finished call has its name's namespace too. */
  predicate Named(cfg: Config, e: Event) {
    match e
    case ItemAdded(index, id, added) =>
      && index >= 0
      && id == (match added case NewReasoning => "rs_" case NewMessage => "msg_" case NewCall(_, _, _) => "fc_")
               + cfg.token(index + 1)
      && (added.NewCall? ==> LookedUp(cfg, added.name, added.ns))
    case ItemDone(_, _, item) => item.CallItem? ==> LookedUp(cfg, item.name, item.ns)
    case _ => true
  }

  predicate AllNamed(cfg: Config, log: seq<Event>) {
    forall i :: 0 <= i < |log| ==> Named(cfg, log[i])
  }

  predicate CallsFresh(cfg: Config, calls: map<int, Call>) {
    forall k :: k in calls ==> calls[k].itemId == "fc_" + cfg.token(calls[k].outputIndex + 1)
  }

  /** Tokens are drawn one per item. */
  predicate Fresh(cfg: Config, s: Stream) {
    s.issued == s.outputIndex + 1 && AllNamed(cfg, s.log) && CallsFresh(cfg, s.calls)
  }

  lemma {:induction false} CloseFresh(cfg: Config, s: Stream)
    requires Fresh(cfg, s)
    ensures Fresh(cfg, CloseActive(cfg, s))
  {
  }

  lemma {:induction false} OpenFresh(cfg: Config, s: Stream)
    requires Fresh(cfg, s)
    ensures Fresh(cfg, OpenReasoning(cfg, s)) && Fresh(cfg, OpenMessage(cfg, s))
  {
    CloseFresh(cfg, s);
  }

  lemma {:induction false} OpenCallFresh(cfg: Config, s: Stream, index: int, id: Option<string>, name: Option<string>)
    requires Fresh(cfg, s)
    ensures Fresh(cfg, OpenCall(cfg, s, index, id, name))
  {
    CloseFresh(cfg, s);
  }

  lemma {:induction false} EnsureFresh(cfg: Config, s: Stream, index: int, id: Option<string>, name: Option<string>)
    requires Fresh(cfg, s)
    ensures Fresh(cfg, EnsureCall(cfg, s, index, id, name))
  {
    if index !in s.calls { OpenCallFresh(cfg, s, index, id, name); }
  }

  lemma {:induction false} ExtendFresh(cfg: Config, s: Stream, index: int, fragment: string)
    requires Fresh(cfg, s) && index in s.calls
    ensures Fresh(cfg, ExtendCall(s, index, fragment))
  {
  }

  lemma {:induction false} ThinkFresh(cfg: Config, s: Stream, text: string)
    requires Fresh(cfg, s)
    ensures Fresh(cfg, Think(cfg, s, text))
  {
    OpenFresh(cfg, s);
  }

  lemma {:induction false} SpeakFresh(cfg: Config, s: Stream, text: string)
    requires Fresh(cfg, s)
    ensures Fresh(cfg, Speak(cfg, s, text))
  {
    OpenFresh(cfg, s);
  }

  lemma {:induction false} AnnotateFresh(cfg: Config, s: Stream, note: ChatAnnotation)
    requires Fresh(cfg, s)
    ensures Fresh(cfg, Annotate(cfg, s, note))
  {
    OpenFresh(cfg, s);
  }

  lemma {:induction false} AdvanceFresh(cfg: Config, s: Stream, step: Step)
    requires Fresh(cfg, s)
    ensures Fresh(cfg, Advance(cfg, s, step))
  {
    match step {
      case UsageStep(_) =>
      case ReasonStep(text) => ThinkFresh(cfg, s, text);
      case TextStep(text) => SpeakFresh(cfg, s, text);
      case NoteStep(note) => AnnotateFresh(cfg, s, note);
      case CallStep(index, id, name, fragment) =>
        EnsureFresh(cfg, s, index, id, name);
        ExtendFresh(cfg, EnsureCall(cfg, s, index, id, name), index, fragment);
      case FinishStep(_) =>
    }
  }

  lemma {:induction false} FreshCalls(cfg: Config, steps: seq<Step>)
    ensures Fresh(cfg, AdvanceAll(cfg, Opening(cfg), steps))
  {
    if steps != [] {
      FreshCalls(cfg, steps[..|steps| - 1]);
      AdvanceFresh(cfg, AdvanceAll(cfg, Opening(cfg), steps[..|steps| - 1]), steps[|steps| - 1]);
    }
  }

  lemma {:induction false} FinishFresh(cfg: Config, s: Stream, order: seq<int>)
    requires Fresh(cfg, s) && forall i :: 0 <= i < |order| ==> order[i] in s.calls
    ensures Fresh(cfg, FinishCalls(cfg, s, order))
    decreases |order|
  {
    if order != [] {
      FinishFresh(cfg, FinishCall(cfg, s, s.calls[order[0]]), order[1..]);
    }
  }

  lemma {:induction false} SettleFresh(cfg: Config, s: Stream)
    requires Fresh(cfg, s)
    ensures Fresh(cfg, Settle(cfg, s))
  {
    var c := CloseActive(cfg, s);
    CloseFresh(cfg, s);
    KeysInOrder(c.calls);
    FinishFresh(cfg, c, Ascending(c.calls.Keys));
  }

  /** Every item of a stream is announced under an id of its own and every call with the namespace
      the request gave its name. */
  lemma {:induction false} StreamNames(cfg: Config, extract: bool, chunks: seq<Chunk>, ending: Ending)
    ensures AllNamed(cfg, Piped(cfg, extract, chunks, ending).log)
  {
    var s := AdvanceAll(cfg, Opening(cfg), AllSteps(extract, chunks));
    FreshCalls(cfg, AllSteps(extract, chunks));
    SettleFresh(cfg, s);
    TerminalNamed(cfg, Settle(cfg, s), ending);
  }

  lemma {:induction false} TerminalNamed(cfg: Config, t: Stream, ending: Ending)
    requires AllNamed(cfg, t.log)
    ensures AllNamed(cfg, Terminated(cfg, t, ending).log)
  {
  }
}
