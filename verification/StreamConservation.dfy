/** Nothing a chunk brings is lost, doubled or moved to another channel on its way through the
    stream machine. */
module StreamConservation {
  import opened Core
  import opened ResponseTypes
  import opened ThinkSplitter
  import opened StreamMachine

  // ---- what the steps bring --------------------------------------------------------------

  /** Reasoning, visible text and citations, each concatenated in order of arrival. */
  datatype Speech = Speech(reasoning: string, text: string, notes: seq<Annotation>)

  const SILENCE := Speech("", "", [])

  function Then(a: Speech, b: Speech): Speech {
    Speech(a.reasoning + b.reasoning, a.text + b.text, a.notes + b.notes)
  }

  function SpeechOf(step: Step): Speech {
    match step
    case ReasonStep(text) => Speech(text, "", [])
    case TextStep(text) => Speech("", text, [])
    case NoteStep(note) => Speech("", "", [TranslateAnnotation(note)])
    case _ => SILENCE
  }

  function Brought(steps: seq<Step>): Speech {
    if steps == [] then SILENCE else Then(Brought(steps[..|steps| - 1]), SpeechOf(steps[|steps| - 1]))
  }

  /** What the steps say about one call: the id of its first fragment, its first non-empty
      name, and its fragments in order. */
  datatype CallStory = CallStory(id: Option<string>, name: string, arguments: string)

  function Retold(story: Option<CallStory>, step: Step, k: int): Option<CallStory> {
    match step
    case CallStep(index, id, name, fragment) =>
      if index != k then story
      else if story.None? then Some(CallStory(id, OrElse(name, ""), fragment))
      else
        var s := story.value;
        Some(CallStory(s.id, if s.name == "" then OrElse(name, "") else s.name, s.arguments + fragment))
    case _ => story
  }

  function Story(steps: seq<Step>, k: int): Option<CallStory> {
    if steps == [] then None else Retold(Story(steps[..|steps| - 1], k), steps[|steps| - 1], k)
  }

  // ---- what the machine holds ------------------------------------------------------------

  function SpeechIn(output: seq<OutputItem>): Speech {
    if output == [] then SILENCE
    else
      Then(SpeechIn(output[..|output| - 1]),
           match output[|output| - 1]
           case ReasoningItem(_, _, encrypted) => Speech(encrypted, "", [])
           case MessageItem(_, text, notes) => Speech("", text, notes)
           case CallItem(_, _, _, _, _) => SILENCE)
  }

  function Held(s: Stream): Speech {
    Then(SpeechIn(s.output),
         match s.active
         case Idle => SILENCE
         case Thinking(_, text) => Speech(text, "", [])
         case Speaking(_, text, notes) => Speech("", text, notes))
  }

  lemma {:induction false} ThenSilence(a: Speech)
    ensures Then(a, SILENCE) == a == Then(SILENCE, a)
  {
    assert a.reasoning + "" == a.reasoning && a.text + "" == a.text && a.notes + [] == a.notes;
  }

  lemma {:induction false} ThenAssociative(a: Speech, b: Speech, c: Speech)
    ensures Then(Then(a, b), c) == Then(a, Then(b, c))
  {
    assert (a.reasoning + b.reasoning) + c.reasoning == a.reasoning + (b.reasoning + c.reasoning);
    assert (a.text + b.text) + c.text == a.text + (b.text + c.text);
    assert (a.notes + b.notes) + c.notes == a.notes + (b.notes + c.notes);
  }

  lemma {:induction false} SpeechSnoc(output: seq<OutputItem>, item: OutputItem)
    ensures SpeechIn(output + [item])
         == Then(SpeechIn(output),
                 match item
                 case ReasoningItem(_, _, encrypted) => Speech(encrypted, "", [])
                 case MessageItem(_, text, notes) => Speech("", text, notes)
                 case CallItem(_, _, _, _, _) => SILENCE)
  {
    assert (output + [item])[..|output|] == output;
  }

  lemma {:induction false} CloseHolds(cfg: Config, s: Stream)
    ensures Held(CloseActive(cfg, s)) == Held(s) == SpeechIn(CloseActive(cfg, s).output)
  {
    var c := CloseActive(cfg, s);
    ThenSilence(SpeechIn(c.output));
    match s.active {
      case Idle =>
      case Thinking(id, text) => SpeechSnoc(s.output, ReasoningItem(id, cfg.Summary(text), text));
      case Speaking(id, text, notes) => SpeechSnoc(s.output, MessageItem(id, text, notes));
    }
  }

  lemma {:induction false} OpenHolds(cfg: Config, s: Stream)
    ensures Held(OpenReasoning(cfg, s)) == Held(s) && Held(OpenMessage(cfg, s)) == Held(s)
  {
    CloseHolds(cfg, s);
    ThenSilence(SpeechIn(CloseActive(cfg, s).output));
  }

  /** Text added to the active slot is added to what the machine holds. */
  lemma {:induction false} SlotGrows(output: seq<OutputItem>, slot: Speech, added: Speech, grown: Speech)
    requires grown == Then(slot, added)
    ensures Then(SpeechIn(output), grown) == Then(Then(SpeechIn(output), slot), added)
  {
    ThenAssociative(SpeechIn(output), slot, added);
  }

  lemma {:induction false} ThinkHolds(cfg: Config, s: Stream, text: string)
    ensures Held(Think(cfg, s, text)) == Then(Held(s), Speech(text, "", []))
  {
    OpenHolds(cfg, s);
    var o := if s.active.Thinking? then s else OpenReasoning(cfg, s);
    var before, after := Speech(o.active.text, "", []), Speech(o.active.text + text, "", []);
    assert after == Then(before, Speech(text, "", []));
    SlotGrows(o.output, before, Speech(text, "", []), after);
  }

  lemma {:induction false} SpeakHolds(cfg: Config, s: Stream, text: string)
    ensures Held(Speak(cfg, s, text)) == Then(Held(s), Speech("", text, []))
  {
    OpenHolds(cfg, s);
    var o := if s.active.Speaking? then s else OpenMessage(cfg, s);
    var notes := o.active.annotations;
    var before, after := Speech("", o.active.text, notes), Speech("", o.active.text + text, notes);
    assert notes + [] == notes;
    SlotGrows(o.output, before, Speech("", text, []), after);
  }

  lemma {:induction false} AnnotateHolds(cfg: Config, s: Stream, note: ChatAnnotation)
    ensures Held(Annotate(cfg, s, note)) == Then(Held(s), Speech("", "", [TranslateAnnotation(note)]))
  {
    OpenHolds(cfg, s);
    var o := if s.active.Speaking? then s else OpenMessage(cfg, s);
    var notes := o.active.annotations;
    var before := Speech("", o.active.text, notes);
    var after := Speech("", o.active.text, notes + [TranslateAnnotation(note)]);
    assert o.active.text + "" == o.active.text;
    SlotGrows(o.output, before, Speech("", "", [TranslateAnnotation(note)]), after);
  }

  lemma {:induction false} CallHolds(cfg: Config, s: Stream, index: int, id: Option<string>, name: Option<string>,
                                     fragment: string)
    ensures Held(ExtendCall(EnsureCall(cfg, s, index, id, name), index, fragment)) == Held(s)
  {
    CloseHolds(cfg, s);
    ThenSilence(SpeechIn(CloseActive(cfg, s).output));
  }

  lemma {:induction false} AdvanceHolds(cfg: Config, s: Stream, step: Step)
    ensures Held(Advance(cfg, s, step)) == Then(Held(s), SpeechOf(step))
  {
    ThenSilence(Held(s));
    match step {
      case ReasonStep(text) => ThinkHolds(cfg, s, text);
      case TextStep(text) => SpeakHolds(cfg, s, text);
      case NoteStep(note) => AnnotateHolds(cfg, s, note);
      case CallStep(index, id, name, fragment) => CallHolds(cfg, s, index, id, name, fragment);
      case _ =>
    }
  }

  lemma {:induction false} AdvanceAllHolds(cfg: Config, steps: seq<Step>)
    ensures Held(AdvanceAll(cfg, Opening(cfg), steps)) == Brought(steps)
  {
    if steps == [] {
      ThenSilence(SILENCE);
    } else {
      AdvanceAllHolds(cfg, steps[..|steps| - 1]);
      AdvanceHolds(cfg, AdvanceAll(cfg, Opening(cfg), steps[..|steps| - 1]), steps[|steps| - 1]);
    }
  }

  // ---- calls -----------------------------------------------------------------------------

  /** The machine's record of a call tells the same story as its fragments. */
  predicate Tells(s: Stream, k: int, story: Option<CallStory>) {
    if story.None? then k !in s.calls
    else
      && k in s.calls
      && (story.value.id.Some? ==> s.calls[k].callId == story.value.id.value)
      && s.calls[k].name == story.value.name
      && s.calls[k].arguments == story.value.arguments
  }

  /** The story after a step's call was found or opened, before its fragment is added. */
  lemma {:induction false} EnsureTells(cfg: Config, s: Stream, index: int, id: Option<string>, name: Option<string>,
                                       k: int, story: Option<CallStory>)
    requires Tells(s, k, story)
    ensures Tells(EnsureCall(cfg, s, index, id, name), k, Retold(story, CallStep(index, id, name, ""), k))
  {
    if story.Some? { EmptyEnds(story.value.arguments); }
  }

  lemma {:induction false} ExtendTells(s: Stream, index: int, fragment: string, k: int, story: Option<CallStory>)
    requires Tells(s, k, story) && index in s.calls
    ensures Tells(ExtendCall(s, index, fragment), k,
                  if index == k then Some(story.value.(arguments := story.value.arguments + fragment)) else story)
  {
    if story.Some? { EmptyEnds(story.value.arguments); }
  }

  lemma {:induction false} AdvanceTells(cfg: Config, s: Stream, step: Step, k: int, story: Option<CallStory>)
    requires Tells(s, k, story)
    ensures Tells(Advance(cfg, s, step), k, Retold(story, step, k))
  {
    match step {
      case CallStep(index, id, name, fragment) =>
        EnsureTells(cfg, s, index, id, name, k, story);
        var found := Retold(story, CallStep(index, id, name, ""), k);
        ExtendTells(EnsureCall(cfg, s, index, id, name), index, fragment, k, found);
        EmptyEnds(fragment);
        if story.Some? { EmptyEnds(story.value.arguments); }
      case _ =>
    }
  }

  lemma {:induction false} AdvanceAllTells(cfg: Config, steps: seq<Step>, k: int)
    ensures Tells(AdvanceAll(cfg, Opening(cfg), steps), k, Story(steps, k))
  {
    if steps != [] {
      AdvanceAllTells(cfg, steps[..|steps| - 1], k);
      AdvanceTells(cfg, AdvanceAll(cfg, Opening(cfg), steps[..|steps| - 1]), steps[|steps| - 1], k,
                   Story(steps[..|steps| - 1], k));
    }
  }

  /** The final call items, in ascending order of upstream index. */
  function CallItems(cfg: Config, calls: map<int, Call>, order: seq<int>): (items: seq<OutputItem>)
    requires forall i :: 0 <= i < |order| ==> order[i] in calls
    ensures |items| == |order|
    ensures forall i :: 0 <= i < |order| ==> items[i] == CallItemOf(cfg, calls[order[i]])
  {
    seq(|order|, i requires 0 <= i < |order| => CallItemOf(cfg, calls[order[i]]))
  }

  ghost function FinalCalls(cfg: Config, calls: map<int, Call>): (items: seq<OutputItem>)
    ensures |items| == |calls|
  {
    KeysInOrder(calls);
    CallItems(cfg, calls, Ascending(calls.Keys))
  }

  lemma {:induction false} FinishCallsAppends(cfg: Config, s: Stream, order: seq<int>)
    requires forall i :: 0 <= i < |order| ==> order[i] in s.calls
    ensures FinishCalls(cfg, s, order).output == s.output + CallItems(cfg, s.calls, order)
    ensures FinishCalls(cfg, s, order).calls == s.calls
    ensures FinishCalls(cfg, s, order).usage == s.usage && FinishCalls(cfg, s, order).finish == s.finish
    decreases |order|
  {
    if order == [] {
      assert s.output + [] == s.output;
    } else {
      var item := CallItemOf(cfg, s.calls[order[0]]);
      FinishCallsAppends(cfg, FinishCall(cfg, s, s.calls[order[0]]), order[1..]);
      CallItemsCons(cfg, s.calls, order);
      Regroup(s.output, [item], CallItems(cfg, s.calls, order[1..]));
    }
  }

  lemma {:induction false} CallItemsCons(cfg: Config, calls: map<int, Call>, order: seq<int>)
    requires order != [] && forall i :: 0 <= i < |order| ==> order[i] in calls
    ensures CallItems(cfg, calls, order) == [CallItemOf(cfg, calls[order[0]])] + CallItems(cfg, calls, order[1..])
  {
  }

  lemma {:induction false} KeysInOrder(calls: map<int, Call>)
    ensures forall i :: 0 <= i < |Ascending(calls.Keys)| ==> Ascending(calls.Keys)[i] in calls
  {
    var order := Ascending(calls.Keys);
    forall i | 0 <= i < |order| ensures order[i] in calls {
      assert order[i] in order;
    }
  }

  lemma {:induction false} CallsSaySilence(output: seq<OutputItem>, calls: seq<OutputItem>)
    requires forall i :: 0 <= i < |calls| ==> calls[i].CallItem?
    ensures SpeechIn(output + calls) == SpeechIn(output)
    decreases |calls|
  {
    if calls == [] {
      assert output + calls == output;
    } else {
      var init := calls[..|calls| - 1];
      CallsSaySilence(output, init);
      assert output + calls == (output + init) + [calls[|calls| - 1]];
      SpeechSnoc(output + init, calls[|calls| - 1]);
      ThenSilence(SpeechIn(output));
    }
  }

  lemma {:induction false} SettleOutput(cfg: Config, s: Stream)
    ensures Settle(cfg, s).calls == s.calls
    ensures Settle(cfg, s).output == CloseActive(cfg, s).output + FinalCalls(cfg, s.calls)
    ensures Settle(cfg, s).usage == s.usage
  {
    KeysInOrder(s.calls);
    var c := CloseActive(cfg, s);
    assert c.calls == s.calls && c.usage == s.usage;
    FinishCallsAppends(cfg, c, Ascending(c.calls.Keys));
  }

  lemma {:induction false} SettledSpeech(cfg: Config, s: Stream)
    ensures SpeechIn(Settle(cfg, s).output) == Held(s)
    ensures |Settle(cfg, s).output| >= |s.calls|
    ensures Settle(cfg, s).output[|Settle(cfg, s).output| - |s.calls|..] == FinalCalls(cfg, s.calls)
  {
    var calls := FinalCalls(cfg, s.calls);
    CloseHolds(cfg, s);
    SettleOutput(cfg, s);
    KeysInOrder(s.calls);
    CallsSaySilence(CloseActive(cfg, s).output, calls);
  }

  /** Whatever the interleaving: all reasoning, all text and all citations that arrived are in
      the final items, each in order, and each call carries exactly its own fragments. */
  lemma {:induction false} StreamConserves(cfg: Config, extract: bool, chunks: seq<Chunk>, ending: Ending)
    ensures var t := Piped(cfg, extract, chunks, ending);
            var steps := AllSteps(extract, chunks);
            && SpeechIn(t.output) == Brought(steps)
            && (forall k :: Tells(t, k, Story(steps, k)))
            && |t.output| >= |t.calls|
            && t.output[|t.output| - |t.calls|..] == FinalCalls(cfg, t.calls)
  {
    var steps := AllSteps(extract, chunks);
    var s := AdvanceAll(cfg, Opening(cfg), steps);
    var t := Piped(cfg, extract, chunks, ending);
    AdvanceAllHolds(cfg, steps);
    SettledSpeech(cfg, s);
    SettleOutput(cfg, s);
    assert t.output == Settle(cfg, s).output && t.calls == s.calls;
    forall k ensures Tells(t, k, Story(steps, k)) {
      AdvanceAllTells(cfg, steps, k);
      assert Tells(s, k, Story(steps, k));
    }
  }

  // ---- from chunks to steps --------------------------------------------------------------

  lemma {:induction false} BroughtAppend(a: seq<Step>, b: seq<Step>)
    ensures Brought(a + b) == Then(Brought(a), Brought(b))
    decreases |b|
  {
    if b == [] {
      assert a + b == a;
      ThenSilence(Brought(a));
    } else {
      var init := b[..|b| - 1];
      assert (a + b)[..|a + b| - 1] == a + init;
      BroughtAppend(a, init);
      ThenAssociative(Brought(a), Brought(init), SpeechOf(b[|b| - 1]));
    }
  }

  predicate Mute(step: Step) {
    step.UsageStep? || step.CallStep? || step.FinishStep?
  }

  lemma {:induction false} MuteSteps(steps: seq<Step>)
    requires forall i :: 0 <= i < |steps| ==> Mute(steps[i])
    ensures Brought(steps) == SILENCE
  {
    if steps != [] {
      MuteSteps(steps[..|steps| - 1]);
      ThenSilence(SILENCE);
    }
  }

  lemma {:induction false} SpokenBrings(out: Split)
    ensures Brought(SpokenSteps(out)) == Speech(out.reasoning, out.content, [])
  {
    var r, c := ReasonStep(out.reasoning), TextStep(out.content);
    assert [r][..0] == [] && [c][..0] == [] && [r, c][..1] == [r] && [r] + [c] == [r, c];
    assert Brought([]) == SILENCE;
    ThenSilence(SpeechOf(r));
    ThenSilence(SpeechOf(c));
    assert Brought([r]) == SpeechOf(r) && Brought([c]) == SpeechOf(c);
    BroughtAppend([r], [c]);
    assert SpokenSteps(out) == (if out.reasoning == "" then [] else [r]) + (if out.content == "" then [] else [c]);
  }

  function NotesBrought(notes: seq<ChatAnnotation>): Speech {
    Speech("", "", TranslateAll(notes))
  }

  lemma {:induction false} NotesBring(notes: seq<ChatAnnotation>)
    ensures Brought(NoteSteps(notes)) == NotesBrought(notes)
  {
    if notes != [] {
      var init := notes[..|notes| - 1];
      NotesBring(init);
      assert NoteSteps(notes)[..|notes| - 1] == NoteSteps(init);
      assert notes == init + [notes[|notes| - 1]];
      TranslateSnoc(init, notes[|notes| - 1]);
    }
  }

  /** Content deltas with anything in them, in order. */
  function ContentDeltas(chunks: seq<Chunk>): seq<string> {
    if chunks == [] then []
    else
      var last := chunks[|chunks| - 1];
      ContentDeltas(chunks[..|chunks| - 1])
      + (if last.choice.Some? && OrElse(last.choice.value.delta.content, "") != ""
         then [last.choice.value.delta.content.value] else [])
  }

  function ReasoningDeltas(chunks: seq<Chunk>): seq<string> {
    if chunks == [] then []
    else
      var last := chunks[|chunks| - 1];
      ReasoningDeltas(chunks[..|chunks| - 1])
      + (if last.choice.Some? && OrElse(last.choice.value.delta.reasoning, "") != ""
         then [last.choice.value.delta.reasoning.value] else [])
  }

  function ReasoningDelta(chunk: Chunk): string {
    if chunk.choice.Some? then OrElse(chunk.choice.value.delta.reasoning, "") else ""
  }

  lemma {:induction false} DeltaBrings(out: Split, delta: Delta)
    ensures Brought(DeltaSteps(out, delta)).reasoning == out.reasoning
    ensures Brought(DeltaSteps(out, delta)).text == out.content
  {
    var a, b, c := SpokenSteps(out), NoteSteps(delta.annotations), CallSteps(delta.calls);
    SpokenBrings(out);
    NotesBring(delta.annotations);
    MuteSteps(c);
    BroughtAppend(a, b);
    BroughtAppend(a + b, c);
  }

  lemma {:induction false} ChunkBrings(split: Splitting, chunk: Chunk)
    ensures var brought := Brought(StepsOf(split, chunk).1);
            var out := if chunk.choice.None? then Split("", "") else Effective(split, chunk.choice.value.delta).1;
            brought.reasoning == out.reasoning && brought.text == out.content
  {
    MuteSteps(UsageSteps(chunk.usage));
    if chunk.choice.Some? {
      var Choice(delta, finish) := chunk.choice.value;
      DeltaBrings(Effective(split, delta).1, delta);
      MuteSteps(FinishSteps(finish));
      BetweenMutes(UsageSteps(chunk.usage), DeltaSteps(Effective(split, delta).1, delta), FinishSteps(finish));
    }
  }

  lemma {:induction false} BetweenMutes(a: seq<Step>, b: seq<Step>, c: seq<Step>)
    requires Brought(a) == SILENCE == Brought(c)
    ensures Brought(a + b + c) == Brought(b)
  {
    BroughtAppend(a, b);
    BroughtAppend(a + b, c);
    ThenSilence(Brought(b));
  }

  /** Without extraction the deltas go through as they are. */
  lemma {:induction false} PlainChunksBring(chunks: seq<Chunk>)
    ensures StepsOfAll(None, chunks).0 == None
    ensures Brought(StepsOfAll(None, chunks).1).text == Concat(ContentDeltas(chunks))
    ensures Brought(StepsOfAll(None, chunks).1).reasoning == Concat(ReasoningDeltas(chunks))
  {
    if chunks != [] {
      var init, last := chunks[..|chunks| - 1], chunks[|chunks| - 1];
      PlainChunksBring(init);
      var before := StepsOfAll(None, init);
      BroughtAppend(before.1, StepsOf(before.0, last).1);
      ChunkBrings(before.0, last);
      if last.choice.Some? {
        ConcatSnoc(ContentDeltas(init), OrElse(last.choice.value.delta.content, ""));
        ConcatSnoc(ReasoningDeltas(init), OrElse(last.choice.value.delta.reasoning, ""));
      }
      assert ContentDeltas(init) + [] == ContentDeltas(init) && ReasoningDeltas(init) + [] == ReasoningDeltas(init);
    }
  }

  function ContentDelta(chunk: Chunk): string {
    if chunk.choice.Some? then OrElse(chunk.choice.value.delta.content, "") else ""
  }

  /** What the splitter puts out for a chunk after others. */
  function SplitOut(before: seq<Chunk>, chunk: Chunk): Split {
    if ContentDelta(chunk) == "" then NOTHING else Process(Run(ContentDeltas(before)).0, ContentDelta(chunk)).1
  }

  /** The reasoning the splitter takes out of each chunk, in order. */
  function Extracted(chunks: seq<Chunk>): (parts: seq<string>)
    ensures |parts| == |chunks|
  {
    if chunks == [] then []
    else
      var init := chunks[..|chunks| - 1];
      Extracted(init) + [SplitOut(init, chunks[|chunks| - 1]).reasoning]
  }

  /** Each chunk's own reasoning, followed by what is taken out of its content. */
  function Woven(chunks: seq<Chunk>): string {
    if chunks == [] then ""
    else
      var init, last := chunks[..|chunks| - 1], chunks[|chunks| - 1];
      Woven(init) + (ReasoningDelta(last) + SplitOut(init, last).reasoning)
  }

  /** With extraction on, text and reasoning are what the splitter makes of the content, the
      reasoning woven with the chunks' own. */
  lemma {:induction false} SplitChunksBring(chunks: seq<Chunk>)
    ensures StepsOfAll(Some(FRESH), chunks).0 == Some(Run(ContentDeltas(chunks)).0)
    ensures Brought(StepsOfAll(Some(FRESH), chunks).1).text == Run(ContentDeltas(chunks)).1.content
    ensures Brought(StepsOfAll(Some(FRESH), chunks).1).reasoning == Woven(chunks)
    ensures Run(ContentDeltas(chunks)).1.reasoning == Concat(Extracted(chunks))
  {
    if chunks != [] {
      var init, last := chunks[..|chunks| - 1], chunks[|chunks| - 1];
      SplitChunksBring(init);
      var before := StepsOfAll(Some(FRESH), init);
      BroughtAppend(before.1, StepsOf(before.0, last).1);
      ChunkBrings(before.0, last);
      SplitterRuns(init, last);
      ConcatSnoc(Extracted(init), SplitOut(init, last).reasoning);
    }
  }

  lemma {:induction false} SplitterRuns(init: seq<Chunk>, chunk: Chunk)
    ensures var st := Some(Run(ContentDeltas(init)).0);
            var now := Run(ContentDeltas(init + [chunk]));
            var out := if chunk.choice.None? then NOTHING else Effective(st, chunk.choice.value.delta).1;
            && StepsOf(st, chunk).0 == Some(now.0) && now.1 == Plus(Run(ContentDeltas(init)).1, SplitOut(init, chunk))
            && out.content == SplitOut(init, chunk).content
            && out.reasoning == ReasoningDelta(chunk) + SplitOut(init, chunk).reasoning
  {
    var contents, content := ContentDeltas(init), ContentDelta(chunk);
    assert (init + [chunk])[..|init|] == init;
    PlusNothing(Run(contents).1);
    EmptyEnds(ReasoningDelta(chunk));
    if content == "" {
      EmptyEnds(contents);
    } else {
      assert (contents + [content])[..|contents|] == contents;
    }
  }

  /** The messages of a stream without extraction hold exactly the content deltas, and its
      reasoning items exactly the reasoning deltas. */
  lemma {:induction false} PlainStreamText(cfg: Config, chunks: seq<Chunk>, ending: Ending)
    ensures SpeechIn(Piped(cfg, false, chunks, ending).output).text == Concat(ContentDeltas(chunks))
    ensures SpeechIn(Piped(cfg, false, chunks, ending).output).reasoning == Concat(ReasoningDeltas(chunks))
  {
    StreamConserves(cfg, false, chunks, ending);
    PlainChunksBring(chunks);
    PlainSteps(chunks);
  }

  lemma {:induction false} PlainSteps(chunks: seq<Chunk>)
    requires StepsOfAll(None, chunks).0 == None
    ensures AllSteps(false, chunks) == StepsOfAll(None, chunks).1
  {
    var steps := StepsOfAll(None, chunks).1;
    assert steps + [] == steps;
  }

  /** With extraction on and no stale chunk, the messages are the content of the one-pass scan of
      all content, however it was cut into deltas; the reasoning items are the chunks' own reasoning
      woven with the parts taken out, which with the flushed tail are the reasoning of that scan. */
  lemma {:induction false} SplitStreamText(cfg: Config, chunks: seq<Chunk>, ending: Ending) returns (tail: string)
    requires NeverStale(ContentDeltas(chunks))
    ensures var speech := SpeechIn(Piped(cfg, true, chunks, ending).output);
            var scan := Scan(false, Concat(ContentDeltas(chunks)));
            && speech.text == scan.content && speech.reasoning == Woven(chunks) + tail
            && scan.reasoning == Concat(Extracted(chunks)) + tail
  {
    StreamConserves(cfg, true, chunks, ending);
    SplitChunksBring(chunks);
    var contents := ContentDeltas(chunks);
    var all := StepsOfAll(Some(FRESH), chunks);
    BroughtAppend(all.1, FlushSteps(all.0));
    SpokenBrings(Flush(all.0.value));
    NeverStaleIsCleared(contents);
    ClearedDeliversScan(contents);
    tail := Flush(all.0.value).reasoning;
  }

  /** Without reasoning of the chunks' own, nothing is woven in. */
  lemma {:induction false} WovenAlone(chunks: seq<Chunk>)
    requires forall i :: 0 <= i < |chunks| ==> ReasoningDelta(chunks[i]) == ""
    ensures Woven(chunks) == Concat(Extracted(chunks))
  {
    if chunks != [] {
      var init, last := chunks[..|chunks| - 1], chunks[|chunks| - 1];
      WovenAlone(init);
      ConcatSnoc(Extracted(init), SplitOut(init, last).reasoning);
      assert ReasoningDelta(last) == "";
      EmptyEnds(SplitOut(init, last).reasoning);
    }
  }

  /** When the reasoning is all in the content, messages and reasoning items are the two sides of
      the one-pass scan of it, however it was cut into deltas. */
  lemma {:induction false} InlineStreamText(cfg: Config, chunks: seq<Chunk>, ending: Ending)
    requires NeverStale(ContentDeltas(chunks))
    requires forall i :: 0 <= i < |chunks| ==> ReasoningDelta(chunks[i]) == ""
    ensures var speech := SpeechIn(Piped(cfg, true, chunks, ending).output);
            var scan := Scan(false, Concat(ContentDeltas(chunks)));
            speech.text == scan.content && speech.reasoning == scan.reasoning
  {
    var tail := SplitStreamText(cfg, chunks, ending);
    WovenAlone(chunks);
  }
}
