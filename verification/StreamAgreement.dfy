/** Streaming refines one-shot: however a message is cut into deltas, the stream ends with the
    output items the one-shot translator gives for the whole message. */
module StreamAgreement {
  import opened Core
  import opened ChatTypes
  import opened ResponseTypes
  import opened RespToResponses
  import opened StreamMachine
  import opened StreamConservation
  import StreamOrder

  // ---- the message a run of deltas spells ------------------------------------------------

  function RawNotes(steps: seq<Step>): seq<ChatAnnotation> {
    if steps == [] then []
    else RawNotes(steps[..|steps| - 1]) + (if steps[|steps| - 1].NoteStep? then [steps[|steps| - 1].note] else [])
  }

  function CallIndexes(steps: seq<Step>): set<int> {
    if steps == [] then {}
    else CallIndexes(steps[..|steps| - 1]) + (if steps[|steps| - 1].CallStep? then {steps[|steps| - 1].index} else {})
  }

  function LastUsage(steps: seq<Step>): Option<ChatUsage> {
    if steps == [] then None
    else if steps[|steps| - 1].UsageStep? then Some(steps[|steps| - 1].usage)
    else LastUsage(steps[..|steps| - 1])
  }

  /** The call's id comes with its first fragment; and some fragment names it, unless no name is
      no namespace's. */
  predicate Whole(cfg: Config, steps: seq<Step>, k: int) {
    && Story(steps, k).Some? && Story(steps, k).value.id.Some?
    && (Story(steps, k).value.name != "" || cfg.Namespace("").None?)
  }

  predicate CallsWhole(cfg: Config, steps: seq<Step>) {
    forall k :: k in CallIndexes(steps) ==> Whole(cfg, steps, k)
  }

  function SpelledCall(steps: seq<Step>, k: int): ToolCall {
    var story := Story(steps, k);
    if story.None? then ToolCall("", "", "")
    else ToolCall(OrElse(story.value.id, ""), story.value.name, story.value.arguments)
  }

  function SpelledCalls(steps: seq<Step>, order: seq<int>): (calls: seq<ToolCall>)
    ensures |calls| == |order|
    ensures forall i :: 0 <= i < |order| ==> calls[i] == SpelledCall(steps, order[i])
  {
    seq(|order|, i requires 0 <= i < |order| => SpelledCall(steps, order[i]))
  }

  /** The completion whose fragments the steps are: texts joined, calls by index. */
  ghost function Spelled(steps: seq<Step>): Completion {
    Completion(Brought(steps).text, Brought(steps).reasoning, RawNotes(steps),
               SpelledCalls(steps, Ascending(CallIndexes(steps))))
  }

  // ---- which items a stream speaks in ----------------------------------------------------

  datatype Kind = Reasoned | Said | Called

  /** The kinds of the spoken items in order, and the one still open. */
  datatype Voice = Voice(kinds: seq<Kind>, open: Option<Kind>)

  /** A delta goes on with the open item of its kind, or opens another. */
  function Turned(before: Voice, kind: Kind): Voice {
    if before.open == Some(kind) then before else Voice(before.kinds + [kind], Some(kind))
  }

  /** The spoken items the deltas make: a change of channel starts a new one, and so does what
      comes after a new call. */
  function Spoke(steps: seq<Step>): Voice {
    if steps == [] then Voice([], None)
    else
      var init, last := steps[..|steps| - 1], steps[|steps| - 1];
      match last
      case ReasonStep(_) => Turned(Spoke(init), Reasoned)
      case TextStep(_) => Turned(Spoke(init), Said)
      case NoteStep(_) => Turned(Spoke(init), Said)
      case CallStep(index, _, _, _) => if index in CallIndexes(init) then Spoke(init) else Spoke(init).(open := None)
      case _ => Spoke(init)
  }

  /** The spoken items of a one-shot translation. */
  function OneShotKinds(c: Completion): seq<Kind> {
    (if c.reasoning == "" then [] else [Reasoned]) + (if c.content == "" then [] else [Said])
  }

  function KindOf(item: OutputItem): Kind {
    match item
    case ReasoningItem(_, _, _) => Reasoned
    case MessageItem(_, _, _) => Said
    case CallItem(_, _, _, _, _) => Called
  }

  function KindsOf(items: seq<OutputItem>): (kinds: seq<Kind>)
    ensures |kinds| == |items|
    ensures forall i :: 0 <= i < |items| ==> kinds[i] == KindOf(items[i])
  {
    seq(|items|, i requires 0 <= i < |items| => KindOf(items[i]))
  }

  function OpenKind(active: Active): Option<Kind> {
    match active
    case Idle => None
    case Thinking(_, _) => Some(Reasoned)
    case Speaking(_, _, _) => Some(Said)
  }

  function SpeakingIn(s: Stream): Voice {
    var open := OpenKind(s.active);
    Voice(KindsOf(s.output) + (if open.Some? then [open.value] else []), open)
  }

  lemma {:induction false} KindsPush(items: seq<OutputItem>, item: OutputItem)
    ensures KindsOf(items + [item]) == KindsOf(items) + [KindOf(item)]
  {
  }

  lemma {:induction false} CloseSpeaks(cfg: Config, s: Stream)
    ensures SpeakingIn(CloseActive(cfg, s)) == SpeakingIn(s).(open := None)
    ensures SpeakingIn(CloseActive(cfg, s)).kinds == KindsOf(CloseActive(cfg, s).output)
  {
    EmptyEnds(KindsOf(CloseActive(cfg, s).output));
    match s.active {
      case Idle =>
      case Thinking(id, text) => KindsPush(s.output, ReasoningItem(id, cfg.Summary(text), text));
      case Speaking(id, text, notes) => KindsPush(s.output, MessageItem(id, text, notes));
    }
  }

  lemma {:induction false} ThinkSpeaks(cfg: Config, s: Stream, text: string)
    ensures SpeakingIn(Think(cfg, s, text)) == Turned(SpeakingIn(s), Reasoned)
  {
    CloseSpeaks(cfg, s);
  }

  lemma {:induction false} SpeakSpeaks(cfg: Config, s: Stream, text: string)
    ensures SpeakingIn(Speak(cfg, s, text)) == Turned(SpeakingIn(s), Said)
  {
    CloseSpeaks(cfg, s);
  }

  lemma {:induction false} AnnotateSpeaks(cfg: Config, s: Stream, note: ChatAnnotation)
    ensures SpeakingIn(Annotate(cfg, s, note)) == Turned(SpeakingIn(s), Said)
  {
    CloseSpeaks(cfg, s);
  }

  lemma {:induction false} CallSpeaks(cfg: Config, s: Stream, index: int, id: Option<string>, name: Option<string>,
                                      fragment: string)
    ensures SpeakingIn(ExtendCall(EnsureCall(cfg, s, index, id, name), index, fragment))
         == if index in s.calls then SpeakingIn(s) else SpeakingIn(s).(open := None)
  {
    CloseSpeaks(cfg, s);
  }

  lemma {:induction false} StepsSpeak(cfg: Config, steps: seq<Step>)
    ensures SpeakingIn(AdvanceAll(cfg, Opening(cfg), steps)) == Spoke(steps)
  {
    if steps == [] {
      assert KindsOf([]) == [];
    } else {
      var init, last := steps[..|steps| - 1], steps[|steps| - 1];
      var s := AdvanceAll(cfg, Opening(cfg), init);
      StepsSpeak(cfg, init);
      KeysAreIndexes(cfg, init);
      match last {
        case ReasonStep(text) => ThinkSpeaks(cfg, s, text);
        case TextStep(text) => SpeakSpeaks(cfg, s, text);
        case NoteStep(note) => AnnotateSpeaks(cfg, s, note);
        case CallStep(index, id, name, fragment) => CallSpeaks(cfg, s, index, id, name, fragment);
        case _ =>
      }
    }
  }

  lemma {:induction false} KeysAreIndexes(cfg: Config, steps: seq<Step>)
    ensures AdvanceAll(cfg, Opening(cfg), steps).calls.Keys == CallIndexes(steps)
  {
    if steps != [] {
      KeysAreIndexes(cfg, steps[..|steps| - 1]);
      var s := AdvanceAll(cfg, Opening(cfg), steps[..|steps| - 1]);
      AdvanceKeys(cfg, s, steps[|steps| - 1]);
    }
  }

  lemma {:induction false} AdvanceKeys(cfg: Config, s: Stream, step: Step)
    ensures Advance(cfg, s, step).calls.Keys == s.calls.Keys + (if step.CallStep? then {step.index} else {})
  {
    match step {
      case CallStep(index, id, name, fragment) =>
        var o := EnsureCall(cfg, s, index, id, name);
        assert o.calls.Keys == s.calls.Keys + {index};
      case _ =>
    }
  }

  // ---- the spoken items ------------------------------------------------------------------

  lemma {:induction false} NotesSpelled(steps: seq<Step>)
    ensures TranslateAll(RawNotes(steps)) == Brought(steps).notes
  {
    if steps != [] {
      var init, last := steps[..|steps| - 1], steps[|steps| - 1];
      NotesSpelled(init);
      assert RawNotes(init) + [] == RawNotes(init) && Brought(init).notes + [] == Brought(init).notes;
      if last.NoteStep? {
        TranslateSnoc(RawNotes(init), last.note);
      }
    }
  }

  lemma {:induction false} AnonymousOne(item: OutputItem)
    ensures AnonymousAll([item]) == [Anonymous(item)]
  {
  }

  lemma {:induction false} AnonymousAppend(a: seq<OutputItem>, b: seq<OutputItem>)
    ensures AnonymousAll(a + b) == AnonymousAll(a) + AnonymousAll(b)
  {
  }

  lemma {:induction false} CloseKeepsUsage(cfg: Config, s: Stream)
    ensures CloseActive(cfg, s).usage == s.usage
  {
  }

  lemma {:induction false} StepUsage(cfg: Config, s: Stream, step: Step)
    ensures Advance(cfg, s, step).usage == if step.UsageStep? then Some(MapUsage(step.usage)) else s.usage
  {
    CloseKeepsUsage(cfg, s);
  }

  lemma {:induction false} UsageKept(cfg: Config, steps: seq<Step>)
    ensures AdvanceAll(cfg, Opening(cfg), steps).usage
         == if LastUsage(steps).Some? then Some(MapUsage(LastUsage(steps).value)) else None
  {
    if steps != [] {
      UsageKept(cfg, steps[..|steps| - 1]);
      StepUsage(cfg, AdvanceAll(cfg, Opening(cfg), steps[..|steps| - 1]), steps[|steps| - 1]);
    }
  }

  lemma {:induction false} KindsIgnoreIds(items: seq<OutputItem>)
    ensures KindsOf(AnonymousAll(items)) == KindsOf(items)
  {
  }

  lemma {:induction false} OneShotSpeaks(cfg: Config, n: nat, c: Completion)
    ensures KindsOf(SpokenItems(cfg, n, c)) == OneShotKinds(c)
  {
    var r := if c.reasoning == "" then []
        else [ReasoningItem(cfg.ReasoningId(n), cfg.Summary(c.reasoning), c.reasoning)];
    var id := cfg.MessageId(if c.reasoning == "" then n else n + 1);
    var m := if c.content == "" then [] else [MessageItem(id, c.content, TranslateAll(c.annotations))];
    assert SpokenItems(cfg, n, c) == r + m;
  }

  function Remark(item: OutputItem): Speech {
    match item
    case ReasoningItem(_, _, encrypted) => Speech(encrypted, "", [])
    case MessageItem(_, text, notes) => Speech("", text, notes)
    case CallItem(_, _, _, _, _) => SILENCE
  }

  lemma {:induction false} SpeechOfOne(item: OutputItem)
    ensures SpeechIn([item]) == Remark(item)
  {
    EmptyEnds([item]);
    SpeechSnoc([], item);
    ThenSilence(Remark(item));
  }

  lemma {:induction false} SpeechOfTwo(a: OutputItem, b: OutputItem)
    ensures SpeechIn([a, b]) == Then(Remark(a), Remark(b))
  {
    SpeechOfOne(a);
    SpeechSnoc([a], b);
  }

  function PlainReasoning(cfg: Config, c: Completion): OutputItem {
    ReasoningItem("", cfg.Summary(c.reasoning), c.reasoning)
  }

  function PlainMessage(c: Completion): OutputItem {
    MessageItem("", c.content, TranslateAll(c.annotations))
  }

  lemma {:induction false} OneShotPlain(cfg: Config, n: nat, c: Completion)
    ensures AnonymousAll(SpokenItems(cfg, n, c))
         == PlainSpoken(cfg, c)
  {
    var r := if c.reasoning == "" then []
        else [ReasoningItem(cfg.ReasoningId(n), cfg.Summary(c.reasoning), c.reasoning)];
    var id := cfg.MessageId(if c.reasoning == "" then n else n + 1);
    var m := if c.content == "" then [] else [MessageItem(id, c.content, TranslateAll(c.annotations))];
    assert SpokenItems(cfg, n, c) == r + m;
    AnonymousAppend(r, m);
    if r != [] { AnonymousOne(r[0]); }
    if m != [] { AnonymousOne(m[0]); }
  }

  /** A reasoning item that holds all reasoning, and a message that holds all text and citations. */
  lemma {:induction false} TwoItems(cfg: Config, c: Completion, a: OutputItem, b: OutputItem)
    requires KindOf(a) == Reasoned && KindOf(b) == Said && a.summary == cfg.Summary(a.encrypted)
    requires Then(Remark(a), Remark(b)) == Speech(c.reasoning, c.content, TranslateAll(c.annotations))
    ensures AnonymousAll([a, b]) == [PlainReasoning(cfg, c), PlainMessage(c)]
  {
    EmptyEnds(a.encrypted);
    EmptyEnds(b.text);
    EmptyEnds(b.annotations);
  }

  lemma {:induction false} OneItem(cfg: Config, c: Completion, a: OutputItem)
    requires KindOf(a) != Called && (KindOf(a) == Reasoned ==> a.summary == cfg.Summary(a.encrypted))
    requires Remark(a) == Speech(c.reasoning, c.content, TranslateAll(c.annotations))
    ensures AnonymousAll([a]) == [if KindOf(a) == Reasoned then PlainReasoning(cfg, c) else PlainMessage(c)]
  {
    AnonymousOne(a);
  }

  lemma {:induction false} OneShotCases(c: Completion)
    ensures c.reasoning == "" && c.content == "" ==> OneShotKinds(c) == []
    ensures c.reasoning != "" && c.content == "" ==> OneShotKinds(c) == [Reasoned]
    ensures c.reasoning == "" && c.content != "" ==> OneShotKinds(c) == [Said]
    ensures c.reasoning != "" && c.content != "" ==> OneShotKinds(c) == [Reasoned, Said]
  {
  }

  function PlainSpoken(cfg: Config, c: Completion): seq<OutputItem> {
    (if c.reasoning == "" then [] else [PlainReasoning(cfg, c)]) + (if c.content == "" then [] else [PlainMessage(c)])
  }

  /** These items together say what the message says. */
  predicate SaysAll(cfg: Config, c: Completion, items: seq<OutputItem>) {
    && StreamOrder.Summarised(cfg, items)
    && SpeechIn(items) == Speech(c.reasoning, c.content, TranslateAll(c.annotations))
  }

  lemma {:induction false} SpokenAlone(cfg: Config, c: Completion, a: OutputItem)
    requires SaysAll(cfg, c, [a]) && OneShotKinds(c) == [KindOf(a)]
    ensures AnonymousAll([a]) == PlainSpoken(cfg, c)
  {
    OneShotCases(c);
    SpeechOfOne(a);
    assert [a][0] == a;
    OneItem(cfg, c, a);
  }

  lemma {:induction false} SpokenTogether(cfg: Config, c: Completion, a: OutputItem, b: OutputItem)
    requires SaysAll(cfg, c, [a, b]) && OneShotKinds(c) == [KindOf(a), KindOf(b)]
    ensures AnonymousAll([a, b]) == PlainSpoken(cfg, c)
  {
    OneShotCases(c);
    SpeechOfTwo(a, b);
    assert [a, b][0] == a;
    TwoItems(cfg, c, a, b);
  }

  /** Items of the one-shot kinds that together say what the message says are the one-shot items. */
  lemma {:induction false} SpokenByKinds(cfg: Config, n: nat, c: Completion, items: seq<OutputItem>)
    requires KindsOf(items) == OneShotKinds(c) && SaysAll(cfg, c, items)
    ensures AnonymousAll(items) == AnonymousAll(SpokenItems(cfg, n, c))
  {
    OneShotCases(c);
    OneShotPlain(cfg, n, c);
    if |items| == 2 {
      assert items == [items[0], items[1]];
      SpokenTogether(cfg, c, items[0], items[1]);
    } else if |items| == 1 {
      assert items == [items[0]];
      SpokenAlone(cfg, c, items[0]);
    }
  }

  lemma {:induction false} SpokenIff(cfg: Config, n: nat, steps: seq<Step>)
    ensures AnonymousAll(CloseActive(cfg, AdvanceAll(cfg, Opening(cfg), steps)).output)
            == AnonymousAll(SpokenItems(cfg, n, Spelled(steps)))
       <==> Spoke(steps).kinds == OneShotKinds(Spelled(steps))
  {
    var s, spoken := AdvanceAll(cfg, Opening(cfg), steps), SpokenItems(cfg, n, Spelled(steps));
    var closed := CloseActive(cfg, s).output;
    StepsSpeak(cfg, steps);
    CloseSpeaks(cfg, s);
    AdvanceAllHolds(cfg, steps);
    CloseHolds(cfg, s);
    StreamOrder.StepsSummarise(cfg, steps);
    StreamOrder.CloseSummarises(cfg, s);
    OneShotSpeaks(cfg, n, Spelled(steps));
    if AnonymousAll(closed) == AnonymousAll(spoken) {
      KindsIgnoreIds(closed);
      KindsIgnoreIds(spoken);
    }
    if Spoke(steps).kinds == OneShotKinds(Spelled(steps)) {
      NotesSpelled(steps);
      SpokenByKinds(cfg, n, Spelled(steps), closed);
    }
  }

  // ---- the calls -------------------------------------------------------------------------

  /** An id is made up for a call whose first fragment brings none. */
  predicate MadeUp(s: Stream, k: int, story: Option<CallStory>) {
    story.Some? && story.value.id.None? && k in s.calls ==>
      "fc_" <= s.calls[k].itemId && s.calls[k].callId == "call_" + s.calls[k].itemId[3..]
  }

  lemma {:induction false} EnsureMakesUp(cfg: Config, s: Stream, step: Step, k: int, story: Option<CallStory>)
    requires Tells(s, k, story) && MadeUp(s, k, story)
    ensures MadeUp(Advance(cfg, s, step), k, Retold(story, step, k))
  {
  }

  lemma {:induction false} StepsMakeUp(cfg: Config, steps: seq<Step>, k: int)
    ensures MadeUp(AdvanceAll(cfg, Opening(cfg), steps), k, Story(steps, k))
  {
    if steps != [] {
      var init := steps[..|steps| - 1];
      StepsMakeUp(cfg, init, k);
      AdvanceAllTells(cfg, init, k);
      EnsureMakesUp(cfg, AdvanceAll(cfg, Opening(cfg), init), steps[|steps| - 1], k, Story(init, k));
    }
  }

  lemma {:induction false} CallAgreesIff(cfg: Config, n: nat, steps: seq<Step>, k: int)
    requires k in CallIndexes(steps)
    ensures k in AdvanceAll(cfg, Opening(cfg), steps).calls
    ensures Anonymous(CallItemOf(cfg, AdvanceAll(cfg, Opening(cfg), steps).calls[k]))
            == Anonymous(CallToItem(cfg, n, SpelledCall(steps, k)))
       <==> Whole(cfg, steps, k)
  {
    AdvanceAllTells(cfg, steps, k);
    StepsMakeUp(cfg, steps, k);
    KeysAreIndexes(cfg, steps);
  }

  lemma {:induction false} CallsToItemsAt(cfg: Config, n: nat, calls: seq<ToolCall>, i: nat)
    requires i < |calls|
    ensures CallsToItems(cfg, n, calls)[i] == CallToItem(cfg, n + i, calls[i])
    decreases |calls|
  {
    if i > 0 { CallsToItemsAt(cfg, n + 1, calls[1..], i - 1); }
  }

  lemma {:induction false} CallsAgreeIff(cfg: Config, n: nat, steps: seq<Step>, order: seq<int>)
    requires forall i :: 0 <= i < |order| ==> order[i] in CallIndexes(steps)
    requires forall i :: 0 <= i < |order| ==> order[i] in AdvanceAll(cfg, Opening(cfg), steps).calls
    ensures AnonymousAll(CallItems(cfg, AdvanceAll(cfg, Opening(cfg), steps).calls, order))
            == AnonymousAll(CallsToItems(cfg, n, SpelledCalls(steps, order)))
       <==> forall i :: 0 <= i < |order| ==> Whole(cfg, steps, order[i])
  {
    var calls := AdvanceAll(cfg, Opening(cfg), steps).calls;
    var mine, theirs := CallItems(cfg, calls, order), CallsToItems(cfg, n, SpelledCalls(steps, order));
    forall i | 0 <= i < |order| ensures Anonymous(mine[i]) == Anonymous(theirs[i]) <==> Whole(cfg, steps, order[i]) {
      CallAgreesIff(cfg, n + i, steps, order[i]);
      CallsToItemsAt(cfg, n, SpelledCalls(steps, order), i);
    }
    SameAnonymous(mine, theirs);
  }

  lemma {:induction false} SameAnonymous(a: seq<OutputItem>, b: seq<OutputItem>)
    requires |a| == |b|
    ensures AnonymousAll(a) == AnonymousAll(b) <==> forall i :: 0 <= i < |a| ==> Anonymous(a[i]) == Anonymous(b[i])
  {
    if AnonymousAll(a) == AnonymousAll(b) {
      forall i | 0 <= i < |a| ensures Anonymous(a[i]) == Anonymous(b[i]) {
        assert AnonymousAll(a)[i] == AnonymousAll(b)[i];
      }
    }
  }

  lemma {:induction false} SameParts<T>(a: seq<T>, b: seq<T>, c: seq<T>, d: seq<T>)
    requires |b| == |d|
    ensures a + b == c + d <==> a == c && b == d
  {
    if a + b == c + d {
      assert (a + b)[..|a|] == (c + d)[..|c|] && (a + b)[|a|..] == (c + d)[|c|..];
    }
  }

  lemma {:induction false} CallSidesIff(cfg: Config, steps: seq<Step>)
    ensures var s := AdvanceAll(cfg, Opening(cfg), steps);
      AnonymousAll(FinalCalls(cfg, s.calls)) == AnonymousAll(CallsToItems(cfg, 0, Spelled(steps).calls))
      <==> CallsWhole(cfg, steps)
    ensures |FinalCalls(cfg, AdvanceAll(cfg, Opening(cfg), steps).calls)| == |Spelled(steps).calls|
  {
    var calls := AdvanceAll(cfg, Opening(cfg), steps).calls;
    KeysAreIndexes(cfg, steps);
    KeysInOrder(calls);
    var order := Ascending(calls.Keys);
    assert Spelled(steps).calls == SpelledCalls(steps, order);
    assert forall i :: 0 <= i < |order| ==> order[i] in order;
    CallsAgreeIff(cfg, 0, steps, order);
  }

  // ---- the whole -------------------------------------------------------------------------

  lemma {:induction false} OutputAnonymous(cfg: Config, n: nat, c: Completion)
    ensures AnonymousAll(OutputOf(cfg, n, c))
         == AnonymousAll(SpokenItems(cfg, n, c)) + AnonymousAll(CallsToItems(cfg, 0, c.calls))
  {
    var spoken := SpokenItems(cfg, n, c);
    AnonymousAppend(spoken, CallsToItems(cfg, n + |spoken|, c.calls));
    CallsIgnoreIds(cfg, 0, n + |spoken|, c.calls);
  }

  lemma {:induction false} StepsAgreeIff(cfg: Config, n: nat, steps: seq<Step>)
    ensures AnonymousAll(Settle(cfg, AdvanceAll(cfg, Opening(cfg), steps)).output)
            == AnonymousAll(OutputOf(cfg, n, Spelled(steps)))
       <==> Spoke(steps).kinds == OneShotKinds(Spelled(steps)) && CallsWhole(cfg, steps)
  {
    var s, c := AdvanceAll(cfg, Opening(cfg), steps), Spelled(steps);
    var closed, finals := CloseActive(cfg, s).output, FinalCalls(cfg, s.calls);
    SettleOutput(cfg, s);
    AnonymousAppend(closed, finals);
    OutputAnonymous(cfg, n, c);
    SpokenIff(cfg, n, steps);
    CallSidesIff(cfg, steps);
    SameParts(AnonymousAll(closed), AnonymousAll(finals),
              AnonymousAll(SpokenItems(cfg, n, c)), AnonymousAll(CallsToItems(cfg, 0, c.calls)));
  }

  /** However the deltas come, the stream's final output is the one-shot translation of the message
      they spell, up to generated ids, if and only if its spoken items are the one-shot ones — one
      reasoning item if there is reasoning, then one message if there is text — and every call has
      its id in its first fragment and a name; and the usage is always the last one sent. */
  lemma {:induction false} StreamAgreesIff(cfg: Config, n: nat, extract: bool, chunks: seq<Chunk>, ending: Ending)
    ensures var steps := AllSteps(extract, chunks);
      AnonymousAll(Piped(cfg, extract, chunks, ending).output) == AnonymousAll(OutputOf(cfg, n, Spelled(steps)))
      <==> Spoke(steps).kinds == OneShotKinds(Spelled(steps)) && CallsWhole(cfg, steps)
    ensures Piped(cfg, extract, chunks, ending).usage
         == if LastUsage(AllSteps(extract, chunks)).Some? then
             Some(MapUsage(LastUsage(AllSteps(extract, chunks)).value)) else None
  {
    var steps := AllSteps(extract, chunks);
    StepsAgreeIff(cfg, n, steps);
    UsageKept(cfg, steps);
    SettleOutput(cfg, AdvanceAll(cfg, Opening(cfg), steps));
  }

  // ---- reasoning before content before calls ---------------------------------------------

  function Rank(step: Step): nat {
    match step
    case TextStep(_) => 1
    case NoteStep(_) => 1
    case CallStep(_, _, _, _) => 2
    case _ => 0
  }

  function Reached(steps: seq<Step>): nat {
    if steps == [] then 0
    else
      var before := Reached(steps[..|steps| - 1]);
      if before < Rank(steps[|steps| - 1]) then Rank(steps[|steps| - 1]) else before
  }

  /** Usage and finish marks may stand anywhere; the rest comes in the one-shot order. */
  predicate InOrder(steps: seq<Step>) {
    steps == [] ||
    (var init, last := steps[..|steps| - 1], steps[|steps| - 1];
     InOrder(init) && (last.UsageStep? || last.FinishStep? || Reached(init) <= Rank(last)))
  }

  predicate Substantial(steps: seq<Step>) {
    forall i :: 0 <= i < |steps| ==>
      (steps[i].ReasonStep? ==> steps[i].text != "") && (steps[i].TextStep? ==> steps[i].text != "")
  }

  /** What an ordered run has said so far. */
  predicate SaidInOrder(spoke: Voice, b: Speech, reached: nat) {
    var reasoned := if b.reasoning == "" then [] else [Reasoned];
    if reached == 0 then
      b.text == "" && b.notes == [] && spoke == Voice(reasoned, if b.reasoning == "" then None else Some(Reasoned))
    else if reached == 1 then (b.text != "" || b.notes != []) && spoke == Voice(reasoned + [Said], Some(Said))
    else spoke == Voice(reasoned + (if b.text == "" && b.notes == [] then [] else [Said]), None)
  }

  lemma {:induction false} CallsComeLast(steps: seq<Step>)
    ensures Reached(steps) < 2 ==> CallIndexes(steps) == {}
    ensures Reached(steps) <= 2
  {
    if steps != [] { CallsComeLast(steps[..|steps| - 1]); }
  }

  lemma {:induction false} OrderedRun(steps: seq<Step>)
    requires InOrder(steps) && Substantial(steps)
    ensures SaidInOrder(Spoke(steps), Brought(steps), Reached(steps))
  {
    if steps != [] {
      var init, last := steps[..|steps| - 1], steps[|steps| - 1];
      assert Substantial(init);
      OrderedRun(init);
      CallsComeLast(init);
      ThenSilence(Brought(init));
      if last.UsageStep? || last.FinishStep? {
        assert Reached(steps) == Reached(init);
      } else {
        SaidNext(Spoke(init), Brought(init), Reached(init), last);
      }
    }
  }

  lemma {:induction false} SaidNext(spoke: Voice, b: Speech, reached: nat, step: Step)
    requires SaidInOrder(spoke, b, reached) && reached <= Rank(step) && !step.UsageStep? && !step.FinishStep?
    requires step.ReasonStep? || step.TextStep? ==> step.text != ""
    ensures var next := if step.ReasonStep? then Turned(spoke, Reasoned)
                        else if step.CallStep? then spoke.(open := None) else Turned(spoke, Said);
      SaidInOrder(next, Then(b, SpeechOf(step)), Rank(step))
  {
    ThenSilence(b);
    EmptyEnds(if b.reasoning == "" then [] else [Reasoned]);
  }

  lemma {:induction false} SubstantialAppend(a: seq<Step>, b: seq<Step>)
    requires Substantial(a) && Substantial(b)
    ensures Substantial(a + b)
  {
  }

  lemma {:induction false} ChunksSubstantial(split: Splitting, chunks: seq<Chunk>)
    ensures Substantial(StepsOfAll(split, chunks).1)
  {
    if chunks != [] {
      ChunksSubstantial(split, chunks[..|chunks| - 1]);
      var before := StepsOfAll(split, chunks[..|chunks| - 1]);
      var last := chunks[|chunks| - 1];
      assert Substantial(UsageSteps(last.usage));
      if last.choice.Some? {
        var Choice(delta, finish) := last.choice.value;
        var out := Effective(before.0, delta).1;
        SubstantialAppend(SpokenSteps(out), NoteSteps(delta.annotations));
        SubstantialAppend(SpokenSteps(out) + NoteSteps(delta.annotations), CallSteps(delta.calls));
        SubstantialAppend(UsageSteps(last.usage), DeltaSteps(out, delta));
        SubstantialAppend(UsageSteps(last.usage) + DeltaSteps(out, delta), FinishSteps(finish));
      }
      SubstantialAppend(before.1, StepsOf(before.0, last).1);
    }
  }

  /** If the deltas spell a message with reasoning before content before calls, each call's id
      whole in its first fragment and its name in some fragment, and citations only on a message
      with text, the stream's final output is the one-shot translation of that message, up to
      generated ids. Fragments of different calls interleave freely. */
  lemma {:induction false} StreamRefinesOneShot(cfg: Config, n: nat, extract: bool, chunks: seq<Chunk>, ending: Ending)
    requires InOrder(AllSteps(extract, chunks)) && CallsWhole(cfg, AllSteps(extract, chunks))
    requires Brought(AllSteps(extract, chunks)).notes != [] ==> Brought(AllSteps(extract, chunks)).text != ""
    ensures AnonymousAll(Piped(cfg, extract, chunks, ending).output)
         == AnonymousAll(OutputOf(cfg, n, Spelled(AllSteps(extract, chunks))))
  {
    var split := StartSplit(extract);
    ChunksSubstantial(split, chunks);
    SubstantialAppend(StepsOfAll(split, chunks).1, FlushSteps(StepsOfAll(split, chunks).0));
    OrderedRun(AllSteps(extract, chunks));
    EmptyEnds(if Brought(AllSteps(extract, chunks)).reasoning == "" then [] else [Reasoned]);
    StreamAgreesIff(cfg, n, extract, chunks, ending);
  }

  function ReasonChunk(): Chunk {
    Chunk(None, Some(Choice(Delta(None, Some("why"), [], []), None)))
  }

  lemma {:induction false} ReasonChunkSteps()
    ensures StepsOf(None, ReasonChunk()).1 == [ReasonStep("why")]
  {
  }

  lemma {:induction false} TextFirst(text: string, reason: string)
    requires text != "" && reason != ""
    ensures Spoke([TextStep(text)] + [ReasonStep(reason)]).kinds == [Said, Reasoned]
    ensures OneShotKinds(Spelled([TextStep(text)] + [ReasonStep(reason)])) == [Reasoned, Said]
  {
    var steps := [TextStep(text)] + [ReasonStep(reason)];
    assert steps[..1] == [TextStep(text)] && [TextStep(text)][..0] == [];
    assert Spoke([]) == Voice([], None) && Brought([]) == SILENCE;
    assert Spoke([TextStep(text)]).kinds == [Said] && Brought([TextStep(text)]).text == text;
    EmptyEnds(text);
  }

  /** Reasoning that comes after text: the stream lists it after the message, the one-shot form
      before it. */
  lemma {:induction false} ReasoningAfterText(cfg: Config, n: nat, ending: Ending)
    ensures var chunks := [StreamOrder.TextChunk(), ReasonChunk()];
      AnonymousAll(Piped(cfg, false, chunks, ending).output)
      != AnonymousAll(OutputOf(cfg, n, Spelled(AllSteps(false, chunks))))
  {
    var chunks := [StreamOrder.TextChunk(), ReasonChunk()];
    StreamOrder.TwoChunks(chunks[0], chunks[1]);
    StreamOrder.TextChunkSteps();
    ReasonChunkSteps();
    TextFirst("hi", "why");
    assert [Said, Reasoned][0] != [Reasoned, Said][0];
    StreamAgreesIff(cfg, n, false, chunks, ending);
  }
}
