/** The streaming translator as a state machine: chat deltas in, Responses events out
    (src/translate/streamToSse.ts). A chunk is a short list of steps; every step is a function
    on the machine's state, and the class below is the machine as written. */
module StreamMachine {
  import opened Core
  import opened ResponseTypes
  import opened ThinkSplitter

  // ---- events ----------------------------------------------------------------------------

  datatype Status = InFlight | Complete | Cut | Broken(message: string)

  datatype Snapshot = Snapshot(id: string, status: Status, output: seq<OutputItem>, usage: Option<Usage>,
                               truncated: bool)

  datatype NewItem =
    | NewReasoning
    | NewMessage
    | NewCall(callId: string, name: string, ns: Option<string>)

  datatype Event =
    | Created(snapshot: Snapshot)
    | InProgress(snapshot: Snapshot)
    | ItemAdded(index: int, id: string, added: NewItem)
    | SummaryPartAdded(index: int, id: string)
    | SummaryTextDelta(index: int, id: string, delta: string)
    | SummaryTextDone(index: int, id: string, text: string)
    | SummaryPartDone(index: int, id: string, text: string)
    | ContentPartAdded(index: int, id: string)
    | OutputTextDelta(index: int, id: string, delta: string)
    | AnnotationAdded(index: int, id: string, position: nat, annotation: Annotation)
    | OutputTextDone(index: int, id: string, text: string)
    | ContentPartDone(index: int, id: string, text: string, annotations: seq<Annotation>)
    | ArgumentsDelta(index: int, id: string, delta: string)
    | ArgumentsDone(index: int, id: string, arguments: string)
    | ItemDone(index: int, id: string, item: OutputItem)
    | Completed(snapshot: Snapshot)
    | Failed(snapshot: Snapshot)

  // ---- state -----------------------------------------------------------------------------

  /** The reasoning or message item deltas currently go to. */
  datatype Active =
    | Idle
    | Thinking(id: string, text: string)
    | Speaking(id: string, text: string, annotations: seq<Annotation>)

  datatype Call = Call(itemId: string, outputIndex: nat, callId: string, name: string, arguments: string)

  datatype Stream = Stream(
    outputIndex: nat,
    issued: nat,
    active: Active,
    calls: map<int, Call>,
    output: seq<OutputItem>,
    finish: Option<string>,
    usage: Option<Usage>,
    log: seq<Event>)

  /** The smallest steps a chunk decomposes into. */
  datatype Step =
    | UsageStep(usage: ChatUsage)
    | ReasonStep(text: string)
    | TextStep(text: string)
    | NoteStep(note: ChatAnnotation)
    | CallStep(index: int, id: Option<string>, name: Option<string>, fragment: string)
    | FinishStep(reason: string)

  function Emit(s: Stream, e: Event): Stream {
    s.(log := s.log + [e])
  }

  function SnapshotOf(cfg: Config, s: Stream, status: Status): Snapshot {
    Snapshot(cfg.ResponseId(0), status, s.output, s.usage, s.finish == Some("length"))
  }

  function CloseReasoning(cfg: Config, s: Stream): Stream
    requires s.active.Thinking?
  {
    var Thinking(id, text) := s.active;
    var i := s.outputIndex - 1;
    var told := if cfg.exposeReasoning
                then Emit(Emit(s, SummaryTextDone(i, id, text)), SummaryPartDone(i, id, text))
                else s;
    var item := ReasoningItem(id, cfg.Summary(text), text);
    Emit(told.(output := told.output + [item], active := Idle), ItemDone(i, id, item))
  }

  function CloseMessage(s: Stream): Stream
    requires s.active.Speaking?
  {
    var Speaking(id, text, notes) := s.active;
    var i := s.outputIndex - 1;
    var told := Emit(Emit(s, OutputTextDone(i, id, text)), ContentPartDone(i, id, text, notes));
    var item := MessageItem(id, text, notes);
    Emit(told.(output := told.output + [item], active := Idle), ItemDone(i, id, item))
  }

  function CloseActive(cfg: Config, s: Stream): Stream {
    match s.active
    case Idle => s
    case Thinking(_, _) => CloseReasoning(cfg, s)
    case Speaking(_, _, _) => CloseMessage(s)
  }

  function OpenReasoning(cfg: Config, s: Stream): Stream {
    var c := CloseActive(cfg, s);
    var id := cfg.ReasoningId(c.issued);
    var begun := Emit(c.(active := Thinking(id, ""), issued := c.issued + 1, outputIndex := c.outputIndex + 1),
                       ItemAdded(c.outputIndex, id, NewReasoning));
    if cfg.exposeReasoning then Emit(begun, SummaryPartAdded(c.outputIndex, id)) else begun
  }

  function OpenMessage(cfg: Config, s: Stream): Stream {
    var c := CloseActive(cfg, s);
    var id := cfg.MessageId(c.issued);
    var begun := Emit(c.(active := Speaking(id, "", []), issued := c.issued + 1, outputIndex := c.outputIndex + 1),
                       ItemAdded(c.outputIndex, id, NewMessage));
    Emit(begun, ContentPartAdded(c.outputIndex, id))
  }

  /** The namespace lookup is skipped for a call without a name. */
  function CallNamespace(cfg: Config, name: string): Option<string> {
    if name == "" then None else cfg.Namespace(name)
  }

  function OpenCall(cfg: Config, s: Stream, index: int, id: Option<string>, name: Option<string>): Stream {
    var c := CloseActive(cfg, s);
    var itemId := cfg.CallItemId(c.issued);
    var call := Call(itemId, c.outputIndex, OrElse(id, "call_" + itemId[3..]), OrElse(name, ""), "");
    Emit(c.(calls := c.calls[index := call], issued := c.issued + 1, outputIndex := c.outputIndex + 1),
         ItemAdded(c.outputIndex, itemId, NewCall(call.callId, call.name, CallNamespace(cfg, call.name))))
  }

  function Think(cfg: Config, s: Stream, text: string): Stream {
    var o := if s.active.Thinking? then s else OpenReasoning(cfg, s);
    var grown := o.(active := Thinking(o.active.id, o.active.text + text));
    if cfg.exposeReasoning then Emit(grown, SummaryTextDelta(grown.outputIndex - 1, grown.active.id, text)) else grown
  }

  function Speak(cfg: Config, s: Stream, text: string): Stream {
    var o := if s.active.Speaking? then s else OpenMessage(cfg, s);
    var grown := o.(active := Speaking(o.active.id, o.active.text + text, o.active.annotations));
    Emit(grown, OutputTextDelta(grown.outputIndex - 1, grown.active.id, text))
  }

  function Annotate(cfg: Config, s: Stream, note: ChatAnnotation): Stream {
    var o := if s.active.Speaking? then s else OpenMessage(cfg, s);
    var a := TranslateAnnotation(note);
    var position := |o.active.annotations|;
    var grown := o.(active := Speaking(o.active.id, o.active.text, o.active.annotations + [a]));
    Emit(grown, AnnotationAdded(grown.outputIndex - 1, grown.active.id, position, a))
  }

  function EnsureCall(cfg: Config, s: Stream, index: int, id: Option<string>, name: Option<string>): (o: Stream)
    ensures index in o.calls
  {
    if index !in s.calls then OpenCall(cfg, s, index, id, name)
    else if name.Some? && name.value != "" && s.calls[index].name == "" then
      s.(calls := s.calls[index := s.calls[index].(name := name.value)])
    else s
  }

  function ExtendCall(s: Stream, index: int, fragment: string): Stream
    requires index in s.calls
  {
    if fragment == "" then s
    else
      var call := s.calls[index].(arguments := s.calls[index].arguments + fragment);
      Emit(s.(calls := s.calls[index := call]), ArgumentsDelta(call.outputIndex, call.itemId, fragment))
  }

  function Advance(cfg: Config, s: Stream, step: Step): Stream {
    match step
    case UsageStep(u) => s.(usage := Some(MapUsage(u)))
    case ReasonStep(text) => Think(cfg, s, text)
    case TextStep(text) => Speak(cfg, s, text)
    case NoteStep(note) => Annotate(cfg, s, note)
    case CallStep(index, id, name, fragment) => ExtendCall(EnsureCall(cfg, s, index, id, name), index, fragment)
    case FinishStep(reason) => s.(finish := Some(reason))
  }

  function AdvanceAll(cfg: Config, s: Stream, steps: seq<Step>): Stream {
    if steps == [] then s else Advance(cfg, AdvanceAll(cfg, s, steps[..|steps| - 1]), steps[|steps| - 1])
  }

  lemma {:induction false} AdvanceAppend(cfg: Config, s: Stream, a: seq<Step>, b: seq<Step>)
    ensures AdvanceAll(cfg, s, a + b) == AdvanceAll(cfg, AdvanceAll(cfg, s, a), b)
    decreases |b|
  {
    if b == [] {
      assert a + b == a;
    } else {
      assert (a + b)[..|a + b| - 1] == a + b[..|b| - 1];
      AdvanceAppend(cfg, s, a, b[..|b| - 1]);
    }
  }

  lemma {:induction false} AdvanceOne(cfg: Config, s: Stream, step: Step)
    ensures AdvanceAll(cfg, s, [step]) == Advance(cfg, s, step)
  {
    assert [step][..0] == [];
    assert AdvanceAll(cfg, s, []) == s;
  }

  // ---- finishing -------------------------------------------------------------------------

  ghost predicate IsLeast(m: int, keys: set<int>) {
    m in keys && forall k :: k in keys ==> m <= k
  }

  lemma {:induction false} SomeElement(keys: set<int>)
    ensures keys == {} || exists k :: k in keys
  {
    if !exists k :: k in keys {
      assert keys == {};
    }
  }

  lemma {:induction false} LeastExists(keys: set<int>)
    requires keys != {}
    ensures exists m :: IsLeast(m, keys)
    decreases |keys|
  {
    SomeElement(keys);
    var k :| k in keys;
    var rest := keys - {k};
    assert keys == rest + {k};
    if rest == {} {
      assert IsLeast(k, keys);
    } else {
      LeastExists(rest);
      var m :| IsLeast(m, rest);
      var least := if k < m then k else m;
      forall j | j in keys ensures least <= j {
        assert j in rest || j == k;
      }
      assert IsLeast(least, keys);
    }
  }

  /** The keys in ascending order. */
  ghost function Ascending(keys: set<int>): (order: seq<int>)
    ensures forall k :: k in keys <==> k in order
    ensures |order| == |keys|
    ensures forall i, j :: 0 <= i < j < |order| ==> order[i] < order[j]
    decreases |keys|
  {
    if keys == {} then []
    else
      LeastExists(keys);
      var m :| IsLeast(m, keys);
      [m] + Ascending(keys - {m})
  }

  lemma {:induction false} LeastComesFirst(keys: set<int>, m: int)
    requires IsLeast(m, keys)
    ensures Ascending(keys) == [m] + Ascending(keys - {m})
  {
  }

  function CallItemOf(cfg: Config, call: Call): OutputItem {
    CallItem(call.itemId, call.callId, call.name, cfg.Salvaged(call.arguments), CallNamespace(cfg, call.name))
  }

  function FinishCall(cfg: Config, s: Stream, call: Call): Stream {
    var item := CallItemOf(cfg, call);
    var told := Emit(s, ArgumentsDone(call.outputIndex, call.itemId, item.arguments));
    Emit(told.(output := told.output + [item]), ItemDone(call.outputIndex, call.itemId, item))
  }

  function FinishCalls(cfg: Config, s: Stream, order: seq<int>): (t: Stream)
    requires forall i :: 0 <= i < |order| ==> order[i] in s.calls
    decreases |order|
  {
    if order == [] then s
    else FinishCalls(cfg, FinishCall(cfg, s, s.calls[order[0]]), order[1..])
  }

  ghost function Settle(cfg: Config, s: Stream): Stream {
    var c := CloseActive(cfg, s);
    FinishCalls(cfg, c, Ascending(c.calls.Keys))
  }

  // ---- chunks ----------------------------------------------------------------------------

  datatype CallDelta = CallDelta(index: int, id: Option<string>, name: Option<string>, fragment: Option<string>)

  datatype Delta = Delta(
    content: Option<string>, reasoning: Option<string>, annotations: seq<ChatAnnotation>, calls: seq<CallDelta>)

  datatype Choice = Choice(delta: Delta, finish: Option<string>)

  datatype Chunk = Chunk(usage: Option<ChatUsage>, choice: Option<Choice>)

  /** The splitter's state when inline-think extraction is on. */
  type Splitting = Option<State>

  /** Visible text and reasoning of a delta once inline blocks have been split off. */
  function Effective(split: Splitting, delta: Delta): (Splitting, Split) {
    var content, reasoning := OrElse(delta.content, ""), OrElse(delta.reasoning, "");
    if split.None? || content == "" then (split, Split(content, reasoning))
    else
      var (st, out) := Process(split.value, content);
      (Some(st), Split(out.content, reasoning + out.reasoning))
  }

  function SpokenSteps(out: Split): seq<Step> {
    (if out.reasoning == "" then [] else [ReasonStep(out.reasoning)])
    + (if out.content == "" then [] else [TextStep(out.content)])
  }

  function NoteSteps(notes: seq<ChatAnnotation>): (steps: seq<Step>)
    ensures |steps| == |notes|
    ensures forall i :: 0 <= i < |notes| ==> steps[i] == NoteStep(notes[i])
  {
    seq(|notes|, i requires 0 <= i < |notes| => NoteStep(notes[i]))
  }

  function CallStepOf(d: CallDelta): Step {
    CallStep(d.index, d.id, d.name, OrElse(d.fragment, ""))
  }

  function CallSteps(calls: seq<CallDelta>): (steps: seq<Step>)
    ensures |steps| == |calls|
    ensures forall i :: 0 <= i < |calls| ==> steps[i] == CallStepOf(calls[i])
  {
    seq(|calls|, i requires 0 <= i < |calls| => CallStepOf(calls[i]))
  }

  function UsageSteps(usage: Option<ChatUsage>): seq<Step> {
    if usage.Some? then [UsageStep(usage.value)] else []
  }

  function FinishSteps(finish: Option<string>): seq<Step> {
    if finish.Some? && finish.value != "" then [FinishStep(finish.value)] else []
  }

  function DeltaSteps(out: Split, delta: Delta): seq<Step> {
    SpokenSteps(out) + NoteSteps(delta.annotations) + CallSteps(delta.calls)
  }

  function StepsOf(split: Splitting, chunk: Chunk): (Splitting, seq<Step>) {
    if chunk.choice.None? then (split, UsageSteps(chunk.usage))
    else
      var Choice(delta, finish) := chunk.choice.value;
      var (split', out) := Effective(split, delta);
      (split', UsageSteps(chunk.usage) + DeltaSteps(out, delta) + FinishSteps(finish))
  }

  /** All steps of a run of chunks, without the final flush. */
  function StepsOfAll(split: Splitting, chunks: seq<Chunk>): (Splitting, seq<Step>) {
    if chunks == [] then (split, [])
    else
      var (s1, init) := StepsOfAll(split, chunks[..|chunks| - 1]);
      var (s2, last) := StepsOf(s1, chunks[|chunks| - 1]);
      (s2, init + last)
  }

  function FlushSteps(split: Splitting): seq<Step> {
    if split.None? then [] else SpokenSteps(Flush(split.value))
  }

  function StartSplit(extract: bool): Splitting {
    if extract then Some(FRESH) else None
  }

  function AllSteps(extract: bool, chunks: seq<Chunk>): seq<Step> {
    var (split, steps) := StepsOfAll(StartSplit(extract), chunks);
    steps + FlushSteps(split)
  }

  datatype Ending = Ended | Threw(message: string)

  /** Created and in progress: the state before the first chunk. Token 0 is the response id. */
  function Opening(cfg: Config): Stream {
    var s := Stream(0, 1, Idle, map[], [], None, None, []);
    Emit(Emit(s, Created(SnapshotOf(cfg, s, InFlight))), InProgress(SnapshotOf(cfg, s, InFlight)))
  }

  function Terminated(cfg: Config, t: Stream, ending: Ending): Stream {
    match ending
    case Ended => Emit(t, Completed(SnapshotOf(cfg, t, Complete)))
    case Threw(message) => Emit(t, Failed(SnapshotOf(cfg, t, Broken(message))))
  }

  ghost function Conclude(cfg: Config, s: Stream, ending: Ending): Stream {
    Terminated(cfg, Settle(cfg, s), ending)
  }

  /** The whole pipe: every chunk, the splitter's flush, then the terminal event. */
  ghost function Piped(cfg: Config, extract: bool, chunks: seq<Chunk>, ending: Ending): Stream {
    Conclude(cfg, AdvanceAll(cfg, Opening(cfg), AllSteps(extract, chunks)), ending)
  }
}
