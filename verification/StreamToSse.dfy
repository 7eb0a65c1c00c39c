/** The streaming translator as written: fields updated in place, events written to a sink that
    the peer may close (src/translate/streamToSse.ts). Each method is proved to take the step
    that StreamMachine describes. */
module StreamToSse {
  import opened Core
  import opened ResponseTypes
  import opened ThinkSplitter
  import opened StreamMachine
  import StreamDeltas

  datatype Logged = Logged(event: Event, sequenceNumber: nat)

  function Numbered(log: seq<Event>): (out: seq<Logged>)
    ensures |out| == |log|
    ensures forall i :: 0 <= i < |log| ==> out[i] == Logged(log[i], i)
  {
    seq(|log|, i requires 0 <= i < |log| => Logged(log[i], i))
  }

  lemma {:induction false} NumberedSnoc(log: seq<Event>, e: Event)
    ensures Numbered(log + [e]) == Numbered(log) + [Logged(e, |log|)]
  {
  }

  /** Writes after the peer has gone are dropped. */
  class Sink {
    var events: seq<Logged>
    var isClosed: bool
    ghost var heard: seq<Logged>

    constructor ()
      ensures events == [] && !isClosed
    {
      events, isClosed, heard := [], false, [];
    }

    /** The peer goes away, or the stream is over: what was written so far stays. */
    method Close()
      modifies `isClosed, `heard
      ensures isClosed && heard == if old(isClosed) then old(heard) else events
    {
      if !isClosed { heard := events; }
      isClosed := true;
    }

    method Write(e: Logged)
      modifies `events
      ensures events == if isClosed then old(events) else old(events) + [e]
    {
      if isClosed {
        return;
      }
      events := events + [e];
    }
  }

  method Least(keys: set<int>) returns (m: int)
    requires keys != {}
    ensures IsLeast(m, keys)
  {
    LeastExists(keys);
    ghost var least :| IsLeast(least, keys);
    m :| m in keys && forall k :: k in keys ==> m <= k;
  }

  method Sorted(keys: set<int>) returns (ordered: seq<int>)
    ensures ordered == Ascending(keys)
  {
    ordered := [];
    var rest := keys;
    assert [] + Ascending(keys) == Ascending(keys);
    while rest != {}
      invariant ordered + Ascending(rest) == Ascending(keys)
      decreases |rest|
    {
      var m := Least(rest);
      LeastComesFirst(rest, m);
      Regroup(ordered, [m], Ascending(rest - {m}));
      ordered := ordered + [m];
      rest := rest - {m};
    }
    assert ordered + [] == ordered;
  }

  /** The first i calls of the order are finished; the rest are left. */
  ghost predicate Finishing(cfg: Config, start: Stream, order: seq<int>, i: nat, view: Stream) {
    && i <= |order| && view.calls == start.calls
    && (forall j :: 0 <= j < |order| ==> order[j] in start.calls)
    && FinishCalls(cfg, view, order[i..]) == FinishCalls(cfg, start, order)
  }

  lemma {:induction false} FinishingFirst(cfg: Config, start: Stream, order: seq<int>)
    requires order == Ascending(start.calls.Keys)
    ensures Finishing(cfg, start, order, 0, start)
  {
    assert order[0..] == order;
    assert forall j :: 0 <= j < |order| ==> order[j] in order;
  }

  lemma {:induction false} FinishingLast(cfg: Config, start: Stream, order: seq<int>, view: Stream)
    requires Finishing(cfg, start, order, |order|, view)
    ensures view == FinishCalls(cfg, start, order)
  {
    assert order[|order|..] == [];
  }

  lemma {:induction false} FinishingNext(cfg: Config, start: Stream, order: seq<int>, i: nat, view: Stream)
    requires Finishing(cfg, start, order, i, view) && i < |order|
    ensures Finishing(cfg, start, order, i + 1, FinishCall(cfg, view, view.calls[order[i]]))
  {
    assert order[i..][1..] == order[i + 1..];
  }

  datatype ActiveKind = NoItem | ReasoningActive | MessageActive

  class StreamState {
    const cfg: Config
    const thinkSplitter: InlineThinkSplitter?
    var issued: nat
    var outputIndex: nat
    var sequenceNumber: nat
    var activeKind: ActiveKind
    var activeItemId: Option<string>
    var activeBuffer: string
    var activeAnnotations: seq<Annotation>
    var toolCalls: map<int, Call>
    var finalOutput: seq<OutputItem>
    var finishReason: Option<string>
    var usage: Option<Usage>
    ghost var emitted: seq<Event>

    method EmitTwo(sink: Sink, e1: Event, e2: Event)
      requires Synced(sink)
      modifies `sequenceNumber, `emitted, sink`events
      ensures Synced(sink) && emitted == old(emitted) + [e1] + [e2]
    {
      EmitTo(sink, e1);
      EmitTo(sink, e2);
    }

    /** Append a final item and announce it. */
    method PushFinal(sink: Sink, index: int, itemId: string, finalItem: OutputItem)
      requires Synced(sink)
      modifies `sequenceNumber, `emitted, `finalOutput, sink`events
      ensures Synced(sink) && finalOutput == old(finalOutput) + [finalItem]
      ensures emitted == old(emitted) + [ItemDone(index, itemId, finalItem)]
    {
      finalOutput := finalOutput + [finalItem];
      EmitTo(sink, ItemDone(index, itemId, finalItem));
    }

    ghost function ActiveView(): Active
      reads this
    {
      match activeKind
      case NoItem => Idle
      case ReasoningActive => Thinking(OrElse(activeItemId, ""), activeBuffer)
      case MessageActive => Speaking(OrElse(activeItemId, ""), activeBuffer, activeAnnotations)
    }

    ghost function View(): Stream
      reads this
    {
      Stream(outputIndex, issued, ActiveView(), toolCalls, finalOutput, finishReason, usage, emitted)
    }

    ghost function SplitView(): Splitting
      reads this, thinkSplitter
    {
      if thinkSplitter == null then None else Some(thinkSplitter.View())
    }

    /** The sink holds the numbered events, or those it held when it closed. */
    ghost predicate Synced(sink: Sink)
      reads this, sink
    {
      && sequenceNumber == |emitted|
      && (if sink.isClosed then sink.events == sink.heard else sink.events == Numbered(emitted))
    }

    constructor (cfg: Config, extractInlineThink: bool)
      ensures this.cfg == cfg && emitted == []
      ensures View() == Stream(0, 1, Idle, map[], [], None, None, [])
      ensures SplitView() == StartSplit(extractInlineThink)
      ensures sequenceNumber == 0
      ensures thinkSplitter != null ==> fresh(thinkSplitter)
    {
      this.cfg := cfg;
      var splitter: InlineThinkSplitter? := null;
      if extractInlineThink {
        splitter := new InlineThinkSplitter();
      }
      thinkSplitter := splitter;
      issued, outputIndex, sequenceNumber := 1, 0, 0;
      activeKind, activeItemId, activeBuffer, activeAnnotations := NoItem, None, "", [];
      toolCalls, finalOutput, finishReason, usage := map[], [], None, None;
      emitted := [];
    }

    method EmitTo(sink: Sink, e: Event)
      requires Synced(sink)
      modifies `sequenceNumber, `emitted, sink`events
      ensures Synced(sink) && emitted == old(emitted) + [e]
    {
      NumberedSnoc(emitted, e);
      sink.Write(Logged(e, sequenceNumber));
      sequenceNumber := sequenceNumber + 1;
      emitted := emitted + [e];
    }

    method FinalizeReasoning(sink: Sink)
      requires Synced(sink) && activeKind == ReasoningActive
      modifies this, sink`events
      ensures Synced(sink) && View() == CloseReasoning(cfg, old(View()))
    {
      var itemId := OrElse(activeItemId, "");
      var buffer := activeBuffer;
      var index := outputIndex - 1;
      if cfg.exposeReasoning {
        EmitTo(sink, SummaryTextDone(index, itemId, buffer));
        EmitTo(sink, SummaryPartDone(index, itemId, buffer));
      }
      var finalItem := ReasoningItem(itemId, if cfg.exposeReasoning then [buffer] else [], buffer);
      PushFinal(sink, index, itemId, finalItem);
      activeKind, activeItemId, activeBuffer, activeAnnotations := NoItem, None, "", [];
    }

    method FinalizeMessage(sink: Sink)
      requires Synced(sink) && activeKind == MessageActive
      modifies this, sink`events
      ensures Synced(sink) && View() == CloseMessage(old(View()))
    {
      var itemId := OrElse(activeItemId, "");
      var buffer := activeBuffer;
      var index := outputIndex - 1;
      var annotations := activeAnnotations;
      EmitTwo(sink, OutputTextDone(index, itemId, buffer), ContentPartDone(index, itemId, buffer, annotations));
      var finalItem := MessageItem(itemId, buffer, annotations);
      PushFinal(sink, index, itemId, finalItem);
      activeKind, activeItemId, activeBuffer, activeAnnotations := NoItem, None, "", [];
    }

    method FinalizeActive(sink: Sink)
      requires Synced(sink)
      modifies this, sink`events
      ensures Synced(sink) && View() == CloseActive(cfg, old(View()))
    {
      match activeKind {
        case NoItem =>
        case ReasoningActive => FinalizeReasoning(sink);
        case MessageActive => FinalizeMessage(sink);
      }
    }

    method BeginReasoning(sink: Sink)
      requires Synced(sink)
      modifies this, sink`events
      ensures Synced(sink) && View() == OpenReasoning(cfg, old(View()))
    {
      FinalizeActive(sink);
      activeKind, activeItemId, activeBuffer := ReasoningActive, Some(cfg.ReasoningId(issued)), "";
      issued := issued + 1;
      var idx := outputIndex;
      outputIndex := outputIndex + 1;
      EmitTo(sink, ItemAdded(idx, activeItemId.value, NewReasoning));
      if cfg.exposeReasoning {
        EmitTo(sink, SummaryPartAdded(idx, activeItemId.value));
      }
    }

    method BeginMessage(sink: Sink)
      requires Synced(sink)
      modifies this, sink`events
      ensures Synced(sink) && View() == OpenMessage(cfg, old(View()))
    {
      FinalizeActive(sink);
      activeKind, activeItemId, activeBuffer, activeAnnotations := MessageActive, Some(cfg.MessageId(issued)), "", [];
      issued := issued + 1;
      var idx := outputIndex;
      outputIndex := outputIndex + 1;
      EmitTwo(sink, ItemAdded(idx, activeItemId.value, NewMessage), ContentPartAdded(idx, activeItemId.value));
    }

    method BeginToolCall(sink: Sink, index: int, id: Option<string>, name: Option<string>)
      requires Synced(sink)
      modifies this, sink`events
      ensures Synced(sink) && View() == OpenCall(cfg, old(View()), index, id, name)
    {
      FinalizeActive(sink);
      var itemId := cfg.CallItemId(issued);
      issued := issued + 1;
      var idx := outputIndex;
      outputIndex := outputIndex + 1;
      var tc := Call(itemId, idx, OrElse(id, "call_" + itemId[3..]), OrElse(name, ""), "");
      toolCalls := toolCalls[index := tc];
      EmitTo(sink, ItemAdded(idx, itemId, NewCall(tc.callId, tc.name, CallNamespace(cfg, tc.name))));
    }

    method AddReasoning(sink: Sink, text: string)
      requires Synced(sink)
      modifies this, sink`events
      ensures Synced(sink) && View() == Think(cfg, old(View()), text)
    {
      if activeKind != ReasoningActive {
        BeginReasoning(sink);
      }
      activeBuffer := activeBuffer + text;
      if cfg.exposeReasoning {
        EmitTo(sink, SummaryTextDelta(outputIndex - 1, OrElse(activeItemId, ""), text));
      }
    }

    method AddText(sink: Sink, text: string)
      requires Synced(sink)
      modifies this, sink`events
      ensures Synced(sink) && View() == Speak(cfg, old(View()), text)
    {
      if activeKind != MessageActive {
        BeginMessage(sink);
      }
      activeBuffer := activeBuffer + text;
      EmitTo(sink, OutputTextDelta(outputIndex - 1, OrElse(activeItemId, ""), text));
    }

    method AddAnnotation(sink: Sink, a: ChatAnnotation)
      requires Synced(sink) && activeKind == MessageActive
      modifies this, sink`events
      ensures Synced(sink) && activeKind == MessageActive
      ensures View() == Annotate(cfg, old(View()), a)
    {
      var translated := TranslateAnnotation(a);
      var annotationIndex := |activeAnnotations|;
      activeAnnotations := activeAnnotations + [translated];
      EmitTo(sink, AnnotationAdded(outputIndex - 1, OrElse(activeItemId, ""), annotationIndex, translated));
    }

    method AddAnnotations(sink: Sink, annotations: seq<ChatAnnotation>)
      requires Synced(sink)
      modifies this, sink`events
      ensures Synced(sink) && View() == AdvanceAll(cfg, old(View()), NoteSteps(annotations))
    {
      if |annotations| == 0 {
        return;
      }
      ghost var steps := NoteSteps(annotations);
      ghost var start := View();
      if activeKind != MessageActive {
        BeginMessage(sink);
      }
      ghost var ready := View();
      for i := 0 to |annotations|
        invariant Synced(sink) && activeKind == MessageActive
        invariant View() == AdvanceAll(cfg, ready, steps[..i])
      {
        AddAnnotation(sink, annotations[i]);
        AdvanceNext(cfg, ready, steps, i);
      }
      assert steps[..|steps|] == steps;
      NotesOpenOnce(cfg, start, ready, steps);
    }

    /** One tool-call fragment: open the call, or complete its name, then its arguments. */
    method AddCallDelta(sink: Sink, d: CallDelta)
      requires Synced(sink)
      modifies this, sink`events
      ensures Synced(sink) && View() == Advance(cfg, old(View()), CallStepOf(d))
    {
      if d.index !in toolCalls {
        BeginToolCall(sink, d.index, d.id, d.name);
      } else if d.name.Some? && d.name.value != "" && toolCalls[d.index].name == "" {
        toolCalls := toolCalls[d.index := toolCalls[d.index].(name := d.name.value)];
      }
      if d.fragment.Some? && d.fragment.value != "" {
        var tc := toolCalls[d.index];
        tc := tc.(arguments := tc.arguments + d.fragment.value);
        toolCalls := toolCalls[d.index := tc];
        EmitTo(sink, ArgumentsDelta(tc.outputIndex, tc.itemId, d.fragment.value));
      }
    }

    method AddCallDeltas(sink: Sink, calls: seq<CallDelta>)
      requires Synced(sink)
      modifies this, sink`events
      ensures Synced(sink) && View() == AdvanceAll(cfg, old(View()), CallSteps(calls))
    {
      ghost var steps := CallSteps(calls);
      ghost var start := View();
      for i := 0 to |calls|
        invariant Synced(sink)
        invariant View() == AdvanceAll(cfg, start, steps[..i])
      {
        AddCallDelta(sink, calls[i]);
        AdvanceNext(cfg, start, steps, i);
      }
      assert steps[..|steps|] == steps;
    }

    method AddSpoken(sink: Sink, spoken: Split)
      requires Synced(sink)
      modifies this, sink`events
      ensures Synced(sink) && View() == AdvanceAll(cfg, old(View()), SpokenSteps(spoken))
    {
      ghost var start := View();
      SpokenAdvance(cfg, start, spoken);
      if spoken.reasoning != "" {
        AddReasoning(sink, spoken.reasoning);
      }
      if spoken.content != "" {
        AddText(sink, spoken.content);
      }
    }

    /** What the delta amounts to after inline blocks are split off its content. */
    method SplitDelta(delta: Delta) returns (out: Split)
      modifies thinkSplitter
      ensures (SplitView(), out) == Effective(old(SplitView()), delta)
    {
      var effContent := OrElse(delta.content, "");
      var effReasoning := OrElse(delta.reasoning, "");
      if thinkSplitter != null && effContent != "" {
        var split := thinkSplitter.ProcessChunk(effContent);
        effContent := split.content;
        effReasoning := effReasoning + split.reasoning;
      }
      out := Split(effContent, effReasoning);
    }

    method ProcessDelta(sink: Sink, delta: Delta)
      requires Synced(sink)
      modifies this, sink`events, thinkSplitter
      ensures Synced(sink)
      ensures SplitView() == Effective(old(SplitView()), delta).0
      ensures View() == AdvanceAll(cfg, old(View()), DeltaSteps(Effective(old(SplitView()), delta).1, delta))
    {
      ghost var start := View();
      var spoken := SplitDelta(delta);
      AddSpoken(sink, spoken);
      AddAnnotations(sink, delta.annotations);
      AddCallDeltas(sink, delta.calls);
      DeltaAdvance(cfg, start, spoken, delta);
    }

    method ProcessChoice(sink: Sink, choice: Choice)
      requires Synced(sink)
      modifies this, sink`events, thinkSplitter
      ensures Synced(sink)
      ensures SplitView() == Effective(old(SplitView()), choice.delta).0
      ensures View() == Chosen(cfg, old(View()), old(SplitView()), choice)
    {
      ProcessDelta(sink, choice.delta);
      if choice.finish.Some? && choice.finish.value != "" {
        finishReason := choice.finish;
      }
    }

    method ProcessChunk(sink: Sink, chunk: Chunk)
      requires Synced(sink)
      modifies this, sink`events, thinkSplitter
      ensures Synced(sink)
      ensures SplitView() == StepsOf(old(SplitView()), chunk).0
      ensures View() == AdvanceAll(cfg, old(View()), StepsOf(old(SplitView()), chunk).1)
    {
      ChunkAdvance(cfg, View(), SplitView(), chunk);
      if chunk.usage.Some? {
        usage := Some(MapUsage(chunk.usage.value));
      }
      if chunk.choice.Some? {
        ProcessChoice(sink, chunk.choice.value);
      }
    }

    method FlushThinkSplitter(sink: Sink)
      requires Synced(sink)
      modifies this, sink`events, thinkSplitter
      ensures Synced(sink)
      ensures View() == AdvanceAll(cfg, old(View()), FlushSteps(old(SplitView())))
    {
      if thinkSplitter == null {
        return;
      }
      var out := thinkSplitter.FlushCarry();
      AddSpoken(sink, out);
    }

    method FinalizeToolCall(sink: Sink, tc: Call)
      requires Synced(sink)
      modifies this, sink`events
      ensures Synced(sink) && View() == FinishCall(cfg, old(View()), tc)
    {
      var safeArgs := cfg.Salvaged(tc.arguments);
      EmitTo(sink, ArgumentsDone(tc.outputIndex, tc.itemId, safeArgs));
      var finalItem := CallItem(tc.itemId, tc.callId, tc.name, safeArgs, CallNamespace(cfg, tc.name));
      finalOutput := finalOutput + [finalItem];
      EmitTo(sink, ItemDone(tc.outputIndex, tc.itemId, finalItem));
    }

    method FinalizeInOrder(sink: Sink, order: seq<int>)
      requires Synced(sink) && Finishing(cfg, View(), order, 0, View())
      modifies this, sink`events
      ensures Synced(sink)
      ensures View() == FinishCalls(cfg, old(View()), order)
    {
      ghost var start := View();
      for i := 0 to |order|
        invariant Synced(sink) && Finishing(cfg, start, order, i, View())
      {
        FinishingNext(cfg, start, order, i, View());
        FinalizeToolCall(sink, toolCalls[order[i]]);
      }
      FinishingLast(cfg, start, order, View());
    }

    method FinalizeToolCalls(sink: Sink)
      requires Synced(sink)
      modifies this, sink`events
      ensures Synced(sink)
      ensures View() == FinishCalls(cfg, old(View()), Ascending(old(View()).calls.Keys))
    {
      var ordered := Sorted(toolCalls.Keys);
      FinishingFirst(cfg, View(), ordered);
      FinalizeInOrder(sink, ordered);
    }

    method Open(sink: Sink)
      requires Synced(sink) && emitted == [] && View() == Stream(0, 1, Idle, map[], [], None, None, [])
      modifies this, sink`events
      ensures Synced(sink) && View() == Opening(cfg)
    {
      EmitTo(sink, Created(BuildSnapshot(InFlight)));
      EmitTo(sink, InProgress(BuildSnapshot(InFlight)));
    }

    method SettleItems(sink: Sink)
      requires Synced(sink)
      modifies this, sink`events
      ensures Synced(sink) && View() == Settle(cfg, old(View()))
    {
      FinalizeActive(sink);
      FinalizeToolCalls(sink);
    }

    method Terminate(sink: Sink, ending: Ending) returns (outcome: Outcome)
      requires Synced(sink)
      modifies this, sink`events
      ensures Synced(sink) && View() == Terminated(cfg, old(View()), ending)
      ensures outcome.response == BuildSnapshot(if ending.Ended? then Complete else Broken(ending.message))
      ensures outcome.toolCallCount == |toolCalls|
    {
      match ending {
        case Ended =>
          var completed := BuildSnapshot(Complete);
          EmitTo(sink, Completed(completed));
          outcome := Outcome(completed, |toolCalls|);
        case Threw(message) =>
          var failed := BuildSnapshot(Broken(message));
          EmitTo(sink, Failed(failed));
          outcome := Outcome(failed, |toolCalls|);
      }
    }

    /** Flush, close the active item, finish the calls, then the terminal event. */
    method Finish(sink: Sink, ending: Ending) returns (outcome: Outcome)
      requires Synced(sink)
      modifies this, sink`events, thinkSplitter
      ensures Synced(sink)
      ensures View() == Conclude(cfg, AdvanceAll(cfg, old(View()), FlushSteps(old(SplitView()))), ending)
      ensures outcome.response == BuildSnapshot(if ending.Ended? then Complete else Broken(ending.message))
      ensures outcome.toolCallCount == |toolCalls|
    {
      FlushThinkSplitter(sink);
      SettleItems(sink);
      outcome := Terminate(sink, ending);
    }

    function BuildSnapshot(status: Status): Snapshot
      reads this
    {
      Snapshot(cfg.ResponseId(0), status, finalOutput, usage, finishReason == Some("length"))
    }
  }

  // ---- the pipe --------------------------------------------------------------------------

  /** What the server keeps of the stream once it is over. */
  datatype Outcome = Outcome(response: Snapshot, toolCallCount: nat)

  lemma {:induction false} StepsExtend(extract: bool, chunks: seq<Chunk>, i: nat)
    requires i < |chunks|
    ensures var before := StepsOfAll(StartSplit(extract), chunks[..i]);
            var now := StepsOf(before.0, chunks[i]);
            StepsOfAll(StartSplit(extract), chunks[..i + 1]) == (now.0, before.1 + now.1)
  {
    assert chunks[..i + 1][..i] == chunks[..i];
  }

  /** Where the machine stands after the first i chunks. */
  ghost predicate Stands(cfg: Config, extract: bool, chunks: seq<Chunk>, i: nat, split: Splitting, view: Stream)
    requires i <= |chunks|
  {
    && split == StepsOfAll(StartSplit(extract), chunks[..i]).0
    && view == AdvanceAll(cfg, Opening(cfg), StepsOfAll(StartSplit(extract), chunks[..i]).1)
  }

  lemma {:induction false} StandsFirst(cfg: Config, extract: bool, chunks: seq<Chunk>)
    ensures Stands(cfg, extract, chunks, 0, StartSplit(extract), Opening(cfg))
  {
    assert chunks[..0] == [];
  }

  lemma {:induction false} StandsNext(cfg: Config, extract: bool, chunks: seq<Chunk>, i: nat, split: Splitting,
                                      view: Stream)
    requires i < |chunks| && Stands(cfg, extract, chunks, i, split, view)
    ensures var step := StepsOf(split, chunks[i]);
      Stands(cfg, extract, chunks, i + 1, step.0, AdvanceAll(cfg, view, step.1))
  {
    StepsExtend(extract, chunks, i);
    AdvanceAppend(cfg, Opening(cfg), StepsOfAll(StartSplit(extract), chunks[..i]).1, StepsOf(split, chunks[i]).1);
  }

  /** The machine after these chunks. */
  function Reached(cfg: Config, extract: bool, chunks: seq<Chunk>): Stream {
    AdvanceAll(cfg, Opening(cfg), StepsOfAll(StartSplit(extract), chunks).1)
  }

  /** The chunk before which the peer is found to have gone, if there is one. */
  function Gone(closed: bool, hangup: Option<nat>, chunks: nat): (i: nat)
    ensures i <= chunks
  {
    if closed then 0 else if hangup.Some? && hangup.value < chunks then hangup.value else chunks
  }

  /** Handle the chunks one by one, until the peer is found to have gone. */
  method PumpChunks(sink: Sink, state: StreamState, extract: bool, chunks: seq<Chunk>, hangup: Option<nat>)
    returns (cut: bool)
    requires state.Synced(sink)
    requires state.SplitView() == StartSplit(extract) && state.View() == Opening(state.cfg)
    modifies sink, state, state.thinkSplitter
    ensures state.Synced(sink)
    ensures var gone := Gone(old(sink.isClosed), hangup, |chunks|);
      && cut == (gone < |chunks|) && sink.isClosed == (cut || old(sink.isClosed))
      && sink.heard == (if cut && !old(sink.isClosed) then Numbered(state.emitted) else old(sink.heard))
      && Stands(state.cfg, extract, chunks, gone, state.SplitView(), state.View())
  {
    var i := 0;
    cut := false;
    StandsFirst(state.cfg, extract, chunks);
    while i < |chunks| && !cut
      invariant i <= Gone(old(sink.isClosed), hangup, |chunks|) && state.Synced(sink)
      invariant Stands(state.cfg, extract, chunks, i, state.SplitView(), state.View())
      invariant if cut then i < |chunks| && i == Gone(old(sink.isClosed), hangup, |chunks|) && sink.isClosed
                else sink.isClosed == old(sink.isClosed)
      invariant sink.heard == if cut && !old(sink.isClosed) then Numbered(state.emitted) else old(sink.heard)
      decreases |chunks| - i, !cut
    {
      cut := Noticed(sink, hangup == Some(i));
      if !cut {
        PumpOne(sink, state, extract, chunks, i);
        i := i + 1;
      }
    }
  }

  /** The check before each chunk: has the peer gone by now? */
  method Noticed(sink: Sink, goes: bool) returns (gone: bool)
    modifies sink`isClosed, sink`heard
    ensures gone == sink.isClosed == (goes || old(sink.isClosed))
    ensures sink.heard == if goes && !old(sink.isClosed) then sink.events else old(sink.heard)
  {
    if goes { sink.Close(); }
    gone := sink.isClosed;
  }

  method PumpOne(sink: Sink, state: StreamState, extract: bool, chunks: seq<Chunk>, i: nat)
    requires i < |chunks| && state.Synced(sink)
    requires Stands(state.cfg, extract, chunks, i, state.SplitView(), state.View())
    modifies sink`events, state, state.thinkSplitter
    ensures state.Synced(sink) && Stands(state.cfg, extract, chunks, i + 1, state.SplitView(), state.View())
  {
    StandsNext(state.cfg, extract, chunks, i, state.SplitView(), state.View());
    state.ProcessChunk(sink, chunks[i]);
  }

  /** The pipe over a finite upstream, to a peer that may be gone from the start, go away before
      some chunk is handled, or (`hangup == |chunks|`) after the last one; the loop notices at the
      next chunk. */
  method PipeChatStreamToResponses(sink: Sink, cfg: Config, extractInlineThink: bool, chunks: seq<Chunk>,
                                   ending: Ending, hangup: Option<nat>)
    returns (state: StreamState, outcome: Outcome)
    requires sink.events == [] && (sink.isClosed ==> sink.heard == [])
    modifies sink
    ensures sink.isClosed && outcome.toolCallCount == |state.toolCalls|
    // Found gone at a chunk: nothing more is handled, and the answer is what there is.
    ensures var gone := Gone(old(sink.isClosed), hangup, |chunks|);
      if gone < |chunks|
      then state.View() == Reached(cfg, extractInlineThink, chunks[..gone])
      else state.View() == Piped(cfg, extractInlineThink, chunks, ending)
    // The answer kept: cut short, completed if the upstream ended, broken with its message if it threw.
    ensures var gone := Gone(old(sink.isClosed), hangup, |chunks|);
      StreamDeltas.Answers(cfg, chunks[..gone],
        if gone < |chunks| then Cut else if ending.Ended? then Complete else Broken(ending.message),
        state.finalOutput, outcome.response)
    // What the peer got: everything up to its going.
    ensures sink.events ==
      if old(sink.isClosed) then []
      else if hangup.Some? && hangup.value <= |chunks| then
        Numbered(Reached(cfg, extractInlineThink, chunks[..hangup.value]).log)
      else Numbered(Piped(cfg, extractInlineThink, chunks, ending).log)
  {
    state := new StreamState(cfg, extractInlineThink);
    state.Open(sink);
    var cut := PumpChunks(sink, state, extractInlineThink, chunks, hangup);
    assert chunks[..|chunks|] == chunks;
    if cut {
      outcome := Outcome(state.BuildSnapshot(Cut), |state.toolCalls|);
      CutAnswers(cfg, extractInlineThink, chunks[..Gone(old(sink.isClosed), hangup, |chunks|)], outcome.response);
    } else {
      if hangup == Some(|chunks|) {
        sink.Close();
      }
      ghost var all := StepsOfAll(StartSplit(extractInlineThink), chunks);
      AdvanceAppend(cfg, Opening(cfg), all.1, FlushSteps(all.0));
      outcome := state.Finish(sink, ending);
      sink.Close();
      OverAnswers(cfg, extractInlineThink, chunks, ending, outcome.response);
    }
  }

  lemma {:induction false} CutAnswers(cfg: Config, extract: bool, chunks: seq<Chunk>, r: Snapshot)
    requires r == SnapshotOf(cfg, Reached(cfg, extract, chunks), Cut)
    ensures StreamDeltas.Answers(cfg, chunks, Cut, Reached(cfg, extract, chunks).output, r)
  {
    StreamDeltas.StandsFor(cfg, extract, chunks);
  }

  lemma {:induction false} OverAnswers(cfg: Config, extract: bool, chunks: seq<Chunk>, ending: Ending, r: Snapshot)
    requires r == SnapshotOf(cfg, Piped(cfg, extract, chunks, ending),
                              if ending.Ended? then Complete else Broken(ending.message))
    ensures StreamDeltas.Answers(cfg, chunks, if ending.Ended? then Complete else Broken(ending.message),
                                 Piped(cfg, extract, chunks, ending).output, r)
  {
    StreamDeltas.OverFor(cfg, extract, chunks, ending);
  }

  // ---- how a chunk's parts add up --------------------------------------------------------

  lemma {:induction false} AdvanceNext(cfg: Config, s: Stream, steps: seq<Step>, i: nat)
    requires i < |steps|
    ensures AdvanceAll(cfg, s, steps[..i + 1]) == Advance(cfg, AdvanceAll(cfg, s, steps[..i]), steps[i])
  {
    assert steps[..i + 1][..i] == steps[..i];
  }

  lemma {:induction false} NotesOpenOnce(cfg: Config, start: Stream, ready: Stream, steps: seq<Step>)
    requires steps != [] && forall i :: 0 <= i < |steps| ==> steps[i].NoteStep?
    requires ready == if start.active.Speaking? then start else OpenMessage(cfg, start)
    ensures AdvanceAll(cfg, ready, steps) == AdvanceAll(cfg, start, steps)
  {
    var init := steps[..|steps| - 1];
    if init == [] {
      assert AdvanceAll(cfg, ready, init) == ready && AdvanceAll(cfg, start, init) == start;
    } else {
      NotesOpenOnce(cfg, start, ready, init);
    }
  }

  lemma {:induction false} SpokenAdvance(cfg: Config, s: Stream, spoken: Split)
    ensures var r := if spoken.reasoning == "" then s else Think(cfg, s, spoken.reasoning);
            AdvanceAll(cfg, s, SpokenSteps(spoken)) == if spoken.content == "" then r else Speak(cfg, r, spoken.content)
  {
    var first := if spoken.reasoning == "" then [] else [ReasonStep(spoken.reasoning)];
    var second := if spoken.content == "" then [] else [TextStep(spoken.content)];
    AdvanceAppend(cfg, s, first, second);
    if first != [] { AdvanceOne(cfg, s, first[0]); }
    if second != [] { AdvanceOne(cfg, AdvanceAll(cfg, s, first), second[0]); }
  }

  lemma {:induction false} UsageAdvance(cfg: Config, s: Stream, usage: Option<ChatUsage>)
    ensures AdvanceAll(cfg, s, UsageSteps(usage))
         == if usage.Some? then s.(usage := Some(MapUsage(usage.value))) else s
  {
    if usage.Some? { AdvanceOne(cfg, s, UsageStep(usage.value)); }
  }

  lemma {:induction false} FinishAdvance(cfg: Config, s: Stream, finish: Option<string>)
    ensures AdvanceAll(cfg, s, FinishSteps(finish))
         == if finish.Some? && finish.value != "" then s.(finish := finish) else s
  {
    if finish.Some? && finish.value != "" { AdvanceOne(cfg, s, FinishStep(finish.value)); }
  }

  lemma {:induction false} DeltaAdvance(cfg: Config, s: Stream, spoken: Split, delta: Delta)
    ensures AdvanceAll(cfg, s, DeltaSteps(spoken, delta))
         == AdvanceAll(cfg, AdvanceAll(cfg, AdvanceAll(cfg, s, SpokenSteps(spoken)), NoteSteps(delta.annotations)),
                       CallSteps(delta.calls))
  {
    AdvanceAppend(cfg, s, SpokenSteps(spoken), NoteSteps(delta.annotations));
    AdvanceAppend(cfg, s, SpokenSteps(spoken) + NoteSteps(delta.annotations), CallSteps(delta.calls));
  }

  function Chosen(cfg: Config, s: Stream, split: Splitting, choice: Choice): Stream {
    var fed := AdvanceAll(cfg, s, DeltaSteps(Effective(split, choice.delta).1, choice.delta));
    if choice.finish.Some? && choice.finish.value != "" then fed.(finish := choice.finish) else fed
  }

  lemma {:induction false} ChunkAdvance(cfg: Config, s: Stream, split: Splitting, chunk: Chunk)
    ensures AdvanceAll(cfg, s, StepsOf(split, chunk).1)
         == (var used := if chunk.usage.Some? then s.(usage := Some(MapUsage(chunk.usage.value))) else s;
             if chunk.choice.None? then used else Chosen(cfg, used, split, chunk.choice.value))
  {
    UsageAdvance(cfg, s, chunk.usage);
    if chunk.choice.Some? {
      var Choice(delta, finish) := chunk.choice.value;
      var steps := DeltaSteps(Effective(split, delta).1, delta);
      AdvanceAppend(cfg, s, UsageSteps(chunk.usage), steps);
      AdvanceAppend(cfg, s, UsageSteps(chunk.usage) + steps, FinishSteps(finish));
      FinishAdvance(cfg, AdvanceAll(cfg, s, UsageSteps(chunk.usage) + steps), finish);
    }
  }
}
