/** Showing or hiding reasoning: the same chunks, run with and without `exposeReasoning`, differ
    in nothing but the reasoning summaries. */
module StreamTwoRuns {
  import opened Core
  import opened ResponseTypes
  import opened StreamMachine

  function Shown(cfg: Config): Config {
    cfg.(exposeReasoning := true)
  }

  function Hidden(cfg: Config): Config {
    cfg.(exposeReasoning := false)
  }

  function EraseItem(item: OutputItem): OutputItem {
    if item.ReasoningItem? then ReasoningItem(item.id, [], item.encrypted) else item
  }

  function EraseItems(items: seq<OutputItem>): (out: seq<OutputItem>)
    ensures |out| == |items|
    ensures forall i :: 0 <= i < |items| ==> out[i] == EraseItem(items[i])
  {
    seq(|items|, i requires 0 <= i < |items| => EraseItem(items[i]))
  }

  predicate SummaryEvent(e: Event) {
    e.SummaryPartAdded? || e.SummaryTextDelta? || e.SummaryTextDone? || e.SummaryPartDone?
  }

  function EraseSnapshot(s: Snapshot): Snapshot {
    s.(output := EraseItems(s.output))
  }

  function EraseEvent(e: Event): Event {
    match e
    case Created(s) => Created(EraseSnapshot(s))
    case InProgress(s) => InProgress(EraseSnapshot(s))
    case Completed(s) => Completed(EraseSnapshot(s))
    case Failed(s) => Failed(EraseSnapshot(s))
    case ItemDone(index, id, item) => ItemDone(index, id, EraseItem(item))
    case _ => e
  }

  /** The log without its summary events and with summaries blanked. */
  function EraseLog(log: seq<Event>): seq<Event> {
    if log == [] then []
    else
      var e := log[|log| - 1];
      EraseLog(log[..|log| - 1]) + (if SummaryEvent(e) then [] else [EraseEvent(e)])
  }

  function Erase(s: Stream): Stream {
    s.(output := EraseItems(s.output), log := EraseLog(s.log))
  }

  lemma {:induction false} EraseEmit(s: Stream, e: Event)
    ensures Erase(Emit(s, e)) == if SummaryEvent(e) then Erase(s) else Emit(Erase(s), EraseEvent(e))
  {
    assert (s.log + [e])[..|s.log|] == s.log;
    assert EraseLog(s.log) + [] == EraseLog(s.log);
  }

  lemma {:induction false} ErasePush(s: Stream, item: OutputItem)
    ensures EraseItems(s.output + [item]) == EraseItems(s.output) + [EraseItem(item)]
  {
  }

  lemma {:induction false} EraseDone(s: Stream, item: OutputItem, index: int, id: string)
    ensures var pushed, hidden := s.(output := s.output + [item]), Erase(s);
      Erase(Emit(pushed, ItemDone(index, id, item)))
      == Emit(hidden.(output := hidden.output + [EraseItem(item)]), ItemDone(index, id, EraseItem(item)))
  {
    ErasePush(s, item);
    EraseEmit(s.(output := s.output + [item]), ItemDone(index, id, item));
  }

  lemma {:induction false} EraseCloseReasoning(cfg: Config, s: Stream)
    requires s.active.Thinking?
    ensures Erase(CloseReasoning(Shown(cfg), s)) == CloseReasoning(Hidden(cfg), Erase(s))
  {
    var Thinking(id, text) := s.active;
    var i := s.outputIndex - 1;
    var e1, e2 := SummaryTextDone(i, id, text), SummaryPartDone(i, id, text);
    var item := ReasoningItem(id, [text], text);
    EraseEmit(s, e1);
    EraseEmit(Emit(s, e1), e2);
    EraseDone(Emit(Emit(s, e1), e2).(active := Idle), item, i, id);
  }

  /** Two events the erasure leaves alone. */
  lemma {:induction false} EraseTwo(s: Stream, e1: Event, e2: Event)
    requires !SummaryEvent(e1) && EraseEvent(e1) == e1
    requires !SummaryEvent(e2) && EraseEvent(e2) == e2
    ensures Erase(Emit(Emit(s, e1), e2)) == Emit(Emit(Erase(s), e1), e2)
  {
    EraseEmit(s, e1);
    EraseEmit(Emit(s, e1), e2);
  }

  lemma {:induction false} EraseCloseMessage(s: Stream)
    requires s.active.Speaking?
    ensures Erase(CloseMessage(s)) == CloseMessage(Erase(s))
  {
    var Speaking(id, text, notes) := s.active;
    var i := s.outputIndex - 1;
    var e1, e2 := OutputTextDone(i, id, text), ContentPartDone(i, id, text, notes);
    EraseTwo(s, e1, e2);
    EraseDone(Emit(Emit(s, e1), e2).(active := Idle), MessageItem(id, text, notes), i, id);
  }

  lemma {:induction false} EraseClose(cfg: Config, s: Stream)
    ensures Erase(CloseActive(Shown(cfg), s)) == CloseActive(Hidden(cfg), Erase(s))
  {
    match s.active {
      case Idle =>
      case Thinking(_, _) => EraseCloseReasoning(cfg, s);
      case Speaking(_, _, _) => EraseCloseMessage(s);
    }
  }

  lemma {:induction false} EraseOpenReasoning(cfg: Config, s: Stream)
    ensures Erase(OpenReasoning(Shown(cfg), s)) == OpenReasoning(Hidden(cfg), Erase(s))
  {
    EraseClose(cfg, s);
    var c := CloseActive(Shown(cfg), s);
    var id := cfg.ReasoningId(c.issued);
    var c' := c.(active := Thinking(id, ""), issued := c.issued + 1, outputIndex := c.outputIndex + 1);
    var e := ItemAdded(c.outputIndex, id, NewReasoning);
    EraseEmit(c', e);
    EraseEmit(Emit(c', e), SummaryPartAdded(c.outputIndex, id));
  }

  lemma {:induction false} EraseOpenMessage(cfg: Config, s: Stream)
    ensures Erase(OpenMessage(Shown(cfg), s)) == OpenMessage(Hidden(cfg), Erase(s))
  {
    EraseClose(cfg, s);
    var c := CloseActive(Shown(cfg), s);
    var id := cfg.MessageId(c.issued);
    var c' := c.(active := Speaking(id, "", []), issued := c.issued + 1, outputIndex := c.outputIndex + 1);
    var e := ItemAdded(c.outputIndex, id, NewMessage);
    EraseEmit(c', e);
    EraseEmit(Emit(c', e), ContentPartAdded(c.outputIndex, id));
  }

  lemma {:induction false} EraseOpenCall(cfg: Config, s: Stream, index: int, id: Option<string>, name: Option<string>)
    ensures Erase(OpenCall(Shown(cfg), s, index, id, name)) == OpenCall(Hidden(cfg), Erase(s), index, id, name)
  {
    EraseClose(cfg, s);
    var c := CloseActive(Shown(cfg), s);
    var itemId := cfg.CallItemId(c.issued);
    var call := Call(itemId, c.outputIndex, OrElse(id, "call_" + itemId[3..]), OrElse(name, ""), "");
    EraseEmit(c.(calls := c.calls[index := call], issued := c.issued + 1, outputIndex := c.outputIndex + 1),
              ItemAdded(c.outputIndex, itemId, NewCall(call.callId, call.name, CallNamespace(cfg, call.name))));
  }

  lemma {:induction false} EraseThink(cfg: Config, s: Stream, text: string)
    ensures Erase(Think(Shown(cfg), s, text)) == Think(Hidden(cfg), Erase(s), text)
  {
    EraseOpenReasoning(cfg, s);
    var o := if s.active.Thinking? then s else OpenReasoning(Shown(cfg), s);
    var grown := o.(active := Thinking(o.active.id, o.active.text + text));
    EraseEmit(grown, SummaryTextDelta(grown.outputIndex - 1, grown.active.id, text));
  }

  lemma {:induction false} EraseSaid(cfg: Config, o: Stream, text: string)
    requires o.active.Speaking?
    ensures Erase(Speak(Shown(cfg), o, text)) == Speak(Hidden(cfg), Erase(o), text)
  {
    var grown := o.(active := Speaking(o.active.id, o.active.text + text, o.active.annotations));
    EraseEmit(grown, OutputTextDelta(grown.outputIndex - 1, grown.active.id, text));
  }

  lemma {:induction false} SpeakOpens(cfg: Config, s: Stream, text: string)
    requires !s.active.Speaking?
    ensures Speak(cfg, s, text) == Speak(cfg, OpenMessage(cfg, s), text)
  {
  }

  lemma {:induction false} EraseSpeak(cfg: Config, s: Stream, text: string)
    ensures Erase(Speak(Shown(cfg), s, text)) == Speak(Hidden(cfg), Erase(s), text)
  {
    if s.active.Speaking? {
      EraseSaid(cfg, s, text);
    } else {
      EraseOpenMessage(cfg, s);
      SpeakOpens(Shown(cfg), s, text);
      SpeakOpens(Hidden(cfg), Erase(s), text);
      EraseSaid(cfg, OpenMessage(Shown(cfg), s), text);
    }
  }

  lemma {:induction false} AnnotateOpens(cfg: Config, s: Stream, note: ChatAnnotation)
    requires !s.active.Speaking?
    ensures Annotate(cfg, s, note) == Annotate(cfg, OpenMessage(cfg, s), note)
  {
  }

  lemma {:induction false} EraseAnnotate(cfg: Config, s: Stream, note: ChatAnnotation)
    ensures Erase(Annotate(Shown(cfg), s, note)) == Annotate(Hidden(cfg), Erase(s), note)
  {
    if s.active.Speaking? {
      EraseNote(cfg, s, note);
    } else {
      EraseOpenMessage(cfg, s);
      EraseNote(cfg, OpenMessage(Shown(cfg), s), note);
      AnnotateOpens(Shown(cfg), s, note);
      AnnotateOpens(Hidden(cfg), Erase(s), note);
    }
  }

  lemma {:induction false} EraseNote(cfg: Config, o: Stream, note: ChatAnnotation)
    requires o.active.Speaking?
    ensures Erase(Annotate(Shown(cfg), o, note)) == Annotate(Hidden(cfg), Erase(o), note)
  {
    var a := TranslateAnnotation(note);
    var grown := o.(active := Speaking(o.active.id, o.active.text, o.active.annotations + [a]));
    EraseEmit(grown, AnnotationAdded(grown.outputIndex - 1, grown.active.id, |o.active.annotations|, a));
  }

  lemma {:induction false} EraseCall(cfg: Config, s: Stream, index: int, id: Option<string>, name: Option<string>,
                                     fragment: string)
    ensures Erase(ExtendCall(EnsureCall(Shown(cfg), s, index, id, name), index, fragment))
         == ExtendCall(EnsureCall(Hidden(cfg), Erase(s), index, id, name), index, fragment)
  {
    EraseOpenCall(cfg, s, index, id, name);
    var o := EnsureCall(Shown(cfg), s, index, id, name);
    assert Erase(o) == EnsureCall(Hidden(cfg), Erase(s), index, id, name);
    if fragment != "" {
      var call := o.calls[index].(arguments := o.calls[index].arguments + fragment);
      EraseEmit(o.(calls := o.calls[index := call]), ArgumentsDelta(call.outputIndex, call.itemId, fragment));
    }
  }

  lemma {:induction false} EraseAdvance(cfg: Config, s: Stream, step: Step)
    ensures Erase(Advance(Shown(cfg), s, step)) == Advance(Hidden(cfg), Erase(s), step)
  {
    match step {
      case ReasonStep(text) => EraseThink(cfg, s, text);
      case TextStep(text) => EraseSpeak(cfg, s, text);
      case NoteStep(note) => EraseAnnotate(cfg, s, note);
      case CallStep(index, id, name, fragment) => EraseCall(cfg, s, index, id, name, fragment);
      case _ =>
    }
  }

  lemma {:induction false} EraseOpening(cfg: Config)
    ensures Erase(Opening(Shown(cfg))) == Opening(Hidden(cfg))
  {
    var s := Stream(0, 1, Idle, map[], [], None, None, []);
    var e := Created(SnapshotOf(Shown(cfg), s, InFlight));
    assert EraseItems([]) == [] && Erase(s) == s;
    EraseEmit(s, e);
    EraseEmit(Emit(s, e), InProgress(SnapshotOf(Shown(cfg), s, InFlight)));
  }

  lemma {:induction false} EraseAdvanceAll(cfg: Config, steps: seq<Step>)
    ensures Erase(AdvanceAll(Shown(cfg), Opening(Shown(cfg)), steps))
        == AdvanceAll(Hidden(cfg), Opening(Hidden(cfg)), steps)
  {
    if steps == [] {
      EraseOpening(cfg);
    } else {
      var init := steps[..|steps| - 1];
      EraseAdvanceAll(cfg, init);
      EraseAdvance(cfg, AdvanceAll(Shown(cfg), Opening(Shown(cfg)), init), steps[|steps| - 1]);
    }
  }

  lemma {:induction false} SameCallItem(cfg: Config, call: Call)
    ensures CallItemOf(Shown(cfg), call) == CallItemOf(cfg, call) == CallItemOf(Hidden(cfg), call)
  {
  }

  function Finished(s: Stream, call: Call, item: OutputItem): Stream
    requires item.CallItem?
  {
    var told := Emit(s, ArgumentsDone(call.outputIndex, call.itemId, item.arguments));
    Emit(told.(output := told.output + [item]), ItemDone(call.outputIndex, call.itemId, item))
  }

  lemma {:induction false} EraseFinish(s: Stream, call: Call, item: OutputItem)
    requires item.CallItem?
    ensures Erase(Finished(s, call, item)) == Finished(Erase(s), call, item)
  {
    var e := ArgumentsDone(call.outputIndex, call.itemId, item.arguments);
    EraseEmit(s, e);
    EraseDone(Emit(s, e), item, call.outputIndex, call.itemId);
  }

  lemma {:induction false} EraseFinishCall(cfg: Config, s: Stream, call: Call)
    ensures Erase(FinishCall(Shown(cfg), s, call)) == FinishCall(Hidden(cfg), Erase(s), call)
  {
    SameCallItem(cfg, call);
    EraseFinish(s, call, CallItemOf(cfg, call));
  }

  lemma {:induction false} EraseFinishCalls(cfg: Config, s: Stream, order: seq<int>)
    requires forall i :: 0 <= i < |order| ==> order[i] in s.calls
    ensures Erase(FinishCalls(Shown(cfg), s, order)) == FinishCalls(Hidden(cfg), Erase(s), order)
    decreases |order|
  {
    if order != [] {
      EraseFinishCall(cfg, s, s.calls[order[0]]);
      EraseFinishCalls(cfg, FinishCall(Shown(cfg), s, s.calls[order[0]]), order[1..]);
    }
  }

  lemma {:induction false} EraseShot(cfg: Config, t: Stream, status: Status)
    ensures EraseSnapshot(SnapshotOf(Shown(cfg), t, status)) == SnapshotOf(Hidden(cfg), Erase(t), status)
  {
  }

  lemma {:induction false} EraseLast(t: Stream, shown: Event, hidden: Event)
    requires !SummaryEvent(shown) && EraseEvent(shown) == hidden
    ensures Erase(Emit(t, shown)) == Emit(Erase(t), hidden)
  {
    EraseEmit(t, shown);
  }

  lemma {:induction false} EraseTerminated(cfg: Config, t: Stream, ending: Ending)
    ensures Erase(Terminated(Shown(cfg), t, ending)) == Terminated(Hidden(cfg), Erase(t), ending)
  {
    var status := if ending.Ended? then Complete else Broken(ending.message);
    var shown, hidden := SnapshotOf(Shown(cfg), t, status), SnapshotOf(Hidden(cfg), Erase(t), status);
    EraseShot(cfg, t, status);
    if ending.Ended? {
      EraseLast(t, Completed(shown), Completed(hidden));
    } else {
      EraseLast(t, Failed(shown), Failed(hidden));
    }
  }

  /** Erasing the summaries of the open run gives the hidden run: same events otherwise, in the
      same order, and the same items. */
  lemma {:induction false} HidingOnlyErases(cfg: Config, extract: bool, chunks: seq<Chunk>, ending: Ending)
    ensures Erase(Piped(Shown(cfg), extract, chunks, ending)) == Piped(Hidden(cfg), extract, chunks, ending)
  {
    var steps := AllSteps(extract, chunks);
    var s := AdvanceAll(Shown(cfg), Opening(Shown(cfg)), steps);
    EraseAdvanceAll(cfg, steps);
    EraseClose(cfg, s);
    var c := CloseActive(Shown(cfg), s);
    var order := Ascending(c.calls.Keys);
    forall i | 0 <= i < |order| ensures order[i] in c.calls { assert order[i] in order; }
    EraseFinishCalls(cfg, c, order);
    EraseTerminated(cfg, Settle(Shown(cfg), s), ending);
  }
}
