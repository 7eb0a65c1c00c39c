/** In which order a stream finishes its items, and where they end up in the final output
    (src/translate/streamToSse.ts:336-360). */
module StreamOrder {
  import opened Core
  import opened ResponseTypes
  import opened StreamMachine

  // ---- what the log says is done ---------------------------------------------------------

  datatype Done = Done(index: int, item: OutputItem)

  /** The `done` events of a log, in order. */
  function Dones(log: seq<Event>): seq<Done> {
    if log == [] then []
    else
      var e := log[|log| - 1];
      Dones(log[..|log| - 1]) + if e.ItemDone? then [Done(e.index, e.item)] else []
  }

  function ItemsOf(dones: seq<Done>): (items: seq<OutputItem>)
    ensures |items| == |dones|
    ensures forall i :: 0 <= i < |dones| ==> items[i] == dones[i].item
  {
    seq(|dones|, i requires 0 <= i < |dones| => dones[i].item)
  }

  /** Every item stands in the output at its own index. */
  predicate PlacedByIndex(dones: seq<Done>) {
    forall i :: 0 <= i < |dones| ==> dones[i].index == i
  }

  // ---- what the steps say about order ----------------------------------------------------

  predicate Speaks(step: Step) {
    step.ReasonStep? || step.TextStep? || step.NoteStep?
  }

  /** The call indexes in the order they first appear. */
  function Opened(steps: seq<Step>): seq<int> {
    if steps == [] then []
    else
      var order, last := Opened(steps[..|steps| - 1]), steps[|steps| - 1];
      if last.CallStep? && last.index !in order then order + [last.index] else order
  }

  predicate Rising(order: seq<int>) {
    forall i, j :: 0 <= i < j < |order| ==> order[i] < order[j]
  }

  /** No reasoning, text or citation comes after a call. */
  predicate CallsLast(steps: seq<Step>) {
    forall i, j :: 0 <= i < j < |steps| && steps[i].CallStep? ==> !Speaks(steps[j])
  }

  lemma {:induction false} NoneOpened(steps: seq<Step>)
    ensures Opened(steps) == [] <==> forall i :: 0 <= i < |steps| ==> !steps[i].CallStep?
  {
    if steps != [] {
      var init := steps[..|steps| - 1];
      NoneOpened(init);
      assert forall i :: 0 <= i < |init| ==> init[i] == steps[i];
    }
  }

  lemma {:induction false} CallsLastSnoc(init: seq<Step>, last: Step)
    ensures CallsLast(init + [last]) <==> CallsLast(init) && (Speaks(last) ==> Opened(init) == [])
  {
    var steps := init + [last];
    NoneOpened(init);
    assert steps[|init|] == last && forall i :: 0 <= i < |init| ==> steps[i] == init[i];
    if CallsLast(steps) {
      forall i, j | 0 <= i < j < |init| && init[i].CallStep? ensures !Speaks(init[j]) {
        assert steps[i].CallStep? ==> !Speaks(steps[j]);
      }
      forall i | 0 <= i < |init| ensures Speaks(last) ==> !init[i].CallStep? {
        assert steps[i] == init[i] && steps[|init|] == last;
      }
    }
  }

  lemma {:induction false} OpenedSnoc(init: seq<Step>, last: Step)
    ensures Opened(init + [last])
         == if last.CallStep? && last.index !in Opened(init) then Opened(init) + [last.index] else Opened(init)
  {
    assert (init + [last])[..|init|] == init;
  }

  // ---- the machine keeps order -----------------------------------------------------------

  lemma {:induction false} DonesSnoc(s: Stream, e: Event)
    ensures Dones(Emit(s, e).log) == Dones(s.log) + if e.ItemDone? then [Done(e.index, e.item)] else []
  {
    assert Emit(s, e).log[..|s.log|] == s.log;
  }

  lemma {:induction false} DonesKept(s: Stream, e: Event)
    requires !e.ItemDone?
    ensures Dones(Emit(s, e).log) == Dones(s.log)
  {
    DonesSnoc(s, e);
    EmptyEnds(Dones(s.log));
  }

  lemma {:induction false} ItemsAppend(a: seq<Done>, b: seq<Done>)
    ensures ItemsOf(a + b) == ItemsOf(a) + ItemsOf(b)
  {
  }

  /** The item closed by one that opens, or at the end. */
  function Closing(cfg: Config, s: Stream): seq<Done> {
    match s.active
    case Idle => []
    case Thinking(id, text) => [Done(s.outputIndex - 1, ReasoningItem(id, cfg.Summary(text), text))]
    case Speaking(id, text, notes) => [Done(s.outputIndex - 1, MessageItem(id, text, notes))]
  }

  lemma {:induction false} CloseReasoningDone(cfg: Config, s: Stream)
    requires s.active.Thinking?
    ensures Dones(CloseReasoning(cfg, s).log) == Dones(s.log) + Closing(cfg, s)
  {
    var Thinking(id, text) := s.active;
    var i, item := s.outputIndex - 1, Closing(cfg, s)[0].item;
    var told := s;
    if cfg.exposeReasoning {
      DonesKept(s, SummaryTextDone(i, id, text));
      DonesKept(Emit(s, SummaryTextDone(i, id, text)), SummaryPartDone(i, id, text));
      told := Emit(Emit(s, SummaryTextDone(i, id, text)), SummaryPartDone(i, id, text));
    }
    DonesSnoc(told.(output := told.output + [item], active := Idle), ItemDone(i, id, item));
  }

  lemma {:induction false} CloseMessageDone(cfg: Config, s: Stream)
    requires s.active.Speaking?
    ensures Dones(CloseMessage(s).log) == Dones(s.log) + Closing(cfg, s)
  {
    var Speaking(id, text, notes) := s.active;
    var i, item := s.outputIndex - 1, MessageItem(id, text, notes);
    var e1, e2 := OutputTextDone(i, id, text), ContentPartDone(i, id, text, notes);
    DonesKept(s, e1);
    DonesKept(Emit(s, e1), e2);
    DonesSnoc(Emit(Emit(s, e1), e2).(output := s.output + [item], active := Idle), ItemDone(i, id, item));
  }

  lemma {:induction false} CloseDone(cfg: Config, s: Stream)
    ensures Dones(CloseActive(cfg, s).log) == Dones(s.log) + Closing(cfg, s)
    ensures CloseActive(cfg, s).output == s.output + ItemsOf(Closing(cfg, s))
  {
    match s.active {
      case Idle =>
        EmptyEnds(Dones(s.log));
        EmptyEnds(s.output);
      case Thinking(id, text) =>
        CloseReasoningDone(cfg, s);
        assert ItemsOf(Closing(cfg, s)) == [Closing(cfg, s)[0].item];
      case Speaking(id, text, notes) =>
        CloseMessageDone(cfg, s);
        assert ItemsOf(Closing(cfg, s)) == [Closing(cfg, s)[0].item];
    }
  }

  /** What matters of the machine for order: what is done, the next index, whether an item is
      open, and the calls' indexes. */
  datatype Ledger = Ledger(dones: seq<Done>, next: nat, open: bool, places: map<int, nat>)

  function Places(calls: map<int, Call>): map<int, nat> {
    map k | k in calls :: calls[k].outputIndex
  }

  function LedgerOf(s: Stream): Ledger {
    Ledger(Dones(s.log), s.outputIndex, !s.active.Idle?, Places(s.calls))
  }

  function Shut(l: Ledger, closing: seq<Done>): Ledger {
    Ledger(l.dones + closing, l.next, false, l.places)
  }

  function Begun(l: Ledger): Ledger {
    Ledger(l.dones, l.next + 1, true, l.places)
  }

  function CallBegun(l: Ledger, index: int): Ledger {
    Ledger(l.dones, l.next + 1, false, l.places[index := l.next])
  }

  lemma {:induction false} CloseLedger(cfg: Config, s: Stream)
    ensures LedgerOf(CloseActive(cfg, s)) == Shut(LedgerOf(s), Closing(cfg, s))
  {
    CloseDone(cfg, s);
  }

  lemma {:induction false} OpenReasoningLedger(cfg: Config, s: Stream)
    ensures LedgerOf(OpenReasoning(cfg, s)) == Begun(Shut(LedgerOf(s), Closing(cfg, s)))
  {
    CloseLedger(cfg, s);
    var c := CloseActive(cfg, s);
    var id := cfg.ReasoningId(c.issued);
    var c' := c.(active := Thinking(id, ""), issued := c.issued + 1, outputIndex := c.outputIndex + 1);
    DonesKept(c', ItemAdded(c.outputIndex, id, NewReasoning));
    DonesKept(Emit(c', ItemAdded(c.outputIndex, id, NewReasoning)), SummaryPartAdded(c.outputIndex, id));
  }

  lemma {:induction false} OpenMessageLedger(cfg: Config, s: Stream)
    ensures LedgerOf(OpenMessage(cfg, s)) == Begun(Shut(LedgerOf(s), Closing(cfg, s)))
  {
    CloseLedger(cfg, s);
    var c := CloseActive(cfg, s);
    var id := cfg.MessageId(c.issued);
    var c' := c.(active := Speaking(id, "", []), issued := c.issued + 1, outputIndex := c.outputIndex + 1);
    DonesKept(c', ItemAdded(c.outputIndex, id, NewMessage));
    DonesKept(Emit(c', ItemAdded(c.outputIndex, id, NewMessage)), ContentPartAdded(c.outputIndex, id));
  }

  lemma {:induction false} OpenCallLedger(cfg: Config, s: Stream, index: int, id: Option<string>, name: Option<string>)
    ensures LedgerOf(OpenCall(cfg, s, index, id, name)) == CallBegun(Shut(LedgerOf(s), Closing(cfg, s)), index)
  {
    CloseLedger(cfg, s);
    var c := CloseActive(cfg, s);
    var itemId := cfg.CallItemId(c.issued);
    var call := Call(itemId, c.outputIndex, OrElse(id, "call_" + itemId[3..]), OrElse(name, ""), "");
    var c' := c.(calls := c.calls[index := call], issued := c.issued + 1, outputIndex := c.outputIndex + 1);
    DonesKept(c', ItemAdded(c.outputIndex, itemId, NewCall(call.callId, call.name, CallNamespace(cfg, call.name))));
    assert Places(c.calls[index := call]) == Places(c.calls)[index := c.outputIndex];
  }

  /** A speaking step opens an item, or goes on with the one that is open. */
  predicate SpeechOpens(cfg: Config, s: Stream, t: Stream) {
    LedgerOf(t) == Begun(Shut(LedgerOf(s), Closing(cfg, s))) || (LedgerOf(t) == LedgerOf(s) && LedgerOf(s).open)
  }

  lemma {:induction false} ThinkLedger(cfg: Config, s: Stream, text: string)
    ensures SpeechOpens(cfg, s, Think(cfg, s, text))
  {
    if !s.active.Thinking? { OpenReasoningLedger(cfg, s); }
    var o := if s.active.Thinking? then s else OpenReasoning(cfg, s);
    var grown := o.(active := Thinking(o.active.id, o.active.text + text));
    DonesKept(grown, SummaryTextDelta(grown.outputIndex - 1, grown.active.id, text));
    assert LedgerOf(Think(cfg, s, text)) == LedgerOf(o);
  }

  lemma {:induction false} SpeakLedger(cfg: Config, s: Stream, text: string)
    ensures SpeechOpens(cfg, s, Speak(cfg, s, text))
  {
    if !s.active.Speaking? { OpenMessageLedger(cfg, s); }
    var o := if s.active.Speaking? then s else OpenMessage(cfg, s);
    var grown := o.(active := Speaking(o.active.id, o.active.text + text, o.active.annotations));
    DonesKept(grown, OutputTextDelta(grown.outputIndex - 1, grown.active.id, text));
    assert LedgerOf(Speak(cfg, s, text)) == LedgerOf(o);
  }

  lemma {:induction false} AnnotateLedger(cfg: Config, s: Stream, note: ChatAnnotation)
    ensures SpeechOpens(cfg, s, Annotate(cfg, s, note))
  {
    if !s.active.Speaking? { OpenMessageLedger(cfg, s); }
    var o := if s.active.Speaking? then s else OpenMessage(cfg, s);
    var a := TranslateAnnotation(note);
    var grown := o.(active := Speaking(o.active.id, o.active.text, o.active.annotations + [a]));
    DonesKept(grown, AnnotationAdded(grown.outputIndex - 1, grown.active.id, |o.active.annotations|, a));
    assert LedgerOf(Annotate(cfg, s, note)) == LedgerOf(o);
  }

  lemma {:induction false} EnsureLedger(cfg: Config, s: Stream, index: int, id: Option<string>, name: Option<string>)
    ensures LedgerOf(EnsureCall(cfg, s, index, id, name))
         == if index in s.calls then LedgerOf(s) else CallBegun(Shut(LedgerOf(s), Closing(cfg, s)), index)
  {
    if index !in s.calls {
      OpenCallLedger(cfg, s, index, id, name);
    } else {
      assert Places(EnsureCall(cfg, s, index, id, name).calls) == Places(s.calls);
    }
  }

  lemma {:induction false} ExtendLedger(s: Stream, index: int, fragment: string)
    requires index in s.calls
    ensures LedgerOf(ExtendCall(s, index, fragment)) == LedgerOf(s)
  {
    if fragment != "" {
      var call := s.calls[index].(arguments := s.calls[index].arguments + fragment);
      DonesKept(s.(calls := s.calls[index := call]), ArgumentsDelta(call.outputIndex, call.itemId, fragment));
      assert Places(s.calls[index := call]) == Places(s.calls);
    }
  }

  predicate Takes(cfg: Config, s: Stream, step: Step, t: Stream) {
    if Speaks(step) then SpeechOpens(cfg, s, t)
    else if step.CallStep? && step.index !in LedgerOf(s).places then
      LedgerOf(t) == CallBegun(Shut(LedgerOf(s), Closing(cfg, s)), step.index)
    else LedgerOf(t) == LedgerOf(s)
  }

  lemma {:induction false} AdvanceTakes(cfg: Config, s: Stream, step: Step)
    ensures Takes(cfg, s, step, Advance(cfg, s, step))
  {
    match step {
      case ReasonStep(text) => ThinkLedger(cfg, s, text);
      case TextStep(text) => SpeakLedger(cfg, s, text);
      case NoteStep(note) => AnnotateLedger(cfg, s, note);
      case CallStep(index, id, name, fragment) =>
        EnsureLedger(cfg, s, index, id, name);
        ExtendLedger(EnsureCall(cfg, s, index, id, name), index, fragment);
      case _ =>
    }
  }

  // ---- what is done is in the output -----------------------------------------------------

  predicate Recorded(s: Stream) {
    ItemsOf(Dones(s.log)) == s.output
  }

  lemma {:induction false} CloseRecorded(cfg: Config, s: Stream)
    requires Recorded(s)
    ensures Recorded(CloseActive(cfg, s))
  {
    CloseDone(cfg, s);
    ItemsAppend(Dones(s.log), Closing(cfg, s));
  }

  /** A step leaves the output as it is, or as closing the open item leaves it when another opens. */
  lemma {:induction false} AdvanceOutput(cfg: Config, s: Stream, step: Step)
    ensures var t := Advance(cfg, s, step);
      (t.output == s.output && t.outputIndex == s.outputIndex)
      || (t.output == CloseActive(cfg, s).output && t.outputIndex == s.outputIndex + 1)
  {
  }

  lemma {:induction false} AdvanceRecorded(cfg: Config, s: Stream, step: Step)
    requires Recorded(s)
    ensures Recorded(Advance(cfg, s, step))
  {
    CloseRecorded(cfg, s);
    AdvanceOutput(cfg, s, step);
    AdvanceTakes(cfg, s, step);
    CloseLedger(cfg, s);
    assert LedgerOf(Advance(cfg, s, step)).next == Advance(cfg, s, step).outputIndex;
  }

  /** Reasoning items show what they hold, or nothing, as the configuration says. */
  predicate Summarised(cfg: Config, items: seq<OutputItem>) {
    forall i :: 0 <= i < |items| && items[i].ReasoningItem? ==> items[i].summary == cfg.Summary(items[i].encrypted)
  }

  lemma {:induction false} StepsSummarise(cfg: Config, steps: seq<Step>)
    ensures Summarised(cfg, AdvanceAll(cfg, Opening(cfg), steps).output)
  {
    if steps != [] {
      var s := AdvanceAll(cfg, Opening(cfg), steps[..|steps| - 1]);
      StepsSummarise(cfg, steps[..|steps| - 1]);
      CloseSummarises(cfg, s);
      AdvanceOutput(cfg, s, steps[|steps| - 1]);
    }
  }

  lemma {:induction false} CloseSummarises(cfg: Config, s: Stream)
    requires Summarised(cfg, s.output)
    ensures Summarised(cfg, CloseActive(cfg, s).output)
  {
  }

  // ---- the invariant ---------------------------------------------------------------------

  /** The calls hold indexes that rise in the order they were opened. */
  ghost predicate CallsRise(l: Ledger, order: seq<int>) {
    && (forall k :: k in l.places <==> k in order)
    && (forall i :: 0 <= i < |order| ==> order[i] in l.places && l.places[order[i]] < l.next)
    && (forall i, j :: 0 <= i < j < |order| ==> l.places[order[i]] < l.places[order[j]])
  }

  /** Every item done so far stands in the output where its index says, and the one that is open
      will. */
  predicate InPlace(l: Ledger) {
    PlacedByIndex(l.dones) && (l.open ==> l.next - 1 == |l.dones|)
  }

  predicate CallsFollow(l: Ledger, order: seq<int>) {
    !l.open && forall j :: 0 <= j < |order| ==> order[j] in l.places && l.places[order[j]] == |l.dones| + j
  }

  ghost predicate Ordered(l: Ledger, order: seq<int>, callsLast: bool) {
    && (forall i :: 0 <= i < |l.dones| ==> !l.dones[i].item.CallItem?)
    && CallsRise(l, order)
    && l.next == |l.dones| + (if l.open then 1 else 0) + |order|
    && (InPlace(l) <==> callsLast)
    && (callsLast && order != [] ==> CallsFollow(l, order))
  }

  predicate Closes(l: Ledger, closing: seq<Done>) {
    if l.open then |closing| == 1 && closing[0].index == l.next - 1 && !closing[0].item.CallItem? else closing == []
  }

  lemma {:induction false} PlacedSnoc(dones: seq<Done>, d: Done)
    ensures PlacedByIndex(dones + [d]) <==> PlacedByIndex(dones) && d.index == |dones|
  {
    var more := dones + [d];
    assert more[|dones|] == d && forall i :: 0 <= i < |dones| ==> more[i] == dones[i];
  }

  lemma {:induction false} ShutOrdered(l: Ledger, closing: seq<Done>, order: seq<int>, callsLast: bool)
    requires Ordered(l, order, callsLast) && Closes(l, closing)
    ensures Ordered(Shut(l, closing), order, callsLast)
  {
    if l.open {
      assert closing == [closing[0]];
      PlacedSnoc(l.dones, closing[0]);
    } else {
      EmptyEnds(l.dones);
    }
  }

  lemma {:induction false} BegunOrdered(l: Ledger, order: seq<int>, callsLast: bool)
    requires Ordered(l, order, callsLast) && !l.open
    ensures Ordered(Begun(l), order, callsLast && order == [])
  {
  }

  lemma {:induction false} CallBegunOrdered(l: Ledger, index: int, order: seq<int>, callsLast: bool)
    requires Ordered(l, order, callsLast) && !l.open && index !in order
    ensures Ordered(CallBegun(l, index), order + [index], callsLast)
  {
    var longer := order + [index];
    assert forall i :: 0 <= i < |order| ==> longer[i] == order[i];
    assert CallsRise(CallBegun(l, index), longer);
  }

  lemma {:induction false} SpeechOrdered(cfg: Config, s: Stream, t: Stream, init: seq<Step>, step: Step)
    requires Ordered(LedgerOf(s), Opened(init), CallsLast(init)) && Speaks(step) && SpeechOpens(cfg, s, t)
    ensures Ordered(LedgerOf(t), Opened(init + [step]), CallsLast(init + [step]))
  {
    var l, order, closing := LedgerOf(s), Opened(init), Closing(cfg, s);
    OpenedSnoc(init, step);
    CallsLastSnoc(init, step);
    if LedgerOf(t) == l {
      assert l.open ==> !CallsLast(init) || order == [];
    } else {
      ShutOrdered(l, closing, order, CallsLast(init));
      BegunOrdered(Shut(l, closing), order, CallsLast(init));
    }
  }

  lemma {:induction false} CallOrdered(l: Ledger, closing: seq<Done>, init: seq<Step>, step: Step)
    requires Ordered(l, Opened(init), CallsLast(init)) && Closes(l, closing) && step.CallStep?
        && step.index !in l.places
    ensures Ordered(CallBegun(Shut(l, closing), step.index), Opened(init + [step]), CallsLast(init + [step]))
  {
    OpenedSnoc(init, step);
    CallsLastSnoc(init, step);
    ShutOrdered(l, closing, Opened(init), CallsLast(init));
    CallBegunOrdered(Shut(l, closing), step.index, Opened(init), CallsLast(init));
  }

  lemma {:induction false} AdvanceOrdered(cfg: Config, s: Stream, init: seq<Step>, step: Step)
    requires Ordered(LedgerOf(s), Opened(init), CallsLast(init))
    ensures Ordered(LedgerOf(Advance(cfg, s, step)), Opened(init + [step]), CallsLast(init + [step]))
  {
    AdvanceTakes(cfg, s, step);
    if Speaks(step) {
      SpeechOrdered(cfg, s, Advance(cfg, s, step), init, step);
    } else if step.CallStep? && step.index !in LedgerOf(s).places {
      CallOrdered(LedgerOf(s), Closing(cfg, s), init, step);
    } else {
      OpenedSnoc(init, step);
      CallsLastSnoc(init, step);
    }
  }

  lemma {:induction false} AdvanceAllRecorded(cfg: Config, steps: seq<Step>)
    ensures Recorded(AdvanceAll(cfg, Opening(cfg), steps))
  {
    if steps == [] {
      OpeningDone(cfg);
    } else {
      AdvanceAllRecorded(cfg, steps[..|steps| - 1]);
      AdvanceRecorded(cfg, AdvanceAll(cfg, Opening(cfg), steps[..|steps| - 1]), steps[|steps| - 1]);
    }
  }

  lemma {:induction false} AdvanceLastOrdered(cfg: Config, s: Stream, steps: seq<Step>)
    requires steps != []
    requires Ordered(LedgerOf(s), Opened(steps[..|steps| - 1]), CallsLast(steps[..|steps| - 1]))
    ensures Ordered(LedgerOf(Advance(cfg, s, steps[|steps| - 1])), Opened(steps), CallsLast(steps))
  {
    AdvanceOrdered(cfg, s, steps[..|steps| - 1], steps[|steps| - 1]);
    assert steps[..|steps| - 1] + [steps[|steps| - 1]] == steps;
  }

  lemma {:induction false} OpeningOrdered(cfg: Config)
    ensures Ordered(LedgerOf(Opening(cfg)), [], true)
  {
    OpeningDone(cfg);
    assert LedgerOf(Opening(cfg)) == Ledger([], 0, false, map[]);
  }

  lemma {:induction false} AdvanceAllOrdered(cfg: Config, steps: seq<Step>)
    ensures Ordered(LedgerOf(AdvanceAll(cfg, Opening(cfg), steps)), Opened(steps), CallsLast(steps))
  {
    if steps == [] {
      OpeningOrdered(cfg);
    } else {
      AdvanceAllOrdered(cfg, steps[..|steps| - 1]);
      AdvanceLastOrdered(cfg, AdvanceAll(cfg, Opening(cfg), steps[..|steps| - 1]), steps);
    }
  }

  lemma {:induction false} OpeningDone(cfg: Config)
    ensures Dones(Opening(cfg).log) == []
  {
    var s := Stream(0, 1, Idle, map[], [], None, None, []);
    var shot := SnapshotOf(cfg, s, InFlight);
    DonesKept(s, Created(shot));
    DonesKept(Emit(s, Created(shot)), InProgress(shot));
  }

  // ---- the end ---------------------------------------------------------------------------

  function CallDones(cfg: Config, calls: map<int, Call>, order: seq<int>): (dones: seq<Done>)
    requires forall i :: 0 <= i < |order| ==> order[i] in calls
    ensures |dones| == |order|
    ensures forall i :: 0 <= i < |order| ==>
      dones[i] == Done(calls[order[i]].outputIndex, CallItemOf(cfg, calls[order[i]]))
  {
    seq(|order|, i requires 0 <= i < |order| => Done(calls[order[i]].outputIndex, CallItemOf(cfg, calls[order[i]])))
  }

  lemma {:induction false} FinishCallDone(cfg: Config, s: Stream, call: Call)
    ensures Dones(FinishCall(cfg, s, call).log) == Dones(s.log) + [Done(call.outputIndex, CallItemOf(cfg, call))]
    ensures FinishCall(cfg, s, call).output == s.output + [CallItemOf(cfg, call)]
  {
    var item := CallItemOf(cfg, call);
    var e := ArgumentsDone(call.outputIndex, call.itemId, item.arguments);
    DonesKept(s, e);
    DonesSnoc(Emit(s, e).(output := s.output + [item]), ItemDone(call.outputIndex, call.itemId, item));
  }

  lemma {:induction false} CallDonesCons(cfg: Config, calls: map<int, Call>, order: seq<int>)
    requires order != [] && forall i :: 0 <= i < |order| ==> order[i] in calls
    ensures CallDones(cfg, calls, order)
         == [Done(calls[order[0]].outputIndex, CallItemOf(cfg, calls[order[0]]))] + CallDones(cfg, calls, order[1..])
  {
    var all, rest := CallDones(cfg, calls, order), CallDones(cfg, calls, order[1..]);
    forall i | 0 < i < |all| ensures all[i] == rest[i - 1] {
      assert order[1..][i - 1] == order[i];
    }
  }

  lemma {:induction false} FinishCallsDone(cfg: Config, s: Stream, order: seq<int>)
    requires forall i :: 0 <= i < |order| ==> order[i] in s.calls
    ensures Dones(FinishCalls(cfg, s, order).log) == Dones(s.log) + CallDones(cfg, s.calls, order)
    ensures FinishCalls(cfg, s, order).output == s.output + ItemsOf(CallDones(cfg, s.calls, order))
    decreases |order|
  {
    if order == [] {
      EmptyEnds(Dones(s.log));
      EmptyEnds(s.output);
    } else {
      var call := s.calls[order[0]];
      var item, rest := CallItemOf(cfg, call), CallDones(cfg, s.calls, order[1..]);
      FinishCallDone(cfg, s, call);
      FinishCallsDone(cfg, FinishCall(cfg, s, call), order[1..]);
      var one := Done(call.outputIndex, item);
      CallDonesCons(cfg, s.calls, order);
      ItemsAppend([one], rest);
      assert ItemsOf([one]) == [item];
      Regroup(Dones(s.log), [one], rest);
      Regroup(s.output, [item], ItemsOf(rest));
    }
  }

  ghost predicate AllIn(order: seq<int>, calls: map<int, Call>) {
    forall i :: 0 <= i < |order| ==> order[i] in calls
  }

  lemma {:induction false} SortedIn(calls: map<int, Call>)
    ensures AllIn(Ascending(calls.Keys), calls)
  {
    forall i | 0 <= i < |Ascending(calls.Keys)| ensures Ascending(calls.Keys)[i] in calls {
      assert Ascending(calls.Keys)[i] in Ascending(calls.Keys);
    }
  }

  lemma {:induction false} SettledDones(cfg: Config, s: Stream) returns (c: Stream)
    ensures c == CloseActive(cfg, s) && AllIn(Ascending(c.calls.Keys), c.calls)
    ensures Dones(Settle(cfg, s).log) == Dones(c.log) + CallDones(cfg, c.calls, Ascending(c.calls.Keys))
    ensures Settle(cfg, s).output == c.output + ItemsOf(CallDones(cfg, c.calls, Ascending(c.calls.Keys)))
  {
    c := CloseActive(cfg, s);
    SortedIn(c.calls);
    FinishCallsDone(cfg, c, Ascending(c.calls.Keys));
  }

  lemma {:induction false} TerminalDones(cfg: Config, t: Stream, ending: Ending)
    ensures Dones(Terminated(cfg, t, ending).log) == Dones(t.log) && Terminated(cfg, t, ending).output == t.output
  {
    match ending {
      case Ended => DonesKept(t, Completed(SnapshotOf(cfg, t, Complete)));
      case Threw(message) => DonesKept(t, Failed(SnapshotOf(cfg, t, Broken(message))));
    }
  }

  /** What a finished stream has done: the spoken items, then the calls by upstream index. */
  ghost predicate DoneBy(cfg: Config, t: Stream, c: Stream) {
    && AllIn(Ascending(c.calls.Keys), c.calls)
    && Dones(t.log) == Dones(c.log) + CallDones(cfg, c.calls, Ascending(c.calls.Keys))
    && t.output == c.output + ItemsOf(CallDones(cfg, c.calls, Ascending(c.calls.Keys)))
  }

  lemma {:induction false} PipedDones(cfg: Config, extract: bool, chunks: seq<Chunk>, ending: Ending)
    returns (c: Stream)
    ensures DoneBy(cfg, Piped(cfg, extract, chunks, ending), c) && Recorded(c) && c.active.Idle?
    ensures Ordered(LedgerOf(c), Opened(AllSteps(extract, chunks)), CallsLast(AllSteps(extract, chunks)))
  {
    var steps := AllSteps(extract, chunks);
    var s := AdvanceAll(cfg, Opening(cfg), steps);
    AdvanceAllOrdered(cfg, steps);
    AdvanceAllRecorded(cfg, steps);
    CloseRecorded(cfg, s);
    CloseLedger(cfg, s);
    ShutOrdered(LedgerOf(s), Closing(cfg, s), Opened(steps), CallsLast(steps));
    c := SettledDones(cfg, s);
    TerminalDones(cfg, Settle(cfg, s), ending);
  }

  /** The items of the `done` events, in log order, are the output, and so is what the terminal
      event shows. */
  lemma {:induction false} DoneItemsAreOutput(cfg: Config, extract: bool, chunks: seq<Chunk>, ending: Ending)
    ensures var t := Piped(cfg, extract, chunks, ending);
      ItemsOf(Dones(t.log)) == t.output && ShownLast(t.log, t.output)
  {
    var c := PipedDones(cfg, extract, chunks, ending);
    ItemsAppend(Dones(c.log), CallDones(cfg, c.calls, Ascending(c.calls.Keys)));
    LastShows(cfg, Settle(cfg, AdvanceAll(cfg, Opening(cfg), AllSteps(extract, chunks))), ending);
  }

  /** The last event is a terminal one and shows this output. */
  predicate ShownLast(log: seq<Event>, output: seq<OutputItem>) {
    && log != [] && (log[|log| - 1].Completed? || log[|log| - 1].Failed?)
    && log[|log| - 1].snapshot.output == output
  }

  lemma {:induction false} LastShows(cfg: Config, t: Stream, ending: Ending)
    ensures ShownLast(Terminated(cfg, t, ending).log, Terminated(cfg, t, ending).output)
  {
  }

  /** The `done` events of calls come in the order the calls were opened. */
  predicate CallsDoneAsOpened(dones: seq<Done>) {
    forall i, j :: 0 <= i < j < |dones| && dones[i].item.CallItem? && dones[j].item.CallItem? ==>
        dones[i].index < dones[j].index
  }

  /** Places rise along a list of calls. */
  predicate PlacesRise(places: map<int, nat>, list: seq<int>) {
    forall i, j :: 0 <= i < j < |list| && list[i] in places && list[j] in places ==> places[list[i]] < places[list[j]]
  }

  lemma {:induction false} PlacesRiseIfRising(l: Ledger, order: seq<int>, sorted: seq<int>)
    requires CallsRise(l, order) && Rising(sorted) && Rising(order)
    ensures PlacesRise(l.places, sorted)
  {
    forall i, j | 0 <= i < j < |sorted| && sorted[i] in l.places && sorted[j] in l.places
      ensures l.places[sorted[i]] < l.places[sorted[j]]
    {
      assert sorted[i] in order && sorted[j] in order;
      var a :| 0 <= a < |order| && order[a] == sorted[i];
      var b :| 0 <= b < |order| && order[b] == sorted[j];
      assert a < b;
    }
  }

  lemma {:induction false} RisingIfPlacesRise(l: Ledger, order: seq<int>, sorted: seq<int>)
    requires CallsRise(l, order) && Rising(sorted) && PlacesRise(l.places, sorted)
    requires forall k :: k in l.places ==> k in sorted
    ensures Rising(order)
  {
    forall a, b | 0 <= a < b < |order| ensures order[a] < order[b] {
      assert order[a] in l.places && order[b] in l.places;
      var i :| 0 <= i < |sorted| && sorted[i] == order[a];
      var j :| 0 <= j < |sorted| && sorted[j] == order[b];
      assert l.places[order[a]] < l.places[order[b]];
    }
  }

  lemma {:induction false} RisingIff(l: Ledger, order: seq<int>, sorted: seq<int>)
    requires CallsRise(l, order) && Rising(sorted) && forall k :: k in l.places ==> k in sorted
    ensures Rising(order) <==> PlacesRise(l.places, sorted)
  {
    if Rising(order) { PlacesRiseIfRising(l, order, sorted); }
    if PlacesRise(l.places, sorted) { RisingIfPlacesRise(l, order, sorted); }
  }

  lemma {:induction false} OrderOfDones(cfg: Config, spoken: seq<Done>, calls: map<int, Call>, sorted: seq<int>)
    requires AllIn(sorted, calls) && forall i :: 0 <= i < |spoken| ==> !spoken[i].item.CallItem?
    ensures CallsDoneAsOpened(spoken + CallDones(cfg, calls, sorted)) <==> PlacesRise(Places(calls), sorted)
  {
    var done := CallDones(cfg, calls, sorted);
    var dones := spoken + done;
    assert forall i :: 0 <= i < |spoken| ==> dones[i] == spoken[i];
    if CallsDoneAsOpened(dones) {
      forall i, j | 0 <= i < j < |sorted| && sorted[i] in Places(calls) && sorted[j] in Places(calls)
        ensures Places(calls)[sorted[i]] < Places(calls)[sorted[j]]
      {
        assert dones[|spoken| + i] == done[i] && dones[|spoken| + j] == done[j];
      }
    } else {
      var i, j :| 0 <= i < j < |dones| && dones[i].item.CallItem? && dones[j].item.CallItem?
          && !(dones[i].index < dones[j].index);
      assert dones[i] == done[i - |spoken|] && dones[j] == done[j - |spoken|];
    }
  }

  /** Calls are finished in the order they were opened if and only if their indexes first appear
      in ascending order. */
  lemma {:induction false} CallsDoneAsOpenedIff(cfg: Config, extract: bool, chunks: seq<Chunk>, ending: Ending)
    ensures CallsDoneAsOpened(Dones(Piped(cfg, extract, chunks, ending).log))
      <==> Rising(Opened(AllSteps(extract, chunks)))
  {
    var c := PipedDones(cfg, extract, chunks, ending);
    RisingIff(LedgerOf(c), Opened(AllSteps(extract, chunks)), Ascending(c.calls.Keys));
    OrderOfDones(cfg, Dones(c.log), c.calls, Ascending(c.calls.Keys));
  }

  lemma {:induction false} Heads(a: seq<int>, b: seq<int>)
    requires a != [] && b != [] && Rising(a) && Rising(b) && a[0] in b && b[0] in a
    ensures a[0] == b[0]
  {
    var i :| 0 <= i < |b| && b[i] == a[0];
    var j :| 0 <= j < |a| && a[j] == b[0];
  }

  lemma {:induction false} Headed(a: seq<int>)
    ensures a == [] || a[0] in a
  {
  }

  lemma {:induction false} SameRise(a: seq<int>, b: seq<int>)
    requires Rising(a) && Rising(b) && (forall k :: k in a ==> k in b) && (forall k :: k in b ==> k in a)
    ensures a == b
  {
    Headed(a);
    Headed(b);
    if a != [] && b != [] {
      Heads(a, b);
      forall k | k in a[1..] ensures k in b[1..] { assert k in b && k != b[0]; }
      forall k | k in b[1..] ensures k in a[1..] { assert k in a && k != a[0]; }
      SameRise(a[1..], b[1..]);
    }
  }

  lemma {:induction false} PlacedAppend(a: seq<Done>, b: seq<Done>)
    ensures PlacedByIndex(a + b) <==> PlacedByIndex(a) && forall i :: 0 <= i < |b| ==> b[i].index == |a| + i
  {
    var all := a + b;
    assert forall i :: 0 <= i < |a| ==> all[i] == a[i];
    assert forall i :: 0 <= i < |b| ==> all[|a| + i] == b[i];
    if PlacedByIndex(all) {
      forall i | 0 <= i < |b| ensures b[i].index == |a| + i { assert all[|a| + i].index == |a| + i; }
    }
  }

  lemma {:induction false} PlacedIff(cfg: Config, dones: seq<Done>, calls: map<int, Call>, next: nat, order: seq<int>,
                                     callsLast: bool, sorted: seq<int>)
    requires Ordered(Ledger(dones, next, false, Places(calls)), order, callsLast) && AllIn(sorted, calls)
        && Rising(sorted)
    requires forall k :: k in calls ==> k in sorted
    ensures PlacedByIndex(dones + CallDones(cfg, calls, sorted)) <==> callsLast && Rising(order)
  {
    var l, done := Ledger(dones, next, false, Places(calls)), CallDones(cfg, calls, sorted);
    PlacedAppend(dones, done);
    RisingIff(l, order, sorted);
    if PlacedByIndex(dones + done) {
      forall i, j | 0 <= i < j < |sorted| && sorted[i] in l.places && sorted[j] in l.places
        ensures l.places[sorted[i]] < l.places[sorted[j]]
      {
        assert done[i].index == |dones| + i && done[j].index == |dones| + j;
      }
    }
    if callsLast && Rising(order) {
      SameRise(order, sorted);
      forall i | 0 <= i < |done| ensures done[i].index == |dones| + i {
        assert done[i].index == l.places[order[i]];
      }
    }
  }

  /** An item's place in the final output is its output index, for every item, if and only if call
      indexes first appear in ascending order and no reasoning, text or citation follows a call. */
  lemma {:induction false} PlacedByIndexIff(cfg: Config, extract: bool, chunks: seq<Chunk>, ending: Ending)
    ensures var steps := AllSteps(extract, chunks);
      PlacedByIndex(Dones(Piped(cfg, extract, chunks, ending).log)) <==> CallsLast(steps) && Rising(Opened(steps))
  {
    var c := PipedDones(cfg, extract, chunks, ending);
    var steps := AllSteps(extract, chunks);
    PlacedIff(cfg, Dones(c.log), c.calls, c.outputIndex, Opened(steps), CallsLast(steps), Ascending(c.calls.Keys));
  }

  // ---- two streams that break the order --------------------------------------------------

  function CallChunk(index: int): Chunk {
    Chunk(None, Some(Choice(Delta(None, None, [], [CallDelta(index, Some("id"), Some("f"), None)]), None)))
  }

  function TextChunk(): Chunk {
    Chunk(None, Some(Choice(Delta(Some("hi"), None, [], []), None)))
  }

  lemma {:induction false} TwoChunks(a: Chunk, b: Chunk)
    ensures AllSteps(false, [a, b]) == StepsOf(None, a).1 + StepsOf(None, b).1
  {
    assert [a, b][..1] == [a] && [a][..0] == [];
    assert StepsOfAll(None, []) == (None, []);
    assert StepsOf(None, a).0 == None && StepsOf(None, b).0 == None;
    assert StepsOfAll(None, [a]) == (None, [] + StepsOf(None, a).1);
    assert [] + StepsOf(None, a).1 == StepsOf(None, a).1;
  }

  lemma {:induction false} CallChunkSteps(index: int)
    ensures StepsOf(None, CallChunk(index)).1 == [CallStep(index, Some("id"), Some("f"), "")]
  {
  }

  lemma {:induction false} OpenedTwo(one: Step, two: Step)
    requires one.CallStep? && two.CallStep? && one.index != two.index
    ensures Opened([one] + [two]) == [one.index, two.index]
  {
    assert [] + [one] == [one];
    OpenedSnoc([], one);
    OpenedSnoc([one], two);
  }

  /** Call 1 opens before call 0 and is finished after it. */
  lemma {:induction false} LaterCallFirst(cfg: Config, ending: Ending)
    ensures !CallsDoneAsOpened(Dones(Piped(cfg, false, [CallChunk(1), CallChunk(0)], ending).log))
  {
    TwoChunks(CallChunk(1), CallChunk(0));
    CallChunkSteps(1);
    CallChunkSteps(0);
    OpenedTwo(CallStep(1, Some("id"), Some("f"), ""), CallStep(0, Some("id"), Some("f"), ""));
    var order := Opened(AllSteps(false, [CallChunk(1), CallChunk(0)]));
    assert order == [1, 0] && !(order[0] < order[1]);
    CallsDoneAsOpenedIff(cfg, false, [CallChunk(1), CallChunk(0)], ending);
  }

  lemma {:induction false} TextChunkSteps()
    ensures StepsOf(None, TextChunk()).1 == [TextStep("hi")]
  {
  }

  /** Text after a call stands before it in the final output. */
  lemma {:induction false} TextAfterCall(cfg: Config, ending: Ending)
    ensures !PlacedByIndex(Dones(Piped(cfg, false, [CallChunk(0), TextChunk()], ending).log))
  {
    var steps := AllSteps(false, [CallChunk(0), TextChunk()]);
    TwoChunks(CallChunk(0), TextChunk());
    CallChunkSteps(0);
    TextChunkSteps();
    assert steps[0].CallStep? && Speaks(steps[1]);
    PlacedByIndexIff(cfg, false, [CallChunk(0), TextChunk()], ending);
  }
}
