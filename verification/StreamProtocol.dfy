/** The event protocol seen from the receiving end. A client that checks every rule it could
    rely on accepts every stream the machine can produce, and rebuilds each item from its
    deltas. */
module StreamProtocol {
  import opened Core
  import opened ResponseTypes
  import opened StreamMachine

  // ---- the client ------------------------------------------------------------------------

  datatype Phase = Announced | Receiving | TextClosed | PartClosed | Finished(item: OutputItem)

  /** An item as the client has rebuilt it so far. */
  datatype Item = Item(id: string, kind: NewItem, phase: Phase, text: string, notes: seq<Annotation>)

  datatype Client = Client(greetings: nat, items: seq<Item>, over: bool)

  function Index(e: Event): int {
    match e
    case Created(_) => -1
    case InProgress(_) => -1
    case Completed(_) => -1
    case Failed(_) => -1
    case _ => e.index
  }

  predicate Terminal(e: Event) {
    e.Completed? || e.Failed?
  }

  /** What an event does to the item it names, when the item may receive it. */
  function Fed(cfg: Config, it: Item, e: Event): Option<Item> {
    match e
    case SummaryPartAdded(_, _) =>
      if it.kind.NewReasoning? && it.phase.Announced? then Some(it.(phase := Receiving)) else None
    case SummaryTextDelta(_, _, delta) =>
      if it.kind.NewReasoning? && it.phase.Receiving? then Some(it.(text := it.text + delta)) else None
    case SummaryTextDone(_, _, text) =>
      if it.kind.NewReasoning? && it.phase.Receiving? && text == it.text then Some(it.(phase := TextClosed)) else None
    case SummaryPartDone(_, _, text) =>
      if it.kind.NewReasoning? && it.phase.TextClosed? && text == it.text then Some(it.(phase := PartClosed)) else None
    case ContentPartAdded(_, _) =>
      if it.kind.NewMessage? && it.phase.Announced? then Some(it.(phase := Receiving)) else None
    case OutputTextDelta(_, _, delta) =>
      if it.kind.NewMessage? && it.phase.Receiving? then Some(it.(text := it.text + delta)) else None
    case AnnotationAdded(_, _, position, a) =>
      if it.kind.NewMessage? && it.phase.Receiving? && position == |it.notes|
      then Some(it.(notes := it.notes + [a])) else None
    case OutputTextDone(_, _, text) =>
      if it.kind.NewMessage? && it.phase.Receiving? && text == it.text then Some(it.(phase := TextClosed)) else None
    case ContentPartDone(_, _, text, notes) =>
      if it.kind.NewMessage? && it.phase.TextClosed? && text == it.text && notes == it.notes
      then Some(it.(phase := PartClosed)) else None
    case ArgumentsDelta(_, _, delta) =>
      if it.kind.NewCall? && it.phase.Receiving? then Some(it.(text := it.text + delta)) else None
    case ArgumentsDone(_, _, arguments) =>
      if it.kind.NewCall? && it.phase.Receiving? && arguments == cfg.Salvaged(it.text)
      then Some(it.(phase := TextClosed, text := arguments)) else None
    case ItemDone(_, _, item) =>
      if Completes(cfg, it, item) then Some(it.(phase := Finished(item))) else None
    case _ => None
  }

  /** The final item agrees with everything streamed before it: shown reasoning with its summary
      events, hidden reasoning without any. */
  predicate Completes(cfg: Config, it: Item, item: OutputItem) {
    item.id == it.id &&
    match it.kind
    case NewReasoning =>
      && item.ReasoningItem?
      && if cfg.exposeReasoning then it.phase.PartClosed? && item.summary == [it.text] && item.encrypted == it.text
         else it.phase.Announced? && it.text == "" && item.summary == []
    case NewMessage =>
      it.phase.PartClosed? && item == MessageItem(it.id, it.text, it.notes)
    case NewCall(callId, name, _) =>
      && it.phase.TextClosed? && item.CallItem?
      && item.callId == callId && item.arguments == it.text && (name == "" || item.name == name)
  }

  predicate AllFinished(items: seq<Item>) {
    forall j :: 0 <= j < |items| ==> items[j].phase.Finished?
  }

  /** A new item may start only while no reasoning or message item is unfinished. */
  predicate NoneSpeaking(items: seq<Item>) {
    forall j :: 0 <= j < |items| && !items[j].kind.NewCall? ==> items[j].phase.Finished?
  }

  function Receive(cfg: Config, c: Client, e: Event): Option<Client> {
    if c.over then None
    else if e.Created? then if c.greetings == 0 then Some(c.(greetings := 1)) else None
    else if e.InProgress? then if c.greetings == 1 then Some(c.(greetings := 2)) else None
    else if c.greetings != 2 then None
    else if Terminal(e) then if AllFinished(c.items) then Some(c.(over := true)) else None
    else if e.ItemAdded? then
      if e.index == |c.items| && NoneSpeaking(c.items)
      then Some(c.(items := c.items + [Item(e.id, e.added, if e.added.NewCall? then Receiving else Announced, "", [])]))
      else None
    else if 0 <= e.index < |c.items| && e.id == c.items[e.index].id && Fed(cfg, c.items[e.index], e).Some? then
      Some(c.(items := c.items[e.index := Fed(cfg, c.items[e.index], e).value]))
    else None
  }

  function Replay(cfg: Config, log: seq<Event>): Option<Client> {
    if log == [] then Some(Client(0, [], false))
    else
      match Replay(cfg, log[..|log| - 1])
      case None => None
      case Some(c) => Receive(cfg, c, log[|log| - 1])
  }

  lemma {:induction false} ReplaySnoc(cfg: Config, s: Stream, e: Event)
    ensures Replay(cfg, Emit(s, e).log)
         == match Replay(cfg, s.log) case None => None case Some(c) => Receive(cfg, c, e)
  {
    assert Emit(s, e).log[..|s.log|] == s.log;
  }

  // ---- the machine keeps its client in step ----------------------------------------------

  predicate ActiveFollows(cfg: Config, active: Active, items: seq<Item>) {
    match active
    case Idle => true
    case Thinking(id, text) =>
      items != [] && items[|items| - 1]
      == Item(id, NewReasoning, if cfg.exposeReasoning then Receiving else Announced,
              if cfg.exposeReasoning then text else "", [])
    case Speaking(id, text, notes) =>
      items != [] && items[|items| - 1] == Item(id, NewMessage, Receiving, text, notes)
  }

  predicate CallFollows(call: Call, items: seq<Item>) {
    && call.outputIndex < |items|
    && var it := items[call.outputIndex];
       && it.kind.NewCall? && it.id == call.itemId && it.phase.Receiving? && it.text == call.arguments
       && it.kind.callId == call.callId && (it.kind.name == "" || it.kind.name == call.name)
  }

  ghost predicate Owned(s: Stream, pending: set<int>, j: int) {
    exists k :: k in pending && k in s.calls && s.calls[k].outputIndex == j
  }

  /** `items` is what the client holds; `pending` are the calls still to be finished. */
  ghost predicate Follows(cfg: Config, s: Stream, items: seq<Item>, pending: set<int>) {
    && Replay(cfg, s.log) == Some(Client(2, items, false))
    && |items| == s.outputIndex
    && ActiveFollows(cfg, s.active, items)
    && (forall j :: 0 <= j < |items| && !items[j].kind.NewCall? && (s.active.Idle? || j < |items| - 1) ==>
        items[j].phase.Finished?)
    && (forall k :: k in pending ==> k in s.calls && CallFollows(s.calls[k], items))
    && (forall k, l :: k in pending && l in pending && k != l ==> s.calls[k].outputIndex != s.calls[l].outputIndex)
    && (forall j :: 0 <= j < |items| && items[j].kind.NewCall? && !items[j].phase.Finished? ==> Owned(s, pending, j))
  }

  lemma {:induction false} Feed(cfg: Config, s: Stream, items: seq<Item>, e: Event)
    requires Replay(cfg, s.log) == Some(Client(2, items, false))
    requires !e.Created? && !e.InProgress? && !Terminal(e) && !e.ItemAdded?
    requires 0 <= e.index < |items| && e.id == items[e.index].id && Fed(cfg, items[e.index], e).Some?
    ensures Replay(cfg, Emit(s, e).log)
         == Some(Client(2, items[e.index := Fed(cfg, items[e.index], e).value], false))
  {
    ReplaySnoc(cfg, s, e);
  }

  /** Feeding the last item one event after another. */
  function Last(items: seq<Item>, it: Item): seq<Item>
    requires items != []
  {
    items[|items| - 1 := it]
  }

  lemma {:induction false} FeedLast(cfg: Config, s: Stream, items: seq<Item>, it: Item, e: Event)
    requires items != [] && Replay(cfg, s.log) == Some(Client(2, Last(items, it), false))
    requires !e.Created? && !e.InProgress? && !Terminal(e) && !e.ItemAdded?
    requires e.index == |items| - 1 && e.id == it.id && Fed(cfg, it, e).Some?
    ensures Replay(cfg, Emit(s, e).log) == Some(Client(2, Last(items, Fed(cfg, it, e).value), false))
  {
    Feed(cfg, s, Last(items, it), e);
    assert Last(items, it)[|items| - 1 := Fed(cfg, it, e).value] == Last(items, Fed(cfg, it, e).value);
  }

  lemma {:induction false} CloseFollows(cfg: Config, s: Stream, items: seq<Item>, pending: set<int>)
    returns (items': seq<Item>)
    requires Follows(cfg, s, items, pending)
    ensures Follows(cfg, CloseActive(cfg, s), items', pending)
  {
    match s.active {
      case Idle => items' := items;
      case Thinking(_, _) => items' := CloseReasoningFollows(cfg, s, items, pending);
      case Speaking(_, _, _) => items' := CloseMessageFollows(cfg, s, items, pending);
    }
  }

  lemma {:induction false} CloseReasoningFollows(cfg: Config, s: Stream, items: seq<Item>, pending: set<int>)
    returns (items': seq<Item>)
    requires Follows(cfg, s, items, pending) && s.active.Thinking?
    ensures Follows(cfg, CloseReasoning(cfg, s), items', pending)
  {
    var Thinking(id, text) := s.active;
    var i := s.outputIndex - 1;
    var it := items[i];
    assert Last(items, it) == items;
    var item := ReasoningItem(id, cfg.Summary(text), text);
    var told := s;
    if cfg.exposeReasoning {
      var e1, e2 := SummaryTextDone(i, id, text), SummaryPartDone(i, id, text);
      FeedLast(cfg, s, items, it, e1);
      FeedLast(cfg, Emit(s, e1), items, it.(phase := TextClosed), e2);
      told := Emit(Emit(s, e1), e2);
      it := it.(phase := PartClosed);
    }
    FeedLast(cfg, told, items, it, ItemDone(i, id, item));
    items' := Last(items, it.(phase := Finished(item)));
    LastFinishedFollows(cfg, s, items, pending, CloseReasoning(cfg, s), items');
  }

  lemma {:induction false} MessageClosed(cfg: Config, s: Stream, items: seq<Item>, it: Item)
    requires items != [] && Replay(cfg, s.log) == Some(Client(2, Last(items, it), false))
    requires it.kind.NewMessage? && it.phase.Receiving?
    ensures var i := |items| - 1;
      Replay(cfg, Emit(Emit(s, OutputTextDone(i, it.id, it.text)), ContentPartDone(i, it.id, it.text, it.notes)).log)
      == Some(Client(2, Last(items, it.(phase := PartClosed)), false))
  {
    var i := |items| - 1;
    var e1 := OutputTextDone(i, it.id, it.text);
    FeedLast(cfg, s, items, it, e1);
    FeedLast(cfg, Emit(s, e1), items, it.(phase := TextClosed), ContentPartDone(i, it.id, it.text, it.notes));
  }

  lemma {:induction false} MessageDone(cfg: Config, s: Stream, items: seq<Item>, it: Item)
    requires items != [] && Replay(cfg, s.log) == Some(Client(2, Last(items, it), false)) && s.outputIndex == |items|
    requires it.kind.NewMessage? && it.phase.Receiving? && s.active == Speaking(it.id, it.text, it.notes)
    ensures Replay(cfg, CloseMessage(s).log)
         == Some(Client(2, Last(items, it.(phase := Finished(MessageItem(it.id, it.text, it.notes)))), false))
  {
    var i, item := |items| - 1, MessageItem(it.id, it.text, it.notes);
    MessageClosed(cfg, s, items, it);
    var told := Emit(Emit(s, OutputTextDone(i, it.id, it.text)), ContentPartDone(i, it.id, it.text, it.notes));
    var closed := told.(output := told.output + [item], active := Idle);
    assert CloseMessage(s) == Emit(closed, ItemDone(i, it.id, item));
    FeedLast(cfg, closed, items, it.(phase := PartClosed), ItemDone(i, it.id, item));
  }

  lemma {:induction false} CloseMessageFollows(cfg: Config, s: Stream, items: seq<Item>, pending: set<int>)
    returns (items': seq<Item>)
    requires Follows(cfg, s, items, pending) && s.active.Speaking?
    ensures Follows(cfg, CloseMessage(s), items', pending)
  {
    var it := items[|items| - 1];
    assert Last(items, it) == items;
    MessageDone(cfg, s, items, it);
    items' := Last(items, it.(phase := Finished(MessageItem(it.id, it.text, it.notes))));
    LastFinishedFollows(cfg, s, items, pending, CloseMessage(s), items');
  }

  lemma {:induction false} LastFinishedFollows(cfg: Config, s: Stream, items: seq<Item>, pending: set<int>, t: Stream,
                                               items': seq<Item>)
    requires Follows(cfg, s, items, pending) && !s.active.Idle?
    requires t.outputIndex == s.outputIndex && t.calls == s.calls && t.active.Idle?
    requires |items'| == |items| && !items[|items| - 1].kind.NewCall? && !items'[|items| - 1].kind.NewCall?
    requires items'[|items| - 1].phase.Finished?
    requires forall j :: 0 <= j < |items| - 1 ==> items'[j] == items[j]
    requires Replay(cfg, t.log) == Some(Client(2, items', false))
    ensures Follows(cfg, t, items', pending)
  {
    forall k | k in pending ensures CallFollows(t.calls[k], items') {
      assert CallFollows(s.calls[k], items);
    }
    forall j | 0 <= j < |items'| && items'[j].kind.NewCall? && !items'[j].phase.Finished? ensures Owned(t, pending, j) {
      assert Owned(s, pending, j);
    }
  }

  // ---- opening ---------------------------------------------------------------------------

  lemma {:induction false} AddItem(cfg: Config, s: Stream, items: seq<Item>, id: string, added: NewItem)
    requires Replay(cfg, s.log) == Some(Client(2, items, false)) && NoneSpeaking(items)
    ensures Replay(cfg, Emit(s, ItemAdded(|items|, id, added)).log)
         == Some(Client(2, items + [Item(id, added, if added.NewCall? then Receiving else Announced, "", [])], false))
  {
    ReplaySnoc(cfg, s, ItemAdded(|items|, id, added));
  }

  /** A reasoning or message item appended and made active. */
  lemma {:induction false} AppendedFollows(cfg: Config, c: Stream, items: seq<Item>, pending: set<int>, t: Stream,
                                           it: Item)
    requires Follows(cfg, c, items, pending) && c.active.Idle?
    requires t.outputIndex == c.outputIndex + 1 && t.calls == c.calls && !t.active.Idle?
    requires ActiveFollows(cfg, t.active, items + [it]) && !it.kind.NewCall?
    requires Replay(cfg, t.log) == Some(Client(2, items + [it], false))
    ensures Follows(cfg, t, items + [it], pending)
  {
    forall k | k in pending ensures CallFollows(t.calls[k], items + [it]) {
      assert CallFollows(c.calls[k], items);
    }
    forall j | 0 <= j < |items + [it]| && (items + [it])[j].kind.NewCall? && !(items + [it])[j].phase.Finished?
      ensures Owned(t, pending, j)
    {
      assert Owned(c, pending, j);
    }
  }

  lemma {:induction false} OpenReasoningFollows(cfg: Config, s: Stream, items: seq<Item>, pending: set<int>)
    returns (items': seq<Item>)
    requires Follows(cfg, s, items, pending)
    ensures Follows(cfg, OpenReasoning(cfg, s), items', pending)
  {
    var before := CloseFollows(cfg, s, items, pending);
    var c := CloseActive(cfg, s);
    var id := cfg.ReasoningId(c.issued);
    var c' := c.(active := Thinking(id, ""), issued := c.issued + 1, outputIndex := c.outputIndex + 1);
    AddItem(cfg, c', before, id, NewReasoning);
    var begun := Emit(c', ItemAdded(c.outputIndex, id, NewReasoning));
    var it := Item(id, NewReasoning, Announced, "", []);
    items' := before + [it];
    if cfg.exposeReasoning {
      assert Last(items', it) == items';
      FeedLast(cfg, begun, items', it, SummaryPartAdded(c.outputIndex, id));
      it := it.(phase := Receiving);
      assert Last(items', it) == before + [it];
      items' := before + [it];
    }
    AppendedFollows(cfg, c, before, pending, OpenReasoning(cfg, s), it);
  }

  lemma {:induction false} MessageAnnounced(cfg: Config, c: Stream, before: seq<Item>, id: string, index: int)
    requires Replay(cfg, Emit(c, ItemAdded(index, id, NewMessage)).log)
        == Some(Client(2, before + [Item(id, NewMessage, Announced, "", [])], false))
    requires index == |before|
    ensures Replay(cfg, Emit(Emit(c, ItemAdded(index, id, NewMessage)), ContentPartAdded(index, id)).log)
         == Some(Client(2, before + [Item(id, NewMessage, Receiving, "", [])], false))
  {
    var it := Item(id, NewMessage, Announced, "", []);
    var items := before + [it];
    assert Last(items, it) == items;
    FeedLast(cfg, Emit(c, ItemAdded(index, id, NewMessage)), items, it, ContentPartAdded(index, id));
    assert Last(items, it.(phase := Receiving)) == before + [it.(phase := Receiving)];
  }

  lemma {:induction false} OpenMessageFollows(cfg: Config, s: Stream, items: seq<Item>, pending: set<int>)
    returns (items': seq<Item>)
    requires Follows(cfg, s, items, pending)
    ensures Follows(cfg, OpenMessage(cfg, s), items', pending)
  {
    var before := CloseFollows(cfg, s, items, pending);
    var c := CloseActive(cfg, s);
    var id := cfg.MessageId(c.issued);
    var c' := c.(active := Speaking(id, "", []), issued := c.issued + 1, outputIndex := c.outputIndex + 1);
    AddItem(cfg, c', before, id, NewMessage);
    MessageAnnounced(cfg, c', before, id, c.outputIndex);
    var it := Item(id, NewMessage, Receiving, "", []);
    items' := before + [it];
    AppendedFollows(cfg, c, before, pending, OpenMessage(cfg, s), it);
  }

  lemma {:induction false} OpenCallFollows(cfg: Config, s: Stream, items: seq<Item>, pending: set<int>,
                                          index: int, id: Option<string>, name: Option<string>)
    returns (items': seq<Item>)
    requires Follows(cfg, s, items, pending) && index !in s.calls
    ensures Follows(cfg, OpenCall(cfg, s, index, id, name), items', pending + {index})
  {
    var before := CloseFollows(cfg, s, items, pending);
    var c := CloseActive(cfg, s);
    var t := OpenCall(cfg, s, index, id, name);
    var call := t.calls[index];
    var kind := NewCall(call.callId, call.name, CallNamespace(cfg, call.name));
    AddItem(cfg, c.(calls := t.calls, issued := t.issued, outputIndex := t.outputIndex), before, call.itemId, kind);
    var it := Item(call.itemId, kind, Receiving, "", []);
    items' := before + [it];
    CallItemFollows(cfg, c, before, pending, t, it, index);
  }

  lemma {:induction false} CallItemFollows(cfg: Config, c: Stream, before: seq<Item>, pending: set<int>, t: Stream,
                                           it: Item, index: int)
    requires Follows(cfg, c, before, pending) && c.active.Idle? && t.active.Idle? && index !in c.calls
        && index in t.calls
    requires t.calls == c.calls[index := t.calls[index]] && t.outputIndex == c.outputIndex + 1
    requires t.calls[index].outputIndex == |before| && CallFollows(t.calls[index], before + [it])
    requires Replay(cfg, t.log) == Some(Client(2, before + [it], false))
    ensures Follows(cfg, t, before + [it], pending + {index})
  {
    CallAppended(c, before, pending, t, it, index);
  }

  predicate Live(it: Item) {
    it.kind.NewCall? && !it.phase.Finished?
  }

  /** A new call's item leaves the earlier calls with theirs. */
  lemma {:induction false} CallAppended(c: Stream, before: seq<Item>, pending: set<int>, t: Stream, it: Item,
                                        index: int)
    requires forall k :: k in pending ==> k in c.calls && CallFollows(c.calls[k], before)
    requires forall j :: 0 <= j < |before| && Live(before[j]) ==> Owned(c, pending, j)
    requires index !in c.calls && index in t.calls && t.calls == c.calls[index := t.calls[index]]
    requires t.calls[index].outputIndex == |before| && CallFollows(t.calls[index], before + [it])
    ensures forall k :: k in pending + {index} ==> k in t.calls && CallFollows(t.calls[k], before + [it])
    ensures forall j :: 0 <= j <= |before| && Live((before + [it])[j]) ==> Owned(t, pending + {index}, j)
  {
    var items := before + [it];
    forall k | k in pending + {index} ensures k in t.calls && CallFollows(t.calls[k], items) {
      if k != index { assert CallFollows(c.calls[k], before); }
    }
    forall j | 0 <= j <= |before| && Live(items[j]) ensures Owned(t, pending + {index}, j) {
      if j == |before| {
        assert t.calls[index].outputIndex == j;
      } else {
        assert items[j] == before[j];
        assert Owned(c, pending, j);
        var k :| k in pending && k in c.calls && c.calls[k].outputIndex == j;
        assert t.calls[k] == c.calls[k];
      }
    }
  }

  lemma {:induction false} LastGrownFollows(cfg: Config, s: Stream, items: seq<Item>, pending: set<int>, t: Stream,
                                            it: Item)
    requires Follows(cfg, s, items, pending) && !s.active.Idle?
    requires t.outputIndex == s.outputIndex && t.calls == s.calls && !t.active.Idle?
    requires items != [] && !items[|items| - 1].kind.NewCall? && !it.kind.NewCall?
    requires ActiveFollows(cfg, t.active, Last(items, it))
    requires Replay(cfg, t.log) == Some(Client(2, Last(items, it), false))
    ensures Follows(cfg, t, Last(items, it), pending)
  {
    forall k | k in pending ensures CallFollows(t.calls[k], Last(items, it)) {
      assert CallFollows(s.calls[k], items);
    }
    forall j | 0 <= j < |items| && Last(items, it)[j].kind.NewCall? && !Last(items, it)[j].phase.Finished?
      ensures Owned(t, pending, j)
    {
      assert Owned(s, pending, j);
    }
  }

  lemma {:induction false} ThinkFollows(cfg: Config, s: Stream, items: seq<Item>, pending: set<int>, text: string)
    returns (items': seq<Item>)
    requires Follows(cfg, s, items, pending)
    ensures Follows(cfg, Think(cfg, s, text), items', pending)
  {
    if s.active.Thinking? {
      items' := ThoughtFollows(cfg, s, items, pending, text);
    } else {
      var before := OpenReasoningFollows(cfg, s, items, pending);
      items' := ThoughtFollows(cfg, OpenReasoning(cfg, s), before, pending, text);
    }
  }

  lemma {:induction false} ThoughtFollows(cfg: Config, o: Stream, before: seq<Item>, pending: set<int>, text: string)
    returns (items: seq<Item>)
    requires Follows(cfg, o, before, pending) && o.active.Thinking?
    ensures Follows(cfg, Think(cfg, o, text), items, pending)
  {
    var it := before[|before| - 1];
    assert Last(before, it) == before;
    var grown := o.(active := Thinking(o.active.id, o.active.text + text));
    if cfg.exposeReasoning {
      FeedLast(cfg, grown, before, it, SummaryTextDelta(o.outputIndex - 1, it.id, text));
      it := it.(text := it.text + text);
    }
    items := Last(before, it);
    LastGrownFollows(cfg, o, before, pending, Think(cfg, o, text), it);
  }

  lemma {:induction false} SpeakFollows(cfg: Config, s: Stream, items: seq<Item>, pending: set<int>, text: string)
    returns (items': seq<Item>)
    requires Follows(cfg, s, items, pending)
    ensures Follows(cfg, Speak(cfg, s, text), items', pending)
  {
    if s.active.Speaking? {
      items' := WordFollows(cfg, s, items, pending, text);
    } else {
      var before := OpenMessageFollows(cfg, s, items, pending);
      items' := WordFollows(cfg, OpenMessage(cfg, s), before, pending, text);
    }
  }

  lemma {:induction false} WordFollows(cfg: Config, o: Stream, before: seq<Item>, pending: set<int>, text: string)
    returns (items: seq<Item>)
    requires Follows(cfg, o, before, pending) && o.active.Speaking?
    ensures Follows(cfg, Speak(cfg, o, text), items, pending)
  {
    var it := before[|before| - 1];
    assert Last(before, it) == before;
    var grown := o.(active := Speaking(o.active.id, o.active.text + text, o.active.annotations));
    FeedLast(cfg, grown, before, it, OutputTextDelta(o.outputIndex - 1, it.id, text));
    it := it.(text := it.text + text);
    items := Last(before, it);
    LastGrownFollows(cfg, o, before, pending, Speak(cfg, o, text), it);
  }

  lemma {:induction false} NoteFollows(cfg: Config, o: Stream, before: seq<Item>, pending: set<int>,
                                       note: ChatAnnotation)
    returns (items: seq<Item>)
    requires Follows(cfg, o, before, pending) && o.active.Speaking?
    ensures Follows(cfg, Annotate(cfg, o, note), items, pending)
  {
    var it := before[|before| - 1];
    assert Last(before, it) == before;
    var a := TranslateAnnotation(note);
    var grown := o.(active := Speaking(o.active.id, o.active.text, o.active.annotations + [a]));
    FeedLast(cfg, grown, before, it, AnnotationAdded(o.outputIndex - 1, it.id, |it.notes|, a));
    it := it.(notes := it.notes + [a]);
    items := Last(before, it);
    LastGrownFollows(cfg, o, before, pending, Annotate(cfg, o, note), it);
  }

  lemma {:induction false} AnnotateFollows(cfg: Config, s: Stream, items: seq<Item>, pending: set<int>,
                                           note: ChatAnnotation)
    returns (items': seq<Item>)
    requires Follows(cfg, s, items, pending)
    ensures Follows(cfg, Annotate(cfg, s, note), items', pending)
  {
    if s.active.Speaking? {
      items' := NoteFollows(cfg, s, items, pending, note);
    } else {
      var before := OpenMessageFollows(cfg, s, items, pending);
      items' := NoteFollows(cfg, OpenMessage(cfg, s), before, pending, note);
    }
  }

  lemma {:induction false} NameFollows(cfg: Config, s: Stream, items: seq<Item>, pending: set<int>, index: int,
                                       name: string)
    requires Follows(cfg, s, items, pending) && index in s.calls && s.calls[index].name == ""
    ensures Follows(cfg, s.(calls := s.calls[index := s.calls[index].(name := name)]), items, pending)
  {
    var t := s.(calls := s.calls[index := s.calls[index].(name := name)]);
    forall k | k in pending ensures CallFollows(t.calls[k], items) {
      assert CallFollows(s.calls[k], items);
    }
    OwnersKept(s, t, items, pending);
  }

  lemma {:induction false} OwnersKept(s: Stream, t: Stream, items: seq<Item>, pending: set<int>)
    requires forall k :: k in s.calls ==> k in t.calls && t.calls[k].outputIndex == s.calls[k].outputIndex
    ensures forall j :: Owned(s, pending, j) ==> Owned(t, pending, j)
  {
    forall j | Owned(s, pending, j) ensures Owned(t, pending, j) {
      var k :| k in pending && k in s.calls && s.calls[k].outputIndex == j;
      assert k in t.calls && t.calls[k].outputIndex == j;
    }
  }

  lemma {:induction false} ExtendFollows(cfg: Config, s: Stream, items: seq<Item>, pending: set<int>, index: int,
                                         fragment: string)
    returns (items': seq<Item>)
    requires Follows(cfg, s, items, pending) && index in pending
    ensures Follows(cfg, ExtendCall(s, index, fragment), items', pending)
  {
    if fragment == "" {
      return items;
    }
    var i := s.calls[index].outputIndex;
    assert CallFollows(s.calls[index], items);
    var call := s.calls[index].(arguments := s.calls[index].arguments + fragment);
    var e := ArgumentsDelta(i, call.itemId, fragment);
    var grown := s.(calls := s.calls[index := call]);
    Feed(cfg, grown, items, e);
    items' := items[i := items[i].(text := items[i].text + fragment)];
    var t := ExtendCall(s, index, fragment);
    forall k | k in pending ensures CallFollows(t.calls[k], items') {
      assert CallFollows(s.calls[k], items);
    }
    OwnersKept(s, t, items, pending);
    forall j | 0 <= j < |items'| && items'[j].kind.NewCall? && !items'[j].phase.Finished? ensures Owned(t, pending, j) {
      assert Owned(s, pending, j);
    }
  }

  lemma {:induction false} EnsureFollows(cfg: Config, s: Stream, items: seq<Item>, index: int, id: Option<string>,
                                         name: Option<string>)
    returns (items': seq<Item>)
    requires Follows(cfg, s, items, s.calls.Keys)
    ensures Follows(cfg, EnsureCall(cfg, s, index, id, name), items', EnsureCall(cfg, s, index, id, name).calls.Keys)
  {
    var pending, o := s.calls.Keys, EnsureCall(cfg, s, index, id, name);
    items' := items;
    if index !in s.calls {
      items' := OpenCallFollows(cfg, s, items, pending, index, id, name);
      assert o.calls.Keys == pending + {index} by { CloseKeepsCalls(cfg, s); }
    } else if name.Some? && name.value != "" && s.calls[index].name == "" {
      NameFollows(cfg, s, items, pending, index, name.value);
      assert o.calls.Keys == pending;
    }
  }

  lemma {:induction false} AdvanceFollows(cfg: Config, s: Stream, items: seq<Item>, step: Step)
    returns (items': seq<Item>)
    requires Follows(cfg, s, items, s.calls.Keys)
    ensures Follows(cfg, Advance(cfg, s, step), items', Advance(cfg, s, step).calls.Keys)
  {
    var pending := s.calls.Keys;
    match step {
      case UsageStep(_) => items' := items; UntouchedFollows(cfg, s, items, pending, Advance(cfg, s, step));
      case FinishStep(_) => items' := items; UntouchedFollows(cfg, s, items, pending, Advance(cfg, s, step));
      case ReasonStep(text) => items' := ThinkFollows(cfg, s, items, pending, text);
      case TextStep(text) => items' := SpeakFollows(cfg, s, items, pending, text);
      case NoteStep(note) => items' := AnnotateFollows(cfg, s, items, pending, note);
      case CallStep(index, id, name, fragment) =>
        var o := EnsureCall(cfg, s, index, id, name);
        var before := EnsureFollows(cfg, s, items, index, id, name);
        items' := ExtendFollows(cfg, o, before, o.calls.Keys, index, fragment);
        assert ExtendCall(o, index, fragment).calls.Keys == o.calls.Keys;
    }
  }

  lemma {:induction false} CloseKeepsCalls(cfg: Config, s: Stream)
    ensures CloseActive(cfg, s).calls == s.calls && CloseActive(cfg, s).active.Idle?
  {
  }

  lemma {:induction false} UntouchedFollows(cfg: Config, s: Stream, items: seq<Item>, pending: set<int>, t: Stream)
    requires Follows(cfg, s, items, pending)
    requires t.log == s.log && t.calls == s.calls && t.active == s.active && t.outputIndex == s.outputIndex
    ensures Follows(cfg, t, items, pending)
  {
    OwnersKept(s, t, items, pending);
  }

  lemma {:induction false} AdvanceAllFollows(cfg: Config, steps: seq<Step>) returns (items: seq<Item>)
    ensures Follows(cfg, AdvanceAll(cfg, Opening(cfg), steps), items, AdvanceAll(cfg, Opening(cfg), steps).calls.Keys)
  {
    if steps == [] {
      items := [];
      OpeningAccepted(cfg);
    } else {
      var before := AdvanceAllFollows(cfg, steps[..|steps| - 1]);
      items := AdvanceFollows(cfg, AdvanceAll(cfg, Opening(cfg), steps[..|steps| - 1]), before, steps[|steps| - 1]);
    }
  }

  lemma {:induction false} OpeningAccepted(cfg: Config)
    ensures Replay(cfg, Opening(cfg).log) == Some(Client(2, [], false))
  {
    var s := Stream(0, 1, Idle, map[], [], None, None, []);
    var shot := SnapshotOf(cfg, s, InFlight);
    assert Replay(cfg, s.log) == Some(Client(0, [], false));
    ReplaySnoc(cfg, s, Created(shot));
    assert Receive(cfg, Client(0, [], false), Created(shot)) == Some(Client(1, [], false));
    ReplaySnoc(cfg, Emit(s, Created(shot)), InProgress(shot));
    assert Receive(cfg, Client(1, [], false), InProgress(shot)) == Some(Client(2, [], false));
  }

  // ---- finishing -------------------------------------------------------------------------

  lemma {:induction false} FinishCallFollows(cfg: Config, s: Stream, items: seq<Item>, pending: set<int>, k: int)
    returns (items': seq<Item>)
    requires Follows(cfg, s, items, pending) && k in pending
    ensures Follows(cfg, FinishCall(cfg, s, s.calls[k]), items', pending - {k})
  {
    var call := s.calls[k];
    var i := call.outputIndex;
    assert CallFollows(call, items);
    var item := CallItemOf(cfg, call);
    var e1 := ArgumentsDone(i, call.itemId, item.arguments);
    var e2 := ItemDone(i, call.itemId, item);
    Feed(cfg, s, items, e1);
    var mid := items[i := items[i].(phase := TextClosed, text := item.arguments)];
    var told := Emit(s, e1);
    Feed(cfg, told.(output := told.output + [item]), mid, e2);
    items' := items[i := mid[i].(phase := Finished(item))];
    assert mid[i := mid[i].(phase := Finished(item))] == items';
    var t := FinishCall(cfg, s, call);
    forall l | l in pending - {k} ensures CallFollows(t.calls[l], items') {
      assert CallFollows(s.calls[l], items);
    }
    forall j | 0 <= j < |items'| && items'[j].kind.NewCall? && !items'[j].phase.Finished?
      ensures Owned(t, pending - {k}, j)
    {
      assert Owned(s, pending, j);
      var l :| l in pending && l in s.calls && s.calls[l].outputIndex == j;
      assert l in pending - {k} && t.calls[l].outputIndex == j;
    }
  }

  lemma {:induction false} FinishCallsFollows(cfg: Config, s: Stream, items: seq<Item>, pending: set<int>,
                                              order: seq<int>)
    returns (items': seq<Item>)
    requires Follows(cfg, s, items, pending)
    requires forall k :: k in pending <==> k in order
    requires forall i, j :: 0 <= i < j < |order| ==> order[i] != order[j]
    requires forall i :: 0 <= i < |order| ==> order[i] in s.calls
    ensures Follows(cfg, FinishCalls(cfg, s, order), items', {})
    ensures FinishCalls(cfg, s, order).active == s.active
    decreases |order|
  {
    if order == [] {
      assert forall k :: k in pending ==> k in order;
      assert pending == {};
      items' := items;
    } else {
      var k := order[0];
      assert k in order;
      var mid := FinishCallFollows(cfg, s, items, pending, k);
      forall l ensures l in pending - {k} <==> l in order[1..] {
        if l in order && l != k { var i :| 0 <= i < |order| && order[i] == l; assert order[1..][i - 1] == l; }
        if l in order[1..] { var i :| 0 <= i < |order[1..]| && order[1..][i] == l; assert order[i + 1] == l; }
      }
      items' := FinishCallsFollows(cfg, FinishCall(cfg, s, s.calls[k]), mid, pending - {k}, order[1..]);
    }
  }

  lemma {:induction false} SettleFollows(cfg: Config, s: Stream, items: seq<Item>) returns (items': seq<Item>)
    requires Follows(cfg, s, items, s.calls.Keys)
    ensures Follows(cfg, Settle(cfg, s), items', {})
    ensures Settle(cfg, s).active.Idle?
  {
    var mid := CloseFollows(cfg, s, items, s.calls.Keys);
    var c := CloseActive(cfg, s);
    CloseKeepsCalls(cfg, s);
    items' := FinishCallsFollows(cfg, c, mid, c.calls.Keys, Ascending(c.calls.Keys));
  }

  /** A log the client accepts from greeting to terminal event. */
  ghost predicate CompleteLog(cfg: Config, log: seq<Event>, items: seq<Item>) {
    Replay(cfg, log) == Some(Client(2, items, true)) && AllFinished(items)
  }

  /** Every stream, however chunked and however it ends, is accepted to its end with every
      announced item finished and rebuilt from its deltas. */
  lemma {:induction false} EveryStreamAccepted(cfg: Config, extract: bool, chunks: seq<Chunk>, ending: Ending)
    returns (items: seq<Item>)
    ensures CompleteLog(cfg, Piped(cfg, extract, chunks, ending).log, items)
    ensures |items| == Piped(cfg, extract, chunks, ending).outputIndex
  {
    var steps := AllSteps(extract, chunks);
    var s := AdvanceAll(cfg, Opening(cfg), steps);
    var before := AdvanceAllFollows(cfg, steps);
    items := SettleFollows(cfg, s, before);
    TerminalAccepted(cfg, Settle(cfg, s), items, ending);
  }

  lemma {:induction false} TerminalAccepted(cfg: Config, t: Stream, items: seq<Item>, ending: Ending)
    requires Follows(cfg, t, items, {}) && t.active.Idle?
    ensures CompleteLog(cfg, Terminated(cfg, t, ending).log, items)
  {
    forall j | 0 <= j < |items| ensures items[j].phase.Finished? {
      assert !Owned(t, {}, j);
    }
    match ending {
      case Ended => ReplaySnoc(cfg, t, Completed(SnapshotOf(cfg, t, Complete)));
      case Threw(message) => ReplaySnoc(cfg, t, Failed(SnapshotOf(cfg, t, Broken(message))));
    }
  }
}
