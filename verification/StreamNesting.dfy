/** What acceptance by the client means event by event: each item's events lie between its one
    `added` and its one `done`, under its id, and the item in that `done` is of the kind announced
    and made of the deltas and annotations streamed for it. */
module StreamNesting {
  import opened Core
  import opened ResponseTypes
  import opened StreamMachine
  import opened StreamProtocol

  /** Event e, if it concerns item i at all, comes at or after a, under the item's id. */
  ghost predicate Belongs(log: seq<Event>, id: string, i: int, a: int, e: int) {
    0 <= e < |log| && Index(log[e]) == i && i >= 0 ==> a <= e && log[e].id == id && (log[e].ItemAdded? <==> e == a)
  }

  /** Item i was added at a and is not done yet. */
  ghost predicate Alive(log: seq<Event>, id: string, i: int, a: int) {
    && 0 <= a < |log| && log[a].ItemAdded? && log[a].index == i
    && forall e :: Belongs(log, id, i, a, e) && (0 <= e < |log| && Index(log[e]) == i ==> !log[e].ItemDone?)
  }

  /** Item i was added at a and done at d; nothing about it lies outside. */
  ghost predicate Lifetime(log: seq<Event>, id: string, i: int, a: int, d: int) {
    && 0 <= a < d < |log| && log[a].ItemAdded? && log[a].index == i && log[d].ItemDone? && log[d].index == i
    && forall e :: Belongs(log, id, i, a, e)
         && (0 <= e < |log| && Index(log[e]) == i ==> e <= d && (log[e].ItemDone? <==> e == d))
  }

  /** The client's item is what the log says: begun as announced, and done as the `done` event has it. */
  ghost predicate Lives(log: seq<Event>, it: Item, i: int) {
    if it.phase.Finished? then
      exists a, d :: Lifetime(log, it.id, i, a, d) && log[a].added == it.kind && log[d].item == it.phase.item
    else exists a :: Alive(log, it.id, i, a) && log[a].added == it.kind
  }

  /** The deltas streamed for item i, in order. */
  function DeltasOf(log: seq<Event>, i: int): string {
    if log == [] then ""
    else
      var e := log[|log| - 1];
      DeltasOf(log[..|log| - 1], i)
      + (if (e.SummaryTextDelta? || e.OutputTextDelta? || e.ArgumentsDelta?) && e.index == i then e.delta else "")
  }

  /** The annotations streamed for item i, in order. */
  function NotesOf(log: seq<Event>, i: int): seq<Annotation> {
    if log == [] then []
    else
      var e := log[|log| - 1];
      NotesOf(log[..|log| - 1], i) + (if e.AnnotationAdded? && e.index == i then [e.annotation] else [])
  }

  function TextOf(cfg: Config, log: seq<Event>, i: int, salvaged: bool): string {
    if salvaged then cfg.Salvaged(DeltasOf(log, i)) else DeltasOf(log, i)
  }

  /** The item's text and annotations against those streamed; done arguments are salvaged ones. */
  predicate TextMatches(cfg: Config, log: seq<Event>, it: Item, i: int) {
    && it.text == TextOf(cfg, log, i, it.kind.NewCall? && !it.phase.Receiving?)
    && it.notes == NotesOf(log, i)
  }

  /** A final item is of the kind announced, under its id, and holds this text and these
      annotations; hidden reasoning shows none. */
  predicate FinalIs(cfg: Config, added: NewItem, id: string, item: OutputItem, text: string, notes: seq<Annotation>) {
    && item.id == id
    && match added
       case NewReasoning =>
         && item.ReasoningItem?
         && if cfg.exposeReasoning then item.summary == [text] && item.encrypted == text
             else item.summary == [] && text == ""
       case NewMessage => item == MessageItem(id, text, notes)
       case NewCall(callId, name, _) =>
         item.CallItem? && item.callId == callId && item.arguments == text && (name == "" || item.name == name)
  }

  predicate FinalMatches(cfg: Config, it: Item) {
    it.phase.Finished? ==> FinalIs(cfg, it.kind, it.id, it.phase.item, it.text, it.notes)
  }

  ghost predicate Greeted(log: seq<Event>, c: Client) {
    && (c.greetings == 0 ==> log == [] && c.items == [] && !c.over)
    && (c.greetings == 1 ==> |log| == 1 && log[0].Created? && c.items == [] && !c.over)
    && (c.greetings == 2 ==> |log| >= 2 && log[0].Created? && log[1].InProgress?)
    && c.greetings <= 2
    && (c.over ==> |log| >= 3 && Terminal(log[|log| - 1]))
    && (forall e :: 2 <= e < |log| - (if c.over then 1 else 0) ==> 0 <= Index(log[e]) < |c.items|)
  }

  ghost predicate Explained(cfg: Config, log: seq<Event>, c: Client) {
    && Greeted(log, c)
    && (forall i :: 0 <= i < |c.items| ==>
          Lives(log, c.items[i], i) && TextMatches(cfg, log, c.items[i], i) && FinalMatches(cfg, c.items[i]))
  }

  lemma {:induction false} OthersLive(log: seq<Event>, e: Event, it: Item, i: int)
    requires i >= 0 && Lives(log, it, i) && Index(e) != i
    ensures Lives(log + [e], it, i)
  {
    if it.phase.Finished? {
      var a, d :| Lifetime(log, it.id, i, a, d) && log[a].added == it.kind && log[d].item == it.phase.item;
      forall k ensures Belongs(log, it.id, i, a, k) ==> Belongs(log + [e], it.id, i, a, k) { }
      assert Lifetime(log + [e], it.id, i, a, d);
    } else {
      var a :| Alive(log, it.id, i, a) && log[a].added == it.kind;
      assert Alive(log + [e], it.id, i, a);
    }
  }

  lemma {:induction false} OthersText(cfg: Config, log: seq<Event>, e: Event, it: Item, i: int)
    requires i >= 0 && TextMatches(cfg, log, it, i) && Index(e) != i
    ensures TextMatches(cfg, log + [e], it, i)
  {
    assert (log + [e])[..|log|] == log;
    EmptyEnds(DeltasOf(log, i));
    EmptyEnds(NotesOf(log, i));
  }

  lemma {:induction false} NoDeltasYet(log: seq<Event>, i: int)
    requires i >= 0 && forall e :: 0 <= e < |log| ==> Index(log[e]) != i
    ensures DeltasOf(log, i) == "" && NotesOf(log, i) == []
  {
    if log != [] {
      var init := log[..|log| - 1];
      forall e | 0 <= e < |init| ensures Index(init[e]) != i { assert init[e] == log[e]; }
      NoDeltasYet(init, i);
      assert Index(log[|log| - 1]) != i;
    }
  }

  lemma {:induction false} FedLives(cfg: Config, log: seq<Event>, it: Item, i: int, e: Event)
    requires i >= 0 && Lives(log, it, i) && !it.phase.Finished?
    requires Index(e) == i && !e.ItemAdded? && e.id == it.id && Fed(cfg, it, e).Some?
    ensures Lives(log + [e], Fed(cfg, it, e).value, i)
  {
    var longer := log + [e];
    var a :| Alive(log, it.id, i, a) && log[a].added == it.kind;
    forall k ensures Belongs(longer, it.id, i, a, k) {
      assert Belongs(log, it.id, i, a, k);
    }
    if e.ItemDone? {
      assert Lifetime(longer, it.id, i, a, |log|);
    } else {
      assert Alive(longer, it.id, i, a);
    }
  }

  lemma {:induction false} FedText(cfg: Config, log: seq<Event>, it: Item, i: int, e: Event)
    requires i >= 0 && TextMatches(cfg, log, it, i) && Index(e) == i && !e.ItemAdded? && Fed(cfg, it, e).Some?
    ensures TextMatches(cfg, log + [e], Fed(cfg, it, e).value, i)
  {
    assert (log + [e])[..|log|] == log;
    EmptyEnds(DeltasOf(log, i));
    EmptyEnds(NotesOf(log, i));
  }

  lemma {:induction false} FedFinal(cfg: Config, it: Item, e: Event)
    requires Fed(cfg, it, e).Some?
    ensures !it.phase.Finished? && FinalMatches(cfg, Fed(cfg, it, e).value)
  {
  }

  lemma {:induction false} FedExplained(cfg: Config, log: seq<Event>, it: Item, i: int, e: Event)
    requires i >= 0 && Lives(log, it, i) && TextMatches(cfg, log, it, i)
    requires Index(e) == i && !e.ItemAdded? && e.id == it.id && Fed(cfg, it, e).Some?
    ensures var it' := Fed(cfg, it, e).value;
            Lives(log + [e], it', i) && TextMatches(cfg, log + [e], it', i) && FinalMatches(cfg, it')
  {
    FedFinal(cfg, it, e);
    FedLives(cfg, log, it, i, e);
    FedText(cfg, log, it, i, e);
  }

  lemma {:induction false} AddedExplained(cfg: Config, log: seq<Event>, c: Client, e: Event)
    requires Explained(cfg, log, c) && !c.over && c.greetings == 2 && e.ItemAdded? && e.index == |c.items|
    ensures var it := Item(e.id, e.added, if e.added.NewCall? then Receiving else Announced, "", []);
            Lives(log + [e], it, e.index) && TextMatches(cfg, log + [e], it, e.index)
  {
    var i := e.index;
    var longer := log + [e];
    assert forall k :: 0 <= k < |log| ==> Index(log[k]) != i;
    NoDeltasYet(log, i);
    assert longer[..|log|] == log;
    assert Alive(longer, e.id, i, |log|);
  }

  lemma {:induction false} ReceiveExplained(cfg: Config, log: seq<Event>, c: Client, e: Event)
    requires Explained(cfg, log, c) && Receive(cfg, c, e).Some?
    ensures Explained(cfg, log + [e], Receive(cfg, c, e).value)
  {
    var c' := Receive(cfg, c, e).value;
    var longer := log + [e];
    forall i | 0 <= i < |c'.items|
      ensures Lives(longer, c'.items[i], i) && TextMatches(cfg, longer, c'.items[i], i)
          && FinalMatches(cfg, c'.items[i])
    {
      if Index(e) != i {
        assert c'.items[i] == c.items[i];
        OthersLive(log, e, c.items[i], i);
        OthersText(cfg, log, e, c.items[i], i);
      } else if e.ItemAdded? {
        AddedExplained(cfg, log, c, e);
      } else {
        FedExplained(cfg, log, c.items[i], i, e);
      }
    }
  }

  lemma {:induction false} ReplayExplained(cfg: Config, log: seq<Event>)
    requires Replay(cfg, log).Some?
    ensures Explained(cfg, log, Replay(cfg, log).value)
  {
    if log != [] {
      var init := log[..|log| - 1];
      ReplayExplained(cfg, init);
      ReceiveExplained(cfg, init, Replay(cfg, init).value, log[|log| - 1]);
      assert init + [log[|log| - 1]] == log;
    }
  }

  /** Item i begins at a and is done at d, and what is done is what was streamed for it. */
  ghost predicate Told(cfg: Config, log: seq<Event>, i: int, a: int, d: int) {
    && 0 <= a < |log| && log[a].ItemAdded? && Lifetime(log, log[a].id, i, a, d)
    && FinalIs(cfg, log[a].added, log[a].id, log[d].item,
               TextOf(cfg, log, i, log[a].added.NewCall?), NotesOf(log, i))
  }

  ghost predicate ToldOnce(cfg: Config, log: seq<Event>, i: int) {
    exists a, d :: Told(cfg, log, i, a, d)
  }

  /** The shape of a complete log of n items, in terms of its events alone. */
  ghost predicate WellNested(cfg: Config, log: seq<Event>, n: nat) {
    && |log| >= 3
    && log[0].Created? && log[1].InProgress?
    && Terminal(log[|log| - 1])
    && (forall e :: 2 <= e < |log| - 1 ==> 0 <= Index(log[e]) < n)
    && (forall i :: 0 <= i < n ==> ToldOnce(cfg, log, i))
  }

  lemma {:induction false} FinishedTold(cfg: Config, log: seq<Event>, it: Item, i: int)
    requires i >= 0 && it.phase.Finished? && Lives(log, it, i) && TextMatches(cfg, log, it, i) && FinalMatches(cfg, it)
    ensures ToldOnce(cfg, log, i)
  {
    var a, d :| Lifetime(log, it.id, i, a, d) && log[a].added == it.kind && log[d].item == it.phase.item;
    assert Belongs(log, it.id, i, a, a);
    assert Told(cfg, log, i, a, d);
  }

  /** Created, in progress, exactly one terminal event and it is last; each output index below
      the count has one `added` and one later `done` under the same id with all its events
      between; and the item in that `done` is of the kind announced and is its deltas and
      annotations put together. */
  lemma {:induction false} EveryStreamWellNested(cfg: Config, extract: bool, chunks: seq<Chunk>, ending: Ending)
    ensures var t := Piped(cfg, extract, chunks, ending); WellNested(cfg, t.log, t.outputIndex)
  {
    var items := EveryStreamAccepted(cfg, extract, chunks, ending);
    var log := Piped(cfg, extract, chunks, ending).log;
    ReplayExplained(cfg, log);
    assert Greeted(log, Client(2, items, true));
    forall e | 2 <= e < |log| - 1 ensures 0 <= Index(log[e]) < |items| { }
    forall i | 0 <= i < |items| ensures ToldOnce(cfg, log, i) {
      FinishedTold(cfg, log, items[i], i);
    }
  }
}
