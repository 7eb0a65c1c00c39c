/** A conversation sent out and echoed back: replies translated to Responses items, then
    replayed through the request assembler, rebuild the chat history they came from. */
module RoundTrip {
  import opened Core
  import opened ChatTypes
  import opened Pairing
  import opened Repair
  import opened ReqToChat
  import opened ResponseTypes
  import opened RespToResponses
  import StreamMachine
  import StreamOrder
  import StreamTwoRuns

  // ---- output items as the client echoes them --------------------------------------------

  function AsSummary(summary: seq<string>): seq<SummaryPart> {
    seq(|summary|, i requires 0 <= i < |summary| => SummaryText(summary[i]))
  }

  function AsInput(item: OutputItem): InputItem {
    match item
    case ReasoningItem(_, summary, encrypted) => Reasoning(AsSummary(summary), Some(encrypted))
    case MessageItem(_, text, _) => Message(Assistant, PartList([OutputText(text)]))
    case CallItem(_, callId, name, arguments, _) => FunctionCall(callId, name, Some(arguments))
  }

  function AsInputs(items: seq<OutputItem>): (out: seq<InputItem>)
    ensures |out| == |items|
    ensures forall i :: 0 <= i < |items| ==> out[i] == AsInput(items[i])
  {
    seq(|items|, i requires 0 <= i < |items| => AsInput(items[i]))
  }

  /** An item without generated id and visible summary. */
  function Bare(item: OutputItem): OutputItem {
    StreamTwoRuns.EraseItem(Anonymous(item))
  }

  predicate SameBare(a: seq<OutputItem>, b: seq<OutputItem>) {
    |a| == |b| && forall i :: 0 <= i < |a| ==> Bare(a[i]) == Bare(b[i])
  }

  lemma {:induction false} AbsorbAppend(env: Outside, a: Assembly, x: seq<InputItem>, y: seq<InputItem>)
    ensures AbsorbAll(env, a, x + y) == AbsorbAll(env, AbsorbAll(env, a, x), y)
    decreases |x|
  {
    if x == [] {
      assert x + y == y;
    } else {
      assert (x + y)[1..] == x[1..] + y;
      AbsorbAppend(env, Absorb(env, a, x[0]), x[1..], y);
    }
  }

  /** A reasoning item that still shows its summary, or whose text is pinned. */
  predicate Recoverable(item: OutputItem) {
    item.ReasoningItem? ==> item.encrypted != "" || item.summary == [] || item.summary == [item.encrypted]
  }

  lemma {:induction false} AbsorbIgnoresDress(env: Outside, a: Assembly, x: OutputItem, y: OutputItem)
    requires Recoverable(x) && Recoverable(y) && Bare(x) == Bare(y)
    ensures Absorb(env, a, AsInput(x)) == Absorb(env, a, AsInput(y))
  {
    if x.ReasoningItem? && x.encrypted == "" {
      assert SummaryTextOf([]) == "";
      assert [SummaryText("")][1..] == [] && SummaryTextOf([SummaryText("")]) == "";
      assert AsSummary([""]) == [SummaryText("")];
    }
  }

  lemma {:induction false} AbsorbAllIgnoresDress(env: Outside, a: Assembly, xs: seq<OutputItem>, ys: seq<OutputItem>)
    requires SameBare(xs, ys)
    requires forall i :: 0 <= i < |xs| ==> Recoverable(xs[i]) && Recoverable(ys[i])
    ensures AbsorbAll(env, a, AsInputs(xs)) == AbsorbAll(env, a, AsInputs(ys))
    decreases |xs|
  {
    if xs != [] {
      AbsorbIgnoresDress(env, a, xs[0], ys[0]);
      assert AsInputs(xs)[1..] == AsInputs(xs[1..]) && AsInputs(ys)[1..] == AsInputs(ys[1..]);
      AbsorbAllIgnoresDress(env, Absorb(env, a, AsInput(xs[0])), xs[1..], ys[1..]);
    }
  }

  // ---- one reply -------------------------------------------------------------------------

  /** Arguments after a round trip: unchanged when they parse, `{}` otherwise. */
  function ReplayedArguments(env: Outside, raw: string): string {
    if raw != "" && env.validJson(raw) then raw else "{}"
  }

  function ReplayedCalls(env: Outside, calls: seq<ToolCall>): (out: seq<ToolCall>)
    ensures |out| == |calls|
    ensures forall i :: 0 <= i < |calls| ==>
              out[i] == ToolCall(calls[i].id, calls[i].name, ReplayedArguments(env, calls[i].arguments))
  {
    seq(|calls|, i requires 0 <= i < |calls| =>
      ToolCall(calls[i].id, calls[i].name, ReplayedArguments(env, calls[i].arguments)))
  }

  predicate Empty(c: Completion) {
    c.content == "" && c.reasoning == "" && c.calls == []
  }

  /** The assistant message a reply comes back as. */
  function Rebuilt(env: Outside, c: Completion): ChatMessage {
    ChatMessage(
      Assistant,
      if c.content != "" then Some(Text(c.content)) else if c.calls == [] then Some(Text("")) else None,
      ReplayedCalls(env, c.calls),
      None,
      if c.reasoning == "" then None else Some(c.reasoning))
  }

  function Results(calls: seq<ToolCall>, outputs: seq<string>): (ms: seq<ChatMessage>)
    requires |outputs| == |calls|
    ensures |ms| == |calls|
    ensures forall i :: 0 <= i < |calls| ==> ms[i] == ToolMessage(calls[i].id, outputs[i])
  {
    seq(|calls|, i requires 0 <= i < |calls| => ToolMessage(calls[i].id, outputs[i]))
  }

  function OutputInputs(calls: seq<ToolCall>, outputs: seq<string>): (items: seq<InputItem>)
    requires |outputs| == |calls|
    ensures |items| == |calls|
    ensures forall i :: 0 <= i < |calls| ==> items[i] == FunctionCallOutput(calls[i].id, Whole(outputs[i]))
  {
    seq(|calls|, i requires 0 <= i < |calls| => FunctionCallOutput(calls[i].id, Whole(outputs[i])))
  }

  /** Both translators ask the same JSON parser. */
  ghost predicate Fits(cfg: Config, env: Outside) {
    env.validJson("{}") && forall s :: env.validJson(s) == cfg.validJson(s)
  }

  /** What the assembler holds once a reply's items have been taken in. */
  function Loaded(env: Outside, a: Assembly, c: Completion): Assembly {
    Assembly(
      a.done,
      if c.reasoning == "" then None else Some(c.reasoning),
      ReplayedCalls(env, c.calls),
      if c.content == "" then None else Some(c.content))
  }

  lemma {:induction false} TextPartsAbsorbed(env: Outside, text: string)
    requires text != ""
    ensures AssistantText(env, PartList([OutputText(text)])) == text
  {
    var parts := [OutputText(text)];
    assert parts[1..] == [];
    assert KeptParts(env, parts) == [TextPart(text)] && ImageUrls(parts) == [];
    assert [TextPart(text)][1..] == [] && TextOfParts([TextPart(text)]) == text + TextOfParts([]);
    assert text + "" == text;
  }

  lemma {:induction false} SpokenAbsorbed(cfg: Config, env: Outside, n: nat, a: Assembly, c: Completion)
    requires a.Idle()
    ensures AbsorbAll(env, a, AsInputs(SpokenItems(cfg, n, c))) == Loaded(env, a, c.(calls := []))
  {
    var r := if c.reasoning == "" then []
        else [ReasoningItem(cfg.ReasoningId(n), cfg.Summary(c.reasoning), c.reasoning)];
    var id := cfg.MessageId(if c.reasoning == "" then n else n + 1);
    var m := if c.content == "" then [] else [MessageItem(id, c.content, TranslateAll(c.annotations))];
    assert SpokenItems(cfg, n, c) == r + m;
    assert AsInputs(r + m) == AsInputs(r) + AsInputs(m);
    AbsorbAppend(env, a, AsInputs(r), AsInputs(m));
    var b := a.(reasoning := if c.reasoning == "" then None else Some(c.reasoning));
    assert AbsorbAll(env, a, AsInputs(r)) == b by {
      if r != [] { AbsorbOne(env, a, AsInputs(r)[0]); assert AsInputs(r) == [AsInputs(r)[0]]; }
    }
    assert AbsorbAll(env, b, AsInputs(m)) == b.(text := if c.content == "" then None else Some(c.content)) by {
      if m != [] {
        TextPartsAbsorbed(env, c.content);
        AbsorbOne(env, b, AsInputs(m)[0]);
        assert AsInputs(m) == [AsInputs(m)[0]];
      }
    }
    assert ReplayedCalls(env, []) == [];
  }

  lemma {:induction false} AbsorbOne(env: Outside, a: Assembly, item: InputItem)
    ensures AbsorbAll(env, a, [item]) == Absorb(env, a, item)
  {
    assert [item][1..] == [];
    assert AbsorbAll(env, Absorb(env, a, item), []) == Absorb(env, a, item);
  }

  lemma {:induction false} CallsAbsorbed(cfg: Config, env: Outside, n: nat, b: Assembly, calls: seq<ToolCall>)
    requires Fits(cfg, env)
    ensures AbsorbAll(env, b, AsInputs(CallsToItems(cfg, n, calls))) == b.(calls := b.calls + ReplayedCalls(env, calls))
    decreases |calls|
  {
    if calls == [] {
      assert b.calls + [] == b.calls;
    } else {
      var item := CallToItem(cfg, n, calls[0]);
      var more := CallsToItems(cfg, n + 1, calls[1..]);
      var call := ToolCall(calls[0].id, calls[0].name, ReplayedArguments(env, calls[0].arguments));
      assert AsInputs([item] + more)[1..] == AsInputs(more);
      assert Absorb(env, b, AsInput(item)) == b.(calls := b.calls + [call]);
      CallsAbsorbed(cfg, env, n + 1, b.(calls := b.calls + [call]), calls[1..]);
      assert ReplayedCalls(env, calls) == [call] + ReplayedCalls(env, calls[1..]);
      Regroup(b.calls, [call], ReplayedCalls(env, calls[1..]));
    }
  }

  lemma {:induction false} ReplyAbsorbed(cfg: Config, env: Outside, n: nat, a: Assembly, c: Completion)
    requires Fits(cfg, env) && a.Idle()
    ensures AbsorbAll(env, a, AsInputs(OutputOf(cfg, n, c))) == Loaded(env, a, c)
  {
    SpokenAbsorbed(cfg, env, n, a, c);
    var spoken := SpokenItems(cfg, n, c);
    CallsAfterSpoken(cfg, env, n + |spoken|, a, c, spoken, OutputOf(cfg, n, c));
  }

  lemma {:induction false} CallsAfterSpoken(cfg: Config, env: Outside, m: nat, a: Assembly, c: Completion,
                                            spoken: seq<OutputItem>, items: seq<OutputItem>)
    requires Fits(cfg, env) && AbsorbAll(env, a, AsInputs(spoken)) == Loaded(env, a, c.(calls := []))
    requires items == spoken + CallsToItems(cfg, m, c.calls)
    ensures AbsorbAll(env, a, AsInputs(items)) == Loaded(env, a, c)
  {
    var calls, half := CallsToItems(cfg, m, c.calls), Loaded(env, a, c.(calls := []));
    InputsAppend(spoken, calls);
    CallsAbsorbed(cfg, env, m, half, c.calls);
    LoadedCalls(env, a, c);
    AbsorbInTwo(env, a, AsInputs(spoken), half, AsInputs(calls), Loaded(env, a, c));
  }

  lemma {:induction false} AbsorbInTwo(env: Outside, a: Assembly, x: seq<InputItem>, b: Assembly, y: seq<InputItem>,
                                       t: Assembly)
    requires AbsorbAll(env, a, x) == b && AbsorbAll(env, b, y) == t
    ensures AbsorbAll(env, a, x + y) == t
  {
    AbsorbAppend(env, a, x, y);
  }

  lemma {:induction false} LoadedCalls(env: Outside, a: Assembly, c: Completion)
    ensures var b := Loaded(env, a, c.(calls := []));
      b.(calls := b.calls + ReplayedCalls(env, c.calls)) == Loaded(env, a, c)
  {
    assert ReplayedCalls(env, []) == [];
    EmptyEnds(ReplayedCalls(env, c.calls));
  }

  lemma {:induction false} InputsAppend(a: seq<OutputItem>, b: seq<OutputItem>)
    ensures AsInputs(a + b) == AsInputs(a) + AsInputs(b)
  {
  }

  lemma {:induction false} ResultsAbsorbed(env: Outside, b: Assembly, calls: seq<ToolCall>, outputs: seq<string>)
    requires b.Idle() && |outputs| == |calls|
    ensures AbsorbAll(env, b, OutputInputs(calls, outputs)) == b.(done := b.done + Results(calls, outputs))
    decreases |calls|
  {
    if calls == [] {
      assert b.done + [] == b.done;
    } else {
      var m := ToolMessage(calls[0].id, outputs[0]);
      assert OutputInputs(calls, outputs)[1..] == OutputInputs(calls[1..], outputs[1..]);
      ResultsAbsorbed(env, b.(done := b.done + [m]), calls[1..], outputs[1..]);
      assert Results(calls, outputs) == [m] + Results(calls[1..], outputs[1..]);
      Regroup(b.done, [m], Results(calls[1..], outputs[1..]));
    }
  }

  // ---- conversations ---------------------------------------------------------------------

  /** A user turn, or a reply: `items` is what some translation of it sent to the client and
      `outputs` the client's tool results, one per call. */
  datatype Turn = Ask(given: InputContent) | Reply(c: Completion, items: seq<OutputItem>, outputs: seq<string>)

  /** The items are the one-shot translation up to ids and visible summaries. */
  predicate Translates(cfg: Config, t: Turn) {
    t.Reply? ==>
      && SameBare(t.items, OutputOf(cfg, 0, t.c))
      && |t.outputs| == |t.c.calls|
      && "" !in CallIds(t.c.calls)
  }

  /** A reply without calls ends the agent's turn: the user speaks next. */
  predicate Alternates(turns: seq<Turn>) {
    forall i :: 0 < i < |turns| && turns[i].Reply? && turns[i - 1].Reply? ==> turns[i - 1].c.calls != []
  }

  function TurnInputs(t: Turn): seq<InputItem> {
    match t
    case Ask(given) => [Message(User, given)]
    case Reply(c, items, outputs) =>
      AsInputs(items) + (if |outputs| == |c.calls| then OutputInputs(c.calls, outputs) else [])
  }

  function TurnMessages(env: Outside, t: Turn): seq<ChatMessage> {
    match t
    case Ask(given) => [Plain(User, ToContent(env, given))]
    case Reply(c, _, outputs) =>
      if Empty(c) then []
      else [Rebuilt(env, c)] + (if |outputs| == |c.calls| then Results(c.calls, outputs) else [])
  }

  function Echoed(turns: seq<Turn>): seq<InputItem> {
    if turns == [] then [] else Echoed(turns[..|turns| - 1]) + TurnInputs(turns[|turns| - 1])
  }

  function Conversation(env: Outside, turns: seq<Turn>): seq<ChatMessage> {
    if turns == [] then [] else Conversation(env, turns[..|turns| - 1]) + TurnMessages(env, turns[|turns| - 1])
  }

  lemma {:induction false} OutputRecoverable(cfg: Config, n: nat, c: Completion)
    ensures forall i :: 0 <= i < |OutputOf(cfg, n, c)| && OutputOf(cfg, n, c)[i].ReasoningItem? ==>
              OutputOf(cfg, n, c)[i].encrypted != ""
  {
    CallItemsOnly(cfg, n + |SpokenItems(cfg, n, c)|, c.calls);
  }

  lemma {:induction false} CallItemsOnly(cfg: Config, n: nat, calls: seq<ToolCall>)
    ensures forall i :: 0 <= i < |calls| ==> CallsToItems(cfg, n, calls)[i].CallItem?
    decreases |calls|
  {
    if calls != [] { CallItemsOnly(cfg, n + 1, calls[1..]); }
  }

  lemma {:induction false} ReplyItemsAbsorbed(cfg: Config, env: Outside, a: Assembly, t: Turn)
    requires Fits(cfg, env) && a.Idle() && t.Reply? && Translates(cfg, t)
    ensures AbsorbAll(env, a, AsInputs(t.items)) == Loaded(env, a, t.c)
  {
    var canon := OutputOf(cfg, 0, t.c);
    OutputRecoverable(cfg, 0, t.c);
    forall i | 0 <= i < |canon| ensures Recoverable(t.items[i]) && Recoverable(canon[i]) {
      assert Bare(t.items[i]) == Bare(canon[i]);
    }
    AbsorbAllIgnoresDress(env, a, t.items, canon);
    ReplyAbsorbed(cfg, env, 0, a, t.c);
  }

  /** After a reply: everything flushed when it made calls, its turn pending when not. */
  lemma {:induction false} TurnAbsorbed(cfg: Config, env: Outside, a: Assembly, t: Turn)
    requires Fits(cfg, env) && Translates(cfg, t)
    requires t.Reply? ==> a.Idle()
    ensures var b := AbsorbAll(env, a, TurnInputs(t));
            && b.Flushed().done == a.Flushed().done + TurnMessages(env, t)
            && (b.Idle() || (t.Reply? && t.c.calls == []))
  {
    match t {
      case Ask(given) => AbsorbOne(env, a, Message(User, given));
      case Reply(c, items, outputs) =>
        AbsorbAppend(env, a, AsInputs(items), OutputInputs(c.calls, outputs));
        ReplyItemsAbsorbed(cfg, env, a, t);
        var loaded := Loaded(env, a, c);
        assert !Empty(c) ==> loaded.Turn() == Rebuilt(env, c);
        if c.calls == [] {
          assert OutputInputs(c.calls, outputs) == [];
          assert [Rebuilt(env, c)] + [] == [Rebuilt(env, c)] && a.done + [] == a.done;
        } else {
          FlushBeforeOutputs(env, loaded, c.calls, outputs);
          ResultsAbsorbed(env, loaded.Flushed(), c.calls, outputs);
          Regroup(a.done, [Rebuilt(env, c)], Results(c.calls, outputs));
        }
    }
  }

  /** The first result closes the pending turn. */
  lemma {:induction false} FlushBeforeOutputs(env: Outside, b: Assembly, calls: seq<ToolCall>, outputs: seq<string>)
    requires calls != [] && |outputs| == |calls|
    ensures AbsorbAll(env, b, OutputInputs(calls, outputs)) == AbsorbAll(env, b.Flushed(), OutputInputs(calls, outputs))
  {
    var first := OutputInputs(calls, outputs)[0];
    assert Absorb(env, b, first) == Absorb(env, b.Flushed(), first);
  }

  lemma {:induction false} ConversationAssembled(cfg: Config, env: Outside, turns: seq<Turn>)
    requires Fits(cfg, env) && Alternates(turns) && forall t :: t in turns ==> Translates(cfg, t)
    ensures var a := AbsorbAll(env, START, Echoed(turns));
            && a.Flushed().done == Conversation(env, turns)
            && (a.Idle() || (turns != [] && turns[|turns| - 1].Reply? && turns[|turns| - 1].c.calls == []))
  {
    if turns != [] {
      var init, last := turns[..|turns| - 1], turns[|turns| - 1];
      assert last in turns;
      forall t | t in init ensures t in turns { }
      assert Alternates(init);
      ConversationAssembled(cfg, env, init);
      var a := AbsorbAll(env, START, Echoed(init));
      assert last.Reply? ==> a.Idle() by {
        if last.Reply? && init != [] { assert init[|init| - 1] == turns[|turns| - 2]; }
      }
      TurnAbsorbed(cfg, env, a, last);
      AbsorbAppend(env, START, Echoed(init), TurnInputs(last));
    }
  }

  lemma {:induction false} TurnPaired(cfg: Config, env: Outside, t: Turn)
    requires Translates(cfg, t)
    ensures WellPaired(TurnMessages(env, t)) && CallIdsNonEmpty(TurnMessages(env, t))
  {
    if t.Ask? {
      BystandersPaired(TurnMessages(env, t));
    } else if !Empty(t.c) {
      ReplyPaired(env, t.c, t.outputs);
    }
  }

  lemma {:induction false} ReplyPaired(env: Outside, c: Completion, outputs: seq<string>)
    requires |outputs| == |c.calls| && "" !in CallIds(c.calls)
    ensures WellPaired([Rebuilt(env, c)] + Results(c.calls, outputs))
    ensures CallIdsNonEmpty([Rebuilt(env, c)] + Results(c.calls, outputs))
  {
    var m, run := Rebuilt(env, c), Results(c.calls, outputs);
    assert CallIds(m.toolCalls) == CallIds(c.calls);
    forall t | t in run ensures t.role.Tool? && t.toolCallId.Some? && t.toolCallId.value in Declared(m) {
      var i :| 0 <= i < |run| && run[i] == t;
      assert CallIds(c.calls)[i] in CallIds(c.calls);
    }
    var paid := set t | t in run && t.toolCallId.Some? :: t.toolCallId.value;
    forall id | id in Declared(m) ensures id in paid {
      var i :| 0 <= i < |c.calls| && CallIds(c.calls)[i] == id;
      assert run[i] in run;
    }
    assert Declared(m) - paid == {};
    RunPays(run, [], Declared(m), Declared(m));
    assert run + [] == run;
    PairedOpener(m, run);
  }

  lemma {:induction false} ConversationPaired(cfg: Config, env: Outside, turns: seq<Turn>)
    requires forall t :: t in turns ==> Translates(cfg, t)
    ensures WellPaired(Conversation(env, turns)) && CallIdsNonEmpty(Conversation(env, turns))
  {
    if turns != [] {
      var init, last := turns[..|turns| - 1], turns[|turns| - 1];
      assert last in turns;
      forall t | t in init ensures t in turns { }
      ConversationPaired(cfg, env, init);
      TurnPaired(cfg, env, last);
      PairedAppend(Conversation(env, init), TurnMessages(env, last), {}, {});
    }
  }

  /** Any conversation, replayed from its items, is rebuilt message for message: one assistant
      message per reply with its reasoning, content and calls, followed by its results. */
  lemma {:induction false} ConversationRoundTrip(cfg: Config, env: Outside, turns: seq<Turn>)
    requires Fits(cfg, env) && Alternates(turns) && forall t :: t in turns ==> Translates(cfg, t)
    ensures MessagesOf(env, Echoed(turns)) == Conversation(env, turns)
  {
    ConversationAssembled(cfg, env, turns);
    ConversationPaired(cfg, env, turns);
    RepairIdentity(Conversation(env, turns));
  }

  // ---- hiding reasoning does not change the history --------------------------------------

  lemma {:induction false} FinishSummarises(cfg: Config, s: StreamMachine.Stream, order: seq<int>)
    requires StreamOrder.Summarised(cfg, s.output) && forall i :: 0 <= i < |order| ==> order[i] in s.calls
    ensures StreamOrder.Summarised(cfg, StreamMachine.FinishCalls(cfg, s, order).output)
    decreases |order|
  {
    if order != [] {
      FinishSummarises(cfg, StreamMachine.FinishCall(cfg, s, s.calls[order[0]]), order[1..]);
    }
  }

  lemma {:induction false} PipeSummarises(cfg: Config, extract: bool, chunks: seq<StreamMachine.Chunk>,
                                          ending: StreamMachine.Ending)
    ensures StreamOrder.Summarised(cfg, StreamMachine.Piped(cfg, extract, chunks, ending).output)
  {
    var steps := StreamMachine.AllSteps(extract, chunks);
    var s := StreamMachine.AdvanceAll(cfg, StreamMachine.Opening(cfg), steps);
    StreamOrder.StepsSummarise(cfg, steps);
    StreamOrder.CloseSummarises(cfg, s);
    var c := StreamMachine.CloseActive(cfg, s);
    var order := StreamMachine.Ascending(c.calls.Keys);
    forall i | 0 <= i < |order| ensures order[i] in c.calls { assert order[i] in order; }
    FinishSummarises(cfg, c, order);
  }

  /** Whether reasoning was shown or hidden, the client's echo rebuilds the same history. */
  lemma {:induction false} HidingKeepsHistory(cfg: Config, env: Outside, extract: bool,
                                              chunks: seq<StreamMachine.Chunk>,
                                             ending: StreamMachine.Ending, before: Assembly)
    ensures AbsorbAll(env, before,
      AsInputs(StreamMachine.Piped(StreamTwoRuns.Shown(cfg), extract, chunks, ending).output))
         == AbsorbAll(env, before,
             AsInputs(StreamMachine.Piped(StreamTwoRuns.Hidden(cfg), extract, chunks, ending).output))
  {
    var shown := StreamMachine.Piped(StreamTwoRuns.Shown(cfg), extract, chunks, ending).output;
    var hidden := StreamMachine.Piped(StreamTwoRuns.Hidden(cfg), extract, chunks, ending).output;
    StreamTwoRuns.HidingOnlyErases(cfg, extract, chunks, ending);
    assert hidden == StreamTwoRuns.EraseItems(shown);
    PipeSummarises(StreamTwoRuns.Shown(cfg), extract, chunks, ending);
    PipeSummarises(StreamTwoRuns.Hidden(cfg), extract, chunks, ending);
    AbsorbAllIgnoresDress(env, before, shown, hidden);
  }
}
