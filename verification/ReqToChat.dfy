/** The request assembler: Responses input items folded into chat messages through a
    three-slot pending state (src/translate/reqToChat.ts). */
module ReqToChat {
  import opened Core
  import opened ChatTypes
  import opened Pairing
  import opened Repair

  const NO_THINKING: string := "(this turn ran without thinking mode)"

  // ---- input items -----------------------------------------------------------------------

  /** Text parts with a missing or non-string text are those with text "". */
  datatype InputPart = InputText(text: string) | OutputText(text: string) | InputImage(url: string) | OtherPart

  datatype InputContent = Whole(text: string) | PartList(parts: seq<InputPart>)

  datatype SummaryPart = SummaryText(text: string) | OtherSummary

  datatype InputItem =
    | Untyped(declaredRole: Option<Role>, text: string)
    | Message(role: Role, content: InputContent)
    | Reasoning(summary: seq<SummaryPart>, encrypted: Option<string>)
    | FunctionCall(callId: string, name: string, arguments: Option<string>)
    | FunctionCallOutput(callId: string, output: InputContent)
    | OtherItem

  /** What lies outside the translator: JSON.parse, the model's vision support and the
      wording of the notices that replace stripped images. */
  datatype Outside = Outside(
    validJson: string -> bool,
    supportsImages: bool,
    imageNotice: seq<string> -> string,
    outputNotice: nat -> string)

  /** An item without a `type` is promoted to a message when it names a role. */
  function Promoted(item: InputItem): InputItem {
    match item
    case Untyped(Some(role), text) =>
      Message(role, PartList([if role.Assistant? then OutputText(text) else InputText(text)]))
    case Untyped(None, _) => OtherItem
    case _ => item
  }

  function KeptParts(env: Outside, parts: seq<InputPart>): seq<ContentPart> {
    if parts == [] then []
    else
      var first :=
        match parts[0]
        case InputText(t) => if t == "" then [] else [TextPart(t)]
        case OutputText(t) => if t == "" then [] else [TextPart(t)]
        case InputImage(url) => if env.supportsImages then [ImagePart(url)] else []
        case OtherPart => [];
      first + KeptParts(env, parts[1..])
  }

  function ImageUrls(parts: seq<InputPart>): seq<string> {
    if parts == [] then []
    else (if parts[0].InputImage? then [parts[0].url] else []) + ImageUrls(parts[1..])
  }

  function TextOfParts(parts: seq<ContentPart>): string {
    if parts == [] then ""
    else (if parts[0].TextPart? then parts[0].text else "") + TextOfParts(parts[1..])
  }

  function ToContent(env: Outside, content: InputContent): Content {
    match content
    case Whole(text) => Text(text)
    case PartList(parts) =>
      var kept := KeptParts(env, parts);
      var dropped := if env.supportsImages then [] else ImageUrls(parts);
      var noted := if dropped == [] then kept else kept + [TextPart(env.imageNotice(dropped))];
      if forall p :: p in noted ==> p.TextPart? then Text(TextOfParts(noted))
      else if exists p :: p in noted && p.TextPart? then Parts(noted)
      else Parts(noted + [TextPart(" ")])
  }

  function OutputTextOf(parts: seq<InputPart>): string {
    if parts == [] then ""
    else (if parts[0].InputText? || parts[0].OutputText? then parts[0].text else "") + OutputTextOf(parts[1..])
  }

  function ToolOutput(env: Outside, output: InputContent): string {
    match output
    case Whole(text) => text
    case PartList(parts) =>
      var images := |ImageUrls(parts)|;
      OutputTextOf(parts) + (if images > 0 then env.outputNotice(images) else "")
  }

  /** An assistant message keeps only string content. */
  function AssistantText(env: Outside, content: InputContent): string {
    var c := ToContent(env, content);
    if c.Text? then c.text else ""
  }

  function MessageToChat(env: Outside, role: Role, content: InputContent): ChatMessage
    requires !role.Assistant?
  {
    Plain(if role.Developer? then System else role, ToContent(env, content))
  }

  function SummaryTextOf(summary: seq<SummaryPart>): string {
    if summary == [] then ""
    else (if summary[0].SummaryText? then summary[0].text else "") + SummaryTextOf(summary[1..])
  }

  function ReasoningText(summary: seq<SummaryPart>, encrypted: Option<string>): string {
    if encrypted.Some? && encrypted.value != "" then encrypted.value else SummaryTextOf(summary)
  }

  /** Historical arguments that do not parse are replaced so the request body still does. */
  function Sanitized(env: Outside, raw: Option<string>): string {
    if raw.None? || raw.value == "" then "{}"
    else if env.validJson(raw.value) then raw.value
    else "{}"
  }

  function CallOf(env: Outside, item: InputItem): ToolCall
    requires item.FunctionCall?
  {
    ToolCall(item.callId, item.name, Sanitized(env, item.arguments))
  }

  // ---- assembly --------------------------------------------------------------------------

  /** Finished messages and the assistant turn still being put together. */
  datatype Assembly = Assembly(
    done: seq<ChatMessage>,
    reasoning: Option<string>,
    calls: seq<ToolCall>,
    text: Option<string>)
  {
    predicate Idle() {
      reasoning.None? && calls == [] && text.None?
    }

    /** The assistant message the pending slots amount to. */
    function Turn(): ChatMessage {
      ChatMessage(
        Assistant,
        if text.Some? then Some(Text(text.value)) else if calls == [] then Some(Text("")) else None,
        calls, None, reasoning)
    }

    function Flushed(): Assembly {
      if Idle() then this else Assembly(done + [Turn()], None, [], None)
    }
  }

  /** Reasoning joins a turn already under way; otherwise it starts a new one. */
  function WithReasoning(a: Assembly, text: string): Assembly {
    if a.calls != [] || a.text.Some? then
      a.(reasoning := Some(if a.reasoning.Some? then a.reasoning.value + text else text))
    else
      a.Flushed().(reasoning := Some(text))
  }

  /** A message that is no assistant turn closes the turn under way. */
  function WithOther(a: Assembly, m: ChatMessage): Assembly {
    a.Flushed().(done := a.Flushed().done + [m])
  }

  function Absorb(env: Outside, a: Assembly, rawItem: InputItem): Assembly {
    match Promoted(rawItem)
    case Message(role, content) =>
      if role.Assistant? then
        var b := if a.text.Some? then a.Flushed() else a;
        b.(text := Some(AssistantText(env, content)))
      else
        WithOther(a, MessageToChat(env, role, content))
    case Reasoning(summary, encrypted) =>
      WithReasoning(a, ReasoningText(summary, encrypted))
    case FunctionCall(_, _, _) =>
      a.(calls := a.calls + [CallOf(env, Promoted(rawItem))])
    case FunctionCallOutput(callId, output) =>
      WithOther(a, ToolMessage(callId, ToolOutput(env, output)))
    case _ => a
  }

  function AbsorbAll(env: Outside, a: Assembly, items: seq<InputItem>): Assembly
    decreases |items|
  {
    if items == [] then a else AbsorbAll(env, Absorb(env, a, items[0]), items[1..])
  }

  const START := Assembly([], None, [], None)

  function Assembled(env: Outside, items: seq<InputItem>): seq<ChatMessage> {
    AbsorbAll(env, START, items).Flushed().done
  }

  function MessagesOf(env: Outside, items: seq<InputItem>): seq<ChatMessage> {
    Repaired(Assembled(env, items))
  }

  // ---- the assembler as written ----------------------------------------------------------

  class AssemblyState {
    var pendingReasoning: Option<string>
    var pendingToolCalls: seq<ToolCall>
    var pendingAssistantText: Option<string>

    constructor ()
      ensures pendingReasoning == None && pendingToolCalls == [] && pendingAssistantText == None
    {
      pendingReasoning, pendingToolCalls, pendingAssistantText := None, [], None;
    }
  }

  ghost function View(messages: MessageList, state: AssemblyState): Assembly
    reads messages, state
  {
    Assembly(messages.items, state.pendingReasoning, state.pendingToolCalls, state.pendingAssistantText)
  }

  method FlushAssistant(messages: MessageList, state: AssemblyState)
    modifies messages, state
    ensures View(messages, state) == old(View(messages, state)).Flushed()
    ensures View(messages, state).Idle()
  {
    var hasReasoning := state.pendingReasoning.Some?;
    var hasTools := |state.pendingToolCalls| > 0;
    var hasText := state.pendingAssistantText.Some?;
    if !hasReasoning && !hasTools && !hasText {
      return;
    }
    var msg := ChatMessage(Assistant, None, [], None, None);
    if hasText {
      msg := msg.(content := Some(Text(state.pendingAssistantText.value)));
    } else if !hasTools {
      msg := msg.(content := Some(Text("")));
    }
    if hasTools {
      msg := msg.(toolCalls := state.pendingToolCalls);
    }
    if hasReasoning {
      msg := msg.(reasoning := state.pendingReasoning);
    }
    messages.items := messages.items + [msg];
    state.pendingReasoning, state.pendingToolCalls, state.pendingAssistantText := None, [], None;
  }

  method TakeItem(env: Outside, messages: MessageList, state: AssemblyState, rawItem: InputItem)
    modifies messages, state
    ensures View(messages, state) == Absorb(env, old(View(messages, state)), rawItem)
  {
    var item := Promoted(rawItem);
    match item {
      case Message(role, content) =>
        if role.Assistant? {
          if state.pendingAssistantText.Some? {
            FlushAssistant(messages, state);
          }
          state.pendingAssistantText := Some(AssistantText(env, content));
        } else {
          FlushAssistant(messages, state);
          messages.items := messages.items + [MessageToChat(env, role, content)];
        }
      case Reasoning(summary, encrypted) =>
        var text := ReasoningText(summary, encrypted);
        if |state.pendingToolCalls| > 0 || state.pendingAssistantText.Some? {
          state.pendingReasoning :=
            Some(if state.pendingReasoning.Some? then state.pendingReasoning.value + text else text);
        } else {
          FlushAssistant(messages, state);
          state.pendingReasoning := Some(text);
        }
      case FunctionCall(_, _, _) =>
        state.pendingToolCalls := state.pendingToolCalls + [CallOf(env, item)];
      case FunctionCallOutput(callId, output) =>
        FlushAssistant(messages, state);
        messages.items := messages.items + [ToolMessage(callId, ToolOutput(env, output))];
      case _ =>
    }
  }

  method InputItemsToMessages(env: Outside, items: seq<InputItem>) returns (out: MessageList)
    ensures fresh(out)
    ensures out.items == MessagesOf(env, items)
    ensures WellPaired(out.items)
  {
    out := new MessageList();
    var state := new AssemblyState();
    for i := 0 to |items|
      invariant fresh(out) && fresh(state)
      invariant AbsorbAll(env, View(out, state), items[i..]) == AbsorbAll(env, START, items)
    {
      assert items[i..][1..] == items[i + 1..];
      TakeItem(env, out, state, items[i]);
    }
    assert items[|items|..] == [];
    FlushAssistant(out, state);
    RemoveOrphanToolMessages(out);
    EnsureToolCallsHaveOutputs(out);
    RepairWellPaired(Assembled(env, items));
  }

  // ---- assembly loses nothing ------------------------------------------------------------

  function CallsIn(msgs: seq<ChatMessage>): seq<ToolCall> {
    if msgs == [] then [] else (if msgs[0].role.Assistant? then msgs[0].toolCalls else []) + CallsIn(msgs[1..])
  }

  function ReasoningOf(m: ChatMessage): string {
    if m.role.Assistant? && m.reasoning.Some? then m.reasoning.value else ""
  }

  function ReasoningIn(msgs: seq<ChatMessage>): string {
    if msgs == [] then "" else ReasoningOf(msgs[0]) + ReasoningIn(msgs[1..])
  }

  function AssistantTextOf(m: ChatMessage): string {
    if m.role.Assistant? && m.content.Some? && m.content.value.Text? then m.content.value.text else ""
  }

  function AssistantTextIn(msgs: seq<ChatMessage>): string {
    if msgs == [] then "" else AssistantTextOf(msgs[0]) + AssistantTextIn(msgs[1..])
  }

  /** Everything but the assistant turns: user and system messages, tool results. */
  function OthersIn(msgs: seq<ChatMessage>): seq<ChatMessage> {
    if msgs == [] then [] else (if msgs[0].role.Assistant? then [] else [msgs[0]]) + OthersIn(msgs[1..])
  }

  /** What one item carries into the history. */
  datatype Cargo = Cargo(calls: seq<ToolCall>, reasoning: string, text: string, others: seq<ChatMessage>)

  function Join(a: Cargo, b: Cargo): Cargo {
    Cargo(a.calls + b.calls, a.reasoning + b.reasoning, a.text + b.text, a.others + b.others)
  }

  const EMPTY_CARGO := Cargo([], "", "", [])

  function CargoOf(env: Outside, item: InputItem): Cargo {
    match Promoted(item)
    case Message(role, content) =>
      if role.Assistant? then EMPTY_CARGO.(text := AssistantText(env, content))
      else EMPTY_CARGO.(others := [MessageToChat(env, role, content)])
    case Reasoning(summary, encrypted) => EMPTY_CARGO.(reasoning := ReasoningText(summary, encrypted))
    case FunctionCall(_, _, _) => EMPTY_CARGO.(calls := [CallOf(env, Promoted(item))])
    case FunctionCallOutput(callId, output) =>
      EMPTY_CARGO.(others := [ToolMessage(callId, ToolOutput(env, output))])
    case _ => EMPTY_CARGO
  }

  function CargoOfAll(env: Outside, items: seq<InputItem>): Cargo {
    if items == [] then EMPTY_CARGO else Join(CargoOf(env, items[0]), CargoOfAll(env, items[1..]))
  }

  function CargoIn(msgs: seq<ChatMessage>): Cargo {
    Cargo(CallsIn(msgs), ReasoningIn(msgs), AssistantTextIn(msgs), OthersIn(msgs))
  }

  function Pending(a: Assembly): Cargo {
    Cargo(a.calls, if a.reasoning.Some? then a.reasoning.value else "", if a.text.Some? then a.text.value else "", [])
  }

  function CargoHeld(a: Assembly): Cargo {
    Join(CargoIn(a.done), Pending(a))
  }

  lemma {:induction false} JoinEmpty(a: Cargo)
    ensures Join(a, EMPTY_CARGO) == a == Join(EMPTY_CARGO, a)
  {
    assert a.calls + [] == a.calls && a.reasoning + "" == a.reasoning;
    assert a.text + "" == a.text && a.others + [] == a.others;
  }

  lemma {:induction false} JoinAssociative(a: Cargo, b: Cargo, c: Cargo)
    ensures Join(Join(a, b), c) == Join(a, Join(b, c))
  {
    assert (a.calls + b.calls) + c.calls == a.calls + (b.calls + c.calls);
    assert (a.reasoning + b.reasoning) + c.reasoning == a.reasoning + (b.reasoning + c.reasoning);
    assert (a.text + b.text) + c.text == a.text + (b.text + c.text);
    assert (a.others + b.others) + c.others == a.others + (b.others + c.others);
  }

  function CargoOfOne(m: ChatMessage): Cargo {
    Cargo(if m.role.Assistant? then m.toolCalls else [], ReasoningOf(m), AssistantTextOf(m),
          if m.role.Assistant? then [] else [m])
  }

  lemma {:induction false} CargoSnoc(msgs: seq<ChatMessage>, m: ChatMessage)
    ensures CargoIn(msgs + [m]) == Join(CargoIn(msgs), CargoOfOne(m))
  {
    if msgs == [] {
      assert msgs + [m] == [m] && [m][1..] == [];
      JoinEmpty(CargoOfOne(m));
      assert CargoIn([]) == EMPTY_CARGO;
    } else {
      assert (msgs + [m])[1..] == msgs[1..] + [m];
      CargoSnoc(msgs[1..], m);
      JoinAssociative(CargoOfOne(msgs[0]), CargoIn(msgs[1..]), CargoOfOne(m));
    }
  }

  lemma {:induction false} FlushKeepsCargo(a: Assembly)
    ensures CargoHeld(a.Flushed()) == CargoHeld(a) == CargoIn(a.Flushed().done)
  {
    JoinEmpty(CargoIn(a.Flushed().done));
    if !a.Idle() {
      CargoSnoc(a.done, a.Turn());
      assert CargoOfOne(a.Turn()) == Pending(a);
    }
  }

  lemma {:induction false} SlotAddsCargo(b: Assembly, c: Assembly, added: Cargo)
    requires c.done == b.done && Pending(c) == Join(Pending(b), added)
    ensures CargoHeld(c) == Join(CargoHeld(b), added)
  {
    JoinAssociative(CargoIn(b.done), Pending(b), added);
  }

  lemma {:induction false} TextAddsCargo(a: Assembly, text: string)
    ensures CargoHeld((if a.text.Some? then a.Flushed() else a).(text := Some(text)))
         == Join(CargoHeld(a), EMPTY_CARGO.(text := text))
  {
    FlushKeepsCargo(a);
    var b := if a.text.Some? then a.Flushed() else a;
    assert Pending(b.(text := Some(text))) == Join(Pending(b), EMPTY_CARGO.(text := text)) by {
      JoinEmpty(Pending(b));
      assert "" + text == text;
    }
    SlotAddsCargo(b, b.(text := Some(text)), EMPTY_CARGO.(text := text));
  }

  lemma {:induction false} ReasoningSlot(b: Assembly, text: string)
    ensures Pending(b.(reasoning := Some((if b.reasoning.Some? then b.reasoning.value else "") + text)))
         == Join(Pending(b), EMPTY_CARGO.(reasoning := text))
  {
    JoinEmpty(Pending(b));
  }

  lemma {:induction false} ReasoningAddsCargo(a: Assembly, text: string)
    ensures CargoHeld(WithReasoning(a, text)) == Join(CargoHeld(a), EMPTY_CARGO.(reasoning := text))
  {
    FlushKeepsCargo(a);
    var b := if a.calls != [] || a.text.Some? then a else a.Flushed();
    assert "" + text == text;
    var c := b.(reasoning := Some((if b.reasoning.Some? then b.reasoning.value else "") + text));
    assert WithReasoning(a, text) == c;
    ReasoningSlot(b, text);
    SlotAddsCargo(b, c, EMPTY_CARGO.(reasoning := text));
  }

  lemma {:induction false} CallAddsCargo(a: Assembly, call: ToolCall)
    ensures CargoHeld(a.(calls := a.calls + [call])) == Join(CargoHeld(a), EMPTY_CARGO.(calls := [call]))
  {
    JoinEmpty(Pending(a));
    SlotAddsCargo(a, a.(calls := a.calls + [call]), EMPTY_CARGO.(calls := [call]));
  }

  lemma {:induction false} OtherAddsCargo(a: Assembly, m: ChatMessage)
    requires !m.role.Assistant?
    ensures CargoHeld(WithOther(a, m)) == Join(CargoHeld(a), EMPTY_CARGO.(others := [m]))
  {
    FlushKeepsCargo(a);
    AppendAddsCargo(a.Flushed(), m);
  }

  lemma {:induction false} AbsorbAddsCargo(env: Outside, a: Assembly, item: InputItem)
    ensures CargoHeld(Absorb(env, a, item)) == Join(CargoHeld(a), CargoOf(env, item))
  {
    match Promoted(item) {
      case Message(role, content) =>
        if role.Assistant? {
          TextAddsCargo(a, AssistantText(env, content));
        } else {
          OtherAddsCargo(a, MessageToChat(env, role, content));
        }
      case Reasoning(summary, encrypted) =>
        ReasoningAddsCargo(a, ReasoningText(summary, encrypted));
      case FunctionCall(_, _, _) =>
        CallAddsCargo(a, CallOf(env, Promoted(item)));
      case FunctionCallOutput(callId, output) =>
        OtherAddsCargo(a, ToolMessage(callId, ToolOutput(env, output)));
      case _ =>
        JoinEmpty(CargoHeld(a));
    }
  }

  lemma {:induction false} AppendAddsCargo(b: Assembly, m: ChatMessage)
    requires b.Idle() && !m.role.Assistant?
    ensures CargoHeld(b.(done := b.done + [m])) == Join(CargoHeld(b), EMPTY_CARGO.(others := [m]))
  {
    CargoSnoc(b.done, m);
    JoinEmpty(CargoIn(b.done));
    JoinEmpty(CargoIn(b.done + [m]));
  }

  lemma {:induction false} AbsorbAllAddsCargo(env: Outside, a: Assembly, items: seq<InputItem>)
    ensures CargoHeld(AbsorbAll(env, a, items)) == Join(CargoHeld(a), CargoOfAll(env, items))
    decreases |items|
  {
    if items == [] {
      JoinEmpty(CargoHeld(a));
    } else {
      AbsorbAddsCargo(env, a, items[0]);
      AbsorbAllAddsCargo(env, Absorb(env, a, items[0]), items[1..]);
      JoinAssociative(CargoHeld(a), CargoOf(env, items[0]), CargoOfAll(env, items[1..]));
    }
  }

  /** Before repair the history holds every call, all reasoning and assistant text, and every
      other message, each kind in its original order and with nothing added. */
  lemma {:induction false} AssemblyLosesNothing(env: Outside, items: seq<InputItem>)
    ensures CargoIn(Assembled(env, items)) == CargoOfAll(env, items)
  {
    AbsorbAllAddsCargo(env, START, items);
    JoinEmpty(CargoOfAll(env, items));
    assert CargoHeld(START) == EMPTY_CARGO;
    FlushKeepsCargo(AbsorbAll(env, START, items));
  }

  // ---- the whole request -----------------------------------------------------------------

  datatype Input = NoInput | Prompt(text: string) | Items(items: seq<InputItem>)

  /** `note` is the connector advisory, when the request's tools call for one. */
  datatype Request = Request(instructions: Option<string>, input: Input, note: Option<string>, disableThinking: bool)

  function SystemMessage(text: string): ChatMessage {
    Plain(System, Text(text))
  }

  function Preamble(req: Request): seq<ChatMessage> {
    (if req.instructions.Some? && req.instructions.value != "" then [SystemMessage(req.instructions.value)] else [])
    + (if req.note.Some? then [SystemMessage(req.note.value)] else [])
  }

  function History(env: Outside, input: Input): seq<ChatMessage> {
    match input
    case NoInput => []
    case Prompt(text) => [Plain(User, Text(text))]
    case Items(items) => MessagesOf(env, items)
  }

  predicate LacksReasoning(m: ChatMessage) {
    m.role.Assistant? && (m.reasoning.None? || m.reasoning.value == "")
  }

  function Backfill(m: ChatMessage): ChatMessage {
    if LacksReasoning(m) then m.(reasoning := Some(NO_THINKING)) else m
  }

  function Backfilled(msgs: seq<ChatMessage>): (out: seq<ChatMessage>)
    ensures |out| == |msgs|
    ensures forall i :: 0 <= i < |msgs| ==> out[i] == Backfill(msgs[i])
  {
    seq(|msgs|, i requires 0 <= i < |msgs| => Backfill(msgs[i]))
  }

  function ChatMessages(env: Outside, req: Request): seq<ChatMessage> {
    var msgs := Preamble(req) + History(env, req.input);
    if req.disableThinking then msgs else Backfilled(msgs)
  }

  method BackfillReasoning(list: MessageList)
    modifies list
    ensures list.items == Backfilled(old(list.items))
  {
    for i := 0 to |list.items|
      invariant |list.items| == |old(list.items)|
      invariant forall k :: 0 <= k < i ==> list.items[k] == Backfill(old(list.items)[k])
      invariant forall k :: i <= k < |list.items| ==> list.items[k] == old(list.items)[k]
    {
      if LacksReasoning(list.items[i]) {
        list.items := list.items[i := list.items[i].(reasoning := Some(NO_THINKING))];
      }
    }
  }

  /** Instructions, advisory note and history. */
  method GatherMessages(env: Outside, req: Request) returns (list: MessageList)
    ensures fresh(list)
    ensures list.items == Preamble(req) + History(env, req.input)
  {
    list := new MessageList();
    var hasInstructions := req.instructions.Some? && req.instructions.value != "";
    if hasInstructions {
      list.items := [SystemMessage(req.instructions.value)];
    }
    match req.input {
      case NoInput =>
      case Prompt(text) =>
        list.items := list.items + [Plain(User, Text(text))];
      case Items(items) =>
        var out := InputItemsToMessages(env, items);
        list.items := list.items + out.items;
    }
    if req.note.Some? {
      var insertAt := if hasInstructions then 1 else 0;
      list.items := list.items[..insertAt] + [SystemMessage(req.note.value)] + list.items[insertAt..];
    }
  }

  method ReqToChatMessages(env: Outside, req: Request) returns (list: MessageList)
    ensures fresh(list)
    ensures list.items == ChatMessages(env, req)
    ensures WellPaired(list.items)
  {
    list := GatherMessages(env, req);
    if !req.disableThinking {
      BackfillReasoning(list);
    }
    RequestWellPaired(env, req);
  }

  lemma {:induction false} BackfillKeepsPairing(msgs: seq<ChatMessage>, declared: set<string>, owed: set<string>)
    ensures WellPairedFrom(Backfilled(msgs), declared, owed) <==> WellPairedFrom(msgs, declared, owed)
  {
    if msgs != [] {
      assert Backfilled(msgs)[1..] == Backfilled(msgs[1..]);
      if msgs[0].role.Tool? {
        if msgs[0].toolCallId.Some? {
          BackfillKeepsPairing(msgs[1..], declared, owed - {msgs[0].toolCallId.value});
        }
      } else {
        BackfillKeepsPairing(msgs[1..], Declared(msgs[0]), Declared(msgs[0]));
      }
    }
  }

  lemma {:induction false} HistoryWellPaired(env: Outside, input: Input)
    ensures WellPaired(History(env, input))
  {
    match input {
      case NoInput =>
      case Prompt(text) => BystandersPaired(History(env, input));
      case Items(items) => RepairWellPaired(Assembled(env, items));
    }
  }

  /** Every request body is well paired, note and backfill included; with thinking on, every
      assistant turn in it carries reasoning. */
  lemma {:induction false} RequestWellPaired(env: Outside, req: Request)
    ensures WellPaired(ChatMessages(env, req))
    ensures PairedByIndex(ChatMessages(env, req))
    ensures !req.disableThinking ==> forall m :: m in ChatMessages(env, req) ==> !LacksReasoning(m)
  {
    HistoryWellPaired(env, req.input);
    BystandersPaired(Preamble(req));
    PairedAppend(Preamble(req), History(env, req.input), {}, {});
    BackfillKeepsPairing(Preamble(req) + History(env, req.input), {}, {});
    PairedIffIndexed(ChatMessages(env, req));
  }
}
