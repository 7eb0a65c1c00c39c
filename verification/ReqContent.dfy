/** What the assembled history says, told from the fields of the request's own items
    (src/translate/reqToChat.ts). */
module ReqContent {
  import opened Core
  import opened ChatTypes
  import opened Repair
  import opened ReqToChat

  // ---- what an item says -----------------------------------------------------------------

  /** The texts of some parts, joined. */
  function TextsIn(parts: seq<InputPart>): string {
    if parts == [] then ""
    else
      TextsIn(parts[..|parts| - 1])
      + match parts[|parts| - 1]
        case InputText(text) => text
        case OutputText(text) => text
        case InputImage(_) => ""
        case OtherPart => ""
  }

  /** The images among them, in order. */
  function UrlsIn(parts: seq<InputPart>): seq<string> {
    if parts == [] then []
    else
      UrlsIn(parts[..|parts| - 1])
      + if parts[|parts| - 1].InputImage? then [parts[|parts| - 1].url] else []
  }

  /** The texts of a summary, joined. */
  function SummariesIn(summary: seq<SummaryPart>): string {
    if summary == [] then ""
    else
      SummariesIn(summary[..|summary| - 1])
      + if summary[|summary| - 1].SummaryText? then summary[|summary| - 1].text else ""
  }

  // ---- one told by the other -------------------------------------------------------------

  /** A part and what becomes of it. */
  predicate Becomes(part: InputPart, face: ContentPart) {
    match part
    case InputText(text) => face == TextPart(text)
    case OutputText(text) => face == TextPart(text)
    case InputImage(url) => face == ImagePart(url)
    case OtherPart => false
  }

  /** Text and images stay in the order they were given; a blank stands for missing text. */
  predicate InOrder(parts: seq<InputPart>, faces: seq<ContentPart>) {
    if parts == [] then faces == [] || faces == [TextPart(" ")]
    else if parts[0].InputImage? || ((parts[0].InputText? || parts[0].OutputText?) && parts[0].text != "") then
      faces != [] && Becomes(parts[0], faces[0]) && InOrder(parts[1..], faces[1..])
    else InOrder(parts[1..], faces)
  }

  /** A content carries all text and all images of what was given; a model that sees no images
      gets the notice of them instead, and images alone get a blank for text. */
  predicate Carries(env: Outside, given: InputContent, c: Content) {
    match given
    case Whole(text) => c == Text(text)
    case PartList(parts) =>
      var said, urls := TextsIn(parts), UrlsIn(parts);
      if urls == [] then c == Text(said)
      else if !env.supportsImages then c == Text(said + env.imageNotice(urls))
      else
        && c.Parts? && InOrder(parts, c.parts)
        && Pictures(c) == urls && TextIn(c) == if said == "" then " " else said
  }

  /** What a tool's output says: its text, and the notice of its images. */
  function OutputSays(env: Outside, output: InputContent): string {
    match output
    case Whole(text) => text
    case PartList(parts) =>
      TextsIn(parts) + if UrlsIn(parts) == [] then "" else env.outputNotice(|UrlsIn(parts)|)
  }

  /** What an assistant message says: nothing, if it holds images a model would see. */
  function AssistantSays(env: Outside, given: InputContent): string {
    match given
    case Whole(text) => text
    case PartList(parts) =>
      if UrlsIn(parts) == [] then TextsIn(parts)
      else if env.supportsImages then ""
      else TextsIn(parts) + env.imageNotice(UrlsIn(parts))
  }

  /** A user or system message for an item; developers speak as the system. */
  predicate MessageTold(env: Outside, role: Role, given: InputContent, m: ChatMessage) {
    && m.role == (if role == Developer then System else role)
    && m.content.Some? && Carries(env, given, m.content.value)
    && m.toolCalls == [] && m.toolCallId.None? && m.reasoning.None?
  }

  /** The message an item that is no part of an assistant turn becomes. */
  predicate Told(env: Outside, item: InputItem, m: ChatMessage) {
    match item
    case Untyped(role, text) => role.Some? && MessageTold(env, role.value, PartList([InputText(text)]), m)
    case Message(role, given) => MessageTold(env, role, given, m)
    case FunctionCallOutput(callId, output) =>
      && m.role == Tool && m.toolCallId == Some(callId) && m.content == Some(Text(OutputSays(env, output)))
      && m.toolCalls == [] && m.reasoning.None?
    case _ => false
  }

  /** User and system messages and tool outputs: not part of an assistant turn. */
  predicate Aside(item: InputItem) {
    match item
    case Untyped(role, _) => role.Some? && role.value != Assistant
    case Message(role, _) => role != Assistant
    case FunctionCallOutput(_, _) => true
    case _ => false
  }

  function Asides(items: seq<InputItem>): seq<InputItem> {
    if items == [] then [] else (if Aside(items[0]) then [items[0]] else []) + Asides(items[1..])
  }

  predicate ToldAll(env: Outside, items: seq<InputItem>, msgs: seq<ChatMessage>) {
    |msgs| == |items| && forall i :: 0 <= i < |items| ==> Told(env, items[i], msgs[i])
  }

  /** The assistant texts, joined. */
  function AssistantSaid(env: Outside, items: seq<InputItem>): string {
    if items == [] then ""
    else
      (match items[0]
       case Untyped(role, text) => if role == Some(Assistant) then text else ""
       case Message(role, given) => if role == Assistant then AssistantSays(env, given) else ""
       case _ => "")
      + AssistantSaid(env, items[1..])
  }

  /** The reasoning, joined: the full text where it is pinned, else the summary. */
  function Reasoned(items: seq<InputItem>): string {
    if items == [] then ""
    else
      (if items[0].Reasoning? then
         if OrNothing(items[0].encrypted) != "" then items[0].encrypted.value else SummariesIn(items[0].summary)
       else "")
      + Reasoned(items[1..])
  }

  function OrNothing(s: Option<string>): string {
    if s.None? then "" else s.value
  }

  function CallItems(items: seq<InputItem>): seq<InputItem> {
    if items == [] then [] else (if items[0].FunctionCall? then [items[0]] else []) + CallItems(items[1..])
  }

  /** A call as it was made; arguments that are no JSON are replaced by `{}`. */
  predicate CallTold(env: Outside, item: InputItem, c: ToolCall) {
    && item.FunctionCall? && c.id == item.callId && c.name == item.name
    && var raw := OrNothing(item.arguments);
       c.arguments == if raw != "" && env.validJson(raw) then raw else "{}"
  }

  predicate CallsTold(env: Outside, items: seq<InputItem>, calls: seq<ToolCall>) {
    |calls| == |items| && forall i :: 0 <= i < |items| ==> CallTold(env, items[i], calls[i])
  }

  // ---- contents --------------------------------------------------------------------------

  lemma {:induction false} TextsCons(p: InputPart, rest: seq<InputPart>)
    ensures TextsIn([p] + rest) == TextsIn([p]) + TextsIn(rest) && UrlsIn([p] + rest) == UrlsIn([p]) + UrlsIn(rest)
    ensures TextsIn([p]) == (if p.InputText? || p.OutputText? then p.text else "")
    ensures UrlsIn([p]) == if p.InputImage? then [p.url] else []
  {
    var all := [p] + rest;
    assert [p][..0] == [];
    assert TextsIn([]) == "" && UrlsIn([]) == [];
    if rest == [] {
      assert all == [p];
      EmptyEnds(TextsIn([p]));
      EmptyEnds(UrlsIn([p]));
    } else {
      var init, q := rest[..|rest| - 1], rest[|rest| - 1];
      assert all[..|all| - 1] == [p] + init;
      TextsCons(p, init);
      Regroup(TextsIn([p]), TextsIn(init), if q.InputText? || q.OutputText? then q.text else "");
      Regroup(UrlsIn([p]), UrlsIn(init), if q.InputImage? then [q.url] else []);
    }
  }

  lemma {:induction false} TextOfWords(parts: seq<ContentPart>)
    ensures TextOfParts(parts) == WordsIn(parts)
  {
    if parts != [] {
      assert parts == [parts[0]] + parts[1..];
      WordsAppend([parts[0]], parts[1..]);
      WordsOne(parts[0]);
      TextOfWords(parts[1..]);
    }
  }

  /** What is kept of a list of parts. */
  lemma {:induction false} KeptTells(env: Outside, parts: seq<InputPart>)
    ensures var kept := KeptParts(env, parts);
      && WordsIn(kept) == TextsIn(parts) && PicturesIn(kept) == (if env.supportsImages then UrlsIn(parts) else [])
      && (forall p :: p in kept && p.TextPart? ==> p.text != "")
      && ImageUrls(parts) == UrlsIn(parts)
      && OutputTextOf(parts) == TextsIn(parts)
  {
    if parts != [] {
      var p, rest := parts[0], parts[1..];
      assert parts == [p] + rest;
      KeptTells(env, rest);
      TextsCons(p, rest);
      var first := KeptParts(env, parts)[..|KeptParts(env, parts)| - |KeptParts(env, rest)|];
      KeptFirst(env, p, rest, first);
      WordsAppend(first, KeptParts(env, rest));
    }
  }

  lemma {:induction false} KeptFirst(env: Outside, p: InputPart, rest: seq<InputPart>, first: seq<ContentPart>)
    requires first == KeptParts(env, [p] + rest)[..|KeptParts(env, [p] + rest)| - |KeptParts(env, rest)|]
    ensures KeptParts(env, [p] + rest) == first + KeptParts(env, rest)
    ensures WordsIn(first) == (if p.InputText? || p.OutputText? then p.text else "")
    ensures PicturesIn(first) == if p.InputImage? && env.supportsImages then [p.url] else []
    ensures first == if p.InputImage? && env.supportsImages then [ImagePart(p.url)]
                     else if (p.InputText? || p.OutputText?) && p.text != "" then [TextPart(p.text)] else []
  {
    assert ([p] + rest)[1..] == rest;
    if first != [] { WordsOne(first[0]); }
  }

  lemma {:induction false} KeptOrder(env: Outside, parts: seq<InputPart>, end: seq<ContentPart>)
    requires env.supportsImages && (end == [] || end == [TextPart(" ")])
    ensures InOrder(parts, KeptParts(env, parts) + end)
  {
    if parts == [] {
      assert [] + end == end;
    } else {
      var p, rest := parts[0], parts[1..];
      var kept := KeptParts(env, rest);
      KeptOrder(env, rest, end);
      assert parts == [p] + rest;
      KeptFirst(env, p, rest, KeptParts(env, parts)[..|KeptParts(env, parts)| - |kept|]);
      var first := KeptParts(env, parts)[..|KeptParts(env, parts)| - |kept|];
      Regroup(first, kept, end);
      if first != [] { assert (first + (kept + end))[1..] == kept + end; } else { EmptyEnds(kept + end); }
    }
  }

  predicate OnlyText(parts: seq<ContentPart>) {
    forall i :: 0 <= i < |parts| ==> parts[i].TextPart?
  }

  predicate SomeText(parts: seq<ContentPart>) {
    exists i :: 0 <= i < |parts| && parts[i].TextPart?
  }

  lemma {:induction false} NoPictures(parts: seq<ContentPart>)
    ensures PicturesIn(parts) == [] <==> OnlyText(parts)
  {
    if parts != [] {
      var init := parts[..|parts| - 1];
      NoPictures(init);
      assert forall i :: 0 <= i < |init| ==> init[i] == parts[i];
    }
  }

  /** Where no text is empty, there is text if and only if some part is text. */
  lemma {:induction false} TextThere(parts: seq<ContentPart>)
    requires forall i :: 0 <= i < |parts| && parts[i].TextPart? ==> parts[i].text != ""
    ensures WordsIn(parts) != "" <==> SomeText(parts)
  {
    if parts != [] {
      var init := parts[..|parts| - 1];
      assert forall i :: 0 <= i < |init| ==> init[i] == parts[i];
      TextThere(init);
      if SomeText(init) {
        var i :| 0 <= i < |init| && init[i].TextPart?;
        assert parts[i].TextPart?;
      }
    }
  }

  /** The branches of the content, in terms of the parts. */
  lemma {:induction false} ContentBranches(env: Outside, parts: seq<InputPart>, noted: seq<ContentPart>)
    requires noted == if env.supportsImages || ImageUrls(parts) == [] then KeptParts(env, parts)
                      else KeptParts(env, parts) + [TextPart(env.imageNotice(ImageUrls(parts)))]
    ensures ToContent(env, PartList(parts))
         == if OnlyText(noted) then Text(TextOfParts(noted))
            else if SomeText(noted) then Parts(noted) else Parts(noted + [TextPart(" ")])
  {
    assert OnlyText(noted) <==> forall p :: p in noted ==> p.TextPart?;
    assert SomeText(noted) <==> exists p :: p in noted && p.TextPart?;
  }

  lemma {:induction false} BlankAfter(kept: seq<ContentPart>)
    ensures WordsIn(kept + [TextPart(" ")]) == WordsIn(kept) + " "
    ensures PicturesIn(kept + [TextPart(" ")]) == PicturesIn(kept)
  {
    WordsAppend(kept, [TextPart(" ")]);
    WordsOne(TextPart(" "));
    EmptyEnds(PicturesIn(kept));
  }

  /** Images a model sees: the kept parts, and a blank when none of them is text. */
  lemma {:induction false} SeenParts(env: Outside, parts: seq<InputPart>)
    requires env.supportsImages && UrlsIn(parts) != []
    ensures var kept := KeptParts(env, parts);
      ToContent(env, PartList(parts)) == Parts(if TextsIn(parts) == "" then kept + [TextPart(" ")] else kept)
  {
    var kept := KeptParts(env, parts);
    KeptTells(env, parts);
    NoPictures(kept);
    assert forall i :: 0 <= i < |kept| && kept[i].TextPart? ==> kept[i] in kept;
    TextThere(kept);
    ContentBranches(env, parts, kept);
  }

  /** Parts that are all text become one text. */
  lemma {:induction false} TextAlone(env: Outside, parts: seq<InputPart>, noted: seq<ContentPart>)
    requires noted == if env.supportsImages || ImageUrls(parts) == [] then KeptParts(env, parts)
                      else KeptParts(env, parts) + [TextPart(env.imageNotice(ImageUrls(parts)))]
    requires OnlyText(noted)
    ensures ToContent(env, PartList(parts)) == Text(WordsIn(noted))
  {
    ContentBranches(env, parts, noted);
    TextOfWords(noted);
  }

  lemma {:induction false} NoticeAfter(kept: seq<ContentPart>, notice: string)
    requires OnlyText(kept)
    ensures WordsIn(kept + [TextPart(notice)]) == WordsIn(kept) + notice && OnlyText(kept + [TextPart(notice)])
  {
    WordsAppend(kept, [TextPart(notice)]);
    WordsOne(TextPart(notice));
  }

  /** No images, or none the model sees: all text in one, with the notice of the images. */
  lemma {:induction false} UnseenText(env: Outside, parts: seq<InputPart>)
    requires UrlsIn(parts) == [] || !env.supportsImages
    ensures ToContent(env, PartList(parts))
         == Text(if UrlsIn(parts) == [] then TextsIn(parts) else TextsIn(parts) + env.imageNotice(UrlsIn(parts)))
  {
    var kept, notice := KeptParts(env, parts), env.imageNotice(UrlsIn(parts));
    KeptTells(env, parts);
    NoPictures(kept);
    NoticeAfter(kept, notice);
    TextAlone(env, parts, if UrlsIn(parts) == [] then kept else kept + [TextPart(notice)]);
  }

  lemma {:induction false} SeenCarries(env: Outside, parts: seq<InputPart>)
    requires env.supportsImages && UrlsIn(parts) != []
    ensures Carries(env, PartList(parts), ToContent(env, PartList(parts)))
  {
    var kept := KeptParts(env, parts);
    SeenParts(env, parts);
    KeptTells(env, parts);
    KeptOrder(env, parts, []);
    KeptOrder(env, parts, [TextPart(" ")]);
    EmptyEnds(kept);
    BlankAfter(kept);
  }

  lemma {:induction false} ContentCarries(env: Outside, given: InputContent)
    ensures Carries(env, given, ToContent(env, given))
    ensures AssistantText(env, given) == AssistantSays(env, given)
  {
    if given.PartList? {
      if env.supportsImages && UrlsIn(given.parts) != [] {
        SeenCarries(env, given.parts);
      } else {
        UnseenText(env, given.parts);
      }
    }
  }

  lemma {:induction false} OutputCarries(env: Outside, given: InputContent)
    ensures ToolOutput(env, given) == OutputSays(env, given)
  {
    if given.PartList? {
      KeptTells(env, given.parts);
      EmptyEnds(TextsIn(given.parts));
    }
  }

  lemma {:induction false} SummaryTells(summary: seq<SummaryPart>)
    ensures SummaryTextOf(summary) == SummariesIn(summary)
  {
    if summary != [] {
      SummariesCons(summary[0], summary[1..]);
      SummaryTells(summary[1..]);
      assert summary == [summary[0]] + summary[1..];
    }
  }

  lemma {:induction false} SummariesCons(p: SummaryPart, rest: seq<SummaryPart>)
    ensures SummariesIn([p] + rest) == (if p.SummaryText? then p.text else "") + SummariesIn(rest)
  {
    var all := [p] + rest;
    if rest == [] {
      assert all[..0] == [] && SummariesIn([]) == "";
    } else {
      var init, q := rest[..|rest| - 1], rest[|rest| - 1];
      assert all[..|all| - 1] == [p] + init;
      SummariesCons(p, init);
      Regroup(if p.SummaryText? then p.text else "", SummariesIn(init), if q.SummaryText? then q.text else "");
    }
  }

  // ---- the history -----------------------------------------------------------------------

  /** What a history carries, told by the items it was assembled from. */
  ghost predicate CargoTold(env: Outside, items: seq<InputItem>, cargo: Cargo) {
    && ToldAll(env, Asides(items), cargo.others)
    && CallsTold(env, CallItems(items), cargo.calls)
    && cargo.text == AssistantSaid(env, items)
    && cargo.reasoning == Reasoned(items)
  }

  lemma {:induction false} ItemAlone(env: Outside, item: InputItem)
    ensures Asides([item]) == if Aside(item) then [item] else []
    ensures CallItems([item]) == if item.FunctionCall? then [item] else []
    ensures AssistantSaid(env, [item])
         == match item
            case Untyped(role, text) => if role == Some(Assistant) then text else ""
            case Message(role, given) => if role == Assistant then AssistantSays(env, given) else ""
            case _ => ""
    ensures Reasoned([item])
         == if !item.Reasoning? then ""
            else if OrNothing(item.encrypted) != "" then item.encrypted.value else SummariesIn(item.summary)
  {
    var rest: seq<InputItem> := [item][1..];
    assert rest == [] && Asides(rest) == [] && CallItems(rest) == [];
    assert AssistantSaid(env, rest) == "" && Reasoned(rest) == "";
  }

  lemma {:induction false} UntypedTold(env: Outside, role: Option<Role>, text: string)
    ensures CargoTold(env, [Untyped(role, text)], CargoOf(env, Untyped(role, text)))
  {
    ItemAlone(env, Untyped(role, text));
    if role == Some(Assistant) {
      ContentCarries(env, PartList([OutputText(text)]));
      OneText(text);
    } else if role.Some? {
      ContentCarries(env, PartList([InputText(text)]));
    }
  }

  lemma {:induction false} MessageItemTold(env: Outside, role: Role, given: InputContent)
    ensures CargoTold(env, [Message(role, given)], CargoOf(env, Message(role, given)))
  {
    ItemAlone(env, Message(role, given));
    ContentCarries(env, given);
  }

  lemma {:induction false} ItemTold(env: Outside, item: InputItem)
    ensures CargoTold(env, [item], CargoOf(env, item))
  {
    match item {
      case Untyped(role, text) => UntypedTold(env, role, text);
      case Message(role, given) => MessageItemTold(env, role, given);
      case Reasoning(summary, _) =>
        ItemAlone(env, item);
        SummaryTells(summary);
      case FunctionCall(_, _, _) => ItemAlone(env, item);
      case FunctionCallOutput(_, output) =>
        ItemAlone(env, item);
        OutputCarries(env, output);
      case OtherItem => ItemAlone(env, item);
    }
  }

  lemma {:induction false} OneText(text: string)
    ensures TextsIn([OutputText(text)]) == text && UrlsIn([OutputText(text)]) == []
  {
    TextsCons(OutputText(text), []);
    assert [OutputText(text)] + [] == [OutputText(text)];
  }

  lemma {:induction false} FirstItem(env: Outside, item: InputItem, rest: seq<InputItem>)
    ensures Asides([item] + rest) == Asides([item]) + Asides(rest)
    ensures CallItems([item] + rest) == CallItems([item]) + CallItems(rest)
    ensures AssistantSaid(env, [item] + rest) == AssistantSaid(env, [item]) + AssistantSaid(env, rest)
    ensures Reasoned([item] + rest) == Reasoned([item]) + Reasoned(rest)
  {
    assert ([item] + rest)[1..] == rest;
    ItemAlone(env, item);
  }

  lemma {:induction false} ToldJoin(env: Outside, item: InputItem, rest: seq<InputItem>, a: Cargo, b: Cargo)
    requires CargoTold(env, [item], a) && CargoTold(env, rest, b)
    ensures CargoTold(env, [item] + rest, Join(a, b))
  {
    FirstItem(env, item, rest);
    ToldAppend(env, Asides([item]), Asides(rest), a.others, b.others);
    CallsAppend(env, CallItems([item]), CallItems(rest), a.calls, b.calls);
  }

  lemma {:induction false} ToldAppend(env: Outside, x: seq<InputItem>, y: seq<InputItem>, a: seq<ChatMessage>,
                                      b: seq<ChatMessage>)
    requires ToldAll(env, x, a) && ToldAll(env, y, b)
    ensures ToldAll(env, x + y, a + b)
  {
  }

  lemma {:induction false} CallsAppend(env: Outside, x: seq<InputItem>, y: seq<InputItem>, a: seq<ToolCall>,
                                       b: seq<ToolCall>)
    requires CallsTold(env, x, a) && CallsTold(env, y, b)
    ensures CallsTold(env, x + y, a + b)
  {
  }

  lemma {:induction false} CargoAllTold(env: Outside, items: seq<InputItem>)
    ensures CargoTold(env, items, CargoOfAll(env, items))
  {
    if items != [] {
      assert items == [items[0]] + items[1..];
      ItemTold(env, items[0]);
      CargoAllTold(env, items[1..]);
      ToldJoin(env, items[0], items[1..], CargoOf(env, items[0]), CargoOfAll(env, items[1..]));
    }
  }

  /** Before repair, a history holds of every item what it says: user and system messages and tool
      outputs one by one and in order, calls one by one, assistant text and reasoning joined. */
  lemma {:induction false} AssemblyTellsItems(env: Outside, items: seq<InputItem>)
    ensures CargoTold(env, items, CargoIn(Assembled(env, items)))
  {
    AssemblyLosesNothing(env, items);
    CargoAllTold(env, items);
  }

  // ---- the history as it is sent ---------------------------------------------------------

  /** The user and system messages. */
  function SpokenBy(msgs: seq<ChatMessage>): seq<ChatMessage> {
    if msgs == [] then []
    else (if msgs[0].role.Assistant? || msgs[0].role.Tool? then [] else [msgs[0]]) + SpokenBy(msgs[1..])
  }

  /** The items they stand for. */
  predicate Speaker(item: InputItem) {
    match item
    case Untyped(role, _) => role.Some? && role.value != Assistant && role.value != Tool
    case Message(role, _) => role != Assistant && role != Tool
    case _ => false
  }

  function Speakers(items: seq<InputItem>): seq<InputItem> {
    if items == [] then [] else (if Speaker(items[0]) then [items[0]] else []) + Speakers(items[1..])
  }

  /** A tool message gives the output of one of the items, or says that there was none. */
  ghost predicate ResultTold(env: Outside, items: seq<InputItem>, m: ChatMessage) {
    || (exists item :: item in items && Told(env, item, m))
    || (m.role.Tool? && m.toolCallId.Some? && m.content == Some(Text(MISSING_OUTPUT)))
  }

  /** What is sent upstream says what the items say. */
  ghost predicate HistoryTold(env: Outside, items: seq<InputItem>, msgs: seq<ChatMessage>) {
    && ToldAll(env, Speakers(items), SpokenBy(msgs))
    && CallsTold(env, CallItems(items), CallsIn(msgs))
    && AssistantTextIn(msgs) == AssistantSaid(env, items) && ReasoningIn(msgs) == Reasoned(items)
    && forall m :: m in msgs && m.role.Tool? ==> ResultTold(env, items, m)
  }

  lemma {:induction false} OpenersSay(msgs: seq<ChatMessage>)
    ensures SpokenBy(msgs) == SpokenBy(Openers(msgs)) && CallsIn(msgs) == CallsIn(Openers(msgs))
    ensures AssistantTextIn(msgs) == AssistantTextIn(Openers(msgs)) && ReasoningIn(msgs) == ReasoningIn(Openers(msgs))
  {
    if msgs != [] {
      OpenersSay(msgs[1..]);
      var rest := Openers(msgs[1..]);
      assert ([msgs[0]] + rest)[1..] == rest && [] + rest == rest;
      EmptyEnds(AssistantTextIn(rest));
      EmptyEnds(ReasoningIn(rest));
    }
  }

  lemma {:induction false} AsidesSpoken(env: Outside, items: seq<InputItem>, msgs: seq<ChatMessage>)
    requires ToldAll(env, items, msgs) && forall i :: 0 <= i < |items| ==> Aside(items[i])
    ensures ToldAll(env, Speakers(items), SpokenBy(msgs))
  {
    if items != [] {
      assert Told(env, items[0], msgs[0]);
      AsidesSpoken(env, items[1..], msgs[1..]);
    }
  }

  lemma {:induction false} SpeakersAside(items: seq<InputItem>)
    ensures Speakers(Asides(items)) == Speakers(items)
    ensures forall item :: item in Asides(items) ==> Aside(item) && item in items
  {
    if items != [] {
      SpeakersAside(items[1..]);
      var rest := Asides(items[1..]);
      assert ([items[0]] + rest)[1..] == rest && [] + rest == rest;
    }
  }

  lemma {:induction false} OthersSpoken(msgs: seq<ChatMessage>)
    ensures SpokenBy(OthersIn(msgs)) == SpokenBy(msgs)
    ensures forall m :: m in msgs && m.role.Tool? ==> m in OthersIn(msgs)
  {
    if msgs != [] {
      OthersSpoken(msgs[1..]);
      var rest := OthersIn(msgs[1..]);
      assert ([msgs[0]] + rest)[1..] == rest && [] + rest == rest;
    }
  }

  lemma {:induction false} DroppedFrom(msgs: seq<ChatMessage>, valid: set<string>)
    ensures forall m :: m in DropOrphans(msgs, valid) ==> m in msgs
  {
    if msgs != [] {
      DroppedFrom(msgs[1..], valid);
      DroppedFrom(msgs[1..], UsableIds(msgs[0]));
    }
  }

  lemma {:induction false} FilledFrom(msgs: seq<ChatMessage>)
    ensures forall m :: m in FillMissing(msgs) ==>
      m in msgs || (m.role.Tool? && m.toolCallId.Some? && m.content == Some(Text(MISSING_OUTPUT)))
    decreases |msgs|
  {
    if msgs != [] {
      FilledFrom(msgs[1..]);
      if msgs[0].role.Assistant? && msgs[0].toolCalls != [] {
        FilledFrom(msgs[RunLength(msgs[1..]) + 1..]);
      }
    }
  }

  lemma {:induction false} ResultsTold(env: Outside, items: seq<InputItem>, msgs: seq<ChatMessage>)
    requires ToldAll(env, Asides(items), OthersIn(msgs))
    ensures forall m :: m in Repaired(msgs) && m.role.Tool? ==> ResultTold(env, items, m)
  {
    DroppedFrom(msgs, {});
    FilledFrom(DropOrphans(msgs, {}));
    OthersSpoken(msgs);
    SpeakersAside(items);
    forall m | m in Repaired(msgs) && m.role.Tool? ensures ResultTold(env, items, m) {
      if m in msgs {
        var i :| 0 <= i < |OthersIn(msgs)| && OthersIn(msgs)[i] == m;
        assert Told(env, Asides(items)[i], m) && Asides(items)[i] in Asides(items);
      }
    }
  }

  /** Every history sent upstream says what its items say: user and system messages one by one and
      in order with all their text and images, calls one by one, assistant text and reasoning
      joined; and every tool message gives the output of an item or says there was none. */
  lemma {:induction false} HistoryTells(env: Outside, items: seq<InputItem>)
    ensures HistoryTold(env, items, MessagesOf(env, items))
  {
    var msgs := Assembled(env, items);
    AssemblyTellsItems(env, items);
    RepairByRun(msgs);
    OpenersSay(msgs);
    OpenersSay(Repaired(msgs));
    SpeakersAside(items);
    OthersSpoken(msgs);
    AsidesSpoken(env, Asides(items), OthersIn(msgs));
    ResultsTold(env, items, msgs);
  }

  // ---- the request as it is sent ---------------------------------------------------------

  /** The same message, with a placeholder where an assistant turn has no reasoning and thinking
      is on. */
  predicate SameButReasoning(thinking: bool, m: ChatMessage, was: ChatMessage) {
    && m.role == was.role && m.content == was.content && m.toolCalls == was.toolCalls && m.toolCallId == was.toolCallId
    && if thinking && was.role == Assistant && OrNothing(was.reasoning) == "" then m.reasoning == Some(NO_THINKING)
       else m.reasoning == was.reasoning
  }

  predicate SameAll(thinking: bool, msgs: seq<ChatMessage>, was: seq<ChatMessage>) {
    |msgs| == |was| && forall i :: 0 <= i < |was| ==> SameButReasoning(thinking, msgs[i], was[i])
  }

  /** A plain message of this role and text. */
  predicate Says(m: ChatMessage, role: Role, text: string) {
    m.role == role && m.content == Some(Text(text)) && m.toolCalls == [] && m.toolCallId.None? && m.reasoning.None?
  }

  /** The request's own messages: its instructions, then the note, each where there is one. */
  predicate Leads(req: Request, lead: seq<ChatMessage>) {
    var told, noted := OrNothing(req.instructions) != "", req.note.Some?;
    && |lead| == (if told then 1 else 0) + (if noted then 1 else 0)
    && (told ==> Says(lead[0], System, req.instructions.value))
    && (noted ==> Says(lead[|lead| - 1], System, req.note.value))
  }

  /** The history a request asks for, and every history an input amounts to. */
  predicate Follows(env: Outside, input: Input, msgs: seq<ChatMessage>) {
    match input
    case NoInput => msgs == []
    case Prompt(text) => |msgs| == 1 && Says(msgs[0], User, text)
    case Items(items) => msgs == MessagesOf(env, items)
  }

  /** A request is its instructions, its note and its history, in this order. */
  lemma {:induction false} RequestTells(env: Outside, req: Request)
    returns (lead: seq<ChatMessage>, history: seq<ChatMessage>)
    ensures Leads(req, lead) && Follows(env, req.input, history)
    ensures SameAll(!req.disableThinking, ChatMessages(env, req), lead + history)
  {
    lead, history := Preamble(req), History(env, req.input);
  }
}
