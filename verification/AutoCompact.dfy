/** Summarising the older middle of a long history (src/translate/autoCompact.ts). */
module AutoCompact {
  import opened Core
  import opened ChatTypes
  import opened Pairing

  const CHARS_PER_TOKEN := 4
  const IMAGE_TOKEN_COST := 1024
  const MIN_MIDDLE_TOKENS := 1000
  const CACHE_MAX := 64

  // ---- token estimate --------------------------------------------------------------------

  function PartsChars(parts: seq<ContentPart>): nat {
    if parts == [] then 0 else (if parts[0].TextPart? then |parts[0].text| else 0) + PartsChars(parts[1..])
  }

  function PartsImages(parts: seq<ContentPart>): nat {
    if parts == [] then 0 else (if parts[0].ImagePart? then 1 else 0) + PartsImages(parts[1..])
  }

  function CallsChars(calls: seq<ToolCall>): nat {
    if calls == [] then 0 else |calls[0].name| + |calls[0].arguments| + 8 + CallsChars(calls[1..])
  }

  /** Characters of a message, then a flat budget per image. */
  function MessageCost(m: ChatMessage): nat {
    var body :=
      match m.content
      case None => 0
      case Some(Text(text)) => |text|
      case Some(Parts(parts)) => PartsChars(parts);
    var images := if m.content.Some? && m.content.value.Parts? then PartsImages(m.content.value.parts) else 0;
    var thought := if m.reasoning.Some? then |m.reasoning.value| else 0;
    var chars := |RoleName(m.role)| + 4 + body + thought + CallsChars(m.toolCalls);
    (chars + CHARS_PER_TOKEN - 1) / CHARS_PER_TOKEN + IMAGE_TOKEN_COST * images
  }

  /** The letters of some calls, eight more for each. */
  function CallLetters(calls: seq<ToolCall>): nat {
    if calls == [] then 0
    else CallLetters(calls[..|calls| - 1]) + |calls[|calls| - 1].name| + |calls[|calls| - 1].arguments| + 8
  }

  lemma {:induction false} CallsLettered(calls: seq<ToolCall>)
    ensures CallsChars(calls) == CallLetters(calls)
  {
    if calls != [] {
      var init, last := calls[..|calls| - 1], calls[|calls| - 1];
      assert calls == init + [last];
      CallsLettered(init);
      CallsCharsSnoc(init, last);
    }
  }

  lemma {:induction false} CallsCharsSnoc(calls: seq<ToolCall>, c: ToolCall)
    ensures CallsChars(calls + [c]) == CallsChars(calls) + |c.name| + |c.arguments| + 8
  {
    if calls == [] {
      assert calls + [c] == [c] && [c][1..] == [];
    } else {
      assert (calls + [c])[1..] == calls[1..] + [c];
      CallsCharsSnoc(calls[1..], c);
    }
  }

  lemma {:induction false} PartsLettered(parts: seq<ContentPart>)
    ensures PartsChars(parts) == |WordsIn(parts)| && PartsImages(parts) == |PicturesIn(parts)|
  {
    if parts != [] {
      assert parts == [parts[0]] + parts[1..];
      PartsLettered(parts[1..]);
      WordsAppend([parts[0]], parts[1..]);
      WordsOne(parts[0]);
    }
  }

  /** What a message says and shows: its text, its reasoning, its calls; and its images. */
  function Letters(m: ChatMessage): nat {
    (if m.content.Some? then |TextIn(m.content.value)| else 0)
    + (if m.reasoning.Some? then |m.reasoning.value| else 0) + CallLetters(m.toolCalls)
  }

  function Images(m: ChatMessage): nat {
    if m.content.Some? then |Pictures(m.content.value)| else 0
  }

  /** A message costs a token for every four letters of it, its role's name and four more, rounded
      up, and 1024 for each image. */
  lemma {:induction false} CostMeans(m: ChatMessage)
    ensures var text := MessageCost(m) - 1024 * Images(m);
      4 * text - 4 < |RoleName(m.role)| + 4 + Letters(m) <= 4 * text
  {
    CallsLettered(m.toolCalls);
    if m.content.Some? && m.content.value.Parts? { PartsLettered(m.content.value.parts); }
  }

  function Cost(msgs: seq<ChatMessage>): nat {
    if msgs == [] then 0 else MessageCost(msgs[0]) + Cost(msgs[1..])
  }

  lemma {:induction false} CostAppend(a: seq<ChatMessage>, b: seq<ChatMessage>)
    ensures Cost(a + b) == Cost(a) + Cost(b)
  {
    if a == [] {
      assert a + b == b;
    } else {
      assert (a + b)[1..] == a[1..] + b;
      CostAppend(a[1..], b);
    }
  }

  lemma {:induction false} CostSplit(msgs: seq<ChatMessage>, i: nat, j: nat)
    requires i <= j <= |msgs|
    ensures Cost(msgs[i..]) == Cost(msgs[i..j]) + Cost(msgs[j..])
  {
    CostAppend(msgs[i..j], msgs[j..]);
    assert msgs[i..] == msgs[i..j] + msgs[j..];
  }

  method EstimateMessageTokens(m: ChatMessage) returns (tokens: nat)
    ensures tokens == MessageCost(m)
  {
    var chars := |RoleName(m.role)| + 4;
    var imageTokens := 0;
    match m.content {
      case None =>
      case Some(Text(text)) => chars := chars + |text|;
      case Some(Parts(parts)) =>
        ghost var start := chars;
        for i := 0 to |parts|
          invariant chars + PartsChars(parts[i..]) == start + PartsChars(parts)
          invariant imageTokens + IMAGE_TOKEN_COST * PartsImages(parts[i..]) == IMAGE_TOKEN_COST * PartsImages(parts)
        {
          assert parts[i..][1..] == parts[i + 1..];
          match parts[i] {
            case TextPart(text) => chars := chars + |text|;
            case ImagePart(_) => imageTokens := imageTokens + IMAGE_TOKEN_COST;
          }
        }
        assert parts[|parts|..] == [];
    }
    if m.reasoning.Some? && m.reasoning.value != "" {
      chars := chars + |m.reasoning.value|;
    }
    ghost var before := chars;
    for i := 0 to |m.toolCalls|
      invariant chars + CallsChars(m.toolCalls[i..]) == before + CallsChars(m.toolCalls)
    {
      assert m.toolCalls[i..][1..] == m.toolCalls[i + 1..];
      chars := chars + |m.toolCalls[i].name| + |m.toolCalls[i].arguments| + 8;
    }
    assert m.toolCalls[|m.toolCalls|..] == [];
    tokens := (chars + CHARS_PER_TOKEN - 1) / CHARS_PER_TOKEN + imageTokens;
  }

  method EstimateTokens(msgs: seq<ChatMessage>) returns (total: nat)
    ensures total == Cost(msgs)
  {
    total := 0;
    for i := 0 to |msgs|
      invariant total + Cost(msgs[i..]) == Cost(msgs)
    {
      assert msgs[i..][1..] == msgs[i + 1..];
      var tokens := EstimateMessageTokens(msgs[i]);
      total := total + tokens;
    }
    assert msgs[|msgs|..] == [];
  }

  // ---- the plan --------------------------------------------------------------------------

  datatype Plan = Plan(head: seq<ChatMessage>, middle: seq<ChatMessage>, tail: seq<ChatMessage>)

  predicate LeadingRole(role: Role) {
    role.System? || role.Developer?
  }

  function HeadEnd(msgs: seq<ChatMessage>): (n: nat)
    ensures n <= |msgs|
    ensures forall i :: 0 <= i < n ==> msgs[i].role in {System, Developer}
    ensures n < |msgs| ==> msgs[n].role !in {System, Developer}
  {
    if msgs != [] && LeadingRole(msgs[0].role) then 1 + HeadEnd(msgs[1..]) else 0
  }

  /** `max(1, floor(atTokens * 0.5))`. */
  function TailBudget(atTokens: int): (n: nat)
    ensures if atTokens < 2 then n == 1 else 2 * n <= atTokens < 2 * n + 2
  {
    if atTokens / 2 >= 1 then atTokens / 2 else 1
  }

  /** A cut the tail may start at: a user message after the head, within the budget. */
  predicate TailFits(msgs: seq<ChatMessage>, atTokens: int, cut: int) {
    && HeadEnd(msgs) <= cut < |msgs|
    && msgs[cut].role.User?
    && Cost(msgs[cut..]) <= TailBudget(atTokens)
  }

  ghost predicate LongestTail(msgs: seq<ChatMessage>, atTokens: int, cut: int) {
    TailFits(msgs, atTokens, cut) && forall c :: TailFits(msgs, atTokens, c) ==> cut <= c
  }

  ghost predicate WorthCompacting(msgs: seq<ChatMessage>, atTokens: int, cut: int) {
    && |msgs| >= 4
    && Cost(msgs) > atTokens
    && LongestTail(msgs, atTokens, cut)
    && Cost(msgs[HeadEnd(msgs)..cut]) >= MIN_MIDDLE_TOKENS
  }

  /** Where the backward budget scan stops: the first index from which the rest fits. */
  method EarliestInBudget(msgs: seq<ChatMessage>, headEnd: nat, budget: nat) returns (earliest: nat)
    requires headEnd <= |msgs|
    ensures headEnd <= earliest <= |msgs|
    ensures forall c :: headEnd <= c < earliest ==> Cost(msgs[c..]) > budget
    ensures forall c :: earliest <= c < |msgs| ==> Cost(msgs[c..]) <= budget
  {
    var acc := 0;
    earliest := |msgs|;
    assert msgs[|msgs|..] == [];
    while earliest > headEnd
      invariant headEnd <= earliest <= |msgs|
      invariant acc == Cost(msgs[earliest..])
      invariant earliest < |msgs| ==> acc <= budget
    {
      var i := earliest - 1;
      assert msgs[i..][0] == msgs[i] && msgs[i..][1..] == msgs[earliest..];
      var tokens := EstimateMessageTokens(msgs[i]);
      acc := acc + tokens;
      if acc > budget {
        break;
      }
      earliest := i;
    }
    forall c | headEnd <= c < earliest ensures Cost(msgs[c..]) > budget {
      CostSplit(msgs, c, earliest - 1);
    }
    forall c | earliest <= c < |msgs| ensures Cost(msgs[c..]) <= budget {
      CostSplit(msgs, earliest, c);
    }
  }

  lemma {:induction false} FirstUserIsLongest(msgs: seq<ChatMessage>, atTokens: int, earliest: nat, cut: nat)
    requires HeadEnd(msgs) <= earliest <= cut < |msgs| && msgs[cut].role.User?
    requires forall c :: HeadEnd(msgs) <= c < earliest ==> Cost(msgs[c..]) > TailBudget(atTokens)
    requires forall c :: earliest <= c < |msgs| ==> Cost(msgs[c..]) <= TailBudget(atTokens)
    requires forall c :: earliest <= c < cut ==> !msgs[c].role.User?
    ensures LongestTail(msgs, atTokens, cut)
  {
  }

  method CountHead(msgs: seq<ChatMessage>) returns (headEnd: nat)
    ensures headEnd == HeadEnd(msgs)
  {
    headEnd := 0;
    while headEnd < |msgs| && LeadingRole(msgs[headEnd].role)
      invariant headEnd <= |msgs|
      invariant headEnd + HeadEnd(msgs[headEnd..]) == HeadEnd(msgs)
    {
      assert msgs[headEnd..][1..] == msgs[headEnd + 1..];
      headEnd := headEnd + 1;
    }
  }

  /** Snapping the cut forward to a user message. */
  method NextUser(msgs: seq<ChatMessage>, from: nat) returns (cut: nat)
    requires from <= |msgs|
    ensures from <= cut <= |msgs|
    ensures forall c :: from <= c < cut ==> !msgs[c].role.User?
    ensures cut < |msgs| ==> msgs[cut].role.User?
  {
    cut := from;
    while cut < |msgs| && !msgs[cut].role.User?
      invariant from <= cut <= |msgs|
      invariant forall c :: from <= c < cut ==> !msgs[c].role.User?
    {
      cut := cut + 1;
    }
  }

  /** The plan, by what it must achieve rather than how it is found. */
  ghost function PlanOf(msgs: seq<ChatMessage>, atTokens: int): Option<Plan> {
    if cut :| WorthCompacting(msgs, atTokens, cut)
    then Some(Plan(msgs[..HeadEnd(msgs)], msgs[HeadEnd(msgs)..cut], msgs[cut..]))
    else None
  }

  lemma {:induction false} PlanAt(msgs: seq<ChatMessage>, atTokens: int, cut: int)
    requires LongestTail(msgs, atTokens, cut) && |msgs| >= 4 && Cost(msgs) > atTokens
    ensures PlanOf(msgs, atTokens)
         == if Cost(msgs[HeadEnd(msgs)..cut]) >= MIN_MIDDLE_TOKENS
            then Some(Plan(msgs[..HeadEnd(msgs)], msgs[HeadEnd(msgs)..cut], msgs[cut..]))
            else None
  {
    assert forall c :: WorthCompacting(msgs, atTokens, c) ==> c == cut;
    if Cost(msgs[HeadEnd(msgs)..cut]) >= MIN_MIDDLE_TOKENS {
      assert WorthCompacting(msgs, atTokens, cut);
    }
  }

  method PlanChatCompaction(msgs: seq<ChatMessage>, atTokens: int) returns (plan: Option<Plan>)
    ensures plan == PlanOf(msgs, atTokens)
  {
    if |msgs| < 4 {
      return None;
    }
    var total := EstimateTokens(msgs);
    if total <= atTokens {
      return None;
    }
    var headEnd := CountHead(msgs);
    var earliest := EarliestInBudget(msgs, headEnd, TailBudget(atTokens));
    var cut := NextUser(msgs, earliest);
    if cut >= |msgs| {
      assert forall c :: !TailFits(msgs, atTokens, c);
      return None;
    }
    FirstUserIsLongest(msgs, atTokens, earliest, cut);
    PlanAt(msgs, atTokens, cut);
    var middle := msgs[headEnd..cut];
    if |middle| == 0 {
      return None;
    }
    var middleTokens := EstimateTokens(middle);
    if middleTokens < MIN_MIDDLE_TOKENS {
      return None;
    }
    plan := Some(Plan(msgs[..headEnd], middle, msgs[cut..]));
  }

  /** What a plan guarantees: nothing lost, a head of instructions, a middle worth the call,
      and the longest tail that starts at a user message within the budget. */
  lemma {:induction false} PlanMeaning(msgs: seq<ChatMessage>, atTokens: int)
    requires PlanOf(msgs, atTokens).Some?
    ensures var Plan(head, middle, tail) := PlanOf(msgs, atTokens).value;
            && head + middle + tail == msgs
            && |head| == HeadEnd(msgs)
            && Cost(middle) >= MIN_MIDDLE_TOKENS
            && LongestTail(msgs, atTokens, |head| + |middle|)
            && tail == msgs[|head| + |middle|..]
            && Cost(tail) <= TailBudget(atTokens)
  {
  }

  lemma {:induction false} CompactionCost(plan: Plan, note: ChatMessage)
    ensures Cost(plan.head + plan.middle + plan.tail) == Cost(plan.head) + Cost(plan.middle) + Cost(plan.tail)
    ensures Cost(plan.head + [note] + plan.tail) == Cost(plan.head) + MessageCost(note) + Cost(plan.tail)
  {
    CostAppend(plan.head + [note], plan.tail);
    CostAppend(plan.head, [note]);
    assert [note][1..] == [] && Cost([]) == 0;
    CostAppend(plan.head + plan.middle, plan.tail);
    CostAppend(plan.head, plan.middle);
  }

  lemma {:induction false} CompactionKeepsPairing(msgs: seq<ChatMessage>, cut: nat, note: ChatMessage)
    requires WellPaired(msgs) && cut < |msgs| && msgs[cut].role.User? && note.role.User?
    ensures WellPaired(msgs[..HeadEnd(msgs)] + [note] + msgs[cut..])
  {
    var top := msgs[..HeadEnd(msgs)] + [note];
    forall m | m in top ensures Bystander(m) {
      if m != note {
        var k :| 0 <= k < HeadEnd(msgs) && msgs[k] == m;
      }
    }
    BystandersPaired(top);
    PairedSuffix(msgs, cut, {}, {});
    PairedAppend(top, msgs[cut..], {}, {});
  }

  /** Replacing the middle by a summary keeps pairing, and the estimate drops by the middle's
      cost: what is left is bounded by the head, the summary and the tail budget. */
  lemma {:induction false} CompactionSound(msgs: seq<ChatMessage>, atTokens: int, note: ChatMessage)
    requires PlanOf(msgs, atTokens).Some? && note.role.User?
    ensures var plan := PlanOf(msgs, atTokens).value;
            var out := plan.head + [note] + plan.tail;
            && (WellPaired(msgs) ==> WellPaired(out))
            && Cost(out) == Cost(msgs) - Cost(plan.middle) + MessageCost(note)
            && Cost(out) <= Cost(plan.head) + MessageCost(note) + TailBudget(atTokens)
  {
    PlanMeaning(msgs, atTokens);
    var plan := PlanOf(msgs, atTokens).value;
    CompactionCost(plan, note);
    if WellPaired(msgs) {
      assert plan.head == msgs[..HeadEnd(msgs)];
      CompactionKeepsPairing(msgs, |plan.head| + |plan.middle|, note);
    }
  }

  // ---- compaction with its bounded cache -------------------------------------------------

  datatype SummaryCall = Failed | Answered(text: string)

  datatype CompactResult =
    | Untouched
    | Compacted(beforeTokens: nat, afterTokens: nat, summarizedMessages: nat, cached: bool)

  const SUMMARY_REST: string :=
    " " + "earlier message(s), inserted by mimo2codex to fit the context window. Treat as prior context.]"

  function SummaryMessage(count: nat, summary: string): ChatMessage {
    Plain(User, Text("[Auto-compacted summary of " + Decimal(count) + SUMMARY_REST + "\n\n" + Trim(summary)))
  }

  /** Text that may stand before a number, and text that may stand after one. */
  predicate NoDigits(s: string) {
    forall i :: 0 <= i < |s| ==> !('0' <= s[i] <= '9')
  }

  predicate EndsNumber(s: string) {
    s != "" && !('0' <= s[0] <= '9')
  }

  /** A user message that says how many messages it stands for, and then, after a blank line, the
      summary without the white space around it. */
  ghost predicate StandsFor(m: ChatMessage, count: nat, summary: string) {
    && m.role == User && m.toolCalls == [] && m.toolCallId.None? && m.reasoning.None?
    && exists lead, rest {:trigger NoDigits(lead), EndsNumber(rest)} ::
         && NoDigits(lead) && EndsNumber(rest)
         && m.content == Some(Text(lead + Decimal(count) + rest + "\n\n" + Trim(summary)))
  }

  lemma {:induction false} SummaryStands(count: nat, summary: string)
    ensures StandsFor(SummaryMessage(count, summary), count, summary)
  {
    var lead, rest := "[Auto-compacted summary of ", SUMMARY_REST;
    assert rest[0] == ' ' && NoDigits(lead) && EndsNumber(rest);
    assert SummaryMessage(count, summary).content == Some(Text(lead + Decimal(count) + rest + "\n\n" + Trim(summary)));
  }

  /** The hash of model and rendering, taken to be injective. */
  function CacheKey(model: string, rendered: string): string {
    model + "\n" + rendered
  }

  lemma {:induction false} BreakAfter(m: string, a: string, i: nat)
    requires '\n' !in m && i < |m|
    ensures (m + "\n" + a)[i] != '\n' && (m + "\n" + a)[|m|] == '\n'
  {
    assert (m + "\n" + a)[i] == m[i] && m[i] in m;
  }

  /** No two models, and no two renderings, share a key; a model's name is one line. */
  lemma {:induction false} KeysDiffer(m: string, a: string, n: string, b: string)
    requires '\n' !in m && '\n' !in n && CacheKey(m, a) == CacheKey(n, b)
    ensures m == n && a == b
  {
    var key := CacheKey(m, a);
    if |m| < |n| {
      BreakAfter(n, b, |m|);
    } else if |n| < |m| {
      BreakAfter(m, a, |n|);
    } else {
      assert m == key[..|m|] && a == key[|m| + 1..] && b == key[|m| + 1..];
    }
  }

  /** Each entry stands once in the queue, and none is blank. */
  ghost predicate Queued(order: seq<string>, entries: map<string, string>) {
    && (forall i, j :: 0 <= i < j < |order| ==> order[i] != order[j])
    && (forall k :: k in entries <==> k in order)
    && (forall k :: k in entries ==> Trim(entries[k]) != "")
  }

  lemma {:induction false} QueuedMore(order: seq<string>, entries: map<string, string>, key: string, summary: string)
    requires Queued(order, entries) && key !in entries && Trim(summary) != ""
    ensures Queued(order + [key], entries[key := summary])
  {
    var more := order + [key];
    assert forall i :: 0 <= i < |order| ==> more[i] == order[i] && order[i] in order;
  }

  lemma {:induction false} QueuedLess(order: seq<string>, entries: map<string, string>)
    requires Queued(order, entries) && order != []
    ensures Queued(order[1..], entries - {order[0]})
  {
    var rest := order[1..];
    assert forall i :: 0 <= i < |rest| ==> rest[i] == order[i + 1];
    assert forall k :: k in order <==> k == order[0] || k in rest;
  }

  /** Insertion-ordered map that drops its oldest entry beyond CACHE_MAX. Reading an entry does
      not move it, so eviction is first in, first out. */
  class SummaryCache {
    var entries: map<string, string>
    var order: seq<string>

    ghost predicate Valid()
      reads this
    {
      |order| <= CACHE_MAX && Queued(order, entries)
    }

    constructor ()
      ensures Valid() && order == []
    {
      entries, order := map[], [];
    }

    method Store(key: string, summary: string)
      requires Valid() && key !in entries && Trim(summary) != ""
      modifies this
      ensures Valid()
      ensures order == if |old(order)| < CACHE_MAX then old(order) + [key] else old(order)[1..] + [key]
      ensures key in entries && entries[key] == summary
      ensures forall k :: k in order && k != key ==> k in old(entries) && entries[k] == old(entries)[k]
    {
      QueuedMore(order, entries, key, summary);
      entries := entries[key := summary];
      order := order + [key];
      if |order| > CACHE_MAX {
        QueuedLess(order, entries);
        var oldest := order[0];
        entries := entries - {oldest};
        order := order[1..];
        assert order == old(order)[1..] + [key];
      }
    }
  }

  /** The text a middle is replaced by: remembered, freshly answered, or none usable. */
  function UsableSummary(remembered: map<string, string>, key: string, answer: SummaryCall): Option<string> {
    if key in remembered then Some(remembered[key])
    else if answer.Answered? && Trim(answer.text) != "" then Some(answer.text)
    else None
  }

  /** Reading the cache, or calling upstream and storing a usable answer. A hit leaves the
      eviction order as it was. */
  method Summarize(cache: SummaryCache, key: string, rendered: string, callChat: string -> SummaryCall)
    returns (summary: Option<string>)
    requires cache.Valid()
    modifies cache
    ensures cache.Valid()
    ensures summary == UsableSummary(old(cache.entries), key, callChat(rendered))
    // What is remembered is used; only then a new answer, unless it failed or is blank.
    ensures key in old(cache.entries) ==> summary == Some(old(cache.entries)[key])
    ensures key !in old(cache.entries) ==>
      summary == match callChat(rendered)
                 case Failed => None
                 case Answered(text) => if IsBlank(text) then None else Some(text)
    ensures summary.Some? ==> key in cache.entries && cache.entries[key] == summary.value
    ensures summary.None? || key in old(cache.entries) ==>
              cache.order == old(cache.order) && cache.entries == old(cache.entries)
  {
    if key in cache.entries {
      return Some(cache.entries[key]);
    }
    if callChat(rendered).Answered? { TrimBlank(callChat(rendered).text); }
    match callChat(rendered) {
      case Failed => return None;
      case Answered(text) =>
        if Trim(text) == "" {
          return None;
        }
        cache.Store(key, text);
        return Some(text);
    }
  }

  /** What the history's middle is summarised by, where there is a plan and a summary for it. */
  ghost function SummaryFor(msgs: seq<ChatMessage>, model: string, atTokens: int, remembered: map<string, string>,
                            render: seq<ChatMessage> -> string, callChat: string -> SummaryCall): Option<string>
  {
    match PlanOf(msgs, atTokens)
    case None => None
    case Some(plan) =>
      UsableSummary(remembered, CacheKey(model, render(plan.middle)), callChat(render(plan.middle)))
  }

  /** The history after compaction: the plan's head, its summary and its tail. */
  ghost function Shortened(msgs: seq<ChatMessage>, atTokens: int, summary: Option<string>): seq<ChatMessage> {
    match PlanOf(msgs, atTokens)
    case None => msgs
    case Some(plan) =>
      if summary.None? then msgs else plan.head + [SummaryMessage(|plan.middle|, summary.value)] + plan.tail
  }

  /** What compaction may do to a history: nothing; or one message that stands for all between the
      leading instructions and the longest tail in the budget that starts with the user. */
  ghost predicate ShortenedFor(msgs: seq<ChatMessage>, atTokens: int, out: seq<ChatMessage>) {
    || out == msgs
    || exists cut, note, summary {:trigger StandsFor(note, cut, summary)} ::
         && HeadEnd(msgs) + cut <= |msgs| && LongestTail(msgs, atTokens, HeadEnd(msgs) + cut)
         && StandsFor(note, cut, summary) && !IsBlank(summary)
         && out == msgs[..HeadEnd(msgs)] + [note] + msgs[HeadEnd(msgs) + cut..]
  }

  lemma {:induction false} CutShortens(msgs: seq<ChatMessage>, atTokens: int, cut: nat, note: ChatMessage,
                                       summary: string)
    requires HeadEnd(msgs) + cut <= |msgs| && LongestTail(msgs, atTokens, HeadEnd(msgs) + cut)
    requires StandsFor(note, cut, summary) && !IsBlank(summary)
    ensures ShortenedFor(msgs, atTokens, msgs[..HeadEnd(msgs)] + [note] + msgs[HeadEnd(msgs) + cut..])
  {
  }

  lemma {:induction false} PlanParts(msgs: seq<ChatMessage>, atTokens: int)
    requires PlanOf(msgs, atTokens).Some?
    ensures var Plan(head, middle, tail) := PlanOf(msgs, atTokens).value;
      && head == msgs[..HeadEnd(msgs)] && tail == msgs[HeadEnd(msgs) + |middle|..]
      && HeadEnd(msgs) + |middle| <= |msgs| && LongestTail(msgs, atTokens, HeadEnd(msgs) + |middle|)
  {
    PlanMeaning(msgs, atTokens);
    var Plan(head, middle, tail) := PlanOf(msgs, atTokens).value;
    assert head == (head + middle + tail)[..|head|];
  }

  lemma {:induction false} PlanShortens(msgs: seq<ChatMessage>, atTokens: int, note: ChatMessage, summary: string)
    requires PlanOf(msgs, atTokens).Some? && !IsBlank(summary)
    requires StandsFor(note, |PlanOf(msgs, atTokens).value.middle|, summary)
    ensures var plan := PlanOf(msgs, atTokens).value;
      ShortenedFor(msgs, atTokens, plan.head + [note] + plan.tail)
  {
    PlanParts(msgs, atTokens);
    CutShortens(msgs, atTokens, |PlanOf(msgs, atTokens).value.middle|, note, summary);
  }

  lemma {:induction false} ShortenedMeans(msgs: seq<ChatMessage>, atTokens: int, summary: Option<string>)
    requires summary.Some? ==> !IsBlank(summary.value)
    ensures ShortenedFor(msgs, atTokens, Shortened(msgs, atTokens, summary))
  {
    if PlanOf(msgs, atTokens).Some? && summary.Some? {
      var n := |PlanOf(msgs, atTokens).value.middle|;
      SummaryStands(n, summary.value);
      PlanShortens(msgs, atTokens, SummaryMessage(n, summary.value), summary.value);
    }
  }

  lemma {:induction false} SummarySolid(remembered: map<string, string>, key: string, answer: SummaryCall)
    requires forall k :: k in remembered ==> Trim(remembered[k]) != ""
    ensures var s := UsableSummary(remembered, key, answer); s.Some? ==> !IsBlank(s.value)
  {
    var s := UsableSummary(remembered, key, answer);
    if s.Some? { TrimBlank(s.value); }
  }

  method MaybeCompactChat(chat: MessageList, model: string, atTokens: int, cache: SummaryCache,
                          render: seq<ChatMessage> -> string, callChat: string -> SummaryCall)
    returns (result: CompactResult)
    requires cache.Valid()
    modifies chat, cache
    ensures cache.Valid()
    ensures WellPaired(old(chat.items)) ==> WellPaired(chat.items)
    // Without a plan, or without a usable summary, nothing changes.
    ensures result.Untouched? ==>
              chat.items == old(chat.items) && cache.order == old(cache.order) && cache.entries == old(cache.entries)
    ensures var summary := SummaryFor(old(chat.items), model, atTokens, old(cache.entries), render, callChat);
      && chat.items == Shortened(old(chat.items), atTokens, summary)
      && (summary.None? <==> result.Untouched?)
    ensures ShortenedFor(old(chat.items), atTokens, chat.items)
    ensures !result.Untouched? ==>
      var plan := PlanOf(old(chat.items), atTokens);
      plan.Some? && result == Compacted(Cost(old(chat.items)), Cost(chat.items), |plan.value.middle|,
                                         CacheKey(model, render(plan.value.middle)) in old(cache.entries))
  {
    ghost var msgs := chat.items;
    var maybePlan := PlanChatCompaction(chat.items, atTokens);
    if maybePlan.None? {
      return Untouched;
    }
    var plan := maybePlan.value;
    var beforeTokens := EstimateTokens(chat.items);
    var rendered := render(plan.middle);
    var key := CacheKey(model, rendered);
    var cached := key in cache.entries;
    SummarySolid(cache.entries, key, callChat(rendered));
    var summary := Summarize(cache, key, rendered, callChat);
    ShortenedMeans(msgs, atTokens, summary);
    if summary.None? {
      return Untouched;
    }
    var note := SummaryMessage(|plan.middle|, summary.value);
    chat.items := plan.head + [note] + plan.tail;
    CompactionSound(msgs, atTokens, note);
    var afterTokens := EstimateTokens(chat.items);
    result := Compacted(beforeTokens, afterTokens, |plan.middle|, cached);
  }
}
