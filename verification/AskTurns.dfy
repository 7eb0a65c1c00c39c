/** The turns of the documentation agent as they are sent back upstream
    (docbackend/internal/biz/ask.go). */
module AskTurns {
  import opened Core
  import opened ChatTypes
  import opened Pairing
  import opened AskReply

  const REASONING_PLACEHOLDER: string := "[no reasoning emitted]"

  // ---- the history sent back -------------------------------------------------------------

  /** An empty id is left out of the JSON. */
  function WireId(id: string): Option<string> {
    if id == "" then None else Some(id)
  }

  function ToolCallsOf(calls: seq<Call>): seq<ToolCall> {
    seq(|calls|, i requires 0 <= i < |calls| => ToolCall(calls[i].id, calls[i].name, calls[i].arguments))
  }

  function AssistantTurn(r: Result): ChatMessage {
    ChatMessage(Assistant, Some(Text(r.content)), ToolCallsOf(r.calls), None,
                Some(if r.reasoning == "" then REASONING_PLACEHOLDER else r.reasoning))
  }

  function ToolTurn(c: Call, text: string): ChatMessage {
    ChatMessage(Tool, Some(Text(text)), [], WireId(c.id), None)
  }

  function Replies(calls: seq<Call>, tool: Tools): seq<ChatMessage> {
    if calls == [] then []
    else
      var last := calls[|calls| - 1];
      Replies(calls[..|calls| - 1], tool) + [ToolTurn(last, tool(last.name, last.arguments).0)]
  }

  function Turn(r: Result, tool: Tools): seq<ChatMessage> {
    [AssistantTurn(r)] + Replies(r.calls, tool)
  }

  /** The opening messages, and then each turn that called tools with its answers. */
  function History(opening: seq<ChatMessage>, results: seq<Result>, tool: Tools): seq<ChatMessage> {
    if results == [] then opening
    else History(opening, results[..|results| - 1], tool) + Turn(results[|results| - 1], tool)
  }

  // ---- the requests of one question ------------------------------------------------------

  /** The i-th request carried the opening and all turns before it. */
  predicate SentAt(sent: seq<seq<ChatMessage>>, opening: seq<ChatMessage>, results: seq<Result>, tool: Tools, i: nat) {
    i < |sent| && i <= |results| && sent[i] == History(opening, results[..i], tool)
  }

  /** Each request carried the opening and all turns before it. */
  predicate Conversed(sent: seq<seq<ChatMessage>>, opening: seq<ChatMessage>, results: seq<Result>, tool: Tools) {
    |results| <= |sent| <= |results| + 1 && forall i: nat :: i < |sent| ==> SentAt(sent, opening, results, tool, i)
  }

  lemma {:induction false} HistorySnoc(opening: seq<ChatMessage>, results: seq<Result>, r: Result,
                                       tool: Tools)
    ensures History(opening, results + [r], tool) == History(opening, results, tool) + Turn(r, tool)
  {
    assert (results + [r])[..|results|] == results;
  }

  lemma {:induction false} Converses(sent: seq<seq<ChatMessage>>, opening: seq<ChatMessage>, results: seq<Result>,
                                     more: seq<Result>, tool: Tools)
    requires Conversed(sent, opening, results, tool) && |sent| == |results| && |more| <= 1
    ensures Conversed(sent + [History(opening, results, tool)], opening, results + more, tool)
    ensures |more| == 1 ==>
      History(opening, results + more, tool) == History(opening, results, tool) + Turn(more[0], tool)
  {
    if |more| == 1 {
      assert more == [more[0]];
      HistorySnoc(opening, results, more[0], tool);
    }
    var next, all := sent + [History(opening, results, tool)], results + more;
    forall i: nat | i < |next| ensures SentAt(next, opening, all, tool, i) {
      if i < |sent| {
        assert SentAt(sent, opening, results, tool, i);
        assert all[..i] == results[..i];
      } else {
        assert all[..i] == results;
      }
    }
  }

  // ---- every history sent is acceptable --------------------------------------------------

  predicate AllNamed(calls: seq<Call>) {
    forall i :: 0 <= i < |calls| ==> calls[i].id != ""
  }

  lemma {:induction false} RepliesShape(calls: seq<Call>, tool: Tools)
    ensures |Replies(calls, tool)| == |calls|
    ensures forall i :: 0 <= i < |calls| ==>
      Replies(calls, tool)[i].role.Tool? && Replies(calls, tool)[i].toolCallId == WireId(calls[i].id)
  {
    if calls != [] { RepliesShape(calls[..|calls| - 1], tool); }
  }

  /** Tool messages that answer, in order, the calls still owed. */
  lemma {:induction false} RepliesPay(replies: seq<ChatMessage>, calls: seq<Call>, declared: set<string>,
                                      owed: set<string>)
    requires |replies| == |calls|
    requires forall i :: 0 <= i < |calls| ==> replies[i].role.Tool? && replies[i].toolCallId == WireId(calls[i].id)
    requires forall i :: 0 <= i < |calls| ==> calls[i].id in declared
    requires forall id :: id in owed ==> exists i :: 0 <= i < |calls| && calls[i].id == id
    ensures WellPairedFrom(replies, declared, owed) <==> AllNamed(calls)
  {
    if calls == [] {
      assert owed == {};
    } else if calls[0].id != "" {
      var id := calls[0].id;
      forall x | x in owed - {id} ensures exists i :: 0 <= i < |calls| - 1 && calls[1..][i].id == x {
        var i :| 0 <= i < |calls| && calls[i].id == x;
        assert calls[1..][i - 1].id == x;
      }
      RepliesPay(replies[1..], calls[1..], declared, owed - {id});
      assert AllNamed(calls) <==> AllNamed(calls[1..]) by {
        assert forall i :: 0 < i < |calls| ==> calls[i] == calls[1..][i - 1];
      }
    }
  }

  lemma {:induction false} TurnPaired(r: Result, tool: Tools)
    ensures WellPaired(Turn(r, tool)) <==> AllNamed(r.calls)
  {
    var m, replies := AssistantTurn(r), Replies(r.calls, tool);
    RepliesShape(r.calls, tool);
    assert Turn(r, tool)[1..] == replies;
    forall i | 0 <= i < |r.calls| ensures r.calls[i].id in Declared(m) {
      assert CallIds(m.toolCalls)[i] == r.calls[i].id;
    }
    forall id | id in Declared(m) ensures exists i :: 0 <= i < |r.calls| && r.calls[i].id == id {
      var i :| 0 <= i < |m.toolCalls| && CallIds(m.toolCalls)[i] == id;
      assert r.calls[i].id == id;
    }
    RepliesPay(replies, r.calls, Declared(m), Declared(m));
  }

  /** A history built by the loop is well paired on the wire exactly when every call in it had an
      id; the loop sends a call without one back as it came, and its answer then names no call. */
  lemma {:induction false} HistoryPaired(opening: seq<ChatMessage>, results: seq<Result>, tool: Tools)
    requires forall m :: m in opening ==> Bystander(m)
    ensures WellPaired(History(opening, results, tool))
       <==> forall i :: 0 <= i < |results| ==> AllNamed(results[i].calls)
  {
    if results == [] {
      BystandersPaired(opening);
    } else {
      var init, last := results[..|results| - 1], results[|results| - 1];
      HistoryPaired(opening, init, tool);
      TurnPaired(last, tool);
      var head, turn := History(opening, init, tool), Turn(last, tool);
      AppendedTurn(head, turn);
      assert forall i :: 0 <= i < |init| ==> results[i] == init[i];
      assert (forall i :: 0 <= i < |results| ==> AllNamed(results[i].calls))
        <==> AllNamed(last.calls) && forall i :: 0 <= i < |init| ==> AllNamed(init[i].calls);
    }
  }

  /** One call without an id is enough. */
  lemma {:induction false} UnnamedCallUnpaired(tool: Tools)
    ensures var turn := Result("", "", [Call("", "function", "search_docs", "{}")], "tool_calls");
      !WellPaired(History([], [turn], tool))
  {
    var turn := Result("", "", [Call("", "function", "search_docs", "{}")], "tool_calls");
    HistoryPaired([], [turn], tool);
    assert [turn][0] == turn && turn.calls[0].id == "" && !AllNamed(turn.calls);
  }

  lemma {:induction false} AppendedTurn(head: seq<ChatMessage>, turn: seq<ChatMessage>)
    requires turn != [] && !turn[0].role.Tool?
    ensures WellPaired(head + turn) <==> WellPaired(head) && WellPaired(turn)
  {
    var all := head + turn;
    if WellPaired(all) {
      PairedSuffix(all, |head|, {}, {});
      assert all[|head|..] == turn && all[..|head|] == head;
    }
    if WellPaired(head) && WellPaired(turn) { PairedAppend(head, turn, {}, {}); }
  }

  /** Every assistant turn sent back carries non-empty reasoning. */
  lemma {:induction false} HistoryReasons(opening: seq<ChatMessage>, results: seq<Result>, tool: Tools)
    requires forall m :: m in opening ==> !m.role.Assistant?
    ensures forall m :: m in History(opening, results, tool) && m.role.Assistant? ==>
      m.reasoning.Some? && m.reasoning.value != ""
  {
    if results != [] {
      var init, last := results[..|results| - 1], results[|results| - 1];
      HistoryReasons(opening, init, tool);
      RepliesShape(last.calls, tool);
      var turn := Turn(last, tool);
      forall i | 0 < i < |turn| ensures turn[i].role.Tool? {
        assert turn[i] == Replies(last.calls, tool)[i - 1];
      }
    }
  }

  // ---- what a request carries ------------------------------------------------------------

  /** A message that gives the reply back as it was, reasoning filled in where there was none. */
  predicate GivesBack(m: ChatMessage, r: Result) {
    && m.role.Assistant? && m.content == Some(Text(r.content)) && m.toolCallId.None?
    && m.reasoning == Some(if r.reasoning == "" then REASONING_PLACEHOLDER else r.reasoning)
    && |m.toolCalls| == |r.calls|
    && forall i :: 0 <= i < |r.calls| ==>
         && m.toolCalls[i].id == r.calls[i].id && m.toolCalls[i].name == r.calls[i].name
         && m.toolCalls[i].arguments == r.calls[i].arguments
  }

  /** A message that answers a call with what its tool gave for its name and arguments. */
  predicate AnswersCall(m: ChatMessage, c: Call, tool: Tools) {
    && m.role.Tool? && m.toolCallId == (if c.id == "" then None else Some(c.id))
    && m.content == Some(Text(tool(c.name, c.arguments).0))
  }

  /** The turn at this place: the reply, and then one answer per call, in order. */
  predicate TurnAt(ms: seq<ChatMessage>, at: nat, r: Result, tool: Tools) {
    && at + |r.calls| < |ms| && GivesBack(ms[at], r)
    && forall i :: 0 <= i < |r.calls| ==> AnswersCall(ms[at + 1 + i], r.calls[i], tool)
  }

  /** Where the k-th turn starts. */
  function PlaceOf(start: nat, results: seq<Result>, k: nat): nat
    requires k <= |results|
  {
    if k == 0 then start else PlaceOf(start, results, k - 1) + 1 + |results[k - 1].calls|
  }

  /** A request is the opening, and then every turn so far with its answers, and nothing else. */
  predicate Carries(ms: seq<ChatMessage>, opening: seq<ChatMessage>, results: seq<Result>, tool: Tools) {
    && |ms| == PlaceOf(|opening|, results, |results|) && opening <= ms
    && forall k :: 0 <= k < |results| ==> TurnAt(ms, PlaceOf(|opening|, results, k), results[k], tool)
  }

  lemma {:induction false} RepliesAnswer(calls: seq<Call>, tool: Tools)
    ensures |Replies(calls, tool)| == |calls|
    ensures forall i :: 0 <= i < |calls| ==> AnswersCall(Replies(calls, tool)[i], calls[i], tool)
  {
    if calls != [] { RepliesAnswer(calls[..|calls| - 1], tool); }
  }

  lemma {:induction false} AssistantGives(r: Result)
    ensures GivesBack(AssistantTurn(r), r)
  {
  }

  /** A reply and its answers, wherever they stand. */
  lemma {:induction false} TurnStands(head: seq<ChatMessage>, m: ChatMessage, replies: seq<ChatMessage>, r: Result,
                                      tool: Tools)
    requires GivesBack(m, r) && |replies| == |r.calls|
    requires forall i :: 0 <= i < |r.calls| ==> AnswersCall(replies[i], r.calls[i], tool)
    ensures TurnAt(head + ([m] + replies), |head|, r, tool)
  {
    var all := head + ([m] + replies);
    assert all[|head|] == m;
    forall i | 0 <= i < |r.calls| ensures AnswersCall(all[|head| + 1 + i], r.calls[i], tool) {
      assert all[|head| + 1 + i] == ([m] + replies)[1 + i] == replies[i];
    }
  }

  lemma {:induction false} TurnGives(head: seq<ChatMessage>, r: Result, tool: Tools)
    ensures |head + Turn(r, tool)| == |head| + 1 + |r.calls| && TurnAt(head + Turn(r, tool), |head|, r, tool)
  {
    RepliesAnswer(r.calls, tool);
    AssistantGives(r);
    TurnStands(head, AssistantTurn(r), Replies(r.calls, tool), r, tool);
  }

  lemma {:induction false} PlaceOfInit(start: nat, results: seq<Result>, r: Result, k: nat)
    requires k <= |results|
    ensures PlaceOf(start, results + [r], k) == PlaceOf(start, results, k)
  {
    if k > 0 { PlaceOfInit(start, results, r, k - 1); }
  }

  lemma {:induction false} TurnStays(ms: seq<ChatMessage>, more: seq<ChatMessage>, at: nat, r: Result, tool: Tools)
    requires TurnAt(ms, at, r, tool)
    ensures TurnAt(ms + more, at, r, tool)
  {
    assert (ms + more)[..|ms|] == ms;
  }

  lemma {:induction false} HistoryCarries(opening: seq<ChatMessage>, results: seq<Result>, tool: Tools)
    ensures Carries(History(opening, results, tool), opening, results, tool)
  {
    if results != [] {
      var init, last := results[..|results| - 1], results[|results| - 1];
      assert results == init + [last];
      HistoryCarries(opening, init, tool);
      var head := History(opening, init, tool);
      TurnGives(head, last, tool);
      PlaceOfInit(|opening|, init, last, |init|);
      forall k | 0 <= k < |results|
        ensures TurnAt(head + Turn(last, tool), PlaceOf(|opening|, results, k), results[k], tool)
      {
        PlaceOfInit(|opening|, init, last, k);
        if k < |init| { TurnStays(head, Turn(last, tool), PlaceOf(|opening|, init, k), init[k], tool); }
      }
    }
  }

  /** Each request is the opening and all turns before it, message by message. */
  predicate CarriedAll(sent: seq<seq<ChatMessage>>, opening: seq<ChatMessage>, results: seq<Result>, tool: Tools) {
    forall i: nat :: i < |sent| ==> i <= |results| && Carries(sent[i], opening, results[..i], tool)
  }

  lemma {:induction false} RequestsCarry(sent: seq<seq<ChatMessage>>, opening: seq<ChatMessage>, results: seq<Result>,
                                         tool: Tools)
    requires Conversed(sent, opening, results, tool)
    ensures CarriedAll(sent, opening, results, tool)
  {
    forall i: nat | i < |sent| ensures i <= |results| && Carries(sent[i], opening, results[..i], tool) {
      assert SentAt(sent, opening, results, tool, i);
      HistoryCarries(opening, results[..i], tool);
    }
  }
}
