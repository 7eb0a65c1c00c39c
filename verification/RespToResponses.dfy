/** The one-shot translator from a chat completion to Responses output
    (src/translate/respToResponses.ts). */
module RespToResponses {
  import opened Core
  import opened ChatTypes
  import opened ResponseTypes
  import opened InlineThink

  /** The assistant message of a chat completion; an absent text is "". */
  datatype Completion = Completion(
    content: string,
    reasoning: string,
    annotations: seq<ChatAnnotation>,
    calls: seq<ToolCall>)

  function CallToItem(cfg: Config, n: nat, call: ToolCall): OutputItem {
    CallItem(cfg.CallItemId(n), call.id, call.name, cfg.Salvaged(call.arguments), cfg.Namespace(call.name))
  }

  function CallsToItems(cfg: Config, n: nat, calls: seq<ToolCall>): (items: seq<OutputItem>)
    ensures |items| == |calls|
    decreases |calls|
  {
    if calls == [] then [] else [CallToItem(cfg, n, calls[0])] + CallsToItems(cfg, n + 1, calls[1..])
  }

  /** Reasoning and message, when there is any. */
  function SpokenItems(cfg: Config, n: nat, c: Completion): seq<OutputItem> {
    (if c.reasoning == "" then [] else [ReasoningItem(cfg.ReasoningId(n), cfg.Summary(c.reasoning), c.reasoning)])
    + (if c.content == "" then []
       else [MessageItem(cfg.MessageId(if c.reasoning == "" then n else n + 1), c.content,
           TranslateAll(c.annotations))])
  }

  /** The whole output, drawing ids from n on. */
  function OutputOf(cfg: Config, n: nat, c: Completion): seq<OutputItem> {
    var spoken := SpokenItems(cfg, n, c);
    spoken + CallsToItems(cfg, n + |spoken|, c.calls)
  }

  datatype Response = Response(output: seq<OutputItem>, usage: Option<Usage>, incomplete: bool)

  lemma {:induction false} CallsSnoc(cfg: Config, n: nat, calls: seq<ToolCall>, call: ToolCall)
    ensures CallsToItems(cfg, n, calls + [call]) == CallsToItems(cfg, n, calls) + [CallToItem(cfg, n + |calls|, call)]
    decreases |calls|
  {
    if calls == [] {
      assert calls + [call] == [call] && [call][1..] == [];
    } else {
      assert (calls + [call])[1..] == calls[1..] + [call];
      CallsSnoc(cfg, n + 1, calls[1..], call);
    }
  }

  function CompletionOf(content: Option<string>, reasoning: Option<string>,
                        annotations: seq<ChatAnnotation>, calls: seq<ToolCall>): Completion {
    Completion(OrElse(content, ""), OrElse(reasoning, ""), annotations, calls)
  }

  /** With `extractInlineThink` the message itself is rewritten before it is translated. */
  method Translate(cfg: Config, n: nat, message: ResponseMessage, annotations: seq<ChatAnnotation>,
                   calls: seq<ToolCall>, finishReason: Option<string>, usage: Option<ChatUsage>,
                   extractInlineThink: bool)
    returns (r: Response)
    modifies message
    ensures (message.content, message.reasoning)
         == if extractInlineThink then WithThinkSplit(old(message.content), old(message.reasoning))
            else (old(message.content), old(message.reasoning))
    ensures extractInlineThink ==>
      ThinksApart(old(message.content), old(message.reasoning), message.content, message.reasoning)
    ensures r.output == OutputOf(cfg, n, CompletionOf(message.content, message.reasoning, annotations, calls))
    ensures Counts(r.usage, usage)
    ensures r.incomplete <==> finishReason == Some("length")
  {
    if extractInlineThink {
      ApplyInlineThinkSplitToMessage(message);
    }
    var output := AddOutput(cfg, n, CompletionOf(message.content, message.reasoning, annotations, calls));
    r := Response(output, if usage.Some? then Some(MapUsage(usage.value)) else None, finishReason == Some("length"));
  }

  method AddOutput(cfg: Config, n: nat, c: Completion) returns (output: seq<OutputItem>)
    ensures output == OutputOf(cfg, n, c)
  {
    var spoken := AddSpoken(cfg, n, c);
    output := AddCalls(cfg, n, spoken, c.calls);
  }

  method AddSpoken(cfg: Config, n: nat, c: Completion) returns (output: seq<OutputItem>)
    ensures output == SpokenItems(cfg, n, c)
  {
    output := [];
    if c.reasoning != "" {
      var summary := if cfg.exposeReasoning then [c.reasoning] else [];
      output := output + [ReasoningItem(cfg.ReasoningId(n), summary, c.reasoning)];
    }
    if c.content != "" {
      output := output + [MessageItem(cfg.MessageId(n + |output|), c.content, TranslateAll(c.annotations))];
    }
  }

  method AddCalls(cfg: Config, n: nat, spoken: seq<OutputItem>, calls: seq<ToolCall>) returns (output: seq<OutputItem>)
    ensures output == spoken + CallsToItems(cfg, n + |spoken|, calls)
  {
    output := spoken;
    for i := 0 to |calls|
      invariant output == spoken + CallsToItems(cfg, n + |spoken|, calls[..i])
    {
      CallsSnoc(cfg, n + |spoken|, calls[..i], calls[i]);
      assert calls[..i + 1] == calls[..i] + [calls[i]];
      output := output + [CallToItem(cfg, n + |output|, calls[i])];
    }
    assert calls[..|calls|] == calls;
  }

  lemma {:induction false} CallsIgnoreIds(cfg: Config, n: nat, m: nat, calls: seq<ToolCall>)
    ensures AnonymousAll(CallsToItems(cfg, n, calls)) == AnonymousAll(CallsToItems(cfg, m, calls))
    decreases |calls|
  {
    if calls != [] {
      CallsIgnoreIds(cfg, n + 1, m + 1, calls[1..]);
      AnonymousCons(CallToItem(cfg, n, calls[0]), CallsToItems(cfg, n + 1, calls[1..]));
      AnonymousCons(CallToItem(cfg, m, calls[0]), CallsToItems(cfg, m + 1, calls[1..]));
    }
  }

  /** The id an item of its kind draws. */
  predicate Drawn(cfg: Config, item: OutputItem, n: nat) {
    item.id == (match item
                case ReasoningItem(_, _, _) => "rs_"
                case MessageItem(_, _, _) => "msg_"
                case CallItem(_, _, _, _, _) => "fc_") + cfg.token(n)
  }

  lemma {:induction false} CallsDrawn(cfg: Config, n: nat, calls: seq<ToolCall>, i: nat)
    requires i < |calls|
    ensures Drawn(cfg, CallsToItems(cfg, n, calls)[i], n + i)
    decreases |calls|
  {
    if i > 0 { CallsDrawn(cfg, n + 1, calls[1..], i - 1); }
  }

  /** Every item of a response has an id of its own: the tokens are drawn one by one. */
  lemma {:induction false} OutputDrawn(cfg: Config, n: nat, c: Completion)
    ensures forall i :: 0 <= i < |OutputOf(cfg, n, c)| ==> Drawn(cfg, OutputOf(cfg, n, c)[i], n + i)
  {
    var spoken := SpokenItems(cfg, n, c);
    forall i | 0 <= i < |OutputOf(cfg, n, c)| ensures Drawn(cfg, OutputOf(cfg, n, c)[i], n + i) {
      if i >= |spoken| { CallsDrawn(cfg, n + |spoken|, c.calls, i - |spoken|); }
    }
  }
}
