/** The Responses shapes the proxy sends back, shared by its two response translators. */
module ResponseTypes {
  import opened Core

  datatype ChatAnnotation = ChatAnnotation(
    kind: Option<string>, url: Option<string>, title: Option<string>, summary: Option<string>)

  datatype Annotation = Annotation(kind: string, url: string, title: string, snippet: Option<string>)

  function OrElse(s: Option<string>, default: string): string {
    if s.Some? then s.value else default
  }

  function TranslateAnnotation(a: ChatAnnotation): Annotation {
    Annotation(OrElse(a.kind, "url_citation"), OrElse(a.url, ""), OrElse(a.title, ""), a.summary)
  }

  function TranslateAll(notes: seq<ChatAnnotation>): (out: seq<Annotation>)
    ensures |out| == |notes|
  {
    if notes == [] then [] else [TranslateAnnotation(notes[0])] + TranslateAll(notes[1..])
  }

  lemma {:induction false} TranslateSnoc(notes: seq<ChatAnnotation>, a: ChatAnnotation)
    ensures TranslateAll(notes + [a]) == TranslateAll(notes) + [TranslateAnnotation(a)]
  {
    if notes == [] {
      assert notes + [a] == [a] && [a][1..] == [];
    } else {
      assert (notes + [a])[1..] == notes[1..] + [a];
      TranslateSnoc(notes[1..], a);
    }
  }

  /** Finished output items. A reasoning item's `encrypted` always holds the full text; its
      summary is what the user may see. */
  datatype OutputItem =
    | ReasoningItem(id: string, summary: seq<string>, encrypted: string)
    | MessageItem(id: string, text: string, annotations: seq<Annotation>)
    | CallItem(id: string, callId: string, name: string, arguments: string, ns: Option<string>)

  datatype ChatUsage = ChatUsage(
    prompt: int, completion: int, total: int, cached: Option<int>, reasoning: Option<int>)

  datatype Usage = Usage(
    inputTokens: int, outputTokens: int, totalTokens: int, cachedTokens: Option<int>, reasoningTokens: Option<int>)

  function MapUsage(u: ChatUsage): Usage {
    Usage(u.prompt, u.completion, u.total, u.cached, u.reasoning)
  }

  /** Usage passed on field by field, where there is any. */
  predicate Counts(usage: Option<Usage>, given: Option<ChatUsage>) {
    match given
    case None => usage.None?
    case Some(c) =>
      && usage.Some?
      && usage.value.inputTokens == c.prompt && usage.value.outputTokens == c.completion
      && usage.value.totalTokens == c.total && usage.value.cachedTokens == c.cached
      && usage.value.reasoningTokens == c.reasoning
  }

  /** `token(n)` is the n-th draw of the id generator; `validJson` stands for JSON.parse. */
  datatype Config = Config(
    exposeReasoning: bool,
    namespaces: map<string, string>,
    validJson: string -> bool,
    token: nat -> string)
  {
    function ReasoningId(n: nat): string { "rs_" + token(n) }
    function MessageId(n: nat): string { "msg_" + token(n) }
    function CallItemId(n: nat): string { "fc_" + token(n) }
    function ResponseId(n: nat): string { "resp_" + token(n) }

    function Namespace(name: string): Option<string> {
      if name in namespaces && namespaces[name] != "" then Some(namespaces[name]) else None
    }

    /** Arguments that do not parse would poison every later request that replays them. */
    function Salvaged(raw: string): string {
      if raw == "" || validJson(raw) then raw else "{}"
    }

    function Summary(text: string): seq<string> {
      if exposeReasoning then [text] else []
    }
  }

  /** An item without its generated id. */
  function Anonymous(item: OutputItem): OutputItem {
    match item
    case ReasoningItem(_, summary, encrypted) => ReasoningItem("", summary, encrypted)
    case MessageItem(_, text, annotations) => MessageItem("", text, annotations)
    case CallItem(_, callId, name, arguments, ns) => CallItem("", callId, name, arguments, ns)
  }

  function AnonymousAll(items: seq<OutputItem>): (out: seq<OutputItem>)
    ensures |out| == |items|
    ensures forall i :: 0 <= i < |items| ==> out[i] == Anonymous(items[i])
  {
    seq(|items|, i requires 0 <= i < |items| => Anonymous(items[i]))
  }

  lemma {:induction false} AnonymousCons(item: OutputItem, items: seq<OutputItem>)
    ensures AnonymousAll([item] + items) == [Anonymous(item)] + AnonymousAll(items)
  {
  }
}
