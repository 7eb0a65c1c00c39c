/** The Chat Completions shapes the proxy inspects or emits (src/translate/types.ts). */
module ChatTypes {
  import opened Core

  /** A role the clients may send; anything the type does not list is kept by name. */
  datatype Role = System | Developer | User | Assistant | Tool | Unlisted(name: string)

  datatype ContentPart = TextPart(text: string) | ImagePart(url: string)

  datatype Content = Text(text: string) | Parts(parts: seq<ContentPart>)

  datatype ToolCall = ToolCall(id: string, name: string, arguments: string)

  /** An absent `tool_calls` and an empty one are the same to every reader. */
  datatype ChatMessage = ChatMessage(
    role: Role,
    content: Option<Content>,
    toolCalls: seq<ToolCall>,
    toolCallId: Option<string>,
    reasoning: Option<string>)

  function Plain(role: Role, content: Content): ChatMessage {
    ChatMessage(role, Some(content), [], None, None)
  }

  function ToolMessage(id: string, text: string): ChatMessage {
    ChatMessage(Tool, Some(Text(text)), [], Some(id), None)
  }

  function CallIds(calls: seq<ToolCall>): (ids: seq<string>)
    ensures |ids| == |calls|
    ensures forall i :: 0 <= i < |calls| ==> ids[i] == calls[i].id
  {
    seq(|calls|, i requires 0 <= i < |calls| => calls[i].id)
  }

  /** The call ids an assistant message declares. */
  function Declared(m: ChatMessage): set<string> {
    if m.role.Assistant? then set id | id in CallIds(m.toolCalls) else {}
  }

  function RoleName(role: Role): string {
    match role
    case System => "system"
    case Developer => "developer"
    case User => "user"
    case Assistant => "assistant"
    case Tool => "tool"
    case Unlisted(name) => name
  }

  // ---- what a content says ---------------------------------------------------------------

  /** All text of a content, joined. */
  function TextIn(c: Content): string {
    match c
    case Text(text) => text
    case Parts(parts) => WordsIn(parts)
  }

  function WordsIn(parts: seq<ContentPart>): string {
    if parts == [] then ""
    else WordsIn(parts[..|parts| - 1]) + if parts[|parts| - 1].TextPart? then parts[|parts| - 1].text else ""
  }

  /** All images of a content, in order. */
  function Pictures(c: Content): seq<string> {
    match c
    case Text(_) => []
    case Parts(parts) => PicturesIn(parts)
  }

  function PicturesIn(parts: seq<ContentPart>): seq<string> {
    if parts == [] then []
    else PicturesIn(parts[..|parts| - 1]) + if parts[|parts| - 1].ImagePart? then [parts[|parts| - 1].url] else []
  }

  lemma {:induction false} WordsAppend(a: seq<ContentPart>, b: seq<ContentPart>)
    ensures WordsIn(a + b) == WordsIn(a) + WordsIn(b) && PicturesIn(a + b) == PicturesIn(a) + PicturesIn(b)
  {
    if b == [] {
      assert a + b == a;
      EmptyEnds(WordsIn(a));
    } else {
      var init, q := b[..|b| - 1], b[|b| - 1];
      assert (a + b)[..|a + b| - 1] == a + init;
      WordsAppend(a, init);
      Regroup(WordsIn(a), WordsIn(init), if q.TextPart? then q.text else "");
    }
  }

  lemma {:induction false} WordsOne(p: ContentPart)
    ensures WordsIn([p]) == (if p.TextPart? then p.text else "")
    ensures PicturesIn([p]) == if p.ImagePart? then [p.url] else []
  {
    assert [p][..0] == [];
  }

  /** A message array handed from pass to pass and edited in place. */
  class MessageList {
    var items: seq<ChatMessage>

    constructor ()
      ensures items == []
    {
      items := [];
    }
  }
}
