/** The non-streaming form: a lazy regular expression over the whole string, and how it
    relates to the one-pass scan (src/translate/minimaxCompat.ts, splitInlineThink). */
module InlineThink {
  import opened Core
  import opened ThinkSplitter

  /** Visible text and reasoning blocks in order; `open` when the last block never closed. */
  datatype Pieces = Pieces(content: string, blocks: seq<string>, open: bool)

  /** The one-pass scan, keeping blocks apart. In a block, blocks[0] is what is left of it. */
  function ScanPieces(inThink: bool, s: string): (p: Pieces)
    ensures inThink ==> p.blocks != []
    decreases |s|
  {
    if s == "" then Pieces("", if inThink then [""] else [], inThink)
    else if Target(inThink) <= s then
      var p := ScanPieces(!inThink, s[|Target(inThink)|..]);
      if inThink then p.(blocks := [""] + p.blocks) else p
    else
      var p := ScanPieces(inThink, s[1..]);
      if inThink then p.(blocks := [s[..1] + p.blocks[0]] + p.blocks[1..])
      else p.(content := s[..1] + p.content)
  }

  /** Keeping the blocks apart does not change what is reasoning and what is content. */
  lemma {:induction false} PiecesAreScan(inThink: bool, s: string)
    ensures Scan(inThink, s) == Split(ScanPieces(inThink, s).content, Concat(ScanPieces(inThink, s).blocks))
    decreases |s|
  {
    if s == "" {
      assert Concat([""]) == "" by { assert [""][1..] == []; }
    } else if Target(inThink) <= s {
      var rest := s[|Target(inThink)|..];
      PiecesAreScan(!inThink, rest);
      assert ([""] + ScanPieces(!inThink, rest).blocks)[1..] == ScanPieces(!inThink, rest).blocks;
    } else {
      PiecesAreScan(inThink, s[1..]);
      var p := ScanPieces(inThink, s[1..]);
      if inThink {
        assert ([s[..1] + p.blocks[0]] + p.blocks[1..])[1..] == p.blocks[1..];
        assert s[..1] + (p.blocks[0] + Concat(p.blocks[1..])) == (s[..1] + p.blocks[0]) + Concat(p.blocks[1..]);
        assert "" + p.content == p.content;
      } else {
        assert "" + Concat(p.blocks) == Concat(p.blocks);
      }
    }
  }

  /** What the global match of `<think>([\s\S]*?)</think>` finds. */
  function RegexPieces(s: string): (string, seq<string>)
    decreases |s|
  {
    var i := IndexOf(s, OPEN_TAG);
    if i < 0 then (s, [])
    else
      var rest := s[i + |OPEN_TAG|..];
      var j := IndexOf(rest, CLOSE_TAG);
      if j < 0 then (s, [])
      else
        var (content, blocks) := RegexPieces(rest[j + |CLOSE_TAG|..]);
        (s[..i] + content, [rest[..j]] + blocks)
  }

  function SplitInline(s: string): Split {
    var (content, blocks) := RegexPieces(s);
    Split(content, Paragraphs(blocks))
  }

  /** One `exec`: the first match, what stands before it, and what is left to search. */
  method Exec(s: string) returns (found: bool, before: string, block: string, rest: string)
    ensures found == Matches(s)
    ensures found ==> |rest| < |s| && RegexPieces(s) == Prepend(before, [block], RegexPieces(rest))
  {
    found, before, block, rest := false, s, "", "";
    var i := IndexOf(s, OPEN_TAG);
    if i < 0 { return; }
    var inner := s[i + |OPEN_TAG|..];
    var j := IndexOf(inner, CLOSE_TAG);
    if j < 0 { return; }
    FirstMatch(s, i, inner, j);
    found, before, block, rest := true, s[..i], inner[..j], inner[j + |CLOSE_TAG|..];
  }

  /** The exec loop, with `lastIndex` moving past each match. */
  method SplitInlineThink(s: string) returns (out: Split)
    ensures out == SplitInline(s)
  {
    if s == "" {
      return NOTHING;
    }
    var tail := s;
    var reasoningParts: seq<string> := [];
    var content := "";
    ghost var whole := RegexPieces(s);
    FromStart(whole);
    var found, before, block, rest := Exec(tail);
    while found
      invariant whole == Prepend(content, reasoningParts, RegexPieces(tail)) && found == Matches(tail)
      invariant found ==> |rest| < |tail| && RegexPieces(tail) == Prepend(before, [block], RegexPieces(rest))
      decreases |tail|, found
    {
      PrependTwice(content, reasoningParts, before, block, RegexPieces(rest));
      content := content + before;
      reasoningParts := reasoningParts + [block];
      tail := rest;
      found, before, block, rest := Exec(tail);
    }
    NoMatch(tail, content, reasoningParts);
    out := Split(content + tail, Paragraphs(reasoningParts));
  }

  /** The pattern matches somewhere. */
  predicate Matches(s: string) {
    var i := IndexOf(s, OPEN_TAG);
    i >= 0 && IndexOf(s[i + |OPEN_TAG|..], CLOSE_TAG) >= 0
  }

  function Prepend(content: string, blocks: seq<string>, p: (string, seq<string>)): (string, seq<string>) {
    (content + p.0, blocks + p.1)
  }

  lemma {:induction false} FromStart(p: (string, seq<string>))
    ensures Prepend("", [], p) == p
  {
    assert "" + p.0 == p.0 && [] + p.1 == p.1;
  }

  lemma {:induction false} NoMatch(s: string, content: string, blocks: seq<string>)
    requires !Matches(s)
    ensures Prepend(content, blocks, RegexPieces(s)) == (content + s, blocks)
  {
    assert blocks + [] == blocks;
  }

  lemma {:induction false} PrependTwice(content: string, blocks: seq<string>, text: string, block: string,
                                        p: (string, seq<string>))
    ensures Prepend(content, blocks, Prepend(text, [block], p)) == Prepend(content + text, blocks + [block], p)
  {
    assert content + (text + p.0) == (content + text) + p.0;
    assert blocks + ([block] + p.1) == (blocks + [block]) + p.1;
  }

  lemma {:induction false} FirstMatch(s: string, i: nat, rest: string, j: nat)
    requires i == IndexOf(s, OPEN_TAG) && rest == s[i + |OPEN_TAG|..] && j == IndexOf(rest, CLOSE_TAG)
    ensures RegexPieces(s) == Prepend(s[..i], [rest[..j]], RegexPieces(rest[j + |CLOSE_TAG|..]))
  {
  }

  /** Text added in front, to the current block or to the content. */
  function Extended(inThink: bool, text: string, p: Pieces): Pieces
    requires inThink ==> p.blocks != []
  {
    if inThink then p.(blocks := [text + p.blocks[0]] + p.blocks[1..]) else p.(content := text + p.content)
  }

  lemma {:induction false} OneCharacter(inThink: bool, s: string)
    requires s != "" && !(Target(inThink) <= s)
    ensures ScanPieces(inThink, s) == Extended(inThink, s[..1], ScanPieces(inThink, s[1..]))
  {
  }

  /** Text free of the target passes into the current channel. */
  lemma {:induction false} PiecesPast(inThink: bool, s: string, n: nat)
    requires n <= |s| && TagFree(Target(inThink), s, n)
    ensures ScanPieces(inThink, s) == Extended(inThink, s[..n], ScanPieces(inThink, s[n..]))
  {
    var p := ScanPieces(inThink, s[n..]);
    if n == 0 {
      assert s[0..] == s && s[..0] == "" && "" + p.content == p.content;
      if inThink {
        assert "" + p.blocks[0] == p.blocks[0];
      }
    } else {
      TagFreeTail(Target(inThink), s, n);
      PiecesPast(inThink, s[1..], n - 1);
      assert s[1..][n - 1..] == s[n..];
      OneCharacter(inThink, s);
      ExtendedTwice(inThink, s[..1], s[1..][..n - 1], p);
      assert s[..1] + s[1..][..n - 1] == s[..n];
    }
  }

  lemma {:induction false} ExtendedTwice(inThink: bool, a: string, b: string, p: Pieces)
    requires inThink ==> p.blocks != []
    ensures Extended(inThink, a, Extended(inThink, b, p)) == Extended(inThink, a + b, p)
  {
    if inThink {
      assert a + (b + p.blocks[0]) == (a + b) + p.blocks[0];
      assert ([b + p.blocks[0]] + p.blocks[1..])[1..] == p.blocks[1..];
    } else {
      assert a + (b + p.content) == (a + b) + p.content;
    }
  }

  lemma {:induction false} PiecesWhenUntagged(inThink: bool, s: string)
    requires IndexOf(s, Target(inThink)) < 0
    ensures ScanPieces(inThink, s) == if inThink then Pieces("", [s], true) else Pieces(s, [], false)
  {
    IndexOfTag(s, Target(inThink));
    PiecesPast(inThink, s, |s|);
    assert s[|s|..] == "" && s[..|s|] == s && s + "" == s;
  }

  /** Text up to a tag: it completes a block, or is content before the next one. */
  function Toggled(inThink: bool, text: string, q: Pieces): Pieces {
    if inThink then q.(blocks := [text] + q.blocks) else q.(content := text + q.content)
  }

  lemma {:induction false} PiecesAtTag(inThink: bool, s: string, i: nat)
    requires i == IndexOf(s, Target(inThink))
    ensures ScanPieces(inThink, s) == Toggled(inThink, s[..i], ScanPieces(!inThink, s[i + |Target(inThink)|..]))
  {
    var t := Target(inThink);
    IndexOfTag(s, t);
    PiecesPast(inThink, s, i);
    assert s[i..][|t|..] == s[i + |t|..];
    var q := ScanPieces(!inThink, s[i + |t|..]);
    if inThink {
      assert ([""] + q.blocks)[1..] == q.blocks && s[..i] + "" == s[..i];
    }
  }

  /** A matched block splits both forms the same way. */
  lemma {:induction false} BlockSplitsPieces(s: string, i: nat, rest: string, j: nat)
    requires i == IndexOf(s, OPEN_TAG) && rest == s[i + |OPEN_TAG|..] && j == IndexOf(rest, CLOSE_TAG)
    ensures ScanPieces(false, s)
         == Toggled(false, s[..i], Toggled(true, rest[..j], ScanPieces(false, rest[j + |CLOSE_TAG|..])))
  {
    PiecesAtTag(false, s, i);
    PiecesAtTag(true, rest, j);
  }

  lemma {:induction false} OpenLeft(s: string, i: nat, rest: string)
    requires i == IndexOf(s, OPEN_TAG) && rest == s[i + |OPEN_TAG|..]
    ensures s == s[..i] + OPEN_TAG + rest
  {
    IndexOfTag(s, OPEN_TAG);
    assert s[i..][..|OPEN_TAG|] == OPEN_TAG;
  }

  lemma {:induction false} UnclosedPieces(s: string, i: nat, rest: string)
    requires i == IndexOf(s, OPEN_TAG) && rest == s[i + |OPEN_TAG|..] && IndexOf(rest, CLOSE_TAG) < 0
    ensures ScanPieces(false, s) == Pieces(s[..i], [rest], true)
    ensures RegexPieces(s) == (s, [])
  {
    PiecesAtTag(false, s, i);
    PiecesWhenUntagged(true, rest);
    assert s[..i] + "" == s[..i];
  }

  /** The two forms agree while no block is open; an open one is a block more for the scan, and
      stays in the content, tag and all, for the regex. */
  predicate Agree(found: (string, seq<string>), p: Pieces) {
    if p.open then
      p.blocks != [] && found == (p.content + OPEN_TAG + p.blocks[|p.blocks| - 1], p.blocks[..|p.blocks| - 1])
    else found == (p.content, p.blocks)
  }

  lemma {:induction false} BlockAgrees(found: (string, seq<string>), p: Pieces, text: string, block: string)
    requires Agree(found, p)
    ensures Agree(Prepend(text, [block], found), Toggled(false, text, Toggled(true, block, p)))
  {
    if p.open {
      var all := [block] + p.blocks;
      assert all[..|all| - 1] == [block] + p.blocks[..|p.blocks| - 1];
      Regroup(text, p.content + OPEN_TAG, p.blocks[|p.blocks| - 1]);
      Regroup(text, p.content, OPEN_TAG);
    }
  }

  lemma {:induction false} UntaggedAgrees(s: string)
    requires IndexOf(s, OPEN_TAG) < 0
    ensures Agree(RegexPieces(s), ScanPieces(false, s))
  {
    PiecesWhenUntagged(false, s);
  }

  lemma {:induction false} RegexAgainstScan(s: string)
    ensures Agree(RegexPieces(s), ScanPieces(false, s))
    decreases |s|
  {
    var i := IndexOf(s, OPEN_TAG);
    if i < 0 {
      UntaggedAgrees(s);
    } else {
      var rest := s[i + |OPEN_TAG|..];
      var j := IndexOf(rest, CLOSE_TAG);
      if j < 0 {
        UnclosedPieces(s, i, rest);
        OpenLeft(s, i, rest);
        var blocks: seq<string> := [rest][..0];
        assert blocks == [];
      } else {
        var last := rest[j + |CLOSE_TAG|..];
        RegexAgainstScan(last);
        FirstMatch(s, i, rest, j);
        BlockSplitsPieces(s, i, rest, j);
        BlockAgrees(RegexPieces(last), ScanPieces(false, last), s[..i], rest[..j]);
      }
    }
  }

  /** What the regex finds, told by the scan: the same content and blocks, but for a last block that
      never closed, which stays in the content behind its tag. */
  lemma {:induction false} RegexFinds(s: string)
    ensures var p := ScanPieces(false, s);
      if p.open then
        p.blocks != []
        && RegexPieces(s) == (p.content + OPEN_TAG + p.blocks[|p.blocks| - 1], p.blocks[..|p.blocks| - 1])
      else RegexPieces(s) == (p.content, p.blocks)
  {
    RegexAgainstScan(s);
  }

  /** The regex form and the streaming scan find the same content and the same blocks exactly
      when every opened block is closed; nested openings and stray closings included. */
  lemma {:induction false} RegexAgreesIffClosed(s: string)
    ensures RegexPieces(s) == (ScanPieces(false, s).content, ScanPieces(false, s).blocks)
       <==> !ScanPieces(false, s).open
  {
    RegexAgainstScan(s);
  }

  /** An unclosed block: the regex leaves it in the content, the scan takes it for reasoning. */
  lemma {:induction false} UnclosedBlock()
    ensures RegexPieces("<think>a") == ("<think>a", []) && ScanPieces(false, "<think>a") == Pieces("", ["a"], true)
  {
    var s, rest := "<think>a", "a";
    assert OPEN_TAG <= s && s[7..] == rest && s[..0] == "";
    assert !(CLOSE_TAG <= rest) && rest[1..] == "" && IndexOf("", CLOSE_TAG) < 0;
    UnclosedPieces(s, 0, rest);
  }

  // ---- in place on a message -------------------------------------------------------------

  /** The chat message of a one-shot response, as far as the split concerns it. */
  class ResponseMessage {
    var content: Option<string>
    var reasoning: Option<string>

    constructor (content: Option<string>, reasoning: Option<string>)
      ensures this.content == content && this.reasoning == reasoning
    {
      this.content, this.reasoning := content, reasoning;
    }
  }

  /** Content and reasoning after the split; both stay when no reasoning is found. */
  function WithThinkSplit(content: Option<string>, reasoning: Option<string>): (Option<string>, Option<string>) {
    if content.None? || SplitInline(content.value).reasoning == "" then (content, reasoning)
    else
      var split := SplitInline(content.value);
      var existing := if reasoning.Some? then reasoning.value else "";
      (Some(split.content),
       Some(if existing != "" then existing + "\n\n" + split.reasoning else split.reasoning))
  }

  /** What the split makes of a message, told by the one-pass scan: the closed blocks join the
      reasoning it had, a blank line between any two; the rest is its content, a block that never
      closed included. */
  predicate ThinksApart(content: Option<string>, reasoning: Option<string>, told: Option<string>,
                        thought: Option<string>)
  {
    match content
    case None => told == None && thought == reasoning
    case Some(text) =>
      var p := ScanPieces(false, text);
      var left := p.open && p.blocks != [];
      var closed := if left then p.blocks[..|p.blocks| - 1] else p.blocks;
      if closed == [] || closed == [""] then told == content && thought == reasoning
      else
        && told == Some(if left then p.content + "<think>" + p.blocks[|p.blocks| - 1] else p.content)
        && thought == Some(Paragraphs(if reasoning.Some? && reasoning.value != "" then [reasoning.value] + closed
                                      else closed))
  }

  lemma {:induction false} ParagraphsEmpty(texts: seq<string>)
    ensures Paragraphs(texts) == "" <==> texts == [] || texts == [""]
  {
  }

  lemma {:induction false} ParagraphsCons(s: string, texts: seq<string>)
    requires texts != []
    ensures Paragraphs([s] + texts) == s + "\n\n" + Paragraphs(texts)
  {
    assert ([s] + texts)[1..] == texts;
  }

  /** Splitting a message does that. */
  lemma {:induction false} SplitThinksApart(content: Option<string>, reasoning: Option<string>)
    ensures var split := WithThinkSplit(content, reasoning); ThinksApart(content, reasoning, split.0, split.1)
  {
    if content.Some? {
      var blocks := RegexPieces(content.value).1;
      RegexFinds(content.value);
      ParagraphsEmpty(blocks);
      if blocks != [] && reasoning.Some? { ParagraphsCons(reasoning.value, blocks); }
    }
  }

  method ApplyInlineThinkSplitToMessage(message: ResponseMessage)
    modifies message
    ensures (message.content, message.reasoning) == WithThinkSplit(old(message.content), old(message.reasoning))
    ensures ThinksApart(old(message.content), old(message.reasoning), message.content, message.reasoning)
  {
    SplitThinksApart(message.content, message.reasoning);
    if message.content.None? {
      return;
    }
    var split := SplitInlineThink(message.content.value);
    if split.reasoning == "" {
      return;
    }
    var existing := if message.reasoning.Some? then message.reasoning.value else "";
    message.reasoning := Some(if existing != "" then existing + "\n\n" + split.reasoning else split.reasoning);
    message.content := Some(split.content);
  }
}
