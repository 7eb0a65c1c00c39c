/** Folding all system messages into one leading message
    (src/translate/minimaxCompat.ts, mergeSystemMessagesInPlace). */
module MergeSystem {
  import opened Core
  import opened ChatTypes
  import opened Pairing

  /** Non-empty string contents of the system messages, in order. */
  function SystemTexts(msgs: seq<ChatMessage>): seq<string> {
    if msgs == [] then []
    else
      (if msgs[0].role.System? && msgs[0].content.Some? && msgs[0].content.value.Text?
          && msgs[0].content.value.text != ""
       then [msgs[0].content.value.text] else [])
      + SystemTexts(msgs[1..])
  }

  function SystemCount(msgs: seq<ChatMessage>): nat {
    if msgs == [] then 0 else (if msgs[0].role.System? then 1 else 0) + SystemCount(msgs[1..])
  }

  function NonSystem(msgs: seq<ChatMessage>): seq<ChatMessage> {
    if msgs == [] then [] else (if msgs[0].role.System? then [] else [msgs[0]]) + NonSystem(msgs[1..])
  }

  function Merged(msgs: seq<ChatMessage>): seq<ChatMessage> {
    if SystemCount(msgs) == 0 || (SystemCount(msgs) == 1 && msgs[0].role.System?) then msgs
    else
      var texts := SystemTexts(msgs);
      (if texts == [] then [] else [Plain(System, Text(Paragraphs(texts)))]) + NonSystem(msgs)
  }

  method MergeSystemMessagesInPlace(list: MessageList)
    modifies list
    ensures list.items == Merged(old(list.items))
  {
    ghost var was := list.items;
    var systemContents: seq<string> := [];
    var systemCount := 0;
    for i := 0 to |list.items|
      invariant list.items == was
      invariant systemContents + SystemTexts(was[i..]) == SystemTexts(was)
      invariant systemCount + SystemCount(was[i..]) == SystemCount(was)
    {
      var m := list.items[i];
      assert was[i..][1..] == was[i + 1..];
      if m.role.System? {
        systemCount := systemCount + 1;
        if m.content.Some? && m.content.value.Text? && |m.content.value.text| > 0 {
          systemContents := systemContents + [m.content.value.text];
        }
      }
    }
    assert was[|was|..] == [] && systemContents + [] == systemContents;
    if systemCount == 0 {
      return;
    }
    if systemCount == 1 && |list.items| > 0 && list.items[0].role.System? {
      return;
    }
    var nonSystem := NonSystem(list.items);
    list.items := [];
    if |systemContents| > 0 {
      list.items := [Plain(System, Text(Paragraphs(systemContents)))];
    }
    list.items := list.items + nonSystem;
  }

  lemma {:induction false} NonSystemKeepsPairing(msgs: seq<ChatMessage>, declared: set<string>, owed: set<string>)
    requires WellPairedFrom(msgs, declared, owed)
    ensures WellPairedFrom(NonSystem(msgs), declared, owed)
  {
    if msgs != [] {
      var m := msgs[0];
      var rest := NonSystem(msgs[1..]);
      assert ([m] + rest)[1..] == rest;
      if m.role.Tool? {
        NonSystemKeepsPairing(msgs[1..], declared, owed - {m.toolCallId.value});
      } else {
        NonSystemKeepsPairing(msgs[1..], Declared(m), Declared(m));
        if m.role.System? {
          assert Declared(m) == {} && NonSystem(msgs) == rest;
          DeclaredIrrelevant(rest, declared);
        }
      }
    }
  }

  /** Pulling system messages out of a history cannot separate a call from its results. */
  lemma {:induction false} MergeKeepsPairing(msgs: seq<ChatMessage>)
    requires WellPaired(msgs)
    ensures WellPaired(Merged(msgs))
  {
    NonSystemKeepsPairing(msgs, {}, {});
    var head := if SystemTexts(msgs) == [] then [] else [Plain(System, Text(Paragraphs(SystemTexts(msgs))))];
    BystandersPaired(head);
    PairedAppend(head, NonSystem(msgs), {}, {});
  }

  lemma {:induction false} NoSystemLeft(msgs: seq<ChatMessage>)
    ensures forall m :: m in NonSystem(msgs) ==> !m.role.System?
    ensures SystemCount(msgs) == 0 ==> NonSystem(msgs) == msgs
    ensures SystemCount(NonSystem(msgs)) == 0
  {
    if msgs != [] {
      var rest := NonSystem(msgs[1..]);
      assert ([msgs[0]] + rest)[1..] == rest && [] + rest == rest;
      NoSystemLeft(msgs[1..]);
      assert [msgs[0]] + msgs[1..] == msgs;
    }
  }

  /** After merging at most one system message is left and it comes first; the other messages
      keep their order, and merging again changes nothing. */
  lemma {:induction false} MergedShape(msgs: seq<ChatMessage>)
    ensures NonSystem(Merged(msgs)) == NonSystem(msgs)
    ensures SystemCount(Merged(msgs)) <= 1
    ensures SystemCount(Merged(msgs)) == 1 ==> Merged(msgs)[0].role.System?
    ensures Merged(Merged(msgs)) == Merged(msgs)
  {
    NoSystemLeft(msgs);
    NoSystemLeft(NonSystem(msgs));
    var out := Merged(msgs);
    var texts := SystemTexts(msgs);
    assert [] + NonSystem(msgs) == NonSystem(msgs);
    if texts != [] {
      var head := Plain(System, Text(Paragraphs(texts)));
      assert ([head] + NonSystem(msgs))[1..] == NonSystem(msgs);
    }
  }

  // ---- what the merged message says ------------------------------------------------------

  /** What the system messages say, in order: their texts, where they are plain and not empty. */
  function SystemSaid(msgs: seq<ChatMessage>): seq<string> {
    if msgs == [] then []
    else
      var m := msgs[|msgs| - 1];
      SystemSaid(msgs[..|msgs| - 1])
      + if m.role == System && m.content.Some? && m.content.value.Text? && m.content.value.text != ""
        then [m.content.value.text] else []
  }

  /** Everything that is not said by the system, in order. */
  function OtherwiseSaid(msgs: seq<ChatMessage>): seq<ChatMessage> {
    if msgs == [] then []
    else
      OtherwiseSaid(msgs[..|msgs| - 1]) + if msgs[|msgs| - 1].role == System then [] else [msgs[|msgs| - 1]]
  }

  /** Texts with a blank line between them. */
  function Spaced(texts: seq<string>): string {
    if texts == [] then "" else if |texts| == 1 then texts[0]
    else Spaced(texts[..|texts| - 1]) + "\n\n" + texts[|texts| - 1]
  }

  lemma {:induction false} ParagraphsSpaced(texts: seq<string>)
    ensures Paragraphs(texts) == Spaced(texts)
  {
    if texts != [] {
      var init, last := texts[..|texts| - 1], texts[|texts| - 1];
      assert texts == init + [last];
      ParagraphsSpaced(init);
      ParagraphsSnoc(init, last);
    }
  }

  lemma {:induction false} SaidCons(m: ChatMessage, rest: seq<ChatMessage>)
    ensures SystemSaid([m] + rest) == SystemSaid([m]) + SystemSaid(rest)
    ensures OtherwiseSaid([m] + rest) == OtherwiseSaid([m]) + OtherwiseSaid(rest)
  {
    var all := [m] + rest;
    if rest == [] {
      assert all == [m];
    } else {
      assert all[..|all| - 1] == [m] + rest[..|rest| - 1];
      SaidCons(m, rest[..|rest| - 1]);
    }
  }

  lemma {:induction false} SaidTexts(msgs: seq<ChatMessage>)
    ensures SystemTexts(msgs) == SystemSaid(msgs) && NonSystem(msgs) == OtherwiseSaid(msgs)
  {
    if msgs != [] {
      assert msgs == [msgs[0]] + msgs[1..] && [msgs[0]][..0] == [];
      SaidCons(msgs[0], msgs[1..]);
      SaidTexts(msgs[1..]);
    }
  }

  /** Merging leaves the list alone, or it puts everything the system says into one message, a
      blank line between any two texts, before everything else. */
  predicate SaysMerged(msgs: seq<ChatMessage>, out: seq<ChatMessage>) {
    || (out == msgs && forall i :: 0 < i < |msgs| ==> msgs[i].role != System)
    || (SystemSaid(msgs) == [] && out == OtherwiseSaid(msgs))
    || (SystemSaid(msgs) != [] && out != [] && out[1..] == OtherwiseSaid(msgs)
        && out[0].role == System && out[0].content == Some(Text(Spaced(SystemSaid(msgs))))
        && out[0].toolCalls == [] && out[0].toolCallId.None? && out[0].reasoning.None?)
  }

  lemma {:induction false} FewSystems(msgs: seq<ChatMessage>)
    ensures SystemCount(msgs) == 0 ==> forall i :: 0 <= i < |msgs| ==> msgs[i].role != System
  {
    if msgs != [] {
      FewSystems(msgs[1..]);
      assert forall i :: 0 < i < |msgs| ==> msgs[i] == msgs[1..][i - 1];
    }
  }

  /** What a merge says is what was said before. */
  lemma {:induction false} MergeSays(msgs: seq<ChatMessage>)
    ensures SaysMerged(msgs, Merged(msgs))
  {
    SaidTexts(msgs);
    ParagraphsSpaced(SystemTexts(msgs));
    if SystemCount(msgs) == 0 {
      FewSystems(msgs);
    } else if SystemCount(msgs) == 1 && msgs[0].role.System? {
      FewSystems(msgs[1..]);
      assert forall i :: 0 < i < |msgs| ==> msgs[i] == msgs[1..][i - 1];
    }
  }
}
