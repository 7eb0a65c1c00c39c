/** What strict upstreams demand of a history: each tool message answers a call declared by
    the assistant message that opens its run, and each declared call is answered in that run. */
module Pairing {
  import opened Core
  import opened ChatTypes

  /** Left-to-right form: `declared` are the ids the current run may answer, `owed` those
      still unanswered. */
  predicate WellPairedFrom(msgs: seq<ChatMessage>, declared: set<string>, owed: set<string>) {
    if msgs == [] then
      owed == {}
    else if msgs[0].role.Tool? then
      && msgs[0].toolCallId.Some?
      && msgs[0].toolCallId.value in declared
      && WellPairedFrom(msgs[1..], declared, owed - {msgs[0].toolCallId.value})
    else
      owed == {} && WellPairedFrom(msgs[1..], Declared(msgs[0]), Declared(msgs[0]))
  }

  predicate WellPaired(msgs: seq<ChatMessage>) {
    WellPairedFrom(msgs, {}, {})
  }

  /** The message that opens the tool run position i lies in, or -1. */
  function Opener(msgs: seq<ChatMessage>, i: nat): (a: int)
    requires i <= |msgs|
    ensures -1 <= a < i
    ensures a >= 0 ==> !msgs[a].role.Tool?
    ensures forall k :: a < k < i ==> msgs[k].role.Tool?
  {
    if i == 0 then -1
    else if msgs[i - 1].role.Tool? then Opener(msgs, i - 1)
    else i - 1
  }

  ghost predicate Answers(msgs: seq<ChatMessage>, j: int, a: int, id: string) {
    && 0 <= j < |msgs|
    && msgs[j].role.Tool?
    && Opener(msgs, j) == a
    && msgs[j].toolCallId == Some(id)
  }

  /** Some message at or after p gives the answer. */
  ghost predicate AnsweredBeyond(msgs: seq<ChatMessage>, p: int, a: int, id: string) {
    exists j :: p <= j && Answers(msgs, j, a, id)
  }

  ghost predicate InScope(msgs: seq<ChatMessage>, i: int) {
    && 0 <= i < |msgs|
    && Opener(msgs, i) >= 0
    && msgs[i].toolCallId.Some?
    && msgs[i].toolCallId.value in Declared(msgs[Opener(msgs, i)])
  }

  /** The demand as upstream documentation words it, message by message. */
  ghost predicate PairedByIndex(msgs: seq<ChatMessage>) {
    && (forall i :: 0 <= i < |msgs| && msgs[i].role.Tool? ==> InScope(msgs, i))
    && (forall a, id :: 0 <= a < |msgs| && id in Declared(msgs[a]) ==> AnsweredBeyond(msgs, a + 1, a, id))
  }

  ghost function DeclaredAt(msgs: seq<ChatMessage>, p: nat): set<string>
    requires p <= |msgs|
  {
    if Opener(msgs, p) < 0 then {} else Declared(msgs[Opener(msgs, p)])
  }

  ghost function OwedAt(msgs: seq<ChatMessage>, p: nat): set<string>
    requires p <= |msgs|
  {
    set id | id in DeclaredAt(msgs, p) && !exists j :: j < p && Answers(msgs, j, Opener(msgs, p), id)
  }

  ghost predicate PairedBeyond(msgs: seq<ChatMessage>, p: nat)
    requires p <= |msgs|
  {
    && (forall i :: p <= i < |msgs| && msgs[i].role.Tool? ==> InScope(msgs, i))
    && (forall id :: id in OwedAt(msgs, p) ==> AnsweredBeyond(msgs, p, Opener(msgs, p), id))
    && (forall a, id :: p <= a < |msgs| && id in Declared(msgs[a]) ==> AnsweredBeyond(msgs, a + 1, a, id))
  }

  lemma {:induction false} OwedAfterTool(msgs: seq<ChatMessage>, p: nat)
    requires p < |msgs| && msgs[p].role.Tool? && msgs[p].toolCallId.Some?
    ensures DeclaredAt(msgs, p + 1) == DeclaredAt(msgs, p)
    ensures OwedAt(msgs, p + 1) == OwedAt(msgs, p) - {msgs[p].toolCallId.value}
  {
    var a := Opener(msgs, p);
    assert Opener(msgs, p + 1) == a;
    forall id | id in DeclaredAt(msgs, p)
      ensures id in OwedAt(msgs, p + 1) <==> id in OwedAt(msgs, p) && id != msgs[p].toolCallId.value
    {
      if id == msgs[p].toolCallId.value {
        assert Answers(msgs, p, a, id);
      }
    }
  }

  lemma {:induction false} OwedAfterOpener(msgs: seq<ChatMessage>, p: nat)
    requires p < |msgs| && !msgs[p].role.Tool?
    ensures Opener(msgs, p + 1) == p
    ensures DeclaredAt(msgs, p + 1) == OwedAt(msgs, p + 1) == Declared(msgs[p])
  {
    forall j: nat | j <= p ensures Opener(msgs, j) < p { }
  }

  lemma {:induction false} ScanMeetsIndex(msgs: seq<ChatMessage>, p: nat)
    requires p <= |msgs|
    ensures WellPairedFrom(msgs[p..], DeclaredAt(msgs, p), OwedAt(msgs, p)) <==> PairedBeyond(msgs, p)
    decreases |msgs| - p
  {
    if p == |msgs| {
      assert msgs[p..] == [];
      return;
    }
    var rest := msgs[p..];
    assert rest[0] == msgs[p] && rest[1..] == msgs[p + 1..];
    ScanMeetsIndex(msgs, p + 1);
    var a := Opener(msgs, p);
    if msgs[p].role.Tool? {
      if msgs[p].toolCallId.Some? {
        var mine := msgs[p].toolCallId.value;
        OwedAfterTool(msgs, p);
        assert InScope(msgs, p) <==> mine in DeclaredAt(msgs, p);
        assert Opener(msgs, p + 1) == a;
        if InScope(msgs, p) {
          ToolStepKeepsIndex(msgs, p);
        }
      }
    } else {
      OwedAfterOpener(msgs, p);
      OpenerStepKeepsIndex(msgs, p);
    }
  }

  lemma {:induction false} ToolStepKeepsIndex(msgs: seq<ChatMessage>, p: nat)
    requires p < |msgs| && msgs[p].role.Tool? && InScope(msgs, p)
    ensures PairedBeyond(msgs, p) <==> PairedBeyond(msgs, p + 1)
  {
    OwedAfterTool(msgs, p);
    var a := Opener(msgs, p);
    assert Opener(msgs, p + 1) == a;
    var mine := msgs[p].toolCallId.value;
    assert Declared(msgs[p]) == {};
    assert Answers(msgs, p, a, mine);
    if PairedBeyond(msgs, p) {
      var q := p + 1;
      forall id | id in OwedAt(msgs, q)
        ensures AnsweredBeyond(msgs, q, a, id)
      {
        assert AnsweredBeyond(msgs, p, a, id);
        var j :| p <= j && Answers(msgs, j, a, id);
        assert j != p;
      }
    }
    if PairedBeyond(msgs, p + 1) {
      forall id | id in OwedAt(msgs, p)
        ensures AnsweredBeyond(msgs, p, a, id)
      {
        if id != mine {
          assert id in OwedAt(msgs, p + 1);
          assert AnsweredBeyond(msgs, p + 1, a, id);
        }
      }
    }
  }

  lemma {:induction false} OpenerStepKeepsIndex(msgs: seq<ChatMessage>, p: nat)
    requires p < |msgs| && !msgs[p].role.Tool?
    ensures PairedBeyond(msgs, p) <==> OwedAt(msgs, p) == {} && PairedBeyond(msgs, p + 1)
  {
    OwedAfterOpener(msgs, p);
    var a := Opener(msgs, p);
    forall j: nat | p < j < |msgs| ensures Opener(msgs, j) >= p { }
    assert forall id :: !AnsweredBeyond(msgs, p, a, id);
  }

  /** The scan decides exactly the documented demand. */
  lemma {:induction false} PairedIffIndexed(msgs: seq<ChatMessage>)
    ensures WellPaired(msgs) <==> PairedByIndex(msgs)
  {
    assert msgs[0..] == msgs;
    assert DeclaredAt(msgs, 0) == {} && OwedAt(msgs, 0) == {};
    ScanMeetsIndex(msgs, 0);
  }

  // ---- how pairing composes -------------------------------------------------------------

  /** What a run may answer is irrelevant once the run is over. */
  lemma {:induction false} DeclaredIrrelevant(msgs: seq<ChatMessage>, declared: set<string>)
    requires WellPaired(msgs)
    ensures WellPairedFrom(msgs, declared, {})
  {
  }

  lemma {:induction false} PairedAppend(a: seq<ChatMessage>, b: seq<ChatMessage>, declared: set<string>,
                                        owed: set<string>)
    requires WellPairedFrom(a, declared, owed) && WellPaired(b)
    ensures WellPairedFrom(a + b, declared, owed)
  {
    if a == [] {
      assert a + b == b;
      DeclaredIrrelevant(b, declared);
    } else {
      assert (a + b)[1..] == a[1..] + b;
      if a[0].role.Tool? {
        PairedAppend(a[1..], b, declared, owed - {a[0].toolCallId.value});
      } else {
        PairedAppend(a[1..], b, Declared(a[0]), Declared(a[0]));
      }
    }
  }

  /** A suffix that starts outside a run stands on its own. */
  lemma {:induction false} PairedSuffix(msgs: seq<ChatMessage>, cut: nat, declared: set<string>, owed: set<string>)
    requires WellPairedFrom(msgs, declared, owed)
    requires cut < |msgs| && !msgs[cut].role.Tool?
    ensures WellPaired(msgs[cut..])
    ensures WellPairedFrom(msgs[..cut], declared, owed)
  {
    if cut == 0 {
      assert msgs[0..] == msgs;
    } else {
      assert msgs[1..][cut - 1..] == msgs[cut..];
      assert msgs[..cut][1..] == msgs[1..][..cut - 1];
      if msgs[0].role.Tool? {
        PairedSuffix(msgs[1..], cut - 1, declared, owed - {msgs[0].toolCallId.value});
      } else {
        PairedSuffix(msgs[1..], cut - 1, Declared(msgs[0]), Declared(msgs[0]));
      }
    }
  }

  /** Messages that neither call nor answer: system notes, user turns, summaries. */
  predicate Bystander(m: ChatMessage) {
    !m.role.Tool? && Declared(m) == {}
  }

  lemma {:induction false} BystandersPaired(msgs: seq<ChatMessage>)
    requires forall m :: m in msgs ==> Bystander(m)
    ensures WellPaired(msgs)
  {
    if msgs != [] {
      assert msgs[0] in msgs;
      forall m | m in msgs[1..] ensures m in msgs { }
      BystandersPaired(msgs[1..]);
    }
  }
}
