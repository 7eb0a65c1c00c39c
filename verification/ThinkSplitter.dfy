/** Separating inline `<think>...</think>` reasoning from visible text: the stateful chunk
    splitter and the whole-string regex form (src/translate/minimaxCompat.ts). */
module ThinkSplitter {
  import opened Core

  const OPEN_TAG: string := "<think>"
  const CLOSE_TAG: string := "</think>"

  /** The tag that would end the current mode. */
  function Target(inThink: bool): string {
    if inThink then CLOSE_TAG else OPEN_TAG
  }

  datatype Split = Split(content: string, reasoning: string)

  const NOTHING := Split("", "")

  function Plus(a: Split, b: Split): Split {
    Split(a.content + b.content, a.reasoning + b.reasoning)
  }

  /** Text goes to reasoning inside a block and to content outside. */
  function Routed(inThink: bool, s: string): Split {
    if inThink then Split("", s) else Split(s, "")
  }

  // ---- the reference: one pass, one character or tag at a time ---------------------------

  function Scan(inThink: bool, s: string): Split
    decreases |s|
  {
    if s == "" then NOTHING
    else if Target(inThink) <= s then Scan(!inThink, s[|Target(inThink)|..])
    else Plus(Routed(inThink, s[..1]), Scan(inThink, s[1..]))
  }

  /** Whether the scan's last step consumes a tag. */
  predicate EndsAtTag(inThink: bool, s: string)
    decreases |s|
  {
    if s == "" then false
    else if Target(inThink) <= s then
      s == Target(inThink) || EndsAtTag(!inThink, s[|Target(inThink)|..])
    else EndsAtTag(inThink, s[1..])
  }

  lemma {:induction false} PlusAssociative(a: Split, b: Split, c: Split)
    ensures Plus(Plus(a, b), c) == Plus(a, Plus(b, c))
  {
    assert (a.content + b.content) + c.content == a.content + (b.content + c.content);
    assert (a.reasoning + b.reasoning) + c.reasoning == a.reasoning + (b.reasoning + c.reasoning);
  }

  lemma {:induction false} PlusNothing(a: Split)
    ensures Plus(NOTHING, a) == a == Plus(a, NOTHING)
  {
    assert a.content + "" == a.content && a.reasoning + "" == a.reasoning;
  }

  predicate TagAt(t: string, s: string, k: int) {
    0 <= k <= |s| && t <= s[k..]
  }

  /** No tag starts before position n. */
  ghost predicate TagFree(t: string, s: string, n: int) {
    forall k :: 0 <= k < n ==> !TagAt(t, s, k)
  }

  lemma {:induction false} TagAtTail(t: string, s: string, k: nat)
    requires 0 < k <= |s|
    ensures TagAt(t, s, k) <==> TagAt(t, s[1..], k - 1)
  {
    assert s[1..][k - 1..] == s[k..];
  }

  lemma {:induction false} TagFreeTail(t: string, s: string, n: nat)
    requires 0 < n <= |s| && TagFree(t, s, n)
    ensures TagFree(t, s[1..], n - 1)
    ensures !(t <= s)
  {
    assert !TagAt(t, s, 0) && s[0..] == s;
    forall k | 0 <= k < n - 1 ensures !TagAt(t, s[1..], k) {
      TagAtTail(t, s, k + 1);
    }
  }

  /** JavaScript's `indexOf`. */
  function IndexOf(s: string, t: string): (i: int)
    requires t != ""
    ensures i == -1 || 0 <= i <= |s| - |t|
  {
    if s == "" then -1
    else if t <= s then 0
    else
      var rest := IndexOf(s[1..], t);
      if rest < 0 then -1 else rest + 1
  }

  /** The first place the tag stands, or none. */
  lemma {:induction false} IndexOfTag(s: string, t: string)
    requires t != ""
    ensures IndexOf(s, t) >= 0 ==> TagAt(t, s, IndexOf(s, t))
    ensures TagFree(t, s, if IndexOf(s, t) < 0 then |s| else IndexOf(s, t))
  {
    assert s[0..] == s;
    if s != "" && !(t <= s) {
      IndexOfTag(s[1..], t);
      forall k | 0 < k <= |s| ensures TagAt(t, s, k) == TagAt(t, s[1..], k - 1) { TagAtTail(t, s, k); }
    }
  }

  // ---- the splitter as a function on its two fields --------------------------------------

  datatype State = State(inThink: bool, carry: string)

  const FRESH := State(false, "")

  /** The last k characters may be the start of a tag. */
  predicate MayOpen(target: string, buf: string, k: int) {
    0 <= k <= |buf| && buf[|buf| - k..] <= target
  }

  /** The most characters, up to k, that may be the start of a tag. */
  function HeldBack(target: string, buf: string, k: nat): (held: nat)
    requires k <= |buf|
    ensures held <= k
  {
    if k == 0 || MayOpen(target, buf, k) then k else HeldBack(target, buf, k - 1)
  }

  lemma {:induction false} HeldBackMost(target: string, buf: string, k: nat)
    requires k <= |buf|
    ensures MayOpen(target, buf, HeldBack(target, buf, k))
    ensures forall j :: HeldBack(target, buf, k) < j <= k ==> !MayOpen(target, buf, j)
  {
    if k == 0 {
      assert buf[|buf|..] == "";
    } else if !MayOpen(target, buf, k) {
      HeldBackMost(target, buf, k - 1);
    }
  }

  lemma {:induction false} HeldBackAt(target: string, buf: string, k: nat, held: nat)
    requires held <= k <= |buf| && MayOpen(target, buf, held)
    requires forall j :: held < j <= k ==> !MayOpen(target, buf, j)
    ensures HeldBack(target, buf, k) == held
  {
    if held < k { HeldBackAt(target, buf, k - 1, held); }
  }

  function CarryLength(inThink: bool, buf: string): nat {
    HeldBack(Target(inThink), buf, if |Target(inThink)| - 1 < |buf| then |Target(inThink)| - 1 else |buf|)
  }

  /** The while loop of processChunk. When the buffer runs out exactly at a tag, the carry is
      left as it was on entry (`kept`). */
  function Drain(inThink: bool, kept: string, buf: string): (State, Split)
    decreases |buf|
  {
    if buf == "" then (State(inThink, kept), NOTHING)
    else
      var idx := IndexOf(buf, Target(inThink));
      if idx < 0 then
        var cut := |buf| - CarryLength(inThink, buf);
        (State(inThink, buf[cut..]), Routed(inThink, buf[..cut]))
      else
        var (st, out) := Drain(!inThink, kept, buf[idx + |Target(inThink)|..]);
        (st, Plus(Routed(inThink, buf[..idx]), out))
  }

  lemma {:induction false} DrainLast(inThink: bool, kept: string, buf: string)
    requires buf != "" && IndexOf(buf, Target(inThink)) < 0
    ensures var cut := |buf| - CarryLength(inThink, buf);
            Drain(inThink, kept, buf) == (State(inThink, buf[cut..]), Routed(inThink, buf[..cut]))
  {
  }

  lemma {:induction false} DrainTag(inThink: bool, kept: string, buf: string, before: Split)
    requires buf != "" && IndexOf(buf, Target(inThink)) >= 0
    ensures var idx := IndexOf(buf, Target(inThink));
            var rest := Drain(!inThink, kept, buf[idx + |Target(inThink)|..]);
            && Drain(inThink, kept, buf) == (rest.0, Plus(Routed(inThink, buf[..idx]), rest.1))
            && Plus(before, Drain(inThink, kept, buf).1) == Plus(Plus(before, Routed(inThink, buf[..idx])), rest.1)
  {
    var idx := IndexOf(buf, Target(inThink));
    PlusAssociative(before, Routed(inThink, buf[..idx]), Drain(!inThink, kept, buf[idx + |Target(inThink)|..]).1);
  }

  function Process(st: State, text: string): (State, Split) {
    Drain(st.inThink, st.carry, st.carry + text)
  }

  /** The variant that clears the carry once it has been taken into the buffer. */
  function ProcessCleared(st: State, text: string): (State, Split) {
    Drain(st.inThink, "", st.carry + text)
  }

  function Flush(st: State): Split {
    if st.carry == "" then NOTHING else Routed(st.inThink, st.carry)
  }

  /** What is put out so far, and what draining the rest will put out, make up the goal. */
  predicate Draining(goal: (State, Split), inThink: bool, kept: string, buf: string, out: Split) {
    goal.0 == Drain(inThink, kept, buf).0 && goal.1 == Plus(out, Drain(inThink, kept, buf).1)
  }

  lemma {:induction false} DrainingLast(goal: (State, Split), inThink: bool, kept: string, buf: string, out: Split)
    requires Draining(goal, inThink, kept, buf, out) && buf != "" && IndexOf(buf, Target(inThink)) < 0
    ensures var cut := |buf| - CarryLength(inThink, buf);
            Draining(goal, inThink, buf[cut..], "", Plus(out, Routed(inThink, buf[..cut])))
  {
    DrainLast(inThink, kept, buf);
    PlusNothing(Plus(out, Routed(inThink, buf[..|buf| - CarryLength(inThink, buf)])));
  }

  lemma {:induction false} DrainingTag(goal: (State, Split), inThink: bool, kept: string, buf: string, out: Split)
    requires Draining(goal, inThink, kept, buf, out) && buf != "" && IndexOf(buf, Target(inThink)) >= 0
    ensures var idx := IndexOf(buf, Target(inThink));
            Draining(goal, !inThink, kept, buf[idx + |Target(inThink)|..], Plus(out, Routed(inThink, buf[..idx])))
  {
    DrainTag(inThink, kept, buf, out);
  }

  // ---- the splitter as written -----------------------------------------------------------

  /** The longest tail of at most so many characters that may begin the tag. */
  method LongestStart(target: string, buf: string, maxBack: nat) returns (k: nat)
    requires maxBack <= |buf|
    ensures k == HeldBack(target, buf, maxBack)
  {
    k := maxBack;
    while k > 0 && !MayOpen(target, buf, k)
      invariant k <= maxBack && HeldBack(target, buf, maxBack) == HeldBack(target, buf, k)
    {
      k := k - 1;
    }
  }

  class InlineThinkSplitter {
    var inThink: bool
    var carry: string

    ghost function View(): State
      reads this
    {
      State(inThink, carry)
    }

    constructor ()
      ensures View() == FRESH
    {
      inThink, carry := false, "";
    }

    method MaybeCarryTail(buf: string) returns (emit: string, held: string)
      ensures var cut := |buf| - CarryLength(inThink, buf); emit == buf[..cut] && held == buf[cut..]
    {
      var target := Target(inThink);
      var k := LongestStart(target, buf, if |target| - 1 < |buf| then |target| - 1 else |buf|);
      emit, held := buf[..|buf| - k], buf[|buf| - k..];
    }

    /** All but a tail that may be the start of a tag. */
    method TakeTail(buf: string, before: Split) returns (out: Split)
      modifies this`carry
      ensures var cut := |buf| - CarryLength(inThink, buf);
        carry == buf[cut..] && out == Plus(before, Routed(inThink, buf[..cut]))
    {
      var emit, held := MaybeCarryTail(buf);
      out := Plus(before, Routed(inThink, emit));
      carry := held;
    }

    /** Text up to the next tag, and across it. */
    method TakeToTag(buf: string, idx: nat, before: Split) returns (rest: string, out: Split)
      requires idx + |Target(inThink)| <= |buf|
      modifies this`inThink
      ensures inThink == !old(inThink) && rest == buf[idx + |Target(old(inThink))|..]
      ensures out == Plus(before, Routed(old(inThink), buf[..idx]))
    {
      out := Plus(before, Routed(inThink, buf[..idx]));
      rest := buf[idx + |Target(inThink)|..];
      inThink := !inThink;
    }

    method DrainTail(buf: string, before: Split, ghost goal: (State, Split)) returns (out: Split)
      requires buf != "" && IndexOf(buf, Target(inThink)) < 0 && Draining(goal, inThink, carry, buf, before)
      modifies this`carry
      ensures Draining(goal, inThink, carry, "", out)
    {
      DrainingLast(goal, inThink, carry, buf, before);
      out := TakeTail(buf, before);
    }

    method DrainToTag(buf: string, idx: nat, before: Split, ghost goal: (State, Split))
      returns (rest: string, out: Split)
      requires buf != "" && idx == IndexOf(buf, Target(inThink)) && Draining(goal, inThink, carry, buf, before)
      modifies this`inThink
      ensures |rest| < |buf| && Draining(goal, inThink, carry, rest, out)
    {
      DrainingTag(goal, inThink, carry, buf, before);
      rest, out := TakeToTag(buf, idx, before);
    }

    method ProcessChunk(text: string) returns (out: Split)
      modifies this
      ensures (View(), out) == Process(old(View()), text)
    {
      var buf := carry + text;
      out := NOTHING;
      ghost var goal := Process(View(), text);
      PlusNothing(goal.1);
      while buf != ""
        invariant Draining(goal, inThink, carry, buf, out)
        decreases |buf|
      {
        var idx := IndexOf(buf, Target(inThink));
        if idx < 0 {
          out := DrainTail(buf, out, goal);
          buf := "";
        } else {
          buf, out := DrainToTag(buf, idx, out, goal);
        }
      }
      PlusNothing(out);
    }

    method FlushCarry() returns (out: Split)
      modifies this
      ensures out == Flush(old(View()))
      ensures View() == old(View()).(carry := "")
    {
      if carry == "" {
        return NOTHING;
      }
      out := Routed(inThink, carry);
      carry := "";
    }
  }

  // ---- draining is scanning --------------------------------------------------------------

  /** Text free of the target before position n passes through the scan unchanged. */
  lemma {:induction false} ScanPast(inThink: bool, s: string, n: nat)
    requires n <= |s| && TagFree(Target(inThink), s, n)
    ensures Scan(inThink, s) == Plus(Routed(inThink, s[..n]), Scan(inThink, s[n..]))
  {
    if n == 0 {
      assert s[0..] == s && s[..0] == "";
      PlusNothing(Scan(inThink, s));
    } else {
      TagFreeTail(Target(inThink), s, n);
      ScanPast(inThink, s[1..], n - 1);
      assert s[1..][n - 1..] == s[n..];
      PlusAssociative(Routed(inThink, s[..1]), Routed(inThink, s[1..][..n - 1]), Scan(inThink, s[n..]));
      assert s[..1] + s[1..][..n - 1] == s[..n];
    }
  }

  /** Nothing before the held-back tail can begin a tag, whatever arrives next. */
  lemma {:induction false} NoTagBeforeCarry(t: string, buf: string, future: string, held: nat)
    requires t != "" && TagFree(t, buf, |buf|) && held <= |buf|
    requires forall j :: held < j <= |buf| && j < |t| ==> !MayOpen(t, buf, j)
    ensures TagFree(t, buf + future, |buf| - held)
  {
    forall k | 0 <= k < |buf| - held ensures !TagAt(t, buf + future, k) {
      var s := (buf + future)[k..];
      var back := |buf| - k;
      assert !TagAt(t, buf, k);
      assert s[..back] == buf[k..];
      if |t| <= back {
        assert s[..|t|] == buf[k..][..|t|];
      } else {
        assert !MayOpen(t, buf, back);
        assert t[..back] != s[..back];
      }
    }
  }

  /** What is held back is the longest proper start of a tag at the end of the buffer. */
  lemma {:induction false} CarryIsStart(inThink: bool, buf: string)
    ensures var held := CarryLength(inThink, buf);
      && held <= |buf| && held < |Target(inThink)| && buf[|buf| - held..] < Target(inThink)
      && forall j :: held < j <= |buf| && j < |Target(inThink)| ==> !MayOpen(Target(inThink), buf, j)
  {
    HeldBackMost(Target(inThink), buf, if |Target(inThink)| - 1 < |buf| then |Target(inThink)| - 1 else |buf|);
  }

  lemma {:induction false} LastScans(inThink: bool, buf: string, future: string, held: nat)
    requires held <= |buf| && TagFree(Target(inThink), buf, |buf|)
    requires forall j :: held < j <= |buf| && j < |Target(inThink)| ==> !MayOpen(Target(inThink), buf, j)
    ensures var cut := |buf| - held;
      Scan(inThink, buf + future) == Plus(Routed(inThink, buf[..cut]), Scan(inThink, buf[cut..] + future))
  {
    NoTagBeforeCarry(Target(inThink), buf, future, held);
    ScanPastFuture(inThink, buf, future, |buf| - held);
  }

  lemma {:induction false} ScanPastFuture(inThink: bool, buf: string, future: string, n: nat)
    requires n <= |buf| && TagFree(Target(inThink), buf + future, n)
    ensures Scan(inThink, buf + future) == Plus(Routed(inThink, buf[..n]), Scan(inThink, buf[n..] + future))
  {
    ScanPast(inThink, buf + future, n);
    SplitFuture(buf, future, n);
  }

  lemma {:induction false} SplitFuture(buf: string, future: string, cut: nat)
    requires cut <= |buf|
    ensures (buf + future)[..cut] == buf[..cut]
    ensures (buf + future)[cut..] == buf[cut..] + future
  {
  }

  lemma {:induction false} TagFreeExtends(t: string, buf: string, future: string, idx: nat)
    requires TagFree(t, buf, idx) && idx + |t| <= |buf| && TagAt(t, buf, idx)
    ensures TagFree(t, buf + future, idx)
    ensures t <= buf[idx..] + future
    ensures (buf[idx..] + future)[|t|..] == buf[idx + |t|..] + future
  {
    forall k | 0 <= k < idx ensures !TagAt(t, buf + future, k) {
      assert !TagAt(t, buf, k);
      assert (buf + future)[k..][..|t|] == buf[k..][..|t|];
    }
    assert (buf[idx..] + future)[..|t|] == buf[idx..][..|t|];
  }

  lemma {:induction false} DrainTagScans(inThink: bool, buf: string, future: string, idx: nat)
    requires buf != "" && idx == IndexOf(buf, Target(inThink))
    ensures Scan(inThink, buf + future)
         == Plus(Routed(inThink, buf[..idx]), Scan(!inThink, buf[idx + |Target(inThink)|..] + future))
  {
    var t := Target(inThink);
    IndexOfTag(buf, t);
    TagFreeExtends(t, buf, future, idx);
    ScanPast(inThink, buf + future, idx);
    SplitFuture(buf, future, idx);
  }

  /** Draining a buffer leaves a state from which the future scans on. */
  predicate Resumes(inThink: bool, buf: string, future: string, st: State, out: Split) {
    && Scan(inThink, buf + future) == Plus(out, Scan(st.inThink, st.carry + future))
    && st.carry < Target(st.inThink)
  }

  lemma {:induction false} ResumesAtEnd(inThink: bool, buf: string, future: string, held: nat)
    requires buf != "" && IndexOf(buf, Target(inThink)) < 0 && held == CarryLength(inThink, buf)
    ensures held <= |buf|
    ensures Resumes(inThink, buf, future, State(inThink, buf[|buf| - held..]), Routed(inThink, buf[..|buf| - held]))
  {
    CarryIsStart(inThink, buf);
    IndexOfTag(buf, Target(inThink));
    LastScans(inThink, buf, future, held);
  }

  lemma {:induction false} ResumesAtTag(inThink: bool, buf: string, future: string, st: State, out: Split)
    requires buf != "" && IndexOf(buf, Target(inThink)) >= 0
    requires Resumes(!inThink, buf[IndexOf(buf, Target(inThink)) + |Target(inThink)|..], future, st, out)
    ensures Resumes(inThink, buf, future, st, Plus(Routed(inThink, buf[..IndexOf(buf, Target(inThink))]), out))
  {
    var idx := IndexOf(buf, Target(inThink));
    DrainTagScans(inThink, buf, future, idx);
    PlusAssociative(Routed(inThink, buf[..idx]), out, Scan(st.inThink, st.carry + future));
  }

  lemma {:induction false} DrainedAtTag(inThink: bool, buf: string, future: string, rest: string)
    requires buf != "" && IndexOf(buf, Target(inThink)) >= 0
    requires rest == buf[IndexOf(buf, Target(inThink)) + |Target(inThink)|..]
    requires Resumes(!inThink, rest, future, Drain(!inThink, "", rest).0, Drain(!inThink, "", rest).1)
    ensures Resumes(inThink, buf, future, Drain(inThink, "", buf).0, Drain(inThink, "", buf).1)
  {
    ResumesAtTag(inThink, buf, future, Drain(!inThink, "", rest).0, Drain(!inThink, "", rest).1);
    DrainTag(inThink, "", buf, NOTHING);
  }

  lemma {:induction false} DrainedAtEnd(inThink: bool, buf: string, future: string)
    requires buf == "" || IndexOf(buf, Target(inThink)) < 0
    ensures Resumes(inThink, buf, future, Drain(inThink, "", buf).0, Drain(inThink, "", buf).1)
  {
    if buf == "" {
      assert buf + future == "" + future == future;
      PlusNothing(Scan(inThink, future));
    } else {
      DrainLast(inThink, "", buf);
      ResumesAtEnd(inThink, buf, future, CarryLength(inThink, buf));
    }
  }

  lemma {:induction false} DrainScans(inThink: bool, buf: string, future: string)
    ensures Resumes(inThink, buf, future, Drain(inThink, "", buf).0, Drain(inThink, "", buf).1)
    decreases |buf|
  {
    if buf == "" || IndexOf(buf, Target(inThink)) < 0 {
      DrainedAtEnd(inThink, buf, future);
    } else {
      var rest := buf[IndexOf(buf, Target(inThink)) + |Target(inThink)|..];
      DrainScans(!inThink, rest, future);
      DrainedAtTag(inThink, buf, future, rest);
    }
  }

  /** A held-back tail that never becomes a tag is ordinary text. */
  lemma {:induction false} ScanCarry(inThink: bool, carry: string)
    requires carry < Target(inThink)
    ensures Scan(inThink, carry) == Flush(State(inThink, carry))
  {
    ScanPast(inThink, carry, |carry|);
    PlusNothing(Flush(State(inThink, carry)));
  }

  /** The two variants part ways only where the buffer ends at a tag. */
  lemma {:induction false} DrainKeeps(inThink: bool, kept: string, buf: string)
    ensures Drain(inThink, kept, buf)
         == if buf == "" || EndsAtTag(inThink, buf)
            then (Drain(inThink, "", buf).0.(carry := kept), Drain(inThink, "", buf).1)
            else Drain(inThink, "", buf)
    ensures buf == "" || EndsAtTag(inThink, buf) ==> Drain(inThink, "", buf).0.carry == ""
    decreases |buf|
  {
    if buf != "" {
      var idx := IndexOf(buf, Target(inThink));
      if idx < 0 {
        EndsUntagged(inThink, buf);
        DrainLast(inThink, kept, buf);
        DrainLast(inThink, "", buf);
      } else {
        EndsAfterTag(inThink, buf, idx);
        DrainKeeps(!inThink, kept, buf[idx + |Target(inThink)|..]);
        DrainTag(inThink, kept, buf, NOTHING);
        DrainTag(inThink, "", buf, NOTHING);
      }
    }
  }

  lemma {:induction false} EndsUntagged(inThink: bool, buf: string)
    requires IndexOf(buf, Target(inThink)) < 0
    ensures !EndsAtTag(inThink, buf)
  {
    IndexOfTag(buf, Target(inThink));
    EndsPast(inThink, buf, |buf|);
  }

  lemma {:induction false} EndsAfterTag(inThink: bool, buf: string, idx: nat)
    requires idx == IndexOf(buf, Target(inThink))
    ensures var rest := buf[idx + |Target(inThink)|..];
      EndsAtTag(inThink, buf) <==> rest == "" || EndsAtTag(!inThink, rest)
  {
    var t := Target(inThink);
    IndexOfTag(buf, t);
    EndsPast(inThink, buf, idx);
    assert t <= buf[idx..] && buf[idx..][|t|..] == buf[idx + |t|..];
    assert buf[idx + |t|..] == "" ==> buf[idx..] == t;
  }

  lemma {:induction false} EndsPast(inThink: bool, s: string, n: nat)
    requires n <= |s| && TagFree(Target(inThink), s, n)
    ensures EndsAtTag(inThink, s) <==> EndsAtTag(inThink, s[n..])
  {
    if n == 0 {
      assert s[0..] == s;
    } else {
      TagFreeTail(Target(inThink), s, n);
      EndsPast(inThink, s[1..], n - 1);
      assert s[1..][n - 1..] == s[n..];
    }
  }

  // ---- whole streams ---------------------------------------------------------------------

  function Run(chunks: seq<string>): (State, Split) {
    if chunks == [] then (FRESH, NOTHING)
    else
      var (st, out) := Run(chunks[..|chunks| - 1]);
      var (st', more) := Process(st, chunks[|chunks| - 1]);
      (st', Plus(out, more))
  }

  function RunCleared(chunks: seq<string>): (State, Split) {
    if chunks == [] then (FRESH, NOTHING)
    else
      var (st, out) := RunCleared(chunks[..|chunks| - 1]);
      var (st', more) := ProcessCleared(st, chunks[|chunks| - 1]);
      (st', Plus(out, more))
  }

  /** Everything a finished stream delivers. */
  function Delivered(chunks: seq<string>): Split {
    Plus(Run(chunks).1, Flush(Run(chunks).0))
  }

  function DeliveredCleared(chunks: seq<string>): Split {
    Plus(RunCleared(chunks).1, Flush(RunCleared(chunks).0))
  }

  /** The chunk starts with held-back text and ends exactly at a tag. */
  predicate Stale(st: State, text: string) {
    st.carry != "" && EndsAtTag(st.inThink, st.carry + text)
  }

  predicate NeverStale(chunks: seq<string>) {
    chunks == [] ||
    (NeverStale(chunks[..|chunks| - 1]) && !Stale(Run(chunks[..|chunks| - 1]).0, chunks[|chunks| - 1]))
  }

  lemma {:induction false} ClearedStep(st: State, text: string, future: string)
    ensures var (st', more) := ProcessCleared(st, text);
            && Scan(st.inThink, st.carry + (text + future)) == Plus(more, Scan(st'.inThink, st'.carry + future))
            && st'.carry < Target(st'.inThink)
  {
    var buf := st.carry + text;
    assert st.carry + (text + future) == buf + future;
    DrainScans(st.inThink, buf, future);
  }

  lemma {:induction false} ClearedTracksScan(chunks: seq<string>, future: string)
    ensures var (st, out) := RunCleared(chunks);
            && Scan(false, Concat(chunks) + future) == Plus(out, Scan(st.inThink, st.carry + future))
            && st.carry < Target(st.inThink)
  {
    if chunks == [] {
      assert Concat(chunks) + future == future == "" + future;
      PlusNothing(Scan(false, future));
    } else {
      var init, last := chunks[..|chunks| - 1], chunks[|chunks| - 1];
      assert chunks == init + [last];
      ConcatSnoc(init, last);
      assert Concat(init) + (last + future) == Concat(chunks) + future;
      ClearedTracksScan(init, last + future);
      var (st, out) := RunCleared(init);
      ClearedStep(st, last, future);
      var (st', more) := ProcessCleared(st, last);
      PlusAssociative(out, more, Scan(st'.inThink, st'.carry + future));
    }
  }

  /** With the carry cleared on entry, every chunking yields the one-pass scan. */
  lemma {:induction false} ClearedDeliversScan(chunks: seq<string>)
    ensures DeliveredCleared(chunks) == Scan(false, Concat(chunks))
  {
    ClearedTracksScan(chunks, "");
    var st := RunCleared(chunks).0;
    assert Concat(chunks) + "" == Concat(chunks) && st.carry + "" == st.carry;
    ScanCarry(st.inThink, st.carry);
  }

  lemma {:induction false} NeverStaleIsCleared(chunks: seq<string>)
    requires NeverStale(chunks)
    ensures Run(chunks) == RunCleared(chunks)
  {
    if chunks != [] {
      var init, last := chunks[..|chunks| - 1], chunks[|chunks| - 1];
      NeverStaleIsCleared(init);
      var st := Run(init).0;
      DrainKeeps(st.inThink, st.carry, st.carry + last);
    }
  }

  /** A stale chunk leaves behind text that has already been used. */
  lemma {:induction false} StaleDeliversTwice(chunks: seq<string>)
    requires chunks != [] && NeverStale(chunks[..|chunks| - 1])
    requires Stale(Run(chunks[..|chunks| - 1]).0, chunks[|chunks| - 1])
    ensures Delivered(chunks) != Scan(false, Concat(chunks))
  {
    var init, last := chunks[..|chunks| - 1], chunks[|chunks| - 1];
    NeverStaleIsCleared(init);
    var st := Run(init).0;
    DrainKeeps(st.inThink, st.carry, st.carry + last);
    ClearedDeliversScan(chunks);
    assert Run(chunks).1 == RunCleared(chunks).1;
    assert Flush(RunCleared(chunks).0) == NOTHING;
    PlusNothing(RunCleared(chunks).1);
    var all, extra := Delivered(chunks), Flush(Run(chunks).0);
    assert |extra.content| + |extra.reasoning| > 0;
    assert |all.content| + |all.reasoning|
        == |Run(chunks).1.content| + |extra.content| + |Run(chunks).1.reasoning| + |extra.reasoning|;
  }

  ghost predicate Faithful(chunks: seq<string>) {
    Delivered(chunks) == Scan(false, Concat(chunks))
  }

  /** Faithful wherever the stream stops: after every prefix of the chunks. */
  ghost predicate FaithfulThroughout(chunks: seq<string>) {
    Faithful(chunks) && (chunks == [] || FaithfulThroughout(chunks[..|chunks| - 1]))
  }

  /** The splitter delivers the one-pass scan of the text so far, wherever the stream stops,
      exactly when no chunk that starts with held-back text ends at the end of a tag. */
  lemma {:induction false} FaithfulIffNeverStale(chunks: seq<string>)
    ensures FaithfulThroughout(chunks) <==> NeverStale(chunks)
    decreases |chunks|
  {
    if chunks == [] {
      ClearedDeliversScan(chunks);
    } else {
      FaithfulIffNeverStale(chunks[..|chunks| - 1]);
      if NeverStale(chunks) {
        NeverStaleIsCleared(chunks);
        ClearedDeliversScan(chunks);
      } else if NeverStale(chunks[..|chunks| - 1]) {
        StaleDeliversTwice(chunks);
      }
    }
  }

  /** The smallest unfaithful stream: an opening tag split in two. */
  lemma {:induction false} SplitTagExample(a: string, b: string)
    requires a == "<think" && b == ">"
    ensures !Faithful([a, b])
  {
    assert [a, b][..1] == [a] && [a][..0] == [];
    assert Run([]) == (FRESH, NOTHING) && "" + a == a;
    assert IndexOf(a, OPEN_TAG) < 0;
    assert MayOpen(OPEN_TAG, a, 6) by { assert a[0..] == a; }
    HeldBackAt(OPEN_TAG, a, 6, 6);
    assert a[0..] == a;
    assert Run([a]).0 == State(false, a);
    assert a + b == OPEN_TAG;
    assert !EndsAtTag(false, a) by { EndsPast(false, a, 6); }
    assert NeverStale([a]);
    StaleDeliversTwice([a, b]);
  }
}
