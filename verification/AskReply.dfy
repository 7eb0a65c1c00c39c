/** One streamed reply of the documentation agent's upstream: tool calls assembled from fragments,
    and what is told and saved of it (docbackend/internal/data/upstream.go). */
module AskReply {
  import opened Core

  // ---- one streamed reply ----------------------------------------------------------------

  datatype Fragment = Fragment(index: int, id: string, kind: string, name: string, arguments: string)

  datatype Choice = Choice(reasoning: string, content: string, fragments: seq<Fragment>, finish: string)

  /** A line of the stream: a chunk, the end marker, or anything the reader skips. */
  datatype Line = Noise | EndMark | Chunk(choices: seq<Choice>)

  /** How reading stops when no end marker comes. */
  datatype Ending = Eof | Aborted | Broken

  /** A call may fail before anything is read, or because the asker has gone. */
  datatype Reply = Refused(fault: Fault) | Streamed(lines: seq<Line>, ending: Ending)

  datatype Call = Call(id: string, kind: string, name: string, arguments: string)

  datatype Result = Result(content: string, reasoning: string, calls: seq<Call>, finish: string)

  datatype Fault = Canceled | Other

  datatype Streaming = Completed(result: Result) | Stopped(fault: Fault)

  // ---- what the fragments add up to ------------------------------------------------------

  function OrLast(earlier: string, later: string): string {
    if later != "" then later else earlier
  }

  /** The call at one index: the last non-empty id, type and name given for it, and its argument
      fragments in arrival order. */
  function CallAt(frags: seq<Fragment>, index: int): Call {
    if frags == [] then Call("", "", "", "")
    else
      var before, f := CallAt(frags[..|frags| - 1], index), frags[|frags| - 1];
      if f.index != index then before
      else Call(OrLast(before.id, f.id), OrLast(before.kind, f.kind), OrLast(before.name, f.name),
                before.arguments + f.arguments)
  }

  predicate Seen(frags: seq<Fragment>, index: int) {
    exists i :: 0 <= i < |frags| && frags[i].index == index
  }

  function Typed(c: Call): Call {
    if c.kind == "" then c.(kind := "function") else c
  }

  /** The calls with indexes below n, in index order. */
  function Assembled(frags: seq<Fragment>, n: nat): seq<Call> {
    if n == 0 then []
    else Assembled(frags, n - 1) + if Seen(frags, n - 1) then [Typed(CallAt(frags, n - 1))] else []
  }

  function Arguments(frags: seq<Fragment>, index: int): seq<string> {
    if frags == [] then []
    else
      Arguments(frags[..|frags| - 1], index)
      + if frags[|frags| - 1].index == index then [frags[|frags| - 1].arguments] else []
  }

  /** Whatever is interleaved between them, a call's arguments are its own fragments joined. */
  lemma {:induction false} ArgumentsJoin(frags: seq<Fragment>, index: int)
    ensures CallAt(frags, index).arguments == Concat(Arguments(frags, index))
  {
    if frags != [] {
      var init, f := frags[..|frags| - 1], frags[|frags| - 1];
      ArgumentsJoin(init, index);
      if f.index == index {
        ConcatSnoc(Arguments(init, index), f.arguments);
      } else {
        assert Arguments(init, index) + [] == Arguments(init, index);
      }
    }
  }

  /** The last non-empty string a fragment at this index gave. */
  ghost predicate LastGiven(frags: seq<Fragment>, index: int, of: Fragment -> string, s: string) {
    if s == "" then forall i :: 0 <= i < |frags| && frags[i].index == index ==> of(frags[i]) == ""
    else exists i :: GivenAt(frags, index, of, s, i)
  }

  predicate GivenAt(frags: seq<Fragment>, index: int, of: Fragment -> string, s: string, i: int) {
    && 0 <= i < |frags| && frags[i].index == index && of(frags[i]) == s
    && forall j :: i < j < |frags| && frags[j].index == index ==> of(frags[j]) == ""
  }

  lemma {:induction false} LastGivenSnoc(frags: seq<Fragment>, f: Fragment, index: int, of: Fragment -> string,
                                         s: string)
    requires LastGiven(frags, index, of, s)
    ensures LastGiven(frags + [f], index, of, if f.index == index && of(f) != "" then of(f) else s)
  {
    var more := frags + [f];
    if f.index == index && of(f) != "" {
      assert GivenAt(more, index, of, of(f), |frags|);
    } else if s != "" {
      var i :| GivenAt(frags, index, of, s, i);
      assert GivenAt(more, index, of, s, i);
    }
  }

  function IdOf(f: Fragment): string { f.id }
  function NameOf(f: Fragment): string { f.name }
  function KindOf(f: Fragment): string { f.kind }

  /** A call has the last id, name and kind its fragments gave; a kind never given is "function". */
  lemma {:induction false} CallNamed(frags: seq<Fragment>, index: int)
    ensures var c := CallAt(frags, index);
      LastGiven(frags, index, IdOf, c.id) && LastGiven(frags, index, NameOf, c.name)
      && LastGiven(frags, index, KindOf, c.kind)
    ensures var c, t := CallAt(frags, index), Typed(CallAt(frags, index));
      t.id == c.id && t.name == c.name && t.arguments == c.arguments
      && t.kind == (if c.kind == "" then "function" else c.kind)
  {
    if frags != [] {
      var init, f := frags[..|frags| - 1], frags[|frags| - 1];
      assert frags == init + [f];
      CallNamed(init, index);
      var c := CallAt(init, index);
      LastGivenSnoc(init, f, index, IdOf, c.id);
      LastGivenSnoc(init, f, index, NameOf, c.name);
      LastGivenSnoc(init, f, index, KindOf, c.kind);
    }
  }

  /** Indexes seen below n. */
  function SeenBelow(frags: seq<Fragment>, n: nat): seq<nat> {
    if n == 0 then [] else SeenBelow(frags, n - 1) + if Seen(frags, n - 1) then [n - 1] else []
  }

  /** The calls come in strictly ascending index order, one per non-negative index that occurred. */
  lemma {:induction false} CallsAscend(frags: seq<Fragment>, n: nat)
    ensures var order := SeenBelow(frags, n);
      && |order| == |Assembled(frags, n)|
      && (forall i :: 0 <= i < |order| ==>
          0 <= order[i] < n && Assembled(frags, n)[i] == Typed(CallAt(frags, order[i])))
      && (forall i, j :: 0 <= i < j < |order| ==> order[i] < order[j])
      && (forall index :: 0 <= index < n ==> (Seen(frags, index) <==> index in order))
  {
    if n > 0 { CallsAscend(frags, n - 1); }
  }

  // ---- what a reply consists of ----------------------------------------------------------

  datatype Event =
    | Delta(text: string)
    | Thinking(text: string)
    | ToolCalled(id: string, name: string, arguments: string)
    | ToolResult(id: string, name: string, text: string)
    | Docs(slugs: set<string>)

  function Shown(c: Choice): seq<Event> {
    (if c.reasoning != "" then [Thinking(c.reasoning)] else []) + if c.content != "" then [Delta(c.content)] else []
  }

  function ChoicesIn(line: Line): seq<Choice> {
    if line.Chunk? then line.choices else []
  }

  /** The choices read before the end marker. */
  function Choices(lines: seq<Line>): seq<Choice> {
    if lines == [] || lines[0].EndMark? then [] else ChoicesIn(lines[0]) + Choices(lines[1..])
  }

  predicate Ends(lines: seq<Line>) {
    exists i :: 0 <= i < |lines| && lines[i].EndMark?
  }

  function Texts(events: seq<Event>): string {
    if events == [] then ""
    else Texts(events[..|events| - 1]) + if events[|events| - 1].Delta? then events[|events| - 1].text else ""
  }

  function Thoughts(events: seq<Event>): string {
    if events == [] then ""
    else Thoughts(events[..|events| - 1]) + if events[|events| - 1].Thinking? then events[|events| - 1].text else ""
  }

  function Slugs(events: seq<Event>): set<string> {
    if events == [] then {}
    else Slugs(events[..|events| - 1]) + if events[|events| - 1].Docs? then events[|events| - 1].slugs else {}
  }

  function ToolCount(events: seq<Event>): nat {
    if events == [] then 0 else ToolCount(events[..|events| - 1]) + if events[|events| - 1].ToolCalled? then 1 else 0
  }

  /** What is saved of a question. */
  datatype Record = Record(answer: string, thinking: string, slugs: set<string>, toolCalls: nat)

  function Noted(r: Record, e: Event): Record {
    match e
    case Delta(text) => r.(answer := r.answer + text)
    case Thinking(text) => r.(thinking := r.thinking + text)
    case ToolCalled(_, _, _) => r.(toolCalls := r.toolCalls + 1)
    case Docs(slugs) => r.(slugs := r.slugs + slugs)
    case ToolResult(_, _, _) => r
  }

  /** The record after the first n events. */
  function RecordAt(events: seq<Event>, n: nat): Record
    requires n <= |events|
  {
    if n == 0 then Record("", "", {}, 0) else Noted(RecordAt(events, n - 1), events[n - 1])
  }

  function RecordOf(events: seq<Event>): Record {
    RecordAt(events, |events|)
  }

  lemma {:induction false} RecordOfPrefix(events: seq<Event>, e: Event, n: nat)
    requires n <= |events|
    ensures RecordAt(events + [e], n) == RecordAt(events, n)
  {
    if n > 0 { RecordOfPrefix(events, e, n - 1); }
  }

  lemma {:induction false} NotedNext(events: seq<Event>, e: Event)
    ensures RecordOf(events + [e]) == Noted(RecordOf(events), e)
  {
    RecordOfPrefix(events, e, |events|);
  }

  /** The saved answer is the delta texts joined, the saved thinking the thoughts; the slugs are
      all that were listed, and every tool call is counted. */
  lemma {:induction false} RecordMeans(events: seq<Event>)
    ensures RecordOf(events) == Record(Texts(events), Thoughts(events), Slugs(events), ToolCount(events))
  {
    if events != [] {
      var init, e := events[..|events| - 1], events[|events| - 1];
      assert events == init + [e];
      RecordMeans(init);
      NotedNext(init, e);
      EmptyEnds(Texts(init));
      EmptyEnds(Thoughts(init));
    }
  }

  function ContentOf(choices: seq<Choice>): string {
    if choices == [] then "" else ContentOf(choices[..|choices| - 1]) + choices[|choices| - 1].content
  }

  function ReasoningOf(choices: seq<Choice>): string {
    if choices == [] then "" else ReasoningOf(choices[..|choices| - 1]) + choices[|choices| - 1].reasoning
  }

  function FragmentsOf(choices: seq<Choice>): seq<Fragment> {
    if choices == [] then [] else FragmentsOf(choices[..|choices| - 1]) + choices[|choices| - 1].fragments
  }

  function FinishOf(choices: seq<Choice>): string {
    if choices == [] then "" else OrLast(FinishOf(choices[..|choices| - 1]), choices[|choices| - 1].finish)
  }

  /** The finish is the last one that says anything. */
  lemma {:induction false} FinishLast(choices: seq<Choice>)
    ensures if FinishOf(choices) == "" then forall i :: 0 <= i < |choices| ==> choices[i].finish == ""
            else exists i :: 0 <= i < |choices| && choices[i].finish == FinishOf(choices) && SilentAfter(choices, i)
  {
    if choices != [] {
      var init, last := choices[..|choices| - 1], choices[|choices| - 1];
      FinishLast(init);
      if last.finish != "" {
        assert SilentAfter(choices, |choices| - 1);
      } else if FinishOf(init) != "" {
        var i :| 0 <= i < |init| && init[i].finish == FinishOf(init) && SilentAfter(init, i);
        assert choices[i] == init[i] && SilentAfter(choices, i);
      }
    }
  }

  predicate SilentAfter(choices: seq<Choice>, i: nat) {
    forall j :: i < j < |choices| ==> choices[j].finish == ""
  }

  function Bound(frags: seq<Fragment>): (n: nat)
    ensures forall i :: 0 <= i < |frags| ==> frags[i].index < n
  {
    if frags == [] then 0
    else
      var n, last := Bound(frags[..|frags| - 1]), frags[|frags| - 1].index;
      if last >= n then last + 1 else n
  }

  function ResultOf(choices: seq<Choice>): Result {
    var frags := FragmentsOf(choices);
    var calls := Assembled(frags, Bound(frags));
    var finish := FinishOf(choices);
    Result(ContentOf(choices), ReasoningOf(choices), calls,
           if finish == "" && calls != [] then "tool_calls" else finish)
  }

  /** The reader's buffers hold what the choices read so far add up to. */
  datatype Buffers = Buffers(content: string, reasoning: string, slots: map<int, Call>, finish: string)

  ghost predicate SlotsHold(slots: map<int, Call>, frags: seq<Fragment>) {
    && (forall index :: index in slots <==> Seen(frags, index))
    && (forall index :: index in slots ==> slots[index] == CallAt(frags, index))
  }

  ghost predicate Hold(b: Buffers, choices: seq<Choice>) {
    && b.content == ContentOf(choices) && b.reasoning == ReasoningOf(choices) && b.finish == FinishOf(choices)
    && SlotsHold(b.slots, FragmentsOf(choices))
  }

  lemma {:induction false} Unseen(frags: seq<Fragment>, index: int)
    requires !Seen(frags, index)
    ensures CallAt(frags, index) == Call("", "", "", "")
  {
    if frags != [] {
      assert frags[|frags| - 1].index != index;
      var init := frags[..|frags| - 1];
      assert !Seen(init, index) by {
        assert forall i :: 0 <= i < |init| ==> init[i] == frags[i];
      }
      Unseen(init, index);
    }
  }

  lemma {:induction false} SeenSnoc(frags: seq<Fragment>, f: Fragment, index: int)
    ensures Seen(frags + [f], index) <==> Seen(frags, index) || f.index == index
    ensures CallAt(frags + [f], index) == if f.index != index then CallAt(frags, index) else
      (var before := CallAt(frags, index);
       Call(OrLast(before.id, f.id), OrLast(before.kind, f.kind), OrLast(before.name, f.name),
           before.arguments + f.arguments))
  {
    var more := frags + [f];
    assert more[..|more| - 1] == frags && more[|frags|] == f;
    if Seen(frags, index) {
      var i :| 0 <= i < |frags| && frags[i].index == index;
      assert more[i] == frags[i];
    }
  }

  method TakeFragment(slots: map<int, Call>, ghost frags: seq<Fragment>, f: Fragment) returns (out: map<int, Call>)
    requires SlotsHold(slots, frags)
    ensures SlotsHold(out, frags + [f])
  {
    var slot := if f.index in slots then slots[f.index] else Call("", "", "", "");
    if f.index !in slots { Unseen(frags, f.index); }
    if f.id != "" { slot := slot.(id := f.id); }
    if f.kind != "" { slot := slot.(kind := f.kind); }
    if f.name != "" { slot := slot.(name := f.name); }
    if f.arguments != "" { slot := slot.(arguments := slot.arguments + f.arguments); }
    out := slots[f.index := slot];
    forall index ensures index in out <==> Seen(frags + [f], index) {
      SeenSnoc(frags, f, index);
    }
    forall index | index in out ensures out[index] == CallAt(frags + [f], index) {
      SeenSnoc(frags, f, index);
      if index == f.index { assert f.arguments == "" ==> slot.arguments + f.arguments == slot.arguments; }
    }
  }

  method TakeFragments(slots: map<int, Call>, ghost frags: seq<Fragment>, more: seq<Fragment>)
    returns (out: map<int, Call>)
    requires SlotsHold(slots, frags)
    ensures SlotsHold(out, frags + more)
  {
    out := slots;
    assert frags + more[..0] == frags;
    for i := 0 to |more|
      invariant SlotsHold(out, frags + more[..i])
    {
      out := TakeFragment(out, frags + more[..i], more[i]);
      assert frags + more[..i + 1] == frags + more[..i] + [more[i]];
    }
    assert more[..|more|] == more;
  }

  /** Calls with an index past every slot add nothing. */
  lemma {:induction false} AssembledSettles(frags: seq<Fragment>, n: nat, m: nat)
    requires n <= m && forall index :: n <= index < m ==> !Seen(frags, index)
    ensures Assembled(frags, m) == Assembled(frags, n)
  {
    if n < m { AssembledSettles(frags, n, m - 1); }
  }

  method Member<T>(s: set<T>) returns (t: T)
    requires s != {}
    ensures t in s
  {
    t :| t in s;
  }

  /** `maxIdx + 1`, for the indexes that occur. */
  method Top(slots: map<int, Call>) returns (top: nat)
    ensures forall index :: index in slots ==> index < top
    ensures top > 0 ==> top - 1 in slots
  {
    top := 0;
    var rest: set<int> := slots.Keys;
    while rest != {}
      invariant rest <= slots.Keys
      invariant top > 0 ==> top - 1 in slots
      invariant forall index :: index in slots && index !in rest ==> index < top
      decreases |rest|
    {
      var i := Member(rest);
      if i >= top { top := i + 1; }
      rest := rest - {i};
    }
  }

  lemma {:induction false} BoundCovers(frags: seq<Fragment>, top: nat)
    requires forall index :: Seen(frags, index) ==> index < top
    requires top > 0 ==> Seen(frags, top - 1)
    ensures Assembled(frags, Bound(frags)) == Assembled(frags, top)
  {
    var n := Bound(frags);
    assert forall index :: Seen(frags, index) ==> index < n;
    assert top <= n;
    AssembledSettles(frags, top, n);
  }

  method Assemble(slots: map<int, Call>, ghost frags: seq<Fragment>) returns (calls: seq<Call>)
    requires SlotsHold(slots, frags)
    ensures calls == Assembled(frags, Bound(frags))
  {
    calls := [];
    var top := Top(slots);
    for i := 0 to top
      invariant calls == Assembled(frags, i)
    {
      if i in slots {
        calls := calls + [if slots[i].kind == "" then slots[i].(kind := "function") else slots[i]];
      }
    }
    assert forall index :: Seen(frags, index) <==> index in slots;
    BoundCovers(frags, top);
  }

  /** What running a tool gives for its name and arguments: the result text and the slugs found. */
  type Tools = (string, string) -> (string, set<string>)
}
