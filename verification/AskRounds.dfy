/** What a question to the documentation agent comes to, round by round
    (docbackend/internal/biz/ask.go). */
module AskRounds {
  import opened Core
  import opened AskReply

  const MAX_AGENT_ITERATIONS: nat := 4

  // ---- what a question comes to ----------------------------------------------------------

  datatype Exit = AnswerGiven | Quit | UpstreamFailed | Interrupted | TooManyTurns

  function ShownAll(choices: seq<Choice>): seq<Event> {
    if choices == [] then [] else ShownAll(choices[..|choices| - 1]) + Shown(choices[|choices| - 1])
  }

  /** Everything said before the end marker. */
  function Words(lines: seq<Line>): seq<Event> {
    if lines == [] || lines[0].EndMark? then [] else ShownAll(ChoicesIn(lines[0])) + Words(lines[1..])
  }

  /** The failing event is among those of a log. */
  predicate Cut(failAt: Option<nat>, log: seq<Event>) {
    failAt.Some? && failAt.value < |log|
  }

  /** What is offered of a log: it ends with the event that fails. */
  function Upto(failAt: Option<nat>, log: seq<Event>): seq<Event> {
    if Cut(failAt, log) then log[..failAt.value + 1] else log
  }

  /** These events are what is offered of a log. */
  predicate Reaches(failAt: Option<nat>, offered: seq<Event>, log: seq<Event>) {
    offered <= log && |offered| == if Cut(failAt, log) then failAt.value + 1 else |log|
  }

  lemma {:induction false} ReachesUpto(failAt: Option<nat>, offered: seq<Event>, log: seq<Event>)
    ensures Reaches(failAt, offered, log) <==> offered == Upto(failAt, log)
  {
  }

  /** What was offered before a failure is all that is offered of anything longer. */
  lemma {:induction false} ReachesOn(failAt: Option<nat>, offered: seq<Event>, a: seq<Event>, b: seq<Event>)
    requires Reaches(failAt, offered, a) && Cut(failAt, a)
    ensures Cut(failAt, a + b) && Reaches(failAt, offered, a + b)
  {
  }

  lemma {:induction false} UptoGrows(failAt: Option<nat>, a: seq<Event>, b: seq<Event>)
    requires Cut(failAt, a)
    ensures Cut(failAt, a + b) && Upto(failAt, a + b) == Upto(failAt, a)
  {
  }

  /** A reply read to its end. */
  predicate Complete(reply: Reply) {
    reply.Streamed? && (Ends(reply.lines) || reply.ending.Eof?)
  }

  /** The words of a reply, and what it comes to once they are all through. */
  datatype Said = Said(words: seq<Event>, end: Streaming)

  /** A reply is completed when its end marker or the end of the stream is read; it is stopped by
      the asker's going away, or by anything else. */
  function Read(reply: Reply): (s: Said)
    ensures s.end.Completed? <==> Complete(reply)
    ensures s.end.Completed? ==> s.end.result == ResultOf(Choices(reply.lines))
    ensures s.end == Stopped(Canceled) <==>
      (reply.Refused? && reply.fault.Canceled?) || (reply.Streamed? && !Complete(reply) && reply.ending.Aborted?)
  {
    match reply
    case Refused(fault) => Said([], Stopped(fault))
    case Streamed(lines, ending) =>
      Said(Words(lines),
           if Complete(reply) then Completed(ResultOf(Choices(lines)))
           else Stopped(if ending.Aborted? then Canceled else Other))
  }

  /** The world a question meets: what each reply comes to, what the tools find, and which event,
      if any, fails to reach the browser. */
  datatype World = World(said: nat -> Said, tool: Tools, failAt: Option<nat>, failAs: Fault)

  /** What a reply comes to, given the log with all its words. */
  function Heard(w: World, reply: Said, log: seq<Event>): Streaming {
    if Cut(w.failAt, log) then Stopped(w.failAs) else reply.end
  }

  function ToolEvents(log: seq<Event>, c: Call, tool: Tools): seq<Event> {
    var (text, found) := tool(c.name, c.arguments);
    [ToolCalled(c.id, c.name, c.arguments), ToolResult(c.id, c.name, text), Docs(Slugs(log) + found)]
  }

  /** The log after the browser was told of every call: each time with all documents found so far. */
  function Told(log: seq<Event>, calls: seq<Call>, tool: Tools): seq<Event> {
    if calls == [] then log
    else
      var before := Told(log, calls[..|calls| - 1], tool);
      before + ToolEvents(before, calls[|calls| - 1], tool)
  }

  /** How a question ends: the events offered, the requests made, the turns completed. */
  datatype Outcome = Outcome(log: seq<Event>, asked: nat, results: seq<Result>, exit: Exit)

  /** One round: it ends the question, or its calls are answered and the next round follows. */
  datatype Round = Over(outcome: Outcome) | Goes(result: Result, told: seq<Event>)

  function RoundOf(w: World, reply: Said, log: seq<Event>): Round {
    var said := log + reply.words;
    match Heard(w, reply, said)
    case Stopped(fault) => Over(Outcome(Upto(w.failAt, said), 1, [], if fault.Canceled? then Quit else UpstreamFailed))
    case Completed(r) =>
      if r.calls == [] then Over(Outcome(said, 1, [r], AnswerGiven)) else Answering(w, r, said)
  }

  function Answering(w: World, r: Result, said: seq<Event>): Round {
    var told := Told(said, r.calls, w.tool);
    if Cut(w.failAt, told) then Over(Outcome(Upto(w.failAt, told), 1, [r], Interrupted)) else Goes(r, told)
  }

  /** What the i-th round makes of a log. */
  type Rounds = (nat, seq<Event>) -> Round

  function RoundsOf(w: World): Rounds {
    (i: nat, log: seq<Event>) => RoundOf(w, w.said(i), log)
  }

  /** The question from its i-th round on. */
  function Asked(round: Rounds, i: nat, log: seq<Event>): Outcome
    requires i <= MAX_AGENT_ITERATIONS
    decreases MAX_AGENT_ITERATIONS - i
  {
    if i == MAX_AGENT_ITERATIONS then Outcome(log, 0, [], TooManyTurns)
    else
      match round(i, log)
      case Over(o) => o
      case Goes(r, told) => Preceded(r, Asked(round, i + 1, told))
  }

  function Preceded(r: Result, rest: Outcome): Outcome {
    Outcome(rest.log, 1 + rest.asked, [r] + rest.results, rest.exit)
  }

  predicate Speech(e: Event) {
    e.Delta? || e.Thinking?
  }

  /** The last event offered failed, and it was one of the reply's words. */
  predicate SpeechFailed(w: World, log: seq<Event>) {
    Cut(w.failAt, log) && |log| == w.failAt.value + 1 && Speech(log[w.failAt.value])
  }

  predicate ToolTalkFailed(w: World, log: seq<Event>) {
    Cut(w.failAt, log) && |log| == w.failAt.value + 1 && !Speech(log[w.failAt.value])
  }

  /** The reply asked for last did not come through, though every event did. */
  predicate LastStopped(w: World, i: nat, o: Outcome, fault: Fault) {
    !Cut(w.failAt, o.log) && o.asked == |o.results| + 1 && w.said(i + |o.results|).end == Stopped(fault)
  }

  /** Every way out, exactly. */
  predicate ExitsRight(w: World, i: nat, o: Outcome) {
    && (o.exit.AnswerGiven? <==> o.results != [] && o.results[|o.results| - 1].calls == [])
    && (o.exit.Quit? <==> (SpeechFailed(w, o.log) && w.failAs.Canceled?) || LastStopped(w, i, o, Canceled))
    && (o.exit.UpstreamFailed? <==> (SpeechFailed(w, o.log) && w.failAs.Other?) || LastStopped(w, i, o, Other))
    && (o.exit.Interrupted? <==> ToolTalkFailed(w, o.log))
    && (o.exit.TooManyTurns? ==> |o.results| == MAX_AGENT_ITERATIONS - i)
  }

  /** The completed turns are upstream's replies in order, and all but the last called tools. */
  predicate TurnsRight(w: World, i: nat, o: Outcome) {
    && |o.results| <= o.asked <= |o.results| + 1 && i + o.asked <= MAX_AGENT_ITERATIONS
    && (forall k :: 0 <= k < |o.results| ==> w.said(i + k).end == Completed(o.results[k]))
    && (forall k :: 0 <= k < o.asked - 1 ==> o.results[k].calls != [])
  }

  /** A reply's words are speech. */
  ghost predicate Speaks(w: World) {
    forall n: nat, e :: e in w.said(n).words ==> Speech(e)
  }

  lemma {:induction false} ShownSpeech(choices: seq<Choice>)
    ensures forall e :: e in ShownAll(choices) ==> Speech(e)
  {
    if choices != [] { ShownSpeech(choices[..|choices| - 1]); }
  }

  lemma {:induction false} WordsSpeech(lines: seq<Line>)
    ensures forall e :: e in Words(lines) ==> Speech(e)
  {
    if lines != [] && !lines[0].EndMark? {
      ShownSpeech(ChoicesIn(lines[0]));
      WordsSpeech(lines[1..]);
    }
  }

  lemma {:induction false} ToldGrows(log: seq<Event>, calls: seq<Call>, tool: Tools)
    ensures log <= Told(log, calls, tool)
    ensures forall k :: |log| <= k < |Told(log, calls, tool)| ==> !Speech(Told(log, calls, tool)[k])
  {
    if calls != [] { ToldGrows(log, calls[..|calls| - 1], tool); }
  }

  lemma {:induction false} StoppedRight(w: World, i: nat, log: seq<Event>)
    requires i < MAX_AGENT_ITERATIONS && !Cut(w.failAt, log) && Speaks(w)
    requires Heard(w, w.said(i), log + w.said(i).words).Stopped?
    ensures var o := RoundOf(w, w.said(i), log).outcome; ExitsRight(w, i, o) && TurnsRight(w, i, o)
  {
    var reply := w.said(i);
    var said := log + reply.words;
    if Cut(w.failAt, said) {
      assert said[w.failAt.value] in reply.words;
      assert Upto(w.failAt, said)[w.failAt.value] == said[w.failAt.value];
    }
  }

  lemma {:induction false} InterruptedRight(w: World, said: seq<Event>, calls: seq<Call>)
    requires !Cut(w.failAt, said) && Cut(w.failAt, Told(said, calls, w.tool))
    ensures ToolTalkFailed(w, Upto(w.failAt, Told(said, calls, w.tool)))
  {
    ToldGrows(said, calls, w.tool);
  }

  /** A round that ends the question ends it for the reason it gives; one that does not has read a
      whole reply, and lost no event. */
  predicate EndsRight(w: World, i: nat, round: Round) {
    match round
    case Over(o) => ExitsRight(w, i, o) && TurnsRight(w, i, o)
    case Goes(r, told) => w.said(i).end == Completed(r) && r.calls != [] && !Cut(w.failAt, told)
  }

  lemma {:induction false} RoundRight(w: World, i: nat, log: seq<Event>)
    requires i < MAX_AGENT_ITERATIONS && !Cut(w.failAt, log) && Speaks(w)
    ensures EndsRight(w, i, RoundOf(w, w.said(i), log))
  {
    var said := log + w.said(i).words;
    var heard := Heard(w, w.said(i), said);
    if heard.Stopped? {
      StoppedRight(w, i, log);
    } else if heard.result.calls != [] && Cut(w.failAt, Told(said, heard.result.calls, w.tool)) {
      InterruptedRight(w, said, heard.result.calls);
    }
  }

  lemma {:induction false} PrecededRight(w: World, i: nat, r: Result, rest: Outcome)
    requires i < MAX_AGENT_ITERATIONS && w.said(i).end == Completed(r) && r.calls != []
    requires ExitsRight(w, i + 1, rest) && TurnsRight(w, i + 1, rest)
    ensures ExitsRight(w, i, Preceded(r, rest)) && TurnsRight(w, i, Preceded(r, rest))
  {
    var o := Preceded(r, rest);
    assert forall k :: 0 < k < |o.results| ==> o.results[k] == rest.results[k - 1];
    forall k | 0 <= k < |o.results| ensures w.said(i + k).end == Completed(o.results[k]) {
      if k > 0 { assert w.said(i + 1 + (k - 1)).end == Completed(rest.results[k - 1]); }
    }
    assert i + |o.results| == i + 1 + |rest.results|;
  }

  lemma {:induction false} RoundsEndRight(w: World, round: Rounds, i: nat, log: seq<Event>)
    requires i <= MAX_AGENT_ITERATIONS && !Cut(w.failAt, log)
    requires forall k: nat, l :: k < MAX_AGENT_ITERATIONS && !Cut(w.failAt, l) ==> EndsRight(w, k, round(k, l))
    ensures ExitsRight(w, i, Asked(round, i, log)) && TurnsRight(w, i, Asked(round, i, log))
    decreases MAX_AGENT_ITERATIONS - i
  {
    if i < MAX_AGENT_ITERATIONS {
      assert EndsRight(w, i, round(i, log));
      if round(i, log).Goes? {
        var told := round(i, log).told;
        RoundsEndRight(w, round, i + 1, told);
        PrecededRight(w, i, round(i, log).result, Asked(round, i + 1, told));
      }
    }
  }

  /** A question ends with an answer if and only if its last completed turn called nothing; it is
      quit, fails or is interrupted exactly for the reasons named; and it never takes more than
      four requests. */
  lemma {:induction false} OutcomeRight(w: World, i: nat, log: seq<Event>)
    requires i <= MAX_AGENT_ITERATIONS && !Cut(w.failAt, log) && Speaks(w)
    ensures ExitsRight(w, i, Asked(RoundsOf(w), i, log)) && TurnsRight(w, i, Asked(RoundsOf(w), i, log))
  {
    forall k: nat, l | k < MAX_AGENT_ITERATIONS && !Cut(w.failAt, l) ensures EndsRight(w, k, RoundsOf(w)(k, l)) {
      RoundRight(w, k, l);
    }
    RoundsEndRight(w, RoundsOf(w), i, log);
  }

  function Unbroken(w: World): World {
    w.(failAt := None)
  }

  /** Everything a round would say, if nothing failed after it. */
  function EndOf(round: Round): seq<Event> {
    if round.Over? then round.outcome.log else round.told
  }

  lemma {:induction false} RoundGrows(w: World, reply: Said, log: seq<Event>)
    requires w.failAt.None?
    ensures log <= log + reply.words <= EndOf(RoundOf(w, reply, log))
  {
    var said := log + reply.words;
    if reply.end.Completed? { ToldGrows(said, reply.end.result.calls, w.tool); }
  }

  lemma {:induction false} LogGrows(round: Rounds, i: nat, log: seq<Event>)
    requires i <= MAX_AGENT_ITERATIONS && forall k: nat, l :: l <= EndOf(round(k, l))
    ensures log <= Asked(round, i, log).log
    decreases MAX_AGENT_ITERATIONS - i
  {
    if i < MAX_AGENT_ITERATIONS {
      assert log <= EndOf(round(i, log));
      if round(i, log).Goes? { LogGrows(round, i + 1, round(i, log).told); }
    }
  }

  lemma {:induction false} UptoPrefix(failAt: Option<nat>, a: seq<Event>, b: seq<Event>)
    requires a <= b && Cut(failAt, a)
    ensures Upto(failAt, b) == Upto(failAt, a)
  {
    assert b == a + b[|a|..];
    UptoGrows(failAt, a, b[|a|..]);
  }

  /** What the failing event makes of one round: nothing, if it comes later; otherwise the round
      ends the question, with the events up to it. */
  predicate CutRound(failAt: Option<nat>, round: Round, whole: Round) {
    if Cut(failAt, EndOf(whole)) then
      && round.Over? && round.outcome.log == Upto(failAt, EndOf(whole)) && round.outcome.asked == 1
      && round.outcome.results <= (if whole.Over? then whole.outcome.results else [whole.result])
      && (whole.Over? ==> whole.outcome.asked == 1)
    else round == whole
  }

  lemma {:induction false} RoundCut(w: World, reply: Said, log: seq<Event>)
    requires !Cut(w.failAt, log)
    ensures CutRound(w.failAt, RoundOf(w, reply, log), RoundOf(Unbroken(w), reply, log))
  {
    var said := log + reply.words;
    RoundGrows(Unbroken(w), reply, log);
    if reply.end.Completed? && reply.end.result.calls != [] && Cut(w.failAt, said) {
      ToldGrows(said, reply.end.result.calls, w.tool);
      UptoPrefix(w.failAt, said, Told(said, reply.end.result.calls, w.tool));
    }
  }

  /** One outcome is another cut short by the failing event. */
  predicate CutShort(failAt: Option<nat>, o: Outcome, whole: Outcome) {
    && o.log == Upto(failAt, whole.log) && o.results <= whole.results && o.asked <= whole.asked
    && (!Cut(failAt, whole.log) ==> o == whole)
  }

  lemma {:induction false} RoundsCut(failAt: Option<nat>, round: Rounds, whole: Rounds, i: nat, log: seq<Event>)
    requires i <= MAX_AGENT_ITERATIONS && !Cut(failAt, log)
    requires forall k: nat, l :: !Cut(failAt, l) ==> CutRound(failAt, round(k, l), whole(k, l))
    requires forall k: nat, l :: l <= EndOf(whole(k, l))
    ensures CutShort(failAt, Asked(round, i, log), Asked(whole, i, log))
    decreases MAX_AGENT_ITERATIONS - i
  {
    if i < MAX_AGENT_ITERATIONS {
      assert CutRound(failAt, round(i, log), whole(i, log));
      if whole(i, log).Goes? {
        var told := whole(i, log).told;
        LogGrows(whole, i + 1, told);
        if Cut(failAt, told) {
          UptoPrefix(failAt, told, Asked(whole, i + 1, told).log);
        } else {
          RoundsCut(failAt, round, whole, i + 1, told);
        }
      }
    }
  }

  /** A browser that stops listening changes nothing of what was said before: the events offered
      are those of the undisturbed run up to the one that failed, the turns completed are its
      first turns, and a failure past its last event changes nothing at all. */
  lemma {:induction false} FailureOnlyCuts(w: World, i: nat, log: seq<Event>)
    requires i <= MAX_AGENT_ITERATIONS && !Cut(w.failAt, log)
    ensures CutShort(w.failAt, Asked(RoundsOf(w), i, log), Asked(RoundsOf(Unbroken(w)), i, log))
  {
    var round, whole := RoundsOf(w), RoundsOf(Unbroken(w));
    forall k: nat, l | !Cut(w.failAt, l) ensures CutRound(w.failAt, round(k, l), whole(k, l)) {
      RoundCut(w, w.said(k), l);
    }
    forall k: nat, l ensures l <= EndOf(whole(k, l)) {
      RoundGrows(Unbroken(w), w.said(k), l);
    }
    RoundsCut(w.failAt, round, whole, i, log);
  }

  // ---- what is told of the calls ---------------------------------------------------------

  /** The calls of all turns, in order. */
  function AllCalls(results: seq<Result>): seq<Call> {
    if results == [] then [] else AllCalls(results[..|results| - 1]) + results[|results| - 1].calls
  }

  /** The events that are not speech. */
  function TalkIn(log: seq<Event>): seq<Event> {
    if log == [] then []
    else TalkIn(log[..|log| - 1]) + if Speech(log[|log| - 1]) then [] else [log[|log| - 1]]
  }

  /** The documents the first n calls found. */
  function FoundBy(calls: seq<Call>, n: nat, tool: Tools): set<string>
    requires n <= |calls|
  {
    if n == 0 then {} else FoundBy(calls, n - 1, tool) + tool(calls[n - 1].name, calls[n - 1].arguments).1
  }

  /** The j-th event about calls: for each call in turn that it is made, what it gave, and all
      documents found so far. */
  predicate Tells(e: Event, calls: seq<Call>, j: nat, tool: Tools) {
    && j / 3 < |calls|
    && var c := calls[j / 3];
       if j % 3 == 0 then e == ToolCalled(c.id, c.name, c.arguments)
       else if j % 3 == 1 then e == ToolResult(c.id, c.name, tool(c.name, c.arguments).0)
       else e == Docs(FoundBy(calls, j / 3 + 1, tool))
  }

  predicate TellsAll(talk: seq<Event>, calls: seq<Call>, tool: Tools) {
    forall j: nat :: j < |talk| ==> Tells(talk[j], calls, j, tool)
  }

  /** A log that has told of exactly these calls. */
  predicate ToldOf(log: seq<Event>, calls: seq<Call>, tool: Tools) {
    && |TalkIn(log)| == 3 * |calls| && TellsAll(TalkIn(log), calls, tool)
    && Slugs(log) == FoundBy(calls, |calls|, tool)
  }

  lemma {:induction false} TalkAppend(a: seq<Event>, b: seq<Event>)
    ensures TalkIn(a + b) == TalkIn(a) + TalkIn(b)
  {
    if b == [] {
      assert a + b == a;
    } else {
      assert (a + b)[..|a + b| - 1] == a + b[..|b| - 1];
      TalkAppend(a, b[..|b| - 1]);
    }
  }

  lemma {:induction false} SpeechSaysNothing(words: seq<Event>)
    requires forall e :: e in words ==> Speech(e)
    ensures TalkIn(words) == [] && Slugs(words) == {}
  {
    if words != [] {
      assert words[|words| - 1] in words;
      SpeechSaysNothing(words[..|words| - 1]);
    }
  }

  lemma {:induction false} SlugsAppend(a: seq<Event>, b: seq<Event>)
    ensures Slugs(a + b) == Slugs(a) + Slugs(b)
  {
    if b == [] {
      assert a + b == a;
    } else {
      assert (a + b)[..|a + b| - 1] == a + b[..|b| - 1];
      SlugsAppend(a, b[..|b| - 1]);
    }
  }

  lemma {:induction false} WordsKeepTold(log: seq<Event>, words: seq<Event>, calls: seq<Call>, tool: Tools)
    requires ToldOf(log, calls, tool) && forall e :: e in words ==> Speech(e)
    ensures ToldOf(log + words, calls, tool)
  {
    SpeechSaysNothing(words);
    TalkAppend(log, words);
    SlugsAppend(log, words);
    assert TalkIn(log) + [] == TalkIn(log);
  }

  lemma {:induction false} FoundBySnoc(calls: seq<Call>, more: seq<Call>, n: nat, tool: Tools)
    requires n <= |calls|
    ensures FoundBy(calls + more, n, tool) == FoundBy(calls, n, tool)
  {
    if n > 0 { FoundBySnoc(calls, more, n - 1, tool); }
  }

  lemma {:induction false} TellsLonger(talk: seq<Event>, calls: seq<Call>, more: seq<Call>, tool: Tools)
    requires TellsAll(talk, calls, tool)
    ensures TellsAll(talk, calls + more, tool)
  {
    forall j: nat | j < |talk| ensures Tells(talk[j], calls + more, j, tool) {
      assert Tells(talk[j], calls, j, tool);
      FoundBySnoc(calls, more, j / 3 + 1, tool);
    }
  }

  lemma {:induction false} ThreeTalk(log: seq<Event>, c: Call, tool: Tools)
    ensures TalkIn(ToolEvents(log, c, tool)) == ToolEvents(log, c, tool)
    ensures Slugs(ToolEvents(log, c, tool)) == Slugs(log) + tool(c.name, c.arguments).1
  {
    var three := ToolEvents(log, c, tool);
    assert three[..2][..1][..0] == [] && three[..2][..1] == [three[0]] && three[..2] == [three[0], three[1]];
    assert TalkIn(three[..2][..1]) == [three[0]];
    assert TalkIn(three[..2]) == [three[0], three[1]];
    assert Slugs(three[..2][..1]) == {} && Slugs(three[..2]) == {};
  }

  lemma {:induction false} CallTold(log: seq<Event>, calls: seq<Call>, c: Call, tool: Tools)
    requires ToldOf(log, calls, tool)
    ensures ToldOf(log + ToolEvents(log, c, tool), calls + [c], tool)
  {
    var three, all := ToolEvents(log, c, tool), calls + [c];
    ThreeTalk(log, c, tool);
    TalkAppend(log, three);
    SlugsAppend(log, three);
    TellsLonger(TalkIn(log), calls, [c], tool);
    FoundBySnoc(calls, [c], |calls|, tool);
    var talk := TalkIn(log) + three;
    forall j: nat | j < |talk| ensures Tells(talk[j], all, j, tool) {
      if j < |TalkIn(log)| {
        assert Tells(TalkIn(log)[j], all, j, tool);
      } else {
        assert talk[j] == three[j - 3 * |calls|] && all[|calls|] == c;
        assert j / 3 == |calls|;
      }
    }
  }

  lemma {:induction false} CallsTold(log: seq<Event>, before: seq<Call>, calls: seq<Call>, tool: Tools)
    requires ToldOf(log, before, tool)
    ensures ToldOf(Told(log, calls, tool), before + calls, tool)
  {
    if calls == [] {
      assert before + calls == before;
    } else {
      var init, c := calls[..|calls| - 1], calls[|calls| - 1];
      CallsTold(log, before, init, tool);
      CallTold(Told(log, init, tool), before + init, c, tool);
      assert before + init + [c] == before + calls;
    }
  }

  lemma {:induction false} TalkPrefix(a: seq<Event>, b: seq<Event>)
    requires a <= b
    ensures TalkIn(a) <= TalkIn(b)
  {
    assert b == a + b[|a|..];
    TalkAppend(a, b[|a|..]);
  }

  lemma {:induction false} PrefixTells(a: seq<Event>, b: seq<Event>, calls: seq<Call>, tool: Tools)
    requires a <= b && TellsAll(TalkIn(b), calls, tool)
    ensures TellsAll(TalkIn(a), calls, tool) && |TalkIn(a)| <= |TalkIn(b)|
  {
    TalkPrefix(a, b);
    forall j: nat | j < |TalkIn(a)| ensures Tells(TalkIn(a)[j], calls, j, tool) {
      assert Tells(TalkIn(b)[j], calls, j, tool);
    }
  }

  /** What a question's log tells of the calls of its completed turns: all of it if the telling was
      not interrupted, and all of every turn but the last in any case. */
  predicate TalkRight(o: Outcome, before: seq<Call>, tool: Tools) {
    var calls := before + AllCalls(o.results);
    && TellsAll(TalkIn(o.log), calls, tool)
    && (!o.exit.Interrupted? ==> |TalkIn(o.log)| == 3 * |calls|)
    && o.asked <= |o.results| + 1
    && 3 * |before + AllCalls(o.results[..if o.asked == 0 then 0 else o.asked - 1])| <= |TalkIn(o.log)|
  }

  predicate RoundTalks(round: Round, before: seq<Call>, tool: Tools) {
    match round
    case Over(o) => TalkRight(o, before, tool)
    case Goes(r, told) => ToldOf(told, before + r.calls, tool)
  }

  lemma {:induction false} NoCallsYet(before: seq<Call>, results: seq<Result>)
    ensures AllCalls(results[..0]) == [] && before + [] == before
    ensures |results| == 1 ==> AllCalls(results) == results[0].calls
  {
    if |results| == 1 {
      assert results[..0] == [];
      EmptyEnds(results[0].calls);
    }
  }

  lemma {:induction false} StoppedTalks(w: World, reply: Said, log: seq<Event>, before: seq<Call>)
    requires ToldOf(log, before, w.tool) && forall e :: e in reply.words ==> Speech(e)
    requires Heard(w, reply, log + reply.words).Stopped?
    requires !Cut(w.failAt, log)
    ensures RoundTalks(RoundOf(w, reply, log), before, w.tool)
  {
    var said := log + reply.words;
    var o := RoundOf(w, reply, log).outcome;
    WordsKeepTold(log, reply.words, before, w.tool);
    NoCallsYet(before, o.results);
    assert AllCalls([]) == [];
    assert log <= o.log <= said;
    TalkPrefix(log, o.log);
    PrefixTells(o.log, said, before, w.tool);
  }

  lemma {:induction false} AnsweringTalks(w: World, r: Result, said: seq<Event>, before: seq<Call>)
    requires ToldOf(said, before, w.tool) && !Cut(w.failAt, said)
    ensures RoundTalks(Answering(w, r, said), before, w.tool)
  {
    var told := Told(said, r.calls, w.tool);
    CallsTold(said, before, r.calls, w.tool);
    if Cut(w.failAt, told) {
      var o := Answering(w, r, said).outcome;
      NoCallsYet(before, o.results);
      ToldGrows(said, r.calls, w.tool);
      assert said <= o.log <= told;
      TalkPrefix(said, o.log);
      PrefixTells(o.log, told, before + r.calls, w.tool);
    }
  }

  lemma {:induction false} RoundTalksRight(w: World, reply: Said, log: seq<Event>, before: seq<Call>)
    requires ToldOf(log, before, w.tool) && !Cut(w.failAt, log) && forall e :: e in reply.words ==> Speech(e)
    ensures RoundTalks(RoundOf(w, reply, log), before, w.tool)
  {
    var said := log + reply.words;
    var heard := Heard(w, reply, said);
    if heard.Stopped? {
      StoppedTalks(w, reply, log, before);
    } else {
      WordsKeepTold(log, reply.words, before, w.tool);
      if heard.result.calls == [] {
        NoCallsYet(before, [heard.result]);
      } else {
        AnsweringTalks(w, heard.result, said, before);
      }
    }
  }

  lemma {:induction false} AllCallsCons(r: Result, rest: seq<Result>)
    ensures AllCalls([r] + rest) == r.calls + AllCalls(rest)
  {
    if rest == [] {
      assert [r] + rest == [r] && [r][..0] == [];
      EmptyEnds(r.calls);
    } else {
      var all := [r] + rest;
      assert all[..|all| - 1] == [r] + rest[..|rest| - 1];
      AllCallsCons(r, rest[..|rest| - 1]);
      Regroup(r.calls, AllCalls(rest[..|rest| - 1]), rest[|rest| - 1].calls);
    }
  }

  lemma {:induction false} PrecededTalks(r: Result, rest: Outcome, before: seq<Call>, tool: Tools)
    requires TalkRight(rest, before + r.calls, tool) && 3 * |before + r.calls| <= |TalkIn(rest.log)|
    ensures TalkRight(Preceded(r, rest), before, tool)
  {
    var o := Preceded(r, rest);
    AllCallsCons(r, rest.results);
    Regroup(before, r.calls, AllCalls(rest.results));
    if rest.asked == 0 {
      NoCallsYet(before, o.results);
    } else {
      var done := rest.results[..rest.asked - 1];
      assert o.results[..o.asked - 1] == [r] + done;
      AllCallsCons(r, done);
      Regroup(before, r.calls, AllCalls(done));
    }
  }

  lemma {:induction false} AskedTalks(w: World, round: Rounds, i: nat, log: seq<Event>, before: seq<Call>)
    requires i <= MAX_AGENT_ITERATIONS && !Cut(w.failAt, log) && ToldOf(log, before, w.tool)
    requires forall k: nat, l, b :: k < MAX_AGENT_ITERATIONS && !Cut(w.failAt, l) && ToldOf(l, b, w.tool) ==>
      EndsRight(w, k, round(k, l)) && RoundTalks(round(k, l), b, w.tool)
    ensures TalkRight(Asked(round, i, log), before, w.tool)
    ensures 3 * |before| <= |TalkIn(Asked(round, i, log).log)|
    decreases MAX_AGENT_ITERATIONS - i
  {
    if i == MAX_AGENT_ITERATIONS {
      assert AllCalls([]) == [] && before + [] == before;
    } else {
      assert EndsRight(w, i, round(i, log)) && RoundTalks(round(i, log), before, w.tool);
      if round(i, log).Goes? {
        var r, told := round(i, log).result, round(i, log).told;
        AskedTalks(w, round, i + 1, told, before + r.calls);
        PrecededTalks(r, Asked(round, i + 1, told), before, w.tool);
      }
    }
  }

  // ---- what is said ----------------------------------------------------------------------

  /** The texts and the reasonings of some turns, joined. */
  function ContentsOf(results: seq<Result>): string {
    if results == [] then "" else ContentsOf(results[..|results| - 1]) + results[|results| - 1].content
  }

  function ReasoningsOf(results: seq<Result>): string {
    if results == [] then "" else ReasoningsOf(results[..|results| - 1]) + results[|results| - 1].reasoning
  }

  lemma {:induction false} TextsAppend(a: seq<Event>, b: seq<Event>)
    ensures Texts(a + b) == Texts(a) + Texts(b) && Thoughts(a + b) == Thoughts(a) + Thoughts(b)
  {
    if b == [] {
      assert a + b == a;
      EmptyEnds(Texts(a));
      EmptyEnds(Thoughts(a));
    } else {
      var init, e := b[..|b| - 1], b[|b| - 1];
      assert (a + b)[..|a + b| - 1] == a + init;
      TextsAppend(a, init);
      Regroup(Texts(a), Texts(init), if e.Delta? then e.text else "");
      Regroup(Thoughts(a), Thoughts(init), if e.Thinking? then e.text else "");
    }
  }

  lemma {:induction false} ShownSays(c: Choice)
    ensures Texts(Shown(c)) == c.content && Thoughts(Shown(c)) == c.reasoning
  {
    var r := if c.reasoning != "" then [Thinking(c.reasoning)] else [];
    var t := if c.content != "" then [Delta(c.content)] else [];
    TextsAppend(r, t);
    assert r != [] ==> r[..0] == [] && Thoughts(r) == c.reasoning && Texts(r) == "";
    assert t != [] ==> t[..0] == [] && Texts(t) == c.content && Thoughts(t) == "";
    EmptyEnds(c.reasoning);
    EmptyEnds(c.content);
  }

  lemma {:induction false} ShownAllSays(choices: seq<Choice>)
    ensures Texts(ShownAll(choices)) == ContentOf(choices) && Thoughts(ShownAll(choices)) == ReasoningOf(choices)
  {
    if choices != [] {
      var init, c := choices[..|choices| - 1], choices[|choices| - 1];
      ShownAllSays(init);
      ShownSays(c);
      TextsAppend(ShownAll(init), Shown(c));
    }
  }

  lemma {:induction false} ContentAppend(a: seq<Choice>, b: seq<Choice>)
    ensures ContentOf(a + b) == ContentOf(a) + ContentOf(b) && ReasoningOf(a + b) == ReasoningOf(a) + ReasoningOf(b)
  {
    if b == [] {
      assert a + b == a;
      EmptyEnds(ContentOf(a));
      EmptyEnds(ReasoningOf(a));
    } else {
      var init, c := b[..|b| - 1], b[|b| - 1];
      assert (a + b)[..|a + b| - 1] == a + init;
      ContentAppend(a, init);
      Regroup(ContentOf(a), ContentOf(init), c.content);
      Regroup(ReasoningOf(a), ReasoningOf(init), c.reasoning);
    }
  }

  /** What the browser hears of a reply's text and reasoning is what the reply holds. */
  lemma {:induction false} SaidIsResult(lines: seq<Line>)
    ensures Texts(Words(lines)) == ResultOf(Choices(lines)).content
    ensures Thoughts(Words(lines)) == ResultOf(Choices(lines)).reasoning
  {
    if lines != [] && !lines[0].EndMark? {
      SaidIsResult(lines[1..]);
      ShownAllSays(ChoicesIn(lines[0]));
      TextsAppend(ShownAll(ChoicesIn(lines[0])), Words(lines[1..]));
      ContentAppend(ChoicesIn(lines[0]), Choices(lines[1..]));
    }
  }

  /** A completed reply's words are its text and its reasoning. */
  predicate WordsMatch(said: Said) {
    said.end.Completed? ==>
      Texts(said.words) == said.end.result.content && Thoughts(said.words) == said.end.result.reasoning
  }

  lemma {:induction false} ReadMatches(reply: Reply)
    ensures WordsMatch(Read(reply))
  {
    if reply.Streamed? { SaidIsResult(reply.lines); }
  }

  lemma {:induction false} TextsPrefix(a: seq<Event>, b: seq<Event>)
    requires a <= b
    ensures Texts(a) <= Texts(b) && Thoughts(a) <= Thoughts(b)
  {
    assert b == a + b[|a|..];
    TextsAppend(a, b[|a|..]);
  }

  lemma {:induction false} ToldSaysNothing(log: seq<Event>, calls: seq<Call>, tool: Tools)
    ensures Texts(Told(log, calls, tool)) == Texts(log) && Thoughts(Told(log, calls, tool)) == Thoughts(log)
  {
    if calls != [] {
      var before, c := Told(log, calls[..|calls| - 1], tool), calls[|calls| - 1];
      ToldSaysNothing(log, calls[..|calls| - 1], tool);
      var three := ToolEvents(before, c, tool);
      TextsAppend(before, three);
      MuteEvents(three);
      EmptyEnds(Texts(before));
      EmptyEnds(Thoughts(before));
    }
  }

  lemma {:induction false} MuteEvents(events: seq<Event>)
    requires forall e :: e in events ==> !Speech(e)
    ensures Texts(events) == "" && Thoughts(events) == ""
  {
    if events != [] {
      assert events[|events| - 1] in events;
      MuteEvents(events[..|events| - 1]);
    }
  }

  /** The log says what the completed turns hold, after what was said before; only a reply that
      did not come through may add to it. */
  predicate SaysRight(o: Outcome, text: string, thoughts: string) {
    && text + ContentsOf(o.results) <= Texts(o.log) && thoughts + ReasoningsOf(o.results) <= Thoughts(o.log)
    && (!o.exit.Quit? && !o.exit.UpstreamFailed? ==>
          Texts(o.log) == text + ContentsOf(o.results) && Thoughts(o.log) == thoughts + ReasoningsOf(o.results))
  }

  predicate RoundSays(round: Round, text: string, thoughts: string) {
    match round
    case Over(o) => SaysRight(o, text, thoughts)
    case Goes(r, told) => Texts(told) == text + r.content && Thoughts(told) == thoughts + r.reasoning
  }

  lemma {:induction false} OneContent(r: Result)
    ensures ContentsOf([r]) == r.content && ReasoningsOf([r]) == r.reasoning
  {
    assert [r][..0] == [];
    EmptyEnds(r.content);
    EmptyEnds(r.reasoning);
  }

  lemma {:induction false} RoundSaysRight(w: World, reply: Said, log: seq<Event>)
    requires WordsMatch(reply) && !Cut(w.failAt, log)
    ensures RoundSays(RoundOf(w, reply, log), Texts(log), Thoughts(log))
  {
    var said := log + reply.words;
    TextsAppend(log, reply.words);
    var heard := Heard(w, reply, said);
    if heard.Stopped? {
      var o := RoundOf(w, reply, log).outcome;
      EmptyEnds(Texts(log));
      EmptyEnds(Thoughts(log));
      TextsPrefix(log, o.log);
    } else {
      var r := heard.result;
      OneContent(r);
      ToldSaysNothing(said, r.calls, w.tool);
      ToldGrows(said, r.calls, w.tool);
      if r.calls != [] { InterruptedSays(w, said, r.calls); }
    }
  }

  lemma {:induction false} InterruptedSays(w: World, said: seq<Event>, calls: seq<Call>)
    requires !Cut(w.failAt, said)
    ensures var o := Upto(w.failAt, Told(said, calls, w.tool)); Texts(o) == Texts(said) && Thoughts(o) == Thoughts(said)
  {
    var told := Told(said, calls, w.tool);
    ToldSaysNothing(said, calls, w.tool);
    ToldGrows(said, calls, w.tool);
    var o := Upto(w.failAt, told);
    assert said <= o <= told;
    TextsPrefix(said, o);
    TextsPrefix(o, told);
  }

  lemma {:induction false} ContentsCons(r: Result, rest: seq<Result>)
    ensures ContentsOf([r] + rest) == r.content + ContentsOf(rest)
    ensures ReasoningsOf([r] + rest) == r.reasoning + ReasoningsOf(rest)
  {
    if rest == [] {
      assert [r] + rest == [r];
      OneContent(r);
      EmptyEnds(r.content);
      EmptyEnds(r.reasoning);
    } else {
      var all, init, last := [r] + rest, rest[..|rest| - 1], rest[|rest| - 1];
      assert all[..|all| - 1] == [r] + init;
      ContentsCons(r, init);
      Regroup(r.content, ContentsOf(init), last.content);
      Regroup(r.reasoning, ReasoningsOf(init), last.reasoning);
    }
  }

  lemma {:induction false} AskedSays(w: World, round: Rounds, i: nat, log: seq<Event>)
    requires i <= MAX_AGENT_ITERATIONS && !Cut(w.failAt, log)
    requires forall k: nat, l :: k < MAX_AGENT_ITERATIONS && !Cut(w.failAt, l) ==>
      EndsRight(w, k, round(k, l)) && RoundSays(round(k, l), Texts(l), Thoughts(l))
    ensures SaysRight(Asked(round, i, log), Texts(log), Thoughts(log))
    decreases MAX_AGENT_ITERATIONS - i
  {
    if i == MAX_AGENT_ITERATIONS {
      EmptyEnds(Texts(log));
      EmptyEnds(Thoughts(log));
    } else {
      assert EndsRight(w, i, round(i, log)) && RoundSays(round(i, log), Texts(log), Thoughts(log));
      if round(i, log).Goes? {
        var r, told := round(i, log).result, round(i, log).told;
        AskedSays(w, round, i + 1, told);
        var rest := Asked(round, i + 1, told);
        ContentsCons(r, rest.results);
        Regroup(Texts(log), r.content, ContentsOf(rest.results));
        Regroup(Thoughts(log), r.reasoning, ReasoningsOf(rest.results));
      }
    }
  }
}
