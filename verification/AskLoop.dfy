/** The documentation agent: the loop that asks upstream and answers its tool calls
    (docbackend/internal/biz/ask.go). */
module AskLoop {
  import opened Core
  import opened ChatTypes
  import opened AskReply
  import opened AskTurns
  import opened AskRounds

  // ---- the session as the program runs it ------------------------------------------------

  /** One question: the log record being accumulated, and the stream of events to the browser,
      which may fail at any one event. */
  class AskSession {
    const upstream: nat -> Reply
    const tool: Tools
    const failAt: Option<nat>
    const failAs: Fault
    ghost const world: World
    ghost const rounds: Rounds

    var record: Record
    var errored: bool
    var eventCount: nat
    var callCount: nat

    ghost var offered: seq<Event>
    ghost var sent: seq<seq<ChatMessage>>

    constructor (upstream: nat -> Reply, tool: Tools, failAt: Option<nat>, failAs: Fault)
      ensures Flowing() && offered == [] && sent == [] && !errored && Placed()
      ensures this.upstream == upstream && this.tool == tool && this.failAt == failAt && this.failAs == failAs
    {
      this.upstream, this.tool, this.failAt, this.failAs := upstream, tool, failAt, failAs;
      world := World((n: nat) => Read(upstream(n)), tool, failAt, failAs);
      rounds := RoundsOf(World((n: nat) => Read(upstream(n)), tool, failAt, failAs));
      record, errored, eventCount, callCount := Record("", "", {}, 0), false, 0, 0;
      offered, sent := [], [];
    }

    /** The session's world: what each upstream reply comes to, its tools, and the failing event. */
    ghost predicate Placed() {
      && world.tool == tool && world.failAt == failAt && world.failAs == failAs
      && (forall n: nat {:trigger upstream(n)} :: world.said(n) == Read(upstream(n)))
      && (forall n: nat, log {:trigger RoundOf(world, world.said(n), log)} ::
            rounds(n, log) == RoundOf(world, world.said(n), log))
    }

    /** The record matches the events offered, whether or not the last one got through. */
    ghost predicate Valid()
      reads this
    {
      record == RecordOf(offered) && eventCount == |offered| && callCount == |sent|
    }

    /** Nothing has failed so far. */
    ghost predicate Flowing()
      reads this
    {
      Valid() && !Cut(failAt, offered)
    }

    /** Of the events that were to make up this log, those up to a failing one were offered. */
    ghost predicate Offered(log: seq<Event>, fault: Option<Fault>)
      reads this
    {
      && Valid() && Reaches(failAt, offered, log)
      && fault == if Cut(failAt, log) then Some(failAs) else None
    }

    method Note(e: Event)
      modifies this`record
      ensures record == Noted(old(record), e)
    {
      match e {
        case Delta(text) => record := record.(answer := record.answer + text);
        case Thinking(text) => record := record.(thinking := record.thinking + text);
        case ToolCalled(_, _, _) => record := record.(toolCalls := record.toolCalls + 1);
        case Docs(slugs) => record := record.(slugs := record.slugs + slugs);
        case ToolResult(_, _, _) =>
      }
    }

    method WrappedEvent(e: Event) returns (fault: Option<Fault>)
      requires Placed() && Flowing()
      modifies this`record, this`eventCount, this`offered
      ensures Offered(old(offered) + [e], fault) && offered == old(offered) + [e]
    {
      Note(e);
      NotedNext(offered, e);
      offered := offered + [e];
      fault := if failAt == Some(eventCount) then Some(failAs) else None;
      eventCount := eventCount + 1;
    }

    /** Forward a choice's reasoning and content. */
    method ShowChoice(c: Choice) returns (fault: Option<Fault>)
      requires Placed() && Flowing()
      modifies this`record, this`eventCount, this`offered
      ensures Offered(old(offered) + Shown(c), fault)
    {
      fault := None;
      if c.reasoning != "" {
        fault := WrappedEvent(Thinking(c.reasoning));
        if fault.Some? {
          ghost var more := if c.content != "" then [Delta(c.content)] else [];
          ReachesOn(failAt, offered, offered, more);
          Regroup(old(offered), [Thinking(c.reasoning)], more);
          return;
        }
      }
      if c.content != "" {
        fault := WrappedEvent(Delta(c.content));
      }
    }

    method TakeChoice(b: Buffers, ghost taken: seq<Choice>, c: Choice) returns (out: Buffers, fault: Option<Fault>)
      requires Placed() && Flowing() && Hold(b, taken)
      modifies this`record, this`eventCount, this`offered
      ensures Offered(old(offered) + Shown(c), fault)
      ensures fault.None? ==> Hold(out, taken + [c])
    {
      out := b;
      fault := ShowChoice(c);
      if fault.Some? { return; }
      var slots := TakeFragments(b.slots, FragmentsOf(taken), c.fragments);
      out := Buffers(b.content + c.content, b.reasoning + c.reasoning, slots,
                     if c.finish != "" then c.finish else b.finish);
      assert (taken + [c])[..|taken|] == taken;
    }

    method TakeChoices(b: Buffers, ghost taken: seq<Choice>, choices: seq<Choice>)
      returns (out: Buffers, fault: Option<Fault>)
      requires Placed() && Flowing() && Hold(b, taken)
      modifies this`record, this`eventCount, this`offered
      ensures Offered(old(offered) + ShownAll(choices), fault)
      ensures fault.None? ==> Hold(out, taken + choices)
    {
      ghost var before, done, words := offered, taken, [];
      out, fault := b, None;
      for i := 0 to |choices|
        invariant Flowing() && fault.None? && Hold(out, done)
        invariant Passed(taken, choices, i, done, words) && offered == before + words
      {
        PassOne(taken, choices, i, done, words);
        Regroup(before, words, Shown(choices[i]));
        out, fault := TakeChoice(out, done, choices[i]);
        if fault.Some? {
          PassRest(failAt, offered, before, words + Shown(choices[i]), choices, i + 1);
          return;
        }
        done, words := done + [choices[i]], words + Shown(choices[i]);
      }
      assert choices[..|choices|] == choices;
    }

    /** Read up to the end marker, or to the end. */
    method ReadLines(lines: seq<Line>) returns (b: Buffers, ended: bool, fault: Option<Fault>, ghost taken: seq<Choice>)
      requires Placed() && Flowing()
      modifies this`record, this`eventCount, this`offered
      ensures Offered(old(offered) + Words(lines), fault)
      ensures fault.None? ==> ended == Ends(lines) && taken == Choices(lines) && Hold(b, taken)
    {
      ghost var before, words := offered, [];
      b, ended, fault, taken := Buffers("", "", map[], ""), false, None, [];
      var rest := lines;
      while rest != [] && !rest[0].EndMark?
        invariant Flowing() && fault.None? && Hold(b, taken) && Remaining(lines, rest, taken)
        invariant offered == before + words && Words(lines) == words + Words(rest)
        decreases |rest|
      {
        ghost var now := ShownAll(ChoicesIn(rest[0]));
        TakeLine(lines, rest, taken);
        Regroup(words, now, Words(rest[1..]));
        Regroup(before, words, now);
        b, fault := TakeChoices(b, taken, ChoicesIn(rest[0]));
        if fault.Some? {
          Regroup(before, words + now, Words(rest[1..]));
          ReachesOn(failAt, offered, before + words + now, Words(rest[1..]));
          return;
        }
        words := words + now;
        taken := taken + ChoicesIn(rest[0]);
        rest := rest[1..];
      }
      ended := rest != [];
      NoneLeft(lines, rest, taken);
      EmptyEnds(words);
    }

    /** One call upstream: forward what it says, and return what it adds up to. */
    method StreamChat(messages: seq<ChatMessage>) returns (s: Streaming)
      requires Placed() && Flowing()
      modifies this`record, this`eventCount, this`callCount,
               this`offered, this`sent
      ensures Valid() && sent == old(sent) + [messages]
      ensures var reply := world.said(|old(sent)|);
        var log := old(offered) + reply.words;
        s == Heard(world, reply, log) && offered == Upto(failAt, log)
    {
      var reply := upstream(callCount);
      assert world.said(callCount) == Read(reply);
      callCount := callCount + 1;
      sent := sent + [messages];
      if reply.Refused? { EmptyEnds(offered); return Stopped(reply.fault); }
      ghost var before := offered;
      var b, ended, fault;
      ghost var taken;
      b, ended, fault, taken := ReadLines(reply.lines);
      ReachesUpto(failAt, offered, before + Words(reply.lines));
      if fault.Some? { return Stopped(fault.value); }
      if !ended {
        if reply.ending.Aborted? { return Stopped(Canceled); }
        if reply.ending.Broken? { return Stopped(Other); }
      }
      var calls := Assemble(b.slots, FragmentsOf(taken));
      var finish := if b.finish == "" && |calls| > 0 then "tool_calls" else b.finish;
      s := Completed(Result(b.content, b.reasoning, calls, finish));
    }

    /** Tell the browser of one call: that it is made, what it gave, and all documents so far. */
    method TellCall(c: Call) returns (text: string, fault: Option<Fault>)
      requires Placed() && Flowing()
      modifies this`record, this`eventCount, this`offered
      ensures Offered(old(offered) + ToolEvents(old(offered), c, tool), fault)
      ensures fault.None? ==> text == tool(c.name, c.arguments).0
    {
      ghost var before := offered;
      ghost var three := ToolEvents(before, c, tool);
      var (given, found) := tool(c.name, c.arguments);
      text := given;
      fault := WrappedEvent(ToolCalled(c.id, c.name, c.arguments));
      if fault.Some? {
        assert before + three == offered + three[1..];
        ReachesOn(failAt, offered, offered, three[1..]);
        return;
      }
      fault := WrappedEvent(ToolResult(c.id, c.name, text));
      SlugsStay(before, three[0], three[1]);
      assert offered == before + [three[0], three[1]];
      if fault.Some? {
        assert before + three == offered + three[2..];
        ReachesOn(failAt, offered, offered, three[2..]);
        return;
      }
      RecordMeans(offered);
      fault := WrappedEvent(Docs(record.slugs + found));
      assert offered == before + three;
    }

    /** Answer a turn's calls in order, telling the browser of each. */
    method AnswerCalls(history: seq<ChatMessage>, calls: seq<Call>)
      returns (messages: seq<ChatMessage>, fault: Option<Fault>)
      requires Placed() && Flowing()
      modifies this`record, this`eventCount, this`offered
      ensures Offered(Told(old(offered), calls, tool), fault)
      ensures fault.None? ==> messages == history + Replies(calls, tool)
    {
      ghost var before := offered;
      messages, fault := history, None;
      for i := 0 to |calls|
        invariant Flowing() && offered == Told(before, calls[..i], tool) && fault.None?
        invariant messages == history + Replies(calls[..i], tool)
      {
        var c := calls[i];
        assert calls[..i + 1][..i] == calls[..i];
        Regroup(history, Replies(calls[..i], tool), [ToolTurn(c, tool(c.name, c.arguments).0)]);
        var text;
        text, fault := TellCall(c);
        if fault.Some? {
          ghost var now, all := Told(before, calls[..i + 1], tool), Told(before, calls, tool);
          ToldFrom(before, calls, i + 1, tool);
          assert all == now + all[|now|..];
          ReachesOn(failAt, offered, now, all[|now|..]);
          return;
        }
        messages := messages + [ToolTurn(c, text)];
      }
      assert calls[..|calls|] == calls;
    }

    /** One round, as it counts for the whole. */
    method TakeTurn(history: seq<ChatMessage>)
      returns (messages: seq<ChatMessage>, exit: Option<Exit>, ghost results: seq<Result>)
      requires Placed() && Flowing() && callCount < MAX_AGENT_ITERATIONS
      modifies this
      ensures Valid() && sent == old(sent) + [history] && |results| <= 1
      ensures exit.Some? ==> Asked(rounds, |old(sent)|, old(offered)) == Outcome(offered, 1, results, exit.value)
      ensures exit.Some? ==> exit != Some(TooManyTurns)
      ensures exit.None? ==>
        && Flowing() && |results| == 1 && messages == history + Turn(results[0], tool)
        && Asked(rounds, |old(sent)|, old(offered)) == Preceded(results[0], Asked(rounds, |sent|, offered))
      ensures errored <==> old(errored) || exit == Some(UpstreamFailed)
    {
      messages, exit, results := PlayRound(history);
    }

    /** One round: ask, and answer the calls if there are any. */
    method PlayRound(history: seq<ChatMessage>)
      returns (messages: seq<ChatMessage>, exit: Option<Exit>, ghost results: seq<Result>)
      requires Placed() && Flowing()
      modifies this
      ensures Valid() && sent == old(sent) + [history]
      ensures match RoundOf(world, world.said(|old(sent)|), old(offered))
        case Over(o) => exit == Some(o.exit) && offered == o.log && results == o.results && o.asked == 1
        case Goes(r, told) =>
          exit.None? && Flowing() && offered == told && results == [r] && messages == history + Turn(r, tool)
      ensures exit != Some(TooManyTurns)
      ensures errored <==> old(errored) || exit == Some(UpstreamFailed)
    {
      messages, exit, results := history, None, [];
      var reply := StreamChat(messages);
      if reply.Stopped? {
        if reply.fault.Canceled? { exit := Some(Quit); return; }
        errored := true;
        exit := Some(UpstreamFailed);
        return;
      }
      var result := reply.result;
      results := [result];
      if |result.calls| == 0 { exit := Some(AnswerGiven); return; }
      var fault;
      ghost var said := offered;
      messages, fault := AnswerCalls(messages + [AssistantTurn(result)], result.calls);
      ReachesUpto(failAt, offered, Told(said, result.calls, tool));
      if fault.Some? { exit := Some(Interrupted); return; }
      Regroup(history, [AssistantTurn(result)], Replies(result.calls, tool));
    }

    lemma {:induction false} WordsSpeak()
      requires Placed()
      ensures Speaks(world)
    {
      forall n: nat, e | e in world.said(n).words ensures Speech(e) {
        var reply := upstream(n);
        if reply.Streamed? { WordsSpeech(reply.lines); }
      }
    }

    lemma {:induction false} RoundsRight(i: nat, log: seq<Event>)
      requires Placed() && i <= MAX_AGENT_ITERATIONS && !Cut(failAt, log)
      ensures ExitsRight(world, i, Asked(rounds, i, log)) && TurnsRight(world, i, Asked(rounds, i, log))
    {
      WordsSpeak();
      forall k: nat, l | k < MAX_AGENT_ITERATIONS && !Cut(failAt, l) ensures EndsRight(world, k, rounds(k, l)) {
        RoundRight(world, k, l);
        assert rounds(k, l) == RoundOf(world, world.said(k), l);
      }
      RoundsEndRight(world, rounds, i, log);
    }

    lemma {:induction false} RoundsTalk()
      requires Placed() && !Cut(failAt, [])
      ensures TalkRight(Asked(rounds, 0, []), [], tool) && SaysRight(Asked(rounds, 0, []), "", "")
    {
      WordsSpeak();
      forall k: nat, l, b | k < MAX_AGENT_ITERATIONS && !Cut(failAt, l) && ToldOf(l, b, tool)
        ensures EndsRight(world, k, rounds(k, l)) && RoundTalks(rounds(k, l), b, tool)
      {
        RoundRight(world, k, l);
        RoundTalksRight(world, world.said(k), l, b);
        assert rounds(k, l) == RoundOf(world, world.said(k), l);
      }
      AskedTalks(world, rounds, 0, [], []);
      forall k: nat, l | k < MAX_AGENT_ITERATIONS && !Cut(failAt, l)
        ensures EndsRight(world, k, rounds(k, l)) && RoundSays(rounds(k, l), Texts(l), Thoughts(l))
      {
        RoundRight(world, k, l);
        ReadMatches(upstream(k));
        assert world.said(k) == Read(upstream(k));
        RoundSaysRight(world, world.said(k), l);
        assert rounds(k, l) == RoundOf(world, world.said(k), l);
      }
      AskedSays(world, rounds, 0, []);
    }

    /** Between two rounds: what was sent and answered so far, and what the whole will come to. */
    ghost predicate Going(opening: seq<ChatMessage>, whole: Outcome, results: seq<Result>, messages: seq<ChatMessage>)
      reads this
    {
      && Flowing() && Conversed(sent, opening, results, tool) && |results| == |sent| <= MAX_AGENT_ITERATIONS
      && messages == History(opening, results, tool)
      && whole == After(|sent|, results, Asked(rounds, |sent|, offered))
    }

    ghost predicate Ended(opening: seq<ChatMessage>, whole: Outcome, results: seq<Result>, exit: Exit)
      reads this
    {
      Valid() && Conversed(sent, opening, results, tool) && whole == Outcome(offered, |sent|, results, exit)
    }

    method GoOn(messages: seq<ChatMessage>, ghost opening: seq<ChatMessage>, ghost whole: Outcome,
                ghost results: seq<Result>)
      returns (next: seq<ChatMessage>, exit: Option<Exit>, ghost all: seq<Result>)
      requires Placed() && Going(opening, whole, results, messages) && callCount < MAX_AGENT_ITERATIONS
      modifies this
      ensures callCount == old(callCount) + 1
      ensures if exit.None? then Going(opening, whole, all, next) else Ended(opening, whole, all, exit.value)
      ensures exit != Some(TooManyTurns)
      ensures errored <==> old(errored) || exit == Some(UpstreamFailed)
    {
      ghost var more;
      next, exit, more := TakeTurn(messages);
      all := results + more;
      Onward(old(sent), opening, results, more, tool, Asked(rounds, |sent|, offered));
    }

    /** Round after round while the calls go on. */
    method Converse(opening: seq<ChatMessage>) returns (exit: Exit, ghost results: seq<Result>)
      requires Placed() && Flowing() && sent == []
      modifies this
      ensures Ended(opening, Asked(rounds, |old(sent)|, old(offered)), results, exit)
      ensures errored <==> old(errored) || exit.UpstreamFailed? || exit.TooManyTurns?
    {
      var messages, left := opening, None;
      results := [];
      ghost var whole := Asked(rounds, |sent|, offered);
      while callCount < MAX_AGENT_ITERATIONS && left.None?
        invariant Valid() && callCount <= MAX_AGENT_ITERATIONS && left != Some(TooManyTurns)
        invariant if left.None? then Going(opening, whole, results, messages)
                  else Ended(opening, whole, results, left.value)
        invariant errored <==> old(errored) || left == Some(UpstreamFailed)
        decreases MAX_AGENT_ITERATIONS - callCount, left.None?
      {
        messages, left, results := GoOn(messages, opening, whole, results);
      }
      EmptyEnds(results);
      exit := if left.Some? then left.value else TooManyTurns;
      errored := errored || left.None?;
    }

    /** The agent loop, for a fresh session. */
    method Stream(opening: seq<ChatMessage>) returns (exit: Exit, ghost results: seq<Result>)
      requires Placed() && Flowing() && sent == [] && offered == []
      modifies this
      ensures Valid() && Asked(rounds, |old(sent)|, old(offered)) == Outcome(offered, |sent|, results, exit)
      ensures Conversed(sent, opening, results, tool) && CarriedAll(sent, opening, results, tool)
      ensures ExitsRight(world, 0, Outcome(offered, |sent|, results, exit))
      ensures TurnsRight(world, 0, Outcome(offered, |sent|, results, exit))
      ensures TalkRight(Outcome(offered, |sent|, results, exit), [], tool)
      ensures SaysRight(Outcome(offered, |sent|, results, exit), "", "")
      ensures record == Record(Texts(offered), Thoughts(offered), Slugs(offered), ToolCount(offered))
      ensures errored <==> old(errored) || exit.UpstreamFailed? || exit.TooManyTurns?
    {
      RoundsRight(|sent|, offered);
      RoundsTalk();
      exit, results := Converse(opening);
      RequestsCarry(sent, opening, results, tool);
      RecordMeans(offered);
    }
  }

  lemma {:induction false} SlugsStay(log: seq<Event>, a: Event, b: Event)
    requires !a.Docs? && !b.Docs?
    ensures Slugs(log + [a, b]) == Slugs(log)
  {
    assert (log + [a, b])[..|log| + 1] == log + [a];
    assert (log + [a])[..|log|] == log;
  }

  lemma {:induction false} ToldFrom(log: seq<Event>, calls: seq<Call>, n: nat, tool: Tools)
    requires n <= |calls|
    ensures Told(log, calls[..n], tool) <= Told(log, calls, tool)
  {
    if n == |calls| {
      assert calls[..n] == calls;
    } else {
      assert calls[..|calls| - 1][..n] == calls[..n];
      ToldFrom(log, calls[..|calls| - 1], n, tool);
    }
  }

  /** What is taken and what remains to be read make up the stream. */
  ghost predicate Remaining(lines: seq<Line>, rest: seq<Line>, taken: seq<Choice>) {
    Choices(lines) == taken + Choices(rest) && (Ends(lines) <==> Ends(rest))
  }

  lemma {:induction false} TakeLine(lines: seq<Line>, rest: seq<Line>, taken: seq<Choice>)
    requires rest != [] && !rest[0].EndMark? && Remaining(lines, rest, taken)
    ensures Remaining(lines, rest[1..], taken + ChoicesIn(rest[0]))
  {
    Regroup(taken, ChoicesIn(rest[0]), Choices(rest[1..]));
    EndsTail(rest);
  }

  lemma {:induction false} EndsTail(lines: seq<Line>)
    requires lines != [] && !lines[0].EndMark?
    ensures Ends(lines) <==> Ends(lines[1..])
  {
    if Ends(lines) {
      var i :| 0 <= i < |lines| && lines[i].EndMark?;
      assert lines[1..][i - 1] == lines[i];
    }
  }

  lemma {:induction false} NoneLeft(lines: seq<Line>, rest: seq<Line>, taken: seq<Choice>)
    requires Remaining(lines, rest, taken) && (rest != [] ==> rest[0].EndMark?)
    ensures taken == Choices(lines) && (rest != [] <==> Ends(lines))
  {
    assert taken + [] == taken;
  }

  lemma {:induction false} ShownAppend(a: seq<Choice>, b: seq<Choice>)
    ensures ShownAll(a + b) == ShownAll(a) + ShownAll(b)
  {
    if b == [] {
      assert a + b == a;
    } else {
      assert (a + b)[..|a + b| - 1] == a + b[..|b| - 1];
      ShownAppend(a, b[..|b| - 1]);
    }
  }

  lemma {:induction false} ShownPrefix(choices: seq<Choice>, i: nat)
    requires i < |choices|
    ensures ShownAll(choices[..i + 1]) == ShownAll(choices[..i]) + Shown(choices[i])
    ensures |ShownAll(choices[..i])| + |Shown(choices[i])| <= |ShownAll(choices)|
  {
    assert choices[..i + 1][..i] == choices[..i];
    assert choices == choices[..i + 1] + choices[i + 1..];
    ShownAppend(choices[..i + 1], choices[i + 1..]);
  }

  /** After the first i choices: what is taken, and what was said. */
  predicate Passed(taken: seq<Choice>, choices: seq<Choice>, i: nat, done: seq<Choice>, words: seq<Event>) {
    i <= |choices| && done == taken + choices[..i] && words == ShownAll(choices[..i])
  }

  lemma {:induction false} PassOne(taken: seq<Choice>, choices: seq<Choice>, i: nat, done: seq<Choice>,
                                   words: seq<Event>)
    requires i < |choices| && Passed(taken, choices, i, done, words)
    ensures Passed(taken, choices, i + 1, done + [choices[i]], words + Shown(choices[i]))
    ensures words + Shown(choices[i]) == ShownAll(choices[..i + 1])
  {
    ShownPrefix(choices, i);
    assert taken + choices[..i + 1] == taken + choices[..i] + [choices[i]];
  }

  /** A failure among the first choices is the last thing offered of all of them. */
  lemma {:induction false} PassRest(failAt: Option<nat>, offered: seq<Event>, before: seq<Event>, words: seq<Event>,
                                    choices: seq<Choice>, n: nat)
    requires n <= |choices| && words == ShownAll(choices[..n])
    requires Cut(failAt, before + words) && Reaches(failAt, offered, before + words)
    ensures Cut(failAt, before + ShownAll(choices)) && Reaches(failAt, offered, before + ShownAll(choices))
  {
    assert choices == choices[..n] + choices[n..];
    ShownAppend(choices[..n], choices[n..]);
    Regroup(before, words, ShownAll(choices[n..]));
    ReachesOn(failAt, offered, before + words, ShownAll(choices[n..]));
  }

  /** The turns so far, and what comes of the rest. */
  function After(asked: nat, results: seq<Result>, rest: Outcome): Outcome {
    Outcome(rest.log, asked + rest.asked, results + rest.results, rest.exit)
  }

  lemma {:induction false} Onward(sent: seq<seq<ChatMessage>>, opening: seq<ChatMessage>, results: seq<Result>,
                                  more: seq<Result>, tool: Tools, rest: Outcome)
    requires Conversed(sent, opening, results, tool) && |sent| == |results| && |more| <= 1
    ensures Conversed(sent + [History(opening, results, tool)], opening, results + more, tool)
    ensures |more| == 1 ==>
      && History(opening, results + more, tool) == History(opening, results, tool) + Turn(more[0], tool)
      && After(|sent|, results, Preceded(more[0], rest)) == After(|sent| + 1, results + more, rest)
  {
    Converses(sent, opening, results, more, tool);
    AfterPreceded(|sent|, results, more, rest);
  }

  lemma {:induction false} AfterPreceded(asked: nat, results: seq<Result>, more: seq<Result>, rest: Outcome)
    requires |more| <= 1
    ensures |more| == 1 ==> After(asked, results, Preceded(more[0], rest)) == After(asked + 1, results + more, rest)
  {
    if |more| == 1 {
      assert more == [more[0]];
      Regroup(results, more, rest.results);
    }
  }
}
