/** What the JSON lines of a run say, read off the events alone: the lines of an event are a function of
    the events before it, without the consumer's own bookkeeping. */
module JsonHistory {
  import opened Types
  import opened JsonEvents

  /** A turn started and neither ended nor saw its reply or the run fail. */
  predicate TurnIsOpen(es: seq<AgentEvent>)
    decreases |es|
  {
    es != [] &&
    match es[|es| - 1]
    case TurnStart(_) => true
    case TurnEnd(_, _) => false
    case ErrorEvent(_) => false
    case MessageEnd(m) => m.stop != Error && m.stop != Aborted && TurnIsOpen(es[..|es| - 1])
    case _ => TurnIsOpen(es[..|es| - 1])
  }

  predicate NoTurnYet(es: seq<AgentEvent>) {
    forall k | 0 <= k < |es| :: !es[k].TurnStart?
  }

  /** Partials discarded since the last reply ended or failed. */
  function Discards(es: seq<AgentEvent>): nat
    decreases |es|
  {
    if es == [] then 0
    else
      match es[|es| - 1]
      case PartialDiscarded(_) => Discards(es[..|es| - 1]) + 1
      case MessageEnd(_) => 0
      case ErrorEvent(_) => 0
      case _ => Discards(es[..|es| - 1])
  }

  /** The event ends an open turn. */
  predicate ClosesTurn(es: seq<AgentEvent>, e: AgentEvent) {
    && TurnIsOpen(es)
    && (e.TurnEnd? || e.ErrorEvent? || (e.MessageEnd? && (e.message.stop == Error || e.message.stop == Aborted)))
  }

  /** The results reported since a turn last ended. */
  function Waiting(es: seq<AgentEvent>): seq<Message>
    decreases |es|
  {
    if es == [] then []
    else
      var init, e := es[..|es| - 1], es[|es| - 1];
      if ClosesTurn(init, e) then []
      else Waiting(init) + if e.ToolExecEnd? then [Result(e.id, e.name, e.result)] else []
  }

  /** The arguments of a call that started and did not end. */
  function ArgsOf(es: seq<AgentEvent>, id: string): Option<string>
    decreases |es|
  {
    if es == [] then None
    else
      var e := es[|es| - 1];
      if e.ToolExecStart? && e.call.id == id then Some(e.call.arguments)
      else if e.ToolExecEnd? && e.id == id then None
      else ArgsOf(es[..|es| - 1], id)
  }

  /** The reply made up for an error that came while a turn was open. */
  function FailedReply(model: string, error: string): Message {
    Reply(Assistant([], model, Error, Some(error)))
  }

  /** The messages an event ends. */
  function Carried(model: string, prompt: Option<Message>, es: seq<AgentEvent>, e: AgentEvent): seq<Message> {
    match e
    case TurnStart(_) => if prompt.Some? && NoTurnYet(es) then [prompt.value] else []
    case MessageEnd(m) => [Reply(m)]
    case ToolExecEnd(id, name, result) => [Result(id, name, result)]
    case SteeringInjected(batch) => batch
    case ErrorEvent(error) => if TurnIsOpen(es) then [FailedReply(model, error)] else []
    case _ => []
  }

  /** All messages ended, and those ended since the last `agent_end`. */
  function AllCarried(model: string, prompt: Option<Message>, es: seq<AgentEvent>): seq<Message>
    decreases |es|
  {
    if es == [] then []
    else AllCarried(model, prompt, es[..|es| - 1]) + Carried(model, prompt, es[..|es| - 1], es[|es| - 1])
  }

  function Listed(model: string, prompt: Option<Message>, es: seq<AgentEvent>): seq<Message>
    decreases |es|
  {
    if es == [] || es[|es| - 1].AgentEnd? then []
    else Listed(model, prompt, es[..|es| - 1]) + Carried(model, prompt, es[..|es| - 1], es[|es| - 1])
  }

  function Both(ms: seq<Message>): seq<Line> {
    if ms == [] then [] else [MessageStartLine(ms[0]), MessageEndLine(ms[0])] + Both(ms[1..])
  }

  function RetryEnd(es: seq<AgentEvent>, success: bool, error: Option<string>): seq<Line> {
    if Discards(es) == 0 then []
    else [RetryEndLine(success, Discards(es), if success then None else error)]
  }

  function TurnClosed(es: seq<AgentEvent>, e: AgentEvent, m: Message): seq<Line> {
    if ClosesTurn(es, e) then [TurnEndLine(m, Waiting(es))] else []
  }

  /** The lines of an event, after these events; stream events aside. */
  function Told(model: string, prompt: Option<Message>, es: seq<AgentEvent>, e: AgentEvent): seq<Line>
    requires !e.Streamed?
  {
    match e
    case AgentStart => [AgentStartLine]
    case TurnStart(_) => [TurnStartLine] + Both(Carried(model, prompt, es, e))
    case MessageStart(m) => [MessageStartLine(Reply(m))]
    case PartialDiscarded(error) => [RetryStartLine(Discards(es) + 1, error)]
    case MessageEnd(m) =>
      RetryEnd(es, m.stop != Error && m.stop != Aborted, m.error)
      + [MessageEndLine(Reply(m))] + TurnClosed(es, e, Reply(m))
    case ToolExecStart(call) => [ToolStartLine(call)]
    case ToolOutput(id, name, output) => [ToolUpdateLine(id, name, ArgsOf(es, id), output)]
    case ToolExecEnd(id, name, result) => [ToolEndLine(id, name, result)] + Both(Carried(model, prompt, es, e))
    case SteeringInjected(batch) => Both(batch)
    case ContextCompacted(_, _) => [CompactionStartLine, CompactionEndLine]
    case TurnEnd(_, m) => TurnClosed(es, e, Reply(m))
    case ErrorEvent(error) =>
      RetryEnd(es, false, Some(error)) + Both(Carried(model, prompt, es, e))
      + TurnClosed(es, e, FailedReply(model, error))
    case AgentEnd => [AgentEndLine(Listed(model, prompt, es))]
    case _ => []
  }

  // --- The consumer's state is a function of the history ----------------------------------------------

  ghost predicate Remembers(model: string, prompt: Option<Message>, es: seq<AgentEvent>, j: Json) {
    && j.model == model
    && j.prompt == (if NoTurnYet(es) then prompt else None)
    && j.turnOpen == TurnIsOpen(es)
    && j.retries == Discards(es)
    && j.toolResults == Waiting(es)
    && j.messages == Listed(model, prompt, es)
    && RemembersArgs(es, j)
  }

  ghost predicate RemembersArgs(es: seq<AgentEvent>, j: Json) {
    forall id {:trigger ArgsOf(es, id)} :: ArgsOf(es, id) == if id in j.toolArgs then Some(j.toolArgs[id]) else None
  }

  lemma HistorySnoc(model: string, prompt: Option<Message>, es: seq<AgentEvent>, e: AgentEvent)
    ensures NoTurnYet(es + [e]) <==> NoTurnYet(es) && !e.TurnStart?
    ensures TurnIsOpen(es + [e])
            <==> e.TurnStart? || (TurnIsOpen(es) && !ClosesTurn(es, e))
    ensures Discards(es + [e])
            == if e.MessageEnd? || e.ErrorEvent? then 0 else Discards(es) + if e.PartialDiscarded? then 1 else 0
    ensures Waiting(es + [e])
            == if ClosesTurn(es, e) then []
               else Waiting(es) + if e.ToolExecEnd? then [Result(e.id, e.name, e.result)] else []
    ensures Listed(model, prompt, es + [e])
            == if e.AgentEnd? then [] else Listed(model, prompt, es) + Carried(model, prompt, es, e)
    ensures AllCarried(model, prompt, es + [e]) == AllCarried(model, prompt, es) + Carried(model, prompt, es, e)
  {
    var all := es + [e];
    assert all[..|es|] == es && all[|es|] == e;
    assert forall k | 0 <= k < |es| :: all[k] == es[k];
  }

  lemma ArgsSnoc(es: seq<AgentEvent>, e: AgentEvent, id: string)
    ensures ArgsOf(es + [e], id)
            == if e.ToolExecStart? && e.call.id == id then Some(e.call.arguments)
               else if e.ToolExecEnd? && e.id == id then None
               else ArgsOf(es, id)
  {
    assert (es + [e])[..|es|] == es;
  }

  lemma {:induction false} PushedIsBoth(j: Json, ms: seq<Message>)
    ensures PushedAll(j, ms) == (j.(messages := j.messages + ms), Both(ms))
    decreases |ms|
  {
    if ms == [] {
      assert j.messages + ms == j.messages;
    } else {
      PushedIsBoth(Pushed(j, ms[0]).0, ms[1..]);
      assert j.messages + [ms[0]] + ms[1..] == j.messages + ms;
    }
  }

  lemma BothOfOne(m: Message)
    ensures Both([m]) == [MessageStartLine(m), MessageEndLine(m)] && Both([]) == []
  {
    assert [m][1..] == [];
  }

  /** Rendering an event gives the lines the history tells. */
  lemma RenderIsTold(model: string, prompt: Option<Message>, es: seq<AgentEvent>, e: AgentEvent, j: Json)
    requires Remembers(model, prompt, es, j) && !e.Streamed?
    ensures Render(j, e).1 == Told(model, prompt, es, e)
  {
    hide NoTurnYet, TurnIsOpen, Discards, Waiting, Listed, ArgsOf;
    match e {
      case TurnStart(_) => BothOfOne(prompt.GetOr(User("")));
      case ToolExecEnd(id, name, result) => BothOfOne(Result(id, name, result));
      case ErrorEvent(error) => BothOfOne(FailedReply(model, error));
      case SteeringInjected(batch) => PushedIsBoth(j, batch);
      case ToolOutput(id, _, _) => assert ArgsOf(es, id) == if id in j.toolArgs then Some(j.toolArgs[id]) else None;
      case _ =>
    }
  }

  lemma StepRemembersArgs(es: seq<AgentEvent>, e: AgentEvent, j: Json)
    requires RemembersArgs(es, j)
    ensures RemembersArgs(es + [e], Render(j, e).0)
  {
    var k := Render(j, e).0;
    if e.SteeringInjected? {
      PushedIsBoth(j, e.messages);
    }
    forall id ensures ArgsOf(es + [e], id) == if id in k.toolArgs then Some(k.toolArgs[id]) else None {
      ArgsSnoc(es, e, id);
      assert ArgsOf(es, id) == if id in j.toolArgs then Some(j.toolArgs[id]) else None;
    }
  }

  /** The event ends the turn, if one is open. */
  predicate Closing(e: AgentEvent) {
    e.TurnEnd? || e.ErrorEvent? || (e.MessageEnd? && !e.message.Replayable())
  }

  lemma RenderFlags(j: Json, e: AgentEvent)
    ensures var k := Render(j, e).0;
            && k.model == j.model && k.prompt == (if e.TurnStart? then None else j.prompt)
            && k.turnOpen == (e.TurnStart? || (j.turnOpen && !Closing(e)))
            && k.retries
               == if e.MessageEnd? || e.ErrorEvent? then 0 else j.retries + if e.PartialDiscarded? then 1 else 0
  {
    if e.SteeringInjected? {
      PushedIsBoth(j, e.messages);
    }
  }

  lemma RenderResults(j: Json, e: AgentEvent)
    ensures Render(j, e).0.toolResults
            == if j.turnOpen && Closing(e) then []
               else if e.ToolExecEnd? then j.toolResults + [Result(e.id, e.name, e.result)]
               else j.toolResults
  {
    if e.SteeringInjected? {
      PushedIsBoth(j, e.messages);
    }
  }

  lemma RenderMessages(j: Json, e: AgentEvent)
    ensures Render(j, e).0.messages
            == match e
               case AgentEnd => []
               case TurnStart(_) => if j.prompt.Some? then j.messages + [j.prompt.value] else j.messages
               case MessageEnd(m) => j.messages + [Reply(m)]
               case ToolExecEnd(id, name, result) => j.messages + [Result(id, name, result)]
               case SteeringInjected(batch) => j.messages + batch
               case ErrorEvent(error) => if j.turnOpen then j.messages + [FailedReply(j.model, error)] else j.messages
               case _ => j.messages
  {
    if e.SteeringInjected? {
      PushedIsBoth(j, e.messages);
    }
  }

  lemma StepRemembers(model: string, prompt: Option<Message>, es: seq<AgentEvent>, e: AgentEvent, j: Json)
    requires Remembers(model, prompt, es, j)
    ensures Remembers(model, prompt, es + [e], Render(j, e).0)
  {
    hide Render, NoTurnYet, TurnIsOpen, Discards, Waiting, Listed, ArgsOf, RemembersArgs;
    HistorySnoc(model, prompt, es, e);
    RenderFlags(j, e);
    RenderResults(j, e);
    RenderMessages(j, e);
    StepRemembersArgs(es, e, j);
  }

  lemma StartRemembers(model: string, prompt: Option<Message>)
    ensures Remembers(model, prompt, [], Opened(model, prompt))
  {
  }

  lemma {:induction false} RunRemembers(model: string, prompt: Option<Message>, es: seq<AgentEvent>)
    ensures Remembers(model, prompt, es, RenderAll(Opened(model, prompt), es).0)
    decreases |es|
  {
    hide Remembers, Render;
    if es == [] {
      StartRemembers(model, prompt);
    } else {
      var init, e := es[..|es| - 1], es[|es| - 1];
      RunRemembers(model, prompt, init);
      StepRemembers(model, prompt, init, e, RenderAll(Opened(model, prompt), init).0);
      assert init + [e] == es;
    }
  }

  /** After any events, the lines of the next one are what the history tells: each message as the event
      carries it, each turn with the reply that ended it and the results since the last, each retry with
      its number and outcome. */
  lemma LinesAreTold(model: string, prompt: Option<Message>, es: seq<AgentEvent>, e: AgentEvent)
    requires !e.Streamed?
    ensures RenderAll(Opened(model, prompt), es + [e]).1
            == RenderAll(Opened(model, prompt), es).1 + Told(model, prompt, es, e)
  {
    hide Remembers, Render, Told;
    var j := RenderAll(Opened(model, prompt), es).0;
    RunRemembers(model, prompt, es);
    RenderIsTold(model, prompt, es, e, j);
    assert (es + [e])[..|es|] == es;
  }

  // --- The messages of the lines ------------------------------------------------------------------------

  lemma Regroup<T>(a: seq<T>, b: seq<T>, c: seq<T>)
    ensures a + (b + c) == a + b + c
  {
  }

  lemma {:induction false} PayloadsAppend(a: seq<Line>, b: seq<Line>)
    ensures Payloads(a + b) == Payloads(a) + Payloads(b)
    decreases |a|
  {
    if a == [] {
      assert a + b == b;
    } else {
      assert (a + b)[1..] == a[1..] + b && (a + b)[0] == a[0];
      PayloadsAppend(a[1..], b);
      Regroup(if a[0].MessageEndLine? then [a[0].message] else [], Payloads(a[1..]), Payloads(b));
    }
  }

  lemma {:induction false} PayloadsOfBoth(ms: seq<Message>)
    ensures Payloads(Both(ms)) == ms
    decreases |ms|
  {
    if ms != [] {
      PayloadsOfBoth(ms[1..]);
      var two := [MessageStartLine(ms[0]), MessageEndLine(ms[0])];
      PayloadsAppend(two, Both(ms[1..]));
      assert two[1..] == [MessageEndLine(ms[0])] && two[1..][1..] == [];
    }
  }

  lemma PayloadsOfOne(line: Line)
    ensures Payloads([line]) == (if line.MessageEndLine? then [line.message] else []) && Payloads([]) == []
  {
    assert [line][1..] == [];
  }

  lemma PayloadsOfAtMostOne(lines: seq<Line>)
    requires |lines| <= 1
    ensures Payloads(lines) == if |lines| == 1 && lines[0].MessageEndLine? then [lines[0].message] else []
  {
    if |lines| == 1 {
      PayloadsOfOne(lines[0]);
      assert lines == [lines[0]];
    }
  }

  /** Lines around the messages an event ends. */
  lemma PayloadsWithin(a: seq<Line>, lines: seq<Line>, b: seq<Line>)
    requires |a| <= 1 && |b| <= 1
    requires (forall line <- a :: !line.MessageEndLine?) && (forall line <- b :: !line.MessageEndLine?)
    ensures Payloads(a + lines + b) == Payloads(lines)
  {
    hide Payloads;
    PayloadsOfAtMostOne(a);
    PayloadsOfAtMostOne(b);
    PayloadsAppend(a, lines);
    PayloadsAppend(a + lines, b);
  }

  lemma ToldCarries(model: string, prompt: Option<Message>, es: seq<AgentEvent>, e: AgentEvent)
    requires !e.Streamed?
    ensures Payloads(Told(model, prompt, es, e)) == Carried(model, prompt, es, e)
  {
    hide TurnIsOpen, NoTurnYet, Discards, Waiting, Listed, Payloads, Both;
    var ms := Carried(model, prompt, es, e);
    var told := Told(model, prompt, es, e);
    PayloadsOfBoth(ms);
    match e {
      case TurnStart(_) =>
        PayloadsWithin([TurnStartLine], Both(ms), []);
        assert told == [TurnStartLine] + Both(ms) + [];
      case ToolExecEnd(id, name, result) =>
        PayloadsWithin([ToolEndLine(id, name, result)], Both(ms), []);
        assert told == [ToolEndLine(id, name, result)] + Both(ms) + [];
      case SteeringInjected(_) =>
      case MessageEnd(m) =>
        PayloadsOfOne(MessageEndLine(Reply(m)));
        PayloadsWithin(RetryEnd(es, m.stop != Error && m.stop != Aborted, m.error), [MessageEndLine(Reply(m))],
                       TurnClosed(es, e, Reply(m)));
      case ErrorEvent(error) =>
        PayloadsWithin(RetryEnd(es, false, Some(error)), Both(ms), TurnClosed(es, e, FailedReply(model, error)));
      case ContextCompacted(_, _) =>
        assert told == [CompactionStartLine] + [CompactionEndLine];
        PayloadsAppend([CompactionStartLine], [CompactionEndLine]);
        PayloadsOfOne(CompactionStartLine);
        PayloadsOfOne(CompactionEndLine);
      case _ => PayloadsOfAtMostOne(told);
    }
  }

  lemma StreamCarriesNothing(j: Json, event: StreamEvent)
    ensures Payloads(Render(j, Streamed(event)).1) == []
  {
    PayloadsOfAtMostOne(Render(j, Streamed(event)).1);
  }

  /** The messages of all `message_end` lines are those the events carry, as they carry them. */
  lemma {:induction false} PayloadsAreCarried(model: string, prompt: Option<Message>, es: seq<AgentEvent>)
    ensures Payloads(RenderAll(Opened(model, prompt), es).1) == AllCarried(model, prompt, es)
    decreases |es|
  {
    hide Render, Told, Carried;
    if es != [] {
      var init, e := es[..|es| - 1], es[|es| - 1];
      assert init + [e] == es;
      PayloadsAreCarried(model, prompt, init);
      var (j, out) := RenderAll(Opened(model, prompt), init);
      PayloadsAppend(out, Render(j, e).1);
      HistorySnoc(model, prompt, init, e);
      if e.Streamed? {
        StreamCarriesNothing(j, e.event);
        NothingCarried(model, prompt, init, e);
      } else {
        RunRemembers(model, prompt, init);
        RenderIsTold(model, prompt, init, e, j);
        ToldCarries(model, prompt, init, e);
      }
    }
  }

  lemma NothingCarried(model: string, prompt: Option<Message>, es: seq<AgentEvent>, e: AgentEvent)
    requires e.Streamed?
    ensures Carried(model, prompt, es, e) == []
  {
  }
}
