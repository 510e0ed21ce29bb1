/** The grammar of a run's events, read off the trace alone: what a consumer may rely on without
    knowing the loop's state. */
module Grammar {
  import opened Types
  import opened Protocol

  /** Turns that ended after using tools. */
  function ToolTurns(es: seq<AgentEvent>): nat
    decreases |es|
  {
    if es == [] then 0
    else
      var e := es[|es| - 1];
      ToolTurns(es[..|es| - 1]) + if e.TurnEnd? && Calls(e.message.content) != [] then 1 else 0
  }

  /** Turn starts since the last reply ended. */
  function Starts(es: seq<AgentEvent>): nat
    decreases |es|
  {
    if es == [] then 0
    else
      match es[|es| - 1]
      case MessageEnd(_) => 0
      case TurnStart(_) => Starts(es[..|es| - 1]) + 1
      case _ => Starts(es[..|es| - 1])
  }

  /** The last reply that ended. */
  function LastEnded(es: seq<AgentEvent>): Option<Assistant>
    decreases |es|
  {
    if es == [] then None
    else if es[|es| - 1].MessageEnd? then Some(es[|es| - 1].message)
    else LastEnded(es[..|es| - 1])
  }

  /** The calls answered since the last reply ended. */
  function AnsweredSince(es: seq<AgentEvent>): multiset<Ref>
    decreases |es|
  {
    if es == [] then multiset{}
    else
      match es[|es| - 1]
      case MessageEnd(_) => multiset{}
      case ToolExecEnd(id, name, _) => AnsweredSince(es[..|es| - 1]) + multiset{Ref(id, name)}
      case _ => AnsweredSince(es[..|es| - 1])
  }

  /** The calls announced since the last reply ended and not answered yet. */
  function AnnouncedSince(es: seq<AgentEvent>): multiset<Ref>
    decreases |es|
  {
    if es == [] then multiset{}
    else
      match es[|es| - 1]
      case MessageEnd(_) => multiset{}
      case ToolExecStart(call) => AnnouncedSince(es[..|es| - 1]) + multiset{Ref(call.id, call.name)}
      case ToolExecEnd(id, name, _) => AnnouncedSince(es[..|es| - 1]) - multiset{Ref(id, name)}
      case _ => AnnouncedSince(es[..|es| - 1])
  }

  predicate LastIs(es: seq<AgentEvent>, p: AgentEvent -> bool) {
    es != [] && p(es[|es| - 1])
  }

  /** What the trace says about the phase. */
  ghost predicate Told(limit: nat, t: Track, es: seq<AgentEvent>) {
    && t.limit == limit && t.turns == ToolTurns(es)
    && (t.phase.Unstarted? <==> es == [])
    && (t.phase.Ended? <==> LastIs(es, (e: AgentEvent) => e.AgentEnd?))
    && (t.phase.Erred? <==> LastIs(es, (e: AgentEvent) => e.ErrorEvent?))
    && (t.phase.Steered? <==> LastIs(es, (e: AgentEvent) => e.SteeringInjected?))
  }

  ghost predicate TellsWaiting(t: Track, es: seq<AgentEvent>) {
    && (t.waiting ==> t.phase.Ended? || t.phase == Asking(false, false))
    && (t.waiting && !t.phase.Ended? <==> LastIs(es, (e: AgentEvent) => e.NetworkWait?))
  }

  ghost predicate TellsStarts(t: Track, es: seq<AgentEvent>) {
    && (t.phase.Asking? ==> Starts(es) == if t.recovered then 2 else 1)
    && (!t.phase.Asking? ==> Starts(es) <= if t.phase.Erred? || t.phase.Ended? then 2 else 0)
    && (t.phase.Ready? || t.phase.Steered? || t.phase.Resumed? || t.phase.Idle? ==> !t.recovered)
    && (t.phase.Answering? || t.phase.Unstarted? ==> !t.recovered)
    && (t.phase.Asking? && t.phase.owed ==> t.recovered)
    && (t.phase.Asking? && t.phase.owed <==> LastIs(es, (e: AgentEvent) => e.TurnStart?) && Starts(es) == 2)
  }

  /** Every call of the last ended reply was answered, once. */
  predicate AnsweredAll(es: seq<AgentEvent>) {
    LastEnded(es).None? || AnsweredSince(es) == Owed(Calls(LastEnded(es).value.content))
  }

  predicate LastStopped(es: seq<AgentEvent>, stop: StopReason) {
    LastEnded(es).Some? && LastEnded(es).value.stop == stop
  }

  /** The last event ends a reply as aborted. */
  predicate CutShort(es: seq<AgentEvent>) {
    es != [] && es[|es| - 1].MessageEnd? && es[|es| - 1].message.stop == Aborted
  }

  ghost predicate TellsAnswers(t: Track, es: seq<AgentEvent>) {
    match t.phase
    case Answering(reply, due, _, cut) =>
      && LastEnded(es) == Some(reply)
      && AnsweredSince(es) + due == Owed(Calls(reply.content))
      && (cut ==> CutShort(es))
    case Failed => LastStopped(es, Error)
    case Cut => CutShort(es)
    case Erred => AnsweredAll(es) || LastStopped(es, Error)
    case Ended => true
    case _ => AnsweredAll(es)
  }

  ghost predicate TellsAnnounced(t: Track, es: seq<AgentEvent>) {
    t.phase.Answering? ==> t.phase.announced == AnnouncedSince(es)
  }

  /** What one event does to the announced calls of a phase. */
  function AnnouncedNext(announced: multiset<Ref>, e: AgentEvent): multiset<Ref> {
    match e
    case MessageEnd(_) => multiset{}
    case ToolExecStart(call) => announced + multiset{Ref(call.id, call.name)}
    case ToolExecEnd(id, name, _) => announced - multiset{Ref(id, name)}
    case _ => announced
  }

  lemma AnnouncedSnoc(es: seq<AgentEvent>, e: AgentEvent)
    ensures AnnouncedSince(es + [e]) == AnnouncedNext(AnnouncedSince(es), e)
  {
    assert (es + [e])[..|es|] == es;
  }

  lemma StepTold(limit: nat, t: Track, es: seq<AgentEvent>, e: AgentEvent)
    requires Told(limit, t, es) && Step(t, e).Some?
    ensures Told(limit, Step(t, e).value, es + [e])
  {
    assert (es + [e])[..|es|] == es;
  }

  lemma StepTellsWaiting(t: Track, es: seq<AgentEvent>, e: AgentEvent)
    requires TellsWaiting(t, es) && Step(t, e).Some?
    ensures TellsWaiting(Step(t, e).value, es + [e])
  {
    assert (es + [e])[..|es|] == es;
  }

  lemma StepTellsStarts(t: Track, es: seq<AgentEvent>, e: AgentEvent)
    requires TellsStarts(t, es) && TellsWaiting(t, es) && Step(t, e).Some?
    ensures TellsStarts(Step(t, e).value, es + [e])
  {
    hide AdvancePartial, Owed, Calls;
    assert (es + [e])[..|es|] == es;
  }

  lemma ResultTellsAnswers(t: Track, es: seq<AgentEvent>, id: string, name: string, result: ToolResult)
    requires TellsAnswers(t, es) && Step(t, ToolExecEnd(id, name, result)).Some?
    ensures TellsAnswers(Step(t, ToolExecEnd(id, name, result)).value, es + [ToolExecEnd(id, name, result)])
  {
    var r := Ref(id, name);
    assert (es + [ToolExecEnd(id, name, result)])[..|es|] == es;
    assert t.phase.due == multiset{r} + (t.phase.due - multiset{r});
  }

  lemma ReplyTells(u: Track, es: seq<AgentEvent>, m: Assistant)
    requires Closes(m, u.phase)
    ensures TellsAnswers(u, es + [MessageEnd(m)]) && TellsAnnounced(u, es + [MessageEnd(m)])
  {
    AnnouncedSnoc(es, MessageEnd(m));
  }

  /** Neither answering a reply nor closing or over a failed one. */
  predicate Rested(phase: Phase) {
    !phase.Answering? && !phase.Failed? && !phase.Cut? && !phase.Erred? && !phase.Ended?
  }

  /** How events that end no reply and no call move between phases. */
  predicate Moves(p: Phase, e: AgentEvent, q: Phase) {
    match q
    case Answering(reply, due, announced, cut) =>
      p.Answering? && p.reply == reply && p.due == due && announced == AnnouncedNext(p.announced, e) && !cut
    case Failed => false
    case Cut => false
    case Erred => p.Failed? || Rested(p)
    case Ended => true
    case _ => Rested(p) || (p.Answering? && p.due == multiset{})
  }

  lemma OtherMoves(t: Track, e: AgentEvent)
    requires Step(t, e).Some? && !e.MessageEnd? && !e.ToolExecEnd?
    ensures Moves(t.phase, e, Step(t, e).value.phase)
  {
  }

  lemma OtherTellsAnnounced(t: Track, u: Track, es: seq<AgentEvent>, e: AgentEvent)
    requires TellsAnnounced(t, es) && Moves(t.phase, e, u.phase)
    ensures TellsAnnounced(u, es + [e])
  {
    AnnouncedSnoc(es, e);
  }

  lemma ResultTellsAnnounced(t: Track, es: seq<AgentEvent>, id: string, name: string, result: ToolResult)
    requires TellsAnnounced(t, es) && Step(t, ToolExecEnd(id, name, result)).Some?
    ensures TellsAnnounced(Step(t, ToolExecEnd(id, name, result)).value, es + [ToolExecEnd(id, name, result)])
  {
    AnnouncedSnoc(es, ToolExecEnd(id, name, result));
  }

  lemma OtherTellsAnswers(t: Track, u: Track, es: seq<AgentEvent>, e: AgentEvent)
    requires TellsAnswers(t, es) && Moves(t.phase, e, u.phase) && !e.MessageEnd? && !e.ToolExecEnd?
    ensures TellsAnswers(u, es + [e])
  {
    assert (es + [e])[..|es|] == es;
    assert LastEnded(es + [e]) == LastEnded(es) && AnsweredSince(es + [e]) == AnsweredSince(es);
  }

  /** What one event does to the calls. */
  lemma StepTellsCalls(t: Track, u: Track, es: seq<AgentEvent>, e: AgentEvent)
    requires TellsAnswers(t, es) && TellsAnnounced(t, es) && Step(t, e) == Some(u)
    ensures TellsAnswers(u, es + [e]) && TellsAnnounced(u, es + [e])
  {
    match e {
      case MessageEnd(m) =>
        ReplyCloses(t, m);
        ReplyTells(u, es, m);
      case ToolExecEnd(id, name, result) =>
        ResultTellsAnswers(t, es, id, name, result);
        ResultTellsAnnounced(t, es, id, name, result);
      case _ =>
        OtherMoves(t, e);
        OtherTellsAnswers(t, u, es, e);
        OtherTellsAnnounced(t, u, es, e);
    }
  }

  lemma {:induction false} TraceTells(limit: nat, initial: seq<Message>, es: seq<AgentEvent>)
    requires Accepted(limit, initial, es)
    ensures var t := Run(Begin(limit, initial), es).value;
            && Told(limit, t, es) && TellsWaiting(t, es) && TellsStarts(t, es)
            && TellsAnswers(t, es) && TellsAnnounced(t, es)
    decreases |es|
  {
    if es != [] {
      var init, e := es[..|es| - 1], es[|es| - 1];
      TraceTells(limit, initial, init);
      var t := Run(Begin(limit, initial), init).value;
      assert init + [e] == es;
      StepTold(limit, t, init, e);
      StepTellsWaiting(t, init, e);
      StepTellsStarts(t, init, e);
      StepTellsCalls(t, Step(t, e).value, init, e);
    }
  }

  /** The state before event `k`, with what the trace tells about it. */
  lemma Before(limit: nat, initial: seq<Message>, es: seq<AgentEvent>, k: nat) returns (t: Track)
    requires Accepted(limit, initial, es) && k < |es|
    ensures Step(t, es[k]).Some?
    ensures Told(limit, t, es[..k]) && TellsWaiting(t, es[..k]) && TellsStarts(t, es[..k])
    ensures TellsAnswers(t, es[..k]) && TellsAnnounced(t, es[..k])
  {
    PrefixAccepted(Begin(limit, initial), es, k);
    PrefixAccepted(Begin(limit, initial), es, k + 1);
    assert es[..k + 1][..k] == es[..k];
    t := Run(Begin(limit, initial), es[..k]).value;
    TraceTells(limit, initial, es[..k]);
  }

  /** `agent_start` opens the run and only that; nothing follows `agent_end`, and an error is
      followed by it; an injected batch is followed by its turn. */
  lemma Frame(limit: nat, initial: seq<Message>, es: seq<AgentEvent>, k: nat)
    requires Accepted(limit, initial, es) && k < |es|
    ensures es[k].AgentStart? <==> k == 0
    ensures es[k].AgentEnd? ==> k == |es| - 1
    ensures es[k].ErrorEvent? && k + 1 < |es| ==> es[k + 1].AgentEnd?
    ensures es[k].SteeringInjected? && k + 1 < |es| ==> es[k + 1].TurnStart?
  {
    var t := Before(limit, initial, es, k);
    if k + 1 < |es| {
      var u := Before(limit, initial, es, k + 1);
      assert es[..k + 1][|es[..k + 1]| - 1] == es[k];
    }
  }

  /** A complete run ends, once. */
  lemma CompleteEnds(limit: nat, initial: seq<Message>, es: seq<AgentEvent>)
    requires Complete(limit, initial, es)
    ensures es != [] && forall k | 0 <= k < |es| :: es[k].AgentEnd? <==> k == |es| - 1
  {
    TraceTells(limit, initial, es);
    forall k | 0 <= k < |es| ensures es[k].AgentEnd? <==> k == |es| - 1 {
      Frame(limit, initial, es, k);
    }
  }

  /** A turn starts and ends under the number of tool turns completed before it, which stays below
      the budget; it ends with the last reply that ended, each of whose calls was answered once. */
  lemma TurnsAreNumbered(limit: nat, initial: seq<Message>, es: seq<AgentEvent>, k: nat)
    requires Accepted(limit, initial, es) && k < |es|
    ensures es[k].TurnStart? ==> es[k].turnIndex == ToolTurns(es[..k]) < Budget(limit)
    ensures es[k].TurnEnd? ==>
              && es[k].turnIndex == ToolTurns(es[..k])
              && LastEnded(es[..k]) == Some(es[k].message)
              && AnsweredSince(es[..k]) == Owed(Calls(es[k].message.content))
  {
    var t := Before(limit, initial, es, k);
  }

  /** A wait is followed by another, by the restored network, or by the end of the run; the network
      is restored only from a wait. */
  lemma WaitsAreRestored(limit: nat, initial: seq<Message>, es: seq<AgentEvent>, k: nat)
    requires Accepted(limit, initial, es) && k < |es|
    ensures es[k].NetworkRestored? ==> k > 0 && es[k - 1].NetworkWait?
    ensures es[k].NetworkWait? && k + 1 < |es| ==>
              es[k + 1].NetworkWait? || es[k + 1].NetworkRestored? || es[k + 1].AgentEnd?
  {
    var t := Before(limit, initial, es, k);
    if k + 1 < |es| {
      var u := Before(limit, initial, es, k + 1);
      assert es[..k + 1][|es[..k + 1]| - 1] == es[k];
    }
  }

  /** No turn starts more than twice before a reply ends, and its second start is followed by a
      compaction or the end in an error. */
  lemma OneRecoveryPerReply(limit: nat, initial: seq<Message>, es: seq<AgentEvent>, k: nat)
    requires Accepted(limit, initial, es) && k < |es| && es[k].TurnStart?
    ensures 1 <= Starts(es[..k + 1]) <= 2
    ensures Starts(es[..k + 1]) == 2 && k + 1 < |es| ==> es[k + 1].ContextCompacted? || es[k + 1].ErrorEvent?
  {
    PrefixAccepted(Begin(limit, initial), es, k + 1);
    TraceTells(limit, initial, es[..k + 1]);
    if k + 1 < |es| {
      var u := Before(limit, initial, es, k + 1);
    }
  }

  lemma TurnsComeAnswered(t: Track, es: seq<AgentEvent>, index: nat)
    requires Step(t, TurnStart(index)).Some? && TellsAnswers(t, es)
    ensures AnsweredAll(es)
  {
  }

  lemma EndsAnswered(t: Track, es: seq<AgentEvent>)
    requires MayEnd(t) && TellsAnswers(t, es)
    ensures AnsweredAll(es) || LastStopped(es, Error) || CutShort(es)
  {
  }

  /** Whenever a turn starts or the run ends, every call of the last ended reply was answered exactly
      once, also by a cancelled tool phase; only a failed reply, or one cut short right before the
      end, is left with calls unanswered. */
  lemma EveryCallIsAnswered(limit: nat, initial: seq<Message>, es: seq<AgentEvent>, k: nat)
    requires Accepted(limit, initial, es) && k < |es|
    ensures es[k].TurnStart? ==> AnsweredAll(es[..k])
    ensures es[k].AgentEnd? ==> AnsweredAll(es[..k]) || LastStopped(es[..k], Error) || CutShort(es[..k])
  {
    var t := Before(limit, initial, es, k);
    if es[k].TurnStart? {
      TurnsComeAnswered(t, es[..k], es[k].turnIndex);
    }
    if es[k].AgentEnd? {
      EndsAnswered(t, es[..k]);
    }
  }

  lemma SuccessNeedsAnnouncing(t: Track, es: seq<AgentEvent>, e: AgentEvent)
    requires Step(t, e).Some? && TellsAnnounced(t, es) && e.ToolExecEnd? && e.result.outcome.Success?
    ensures Ref(e.id, e.name) in AnnouncedSince(es)
  {
  }

  /** A call reports success only if it was announced since its reply ended. */
  lemma SuccessWasAnnounced(limit: nat, initial: seq<Message>, es: seq<AgentEvent>, k: nat)
    requires Accepted(limit, initial, es) && k < |es| && es[k].ToolExecEnd? && es[k].result.outcome.Success?
    ensures Ref(es[k].id, es[k].name) in AnnouncedSince(es[..k])
  {
    var t := Before(limit, initial, es, k);
    SuccessNeedsAnnouncing(t, es[..k], es[k]);
  }
}
