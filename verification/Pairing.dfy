/** Which tool calls of a conversation still lack a result, and when every request of a run carries
    a conversation in which none does. */
module Pairing {
  import opened Types
  import opened Protocol

  /** The ids still due after this history; `None` once a result came that nobody asked for, or
      something else came while results were due. */
  function Due(history: seq<Message>): Option<set<string>>
    decreases |history|
  {
    if history == [] then Some({})
    else
      var due := Due(history[..|history| - 1]);
      if due.None? then None else DueNext(due.value, history[|history| - 1])
  }

  function DueNext(due: set<string>, m: Message): Option<set<string>> {
    match m
    case Result(id, _, _) => if id in due then Some(due - {id}) else None
    case Reply(a) =>
      if due != {} then None
      else Some(if a.Replayable() then Ids(Calls(a.content)) else {})
    case _ => if due != {} then None else Some({})
  }

  predicate WellPaired(history: seq<Message>) {
    Due(history) == Some({})
  }

  lemma DueSnoc(history: seq<Message>, m: Message)
    ensures Due(history + [m]) == if Due(history).None? then None else DueNext(Due(history).value, m)
  {
    assert (history + [m])[..|history|] == history;
  }

  lemma {:induction false} DueAppend(history: seq<Message>, batch: seq<Message>)
    requires WellPaired(history)
    ensures Due(history + batch) == Due(batch)
    decreases |batch|
  {
    if batch == [] {
      assert history + batch == history;
    } else {
      var init := batch[..|batch| - 1];
      DueAppend(history, init);
      DueSnoc(history + init, batch[|batch| - 1]);
      assert history + init + [batch[|batch| - 1]] == history + batch;
    }
  }

  lemma {:induction false} DueStaysNone(history: seq<Message>, batch: seq<Message>)
    requires Due(history).None?
    ensures Due(history + batch).None?
    decreases |batch|
  {
    if batch == [] {
      assert history + batch == history;
    } else {
      var init := batch[..|batch| - 1];
      DueStaysNone(history, init);
      DueSnoc(history + init, batch[|batch| - 1]);
      assert history + init + [batch[|batch| - 1]] == history + batch;
    }
  }

  // --- Tidy replies ------------------------------------------------------------------------------

  predicate DistinctIds(calls: seq<ToolCall>) {
    calls == [] || (calls[0].id !in Ids(calls[1..]) && DistinctIds(calls[1..]))
  }

  /** The provider's part of the bargain: a reply that calls tools is not an aborted one and names
      each call once. */
  predicate Tidy(m: Assistant) {
    Calls(m.content) == [] || (m.Replayable() && DistinctIds(Calls(m.content)))
  }

  predicate AllTidy(es: seq<AgentEvent>) {
    forall k | 0 <= k < |es| && es[k].MessageEnd? :: Tidy(es[k].message)
  }

  /** The hooks' part: what they inject or compact to is well paired on its own. */
  predicate Neat(e: AgentEvent) {
    && (e.SteeringInjected? || e.FollowUpInjected? ==> WellPaired(e.messages))
    && (e.ContextCompacted? ==> WellPaired(e.compacted))
  }

  predicate AllNeat(es: seq<AgentEvent>) {
    forall k | 0 <= k < |es| :: Neat(es[k])
  }

  predicate Uncompacted(es: seq<AgentEvent>) {
    forall k | 0 <= k < |es| :: !es[k].ContextCompacted?
  }

  function DueIds(due: multiset<Ref>): set<string> {
    set r <- due :: r.id
  }

  /** Each owed call has an id of its own. */
  predicate OneEach(due: multiset<Ref>) {
    |DueIds(due)| == |due|
  }

  lemma {:induction false} IdsAtMost(due: multiset<Ref>)
    ensures |DueIds(due)| <= |due|
    decreases |due|
  {
    if due != multiset{} {
      var r :| r in due;
      var left := due - multiset{r};
      IdsAtMost(left);
      assert due == left + multiset{r};
      assert DueIds(due) == DueIds(left) + {r.id};
    }
  }

  lemma {:induction false} OwedIds(calls: seq<ToolCall>)
    ensures DueIds(Owed(calls)) == Ids(calls) && |Owed(calls)| == |calls|
    decreases |calls|
  {
    if calls != [] {
      var rest := calls[1..];
      OwedIds(rest);
      assert calls == [calls[0]] + rest;
      assert Ids(calls) == {calls[0].id} + Ids(rest);
      assert DueIds(Owed(calls)) == {calls[0].id} + DueIds(Owed(rest));
    }
  }

  /** Distinct ids are as many as the calls, repeated ones are fewer. */
  lemma {:induction false} CountIds(calls: seq<ToolCall>)
    ensures |Ids(calls)| <= |calls|
    ensures DistinctIds(calls) <==> |Ids(calls)| == |calls|
    decreases |calls|
  {
    if calls != [] {
      var head, rest := calls[0].id, calls[1..];
      CountIds(rest);
      assert calls == [calls[0]] + rest;
      assert Ids(calls) == {head} + Ids(rest);
      if head in Ids(rest) {
        assert Ids(calls) == Ids(rest);
      }
    }
  }

  lemma Answered(due: multiset<Ref>, r: Ref)
    requires OneEach(due) && r in due
    ensures DueIds(due - multiset{r}) == DueIds(due) - {r.id} && OneEach(due - multiset{r})
  {
    var left := due - multiset{r};
    assert due == left + multiset{r};
    assert DueIds(due) == DueIds(left) + {r.id};
    IdsAtMost(left);
  }

  // --- Every request is well paired ---------------------------------------------------------------

  /** While the replies are tidy, the conversation owes exactly what the protocol says is due. */
  ghost predicate InStep(t: Track) {
    if t.phase.Answering? then Due(t.messages) == Some(DueIds(t.phase.due)) && OneEach(t.phase.due)
    else WellPaired(t.messages) || t.phase.Ended?
  }

  lemma ReplyStaysInStep(t: Track, m: Assistant)
    requires InStep(t) && Step(t, MessageEnd(m)).Some? && Tidy(m)
    ensures InStep(Step(t, MessageEnd(m)).value)
  {
    hide Step;
    ReplyCloses(t, m);
    DueSnoc(t.messages, Reply(m));
    OwedIds(Calls(m.content));
    CountIds(Calls(m.content));
  }

  lemma ResultStaysInStep(t: Track, id: string, name: string, result: ToolResult)
    requires InStep(t) && Step(t, ToolExecEnd(id, name, result)).Some?
    ensures InStep(Step(t, ToolExecEnd(id, name, result)).value)
  {
    DueSnoc(t.messages, Result(id, name, result));
    Answered(t.phase.due, Ref(id, name));
  }

  lemma StepStaysInStep(t: Track, e: AgentEvent)
    requires InStep(t) && Step(t, e).Some? && Neat(e)
    requires e.MessageEnd? ==> Tidy(e.message)
    ensures InStep(Step(t, e).value)
  {
    if e.MessageEnd? {
      ReplyStaysInStep(t, e.message);
    } else if e.ToolExecEnd? {
      ResultStaysInStep(t, e.id, e.name, e.result);
    } else if e.SteeringInjected? || e.FollowUpInjected? {
      DueAppend(t.messages, e.messages);
    } else if !e.ContextCompacted? {
      QuietStep(t, e);
    }
  }

  // --- and only then --------------------------------------------------------------------------------

  predicate Live(t: Track) {
    !t.phase.Failed? && !t.phase.Cut? && !t.phase.Erred? && !t.phase.Ended?
  }

  /** More results are due than the conversation has ids for, or it is already out of step. */
  predicate Short(t: Track) {
    Due(t.messages).None? || (t.phase.Answering? && |Due(t.messages).value| < |t.phase.due|)
  }

  lemma LiveBefore(t: Track, e: AgentEvent)
    requires Step(t, e).Some? && Live(Step(t, e).value)
    ensures Live(t)
  {
  }

  lemma UntidyReplyIsShort(t: Track, m: Assistant)
    requires Step(t, MessageEnd(m)).Some? && !Tidy(m) && Live(Step(t, MessageEnd(m)).value)
    ensures Short(Step(t, MessageEnd(m)).value)
  {
    hide Step;
    ReplyCloses(t, m);
    DueSnoc(t.messages, Reply(m));
    OwedIds(Calls(m.content));
    CountIds(Calls(m.content));
  }

  lemma ResultMoves(t: Track, id: string, name: string, result: ToolResult)
    requires Step(t, ToolExecEnd(id, name, result)).Some?
    ensures var u := Step(t, ToolExecEnd(id, name, result)).value;
            && t.phase.Answering? && u.phase.Answering? && u.messages == t.messages + [Result(id, name, result)]
            && t.phase.due == u.phase.due + multiset{Ref(id, name)}
  {
  }

  lemma BatchMoves(t: Track, e: AgentEvent)
    requires Step(t, e).Some? && (e.SteeringInjected? || e.FollowUpInjected?)
    ensures !t.phase.Answering? && Step(t, e).value.messages == t.messages + e.messages
  {
  }

  lemma ResultStaysShort(t: Track, id: string, name: string, result: ToolResult)
    requires Short(t) && Step(t, ToolExecEnd(id, name, result)).Some?
    ensures Short(Step(t, ToolExecEnd(id, name, result)).value)
  {
    hide Step;
    ResultMoves(t, id, name, result);
    DueSnoc(t.messages, Result(id, name, result));
  }

  lemma QuietStaysShort(t: Track, e: AgentEvent)
    requires Short(t) && Step(t, e).Some? && !Carries(e)
    requires Live(Step(t, e).value)
    ensures Short(Step(t, e).value)
  {
    QuietStep(t, e);
  }

  lemma ReplyStaysShort(t: Track, m: Assistant)
    requires Short(t) && Step(t, MessageEnd(m)).Some?
    ensures Short(Step(t, MessageEnd(m)).value)
  {
    hide Step;
    ReplyCloses(t, m);
    DueSnoc(t.messages, Reply(m));
  }

  lemma BatchStaysShort(t: Track, e: AgentEvent)
    requires Short(t) && Step(t, e).Some? && (e.SteeringInjected? || e.FollowUpInjected?)
    ensures Short(Step(t, e).value)
  {
    hide Step;
    BatchMoves(t, e);
    DueStaysNone(t.messages, e.messages);
  }

  lemma StepStaysShort(t: Track, e: AgentEvent)
    requires Short(t) && Step(t, e).Some? && !e.ContextCompacted?
    requires Live(Step(t, e).value)
    ensures Short(Step(t, e).value)
  {
    if e.MessageEnd? {
      ReplyStaysShort(t, e.message);
    } else if e.ToolExecEnd? {
      ResultStaysShort(t, e.id, e.name, e.result);
    } else if e.SteeringInjected? || e.FollowUpInjected? {
      BatchStaysShort(t, e);
    } else {
      QuietStaysShort(t, e);
    }
  }

  // --- Whole runs ---------------------------------------------------------------------------------

  /** The events since the last compaction. */
  function Since(es: seq<AgentEvent>): seq<AgentEvent>
    decreases |es|
  {
    if es == [] || es[|es| - 1].ContextCompacted? then [] else Since(es[..|es| - 1]) + [es[|es| - 1]]
  }

  /** The history they started from. */
  function Base(initial: seq<Message>, es: seq<AgentEvent>): seq<Message>
    decreases |es|
  {
    if es == [] then initial
    else if es[|es| - 1].ContextCompacted? then es[|es| - 1].compacted
    else Base(initial, es[..|es| - 1])
  }

  /** The history and every batch put on top of it are well paired on their own. */
  predicate NeatSince(initial: seq<Message>, es: seq<AgentEvent>) {
    WellPaired(Base(initial, es)) && AllNeat(Since(es))
  }

  lemma AllSnoc(es: seq<AgentEvent>, e: AgentEvent)
    ensures AllTidy(es + [e]) <==> AllTidy(es) && (e.MessageEnd? ==> Tidy(e.message))
    ensures AllNeat(es + [e]) <==> AllNeat(es) && Neat(e)
  {
    var all := es + [e];
    assert forall k | 0 <= k < |es| :: all[k] == es[k];
    assert all[|es|] == e;
  }

  lemma {:induction false} NeatRuns(initial: seq<Message>, es: seq<AgentEvent>)
    requires WellPaired(initial) && AllNeat(es)
    ensures NeatSince(initial, es)
    decreases |es|
  {
    if es != [] {
      var init, e := es[..|es| - 1], es[|es| - 1];
      assert init + [e] == es;
      AllSnoc(init, e);
      NeatRuns(initial, init);
      AllSnoc(Since(init), e);
    }
  }

  lemma {:induction false} SinceTheStart(initial: seq<Message>, es: seq<AgentEvent>)
    requires Uncompacted(es)
    ensures Since(es) == es && Base(initial, es) == initial
    decreases |es|
  {
    if es != [] {
      SinceTheStart(initial, es[..|es| - 1]);
    }
  }

  ghost predicate Paired(t: Track, es: seq<AgentEvent>) {
    if AllTidy(Since(es)) then InStep(t) else Live(t) ==> Short(t)
  }

  lemma CompactionPairs(t: Track, e: AgentEvent)
    requires e.ContextCompacted? && Step(t, e).Some? && WellPaired(e.compacted)
    ensures InStep(Step(t, e).value)
  {
  }

  lemma StepStaysPaired(t: Track, u: Track, es: seq<AgentEvent>, e: AgentEvent)
    requires Paired(t, es) && Step(t, e) == Some(u) && Neat(e) && !e.ContextCompacted?
    ensures Paired(u, es + [e])
  {
    hide Step, InStep, Short, Tidy, Neat, Live;
    assert (es + [e])[..|es|] == es;
    AllSnoc(Since(es), e);
    if AllTidy(Since(es + [e])) {
      StepStaysInStep(t, e);
    } else if Live(u) {
      LiveBefore(t, e);
      if AllTidy(Since(es)) {
        UntidyReplyIsShort(t, e.message);
      } else {
        StepStaysShort(t, e);
      }
    }
  }

  lemma {:induction false} RunsStayPaired(start: Track, es: seq<AgentEvent>)
    requires start.phase.Unstarted? && Run(start, es).Some? && NeatSince(start.messages, es)
    ensures Paired(Run(start, es).value, es)
    decreases |es|
  {
    hide Step, Paired, Neat;
    if es == [] {
      StartIsPaired(start);
    } else {
      var init, e := es[..|es| - 1], es[|es| - 1];
      assert init + [e] == es;
      if e.ContextCompacted? {
        CompactionPairs(Run(start, init).value, e);
        CompactedIsPaired(Run(start, es).value, es);
      } else {
        AllSnoc(Since(init), e);
        RunsStayPaired(start, init);
        StepStaysPaired(Run(start, init).value, Run(start, es).value, init, e);
      }
    }
  }

  lemma StartIsPaired(start: Track)
    requires start.phase.Unstarted? && WellPaired(start.messages)
    ensures Paired(start, [])
  {
  }

  lemma CompactedIsPaired(t: Track, es: seq<AgentEvent>)
    requires InStep(t) && es != [] && es[|es| - 1].ContextCompacted?
    ensures Paired(t, es)
  {
  }

  /** Between replies of a run every call of the conversation has its result exactly when every reply
      since the last compaction was tidy. */
  lemma PairedIffTidy(limit: nat, initial: seq<Message>, es: seq<AgentEvent>)
    requires Accepted(limit, initial, es) && NeatSince(initial, es)
    requires var t := Run(Begin(limit, initial), es).value; Live(t) && !t.phase.Answering?
    ensures WellPaired(Run(Begin(limit, initial), es).value.messages) <==> AllTidy(Since(es))
  {
    RunsStayPaired(Begin(limit, initial), es);
  }

  /** A request carries a conversation in which every call has its result exactly when every reply
      between the last compaction and the request was tidy. */
  lemma RequestsAreWellPaired(limit: nat, initial: seq<Message>, es: seq<AgentEvent>, at: nat)
    requires Accepted(limit, initial, es) && at <= |es| && NeatSince(initial, es[..at])
    ensures Run(Begin(limit, initial), es[..at]).Some?
    ensures var t := Run(Begin(limit, initial), es[..at]).value;
            t.phase.Asking? ==> (WellPaired(t.messages) <==> AllTidy(Since(es[..at])))
  {
    PrefixAccepted(Begin(limit, initial), es, at);
    RunsStayPaired(Begin(limit, initial), es[..at]);
  }
}
