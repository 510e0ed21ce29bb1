/** The headless transcript: it holds messages back until every awaited tool result is in, then
    commits them to the session. */
module Transcript {
  import opened Types
  import opened Protocol
  import opened Pairing
  import opened Grammar

  /** A session's conversation and the transcript's three fields. */
  datatype Ledger = Ledger(session: seq<Message>, pending: seq<Message>, awaiting: set<string>, followUp: seq<Message>)

  function Opened(session: seq<Message>): Ledger {
    Ledger(session, [], {}, [])
  }

  /** The two branches that ignore an event with messages: a result nobody awaits, and a steering
      batch equal to the follow-up just injected. */
  predicate Drops(l: Ledger, e: AgentEvent) {
    || (e.ToolExecEnd? && e.id !in l.awaiting)
    || (e.SteeringInjected? && e.messages == l.followUp)
  }

  predicate Ignores(l: Ledger, e: AgentEvent) {
    Drops(l, e) || !(e.MessageEnd? || e.ToolExecEnd? || e.FollowUpInjected? || e.SteeringInjected?)
  }

  function Held(l: Ledger, e: AgentEvent): Ledger {
    match e
    case MessageEnd(m) =>
      l.(pending := l.pending + [Reply(m)],
         awaiting := if m.Replayable() then l.awaiting + Ids(Calls(m.content)) else l.awaiting)
    case ToolExecEnd(id, name, result) =>
      if id in l.awaiting
      then l.(pending := l.pending + [Result(id, name, result)], awaiting := l.awaiting - {id})
      else l
    case FollowUpInjected(batch) => l.(pending := l.pending + batch, followUp := batch)
    case SteeringInjected(batch) =>
      if batch == l.followUp then l.(followUp := []) else l.(pending := l.pending + batch, followUp := [])
    case _ => l
  }

  predicate Saves(l: Ledger, e: AgentEvent) {
    !Ignores(l, e) && Held(l, e).awaiting == {} && Held(l, e).pending != []
  }

  /** Everything held back goes to the session once nothing is awaited. */
  function Commit(h: Ledger): Ledger {
    if h.awaiting == {} && h.pending != [] then h.(session := h.session + h.pending, pending := []) else h
  }

  function ApplyEvent(l: Ledger, e: AgentEvent): Ledger {
    if Ignores(l, e) then Held(l, e) else Commit(Held(l, e))
  }

  class Session {
    var conversation: seq<Message>

    constructor (conversation: seq<Message>)
      ensures this.conversation == conversation
    {
      this.conversation := conversation;
    }

    method PushMessage(m: Message)
      modifies this
      ensures conversation == old(conversation) + [m]
    {
      conversation := conversation + [m];
    }
  }

  class Transcript {
    var pending: seq<Message>
    var awaiting: set<string>
    var followUp: seq<Message>

    constructor ()
      ensures pending == [] && awaiting == {} && followUp == []
    {
      pending, awaiting, followUp := [], {}, [];
    }

    function Value(session: Session): Ledger
      reads this, session
    {
      Ledger(session.conversation, pending, awaiting, followUp)
    }

    predicate IsComplete()
      reads this
    {
      awaiting == {} && pending == []
    }

    method Apply(session: Session, e: AgentEvent) returns (saved: bool)
      modifies this, session
      ensures Value(session) == ApplyEvent(old(Value(session)), e)
      ensures saved == Saves(old(Value(session)), e)
    {
      match e {
        case MessageEnd(m) =>
          if m.Replayable() {
            awaiting := awaiting + Ids(Calls(m.content));
          }
          pending := pending + [Reply(m)];
        case ToolExecEnd(id, name, result) =>
          if id !in awaiting {
            return false;
          }
          awaiting := awaiting - {id};
          pending := pending + [Result(id, name, result)];
        case FollowUpInjected(batch) =>
          followUp := batch;
          pending := pending + batch;
        case SteeringInjected(batch) =>
          var last := followUp;
          followUp := [];
          if batch == last {
            return false;
          }
          pending := pending + batch;
        case _ =>
          return false;
      }
      if awaiting == {} && pending != [] {
        Drain(session);
        return true;
      }
      return false;
    }

    method Drain(session: Session)
      modifies this`pending, session
      ensures pending == [] && session.conversation == old(session.conversation) + old(pending)
    {
      while pending != []
        invariant session.conversation + pending == old(session.conversation) + old(pending)
        decreases |pending|
      {
        var m := pending[0];
        assert pending == [m] + pending[1..];
        pending := pending[1..];
        session.PushMessage(m);
      }
    }
  }

  function Fold(l: Ledger, es: seq<AgentEvent>): Ledger
    decreases |es|
  {
    if es == [] then l else ApplyEvent(Fold(l, es[..|es| - 1]), es[|es| - 1])
  }

  predicate DropsAny(l: Ledger, es: seq<AgentEvent>) {
    exists k | 0 <= k < |es| :: Drops(Fold(l, es[..k]), es[k])
  }

  // --- The transcript against the loop's own conversation ------------------------------------------

  /** What the transcript still awaits is still due, and what it holds back is held for that. */
  ghost predicate Follows(t: Track, l: Ledger) {
    && (l.awaiting == {} ==> l.pending == [])
    && (if t.phase.Answering?
        then l.awaiting <= DueIds(t.phase.due) && (!t.phase.reply.Replayable() || t.phase.cut ==> l.awaiting == {})
        else l.awaiting == {})
  }

  lemma ReplyFollows(t: Track, l: Ledger, m: Assistant)
    requires Follows(t, l) && Step(t, MessageEnd(m)).Some?
    ensures Follows(Step(t, MessageEnd(m)).value, ApplyEvent(l, MessageEnd(m)))
  {
    OwedIds(Calls(m.content));
  }

  lemma ResultFollows(t: Track, l: Ledger, id: string, name: string, result: ToolResult)
    requires Follows(t, l) && Step(t, ToolExecEnd(id, name, result)).Some?
    ensures Follows(Step(t, ToolExecEnd(id, name, result)).value, ApplyEvent(l, ToolExecEnd(id, name, result)))
  {
    var r := Ref(id, name);
    assert t.phase.due == (t.phase.due - multiset{r}) + multiset{r};
    assert DueIds(t.phase.due) == DueIds(t.phase.due - multiset{r}) + {id};
  }

  lemma StepFollows(t: Track, l: Ledger, e: AgentEvent)
    requires Follows(t, l) && Step(t, e).Some?
    ensures Follows(Step(t, e).value, ApplyEvent(l, e))
  {
    if e.MessageEnd? {
      ReplyFollows(t, l, e.message);
    } else if e.ToolExecEnd? {
      ResultFollows(t, l, e.id, e.name, e.result);
    } else if !Carries(e) {
      QuietStep(t, e);
    }
  }

  /** The messages an event adds to the conversation. */
  function Added(e: AgentEvent): seq<Message> {
    match e
    case MessageEnd(m) => [Reply(m)]
    case ToolExecEnd(id, name, result) => [Result(id, name, result)]
    case SteeringInjected(batch) => batch
    case FollowUpInjected(batch) => batch
    case _ => []
  }

  lemma StepAdds(t: Track, e: AgentEvent)
    requires Step(t, e).Some? && !e.ContextCompacted?
    ensures Step(t, e).value.messages == t.messages + Added(e)
    ensures e.ToolExecEnd? || e.SteeringInjected? ==> Added(e) != []
  {
    if !Carries(e) {
      QuietStep(t, e);
    }
  }

  lemma ApplyAdds(l: Ledger, e: AgentEvent)
    ensures var l' := ApplyEvent(l, e);
            l'.session + l'.pending == l.session + l.pending + (if Drops(l, e) then [] else Added(e))
  {
    var h := Held(l, e);
    assert l.session + (l.pending + Added(e)) == l.session + l.pending + Added(e);
    assert h.session + h.pending + [] == h.session + h.pending;
  }

  /** The conversation is kept, or something of it was lost. */
  predicate Conserves(conversation: seq<Message>, kept: seq<Message>, lost: bool) {
    if lost then |kept| < |conversation| else kept == conversation
  }

  lemma MoreConserves(conversation: seq<Message>, kept: seq<Message>, lost: bool, added: seq<Message>, dropped: bool)
    requires Conserves(conversation, kept, lost) && (dropped ==> added != [])
    ensures Conserves(conversation + added, kept + (if dropped then [] else added), lost || dropped)
  {
  }

  lemma StepConserves(t: Track, l: Ledger, e: AgentEvent, lost: bool)
    requires Step(t, e).Some? && !e.ContextCompacted? && Conserves(t.messages, l.session + l.pending, lost)
    ensures var u, k := Step(t, e).value, ApplyEvent(l, e);
            Conserves(u.messages, k.session + k.pending, lost || Drops(l, e))
  {
    StepAdds(t, e);
    ApplyAdds(l, e);
    MoreConserves(t.messages, l.session + l.pending, lost, Added(e), Drops(l, e));
  }

  /** Nothing is lost but what the dropping branches drop. */
  lemma StartConserves(initial: seq<Message>)
    ensures Conserves(initial, initial + [], false)
  {
  }

  lemma {:induction false} FoldConserves(start: Track, es: seq<AgentEvent>, t: Track, l: Ledger)
    requires Run(start, es) == Some(t) && Fold(Opened(start.messages), es) == l && Uncompacted(es)
    ensures Conserves(t.messages, l.session + l.pending, DropsAny(Opened(start.messages), es))
    decreases |es|
  {
    var l0 := Opened(start.messages);
    hide Step, Conserves, ApplyEvent;
    if es == [] {
      StartConserves(start.messages);
    } else {
      var init, e := es[..|es| - 1], es[|es| - 1];
      var before, held := Run(start, init).value, Fold(l0, init);
      FoldConserves(start, init, before, held);
      StepConserves(before, held, e, DropsAny(l0, init));
      DropsSnoc(l0, init, e);
      assert es == init + [e];
    }
  }

  lemma DropsSnoc(l: Ledger, es: seq<AgentEvent>, e: AgentEvent)
    ensures DropsAny(l, es + [e]) <==> DropsAny(l, es) || Drops(Fold(l, es), e)
  {
    var all := es + [e];
    assert forall k | 0 <= k < |es| :: all[..k] == es[..k] && all[k] == es[k];
    assert all[..|es|] == es;
    if DropsAny(l, es) {
      var k :| 0 <= k < |es| && Drops(Fold(l, es[..k]), es[k]);
      assert Drops(Fold(l, all[..k]), all[k]);
    }
    if Drops(Fold(l, es), e) {
      assert Drops(Fold(l, all[..|es|]), all[|es|]);
    }
  }

  // --- Stopping anywhere is safe --------------------------------------------------------------------

  predicate Safe(l: Ledger) {
    WellPaired(l.session) && Due(l.session + l.pending) == Some(l.awaiting)
  }

  lemma CommitIsSafe(h: Ledger)
    requires WellPaired(h.session) && Due(h.session + h.pending) == Some(h.awaiting)
    ensures Safe(Commit(h))
  {
    var all := h.session + h.pending;
    assert all + [] == all;
  }

  lemma SnocIsSafe(l: Ledger, m: Message, awaiting: set<string>)
    requires Safe(l) && DueNext(l.awaiting, m) == Some(awaiting)
    ensures Safe(Commit(l.(pending := l.pending + [m], awaiting := awaiting)))
  {
    var all := l.session + l.pending;
    DueSnoc(all, m);
    assert l.session + (l.pending + [m]) == all + [m];
    CommitIsSafe(l.(pending := l.pending + [m], awaiting := awaiting));
  }

  lemma BatchIsSafe(l: Ledger, batch: seq<Message>, followUp: seq<Message>)
    requires Safe(l) && l.awaiting == {} && l.pending == [] && WellPaired(batch)
    ensures Safe(Commit(l.(pending := l.pending + batch, followUp := followUp)))
  {
    var all := l.session + l.pending;
    assert all == l.session;
    DueAppend(all, batch);
    assert l.session + (l.pending + batch) == all + batch;
    CommitIsSafe(l.(pending := l.pending + batch, followUp := followUp));
  }

  lemma StepStaysSafe(t: Track, l: Ledger, e: AgentEvent)
    requires Follows(t, l) && Safe(l) && Step(t, e).Some? && Neat(e)
    ensures Safe(ApplyEvent(l, e))
  {
    if e.MessageEnd? {
      var m := e.message;
      assert l.awaiting + Ids(Calls(m.content)) == Ids(Calls(m.content));
      SnocIsSafe(l, Reply(m), if m.Replayable() then l.awaiting + Ids(Calls(m.content)) else l.awaiting);
    } else if e.ToolExecEnd? {
      if e.id in l.awaiting {
        SnocIsSafe(l, Result(e.id, e.name, e.result), l.awaiting - {e.id});
      }
    } else if e.SteeringInjected? {
      BatchIsSafe(l, e.messages, []);
    } else if e.FollowUpInjected? {
      BatchIsSafe(l, e.messages, e.messages);
    }
  }

  lemma {:induction false} FoldIsSafe(start: Track, es: seq<AgentEvent>)
    requires start.phase.Unstarted? && WellPaired(start.messages) && Run(start, es).Some? && AllNeat(es)
    ensures Follows(Run(start, es).value, Fold(Opened(start.messages), es))
    ensures Safe(Fold(Opened(start.messages), es))
    decreases |es|
  {
    if es == [] {
      assert start.messages + [] == start.messages;
    } else {
      var init, e := es[..|es| - 1], es[|es| - 1];
      FoldIsSafe(start, init);
      StepFollows(Run(start, init).value, Fold(Opened(start.messages), init), e);
      StepStaysSafe(Run(start, init).value, Fold(Opened(start.messages), init), e);
    }
  }

  /** Whatever the provider replies, the session is well paired after every prefix of a run. */
  lemma SessionIsResumable(limit: nat, initial: seq<Message>, es: seq<AgentEvent>, k: nat)
    requires Accepted(limit, initial, es) && k <= |es| && WellPaired(initial) && AllNeat(es)
    ensures WellPaired(Fold(Opened(initial), es[..k]).session)
  {
    PrefixAccepted(Begin(limit, initial), es, k);
    FoldIsSafe(Begin(limit, initial), es[..k]);
  }

  lemma {:induction false} FoldFollows(start: Track, es: seq<AgentEvent>)
    requires start.phase.Unstarted? && Run(start, es).Some?
    ensures Follows(Run(start, es).value, Fold(Opened(start.messages), es))
    decreases |es|
  {
    if es != [] {
      var init := es[..|es| - 1];
      FoldFollows(start, init);
      StepFollows(Run(start, init).value, Fold(Opened(start.messages), init), es[|es| - 1]);
    }
  }

  /** When a run has ended, nothing is awaited and nothing is held back. */
  lemma EndedIsComplete(limit: nat, initial: seq<Message>, es: seq<AgentEvent>)
    requires Complete(limit, initial, es)
    ensures var l := Fold(Opened(initial), es); l.awaiting == {} && l.pending == []
  {
    FoldFollows(Begin(limit, initial), es);
  }

  // --- When nothing is dropped ----------------------------------------------------------------------

  ghost predicate AwaitsAll(t: Track, l: Ledger) {
    if t.phase.Answering? then OneEach(t.phase.due) && l.awaiting == DueIds(t.phase.due) else l.awaiting == {}
  }

  lemma TidyReplyAwaitsAll(t: Track, l: Ledger, m: Assistant)
    requires Follows(t, l) && Step(t, MessageEnd(m)).Some? && Tidy(m)
    ensures AwaitsAll(Step(t, MessageEnd(m)).value, ApplyEvent(l, MessageEnd(m)))
  {
    StepFollows(t, l, MessageEnd(m));
    OwedIds(Calls(m.content));
    CountIds(Calls(m.content));
  }

  lemma ResultAwaitsAll(t: Track, l: Ledger, id: string, name: string, result: ToolResult)
    requires AwaitsAll(t, l) && Step(t, ToolExecEnd(id, name, result)).Some?
    ensures AwaitsAll(Step(t, ToolExecEnd(id, name, result)).value, ApplyEvent(l, ToolExecEnd(id, name, result)))
    ensures !Drops(l, ToolExecEnd(id, name, result))
  {
    Answered(t.phase.due, Ref(id, name));
  }

  lemma TidyStepAwaitsAll(t: Track, l: Ledger, e: AgentEvent)
    requires AwaitsAll(t, l) && Follows(t, l) && Step(t, e).Some? && (e.MessageEnd? ==> Tidy(e.message))
    ensures AwaitsAll(Step(t, e).value, ApplyEvent(l, e))
    ensures e.ToolExecEnd? ==> !Drops(l, e)
  {
    if e.MessageEnd? {
      TidyReplyAwaitsAll(t, l, e.message);
    } else if e.ToolExecEnd? {
      ResultAwaitsAll(t, l, e.id, e.name, e.result);
    } else {
      StepFollows(t, l, e);
      if !Carries(e) {
        QuietStep(t, e);
      }
    }
  }

  predicate Echoes(l: Ledger, es: seq<AgentEvent>) {
    exists k | 0 <= k < |es| :: es[k].SteeringInjected? && Drops(Fold(l, es[..k]), es[k])
  }

  lemma EchoesSnoc(l: Ledger, es: seq<AgentEvent>, e: AgentEvent)
    ensures Echoes(l, es) || (e.SteeringInjected? && Drops(Fold(l, es), e)) ==> Echoes(l, es + [e])
  {
    var all := es + [e];
    if Echoes(l, es) {
      var k :| 0 <= k < |es| && es[k].SteeringInjected? && Drops(Fold(l, es[..k]), es[k]);
      assert all[..k] == es[..k] && all[k] == es[k];
    }
    assert all[..|es|] == es && all[|es|] == e;
  }

  /** With tidy replies no tool result is dropped: only a steering batch that repeats the last
      follow-up can be. */
  lemma {:induction false} TidyRunsDropOnlyEchoes(start: Track, es: seq<AgentEvent>)
    requires start.phase.Unstarted? && Run(start, es).Some? && AllTidy(es)
    ensures AwaitsAll(Run(start, es).value, Fold(Opened(start.messages), es))
    ensures DropsAny(Opened(start.messages), es) ==> Echoes(Opened(start.messages), es)
    decreases |es|
  {
    var l0 := Opened(start.messages);
    if es != [] {
      var init, e := es[..|es| - 1], es[|es| - 1];
      TidyRunsDropOnlyEchoes(start, init);
      FoldFollows(start, init);
      TidyStepAwaitsAll(Run(start, init).value, Fold(l0, init), e);
      DropsSnoc(l0, init, e);
      EchoesSnoc(l0, init, e);
      assert es == init + [e];
    }
  }

  // --- The condition on the events alone --------------------------------------------------------------

  /** The last batch a hook injected. */
  function LastInjected(es: seq<AgentEvent>): Option<AgentEvent>
    decreases |es|
  {
    if es == [] then None
    else if es[|es| - 1].SteeringInjected? || es[|es| - 1].FollowUpInjected? then Some(es[|es| - 1])
    else LastInjected(es[..|es| - 1])
  }

  /** A steering batch repeats the follow-up injected right before it. */
  predicate Echo(es: seq<AgentEvent>, e: AgentEvent) {
    e.SteeringInjected? && LastInjected(es) == Some(FollowUpInjected(e.messages))
  }

  /** A tool result answers an untidy reply. */
  predicate AnswersUntidy(es: seq<AgentEvent>, e: AgentEvent) {
    e.ToolExecEnd? && LastEnded(es).Some? && !Tidy(LastEnded(es).value)
  }

  predicate NoEchoes(es: seq<AgentEvent>) {
    forall k | 0 <= k < |es| :: !Echo(es[..k], es[k])
  }

  predicate AllAnswersTidy(es: seq<AgentEvent>) {
    forall k | 0 <= k < |es| :: !AnswersUntidy(es[..k], es[k])
  }

  lemma InputsSnoc(es: seq<AgentEvent>, e: AgentEvent)
    ensures NoEchoes(es + [e]) <==> NoEchoes(es) && !Echo(es, e)
    ensures AllAnswersTidy(es + [e]) <==> AllAnswersTidy(es) && !AnswersUntidy(es, e)
  {
    var all := es + [e];
    assert forall k | 0 <= k < |es| :: all[..k] == es[..k] && all[k] == es[k];
    assert all[..|es|] == es && all[|es|] == e;
  }

  predicate RemembersFollowUp(l: Ledger, es: seq<AgentEvent>) {
    l.followUp == match LastInjected(es) case Some(FollowUpInjected(batch)) => batch case _ => []
  }

  lemma StepRemembers(l: Ledger, es: seq<AgentEvent>, e: AgentEvent)
    requires RemembersFollowUp(l, es)
    ensures RemembersFollowUp(ApplyEvent(l, e), es + [e])
  {
    assert (es + [e])[..|es|] == es;
  }

  /** The reply being answered is the last that ended. */
  predicate Replies(t: Track, es: seq<AgentEvent>) {
    t.phase.Answering? ==> LastEnded(es) == Some(t.phase.reply)
  }

  lemma RunReplies(limit: nat, initial: seq<Message>, es: seq<AgentEvent>, t: Track)
    requires Run(Begin(limit, initial), es) == Some(t)
    ensures Replies(t, es)
  {
    TraceTells(limit, initial, es);
  }

  /** While a tidy reply is answered, exactly its due calls are awaited. */
  ghost predicate AwaitsTidy(t: Track, l: Ledger) {
    t.phase.Answering? && Tidy(t.phase.reply) ==> OneEach(t.phase.due) && l.awaiting == DueIds(t.phase.due)
  }

  /** While an untidy reply is answered, more calls are due than are awaited. */
  predicate OwesMore(t: Track, l: Ledger) {
    t.phase.Answering? && !Tidy(t.phase.reply) ==> |l.awaiting| < |t.phase.due|
  }

  lemma QuietKeepsAwaiting(t: Track, l: Ledger, e: AgentEvent)
    requires Step(t, e).Some? && !e.MessageEnd? && !e.ToolExecEnd? && Step(t, e).value.phase.Answering?
    ensures ApplyEvent(l, e).awaiting == l.awaiting
    ensures var u := Step(t, e).value;
            t.phase.Answering? && u.phase.reply == t.phase.reply && u.phase.due == t.phase.due
  {
    OtherMoves(t, e);
  }

  lemma StepAwaitsTidy(t: Track, l: Ledger, e: AgentEvent)
    requires AwaitsTidy(t, l) && Follows(t, l) && Step(t, e).Some?
    ensures AwaitsTidy(Step(t, e).value, ApplyEvent(l, e))
  {
    var u := Step(t, e).value;
    if u.phase.Answering? && Tidy(u.phase.reply) {
      if e.MessageEnd? {
        ReplyCloses(t, e.message);
        TidyReplyAwaitsAll(t, l, e.message);
      } else if e.ToolExecEnd? {
        ResultAwaitsAll(t, l, e.id, e.name, e.result);
      } else {
        QuietKeepsAwaiting(t, l, e);
      }
    }
  }

  lemma ReplyOwesMore(t: Track, l: Ledger, m: Assistant)
    requires Follows(t, l) && Step(t, MessageEnd(m)).Some?
    ensures OwesMore(Step(t, MessageEnd(m)).value, ApplyEvent(l, MessageEnd(m)))
  {
    ReplyCloses(t, m);
    OwedIds(Calls(m.content));
    CountIds(Calls(m.content));
    assert l.awaiting == {} && l.awaiting + Ids(Calls(m.content)) == Ids(Calls(m.content));
  }

  lemma StepOwesMore(t: Track, l: Ledger, e: AgentEvent)
    requires OwesMore(t, l) && Follows(t, l) && Step(t, e).Some? && !Drops(l, e)
    ensures OwesMore(Step(t, e).value, ApplyEvent(l, e))
  {
    if e.MessageEnd? {
      ReplyOwesMore(t, l, e.message);
    } else if e.ToolExecEnd? {
      assert t.phase.due == (t.phase.due - multiset{Ref(e.id, e.name)}) + multiset{Ref(e.id, e.name)};
    } else if Step(t, e).value.phase.Answering? {
      QuietKeepsAwaiting(t, l, e);
    }
  }

  /** Untidily answered calls are lost, or are about to be. */
  predicate Doomed(t: Track, lost: bool, tidy: bool) {
    !tidy ==> lost || (t.phase.Answering? && !Tidy(t.phase.reply) && !t.phase.cut)
  }

  lemma ResultDoomed(t: Track, l: Ledger, es: seq<AgentEvent>, e: AgentEvent, lost: bool)
    requires Doomed(t, lost, AllAnswersTidy(es)) && Replies(t, es) && e.ToolExecEnd? && Step(t, e).Some?
    ensures Doomed(Step(t, e).value, lost || Drops(l, e), AllAnswersTidy(es) && !AnswersUntidy(es, e))
  {
  }

  lemma OtherDoomed(t: Track, u: Track, e: AgentEvent, lost: bool, tidy: bool)
    requires Doomed(t, lost, tidy) && Moves(t.phase, e, u.phase)
    requires u.phase.Ended? && t.phase.Answering? ==> t.phase.due == multiset{} || t.phase.cut
    requires t.phase.Answering? && !Tidy(t.phase.reply) && !lost ==> t.phase.due != multiset{}
    ensures Doomed(u, lost, tidy)
  {
  }

  lemma EndsSettled(t: Track, e: AgentEvent)
    requires Step(t, e).Some? && !e.MessageEnd? && !e.ToolExecEnd?
    ensures Step(t, e).value.phase.Ended? && t.phase.Answering? ==> t.phase.due == multiset{} || t.phase.cut
  {
  }

  lemma StepDoomed(t: Track, l: Ledger, es: seq<AgentEvent>, e: AgentEvent, lost: bool)
    requires Doomed(t, lost, AllAnswersTidy(es)) && (!lost ==> OwesMore(t, l)) && Step(t, e).Some? && Replies(t, es)
    ensures Doomed(Step(t, e).value, lost || Drops(l, e), AllAnswersTidy(es + [e]))
  {
    InputsSnoc(es, e);
    if e.MessageEnd? {
      ReplyCloses(t, e.message);
    } else if e.ToolExecEnd? {
      ResultDoomed(t, l, es, e, lost);
    } else {
      OtherMoves(t, e);
      EndsSettled(t, e);
      OtherDoomed(t, Step(t, e).value, e, lost, AllAnswersTidy(es));
    }
  }

  lemma StepDrops(t: Track, l: Ledger, es: seq<AgentEvent>, e: AgentEvent)
    requires AwaitsTidy(t, l) && RemembersFollowUp(l, es) && Replies(t, es) && Step(t, e).Some?
    ensures Drops(l, e) ==> Echo(es, e) || AnswersUntidy(es, e)
    ensures Echo(es, e) ==> Drops(l, e)
  {
    if e.ToolExecEnd? {
      assert e.id in DueIds(t.phase.due) by {
        assert Ref(e.id, e.name) in t.phase.due;
      }
    }
  }

  ghost predicate Judged(t: Track, l: Ledger, es: seq<AgentEvent>, lost: bool) {
    && Follows(t, l) && AwaitsTidy(t, l) && RemembersFollowUp(l, es)
    && (!lost ==> OwesMore(t, l))
    && Doomed(t, lost, AllAnswersTidy(es))
    && (lost ==> !NoEchoes(es) || !AllAnswersTidy(es))
    && (!NoEchoes(es) ==> lost)
  }

  lemma StepJudged(t: Track, l: Ledger, es: seq<AgentEvent>, e: AgentEvent, lost: bool)
    requires Judged(t, l, es, lost) && Replies(t, es) && Step(t, e).Some?
    ensures Judged(Step(t, e).value, ApplyEvent(l, e), es + [e], lost || Drops(l, e))
  {
    StepFollows(t, l, e);
    StepAwaitsTidy(t, l, e);
    StepRemembers(l, es, e);
    StepDoomed(t, l, es, e, lost);
    StepDrops(t, l, es, e);
    InputsSnoc(es, e);
    if !lost && !Drops(l, e) {
      StepOwesMore(t, l, e);
    }
  }

  lemma StartJudged(limit: nat, initial: seq<Message>)
    ensures Judged(Begin(limit, initial), Opened(initial), [], false)
  {
  }

  lemma {:induction false} RunJudged(limit: nat, initial: seq<Message>, es: seq<AgentEvent>, t: Track, l: Ledger,
                                     lost: bool)
    requires Run(Begin(limit, initial), es) == Some(t) && Fold(Opened(initial), es) == l
    requires DropsAny(Opened(initial), es) == lost
    ensures Judged(t, l, es, lost)
    decreases |es|
  {
    hide Step, Judged, Follows, TellsAnswers, ApplyEvent;
    if es == [] {
      StartJudged(limit, initial);
      assert !DropsAny(Opened(initial), es);
    } else {
      var init, e := es[..|es| - 1], es[|es| - 1];
      var before, held := Run(Begin(limit, initial), init).value, Fold(Opened(initial), init);
      var lostBefore := DropsAny(Opened(initial), init);
      RunJudged(limit, initial, init, before, held, lostBefore);
      RunReplies(limit, initial, init, before);
      DropsSnoc(Opened(initial), init, e);
      assert init + [e] == es;
      StepJudged(before, held, init, e, lostBefore);
    }
  }

  // --- Every prefix ------------------------------------------------------------------------------------

  /** A tool result answers a reply that cannot be replayed, or an id this reply's results have had. */
  predicate Unawaited(es: seq<AgentEvent>, e: AgentEvent) {
    e.ToolExecEnd?
    && !(LastEnded(es).Some? && LastEnded(es).value.Replayable() && e.id !in DueIds(AnsweredSince(es)))
  }

  predicate AllAwaited(es: seq<AgentEvent>) {
    forall k | 0 <= k < |es| :: !Unawaited(es[..k], es[k])
  }

  lemma AwaitedSnoc(es: seq<AgentEvent>, e: AgentEvent)
    ensures AllAwaited(es + [e]) <==> AllAwaited(es) && !Unawaited(es, e)
    ensures NoEchoes(es + [e]) <==> NoEchoes(es) && !Echo(es, e)
  {
    var all := es + [e];
    assert forall k | 0 <= k < |es| :: all[..k] == es[..k] && all[k] == es[k];
    assert all[..|es|] == es && all[|es|] == e;
  }

  /** What is awaited: the ids of the reply's calls that had no result yet, if it can be replayed. */
  ghost predicate AwaitsUnanswered(t: Track, l: Ledger, es: seq<AgentEvent>) {
    t.phase.Answering? ==>
      l.awaiting == if t.phase.reply.Replayable()
                    then Ids(Calls(t.phase.reply.content)) - DueIds(AnsweredSince(es)) else {}
  }

  /** What one event adds to the calls answered. */
  lemma AnsweredSnoc(es: seq<AgentEvent>, e: AgentEvent)
    ensures DueIds(AnsweredSince(es + [e]))
            == if e.MessageEnd? then {}
               else DueIds(AnsweredSince(es)) + if e.ToolExecEnd? then {e.id} else {}
  {
    assert (es + [e])[..|es|] == es;
  }

  lemma ResultAwaitsUnanswered(t: Track, l: Ledger, es: seq<AgentEvent>, e: AgentEvent)
    requires AwaitsUnanswered(t, l, es) && Step(t, e).Some? && e.ToolExecEnd?
    ensures AwaitsUnanswered(Step(t, e).value, ApplyEvent(l, e), es + [e])
  {
    AnsweredSnoc(es, e);
  }

  lemma ReplyAwaitsUnanswered(t: Track, l: Ledger, es: seq<AgentEvent>, e: AgentEvent)
    requires Follows(t, l) && Step(t, e).Some? && e.MessageEnd?
    ensures AwaitsUnanswered(Step(t, e).value, ApplyEvent(l, e), es + [e])
  {
    hide Step;
    ReplyCloses(t, e.message);
    AnsweredSnoc(es, e);
  }

  lemma StepAwaitsUnanswered(t: Track, l: Ledger, es: seq<AgentEvent>, e: AgentEvent)
    requires Follows(t, l) && AwaitsUnanswered(t, l, es) && Step(t, e).Some?
    ensures AwaitsUnanswered(Step(t, e).value, ApplyEvent(l, e), es + [e])
  {
    hide Step, ApplyEvent, Follows;
    if e.MessageEnd? {
      ReplyAwaitsUnanswered(t, l, es, e);
    } else if e.ToolExecEnd? {
      ResultAwaitsUnanswered(t, l, es, e);
    } else if Step(t, e).value.phase.Answering? {
      AnsweredSnoc(es, e);
      QuietKeepsAwaiting(t, l, e);
    }
  }

  /** A result that is due names one of the reply's calls. */
  lemma DueIsCalled(t: Track, es: seq<AgentEvent>, r: Ref)
    requires TellsAnswers(t, es) && t.phase.Answering? && r in t.phase.due
    ensures r.id in Ids(Calls(t.phase.reply.content))
  {
    OwedIds(Calls(t.phase.reply.content));
    assert r in AnsweredSince(es) + t.phase.due;
  }

  lemma StepTellsDrops(t: Track, l: Ledger, es: seq<AgentEvent>, e: AgentEvent)
    requires AwaitsUnanswered(t, l, es) && RemembersFollowUp(l, es) && TellsAnswers(t, es) && Step(t, e).Some?
    ensures Drops(l, e) <==> Echo(es, e) || Unawaited(es, e)
  {
    if e.ToolExecEnd? {
      DueIsCalled(t, es, Ref(e.id, e.name));
    }
  }

  ghost predicate TellsDrops(t: Track, l: Ledger, es: seq<AgentEvent>, lost: bool) {
    && Follows(t, l) && AwaitsUnanswered(t, l, es) && RemembersFollowUp(l, es)
    && (lost <==> !AllAwaited(es) || !NoEchoes(es))
  }

  lemma StartTellsDrops(limit: nat, initial: seq<Message>)
    ensures TellsDrops(Begin(limit, initial), Opened(initial), [], false)
  {
  }

  lemma {:induction false} DropsAreTold(limit: nat, initial: seq<Message>, es: seq<AgentEvent>, t: Track, l: Ledger)
    requires Run(Begin(limit, initial), es) == Some(t) && Fold(Opened(initial), es) == l
    ensures TellsDrops(t, l, es, DropsAny(Opened(initial), es))
    decreases |es|
  {
    hide Step, Follows, AwaitsUnanswered, RemembersFollowUp, TellsAnswers, ApplyEvent, Drops, Echo, Unawaited,
         AllAwaited, NoEchoes, DropsAny;
    if es == [] {
      StartTellsDrops(limit, initial);
      NothingDropped(Opened(initial));
    } else {
      var init, e := es[..|es| - 1], es[|es| - 1];
      var before, held := Run(Begin(limit, initial), init).value, Fold(Opened(initial), init);
      assert init + [e] == es;
      DropsAreTold(limit, initial, init, before, held);
      TraceTells(limit, initial, init);
      StepFollows(before, held, e);
      StepAwaitsUnanswered(before, held, init, e);
      StepRemembers(held, init, e);
      StepTellsDrops(before, held, init, e);
      DropsSnoc(Opened(initial), init, e);
      AwaitedSnoc(init, e);
    }
  }

  lemma NothingDropped(l: Ledger)
    ensures !DropsAny(l, [])
  {
  }

  /** After any prefix of a run without compaction, session and held-back messages together are the
      loop's own conversation, exactly when every tool result so far was the first for its id since a
      reply that can be replayed and no steering batch repeated the follow-up injected right before
      it; these are the events that took a dropping branch. */
  lemma TranscriptIsConversation(limit: nat, initial: seq<Message>, es: seq<AgentEvent>, t: Track, l: Ledger)
    requires Run(Begin(limit, initial), es) == Some(t) && Fold(Opened(initial), es) == l && Uncompacted(es)
    ensures l.session + l.pending == t.messages <==> AllAwaited(es) && NoEchoes(es)
    ensures DropsAny(Opened(initial), es) <==> !AllAwaited(es) || !NoEchoes(es)
  {
    hide Step, AllAwaited, NoEchoes, DropsAny, Follows, AwaitsUnanswered, RemembersFollowUp;
    FoldConserves(Begin(limit, initial), es, t, l);
    DropsAreTold(limit, initial, es, t, l);
  }

  /** A complete run without compaction leaves the loop's own conversation in the session exactly when
      every tool result answered a tidy reply and no steering batch repeated the follow-up injected
      right before it. */
  lemma {:induction false} SessionIsConversation(limit: nat, initial: seq<Message>, es: seq<AgentEvent>, t: Track,
                                                 l: Ledger)
    requires Run(Begin(limit, initial), es) == Some(t) && Fold(Opened(initial), es) == l
    requires t.phase.Ended? && Uncompacted(es)
    ensures l.session == t.messages <==> AllAnswersTidy(es) && NoEchoes(es)
  {
    RunJudged(limit, initial, es, t, l, DropsAny(Opened(initial), es));
    TranscriptIsConversation(limit, initial, es, t, l);
    EndedIsComplete(limit, initial, es);
    assert l.session + [] == l.session;
  }
}
