/** The agent loop.  A run is the method `Run`: turns, request attempts and streamed replies, tool
    calls and follow-ups, with every outside answer arbitrary.  What it yields is `events`; the
    protocol automaton accepts that trace, and its track mirrors the loop's own state. */
module AgentLoop {
  import opened Types
  import opened Partials
  import opened Protocol
  import opened World
  import Retry
  import Grouping
  import Pairing

  /** A provider request: how many events preceded it and the history it carried. */
  datatype Request = Request(at: nat, history: seq<Message>)

  /** A call of the context transform. */
  datatype Transform = Transform(at: nat, history: seq<Message>, pressure: Pressure)

  /** A tool call that ran: what it returned, the event that reported it, its batch and its place there. */
  datatype Execution<F> = Execution(call: ToolCall, outcome: ToolResult, at: nat, batch: Batch<F>, slot: nat)

  /** Calls that ran together, and the files they started on. */
  datatype Batch<F> = Batch(number: nat, files: map<string, F>, calls: seq<ToolCall>)

  predicate Linked(tracks: seq<Track>, es: seq<AgentEvent>, k: nat)
    requires k < |es| && |tracks| == |es| + 1
  {
    Step(tracks[k], es[k]) == Some(tracks[k + 1])
  }

  /** `tracks` are the protocol's states along the trace. */
  ghost predicate Path(start: Track, tracks: seq<Track>, es: seq<AgentEvent>) {
    && |tracks| == |es| + 1
    && tracks[0] == start
    && forall k {:trigger Linked(tracks, es, k)} | 0 <= k < |es| :: Linked(tracks, es, k)
  }

  lemma PathSnoc(start: Track, tracks: seq<Track>, es: seq<AgentEvent>, e: AgentEvent, next: Track)
    requires Path(start, tracks, es) && Step(tracks[|es|], e) == Some(next)
    ensures Path(start, tracks + [next], es + [e])
  {
    var longer, grown := tracks + [next], es + [e];
    forall k | 0 <= k < |grown| ensures Linked(longer, grown, k) {
      if k < |es| {
        assert Linked(tracks, es, k);
      }
    }
  }

  lemma {:induction false} PathIsRun(start: Track, tracks: seq<Track>, es: seq<AgentEvent>, k: nat)
    requires Path(start, tracks, es) && k <= |es|
    ensures Protocol.Run(start, es[..k]) == Some(tracks[k])
  {
    if k > 0 {
      PathIsRun(start, tracks, es, k - 1);
      assert Linked(tracks, es, k - 1);
      assert es[..k][..k - 1] == es[..k - 1];
    }
  }

  /** The request went out with a turn open, no overflow pending, and exactly the history the
      events so far amount to. */
  predicate Backed(tracks: seq<Track>, r: Request) {
    && r.at < |tracks|
    && tracks[r.at].phase.Asking? && !tracks[r.at].phase.owed && tracks[r.at].messages == r.history
  }

  /** The transform was given the history of the moment, and told of an overflow exactly when one awaits
      compaction. */
  predicate Pressed(tracks: seq<Track>, x: Transform) {
    && x.at < |tracks|
    && tracks[x.at].phase.Asking? && tracks[x.at].phase.opening && tracks[x.at].messages == x.history
    && (x.pressure.Overflowed? <==> tracks[x.at].phase.owed)
  }

  /** The same two facts, read off the trace alone. */
  ghost predicate Sent(start: Track, es: seq<AgentEvent>, r: Request) {
    && r.at <= |es| && Protocol.Run(start, es[..r.at]).Some?
    && var t := Protocol.Run(start, es[..r.at]).value;
       t.phase.Asking? && !t.phase.owed && t.messages == r.history
  }

  ghost predicate Told(start: Track, es: seq<AgentEvent>, x: Transform) {
    && x.at <= |es| && Protocol.Run(start, es[..x.at]).Some?
    && var t := Protocol.Run(start, es[..x.at]).value;
       t.phase.Asking? && t.phase.opening && t.messages == x.history && (x.pressure.Overflowed? <==> t.phase.owed)
  }

  /** A request a run sent carried a conversation in which every call has its result exactly when every
      reply between the last compaction and the request was tidy. */
  lemma SentIsPairedIffTidy(limit: nat, initial: seq<Message>, es: seq<AgentEvent>, r: Request)
    requires Sent(Begin(limit, initial), es, r) && Pairing.NeatSince(initial, es[..r.at])
    ensures Pairing.WellPaired(r.history) <==> Pairing.AllTidy(Pairing.Since(es[..r.at]))
  {
    Pairing.PairedIffTidy(limit, initial, es[..r.at]);
  }

  lemma PathFacts(start: Track, tracks: seq<Track>, es: seq<AgentEvent>, requests: seq<Request>,
                  transforms: seq<Transform>)
    requires Path(start, tracks, es)
    requires forall r <- requests :: Backed(tracks, r)
    requires forall x <- transforms :: Pressed(tracks, x)
    ensures Protocol.Run(start, es) == Some(tracks[|es|])
    ensures forall r <- requests :: Sent(start, es, r)
    ensures forall x <- transforms :: Told(start, es, x)
  {
    PathIsRun(start, tracks, es, |es|);
    assert es[..|es|] == es;
    forall r <- requests ensures Sent(start, es, r) {
      PathIsRun(start, tracks, es, r.at);
    }
    forall x <- transforms ensures Told(start, es, x) {
      PathIsRun(start, tracks, es, x.at);
    }
  }

  /** The reported result is the execution's own, with texts attached after it. */
  predicate Reports(e: AgentEvent, call: ToolCall, outcome: ToolResult) {
    && e.ToolExecEnd? && e.id == call.id && e.name == call.name
    && outcome.content <= e.result.content && e.result.outcome == outcome.outcome
  }

  predicate Reported<F>(es: seq<AgentEvent>, x: Execution<F>) {
    x.at < |es| && Reports(es[x.at], x.call, x.outcome)
  }

  /** The execution is that of this call of the batch, with this outcome. */
  predicate RanAs<F(==)>(x: Execution<F>, batch: Batch<F>, slot: nat, outcomes: seq<ToolResult>)
    requires slot < |batch.calls| == |outcomes|
  {
    x.call == batch.calls[slot] && x.outcome == outcomes[slot] && x.batch == batch && x.slot == slot
  }

  predicate AllRan<F(==)>(ran: seq<Execution<F>>, batch: Batch<F>, outcomes: seq<ToolResult>)
    requires |ran| <= |batch.calls| == |outcomes|
  {
    forall i | 0 <= i < |ran| :: RanAs(ran[i], batch, i, outcomes)
  }

  /** The first `n` calls of the batch were executed, with these outcomes, in order. */
  predicate Executed<F(==)>(before: seq<Execution<F>>, after: seq<Execution<F>>, batch: Batch<F>, n: nat,
                       outcomes: seq<ToolResult>)
    requires n <= |batch.calls| == |outcomes|
  {
    |after| == |before| + n && after[..|before|] == before && AllRan(after[|before|..], batch, outcomes)
  }

  lemma NothingExecuted<F>(before: seq<Execution<F>>, batch: Batch<F>, outcomes: seq<ToolResult>)
    requires |batch.calls| == |outcomes|
    ensures Executed(before, before, batch, 0, outcomes)
  {
  }

  lemma ExecutedNext<F>(before: seq<Execution<F>>, after: seq<Execution<F>>, batch: Batch<F>, n: nat,
                        outcomes: seq<ToolResult>, x: Execution<F>)
    requires n < |batch.calls| == |outcomes| && Executed(before, after, batch, n, outcomes)
    requires RanAs(x, batch, n, outcomes)
    ensures Executed(before, after + [x], batch, n + 1, outcomes)
  {
    var ran := after[|before|..];
    assert (after + [x])[|before|..] == ran + [x] && (after + [x])[..|before|] == after[..|before|];
    forall i | 0 <= i < n + 1 ensures RanAs((ran + [x])[i], batch, i, outcomes) {
      if i < n {
        assert (ran + [x])[i] == ran[i];
      }
    }
  }

  /** The first `n` calls of the batch were executed, and the post-tool hooks of each of them ran. */
  predicate AreReported<F(==)>(before: seq<Execution<F>>, asked: seq<HookCall>, after: seq<Execution<F>>,
                               askedNow: seq<HookCall>, batch: Batch<F>, n: nat, outcomes: seq<ToolResult>)
    requires n <= |batch.calls| == |outcomes|
  {
    Executed(before, after, batch, n, outcomes) && askedNow == asked + HookCalls(PostToolUse, batch.calls[..n])
  }

  lemma NothingReported<F>(before: seq<Execution<F>>, asked: seq<HookCall>, batch: Batch<F>, outcomes: seq<ToolResult>)
    requires |batch.calls| == |outcomes|
    ensures AreReported(before, asked, before, asked, batch, 0, outcomes)
  {
    assert asked + HookCalls(PostToolUse, batch.calls[..0]) == asked;
  }

  lemma NextReported<F>(before: seq<Execution<F>>, asked: seq<HookCall>, after: seq<Execution<F>>,
                        askedNow: seq<HookCall>, batch: Batch<F>, n: nat, outcomes: seq<ToolResult>)
    requires n < |batch.calls| == |outcomes| && AreReported(before, asked, after, askedNow, batch, n, outcomes)
    ensures forall at ::
              AreReported(before, asked, after + [Execution(batch.calls[n], outcomes[n], at, batch, n)],
                          askedNow + [HookCall(PostToolUse, Some(batch.calls[n].name))], batch, n + 1, outcomes)
  {
    forall at
      ensures AreReported(before, asked, after + [Execution(batch.calls[n], outcomes[n], at, batch, n)],
                          askedNow + [HookCall(PostToolUse, Some(batch.calls[n].name))], batch, n + 1, outcomes)
    {
      ExecutedNext(before, after, batch, n, outcomes, Execution(batch.calls[n], outcomes[n], at, batch, n));
      HookCallsNext(PostToolUse, batch.calls, n);
    }
  }

  lemma AllReported<F>(before: seq<Execution<F>>, asked: seq<HookCall>, after: seq<Execution<F>>,
                       askedNow: seq<HookCall>, batch: Batch<F>, outcomes: seq<ToolResult>)
    requires |batch.calls| == |outcomes|
    requires AreReported(before, asked, after, askedNow, batch, |batch.calls|, outcomes)
    ensures Executed(before, after, batch, |batch.calls|, outcomes)
    ensures askedNow == asked + HookCalls(PostToolUse, batch.calls)
  {
    assert batch.calls[..|batch.calls|] == batch.calls;
  }

  datatype Opening = Proceed | Interrupted | Over

  /** How one streamed reply ended. */
  datatype StreamEnd =
    | Cancelled
    | Drained(done: Option<Assistant>)
    | Lost(error: string, delay: real)
    | Retryable(error: string, wait: Option<real>)
    | Overflow(error: string)
    | Fatal

  /** What a drained stream amounts to. */
  datatype Judged =
    | WaitOut(error: string, delay: real)
    | TryAgain(error: string, wait: Option<real>)
    | Close(final: Option<Assistant>, lastError: Option<string>)

  /** How the attempts of one turn ended. */
  datatype Settled =
    | Aborting
    | Settled(final: Option<Assistant>, lastError: Option<string>)
    | RunOver

  datatype Attempted =
    | Again(lastError: Option<string>, wait: Option<real>)
    | Enough(settled: Settled)

  /** What a stream amounts to. */
  datatype Heard = Gone(reason: string) | Failing(reason: string) | Broken
                 | Final(final: Option<Assistant>, last: Option<string>)

  predicate Hears(a: Attempted, h: Heard, offline: bool) {
    match h
    case Gone(reason) => a.Again? && a.lastError == Some(reason) && offline
    case Failing(reason) => a.Again? && a.lastError == Some(reason) && !offline
    case Broken => a == Enough(RunOver)
    case Final(final, reason) => a == Enough(Settled(final, reason))
  }

  datatype Flow = NextTurn | FollowUps | StopRun | RunEnded

  /** Why a drained stream is no reply. */
  function FailureOf(done: Option<Assistant>): Option<string> {
    match done
    case None => Some(STREAM_ENDED_EARLY)
    case Some(m) => if m.stop == Error then m.error else None
  }

  function FailedMessage(m: Assistant, error: string): Assistant {
    m.(stop := Error, error := m.error.Or(Some(error)))
  }

  datatype Logged = Logged(asked: nat, fetched: nat, resumed: nat, transformed: nat)

  class AgentLoop<L, F(==)> {
    const config: Config
    const world: World<F>

    /** What the tools do in each batch of calls. */
    const tools: nat -> Grouping.Tool<ToolCall, L, F, ToolResult>
    ghost const initial: seq<Message>

    var messages: seq<Message>
    var pending: seq<Message>
    var turnIndex: nat
    var overflow: Option<string>
    var overflowRetried: bool

    /** Batches of tool calls started so far. */
    var batches: nat

    /** Everything yielded so far. */
    var events: seq<AgentEvent>

    ghost var track: Track
    ghost var tracks: seq<Track>
    ghost var requests: seq<Request>
    ghost var transforms: seq<Transform>
    ghost var executions: seq<Execution<F>>

    /** The steering batches and the follow-ups injected so far. */
    ghost var injected: seq<seq<Message>>
    ghost var followed: seq<seq<Message>>

    /** How much the world had logged before the run. */
    ghost const logged: Logged

    ghost function Start(): Track {
      Begin(config.maxTurns, initial)
    }

    /** The protocol's states along the events, and what was recorded at them. */
    ghost predicate Recorded()
      reads this`events, this`track, this`tracks, this`requests, this`transforms, this`executions
      reads this`injected, this`followed
    {
      && Path(Start(), tracks, events)
      && track == tracks[|events|]
      && (forall r <- requests :: Backed(tracks, r))
      && (forall x <- transforms :: Pressed(tracks, x))
      && (forall x <- executions :: Reported(events, x))
      && injected == SteeringOf(events) && followed == FollowUpsOf(events)
    }

    ghost predicate Traced()
      reads this`events, this`track, this`tracks, this`requests, this`transforms, this`executions
      reads this`injected, this`followed
    {
      Recorded() && track.limit == config.maxTurns
    }

    ghost predicate Valid()
      reads this
    {
      Traced() && messages == track.messages && turnIndex == track.turns
    }

    constructor (config: Config, world: World<F>, tools: nat -> Grouping.Tool<ToolCall, L, F, ToolResult>,
                 initial: seq<Message>)
      ensures Valid() && this.config == config && this.world == world && this.tools == tools && this.initial == initial
      ensures events == [] && requests == [] && transforms == [] && executions == []
      ensures track == Begin(config.maxTurns, initial) && turnIndex == 0 && overflow.None? && !overflowRetried
      ensures pending == [] && logged == LogSizes()
    {
      this.config, this.world, this.tools, this.initial, batches := config, world, tools, initial, 0;
      messages, pending, turnIndex, overflow, overflowRetried := initial, [], 0, None, false;
      events, requests, transforms, executions := [], [], [], [];
      injected, followed := [], [];
      logged := Logged(|world.asked|, |world.fetched|, |world.resumed|, |world.transformed|);
      track, tracks := Begin(config.maxTurns, initial), [Begin(config.maxTurns, initial)];
    }

    /** The run is over in an error, and the conversation is the one its events amount to. */
    ghost predicate Finished()
      reads this
    {
      Traced() && messages == track.messages && track.phase.Ended? && !track.waiting && Errored(events)
    }

    ghost function Key(): ToolCall -> Option<string> {
      Grouping.KeyOf(config.pathArgument)
    }

    /** What the calls of a batch return when they run one by one in input order. */
    ghost function InOrder(batch: Batch<F>): (results: seq<ToolResult>)
      ensures |results| == |batch.calls|
    {
      Grouping.InOrder(tools(batch.number), Key(), batch.files, batch.calls).0
    }

    /** The execution returned what its call returns when its batch runs in input order. */
    ghost predicate Genuine(x: Execution<F>) {
      x.slot < |x.batch.calls| && x.call == x.batch.calls[x.slot] && x.outcome == InOrder(x.batch)[x.slot]
    }

    ghost predicate Honest()
      reads this`executions
    {
      forall x <- executions :: Genuine(x)
    }

    ghost function LogSizes(): Logged
      reads world`asked, world`fetched, world`resumed, world`transformed
    {
      Logged(|world.asked|, |world.fetched|, |world.resumed|, |world.transformed|)
    }

    /** Every steering batch fetched in the run was injected, in order, or is pending; every follow-up was
        injected. */
    ghost predicate Steady()
      reads this`pending, this`injected, this`followed, world`fetched, world`resumed
    {
      && logged.fetched <= |world.fetched| && logged.resumed <= |world.resumed|
      && injected + Held(pending) == Fetched(world.fetched[logged.fetched..])
      && followed == Fetched(world.resumed[logged.resumed..])
    }

    /** The provider was asked with the histories of the recorded requests, the transform with those of the
        recorded transforms. */
    ghost predicate Backs()
      reads this`requests, this`transforms, world`asked, world`transformed
    {
      && logged.asked <= |world.asked| && logged.transformed <= |world.transformed|
      && world.asked[logged.asked..] == Histories(requests)
      && Given(world.transformed[logged.transformed..], transforms)
    }

    method Emit(e: AgentEvent)
      requires Traced() && Step(track, e).Some? && !e.SteeringInjected? && !e.FollowUpInjected?
      modifies this`events, this`track, this`tracks
      ensures Traced() && events == old(events) + [e]
      ensures Some(track) == Step(old(track), e)
    {
      PathSnoc(Start(), tracks, events, e, Step(track, e).value);
      InjectedSnoc(events, e);
      track := Step(track, e).value;
      tracks := tracks + [track];
      events := events + [e];
    }

    // --- Opening a turn ---------------------------------------------------------------------

    /** The head of the turn loop.  An overflow retry comes back here with its turn still open. */
    ghost predicate Head()
      reads this
    {
      && Valid() && Quiet(track) && !track.waiting && !track.recovered && track.turns < Budget(track.limit)
      && if overflowRetried
         then overflow.Some? && pending == [] && track.phase.Asking? && !track.phase.owed
         else overflow.None? && (track.phase.Ready? || (track.phase.Resumed? && pending == []))
    }

    /** A request may be sent: no overflow is pending and no reply is under way. */
    ghost predicate Requesting()
      reads this
    {
      && Valid() && Quiet(track) && track.phase.Asking? && !track.phase.owed
      && overflow.None? && pending == [] && overflowRetried == track.recovered && track.turns < Budget(track.limit)
    }

    /** A turn was just opened; `track.phase.owed` says whether an overflow awaits compaction. */
    ghost predicate Opened()
      reads this
    {
      && Valid() && Quiet(track) && !track.waiting && pending == [] && track.turns < Budget(track.limit)
      && track.phase.Asking? && track.phase.opening && track.phase.owed == overflow.Some?
      && overflowRetried == track.recovered
    }

    method BeginTurn() returns (o: Opening)
      requires Head() && Steady() && Backs()
      modifies this`messages, this`pending, this`overflow, this`events, this`track, this`tracks
      modifies this`transforms, this`injected, world`cancelled, world`transformed
      ensures Backs()
      ensures Steady() && (!o.Interrupted? ==> pending == [])
      ensures requests == old(requests) && overflowRetried == old(overflowRetried) && executions == old(executions)
      ensures track.waits == old(track.waits) && track.turns == old(track.turns)
      ensures track.followUps == old(track.followUps)
      ensures o.Proceed? ==> Requesting() && !track.waiting
      ensures o.Interrupted? ==> Valid() && MayEnd(track) && world.cancelled
      ensures o.Over? ==> Finished()
      ensures o.Interrupted? ==> events == old(events) && messages == old(messages)
      ensures old(world.cancelled) ==> o.Interrupted?
    {
      hide Recorded, Steady, Backs, Held;
      var cancelled := world.IsCancelled();
      if cancelled {
        return Interrupted;
      }
      InjectSteering();
      Emit(TurnStart(turnIndex));
      o := PrepareContext();
    }

    method InjectSteering()
      requires Head() && Steady()
      modifies this`messages, this`pending, this`events, this`track, this`tracks, this`injected
      ensures Steady() && Valid() && pending == [] && track.turns == old(track.turns)
      ensures injected == old(injected) + Held(old(pending))
      ensures track == old(track).(phase := track.phase, messages := track.messages)
      ensures track.phase == if old(pending) == [] then old(track.phase) else Steered
    {
      hide Recorded;
      if pending != [] {
        var batch := pending;
        messages, pending := messages + batch, [];
        EmitSteering(batch);
      }
    }

    method EmitSteering(batch: seq<Message>)
      requires Traced() && Step(track, SteeringInjected(batch)).Some?
      modifies this`events, this`track, this`tracks, this`injected
      ensures Traced() && events == old(events) + [SteeringInjected(batch)] && injected == old(injected) + [batch]
      ensures Some(track) == Step(old(track), SteeringInjected(batch))
    {
      var e := SteeringInjected(batch);
      PathSnoc(Start(), tracks, events, e, Step(track, e).value);
      InjectedSnoc(events, e);
      track := Step(track, e).value;
      tracks := tracks + [track];
      events, injected := events + [e], injected + [batch];
    }

    method FetchSteering()
      requires Steady() && pending == []
      modifies this`pending, world`fetched
      ensures Steady() && |world.fetched| == |old(world.fetched)| + 1
    {
      ghost var seen := world.fetched;
      pending := world.Steering();
      FetchedNext(seen, logged.fetched, pending);
    }

    /** Asks for the context to be transformed. */
    method AskTransform() returns (t: Transformed)
      requires Opened() && Backs()
      modifies this`transforms, world`transformed
      ensures Opened() && Backs()
      ensures |transforms| == |old(transforms)| + 1
      ensures world.transformed
              == old(world.transformed)
                 + [Transforming(messages, if overflow.Some? then Overflowed else Normal, t)]
    {
      hide Recorded;
      var pressure := if overflow.Some? then Overflowed else Normal;
      GivenNext(world.transformed, logged.transformed, transforms, Transform(|events|, messages, pressure));
      RecordTransform(pressure);
      t := world.TransformContext(messages, pressure);
    }

    ghost method RecordTransform(pressure: Pressure)
      requires Opened() && (pressure.Overflowed? <==> overflow.Some?)
      modifies this`transforms
      ensures Opened() && transforms == old(transforms) + [Transform(|events|, messages, pressure)]
    {
      transforms := transforms + [Transform(|events|, messages, pressure)];
    }

    method PrepareContext() returns (o: Opening)
      requires Opened() && Backs()
      modifies this`messages, this`overflow, this`events, this`track, this`tracks, this`transforms, world`transformed
      ensures Backs() && |world.transformed| == |old(world.transformed)| + 1
      ensures track.waits == old(track.waits) && track.turns == old(track.turns)
      ensures track.followUps == old(track.followUps)
      ensures !o.Interrupted?
      ensures o.Proceed? ==> Requesting() && !track.waiting
      ensures o.Over? ==> Finished()
      ensures match world.transformed[|old(world.transformed)|].answer
              case Compacted(compacted) =>
                o.Proceed? && messages == compacted
                && events == old(events) + [ContextCompacted(|old(messages)|, compacted)]
              case Unchanged =>
                messages == old(messages)
                && if old(overflow).Some?
                   then o.Over? && events == old(events) + [ErrorEvent(old(overflow).value), AgentEnd]
                   else o.Proceed? && events == old(events)
    {
      hide Recorded, Step, Backs;
      var t := AskTransform();
      match t {
        case Unchanged =>
          if overflow.Some? {
            FailOverflow();
            return Over;
          }
        case Compacted(compacted) => Compact(compacted);
      }
      return Proceed;
    }

    /** The overflow could not be compacted away. */
    method FailOverflow()
      requires Opened() && overflow.Some?
      modifies this`overflow, this`events, this`track, this`tracks
      ensures Finished() && overflow.None?
      ensures track.waits == old(track.waits) && track.turns == old(track.turns)
      ensures track.followUps == old(track.followUps)
      ensures events == old(events) + [ErrorEvent(old(overflow).value), AgentEnd]
    {
      hide Recorded;
      var error := overflow.value;
      overflow := None;
      Emit(ErrorEvent(error));
      Emit(AgentEnd);
    }

    method Compact(compacted: seq<Message>)
      requires Opened()
      modifies this`messages, this`overflow, this`events, this`track, this`tracks
      ensures Requesting() && !track.waiting
      ensures track.waits == old(track.waits) && track.turns == old(track.turns)
      ensures track.followUps == old(track.followUps)
      ensures events == old(events) + [ContextCompacted(|old(messages)|, compacted)] && messages == compacted
    {
      hide Recorded;
      var before := |messages|;
      overflow := None;
      messages := compacted;
      Emit(ContextCompacted(before, compacted));
    }

    // --- Reading a reply ---------------------------------------------------------------------

    ghost function Seen(partial: PartialMessage?): Option<Partial>
      reads partial
    {
      if partial == null then None else Some(partial.Value())
    }

    /** A stream is being read, with this partial so far. */
    ghost predicate Reading(partial: PartialMessage?)
      reads this, partial
    {
      && Valid() && track.phase.Asking? && !track.phase.owed && !track.waiting && track.announced.None?
      && track.partial == Seen(partial)
      && overflow.None? && pending == [] && overflowRetried == track.recovered && track.turns < Budget(track.limit)
    }

    method Discard(streamed: bool, error: string)
      requires Traced() && track.phase.Asking? && !track.phase.owed && !track.waiting && track.announced.None?
      requires !streamed ==> Quiet(track)
      modifies this`events, this`track, this`tracks
      ensures Traced() && track.phase.Asking? && !track.phase.owed && Quiet(track)
      ensures events == old(events) + Dropped(streamed, error)
      ensures track == old(track).(phase := track.phase, partial := None, done := None)
    {
      hide Recorded;
      if streamed {
        Emit(PartialDiscarded(error));
      }
    }

    /** What every way out of a stream keeps, and where each leaves the turn. */
    twostate predicate StreamEnds(end: StreamEnd, retries: Retry.Retries)
      reads this, retries
    {
      && requests == old(requests) && overflowRetried == old(overflowRetried) && executions == old(executions)
      && track.turns == old(track.turns) && track.followUps == old(track.followUps)
      && track.waits == old(track.waits) + (if end.Lost? then 1 else 0)
      && retries.failures == old(retries.failures) + (if end.Retryable? then 1 else 0)
      && retries.failures <= Retry.MAX_RETRIES
      && retries.waitingForNetwork == (old(retries.waitingForNetwork) || end.Lost?)
      && retries.networkWaits == old(retries.networkWaits) + (if end.Lost? then 1 else 0)
      && (end.Lost? ==> Retry.IsNetworkDelay(retries.networkWaits, end.delay))
      && (old(retries.Counted()) ==>
            if end.Retryable? then Retry.Adds(old(retries.sleeps), retries.sleeps, end.wait) && end.wait.Some?
            else retries.sleeps == old(retries.sleeps))
      && (end.Lost? ==> Requesting() && track.waiting)
      && (end.Retryable? || end.Overflow? ==> Requesting() && !track.waiting)
      && (end.Fatal? ==> Finished())
    }

    /** The network is gone: drop what was streamed and announce the wait. */
    method GoOffline(streamed: bool, error: string, retries: Retry.Retries, ghost partial: PartialMessage?)
      returns (delay: real)
      requires Reading(partial) && (!streamed ==> Quiet(track))
      modifies this`events, this`track, this`tracks, retries`networkWaits, retries`waitingForNetwork
      ensures Requesting() && track.waiting && retries.waitingForNetwork
      ensures retries.networkWaits == old(retries.networkWaits) + 1
      ensures Retry.IsNetworkDelay(retries.networkWaits, delay)
      ensures events == old(events) + Dropped(streamed, error) + [NetworkWait(error, Retry.Millis(delay))]
      ensures track == old(track).(phase := track.phase, partial := None, done := None, waiting := true,
                                   waits := old(track.waits) + 1)
    {
      hide Recorded;
      Discard(streamed, error);
      var wait;
      wait, delay := retries.Offline(error);
      Emit(wait);
    }

    /** The run ends in an error, after keeping the errored reply if there is one. */
    method EndInError(failed: Option<Assistant>, error: string)
      requires Traced() && messages == track.messages
      requires track.phase.Asking? && !track.phase.owed && !track.waiting && track.announced.None?
      requires failed.Some? ==> failed.value.stop == Error
      modifies this`messages, this`events, this`track, this`tracks
      ensures Finished()
      ensures track.waits == old(track.waits) && track.turns == old(track.turns)
      ensures track.followUps == old(track.followUps)
      ensures events == old(events) + (if failed.Some? then [MessageEnd(failed.value)] else [])
                        + [ErrorEvent(error), AgentEnd]
    {
      hide Recorded;
      if failed.Some? {
        Emit(MessageEnd(failed.value));
        messages := messages + [Reply(failed.value)];
      }
      Emit(ErrorEvent(error));
      Emit(AgentEnd);
    }

    /** The error is a context overflow that can still be recovered. */
    ghost predicate Overflows(error: string)
      reads this
    {
      !overflowRetried && config.overflows(error)
    }

    /** What an error event makes of its stream: an overflow first, then a lost network, then a retry. */
    ghost predicate Fails(end: StreamEnd, m: Assistant, failures: nat)
      reads this
    {
      var error := m.error.GetOr("unknown error");
      if Overflows(error) then end == Overflow("stream error: " + error)
      else if LostNetwork(config, error) then end.Lost? && end.error == "stream error: " + error
      else if MayRetry(failures, error) then end.Retryable? && end.error == "stream error: " + error
      else end.Fatal?
    }

    predicate MayRetry(failures: nat, error: string) {
      failures < Retry.MAX_RETRIES && config.kind(error) != Permanent
    }

    /** The stream reported an error. */
    method FailReply(message: Assistant, streamed: bool, retries: Retry.Retries, ghost partial: PartialMessage?)
      returns (end: StreamEnd)
      requires Reading(partial) && (!streamed ==> Quiet(track)) && retries.failures <= Retry.MAX_RETRIES
      modifies this`messages, this`events, this`track, this`tracks, retries
      ensures StreamEnds(end, retries) && !end.Cancelled? && !end.Drained?
      ensures Fails(end, message, old(retries.failures))
      ensures events == old(events) + match end
                                      case Fatal => BrokenEnd(message)
                                      case Lost(_, delay) =>
                                        var error := message.error.GetOr("unknown error");
                                        Dropped(streamed, error) + [NetworkWait(error, Retry.Millis(delay))]
                                      case _ => Dropped(streamed, message.error.GetOr("unknown error"))
    {
      hide Recorded, Step;
      var error := ErrorText(message);
      if !overflowRetried && config.overflows(error) {
        Discard(streamed, error);
        return Overflow("stream error: " + error);
      }
      if LostNetwork(config, error) {
        var delay := GoOffline(streamed, error, retries, partial);
        return Lost("stream error: " + error, delay);
      }
      if retries.CanRetry() && config.kind(error) != Permanent {
        Discard(streamed, error);
        var delay := retries.Failed(None);
        return Retryable("stream error: " + error, delay);
      }
      EndInError(if message.content == [] then None else Some(FailedMessage(message, error)), error);
      return Fatal;
    }

    /** One event of a healthy stream: announced if it opens the reply, folded into the partial,
        and passed on. */
    method ForwardEvent(event: StreamEvent, partial: PartialMessage?) returns (next: PartialMessage?)
      requires Reading(partial) && !event.StreamError?
      modifies this`events, this`track, this`tracks, partial
      ensures next == partial || fresh(next)
      ensures Reading(next)
      ensures track == old(track).(phase := track.phase, partial := AdvancePartial(old(track.partial), event),
                                   done := if event.Done? then Some(event.message) else old(track.done))
      ensures events == old(events) + Forwarded(event, partial == null)
    {
      hide Recorded;
      next := partial;
      if event.Start? {
        if partial == null {
          Emit(MessageStart(event.start));
        }
        next := new PartialMessage(event.start);
      } else if partial != null {
        partial.Apply(event);
      }
      Emit(Streamed(event));
    }

    /** Waits for one event of the stream and handles it: the token may win, an error ends the stream,
        anything else is passed on. */
    method ReadEvent(event: StreamEvent, partial: PartialMessage?, streamed: bool, retries: Retry.Retries)
      returns (end: Option<StreamEnd>, next: PartialMessage?)
      requires Reading(partial) && (!streamed ==> Quiet(track)) && retries.failures <= Retry.MAX_RETRIES
      modifies this`messages, this`events, this`track, this`tracks
      modifies world`cancelled, world`races, retries, partial
      ensures world.races == old(world.races) + 1
      ensures next == partial || fresh(next)
      ensures end.Some? ==> StreamEnds(end.value, retries) && !end.value.Drained?
      ensures end.Some? && end.value.Cancelled? ==> Reading(next) && world.cancelled
      ensures end.Some? && end.value.Lost? ==> event.StreamError? && LostNetwork(config, ErrorText(event.message))
      ensures end.Some? && !end.value.Cancelled? ==>
                event.StreamError? && Fails(end.value, event.message, old(retries.failures))
      ensures end.Some? && end.value.Fatal? ==> EndsWith(events, BrokenEnd(event.message))
      ensures end.None? ==>
                && Reading(next) && !event.StreamError? && requests == old(requests) && executions == old(executions)
                && events == old(events) + Forwarded(event, partial == null)
                && track == old(track).(phase := track.phase, partial := AdvancePartial(old(track.partial), event),
                                        done := if event.Done? then Some(event.message) else old(track.done))
                && overflowRetried == old(overflowRetried)
                && retries.failures == old(retries.failures) && retries.networkWaits == old(retries.networkWaits)
                && retries.waitingForNetwork == old(retries.waitingForNetwork)
                && retries.sleeps == old(retries.sleeps)
    {
      hide Recorded, Step;
      var interrupted := world.Interrupts();
      if interrupted {
        return Some(Cancelled), partial;
      }
      if event.StreamError? {
        var failed := FailReply(event.message, streamed, retries, partial);
        return Some(failed), partial;
      }
      next := ForwardEvent(event, partial);
      return None, next;
    }

    /** Reads the reply to its end, or to the first reason to stop.  A drained stream was passed on
        event by event. */
    method ReadReply(script: seq<StreamEvent>, retries: Retry.Retries)
      returns (end: StreamEnd, partial: PartialMessage?, streamed: bool)
      requires Requesting() && !track.waiting && retries.failures <= Retry.MAX_RETRIES
      modifies this`messages, this`events, this`track, this`tracks, world`cancelled, world`races, retries
      ensures partial != null ==> fresh(partial)
      ensures StreamEnds(end, retries)
      ensures end.Drained? ==> world.races == old(world.races) + |script| + 1
      ensures end.Cancelled? ==> Reading(partial) && world.cancelled
      ensures end.Drained? ==> Reading(partial) && track.done == end.done && (!streamed ==> Quiet(track))
      ensures end.Drained? ==> DoneIn(script, end.done)
      ensures end.Lost? ==> LosesMidReply(config, script)
      ensures end.Drained? ==> PassedOn(old(events), events, script, |script|)
      ensures end.Drained? ==> FirstError(script).None?
      ensures !end.Cancelled? ==>
                match FirstError(script)
                case Some(m) =>
                  Fails(end, m, old(retries.failures)) && (end.Fatal? ==> EndsWith(events, BrokenEnd(m)))
                case None => end == Drained(LastDone(script)) && Seen(partial) == Rebuilt(script)
    {
      hide Recorded, Step, FirstError, LastDone, Rebuilt, BrokenEnd, EndsWith, Fails, DoneIn, PassedOn;
      NothingRead(script, events);
      partial, streamed := null, false;
      var done: Option<Assistant> := None;
      for k := 0 to |script|
        invariant partial != null ==> fresh(partial)
        invariant requests == old(requests) && overflowRetried == old(overflowRetried) && executions == old(executions)
        invariant track.turns == old(track.turns) && track.followUps == old(track.followUps)
        invariant track.waits == old(track.waits) && world.races == old(world.races) + k
        invariant retries.failures == old(retries.failures) && retries.sleeps == old(retries.sleeps)
        invariant retries.networkWaits == old(retries.networkWaits)
        invariant FirstError(script[..k]).None? && done == LastDone(script[..k])
        invariant Seen(partial) == Rebuilt(script[..k])
        invariant retries.waitingForNetwork == old(retries.waitingForNetwork)
        invariant Reading(partial) && track.done == done && (!streamed ==> Quiet(track))
        invariant DoneIn(script[..k], done)
        invariant PassedOn(old(events), events, script, k)
      {
        ghost var before := events;
        PassedOnNext(old(events), before, script, k, partial == null);
        DoneInNext(script, k, done);
        ScriptNext(script, k);
        var stop, next := ReadEvent(script[k], partial, streamed, retries);
        partial := next;
        if stop.Some? {
          return stop.value, partial, streamed;
        }
        if script[k].Done? {
          done := Some(script[k].message);
        }
        streamed := true;
      }
      assert script[..|script|] == script;
      var interrupted := world.Interrupts();
      end := if interrupted then Cancelled else Drained(done);
    }

    // --- The attempts of one turn ---------------------------------------------------------------

    /** How a drained stream is judged: an overflow first, then a lost network, then a retry; what is
        left is closed, with the final message as it is or as a failed one. */
    ghost predicate Judges(judged: Judged, done: Option<Assistant>, partial: Option<Partial>, failures: nat,
                           lastError: Option<string>)
      reads this
    {
      match FailureOf(done)
      case None => judged == Close(done, lastError)
      case Some(error) =>
        var reason := if done.None? then error else "stream error: " + error;
        if Overflows(error) then judged == Close(None, Some(reason))
        else if LostNetwork(config, error) then judged.WaitOut? && judged.error == reason
        else if MayRetry(failures, error) then judged.TryAgain? && judged.error == reason
        else
          judged == Close(if done.Some? then Some(FailedMessage(done.value, error))
                          else if partial.Some? && Snapshot(partial.value).content != []
                          then Some(Finish(partial.value, Error, error))
                          else None, Some(reason))
    }

    /** The stream ended on its own: a final message, a failure to retry, or a failure to keep. */
    method JudgeReply(script: seq<StreamEvent>, done: Option<Assistant>, partial: PartialMessage?, streamed: bool,
                      retries: Retry.Retries, lastError: Option<string>)
      returns (judged: Judged)
      requires Reading(partial) && track.done == done && (!streamed ==> Quiet(track)) && DoneIn(script, done)
      requires retries.failures <= Retry.MAX_RETRIES
      modifies this`events, this`track, this`tracks, retries
      ensures requests == old(requests) && overflowRetried == old(overflowRetried)
      ensures track.turns == old(track.turns) && track.followUps == old(track.followUps)
      ensures track.waits == old(track.waits) + (if judged.WaitOut? then 1 else 0)
      ensures retries.failures == old(retries.failures) + (if judged.TryAgain? then 1 else 0) <= Retry.MAX_RETRIES
      ensures retries.networkWaits == old(retries.networkWaits) + (if judged.WaitOut? then 1 else 0)
      ensures judged.WaitOut? ==> Retry.IsNetworkDelay(retries.networkWaits, judged.delay)
      ensures retries.waitingForNetwork == (old(retries.waitingForNetwork) || judged.WaitOut?)
      ensures old(retries.Counted()) ==>
                if judged.TryAgain?
                then Retry.Adds(old(retries.sleeps), retries.sleeps, judged.wait) && judged.wait.Some?
                else retries.sleeps == old(retries.sleeps)
      ensures judged.WaitOut? ==> Requesting() && track.waiting && LosesMidReply(config, script)
      ensures judged.TryAgain? ==> Requesting() && !track.waiting
      ensures judged.Close? ==> Closing(judged.final, judged.lastError)
      ensures events == old(events) + match judged
                                      case WaitOut(_, delay) =>
                                        var error := FailureOf(done).GetOr("");
                                        Dropped(streamed, error) + [NetworkWait(error, Retry.Millis(delay))]
                                      case TryAgain(_, _) => Dropped(streamed, FailureOf(done).GetOr(""))
                                      case Close(final, _) =>
                                        if FailureOf(done).Some? && Overflows(FailureOf(done).value)
                                        then Dropped(streamed, FailureOf(done).value) else []
      ensures Judges(judged, done, Seen(partial), old(retries.failures), lastError)
    {
      hide Recorded, Step;
      var failure := FailureOf(done);
      if failure.None? {
        return Close(done, lastError);
      }
      var error := failure.value;
      var overflowed := !overflowRetried && config.overflows(error);
      var offline := !overflowed && LostNetwork(config, error);
      var retrying := !overflowed && !offline && retries.CanRetry() && config.kind(error) != Permanent;
      var reason := if done.None? then error else "stream error: " + error;
      if offline {
        var delay := GoOffline(streamed, error, retries, partial);
        return WaitOut(reason, delay);
      }
      if retrying {
        Discard(streamed, error);
        var delay := retries.Failed(None);
        return TryAgain(reason, delay);
      }
      if overflowed {
        Discard(streamed, error);
        return Close(None, Some(reason));
      }
      if done.Some? {
        return Close(Some(FailedMessage(done.value, error)), Some(reason));
      }
      var kept := false;
      if partial != null {
        kept := partial.HasContent();
      }
      return Close(if kept then Some(Finish(partial.Value(), Error, error)) else None, Some(reason));
    }

    /** The attempts are over: an errored reply, the provider's own final message, or nothing; if
        nothing came and the overflow can still be recovered, nothing is left of the attempt. */
    ghost predicate Closing(final: Option<Assistant>, lastError: Option<string>)
      reads this
    {
      && Valid() && track.phase.Asking? && !track.phase.owed && !track.waiting && track.announced.None?
      && overflow.None? && pending == [] && overflowRetried == track.recovered && track.turns < Budget(track.limit)
      && (final.Some? && final.value.stop != Error ==> track.done == final)
      && (final.None? && !overflowRetried && config.overflows(lastError.GetOr(STREAM_ENDED_EARLY)) ==> Quiet(track))
    }

    /** A request is about to go out; the counters of the turn match what was yielded. */
    ghost predicate Attempting(retries: Retry.Retries)
      reads this, retries
    {
      && Requesting() && track.waiting == retries.waitingForNetwork
      && retries.Counted() && retries.failures <= Retry.MAX_RETRIES
    }

    /** A repeated attempt costs one network loss or one retry, whose delay comes next. */
    twostate predicate SpentOne(retries: Retry.Retries, wait: Option<real>)
      reads this, retries
    {
      && wait.Some?
      && if track.waits == old(track.waits)
         then Retry.Adds(old(retries.sleeps), retries.sleeps, wait)
         else
           && track.waits == old(track.waits) + 1 && retries.sleeps == old(retries.sleeps)
           && Retry.IsNetworkDelay(retries.networkWaits, wait.value)
    }

    /** The last attempt adds no retry but one that is refused. */
    twostate predicate SpentNone(retries: Retry.Retries)
      reads retries
    {
      && |retries.sleeps| <= Retry.MAX_RETRIES
      && (retries.sleeps == old(retries.sleeps) || Retry.Adds(old(retries.sleeps), retries.sleeps, None))
    }

    ghost predicate Answers(o: Settled, partial: PartialMessage?)
      reads this, partial, world
    {
      && (o.Aborting? ==> world.cancelled && (if partial == null then Valid() && MayEnd(track) else Reading(partial)))
      && (o.Settled? ==> Closing(o.final, o.lastError))
      && (o.RunOver? ==> Finished())
    }

    /** What a whole stream amounts to: its first error decides, else its last final message, else that there
        was none. */
    ghost function Hear(script: seq<StreamEvent>, failures: nat, lastError: Option<string>): Heard
      reads this
    {
      match FirstError(script)
      case Some(m) =>
        var error := m.error.GetOr("unknown error");
        if Overflows(error) then Final(None, Some("stream error: " + error))
        else if LostNetwork(config, error) then Gone("stream error: " + error)
        else if MayRetry(failures, error) then Failing("stream error: " + error)
        else Broken
      case None =>
        match LastDone(script)
        case None =>
          var error := "stream ended without a final message";
          if Overflows(error) then Final(None, Some(error))
          else if LostNetwork(config, error) then Gone(error)
          else if MayRetry(failures, error) then Failing(error)
          else
            Final(match Rebuilt(script)
                  case None => None
                  case Some(p) =>
                    if Snapshot(p).content == [] then None
                    else Some(Assistant(Snapshot(p).content, p.message.meta, Error, Some(error))), Some(error))
        case Some(m) =>
          if m.stop != Error || m.error.None? then Final(Some(m), lastError)
          else
            var error, reason := m.error.value, "stream error: " + m.error.value;
            if Overflows(error) then Final(None, Some(reason))
            else if LostNetwork(config, error) then Gone(reason)
            else if MayRetry(failures, error) then Failing(reason)
            else Final(Some(m), Some(reason))
    }

    lemma FailsHear(script: seq<StreamEvent>, end: StreamEnd, failures: nat, lastError: Option<string>)
      requires FirstError(script).Some? && Fails(end, FirstError(script).value, failures)
      ensures !end.Drained? && !end.Cancelled?
      ensures Hears(AfterStream(end), Hear(script, failures, lastError), end.Lost?)
    {
    }

    lemma JudgesHear(script: seq<StreamEvent>, judged: Judged, failures: nat, lastError: Option<string>)
      requires FirstError(script).None? && Judges(judged, LastDone(script), Rebuilt(script), failures, lastError)
      ensures Hears(AfterJudging(judged), Hear(script, failures, lastError), judged.WaitOut?)
      ensures AfterJudging(judged) != Enough(RunOver)
    {
    }

    /** The stream is open: read it and judge it. */
    method HearOut(script: seq<StreamEvent>, retries: Retry.Retries, lastError: Option<string>)
      returns (a: Attempted, partial: PartialMessage?)
      requires Attempting(retries) && !track.waiting
      modifies this`messages, this`events, this`track, this`tracks, world`cancelled, world`races, retries
      ensures partial != null ==> fresh(partial)
      ensures requests == old(requests) && overflowRetried == old(overflowRetried) && executions == old(executions)
      ensures track.turns == old(track.turns) && track.followUps == old(track.followUps)
      ensures a.Again? ==> Attempting(retries)
      ensures a.Again? ==> SpentOne(retries, a.wait)
      ensures a.Enough? ==> SpentNone(retries)
      ensures || a == Enough(Aborting)
              || Hears(a, Hear(script, old(retries.failures), lastError), track.waits > old(track.waits))
      ensures a == Enough(RunOver) ==> FirstError(script).Some? && EndsWith(events, BrokenEnd(FirstError(script).value))
      ensures retries.networkWaits - old(retries.networkWaits) == track.waits - old(track.waits)
      ensures a.Again? && track.waits > old(track.waits) ==> LosesMidReply(config, script)
      ensures a.Enough? ==> Answers(a.settled, partial) && track.waits == old(track.waits)
    {
      hide Recorded, Step, Hear, Fails, Judges, FirstError, LastDone, Rebuilt, BrokenEnd, EndsWith, Hears;
      var end, streamed;
      end, partial, streamed := ReadReply(script, retries);
      if end.Drained? {
        var judged := JudgeReply(script, end.done, partial, streamed, retries, lastError);
        JudgesHear(script, judged, old(retries.failures), lastError);
        a := AfterJudging(judged);
      } else if end.Cancelled? {
        a := Enough(Aborting);
      } else {
        FailsHear(script, end, old(retries.failures), lastError);
        a := AfterStream(end);
      }
    }

    /** The request was answered: wait out a lost network, retry or give up on a rejection, or hear
        the reply out. */
    method Attempt(response: Response, retries: Retry.Retries, lastError: Option<string>)
      returns (a: Attempted, partial: PartialMessage?)
      requires Attempting(retries)
      modifies this`messages, this`events, this`track, this`tracks, world`cancelled, world`races, retries
      ensures partial != null ==> fresh(partial)
      ensures requests == old(requests) && overflowRetried == old(overflowRetried) && executions == old(executions)
      ensures track.turns == old(track.turns) && track.followUps == old(track.followUps)
      ensures a.Again? ==> Attempting(retries)
      ensures a.Again? ==> SpentOne(retries, a.wait)
      ensures a.Enough? ==> SpentNone(retries)
      ensures response.Replying? ==>
                || a == Enough(Aborting)
                || Hears(a, Hear(response.script, old(retries.failures), lastError), track.waits > old(track.waits))
      ensures a == Enough(RunOver) ==> response.Replying? && FirstError(response.script).Some?
                                       && EndsWith(events, BrokenEnd(FirstError(response.script).value))
      ensures !response.Replying? && a.Again? ==> a.lastError == Some("request failed: " + response.message)
      ensures retries.networkWaits - old(retries.networkWaits) == track.waits - old(track.waits)
      ensures a.Again? && track.waits > old(track.waits) ==> Loses(config, response)
      ensures a.Enough? ==> Answers(a.settled, partial) && track.waits == old(track.waits)
      ensures response.Offline? ==>
                && a.Again? && track.waits == old(track.waits) + 1 && a.wait.Some?
                && events == old(events) + [NetworkWait(response.cause, Retry.Millis(a.wait.value))]
      ensures response.Rejected? ==>
                && events == old(events) + (if old(retries.waitingForNetwork) then [NetworkRestored] else [])
                && track.waits == old(track.waits)
                && (a.Again? ==> retries.sleeps[|old(retries.sleeps)|].retryAfter == response.retryAfter)
      ensures response.Rejected? ==>
                (a.Again? <==> response.retryable && old(retries.failures) < Retry.MAX_RETRIES
                               && !(response.retryAfter.Some? && response.retryAfter.value > Retry.RETRY_MAX_DELAY))
      ensures response.Rejected? && a.Enough? ==>
                a.settled == Settled(None, Some("request failed: " + response.message))
    {
      hide Recorded, Hear, Hears, FirstError, BrokenEnd, EndsWith, LosesMidReply;
      partial := null;
      if response.Offline? {
        var event, delay := retries.Offline(response.cause);
        Emit(event);
        return Again(Some("request failed: " + response.message), Some(delay)), null;
      }
      var online := retries.BackOnline();
      if online {
        Emit(NetworkRestored);
      }
      if response.Rejected? {
        var error := "request failed: " + response.message;
        if !(response.retryable && retries.CanRetry()) {
          return Enough(Settled(None, Some(error))), null;
        }
        var wait := retries.Failed(response.retryAfter);
        if wait.None? {
          return Enough(Settled(None, Some(error))), null;
        }
        return Again(Some(error), wait), null;
      }
      a, partial := HearOut(response.script, retries, lastError);
    }

    ghost method RecordRequest()
      requires Requesting()
      modifies this`requests
      ensures Requesting() && requests == old(requests) + [Request(|events|, messages)]
    {
      requests := requests + [Request(|events|, messages)];
    }

    /** Waits if told to, then sends the conversation to the provider; no answer if cancelled. */
    method Send(wait: Option<real>) returns (response: Option<Response>)
      requires Requesting() && Backs()
      modifies this`requests, world`cancelled, world`races, world`losses, world`naps, world`asked
      ensures Requesting() && Backs()
      ensures if world.asked == old(world.asked) then response.None? && requests == old(requests)
              else
                && world.asked == old(world.asked) + [messages]
                && requests == old(requests) + [Request(|events|, messages)]
      ensures response.None? ==> world.cancelled && world.losses == old(world.losses)
      ensures response.Some? ==> world.losses == old(world.losses) - (if Loses(config, response.value) then 1 else 0)
      ensures response.Some? ==> world.naps == old(world.naps) + if wait.Some? then [wait.value] else []
      ensures response.Some? ==> world.races == old(world.races) + if wait.Some? then 2 else 1
      ensures response.None? ==> old(world.naps) <= world.naps
    {
      hide Recorded, Step;
      if wait.Some? {
        var interrupted := world.Sleep(wait.value);
        if interrupted {
          return None;
        }
      }
      HistoriesNext(world.asked, logged.asked, requests, Request(|events|, messages));
      RecordRequest();
      response := world.Respond(config, messages);
    }

    /** What the attempts of a turn keep, and what they cost so far. */
    twostate predicate Spent(failures: nat)
      reads this, world
    {
      && overflowRetried == old(overflowRetried) && executions == old(executions)
      && track.turns == old(track.turns) && track.followUps == old(track.followUps)
      && old(track.waits) <= track.waits
      && |requests| <= |old(requests)| + failures + track.waits - old(track.waits)
      && world.losses + track.waits <= old(world.losses) + old(track.waits)
      && world.followUps == old(world.followUps)
    }

    /** The loop slept out exactly the retries so far but the next, unless the network was lost. */
    twostate predicate SleptOut(new sleeps: seq<Retry.Sleep>, new next: Option<real>)
      reads this, world
    {
      && old(world.naps) <= world.naps
      && (track.waits == old(track.waits) ==>
            Retry.Total(world.naps[|old(world.naps)|..]) + next.GetOr(0.0) == Retry.Slept(sleeps))
    }

    /** All attempts of one turn.  Each one that is repeated spends a retry or a network loss, so the
        requests of a turn are bounded by both.  Unless cancelled or offline, the turn slept out the
        delays of its retries; five of them without a server's wait take a bounded time in all. */
    method Ask() returns (o: Settled, partial: PartialMessage?, ghost sleeps: seq<Retry.Sleep>)
      requires Requesting() && !track.waiting && Backs()
      modifies this`messages, this`events, this`track, this`tracks, this`requests
      modifies world`cancelled, world`races, world`losses, world`naps, world`asked
      ensures Backs()
      ensures partial != null ==> fresh(partial)
      ensures Spent(Retry.MAX_RETRIES + 1)
      ensures Answers(o, partial)
      ensures |sleeps| <= Retry.MAX_RETRIES
      ensures !o.Aborting? ==>
                |requests| == |old(requests)| + 1 + Retry.Made(sleeps) + track.waits - old(track.waits)
      ensures !o.Aborting? ==> SleptOut(sleeps, None)
      ensures !o.Aborting? && track.waits == old(track.waits)
              && |sleeps| == Retry.MAX_RETRIES && Retry.HeaderFree(sleeps) ==>
                23.25 <= Retry.Total(world.naps[|old(world.naps)|..]) <= 38.75
    {
      hide Backs, Recorded, Step, Steady, Finished, Retry.Made, Retry.Slept, Retry.Total, Retry.IsNetworkDelay;
      hide Errored, Retry.HeaderFree, Retry.DelayOf, Honest;
      hide Hear, Hears, FirstError, BrokenEnd, EndsWith, Loses, Backed;
      var retries := new Retry.Retries();
      var wait: Option<real> := None;
      var lastError: Option<string> := None;
      NothingSlept(world.naps);
      while true
        invariant fresh(retries)
        invariant Attempting(retries) && Backs()
        invariant Spent(retries.failures)
        invariant SleptOut(retries.sleeps, wait)
        invariant retries.networkWaits == track.waits - old(track.waits)
        invariant |requests| == |old(requests)| + Retry.Made(retries.sleeps) + track.waits - old(track.waits)
        decreases world.losses + (Retry.MAX_RETRIES - retries.failures)
      {
        ghost var before, naps := retries.sleeps, world.naps;
        var response := Send(wait);
        if response.None? {
          return Aborting, null, retries.sleeps;
        }
        NapTaken(old(world.naps), naps, world.naps, wait);
        var a;
        a, partial := Attempt(response.value, retries, lastError);
        SleepsAdd(before, retries.sleeps, if a.Again? then a.wait else None);
        if a.Enough? {
          Retry.FiveOf(retries.sleeps);
          return a.settled, partial, retries.sleeps;
        }
        lastError, wait := a.lastError, a.wait;
      }
    }

    // --- The tool phase ---------------------------------------------------------------------------

    /** The reply is being answered; these calls still owe a result, and these of them were announced. */
    ghost predicate Using(reply: Assistant, due: multiset<Ref>, announced: multiset<Ref>)
      reads this
    {
      && Valid() && track.phase.Answering? && track.phase.reply == reply && track.phase.due == due
      && track.phase.announced == announced && Quiet(track) && !track.waiting
      && overflow.None? && !overflowRetried && !track.recovered && track.turns < Budget(track.limit)
    }

    /** What using tools leaves alone. */
    twostate predicate Kept()
      reads this
    {
      && requests == old(requests)
      && track.turns == old(track.turns) && track.waits == old(track.waits) && track.followUps == old(track.followUps)
    }

    /** Emits the call's one result and adds it to the conversation. */
    method Report(call: ToolCall, result: ToolResult, ghost reply: Assistant, ghost due: multiset<Ref>,
                  ghost announced: multiset<Ref>)
      requires Using(reply, due, announced) && RefOf(call) in due
      requires result.outcome.Success? ==> RefOf(call) in announced
      modifies this`messages, this`events, this`track, this`tracks
      ensures Using(reply, due - multiset{RefOf(call)}, announced - multiset{RefOf(call)}) && Kept()
      ensures events == old(events) + [ToolExecEnd(call.id, call.name, result)]
    {
      hide Recorded;
      Emit(ToolExecEnd(call.id, call.name, result));
      messages := messages + [Result(call.id, call.name, result)];
    }

    method ReportAll(calls: seq<ToolCall>, text: string, ghost reply: Assistant)
      requires Using(reply, Owed(calls), Owed(calls))
      modifies this`messages, this`events, this`track, this`tracks
      ensures Using(reply, multiset{}, multiset{}) && Kept()
      ensures Grew(old(events), events, Errors(calls, text))
    {
      hide Recorded, Step;
      ghost var none: multiset<Ref> := multiset{};
      ghost var due := none + Owed(calls[0..]);
      OwedEnds(none, calls);
      for i := 0 to |calls|
        invariant due == none + Owed(calls[i..])
        invariant Using(reply, due, due) && Kept()
        invariant Grew(old(events), events, Errors(calls[..i], text))
      {
        OwedNext(none, calls, i);
        GrewError(old(events), events, calls, i, text);
        Report(calls[i], ErrorResult(text), reply, due, due);
        due := due - multiset{RefOf(calls[i])};
      }
      assert calls[..|calls|] == calls;
    }

    method EmitHooks(point: HookPoint, results: seq<HookResult>, ghost reply: Assistant, ghost due: multiset<Ref>,
                     ghost announced: multiset<Ref>)
      requires Using(reply, due, announced) && !point.PreSession? && (point.StopPoint? <==> Calls(reply.content) == [])
      modifies this`events, this`track, this`tracks
      ensures Using(reply, due, announced) && Kept()
      ensures events == old(events) + HookEvents(point, results)
    {
      hide Recorded;
      for i := 0 to |results|
        invariant Using(reply, due, announced) && Kept()
        invariant events == old(events) + HookEvents(point, results[..i])
      {
        HookEventsNext(point, results, i);
        Emit(HookRan(point, results[i]));
      }
      assert results[..|results|] == results;
    }

    /** Asks for one call; a denied one is answered at once. */
    method ConfirmCall(call: ToolCall, ghost reply: Assistant, ghost due: multiset<Ref>) returns (allowed: bool)
      requires Using(reply, due, multiset{}) && RefOf(call) in due
      modifies this`messages, this`events, this`track, this`tracks, world`confirmed, world`verdicts
      ensures Using(reply, if allowed then due else due - multiset{RefOf(call)}, multiset{}) && Kept()
      ensures world.confirmed == old(world.confirmed) + [call]
      ensures world.verdicts != [] && world.verdicts == old(world.verdicts) + [world.verdicts[|world.verdicts| - 1]]
      ensures var v := world.verdicts[|world.verdicts| - 1];
              && allowed == v.Allow? && events == old(events) + Denial(call, v)
              && Denial(call, v) == match v
                                    case Allow => []
                                    case Deny => [Refused(call, "tool call denied by user")]
                                    case DenyWithReason(reason) => [Refused(call, reason)]
    {
      hide Recorded, Step;
      var action := world.Confirm(call);
      allowed := action.Allow?;
      if !allowed {
        Report(call, ErrorResult(ReasonOf(action)), reply, due, multiset{});
      }
    }

    /** Asks for every call.  The confirmed ones are those allowed; the others are answered with the
        reason, in order. */
    method ConfirmCalls(calls: seq<ToolCall>, ghost reply: Assistant) returns (confirmed: seq<ToolCall>)
      requires Using(reply, Owed(calls), multiset{})
      modifies this`messages, this`events, this`track, this`tracks, world`confirmed, world`verdicts
      ensures Using(reply, Owed(confirmed), multiset{}) && Kept()
      ensures world.confirmed == old(world.confirmed) + calls
      ensures Answered(old(world.verdicts), world.verdicts, calls)
      ensures confirmed == AllowedOf(calls, world.verdicts[|old(world.verdicts)|..])
      ensures Grew(old(events), events, Denials(calls, world.verdicts[|old(world.verdicts)|..]))
    {
      hide Recorded, Step, Using, RefOf, Confirms, Denial;
      confirmed := [];
      ghost var due := Owed(calls);
      OwedEnds(Owed([]), calls);
      NothingConfirmed(world.confirmed, world.verdicts, events, calls);
      for i := 0 to |calls|
        invariant due == Owed(confirmed) + Owed(calls[i..])
        invariant Using(reply, due, multiset{}) && Kept()
        invariant Confirms(old(world.confirmed), old(world.verdicts), old(events),
                           world.confirmed, world.verdicts, events, calls[..i], confirmed)
      {
        ghost var asked, before, seen := world.confirmed, world.verdicts, events;
        OwedNext(Owed(confirmed), calls, i);
        var allowed := ConfirmCall(calls[i], reply, due);
        ConfirmsNext(old(world.confirmed), old(world.verdicts), old(events), asked, before, seen, calls, i, confirmed,
                     world.verdicts[|before|]);
        if allowed {
          OwedMove(confirmed, calls, i);
          confirmed := confirmed + [calls[i]];
        } else {
          due := due - multiset{RefOf(calls[i])};
        }
      }
      OwedEnds(Owed(confirmed), calls);
      assert calls[..|calls|] == calls;
      ConfirmsAll(old(world.confirmed), old(world.verdicts), old(events), world.confirmed, world.verdicts, events,
                  calls, confirmed);
    }

    /** Runs the pre-tool hooks of one call; a blocked one is answered at once. */
    method VetCall(call: ToolCall, ghost reply: Assistant, ghost due: multiset<Ref>) returns (allowed: bool)
      requires Using(reply, due, multiset{}) && RefOf(call) in due && Calls(reply.content) != []
      modifies this`messages, this`events, this`track, this`tracks, world`hookCalls, world`hookRuns
      ensures Using(reply, if allowed then due else due - multiset{RefOf(call)}, multiset{}) && Kept()
      ensures world.hookCalls == old(world.hookCalls) + [HookCall(PreToolUse, Some(call.name))]
      ensures world.hookRuns != [] && world.hookRuns == old(world.hookRuns) + [world.hookRuns[|world.hookRuns| - 1]]
      ensures var results := world.hookRuns[|world.hookRuns| - 1];
              && (allowed <==> forall r <- results :: r.blocking ==> r.success)
              && events == old(events) + VetEvents(config, call, results)
    {
      hide Recorded, Step;
      var results := world.RunHooks(PreToolUse, Some(call.name));
      EmitHooks(PreToolUse, results, reply, due, multiset{});
      allowed := !HasBlockingFailure(results);
      if !allowed {
        var feedback := config.feedback(PreToolUse, results).GetOr("pre-tool hook blocked execution");
        Report(call, ErrorResult(config.redact(feedback)), reply, due, multiset{});
      }
    }

    /** Vets every confirmed call. */
    method RunPreHooks(confirmed: seq<ToolCall>, ghost reply: Assistant) returns (allowed: seq<ToolCall>)
      requires Using(reply, Owed(confirmed), multiset{}) && Calls(reply.content) != []
      modifies this`messages, this`events, this`track, this`tracks, world`hookCalls, world`hookRuns
      ensures Using(reply, Owed(allowed), multiset{}) && Kept()
      ensures Answered(old(world.hookRuns), world.hookRuns, confirmed)
      ensures allowed == UnblockedOf(confirmed, world.hookRuns[|old(world.hookRuns)|..])
      ensures world.hookCalls == old(world.hookCalls) + HookCalls(PreToolUse, confirmed)
      ensures Grew(old(events), events, Vetting(config, confirmed, world.hookRuns[|old(world.hookRuns)|..]))
    {
      hide Recorded, Step, Using, RefOf, Vets, VetEvents, HasBlockingFailure, HookCalls;
      allowed := [];
      ghost var due := Owed(confirmed);
      OwedEnds(Owed([]), confirmed);
      NothingVetted(config, world.hookCalls, world.hookRuns, events, confirmed);
      for i := 0 to |confirmed|
        invariant due == Owed(allowed) + Owed(confirmed[i..])
        invariant Using(reply, due, multiset{}) && Kept()
        invariant Vets(config, old(world.hookCalls), old(world.hookRuns), old(events),
                       world.hookCalls, world.hookRuns, events, confirmed[..i], allowed)
      {
        ghost var asked, before, seen := world.hookCalls, world.hookRuns, events;
        OwedNext(Owed(allowed), confirmed, i);
        var passed := VetCall(confirmed[i], reply, due);
        BlocksIffFailed(world.hookRuns[|before|]);
        VetsNext(config, old(world.hookCalls), old(world.hookRuns), old(events), asked, before, seen, confirmed, i,
                 allowed, world.hookRuns[|before|]);
        if passed {
          OwedMove(allowed, confirmed, i);
          allowed := allowed + [confirmed[i]];
        } else {
          due := due - multiset{RefOf(confirmed[i])};
        }
      }
      OwedEnds(Owed(allowed), confirmed);
      assert confirmed[..|confirmed|] == confirmed;
      VetsAll(config, old(world.hookCalls), old(world.hookRuns), old(events), world.hookCalls, world.hookRuns, events,
              confirmed, allowed);
    }

    method AnnounceCall(call: ToolCall, ghost reply: Assistant, ghost due: multiset<Ref>,
                        ghost announced: multiset<Ref>)
      requires Using(reply, due, announced) && RefOf(call) in due - announced
      modifies this`events, this`track, this`tracks
      ensures Using(reply, due, announced + multiset{RefOf(call)}) && Kept()
      ensures events == old(events) + [ToolExecStart(call)]
    {
      hide Recorded;
      Emit(ToolExecStart(call));
    }

    method AnnounceCalls(allowed: seq<ToolCall>, ghost reply: Assistant)
      requires Using(reply, Owed(allowed), multiset{})
      modifies this`events, this`track, this`tracks
      ensures Using(reply, Owed(allowed), Owed(allowed)) && Kept()
      ensures Grew(old(events), events, Announcements(allowed))
    {
      hide Recorded, Step;
      ghost var announced := Owed(allowed[..0]);
      for i := 0 to |allowed|
        invariant announced == Owed(allowed[..i])
        invariant Using(reply, Owed(allowed), announced) && Kept()
        invariant Grew(old(events), events, Announcements(allowed[..i]))
      {
        OwedLeft(allowed, i);
        GrewAnnouncement(old(events), events, allowed, i);
        AnnounceCall(allowed[i], reply, Owed(allowed), announced);
        announced := announced + multiset{RefOf(allowed[i])};
      }
      assert allowed[..|allowed|] == allowed;
    }

    ghost method RecordExecution(call: ToolCall, outcome: ToolResult, batch: Batch<F>, slot: nat)
      requires Traced() && events != [] && Reports(events[|events| - 1], call, outcome)
      modifies this`executions
      ensures Traced() && executions == old(executions) + [Execution(call, outcome, |events| - 1, batch, slot)]
    {
      executions := executions + [Execution(call, outcome, |events| - 1, batch, slot)];
    }

    /** Runs the post-tool hooks of one call and reports its own result, then what failed hooks say, then what
        is attached. */
    method ReportExecution(call: ToolCall, outcome: ToolResult, ghost batch: Batch<F>, ghost slot: nat,
                           ghost reply: Assistant, ghost due: multiset<Ref>)
      returns (ghost attached: seq<string>)
      requires Using(reply, due, due) && RefOf(call) in due && Calls(reply.content) != []
      modifies this`messages, this`events, this`track, this`tracks, this`executions, world`hookCalls, world`hookRuns
      ensures Using(reply, due - multiset{RefOf(call)}, due - multiset{RefOf(call)}) && Kept()
      ensures executions == old(executions) + [Execution(call, outcome, |events| - 1, batch, slot)]
      ensures world.hookCalls == old(world.hookCalls) + [HookCall(PostToolUse, Some(call.name))]
      ensures world.hookRuns != [] && world.hookRuns == old(world.hookRuns) + [world.hookRuns[|world.hookRuns| - 1]]
      ensures var hooks := world.hookRuns[|world.hookRuns| - 1];
              var content := outcome.content + PostFeedback(config, hooks) + attached;
              events == old(events) + HookEvents(PostToolUse, hooks)
                        + [ToolExecEnd(call.id, call.name, ToolResult(content, outcome.outcome))]
    {
      hide Recorded, Step;
      var hooks := world.RunHooks(PostToolUse, Some(call.name));
      EmitHooks(PostToolUse, hooks, reply, due, due);
      var texts := world.Attachments(call);
      attached := texts;
      var content := outcome.content;
      var feedback := config.feedback(PostToolUse, hooks);
      if feedback.Some? {
        content := content + [config.redact(feedback.value)];
      }
      assert content == outcome.content + PostFeedback(config, hooks);
      var result := outcome.(content := content + texts);
      Report(call, result, reply, due, due);
      RecordExecution(call, outcome, batch, slot);
    }

    method ReportExecutions(allowed: seq<ToolCall>, results: seq<ToolResult>, ghost batch: Batch<F>,
                            ghost reply: Assistant)
      requires Using(reply, Owed(allowed), Owed(allowed)) && Calls(reply.content) != []
      requires batch.calls == allowed && |results| == |allowed|
      modifies this`messages, this`events, this`track, this`tracks, this`executions, world`hookCalls, world`hookRuns
      ensures Using(reply, multiset{}, multiset{}) && Kept()
      ensures Executed(old(executions), executions, batch, |allowed|, results)
      ensures old(world.hookRuns) <= world.hookRuns
      ensures world.hookCalls == old(world.hookCalls) + HookCalls(PostToolUse, allowed)
    {
      hide Recorded, Step, Using, RefOf, HookEvents, PostFeedback, AreReported;
      NothingReported(executions, world.hookCalls, batch, results);
      ghost var none: multiset<Ref> := multiset{};
      ghost var due := none + Owed(allowed[0..]);
      OwedEnds(none, allowed);
      for i := 0 to |allowed|
        invariant due == none + Owed(allowed[i..])
        invariant Using(reply, due, due) && Kept()
        invariant AreReported(old(executions), old(world.hookCalls), executions, world.hookCalls, batch, i, results)
        invariant old(world.hookRuns) <= world.hookRuns
      {
        OwedNext(none, allowed, i);
        NextReported(old(executions), old(world.hookCalls), executions, world.hookCalls, batch, i, results);
        var _ := ReportExecution(allowed[i], results[i], batch, i, reply, due);
        due := due - multiset{RefOf(allowed[i])};
      }
      AllReported(old(executions), old(world.hookCalls), executions, world.hookCalls, batch, results);
    }

    /** Runs the pre-tool hooks of the confirmed calls and announces those they let through. */
    method VetCalls(confirmed: seq<ToolCall>, reply: Assistant) returns (allowed: seq<ToolCall>)
      requires Using(reply, Owed(confirmed), multiset{}) && Calls(reply.content) != []
      modifies this`messages, this`events, this`track, this`tracks, world`hookCalls, world`hookRuns
      ensures Using(reply, Owed(allowed), Owed(allowed)) && Kept()
      ensures Answered(old(world.hookRuns), world.hookRuns, confirmed)
      ensures world.hookCalls == old(world.hookCalls) + HookCalls(PreToolUse, confirmed)
      ensures Grew(old(events), events, Vetting(config, confirmed, world.hookRuns[|old(world.hookRuns)|..])
                                        + Announcements(allowed))
      ensures allowed == UnblockedOf(confirmed, world.hookRuns[|old(world.hookRuns)|..])
    {
      hide Recorded, Step;
      allowed := RunPreHooks(confirmed, reply);
      GrewMore(old(events), events, Vetting(config, confirmed, world.hookRuns[|old(world.hookRuns)|..]),
               Announcements(allowed));
      AnnounceCalls(allowed, reply);
    }

    /** Confirms, vets and runs the calls of a reply, so that each of them is answered once.  Unless
        cancelled, exactly the calls that were allowed and not blocked ran on the files of the moment,
        and the outcome reported for each is that of running them one by one in input order. */
    method UseTools(reply: Assistant, calls: seq<ToolCall>) returns (cancelled: bool, ghost batch: Batch<F>)
      requires Using(reply, Owed(calls), multiset{}) && calls == Calls(reply.content) && calls != [] && pending == []
      requires Honest() && Steady()
      modifies this`messages, this`pending, this`events, this`track, this`tracks, this`executions, this`batches
      modifies world`cancelled, world`races, world`confirmed, world`verdicts, world`hookCalls, world`hookRuns
      modifies world`files, world`fetched
      ensures Using(reply, multiset{}, multiset{}) && Kept() && Honest() && Steady()
      ensures cancelled ==> world.cancelled
      ensures world.confirmed == old(world.confirmed) + calls
      ensures Answered(old(world.verdicts), world.verdicts, calls)
      ensures Unblocked(AllowedOf(calls, world.verdicts[|old(world.verdicts)|..]),
                        old(world.hookRuns), world.hookRuns, batch.calls)
      ensures batch.files == old(world.files)
      ensures !cancelled ==> RanTogether(old(executions), executions, batch, world.files)
    {
      hide Recorded, Step, AllowedOf, UnblockedOf, Unblocked, Denials, Grew, RanTogether;
      var confirmed := ConfirmCalls(calls, reply);
      if confirmed == [] {
        batch := Batch(batches, world.files, []);
        NothingRan(batch, world.hookRuns);
        return false, batch;
      }
      cancelled, batch := RunConfirmed(confirmed, reply);
    }

    lemma NothingRan(batch: Batch<F>, runs: seq<seq<HookResult>>)
      requires batch.calls == []
      ensures Unblocked([], runs, runs, []) && RanTogether(executions, executions, batch, batch.files)
    {
    }

    method RunConfirmed(confirmed: seq<ToolCall>, reply: Assistant) returns (cancelled: bool, ghost batch: Batch<F>)
      requires Using(reply, Owed(confirmed), multiset{}) && Calls(reply.content) != [] && pending == []
      requires Honest() && Steady()
      modifies this`messages, this`pending, this`events, this`track, this`tracks, this`executions, this`batches
      modifies world`cancelled, world`races, world`hookCalls, world`hookRuns, world`files, world`fetched
      ensures Using(reply, multiset{}, multiset{}) && Kept() && Honest() && Steady()
      ensures cancelled ==> world.cancelled
      ensures Unblocked(confirmed, old(world.hookRuns), world.hookRuns, batch.calls)
      ensures batch.files == old(world.files)
      ensures !cancelled ==> RanTogether(old(executions), executions, batch, world.files)
    {
      hide Recorded, Step;
      var vetted := VetCalls(confirmed, reply);
      ghost var runs := world.hookRuns;
      cancelled, batch := RunAllowed(vetted, reply);
      LaterRuns(confirmed, old(world.hookRuns), runs, world.hookRuns);
    }

    /** The batch ran and nothing else did: its outcomes and the files are those of running its calls one
        by one in input order. */
    ghost predicate RanTogether(before: seq<Execution<F>>, after: seq<Execution<F>>, batch: Batch<F>,
                                files: map<string, F>) {
      && Executed(before, after, batch, |batch.calls|, InOrder(batch))
      && var left := Grouping.InOrder(tools(batch.number), Key(), batch.files, batch.calls).1;
         forall k: string :: Grouping.Look(files, Some(k)) == Grouping.Look(left, Some(k))
    }

    method RunAllowed(allowed: seq<ToolCall>, reply: Assistant) returns (cancelled: bool, ghost batch: Batch<F>)
      requires Using(reply, Owed(allowed), Owed(allowed)) && Calls(reply.content) != [] && pending == []
      requires Honest() && Steady()
      modifies this`messages, this`pending, this`events, this`track, this`tracks, this`executions, this`batches
      modifies world`cancelled, world`races, world`hookCalls, world`hookRuns, world`files, world`fetched
      ensures Using(reply, multiset{}, multiset{}) && Kept() && Honest() && Steady()
      ensures cancelled ==> world.cancelled
      ensures cancelled ==>
                || Grew(old(events), events, Errors(allowed, "tool call cancelled before execution"))
                || Grew(old(events), events, Errors(allowed, "tool call cancelled during execution"))
      ensures batch.calls == allowed && batch.files == old(world.files)
      ensures !cancelled ==> RanTogether(old(executions), executions, batch, world.files)
      ensures old(world.cancelled) ==>
                && cancelled && world.files == old(world.files)
                && Grew(old(events), events, Errors(allowed, "tool call cancelled before execution"))
      ensures !cancelled ==> |world.fetched| == |old(world.fetched)| + 1 && world.races == old(world.races) + 1
      ensures old(world.hookRuns) <= world.hookRuns
    {
      hide Recorded, Step, RanTogether, Honest, Using, Steady, Grew, InOrder;
      batch := Batch(batches, world.files, allowed);
      var stopped := world.IsCancelled();
      if stopped {
        ReportAll(allowed, "tool call cancelled before execution", reply);
        return true, batch;
      }
      var interrupted := world.Interrupts();
      if interrupted {
        world.AbandonTools();
        ReportAll(allowed, "tool call cancelled during execution", reply);
        return true, batch;
      }
      RunBatch(allowed, batch, reply);
      FetchAfterTools(reply);
      return false, batch;
    }

    method FetchAfterTools(ghost reply: Assistant)
      requires Using(reply, multiset{}, multiset{}) && Steady() && pending == []
      modifies this`pending, world`fetched
      ensures Using(reply, multiset{}, multiset{}) && Steady() && |world.fetched| == |old(world.fetched)| + 1
    {
      FetchSteering();
    }

    method RunBatch(allowed: seq<ToolCall>, ghost batch: Batch<F>, reply: Assistant)
      requires Using(reply, Owed(allowed), Owed(allowed)) && Calls(reply.content) != [] && Honest()
      requires batch == Batch(batches, world.files, allowed)
      modifies this`messages, this`events, this`track, this`tracks, this`executions, this`batches
      modifies world`hookCalls, world`hookRuns, world`files
      ensures Using(reply, multiset{}, multiset{}) && Kept() && Honest()
      ensures RanTogether(old(executions), executions, batch, world.files)
      ensures old(world.hookRuns) <= world.hookRuns
    {
      hide Recorded, Step;
      var results := ExecuteAllowed(allowed);
      ReportExecutions(allowed, results, batch, reply);
      ExecutedAreGenuine(old(executions), batch);
    }

    /** The grouped execution of a batch: results and files are those of the calls one by one. */
    method ExecuteAllowed(allowed: seq<ToolCall>) returns (results: seq<ToolResult>)
      modifies this`batches, world`files
      ensures results == InOrder(Batch(old(batches), old(world.files), allowed))
      ensures forall k: string ::
                Grouping.Look(world.files, Some(k))
                == Grouping.Look(Grouping.InOrder(tools(old(batches)), Key(), old(world.files), allowed).1, Some(k))
    {
      var key := Grouping.KeyOf(config.pathArgument);
      var files;
      results, files := Grouping.ExecuteGrouped(allowed, key, tools(batches), world.files);
      batches, world.files := batches + 1, files;
    }

    lemma ExecutedAreGenuine(before: seq<Execution<F>>, batch: Batch<F>)
      requires Executed(before, executions, batch, |batch.calls|, InOrder(batch))
      requires forall x <- before :: Genuine(x)
      ensures Honest()
    {
      var ran := executions[|before|..];
      assert executions == before + ran;
      forall x <- executions ensures Genuine(x) {
        if x !in before {
          var slot: nat :| slot < |ran| && ran[slot] == x;
          assert RanAs(ran[slot], batch, slot, InOrder(batch));
        }
      }
    }

    // --- Turns and the run ------------------------------------------------------------------------

    /** An interrupted reply is kept as far as it was streamed. */
    method KeepAborted(partial: PartialMessage?)
      requires if partial == null then Valid() && MayEnd(track) else Reading(partial)
      modifies this`messages, this`events, this`track, this`tracks
      ensures Valid() && MayEnd(track)
      ensures track.turns == old(track.turns) && track.waits == old(track.waits)
      ensures track.followUps == old(track.followUps)
      ensures partial != null ==>
                events == old(events) + [MessageEnd(Finish(partial.Value(), Aborted, ABORTED_MESSAGE))]
    {
      hide Recorded;
      if partial != null {
        var message := Finish(partial.Value(), Aborted, ABORTED_MESSAGE);
        Emit(MessageEnd(message));
        messages := messages + [Reply(message)];
      }
    }

    /** A completed reply: its tools run, or its turn is over. */
    method CloseTurn(reply: Assistant) returns (flow: Flow)
      requires Closing(Some(reply), None) && reply.stop != Error && Honest() && Steady()
      modifies this`messages, this`pending, this`turnIndex, this`overflowRetried, this`events, this`track
      modifies this`tracks, this`executions, this`batches
      modifies world`cancelled, world`races, world`confirmed, world`verdicts, world`hookCalls, world`hookRuns
      modifies world`files, world`fetched
      ensures requests == old(requests) && track.waits == old(track.waits) && track.followUps == old(track.followUps)
      ensures track.limit == old(track.limit) && Honest() && Steady()
      ensures flow.NextTurn? ==> Head() && !overflowRetried && track.turns == old(track.turns) + 1
      ensures flow.FollowUps? ==> Rested() && track.turns == old(track.turns)
      ensures flow.StopRun? ==> Valid() && MayEnd(track) && old(track.turns) <= track.turns <= old(track.turns) + 1
      ensures flow.StopRun? && !world.cancelled ==> Exhausted()
      ensures !flow.RunEnded?
      ensures flow.FollowUps? <==> Calls(reply.content) == []
    {
      hide Recorded, Step, Steady, Honest, Exhausted;
      AcceptReply(reply);
      var calls := Calls(reply.content);
      if calls == [] {
        Rest(reply);
        return FollowUps;
      }
      var cancelled, _ := UseTools(reply, calls);
      if cancelled {
        return StopRun;
      }
      flow := EndToolTurn(reply);
    }

    /** A reply without calls: its turn is over, but does not count. */
    method Rest(reply: Assistant)
      requires Using(reply, multiset{}, multiset{}) && Calls(reply.content) == [] && pending == []
      modifies this`events, this`track, this`tracks, world`hookCalls, world`hookRuns
      ensures Rested() && Kept()
      ensures world.hookCalls == old(world.hookCalls) + [HookCall(StopPoint, None)]
      ensures world.hookRuns != [] && world.hookRuns == old(world.hookRuns) + [world.hookRuns[|world.hookRuns| - 1]]
      ensures events == old(events) + HookEvents(StopPoint, world.hookRuns[|world.hookRuns| - 1])
                        + [TurnEnd(turnIndex, reply)]
    {
      hide Recorded;
      var hooks := world.RunHooks(StopPoint, None);
      EmitHooks(StopPoint, hooks, reply, multiset{}, multiset{});
      Emit(TurnEnd(turnIndex, reply));
    }

    method AcceptReply(reply: Assistant)
      requires Closing(Some(reply), None) && reply.stop != Error
      modifies this`messages, this`overflowRetried, this`events, this`track, this`tracks
      ensures Using(reply, Owed(Calls(reply.content)), multiset{}) && Kept() && pending == []
    {
      hide Recorded, Owed, Calls;
      overflowRetried := false;
      Emit(MessageEnd(reply));
      messages := messages + [Reply(reply)];
    }

    method EndToolTurn(reply: Assistant) returns (flow: Flow)
      requires Using(reply, multiset{}, multiset{}) && Calls(reply.content) != [] && Steady()
      modifies this`turnIndex, this`pending, this`events, this`track, this`tracks, world`fetched
      ensures Steady()
      ensures |world.fetched| == |old(world.fetched)| + if flow.NextTurn? && old(pending) == [] then 1 else 0
      ensures requests == old(requests) && track.waits == old(track.waits) && track.followUps == old(track.followUps)
      ensures track.turns == old(track.turns) + 1
      ensures flow.StopRun? <==> old(turnIndex) + 1 >= config.maxTurns
      ensures flow.NextTurn? ==> Head() && !overflowRetried
      ensures !flow.NextTurn? ==> flow.StopRun? && Valid() && MayEnd(track) && Exhausted()
    {
      hide Recorded, Step, Steady, Exhausted, Calls;
      CountTurn(reply);
      if turnIndex >= config.maxTurns {
        ReachBudget();
        return StopRun;
      }
      if pending == [] {
        FetchSteering();
      }
      return NextTurn;
    }

    /** A turn that used tools counts. */
    method CountTurn(reply: Assistant)
      requires Using(reply, multiset{}, multiset{}) && Calls(reply.content) != []
      modifies this`turnIndex, this`events, this`track, this`tracks
      ensures Valid() && events == old(events) + [TurnEnd(old(turnIndex), reply)] && turnIndex == old(turnIndex) + 1
      ensures track == old(track).(turns := turnIndex,
                                   phase := if turnIndex >= config.maxTurns then Phase.Spent else Ready)
    {
      hide Recorded;
      Emit(TurnEnd(turnIndex, reply));
      turnIndex := turnIndex + 1;
    }

    method ReachBudget()
      requires Valid() && track.phase.Spent? && !track.waiting
      modifies this`events, this`track, this`tracks
      ensures Valid() && Exhausted() && track == old(track).(phase := Stopping)
    {
      hide Recorded;
      Emit(MaxTurnsReached(config.maxTurns));
    }

    /** The turn budget is used up, as the last event says. */
    ghost predicate Exhausted()
      reads this`events, this`track
    {
      && track.phase.Stopping? && !track.waiting
      && events != [] && events[|events| - 1] == MaxTurnsReached(config.maxTurns)
    }

    /** A turn without tool calls ended; only a follow-up can carry the run on. */
    ghost predicate Rested()
      reads this
    {
      && Valid() && track.phase.Idle? && Quiet(track) && !track.waiting && !track.recovered
      && track.turns < Budget(track.limit)
      && pending == [] && overflow.None? && !overflowRetried
    }

    /** The attempts of a turn are over: retry an overflow, end in an error, or close the turn. */
    method Conclude(final: Option<Assistant>, lastError: Option<string>) returns (flow: Flow)
      requires Closing(final, lastError) && Honest() && Steady()
      modifies this`messages, this`pending, this`turnIndex, this`overflow, this`overflowRetried, this`events, this`track
      modifies this`tracks, this`executions, this`batches
      modifies world`cancelled, world`races, world`confirmed, world`verdicts, world`hookCalls, world`hookRuns
      modifies world`files, world`fetched
      ensures track.waits == old(track.waits) && track.followUps == old(track.followUps) && Honest() && Steady()
      ensures flow.NextTurn? ==> Head()
      ensures flow.NextTurn? ==> if overflowRetried then track.turns == old(track.turns) && !old(overflowRetried)
                                 else track.turns == old(track.turns) + 1
      ensures flow.NextTurn? && overflowRetried <==>
                final.None? && !old(overflowRetried) && config.overflows(lastError.GetOr(STREAM_ENDED_EARLY))
      ensures flow.NextTurn? && overflowRetried ==>
                overflow == Some(lastError.GetOr("stream ended without a final message"))
      ensures flow.FollowUps? ==> Rested() && track.turns == old(track.turns)
      ensures flow.FollowUps? <==> final.Some? && final.value.stop != Error && Calls(final.value.content) == []
      ensures flow.StopRun? ==> Valid() && MayEnd(track)
      ensures flow.StopRun? ==> old(track.turns) <= track.turns <= old(track.turns) + 1
      ensures flow.StopRun? && !world.cancelled ==> Exhausted()
      ensures flow.RunEnded? ==>
                events == old(events) + match final
                                        case None => [ErrorEvent(lastError.GetOr(STREAM_ENDED_EARLY)), AgentEnd]
                                        case Some(m) =>
                                          var error := lastError.Or(m.error).GetOr("assistant response failed");
                                          [MessageEnd(m), ErrorEvent(error), AgentEnd]
      ensures flow.RunEnded? ==> Finished() && pending == [] && track.turns == old(track.turns)
    {
      hide Recorded, Step, Steady, Honest, Exhausted;
      if final.None? {
        var error := lastError.GetOr(STREAM_ENDED_EARLY);
        if !overflowRetried && config.overflows(error) {
          overflowRetried, overflow := true, Some(error);
          return NextTurn;
        }
        EndInError(None, error);
        return RunEnded;
      }
      var reply := final.value;
      if reply.stop == Error {
        var error := lastError.Or(reply.error).GetOr("assistant response failed");
        EndInError(Some(reply), error);
        return RunEnded;
      }
      flow := CloseTurn(reply);
    }

    method Turn() returns (flow: Flow)
      requires Head()
      requires Honest() && Steady() && Backs()
      modifies this, world
      ensures Honest() && Steady() && Backs()
      ensures |requests| <= |old(requests)| + 1 + Retry.MAX_RETRIES + track.waits - old(track.waits)
      ensures world.losses + track.waits <= old(world.losses) + old(track.waits)
      ensures world.resumed == old(world.resumed)
      ensures track.followUps == old(track.followUps) && world.followUps == old(world.followUps)
      ensures flow.NextTurn? ==> Head()
      ensures flow.NextTurn? ==> if overflowRetried then track.turns == old(track.turns) && !old(overflowRetried)
                                 else track.turns == old(track.turns) + 1
      ensures flow.FollowUps? ==> Rested() && track.turns == old(track.turns)
      ensures flow.StopRun? ==> Valid() && MayEnd(track)
      ensures flow.StopRun? ==> track.turns == old(track.turns) + 1 || track.turns < Budget(config.maxTurns)
      ensures flow.StopRun? && !world.cancelled ==> Exhausted()
      ensures flow.RunEnded? ==> Finished() && pending == [] && track.turns < Budget(config.maxTurns)
    {
      hide Backs, Recorded, Step, Steady, Honest, Exhausted;
      var opening := BeginTurn();
      if !opening.Proceed? {
        return if opening.Interrupted? then StopRun else RunEnded;
      }
      var o, partial, _ := Ask();
      if o.RunOver? {
        return RunEnded;
      }
      if o.Aborting? {
        KeepAborted(partial);
        return StopRun;
      }
      flow := Conclude(o.final, o.lastError);
    }

    /** Requests so far: at most two attempts series for each finished turn and follow-up, `extra`
        for the turn under way, and one for every network loss. */
    ghost predicate Within(extra: nat)
      reads this
    {
      |requests| <= 2 * (1 + Retry.MAX_RETRIES) * (track.turns + track.followUps) + extra + track.waits
    }

    /** The bound of a whole run. */
    ghost predicate Bounded()
      reads this
    {
      |requests| <= 2 * (1 + Retry.MAX_RETRIES) * (Budget(config.maxTurns) + track.followUps) + track.waits
    }

    /** Turns until one of them needs no tool, or the run stops. */
    method Turns() returns (flow: Flow)
      requires Head() && Within(if overflowRetried then 1 + Retry.MAX_RETRIES else 0)
      requires Honest() && Steady() && Backs()
      modifies this, world
      ensures Honest() && Steady() && Backs()
      ensures world.losses + track.waits <= old(world.losses) + old(track.waits)
      ensures world.resumed == old(world.resumed)
      ensures track.followUps == old(track.followUps) && world.followUps == old(world.followUps)
      ensures !flow.NextTurn?
      ensures flow.FollowUps? ==> Rested() && Within(2 * (1 + Retry.MAX_RETRIES))
      ensures flow.StopRun? ==> Valid() && MayEnd(track)
      ensures flow.StopRun? && !world.cancelled ==> Exhausted()
      ensures flow.RunEnded? ==> Finished() && pending == []
      ensures !flow.FollowUps? ==> Bounded()
    {
      hide Backs, Recorded, Step, Steady, Honest, Exhausted;
      flow := NextTurn;
      while flow.NextTurn?
        invariant Honest() && Steady() && Backs()
        invariant flow.NextTurn? ==> Head() && Within(if overflowRetried then 1 + Retry.MAX_RETRIES else 0)
        invariant world.losses + track.waits <= old(world.losses) + old(track.waits)
        invariant world.resumed == old(world.resumed)
        invariant track.followUps == old(track.followUps) && world.followUps == old(world.followUps)
        invariant flow.FollowUps? ==> Rested() && Within(2 * (1 + Retry.MAX_RETRIES))
        invariant flow.StopRun? ==> Valid() && MayEnd(track)
        invariant flow.StopRun? && !world.cancelled ==> Exhausted()
        invariant flow.RunEnded? ==> Finished() && pending == []
        invariant flow.StopRun? || flow.RunEnded? ==> Bounded()
        decreases flow.NextTurn?, Budget(config.maxTurns) - track.turns, !overflowRetried
      {
        flow := Turn();
      }
    }

    method BeginRun()
      requires Valid() && track == Protocol.Begin(config.maxTurns, initial)
      modifies this`events, this`track, this`tracks
      ensures Valid() && events == old(events) + [AgentStart]
      ensures track == Protocol.Begin(config.maxTurns, initial).(phase := Ready)
    {
      hide Recorded;
      Emit(AgentStart);
    }

    method EmitSessionHooks(hooks: seq<HookResult>)
      requires Valid() && track.phase.Ready?
      modifies this`events, this`track, this`tracks
      ensures Valid() && track == old(track) && events == old(events) + HookEvents(PreSession, hooks)
    {
      hide Recorded;
      for i := 0 to |hooks|
        invariant Valid() && track == old(track) && events == old(events) + HookEvents(PreSession, hooks[..i])
      {
        HookEventsNext(PreSession, hooks, i);
        Emit(HookRan(PreSession, hooks[i]));
      }
      assert hooks[..|hooks|] == hooks;
    }

    method Open()
      requires Valid() && events == [] && requests == [] && track == Begin(config.maxTurns, initial)
      requires overflow.None? && !overflowRetried && Steady() && pending == []
      modifies this`pending, this`events, this`track, this`tracks, world`hookCalls, world`hookRuns, world`fetched
      ensures Head() && requests == [] && Within(0) && track.waits == 0 && track.followUps == 0
      ensures !overflowRetried && Steady() && |world.fetched| == |old(world.fetched)| + 1
      ensures world.hookCalls == old(world.hookCalls) + [HookCall(PreSession, None)]
      ensures world.hookRuns != [] && world.hookRuns == old(world.hookRuns) + [world.hookRuns[|world.hookRuns| - 1]]
      ensures events == [AgentStart] + HookEvents(PreSession, world.hookRuns[|world.hookRuns| - 1])
    {
      hide Recorded, Steady, Step, HookEvents;
      BeginRun();
      var hooks := world.RunHooks(PreSession, None);
      EmitSessionHooks(hooks);
      FetchSteering();
    }

    /** A whole run.  It ends; the protocol accepts its trace up to the final `AgentEnd`; every
        request went out on the conversation of the moment with no overflow pending; and the requests
        are bounded by the turn budget, the follow-ups and the network losses. */
    method Run()
      requires Valid() && events == [] && requests == [] && track == Begin(config.maxTurns, initial)
      requires transforms == [] && executions == []
      requires overflow.None? && !overflowRetried && pending == [] && logged == LogSizes()
      modifies this, world
      ensures Complete(config.maxTurns, initial, events)
      ensures Protocol.Run(Start(), events) == Some(track) && messages == track.messages
      ensures track.waits <= old(world.losses) && track.followUps <= old(world.followUps)
      ensures |requests| <= 2 * (1 + Retry.MAX_RETRIES) * (Budget(config.maxTurns) + track.followUps) + track.waits
      ensures forall r <- requests :: Sent(Start(), events, r)
      ensures forall x <- transforms :: Told(Start(), events, x)
      ensures forall x <- executions :: Reported(events, x)
      ensures forall x <- executions :: Genuine(x)
      ensures |old(world.asked)| <= |world.asked| && Histories(requests) == world.asked[|old(world.asked)|..]
      ensures |old(world.transformed)| <= |world.transformed|
      ensures Given(world.transformed[|old(world.transformed)|..], transforms)
      ensures |old(world.fetched)| <= |world.fetched|
      ensures SteeringOf(events) + Held(pending) == Fetched(world.fetched[|old(world.fetched)|..])
      ensures |old(world.resumed)| <= |world.resumed|
      ensures FollowUpsOf(events) == Fetched(world.resumed[|old(world.resumed)|..])
      ensures pending != [] ==> world.cancelled || BudgetReached(config.maxTurns, events)
      ensures EndsBecause(|old(world.resumed)|)
      ensures track.waiting ==> world.cancelled
    {
      hide Step, SteeringOf, FollowUpsOf, Fetched, Held, Histories, Given, Linked, Reported, Genuine;
      NothingLogged();
      Open();
      RunTurns();
      PathFacts(Start(), tracks, events, requests, transforms);
    }

    /** Why a run ends: it was cancelled, it reported an error, its turn budget was used up, or the last
        follow-up asked for was empty. */
    ghost predicate EndsBecause(resumed: nat)
      reads this`events, world`cancelled, world`resumed
    {
      || world.cancelled || Errored(events) || BudgetReached(config.maxTurns, events)
      || (resumed < |world.resumed| && world.resumed[|world.resumed| - 1] == [])
    }

    lemma NothingLogged()
      requires Valid() && events == [] && requests == [] && transforms == [] && executions == [] && pending == []
      requires logged == LogSizes()
      ensures Steady() && Backs() && Honest()
    {
    }

    /** Turns and follow-ups until the run ends. */
    method RunTurns()
      requires Head() && !overflowRetried && Within(0) && track.waits == 0 && track.followUps == 0
      requires Honest() && Steady() && Backs()
      modifies this, world
      ensures Honest() && Steady() && Backs()
      ensures pending != [] ==> world.cancelled || BudgetReached(config.maxTurns, events)
      ensures Traced() && messages == track.messages && track.phase.Ended?
      ensures track.waits <= old(world.losses) && track.followUps <= old(world.followUps)
      ensures Bounded()
      ensures track.waiting ==> world.cancelled
      ensures EndsBecause(|old(world.resumed)|)
    {
      hide Backs, Recorded, Step, Steady, Honest, Exhausted, BudgetReached;
      while true
        invariant Head() && !overflowRetried && Within(0) && Honest() && Steady() && Backs()
        invariant world.losses + track.waits <= old(world.losses)
        invariant world.followUps + track.followUps <= old(world.followUps)
        invariant |old(world.resumed)| <= |world.resumed|
        decreases world.followUps
      {
        var flow := Turns();
        if flow.RunEnded? {
          return;
        }
        if flow.StopRun? {
          EndRun();
          return;
        }
        var resumed := TryResume();
        if !resumed {
          EndRun();
          return;
        }
      }
    }

    /** A follow-up, if there is one, carries the run on. */
    method TryResume() returns (resumed: bool)
      requires Rested() && Steady()
      modifies this`messages, this`events, this`track, this`tracks, this`followed, world`followUps, world`resumed
      ensures Steady() && |world.resumed| == |old(world.resumed)| + 1
      ensures var batch := world.resumed[|old(world.resumed)|];
              if batch == [] then
                && !resumed && Rested() && events == old(events) && messages == old(messages)
                && track == old(track) && world.followUps == old(world.followUps)
              else
                && resumed && Head() && events == old(events) + [FollowUpInjected(batch)]
                && messages == old(messages) + batch
                && track.turns == old(track.turns) && track.waits == old(track.waits)
                && track.followUps == old(track.followUps) + 1 && world.followUps == old(world.followUps) - 1
    {
      hide Recorded, Step;
      ghost var seen := world.resumed;
      var batch := world.FollowUp();
      FetchedNext(seen, logged.resumed, batch);
      resumed := batch != [];
      if resumed {
        Resume(batch);
      }
    }

    method EndRun()
      requires Valid() && MayEnd(track)
      modifies this`events, this`track, this`tracks
      ensures Traced() && messages == track.messages && events == old(events) + [AgentEnd]
      ensures track == old(track).(phase := Ended)
      ensures old(Exhausted()) ==> BudgetReached(config.maxTurns, events) && !track.waiting
    {
      hide Recorded;
      Emit(AgentEnd);
    }

    method EmitFollowUp(batch: seq<Message>)
      requires Traced() && Step(track, FollowUpInjected(batch)).Some?
      modifies this`events, this`track, this`tracks, this`followed
      ensures Traced() && events == old(events) + [FollowUpInjected(batch)] && followed == old(followed) + [batch]
      ensures Some(track) == Step(old(track), FollowUpInjected(batch))
    {
      var e := FollowUpInjected(batch);
      PathSnoc(Start(), tracks, events, e, Step(track, e).value);
      InjectedSnoc(events, e);
      track := Step(track, e).value;
      tracks := tracks + [track];
      events, followed := events + [e], followed + [batch];
    }

    /** A follow-up carries the run on. */
    method Resume(batch: seq<Message>)
      requires Rested() && batch != []
      modifies this`messages, this`events, this`track, this`tracks, this`followed
      ensures Head() && messages == old(messages) + batch && events == old(events) + [FollowUpInjected(batch)]
      ensures followed == old(followed) + [batch]
      ensures track.turns == old(track.turns) && track.waits == old(track.waits)
      ensures track.followUps == old(track.followUps) + 1
    {
      hide Recorded;
      messages := messages + batch;
      EmitFollowUp(batch);
    }
  }

  // --- Steering -----------------------------------------------------------------------------------

  /** The batches injected, in order. */
  function SteeringOf(es: seq<AgentEvent>): seq<seq<Message>>
    decreases |es|
  {
    if es == [] then []
    else SteeringOf(es[..|es| - 1]) + if es[|es| - 1].SteeringInjected? then [es[|es| - 1].messages] else []
  }

  function FollowUpsOf(es: seq<AgentEvent>): seq<seq<Message>>
    decreases |es|
  {
    if es == [] then []
    else FollowUpsOf(es[..|es| - 1]) + if es[|es| - 1].FollowUpInjected? then [es[|es| - 1].messages] else []
  }

  lemma InjectedSnoc(es: seq<AgentEvent>, e: AgentEvent)
    ensures SteeringOf(es + [e]) == SteeringOf(es) + if e.SteeringInjected? then [e.messages] else []
    ensures FollowUpsOf(es + [e]) == FollowUpsOf(es) + if e.FollowUpInjected? then [e.messages] else []
  {
    assert (es + [e])[..|es|] == es;
  }

  function Held(batch: seq<Message>): seq<seq<Message>> {
    if batch == [] then [] else [batch]
  }

  /** The batches fetched that hold anything. */
  function Fetched(batches: seq<seq<Message>>): seq<seq<Message>>
    decreases |batches|
  {
    if batches == [] then [] else Fetched(batches[..|batches| - 1]) + Held(batches[|batches| - 1])
  }

  lemma FetchedNext(before: seq<seq<Message>>, start: nat, batch: seq<Message>)
    requires start <= |before|
    ensures Fetched((before + [batch])[start..]) == Fetched(before[start..]) + Held(batch)
  {
    var all := (before + [batch])[start..];
    assert all[..|all| - 1] == before[start..];
  }

  /** The histories the requests carried. */
  function Histories(requests: seq<Request>): seq<seq<Message>> {
    seq(|requests|, i requires 0 <= i < |requests| => requests[i].history)
  }

  lemma HistoriesNext(asked: seq<seq<Message>>, start: nat, requests: seq<Request>, r: Request)
    requires start <= |asked| && asked[start..] == Histories(requests)
    ensures (asked + [r.history])[start..] == Histories(requests + [r])
  {
  }

  /** The transforms were given these histories and pressures. */
  predicate Given(transformed: seq<Transforming>, transforms: seq<Transform>) {
    && |transformed| == |transforms|
    && forall i | 0 <= i < |transforms| ::
         transformed[i].messages == transforms[i].history && transformed[i].pressure == transforms[i].pressure
  }

  lemma GivenNext(transformed: seq<Transforming>, start: nat, transforms: seq<Transform>, x: Transform)
    requires start <= |transformed| && Given(transformed[start..], transforms)
    ensures forall t: Transforming :: t.messages == x.history && t.pressure == x.pressure ==>
              Given((transformed + [t])[start..], transforms + [x])
  {
    forall t: Transforming | t.messages == x.history && t.pressure == x.pressure
      ensures Given((transformed + [t])[start..], transforms + [x])
    {
      assert (transformed + [t])[start..] == transformed[start..] + [t];
    }
  }

  /** The run ended in an error. */
  predicate Errored(es: seq<AgentEvent>) {
    |es| >= 2 && es[|es| - 2].ErrorEvent? && es[|es| - 1].AgentEnd?
  }

  /** The run ended because its turn budget was used up. */
  predicate BudgetReached(limit: nat, es: seq<AgentEvent>) {
    |es| >= 2 && es[|es| - 2] == MaxTurnsReached(limit)
  }

  /** The stream events passed on so far. */
  function StreamedOf(es: seq<AgentEvent>): seq<StreamEvent>
    decreases |es|
  {
    if es == [] then []
    else StreamedOf(es[..|es| - 1]) + if es[|es| - 1].Streamed? then [es[|es| - 1].event] else []
  }

  /** What one event of a stream is passed on as. */
  function Forwarded(event: StreamEvent, first: bool): seq<AgentEvent> {
    if event.Start? && first then [MessageStart(event.start), Streamed(event)] else [Streamed(event)]
  }

  /** The first `k` events of the script were passed on, in order. */
  predicate PassedOn(before: seq<AgentEvent>, es: seq<AgentEvent>, script: seq<StreamEvent>, k: nat) {
    k <= |script| && StreamedOf(es) == StreamedOf(before) + script[..k]
  }

  lemma StreamedForward(es: seq<AgentEvent>, e: StreamEvent, first: bool)
    ensures StreamedOf(es + Forwarded(e, first)) == StreamedOf(es) + [e]
  {
    if e.Start? && first {
      StreamedSnoc(es, MessageStart(e.start));
      StreamedSnoc(es + [MessageStart(e.start)], Streamed(e));
      assert es + [MessageStart(e.start)] + [Streamed(e)] == es + Forwarded(e, first);
    } else {
      StreamedSnoc(es, Streamed(e));
    }
  }

  lemma TakeNext<T>(s: seq<T>, k: nat)
    requires k < |s|
    ensures s[..k + 1] == s[..k] + [s[k]]
  {
  }

  lemma PassedOnNext(before: seq<AgentEvent>, es: seq<AgentEvent>, script: seq<StreamEvent>, k: nat, first: bool)
    requires PassedOn(before, es, script, k) && k < |script|
    ensures PassedOn(before, es + Forwarded(script[k], first), script, k + 1)
  {
    StreamedForward(es, script[k], first);
    TakeNext(script, k);
    assert StreamedOf(before) + script[..k] + [script[k]] == StreamedOf(before) + (script[..k] + [script[k]]);
  }

  lemma StreamedSnoc(es: seq<AgentEvent>, e: AgentEvent)
    ensures StreamedOf(es + [e]) == StreamedOf(es) + if e.Streamed? then [e.event] else []
  {
    assert (es + [e])[..|es|] == es;
  }

  function RefOf(call: ToolCall): Ref {
    Ref(call.id, call.name)
  }

  /** Answering the next of the remaining calls leaves the rest owed, on top of whatever else is. */
  lemma OwedNext(other: multiset<Ref>, calls: seq<ToolCall>, i: nat)
    requires i < |calls|
    ensures RefOf(calls[i]) in other + Owed(calls[i..])
    ensures other + Owed(calls[i..]) - multiset{RefOf(calls[i])} == other + Owed(calls[i + 1..])
  {
    var rest := Owed(calls[i + 1..]);
    assert calls[i..][1..] == calls[i + 1..];
    assert Owed(calls[i..]) == multiset{RefOf(calls[i])} + rest;
  }

  /** Setting the next call aside moves it from the remaining calls to the kept ones. */
  lemma OwedMove(kept: seq<ToolCall>, calls: seq<ToolCall>, i: nat)
    requires i < |calls|
    ensures Owed(kept) + Owed(calls[i..]) == Owed(kept + [calls[i]]) + Owed(calls[i + 1..])
  {
    OwedSnoc(kept, calls[i]);
    assert calls[i..][1..] == calls[i + 1..];
    assert Owed(calls[i..]) == multiset{RefOf(calls[i])} + Owed(calls[i + 1..]);
  }

  lemma OwedEnds(other: multiset<Ref>, calls: seq<ToolCall>)
    ensures calls[0..] == calls
    ensures multiset{} + Owed(calls) == Owed(calls)
    ensures other + Owed(calls[|calls|..]) == other
  {
  }

  lemma OwedNone()
    ensures Owed([]) == multiset{}
  {
  }

  lemma {:induction false} OwedSplit(calls: seq<ToolCall>, i: nat)
    requires i <= |calls|
    ensures Owed(calls) == Owed(calls[..i]) + Owed(calls[i..])
    decreases i
  {
    hide Owed;
    if i == 0 {
      OwedEnds(Owed(calls), calls);
      OwedNone();
      assert calls[..0] == [];
    } else {
      OwedSplit(calls, i - 1);
      OwedMove(calls[..i - 1], calls, i - 1);
      TakeNext(calls, i - 1);
    }
  }

  /** The next call to be announced is due and not announced yet. */
  lemma OwedLeft(calls: seq<ToolCall>, i: nat)
    requires i < |calls|
    ensures RefOf(calls[i]) in Owed(calls) - Owed(calls[..i])
    ensures Owed(calls[..i + 1]) == Owed(calls[..i]) + multiset{RefOf(calls[i])}
  {
    hide Owed;
    OwedSplit(calls, i);
    OwedNext(multiset{}, calls, i);
    assert multiset{} + Owed(calls[i..]) == Owed(calls[i..]);
    TakeNext(calls, i);
    OwedSnoc(calls[..i], calls[i]);
  }

  /** One answer was given for each call. */
  predicate Answered<T(==)>(before: seq<T>, after: seq<T>, calls: seq<ToolCall>) {
    before <= after && |after| == |before| + |calls|
  }

  function ReasonOf(verdict: Confirmation): string {
    match verdict
    case Allow => ""
    case Deny => "tool call denied by user"
    case DenyWithReason(reason) => reason
  }

  /** The calls whose verdict lets them through, in order. */
  function AllowedOf(calls: seq<ToolCall>, verdicts: seq<Confirmation>): seq<ToolCall>
    requires |calls| <= |verdicts|
    decreases |calls|
  {
    if calls == [] then []
    else
      var n := |calls| - 1;
      AllowedOf(calls[..n], verdicts) + if verdicts[n].Allow? then [calls[n]] else []
  }

  /** The results of the calls that were denied. */
  function Denials(calls: seq<ToolCall>, verdicts: seq<Confirmation>): seq<AgentEvent>
    requires |calls| <= |verdicts|
    decreases |calls|
  {
    if calls == [] then []
    else
      var n := |calls| - 1;
      Denials(calls[..n], verdicts) + Denial(calls[n], verdicts[n])
  }

  function Denial(call: ToolCall, verdict: Confirmation): seq<AgentEvent> {
    if verdict.Allow? then [] else [ToolExecEnd(call.id, call.name, ErrorResult(ReasonOf(verdict)))]
  }

  /** The calls whose hooks did not block them, in order. */
  function UnblockedOf(calls: seq<ToolCall>, runs: seq<seq<HookResult>>): seq<ToolCall>
    requires |calls| <= |runs|
    decreases |calls|
  {
    if calls == [] then []
    else
      var n := |calls| - 1;
      UnblockedOf(calls[..n], runs) + if HasBlockingFailure(runs[n]) then [] else [calls[n]]
  }

  /** Answers beyond the last call do not matter. */
  lemma {:induction false} ExtraVerdict(calls: seq<ToolCall>, verdicts: seq<Confirmation>, v: Confirmation)
    requires |calls| <= |verdicts|
    ensures AllowedOf(calls, verdicts + [v]) == AllowedOf(calls, verdicts)
    ensures Denials(calls, verdicts + [v]) == Denials(calls, verdicts)
    decreases |calls|
  {
    if calls != [] {
      ExtraVerdict(calls[..|calls| - 1], verdicts, v);
    }
  }

  lemma NextVerdict(start: seq<Confirmation>, before: seq<Confirmation>, calls: seq<ToolCall>, i: nat, v: Confirmation,
                    first: seq<AgentEvent>, seen: seq<AgentEvent>)
    requires i < |calls| && Answered(start, before, calls[..i])
    requires Grew(first, seen, Denials(calls[..i], before[|start|..]))
    ensures Answered(start, before + [v], calls[..i + 1])
    ensures AllowedOf(calls[..i + 1], (before + [v])[|start|..])
            == AllowedOf(calls[..i], before[|start|..]) + (if v.Allow? then [calls[i]] else [])
    ensures Grew(first, seen + Denial(calls[i], v), Denials(calls[..i + 1], (before + [v])[|start|..]))
  {
    assert (before + [v])[|start|..] == before[|start|..] + [v];
    assert calls[..i + 1][..i] == calls[..i];
    ExtraVerdict(calls[..i], before[|start|..], v);
    GrewMore(first, seen, Denials(calls[..i], before[|start|..]), Denial(calls[i], v));
  }

  lemma {:induction false} ExtraRun(calls: seq<ToolCall>, runs: seq<seq<HookResult>>, r: seq<HookResult>)
    requires |calls| <= |runs|
    ensures UnblockedOf(calls, runs + [r]) == UnblockedOf(calls, runs)
    decreases |calls|
  {
    if calls != [] {
      ExtraRun(calls[..|calls| - 1], runs, r);
    }
  }

  /** These are the confirmed calls whose hooks did not block them. */
  predicate Unblocked(confirmed: seq<ToolCall>, before: seq<seq<HookResult>>, runs: seq<seq<HookResult>>,
                      allowed: seq<ToolCall>) {
    before <= runs && |confirmed| <= |runs| - |before| && allowed == UnblockedOf(confirmed, runs[|before|..])
  }

  lemma {:induction false} MoreRuns(calls: seq<ToolCall>, runs: seq<seq<HookResult>>, more: seq<seq<HookResult>>)
    requires |calls| <= |runs| && runs <= more
    ensures UnblockedOf(calls, runs) == UnblockedOf(calls, more)
    decreases |calls|
  {
    if calls != [] {
      MoreRuns(calls[..|calls| - 1], runs, more);
    }
  }

  lemma LaterRuns(confirmed: seq<ToolCall>, before: seq<seq<HookResult>>, vetted: seq<seq<HookResult>>,
                  runs: seq<seq<HookResult>>)
    requires Answered(before, vetted, confirmed) && vetted <= runs
    ensures before <= runs && |confirmed| <= |runs| - |before|
    ensures UnblockedOf(confirmed, vetted[|before|..]) == UnblockedOf(confirmed, runs[|before|..])
  {
    MoreRuns(confirmed, vetted[|before|..], runs[|before|..]);
  }

  lemma NextRun(start: seq<seq<HookResult>>, before: seq<seq<HookResult>>, calls: seq<ToolCall>, i: nat,
                r: seq<HookResult>)
    requires i < |calls| && Answered(start, before, calls[..i])
    ensures Answered(start, before + [r], calls[..i + 1])
    ensures UnblockedOf(calls[..i + 1], (before + [r])[|start|..])
            == UnblockedOf(calls[..i], before[|start|..]) + (if HasBlockingFailure(r) then [] else [calls[i]])
  {
    assert (before + [r])[|start|..] == before[|start|..] + [r];
    assert calls[..i + 1][..i] == calls[..i];
    ExtraRun(calls[..i], before[|start|..], r);
  }

  predicate Grew(before: seq<AgentEvent>, after: seq<AgentEvent>, added: seq<AgentEvent>) {
    after == before + added
  }

  lemma GrewMore(before: seq<AgentEvent>, after: seq<AgentEvent>, added: seq<AgentEvent>, more: seq<AgentEvent>)
    requires Grew(before, after, added)
    ensures Grew(before, after + more, added + more)
  {
    assert before + added + more == before + (added + more);
  }

  lemma GrewError(before: seq<AgentEvent>, after: seq<AgentEvent>, calls: seq<ToolCall>, i: nat, text: string)
    requires i < |calls| && Grew(before, after, Errors(calls[..i], text))
    ensures Grew(before, after + [ToolExecEnd(calls[i].id, calls[i].name, ErrorResult(text))],
                 Errors(calls[..i + 1], text))
  {
    var e := ToolExecEnd(calls[i].id, calls[i].name, ErrorResult(text));
    GrewMore(before, after, Errors(calls[..i], text), [e]);
    assert Errors(calls[..i + 1], text) == Errors(calls[..i], text) + [e];
  }

  lemma GrewAnnouncement(before: seq<AgentEvent>, after: seq<AgentEvent>, calls: seq<ToolCall>, i: nat)
    requires i < |calls| && Grew(before, after, Announcements(calls[..i]))
    ensures Grew(before, after + [ToolExecStart(calls[i])], Announcements(calls[..i + 1]))
  {
    GrewMore(before, after, Announcements(calls[..i]), [ToolExecStart(calls[i])]);
    assert Announcements(calls[..i + 1]) == Announcements(calls[..i]) + [ToolExecStart(calls[i])];
  }

  function Errors(calls: seq<ToolCall>, text: string): (es: seq<AgentEvent>)
    ensures |es| == |calls|
  {
    seq(|calls|, i requires 0 <= i < |calls| => ToolExecEnd(calls[i].id, calls[i].name, ErrorResult(text)))
  }

  function Announcements(calls: seq<ToolCall>): (es: seq<AgentEvent>)
    ensures |es| == |calls|
  {
    seq(|calls|, i requires 0 <= i < |calls| => ToolExecStart(calls[i]))
  }

  function Refused(call: ToolCall, text: string): AgentEvent {
    ToolExecEnd(call.id, call.name, ToolResult([text], Failure))
  }

  function HookEvents(point: HookPoint, results: seq<HookResult>): seq<AgentEvent> {
    seq(|results|, i requires 0 <= i < |results| => HookRan(point, results[i]))
  }

  lemma HookEventsNext(point: HookPoint, results: seq<HookResult>, i: nat)
    requires i < |results|
    ensures HookEvents(point, results[..i + 1]) == HookEvents(point, results[..i]) + [HookRan(point, results[i])]
  {
  }

  function HookCalls(point: HookPoint, calls: seq<ToolCall>): seq<HookCall> {
    seq(|calls|, i requires 0 <= i < |calls| => HookCall(point, Some(calls[i].name)))
  }

  lemma NoHookCalls(point: HookPoint, calls: seq<ToolCall>)
    ensures HookCalls(point, calls[..0]) == []
  {
  }

  lemma HookCallsNext(point: HookPoint, calls: seq<ToolCall>, i: nat)
    requires i < |calls|
    ensures HookCalls(point, calls[..i + 1]) == HookCalls(point, calls[..i]) + [HookCall(point, Some(calls[i].name))]
  {
  }

  /** What failed post-tool hooks add to a result. */
  function PostFeedback(config: Config, results: seq<HookResult>): seq<string> {
    match config.feedback(PostToolUse, results)
    case None => []
    case Some(text) => [config.redact(text)]
  }

  /** The events of vetting one call: what its hooks returned, and its refusal if a blocking one failed. */
  function VetEvents(config: Config, call: ToolCall, results: seq<HookResult>): seq<AgentEvent> {
    var text := config.feedback(PreToolUse, results).GetOr("pre-tool hook blocked execution");
    HookEvents(PreToolUse, results)
    + if exists r <- results :: r.blocking && !r.success then [Refused(call, config.redact(text))] else []
  }

  function Vetting(config: Config, calls: seq<ToolCall>, runs: seq<seq<HookResult>>): seq<AgentEvent>
    requires |calls| <= |runs|
    decreases |calls|
  {
    if calls == [] then []
    else
      var n := |calls| - 1;
      Vetting(config, calls[..n], runs) + VetEvents(config, calls[n], runs[n])
  }

  lemma {:induction false} ExtraVetting(config: Config, calls: seq<ToolCall>, runs: seq<seq<HookResult>>,
                                        r: seq<HookResult>)
    requires |calls| <= |runs|
    ensures Vetting(config, calls, runs + [r]) == Vetting(config, calls, runs)
    decreases |calls|
  {
    if calls != [] {
      ExtraVetting(config, calls[..|calls| - 1], runs, r);
    }
  }

  lemma NextVetting(config: Config, start: seq<seq<HookResult>>, before: seq<seq<HookResult>>, calls: seq<ToolCall>,
                    i: nat, r: seq<HookResult>, first: seq<AgentEvent>, seen: seq<AgentEvent>)
    requires i < |calls| && Answered(start, before, calls[..i])
    requires Grew(first, seen, Vetting(config, calls[..i], before[|start|..]))
    ensures |calls[..i + 1]| <= |(before + [r])[|start|..]|
    ensures Grew(first, seen + VetEvents(config, calls[i], r),
                 Vetting(config, calls[..i + 1], (before + [r])[|start|..]))
  {
    hide VetEvents;
    assert (before + [r])[|start|..] == before[|start|..] + [r];
    assert calls[..i + 1][..i] == calls[..i];
    ExtraVetting(config, calls[..i], before[|start|..], r);
    GrewMore(first, seen, Vetting(config, calls[..i], before[|start|..]), VetEvents(config, calls[i], r));
  }

  /** These calls were put up for confirmation; those allowed are kept, the others were refused. */
  predicate Confirms(asked: seq<ToolCall>, verdicts: seq<Confirmation>, events: seq<AgentEvent>,
                     askedNow: seq<ToolCall>, verdictsNow: seq<Confirmation>, eventsNow: seq<AgentEvent>,
                     calls: seq<ToolCall>, allowed: seq<ToolCall>)
  {
    && askedNow == asked + calls
    && Answered(verdicts, verdictsNow, calls)
    && allowed == AllowedOf(calls, verdictsNow[|verdicts|..])
    && Grew(events, eventsNow, Denials(calls, verdictsNow[|verdicts|..]))
  }

  lemma NothingConfirmed(asked: seq<ToolCall>, verdicts: seq<Confirmation>, events: seq<AgentEvent>,
                         calls: seq<ToolCall>)
    ensures Confirms(asked, verdicts, events, asked, verdicts, events, calls[..0], [])
  {
  }

  lemma ConfirmsNext(asked: seq<ToolCall>, verdicts: seq<Confirmation>, events: seq<AgentEvent>,
                     askedNow: seq<ToolCall>, verdictsNow: seq<Confirmation>, eventsNow: seq<AgentEvent>,
                     calls: seq<ToolCall>, i: nat, allowed: seq<ToolCall>, v: Confirmation)
    requires i < |calls|
    requires Confirms(asked, verdicts, events, askedNow, verdictsNow, eventsNow, calls[..i], allowed)
    ensures Confirms(asked, verdicts, events, askedNow + [calls[i]], verdictsNow + [v], eventsNow + Denial(calls[i], v),
                     calls[..i + 1], if v.Allow? then allowed + [calls[i]] else allowed)
  {
    assert allowed + [] == allowed;
    TakeNext(calls, i);
    NextVerdict(verdicts, verdictsNow, calls, i, v, events, eventsNow);
  }

  lemma ConfirmsAll(asked: seq<ToolCall>, verdicts: seq<Confirmation>, events: seq<AgentEvent>,
                    askedNow: seq<ToolCall>, verdictsNow: seq<Confirmation>, eventsNow: seq<AgentEvent>,
                    calls: seq<ToolCall>, allowed: seq<ToolCall>)
    requires Confirms(asked, verdicts, events, askedNow, verdictsNow, eventsNow, calls, allowed)
    ensures askedNow == asked + calls && Answered(verdicts, verdictsNow, calls)
    ensures allowed == AllowedOf(calls, verdictsNow[|verdicts|..])
    ensures Grew(events, eventsNow, Denials(calls, verdictsNow[|verdicts|..]))
  {
  }

  /** The hooks of these calls ran; the calls they let through are kept, the others were refused. */
  predicate Vets(config: Config, asked: seq<HookCall>, runs: seq<seq<HookResult>>, events: seq<AgentEvent>,
                 askedNow: seq<HookCall>, runsNow: seq<seq<HookResult>>, eventsNow: seq<AgentEvent>,
                 calls: seq<ToolCall>, allowed: seq<ToolCall>)
  {
    && askedNow == asked + HookCalls(PreToolUse, calls)
    && Answered(runs, runsNow, calls)
    && allowed == UnblockedOf(calls, runsNow[|runs|..])
    && Grew(events, eventsNow, Vetting(config, calls, runsNow[|runs|..]))
  }

  lemma NothingVetted(config: Config, asked: seq<HookCall>, runs: seq<seq<HookResult>>, events: seq<AgentEvent>,
                      calls: seq<ToolCall>)
    ensures Vets(config, asked, runs, events, asked, runs, events, calls[..0], [])
  {
  }

  lemma VetsNext(config: Config, asked: seq<HookCall>, runs: seq<seq<HookResult>>, events: seq<AgentEvent>,
                 askedNow: seq<HookCall>, runsNow: seq<seq<HookResult>>, eventsNow: seq<AgentEvent>,
                 calls: seq<ToolCall>, i: nat, allowed: seq<ToolCall>, r: seq<HookResult>)
    requires i < |calls|
    requires Vets(config, asked, runs, events, askedNow, runsNow, eventsNow, calls[..i], allowed)
    ensures Vets(config, asked, runs, events, askedNow + [HookCall(PreToolUse, Some(calls[i].name))], runsNow + [r],
                 eventsNow + VetEvents(config, calls[i], r), calls[..i + 1],
                 if HasBlockingFailure(r) then allowed else allowed + [calls[i]])
  {
    hide VetEvents, HasBlockingFailure;
    assert allowed + [] == allowed;
    HookCallsNext(PreToolUse, calls, i);
    NextRun(runs, runsNow, calls, i, r);
    NextVetting(config, runs, runsNow, calls, i, r, events, eventsNow);
  }

  lemma VetsAll(config: Config, asked: seq<HookCall>, runs: seq<seq<HookResult>>, events: seq<AgentEvent>,
                askedNow: seq<HookCall>, runsNow: seq<seq<HookResult>>, eventsNow: seq<AgentEvent>,
                calls: seq<ToolCall>, allowed: seq<ToolCall>)
    requires Vets(config, asked, runs, events, askedNow, runsNow, eventsNow, calls, allowed)
    ensures askedNow == asked + HookCalls(PreToolUse, calls) && Answered(runs, runsNow, calls)
    ensures allowed == UnblockedOf(calls, runsNow[|runs|..])
    ensures Grew(events, eventsNow, Vetting(config, calls, runsNow[|runs|..]))
  {
  }

  lemma BlocksIffFailed(results: seq<HookResult>)
    ensures HasBlockingFailure(results) <==> !forall r <- results :: r.blocking ==> r.success
  {
  }

  predicate HasBlockingFailure(results: seq<HookResult>) {
    exists r <- results :: !r.success && r.blocking
  }

  /** What follows a stream that was not drained. */
  function AfterStream(end: StreamEnd): Attempted
    requires !end.Drained? && !end.Cancelled?
  {
    match end
    case Fatal => Enough(RunOver)
    case Overflow(error) => Enough(Settled(None, Some(error)))
    case Lost(error, delay) => Again(Some(error), Some(delay))
    case Retryable(error, delay) => Again(Some(error), delay)
  }

  function AfterJudging(judged: Judged): Attempted {
    match judged
    case Close(final, reason) => Enough(Settled(final, reason))
    case WaitOut(error, delay) => Again(Some(error), Some(delay))
    case TryAgain(error, delay) => Again(Some(error), delay)
  }

  /** The message of the first error of a stream. */
  function FirstError(script: seq<StreamEvent>): Option<Assistant> {
    if script == [] then None
    else if script[0].StreamError? then Some(script[0].message)
    else FirstError(script[1..])
  }

  function LastDone(script: seq<StreamEvent>): Option<Assistant>
    decreases |script|
  {
    if script == [] then None
    else if script[|script| - 1].Done? then Some(script[|script| - 1].message)
    else LastDone(script[..|script| - 1])
  }

  /** The partial reply a stream leaves behind. */
  function Rebuilt(script: seq<StreamEvent>): Option<Partial>
    decreases |script|
  {
    if script == [] then None else AdvancePartial(Rebuilt(script[..|script| - 1]), script[|script| - 1])
  }

  lemma {:induction false} FirstErrorAppend(a: seq<StreamEvent>, b: seq<StreamEvent>)
    ensures FirstError(a + b) == FirstError(a).Or(FirstError(b))
    decreases |a|
  {
    if a == [] {
      assert a + b == b;
    } else {
      assert (a + b)[1..] == a[1..] + b;
      FirstErrorAppend(a[1..], b);
    }
  }

  /** One more event of a stream without an error so far. */
  lemma ScriptNext(script: seq<StreamEvent>, k: nat)
    requires k < |script| && FirstError(script[..k]).None?
    ensures var e := script[k];
            && FirstError(script[..k + 1]) == (if e.StreamError? then Some(e.message) else None)
            && (e.StreamError? ==> FirstError(script) == Some(e.message))
            && LastDone(script[..k + 1]) == (if e.Done? then Some(e.message) else LastDone(script[..k]))
            && Rebuilt(script[..k + 1]) == AdvancePartial(Rebuilt(script[..k]), e)
  {
    var next := script[..k + 1];
    assert next[..k] == script[..k] && next == script[..k] + [script[k]] && script == next + script[k + 1..];
    FirstErrorAppend(script[..k], [script[k]]);
    FirstErrorAppend(next, script[k + 1..]);
    assert [script[k]][1..] == [];
  }

  lemma NothingRead(script: seq<StreamEvent>, es: seq<AgentEvent>)
    ensures FirstError(script[..0]).None? && LastDone(script[..0]).None? && Rebuilt(script[..0]).None?
    ensures DoneIn(script[..0], None) && PassedOn(es, es, script, 0)
  {
  }

  /** What dropping a reply announces. */
  function Dropped(streamed: bool, error: string): seq<AgentEvent> {
    if streamed then [PartialDiscarded(error)] else []
  }

  /** How a run ends on a broken stream: the errored reply is kept if it has content. */
  function BrokenEnd(m: Assistant): seq<AgentEvent> {
    var error := m.error.GetOr("unknown error");
    (if m.content == [] then [] else [MessageEnd(Assistant(m.content, m.meta, Error, Some(error)))])
    + [ErrorEvent(error), AgentEnd]
  }

  predicate EndsWith(es: seq<AgentEvent>, tail: seq<AgentEvent>) {
    |tail| <= |es| && es[|es| - |tail|..] == tail
  }

  /** `done` is a final message of the script, if it has one. */
  predicate DoneIn(script: seq<StreamEvent>, done: Option<Assistant>) {
    match done
    case None => forall i | 0 <= i < |script| :: !script[i].Done?
    case Some(m) => exists i | 0 <= i < |script| :: script[i].Done? && script[i].message == m
  }

  lemma DoneInNext(script: seq<StreamEvent>, k: nat, done: Option<Assistant>)
    requires k < |script| && DoneIn(script[..k], done)
    ensures DoneIn(script[..k + 1], if script[k].Done? then Some(script[k].message) else done)
  {
    var next := script[..k + 1];
    assert forall i | 0 <= i < k :: next[i] == script[..k][i];
    assert next[k] == script[k];
  }

  lemma NapTaken(start: seq<real>, before: seq<real>, after: seq<real>, wait: Option<real>)
    requires start <= before && after == before + if wait.Some? then [wait.value] else []
    ensures start <= after
    ensures Retry.Total(after[|start|..]) == Retry.Total(before[|start|..]) + wait.GetOr(0.0)
  {
    if wait.Some? {
      assert after[|start|..] == before[|start|..] + [wait.value];
      Retry.TotalSnoc(before[|start|..], wait.value);
    } else {
      assert after == before;
    }
  }

  lemma NothingSlept(naps: seq<real>)
    ensures Retry.Total(naps[|naps|..]) == 0.0 && Retry.Slept([]) == 0.0 && Retry.Made([]) == 0
  {
  }

  lemma SleepsAdd(before: seq<Retry.Sleep>, after: seq<Retry.Sleep>, delay: Option<real>)
    ensures Retry.Adds(before, after, delay) ==>
              && Retry.Slept(after) == Retry.Slept(before) + delay.GetOr(0.0)
              && Retry.Made(after) == Retry.Made(before) + if delay.Some? then 1 else 0
  {
    if Retry.Adds(before, after, delay) {
      Retry.AddedDelay(before, after, delay);
    }
  }
}
