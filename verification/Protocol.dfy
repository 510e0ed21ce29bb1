/** The event protocol of an agent run, as an automaton over single events.  `Track` is what an
    observer of the events knows: the phase, the conversation so far, the reply being streamed.
    `AgentLoop` is proved to emit only traces this automaton accepts; the consumers are proved
    against every trace it accepts. */
module Protocol {
  import opened Types
  import opened Partials

  const ABORTED_MESSAGE := "request was aborted"

  /** A tool call as its result names it. */
  datatype Ref = Ref(id: string, name: string)

  function Owed(calls: seq<ToolCall>): multiset<Ref> {
    if calls == [] then multiset{}
    else multiset{Ref(calls[0].id, calls[0].name)} + Owed(calls[1..])
  }

  lemma {:induction false} OwedSnoc(calls: seq<ToolCall>, call: ToolCall)
    ensures Owed(calls + [call]) == Owed(calls) + multiset{Ref(call.id, call.name)}
  {
    var all := calls + [call];
    if calls != [] {
      assert all[1..] == calls[1..] + [call];
      OwedSnoc(calls[1..], call);
    }
  }

  datatype Phase =
    | Unstarted
    | Ready                          // between turns
    | Steered                        // a steering batch was injected, its turn must start
    | Resumed                        // a follow-up was injected
    | Asking(opening: bool, owed: bool)  // a turn is open; `owed` while an overflow awaits compaction
    | Answering(reply: Assistant, due: multiset<Ref>, announced: multiset<Ref>, cut: bool)
                                     // `announced` calls may report success; `cut` while the reply may
                                     // as well be one a cancel cut short
    | Idle                           // a turn without tool calls ended
    | Spent                          // the turn budget is used up
    | Stopping
    | Failed                         // an errored reply was closed
    | Cut                            // a cancelled reply was closed
    | Erred
    | Ended

  datatype Track = Track(
    limit: nat,
    phase: Phase,
    messages: seq<Message>,
    turns: nat,
    partial: Option<Partial>,
    announced: Option<Assistant>,
    done: Option<Assistant>,
    waiting: bool,
    recovered: bool,
    waits: nat,
    followUps: nat)

  function Begin(limit: nat, initial: seq<Message>): Track {
    Track(limit, Unstarted, initial, 0, None, None, None, false, false, 0, 0)
  }

  /** Turns an unlimited budget of one or more allows; a budget of zero still runs one. */
  function Budget(limit: nat): nat {
    if limit == 0 then 1 else limit
  }

  /** No reply is under way. */
  predicate Quiet(t: Track) {
    t.partial.None? && t.announced.None? && t.done.None?
  }

  function Say(t: Track, m: Message): Track {
    t.(messages := t.messages + [m])
  }

  function AdvancePartial(partial: Option<Partial>, e: StreamEvent): Option<Partial> {
    if e.Start? then Some(NewPartial(e.start))
    else if partial.Some? then Some(ApplyEvent(partial.value, e))
    else None
  }

  function StartTurn(t: Track, index: nat): Option<Track> {
    if index != t.turns || t.turns >= Budget(t.limit) then None
    else if t.phase.Ready? || t.phase.Steered? || t.phase.Resumed? then
      Some(t.(phase := Asking(true, false)))
    else if t.phase.Asking? && !t.phase.owed && !t.recovered && !t.waiting && Quiet(t) then
      // the overflow retry: the same turn starts again, once per reply
      Some(t.(phase := Asking(true, true), recovered := true))
    else None
  }

  function Stream(t: Track, e: StreamEvent): Option<Track> {
    if !t.phase.Asking? || t.phase.owed || t.waiting || e.StreamError? then None
    else if e.Start? && !(t.announced == Some(e.start) || (t.announced.None? && t.partial.Some?)) then None
    else if !e.Start? && t.announced.Some? then None
    else
      Some(t.(phase := Asking(false, false), announced := None, partial := AdvancePartial(t.partial, e),
              done := if e.Done? then Some(e.message) else t.done))
  }

  /** A reply ends as an error, as the provider's own final message, or as the partial cut short. */
  function EndReply(t: Track, m: Assistant): Option<Track> {
    if !t.phase.Asking? || t.phase.owed || t.waiting || t.announced.Some? then None
    else
      var closed := Say(t, Reply(m)).(partial := None, announced := None, done := None);
      var cut := t.partial.Some? && m == Finish(t.partial.value, Aborted, ABORTED_MESSAGE);
      if m.stop == Error then Some(closed.(phase := Failed))
      else if t.done == Some(m) then
        Some(closed.(phase := Answering(m, Owed(Calls(m.content)), multiset{}, cut), recovered := false))
      else if cut then Some(closed.(phase := Cut))
      else None
  }

  function Handle(t: Track): Track
    requires t.phase.Answering?
  {
    t.(phase := t.phase.(cut := false))
  }

  /** A due call is announced. */
  function Announce(t: Track, r: Ref): Option<Track> {
    if !t.phase.Answering? || r !in t.phase.due - t.phase.announced then None
    else Some(Handle(t).(phase := Handle(t).phase.(announced := t.phase.announced + multiset{r})))
  }

  /** A due call gets its result; a success only if it was announced. */
  function Answer(t: Track, r: Ref, result: ToolResult): Option<Track> {
    if !t.phase.Answering? || r !in t.phase.due || (result.outcome.Success? && r !in t.phase.announced) then None
    else
      Some(Say(t, Result(r.id, r.name, result)).(phase :=
        Answering(t.phase.reply, t.phase.due - multiset{r}, t.phase.announced - multiset{r}, false)))
  }

  function EndTurn(t: Track, index: nat, m: Assistant): Option<Track> {
    if !t.phase.Answering? || t.phase.reply != m || t.phase.due != multiset{} || index != t.turns then None
    else if Calls(m.content) == [] then Some(t.(phase := Idle))
    else Some(t.(turns := t.turns + 1, phase := if t.turns + 1 >= t.limit then Spent else Ready))
  }

  predicate MayEnd(t: Track) {
    match t.phase
    case Ready => true
    case Resumed => true
    case Idle => true
    case Stopping => true
    case Cut => true
    case Erred => true
    case Asking(_, owed) => !owed && t.partial.None? && t.announced.None?
    case Answering(reply, due, _, cut) => (due == multiset{} && Calls(reply.content) != []) || cut
    case _ => false
  }

  function Step(t: Track, e: AgentEvent): Option<Track> {
    match e
    case AgentStart => if t.phase.Unstarted? then Some(t.(phase := Ready)) else None
    case HookRan(point, _) =>
      if point.PreSession? then (if t.phase.Ready? then Some(t) else None)
      else if t.phase.Answering? && (point.StopPoint? <==> Calls(t.phase.reply.content) == []) then Some(Handle(t))
      else None
    case SteeringInjected(batch) =>
      if t.phase.Ready? && batch != []
      then Some(t.(phase := Steered, messages := t.messages + batch)) else None
    case TurnStart(index) => StartTurn(t, index)
    case ContextCompacted(before, compacted) =>
      if t.phase.Asking? && t.phase.opening && before == |t.messages|
      then Some(t.(phase := Asking(false, false), messages := compacted)) else None
    case NetworkWait(_, _) =>
      if t.phase.Asking? && !t.phase.owed && Quiet(t)
      then Some(t.(phase := Asking(false, false), waiting := true, waits := t.waits + 1)) else None
    case NetworkRestored =>
      if t.phase.Asking? && t.waiting then Some(t.(waiting := false)) else None
    case MessageStart(m) =>
      if t.phase.Asking? && !t.phase.owed && !t.waiting && t.partial.None? && t.announced.None?
      then Some(t.(phase := Asking(false, false), announced := Some(m))) else None
    case Streamed(event) => Stream(t, event)
    case PartialDiscarded(_) =>
      if t.phase.Asking? && !t.phase.owed && !t.waiting && t.announced.None?
      then Some(t.(phase := Asking(false, false), partial := None, done := None)) else None
    case MessageEnd(m) => EndReply(t, m)
    case ToolExecStart(call) => Announce(t, Ref(call.id, call.name))
    case ToolExecEnd(id, name, result) => Answer(t, Ref(id, name), result)
    case TurnEnd(index, m) => EndTurn(t, index, m)
    case MaxTurnsReached(limit) =>
      if t.phase.Spent? && limit == t.limit then Some(t.(phase := Stopping)) else None
    case FollowUpInjected(batch) =>
      if t.phase.Idle? && batch != []
      then Some(t.(phase := Resumed, messages := t.messages + batch, followUps := t.followUps + 1)) else None
    case ErrorEvent(_) =>
      if t.phase.Failed? || (t.phase.Asking? && !t.waiting && t.announced.None?)
      then Some(t.(phase := Erred)) else None
    case AgentEnd => if MayEnd(t) then Some(t.(phase := Ended)) else None
    case ToolOutput(_, _, _) => None
  }

  /** The events that carry messages; every other event leaves the conversation alone, and only ends
      the answering of a reply once nothing is due or the run is over. */
  predicate Carries(e: AgentEvent) {
    e.MessageEnd? || e.ToolExecEnd? || e.SteeringInjected? || e.FollowUpInjected? || e.ContextCompacted?
  }

  lemma QuietStep(t: Track, e: AgentEvent)
    requires Step(t, e).Some? && !Carries(e)
    ensures var u := Step(t, e).value;
            && u.messages == t.messages
            && (u.phase.Answering? ==>
                  t.phase.Answering? && u.phase.reply == t.phase.reply && u.phase.due == t.phase.due)
            && (t.phase.Answering? ==>
                  || u.phase.Answering?
                  || u.phase.Ended?
                  || (t.phase.due == multiset{} && (u.phase.Idle? || u.phase.Ready? || u.phase.Spent?)))
  {
  }

  /** How an ending reply leaves the phase. */
  predicate Closes(m: Assistant, phase: Phase) {
    match phase
    case Answering(reply, due, announced, cut) =>
      && reply == m && due == Owed(Calls(m.content)) && announced == multiset{}
      && m.stop != Error && (cut ==> m.stop == Aborted)
    case Failed => m.stop == Error
    case Cut => m.stop == Aborted
    case _ => false
  }

  lemma ReplyCloses(t: Track, m: Assistant)
    requires Step(t, MessageEnd(m)).Some?
    ensures t.phase.Asking?
    ensures var u := Step(t, MessageEnd(m)).value; Closes(m, u.phase) && u.messages == t.messages + [Reply(m)]
  {
  }

  /** Where a whole trace leads, if the protocol accepts it. */
  function Run(start: Track, es: seq<AgentEvent>): Option<Track> {
    if es == [] then Some(start)
    else
      var t := Run(start, es[..|es| - 1]);
      if t.None? then None else Step(t.value, es[|es| - 1])
  }

  predicate Accepted(limit: nat, initial: seq<Message>, es: seq<AgentEvent>) {
    Run(Begin(limit, initial), es).Some?
  }

  predicate Complete(limit: nat, initial: seq<Message>, es: seq<AgentEvent>) {
    Accepted(limit, initial, es) && Run(Begin(limit, initial), es).value.phase.Ended?
  }

  lemma RunSnoc(start: Track, es: seq<AgentEvent>, e: AgentEvent)
    requires Run(start, es).Some?
    ensures Run(start, es + [e]) == Step(Run(start, es).value, e)
  {
    assert (es + [e])[..|es|] == es;
  }

  lemma {:induction false} PrefixAccepted(start: Track, es: seq<AgentEvent>, k: nat)
    requires k <= |es| && Run(start, es).Some?
    ensures Run(start, es[..k]).Some?
    decreases |es|
  {
    if k == |es| {
      assert es[..k] == es;
    } else {
      var init := es[..|es| - 1];
      PrefixAccepted(start, init, k);
      assert init[..k] == es[..k];
    }
  }
}
