/** A headless run: the loop's events are folded into the session, which is saved whenever the
    transcript committed to it, on a signal, and at the end. */
module Headless {
  import opened Types
  import opened Protocol
  import opened Pairing
  import opened Transcript
  import Grammar

  /** The saved session file; `history` is everything it ever held. */
  class SessionFile {
    var history: seq<seq<Message>>

    constructor ()
      ensures history == []
    {
      history := [];
    }

    method Save(conversation: seq<Message>)
      modifies this
      ensures history == old(history) + [conversation]
    {
      history := history + [conversation];
    }

    function Stored(): seq<Message>
      requires history != []
      reads this
    {
      history[|history| - 1]
    }
  }

  /** The shutdown signal, and the deadline that runs from it. */
  class Shutdown {
    var signalled: bool
    ghost var expired: bool

    constructor ()
      ensures !signalled && !expired
    {
      signalled, expired := false, false;
    }

    method Arrives() returns (now: bool)
      modifies this`signalled
      ensures now ==> !old(signalled) && signalled
      ensures !now ==> signalled == old(signalled)
    {
      now := *;
      now := now && !signalled;
      if now {
        signalled := true;
      }
    }

    /** The deadline can pass only once a signal came. */
    method Expires() returns (late: bool)
      modifies this`expired
      ensures late ==> signalled
      ensures expired == (old(expired) || late)
    {
      late := *;
      late := late && signalled;
      expired := expired || late;
    }
  }

  /** How many of these events committed to the session. */
  function Commits(l: Ledger, es: seq<AgentEvent>): nat
    decreases |es|
  {
    if es == [] then 0
    else
      var init := es[..|es| - 1];
      Commits(l, init) + if ApplyEvent(Fold(l, init), es[|es| - 1]).session != Fold(l, init).session then 1 else 0
  }

  /** The last error reported. */
  function LastError(es: seq<AgentEvent>): Option<string>
    decreases |es|
  {
    if es == [] then None
    else if es[|es| - 1].ErrorEvent? then Some(es[|es| - 1].error)
    else LastError(es[..|es| - 1])
  }

  datatype Exit = Completed | Cancelled | Faulted(error: string) | Incomplete

  /** A session changes only when the transcript asks for a save. */
  lemma OnlySavesChange(l: Ledger, e: AgentEvent)
    ensures ApplyEvent(l, e).session != l.session <==> Saves(l, e)
  {
    var h := Held(l, e);
    assert Saves(l, e) ==> |h.session + h.pending| > |l.session|;
  }

  predicate HasError(es: seq<AgentEvent>) {
    exists k | 0 <= k < |es| :: es[k].ErrorEvent?
  }

  lemma HasErrorSnoc(es: seq<AgentEvent>, i: nat)
    requires i < |es|
    ensures HasError(es[..i + 1]) <==> HasError(es[..i]) || es[i].ErrorEvent?
  {
    assert forall k | 0 <= k < i :: es[..i + 1][k] == es[..i][k];
    assert es[..i + 1][i] == es[i];
  }

  /** Follows a whole run, stopping early only after a signal.  Every version of the session ever
      saved is well paired, and the last one holds what the transcript committed.  Unsignalled, the
      run is seen to its end, is never incomplete, fails exactly if it reported an error, and leaves
      the loop's own conversation on disk exactly when every tool result answered a tidy reply and no
      steering batch repeated the follow-up before it. */
  method PrintMode(limit: nat, initial: seq<Message>, events: seq<AgentEvent>, file: SessionFile, shutdown: Shutdown)
    returns (exit: Exit, ghost seen: nat)
    requires Complete(limit, initial, events) && Uncompacted(events)
    requires WellPaired(initial) && AllNeat(events) && file.history == []
    requires !shutdown.signalled && !shutdown.expired
    modifies file, shutdown
    ensures exit.Cancelled? <==> shutdown.signalled
    ensures seen < |events| ==> shutdown.expired && shutdown.signalled
    ensures exit.Faulted? ==> LastError(events) == Some(exit.error)
    ensures forall c <- file.history :: WellPaired(c)
    ensures seen <= |events| && file.history != [] && file.Stored() == Fold(Opened(initial), events[..seen]).session
    ensures |file.history| == Commits(Opened(initial), events[..seen]) + 2 + if shutdown.signalled then 1 else 0
    ensures !exit.Cancelled? ==>
              && seen == |events| && (exit.Faulted? <==> HasError(events)) && (exit.Completed? <==> !HasError(events))
              && (file.Stored() == Run(Begin(limit, initial), events).value.messages <==>
                    AllAnswersTidy(events) && NoEchoes(events))
  {
    hide Step, ApplyEvent, Run, AllAnswersTidy, NoEchoes, WellPaired;
    var session := new Session(initial);
    var transcript := new Transcript();
    var ended := false;
    var failure: Option<string> := None;
    file.Save(session.conversation);
    var i := 0;
    while true
      invariant fresh(session) && fresh(transcript)
      invariant i <= |events|
      invariant transcript.Value(session) == Fold(Opened(initial), events[..i])
      invariant file.history != [] && file.Stored() == session.conversation
      invariant forall c <- file.history :: WellPaired(c)
      invariant ended <==> i > 0 && i == |events|
      invariant failure.Some? <==> HasError(events[..i])
      invariant failure == LastError(events[..i])
      invariant |file.history| == Commits(Opened(initial), events[..i]) + 1 + if shutdown.signalled then 1 else 0
      decreases |events| - i, !shutdown.signalled
    {
      SessionIsResumable(limit, initial, events, i);
      var signal := shutdown.Arrives();
      if signal {
        file.Save(session.conversation);
        continue;
      }
      var late := shutdown.Expires();
      if i == |events| || late {
        break;
      }
      SessionIsResumable(limit, initial, events, i + 1);
      assert events[..i + 1][..i] == events[..i];
      HasErrorSnoc(events, i);
      Grammar.CompleteEnds(limit, initial, events);
      OnlySavesChange(transcript.Value(session), events[i]);
      var saved := transcript.Apply(session, events[i]);
      if saved {
        file.Save(session.conversation);
      }
      if events[i].AgentEnd? {
        ended := true;
      } else if events[i].ErrorEvent? {
        failure := Some(events[i].error);
      }
      i := i + 1;
    }
    seen := i;
    file.Save(session.conversation);
    if shutdown.signalled {
      return Cancelled, i;
    }
    assert events[..i] == events;
    Grammar.CompleteEnds(limit, initial, events);
    EndedIsComplete(limit, initial, events);
    var end, held := Run(Begin(limit, initial), events).value, Fold(Opened(initial), events);
    SessionIsConversation(limit, initial, events, end, held);
    if failure.Some? {
      return Faulted(failure.value), i;
    }
    var complete := transcript.IsComplete();
    exit := if ended && complete then Completed else Incomplete;
  }
}
