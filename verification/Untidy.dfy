/** Replies outside the provider's part of the bargain, and what each breaks: concrete runs for the
    conditions the theorems about tidy replies need. */
module Untidy {
  import opened Types
  import opened Protocol
  import opened Pairing
  import opened Grammar
  import Transcript
  import JsonEvents

  const READ := ToolCall("a", "read", "{}")

  /** Calls the same id twice. */
  const TWICE := Assistant([Call(READ), Call(READ)], "", ToolUse, None)

  /** Calls a tool and yet ends as aborted. */
  const ABORTED := Assistant([Call(READ)], "", Aborted, None)

  function Streaming(m: Assistant): seq<AgentEvent> {
    [AgentStart] + [TurnStart(0)] + [MessageStart(m)] + [Streamed(Start(m))] + [Streamed(Done(m))]
  }

  function Opening(m: Assistant): seq<AgentEvent> {
    Streaming(m) + [MessageEnd(m)]
  }

  lemma Next(start: Track, es: seq<AgentEvent>, t: Track, e: AgentEvent) returns (u: Track)
    requires Run(start, es) == Some(t) && Step(t, e).Some?
    ensures u == Step(t, e).value && Run(start, es + [e]) == Some(u)
  {
    RunSnoc(start, es, e);
    u := Step(t, e).value;
  }

  /** Any reply that did not fail can be the first one of a run. */
  lemma OpeningRuns(m: Assistant) returns (t: Track)
    requires m.stop != Error
    ensures Run(Begin(2, []), Opening(m)) == Some(t)
    ensures t.limit == 2 && t.turns == 0 && t.messages == [Reply(m)]
    ensures t.phase.Answering? && t.phase.reply == m && t.phase.due == Owed(Calls(m.content))
    ensures t.phase.announced == multiset{}
  {
    var s := Begin(2, []);
    t := Next(s, [], s, AgentStart);
    assert [] + [AgentStart] == [AgentStart];
    t := Next(s, [AgentStart], t, TurnStart(0));
    t := Next(s, [AgentStart] + [TurnStart(0)], t, MessageStart(m));
    t := Next(s, [AgentStart] + [TurnStart(0)] + [MessageStart(m)], t, Streamed(Start(m)));
    t := Next(s, [AgentStart] + [TurnStart(0)] + [MessageStart(m)] + [Streamed(Start(m))], t, Streamed(Done(m)));
    t := Next(s, Streaming(m), t, MessageEnd(m));
  }

  const STARTED := ToolExecStart(READ)

  const RESULT := ToolExecEnd("a", "read", ToolResult(["text"], Success))

  const R := Ref("a", "read")

  lemma OwedTwice()
    ensures Calls(TWICE.content) == [READ, READ] && Owed([READ, READ]) == multiset{Ref("a", "read"), Ref("a", "read")}
  {
    assert TWICE.content[1..] == [Call(READ)] && [Call(READ)][1..] == [];
    assert Calls([Call(READ)]) == [READ];
    assert [READ, READ][1..] == [READ] && [READ][1..] == [];
    assert Owed([READ]) == multiset{Ref("a", "read")};
  }

  lemma OwedOnce()
    ensures Calls(ABORTED.content) == [READ] && Owed([READ]) == multiset{Ref("a", "read")}
  {
    assert ABORTED.content[1..] == [] && [READ][1..] == [];
  }

  /** The reply's calls are announced, run and reported, and its turn ends. */
  function Answered(m: Assistant, calls: seq<AgentEvent>): seq<AgentEvent> {
    Opening(m) + calls + [TurnEnd(0, m)]
  }

  lemma StartRuns(es: seq<AgentEvent>, t: Track) returns (u: Track)
    requires Run(Begin(2, []), es) == Some(t) && t.phase.Answering? && R in t.phase.due - t.phase.announced
    ensures Run(Begin(2, []), es + [STARTED]) == Some(u) && u.limit == t.limit && u.turns == t.turns
    ensures u.phase == Answering(t.phase.reply, t.phase.due, t.phase.announced + multiset{R}, false)
  {
    u := Next(Begin(2, []), es, t, STARTED);
  }

  /** One of the announced calls is answered. */
  lemma ResultRuns(es: seq<AgentEvent>, t: Track) returns (u: Track)
    requires Run(Begin(2, []), es) == Some(t) && t.phase.Answering? && R in t.phase.due && R in t.phase.announced
    ensures Run(Begin(2, []), es + [RESULT]) == Some(u) && u.limit == t.limit && u.turns == t.turns
    ensures u.phase == Answering(t.phase.reply, t.phase.due - multiset{R}, t.phase.announced - multiset{R}, false)
  {
    u := Next(Begin(2, []), es, t, RESULT);
  }

  lemma CloseRuns(es: seq<AgentEvent>, t: Track, m: Assistant) returns (u: Track)
    requires Run(Begin(2, []), es) == Some(t) && t.phase.Answering? && t.phase.reply == m
    requires t.phase.due == multiset{} && Calls(m.content) != [] && t.limit == 2 && t.turns == 0
    ensures Run(Begin(2, []), es + [TurnEnd(0, m)]) == Some(u) && u.phase.Ready? && u.turns == 1 && u.limit == 2
  {
    u := Next(Begin(2, []), es, t, TurnEnd(0, m));
  }

  lemma StartTwice(es: seq<AgentEvent>, t: Track) returns (u: Track)
    requires Run(Begin(2, []), es) == Some(t) && t.phase.Answering?
    requires t.phase.due == multiset{R, R} && t.phase.announced == multiset{}
    ensures Run(Begin(2, []), es + [STARTED, STARTED]) == Some(u) && u.limit == t.limit && u.turns == t.turns
    ensures u.phase == Answering(t.phase.reply, multiset{R, R}, multiset{R, R}, false)
  {
    hide Step;
    u := StartRuns(es, t);
    u := StartRuns(es + [STARTED], u);
    assert es + [STARTED] + [STARTED] == es + [STARTED, STARTED];
  }

  lemma ResultTwice(es: seq<AgentEvent>, t: Track) returns (u: Track)
    requires Run(Begin(2, []), es) == Some(t) && t.phase.Answering?
    requires t.phase.due == multiset{R, R} && t.phase.announced == multiset{R, R}
    ensures Run(Begin(2, []), es + [RESULT, RESULT]) == Some(u) && u.limit == t.limit && u.turns == t.turns
    ensures u.phase == Answering(t.phase.reply, multiset{}, multiset{}, false)
  {
    hide Step;
    u := ResultRuns(es, t);
    u := ResultRuns(es + [RESULT], u);
    assert es + [RESULT] + [RESULT] == es + [RESULT, RESULT];
  }

  lemma TwiceRuns() returns (t: Track)
    ensures Run(Begin(2, []), Answered(TWICE, [STARTED, STARTED, RESULT, RESULT])) == Some(t)
    ensures t.phase.Ready? && t.turns == 1
  {
    hide Step, Opening;
    var es := Opening(TWICE);
    t := OpeningRuns(TWICE);
    OwedTwice();
    t := StartTwice(es, t);
    t := ResultTwice(es + [STARTED, STARTED], t);
    assert es + [STARTED, STARTED] + [RESULT, RESULT] == es + [STARTED, STARTED, RESULT, RESULT];
    t := CloseRuns(es + [STARTED, STARTED, RESULT, RESULT], t, TWICE);
  }

  lemma OpeningIsNeat(m: Assistant, k: nat)
    requires k < 6
    ensures Neat(Opening(m)[k]) && !Opening(m)[k].ContextCompacted?
    ensures Opening(m)[5] == MessageEnd(m)
  {
    assert Streaming(m) == [AgentStart, TurnStart(0), MessageStart(m), Streamed(Start(m)), Streamed(Done(m))];
  }

  lemma AnsweredIsNeat(m: Assistant, calls: seq<AgentEvent>)
    requires forall e <- calls :: e == RESULT || e == STARTED
    ensures AllNeat(Answered(m, calls)) && Uncompacted(Answered(m, calls))
    ensures Answered(m, calls)[5] == MessageEnd(m)
  {
    var es := Answered(m, calls);
    OpeningIsNeat(m, 5);
    forall k | 0 <= k < |es| ensures Neat(es[k]) && !es[k].ContextCompacted? {
      if k < 6 {
        OpeningIsNeat(m, k);
        assert es[k] == Opening(m)[k];
      } else if k < 6 + |calls| {
        assert es[k] == calls[k - 6] && calls[k - 6] in calls;
      } else {
        assert es[k] == TurnEnd(0, m);
      }
    }
  }

  /** A reply that repeats a call id: both calls are answered, and the history sent with the next
      request is no longer well paired. */
  lemma RepeatedIdsUnpair() returns (es: seq<AgentEvent>)
    ensures Accepted(2, [], es) && AllNeat(es) && Uncompacted(es)
    ensures var t := Run(Begin(2, []), es).value; t.phase.Ready? && t.turns == 1 && !WellPaired(t.messages)
    ensures Transcript.DropsAny(Transcript.Opened([]), es)
  {
    hide Step, Due, AllNeat, Uncompacted;
    var calls := [STARTED, STARTED, RESULT, RESULT];
    es := Answered(TWICE, calls);
    var t := TwiceRuns();
    AnsweredIsNeat(TWICE, calls);
    UnpairedSince(es, t, |Streaming(TWICE)|);
    var once := Opening(TWICE) + [STARTED, STARTED] + [RESULT];
    SecondIsDropped(once);
    assert es[..9] == once && es[9] == RESULT;
  }

  lemma UnpairedSince(es: seq<AgentEvent>, t: Track, k: nat)
    requires Run(Begin(2, []), es) == Some(t) && t.phase.Ready? && AllNeat(es) && Uncompacted(es)
    requires k < |es| && es[k] == MessageEnd(TWICE)
    ensures !WellPaired(t.messages)
  {
    hide Step, AllNeat, Uncompacted, Since, Base, Run;
    TwiceIsUntidy();
    NeatRuns([], es);
    SinceTheStart([], es);
    PairedIffTidy(2, [], es);
  }

  lemma TwiceIsUntidy()
    ensures !Tidy(TWICE)
  {
    OwedTwice();
    assert READ.id in Ids([READ, READ][1..]);
  }

  lemma FoldSnoc(l: Transcript.Ledger, es: seq<AgentEvent>, e: AgentEvent)
    ensures Transcript.Fold(l, es + [e]) == Transcript.ApplyEvent(Transcript.Fold(l, es), e)
  {
    assert (es + [e])[..|es|] == es;
  }

  lemma AwaitsOnce()
    ensures var l := Transcript.Fold(Transcript.Opened([]), Opening(TWICE));
            l.awaiting == {"a"} && l.pending != []
  {
    var l := Transcript.Opened([]);
    var before := Streaming(TWICE);
    QuietFold(l, before);
    FoldSnoc(l, before, MessageEnd(TWICE));
    OwedTwice();
    assert Ids([READ, READ]) == {"a"};
  }

  lemma SecondIsDropped(once: seq<AgentEvent>)
    requires once == Opening(TWICE) + [STARTED, STARTED] + [RESULT]
    ensures Transcript.Drops(Transcript.Fold(Transcript.Opened([]), once), RESULT)
  {
    hide Opening, Transcript.Fold;
    var l := Transcript.Opened([]);
    AwaitsOnce();
    StartsFold(l, Opening(TWICE));
    FoldSnoc(l, Opening(TWICE) + [STARTED, STARTED], RESULT);
  }

  lemma StartsFold(l: Transcript.Ledger, es: seq<AgentEvent>)
    ensures Transcript.Fold(l, es + [STARTED, STARTED]) == Transcript.Fold(l, es)
  {
    FoldSnoc(l, es, STARTED);
    FoldSnoc(l, es + [STARTED], STARTED);
    assert es + [STARTED] + [STARTED] == es + [STARTED, STARTED];
  }

  lemma {:induction false} QuietFold(l: Transcript.Ledger, es: seq<AgentEvent>)
    requires forall k | 0 <= k < |es| :: !Carries(es[k])
    ensures Transcript.Fold(l, es) == l
    decreases |es|
  {
    if es != [] {
      QuietFold(l, es[..|es| - 1]);
    }
  }

  lemma AbortedRuns() returns (t: Track)
    ensures Run(Begin(2, []), Answered(ABORTED, [STARTED, RESULT])) == Some(t)
    ensures t.phase.Ready? && t.turns == 1 && t.limit == 2
  {
    var es := Opening(ABORTED);
    t := OpeningRuns(ABORTED);
    OwedOnce();
    t := StartRuns(es, t);
    t := ResultRuns(es + [STARTED], t);
    assert es + [STARTED] + [RESULT] == es + [STARTED, RESULT];
    t := CloseRuns(es + [STARTED, RESULT], t, ABORTED);
  }

  /** A reply that calls a tool and ends as aborted: the tool runs, and its result is carried by the
      `turn_end` of a later turn. */
  lemma AbortedCallsLeak(model: string)
    ensures var es := Answered(ABORTED, [STARTED, RESULT]) + [TurnStart(1)];
            var (j, out) := JsonEvents.RenderAll(JsonEvents.Opened(model, None), es);
            && Accepted(2, [], es)
            && JsonEvents.ReadAll(JsonEvents.NOTHING_READ, out).Some?
            && JsonEvents.ReadAll(JsonEvents.NOTHING_READ, out).value.late != []
  {
    var ended := Answered(ABORTED, [STARTED, RESULT]);
    var t := AbortedRuns();
    t := Next(Begin(2, []), ended, t, TurnStart(1));
    LastReply(ABORTED);
    OwedOnce();
    JsonEvents.LeftoversComeFromAbortedReplies(model, None, 2, [], ended, 1);
  }

  lemma LastReply(m: Assistant)
    ensures LastEnded(Answered(m, [STARTED, RESULT])) == Some(m)
  {
    var es := Opening(m);
    LastSnoc(es, STARTED);
    LastSnoc(es + [STARTED], RESULT);
    LastSnoc(es + [STARTED] + [RESULT], TurnEnd(0, m));
    assert es + [STARTED] + [RESULT] + [TurnEnd(0, m)] == Answered(m, [STARTED, RESULT]);
    assert LastEnded(es) == Some(m);
  }

  lemma LastSnoc(es: seq<AgentEvent>, e: AgentEvent)
    requires !e.MessageEnd?
    ensures LastEnded(es + [e]) == LastEnded(es)
  {
    assert (es + [e])[..|es|] == es;
  }
}
