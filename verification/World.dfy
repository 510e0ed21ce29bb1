/** Everything outside the agent loop: the provider, the hooks, the tools and the cancel token.
    Every answer is arbitrary.  Two budgets make a run finite: how often the network is still lost,
    and how many non-empty follow-ups are still to come. */
module World {
  import opened Types

  datatype ErrorKind = Unreachable | Transient | Refusal | Permanent

  /** The run's configuration; the error classifiers stay abstract. */
  datatype Config = Config(
    maxTurns: nat,
    kind: string -> ErrorKind,
    overflows: string -> bool,
    pathArgument: string -> Option<string>,
    feedback: (HookPoint, seq<HookResult>) -> Option<string>,
    redact: string -> string)

  const STREAM_ENDED_EARLY := "stream ended without a final message"

  datatype Response =
    | Offline(message: string, cause: string)
    | Rejected(message: string, retryable: bool, retryAfter: Option<real>)
    | Replying(script: seq<StreamEvent>)

  datatype Pressure = Normal | Overflowed

  datatype Transformed = Unchanged | Compacted(messages: seq<Message>)

  /** A call of the context transform: what it was given and what it gave back. */
  datatype Transforming = Transforming(messages: seq<Message>, pressure: Pressure, answer: Transformed)

  /** A run of lifecycle hooks: at which point, and for which tool. */
  datatype HookCall = HookCall(point: HookPoint, tool: Option<string>)

  datatype Confirmation = Allow | Deny | DenyWithReason(reason: string)

  function ErrorText(m: Assistant): string {
    m.error.GetOr("unknown error")
  }

  predicate LostNetwork(config: Config, error: string) {
    config.kind(error) == Unreachable
  }

  /** The reply can end because the network went away. */
  predicate LosesMidReply(config: Config, script: seq<StreamEvent>) {
    || (exists i | 0 <= i < |script| ::
          || (script[i].StreamError? && LostNetwork(config, ErrorText(script[i].message)))
          || (script[i].Done? && script[i].message.stop == Error
              && script[i].message.error.Some? && LostNetwork(config, script[i].message.error.value)))
    || ((forall i | 0 <= i < |script| :: !script[i].Done?) && LostNetwork(config, STREAM_ENDED_EARLY))
  }

  predicate Loses(config: Config, r: Response) {
    r.Offline? || (r.Replying? && LosesMidReply(config, r.script))
  }

  class World<F> {
    var cancelled: bool
    var losses: nat
    var followUps: nat

    /** The files the tools work on. */
    var files: map<string, F>

    /** How often something was raced against the token. */
    ghost var races: nat

    /** The sleeps slept to their end, and the histories the provider was asked with. */
    ghost var naps: seq<real>
    ghost var asked: seq<seq<Message>>

    /** The steering batches and the follow-ups fetched, and the contexts transformed. */
    ghost var fetched: seq<seq<Message>>
    ghost var resumed: seq<seq<Message>>
    ghost var transformed: seq<Transforming>

    /** The calls put up for confirmation and the verdicts given, the runs of lifecycle hooks and what each
        returned. */
    ghost var confirmed: seq<ToolCall>
    ghost var verdicts: seq<Confirmation>
    ghost var hookCalls: seq<HookCall>
    ghost var hookRuns: seq<seq<HookResult>>

    constructor (losses: nat, followUps: nat, files: map<string, F>)
      ensures this.losses == losses && this.followUps == followUps && this.files == files && !cancelled
    {
      this.losses, this.followUps, this.files, cancelled := losses, followUps, files, false;
      naps, asked, fetched, resumed, transformed := [], [], [], [], [];
      confirmed, verdicts, hookCalls, hookRuns := [], [], [], [];
    }

    /** `is_cancelled`: once cancelled, always cancelled. */
    method IsCancelled() returns (yes: bool)
      modifies this`cancelled
      ensures yes == cancelled && (old(cancelled) ==> cancelled)
    {
      if * {
        cancelled := true;
      }
      yes := cancelled;
    }

    /** A `select!` against the token: the token may win only if it was cancelled. */
    method Interrupts() returns (yes: bool)
      modifies this`cancelled, this`races
      ensures (yes ==> cancelled) && (old(cancelled) ==> cancelled) && races == old(races) + 1
    {
      races := races + 1;
      yes := *;
      if yes {
        cancelled := true;
      }
    }

    /** A sleep against the token. */
    method Sleep(delay: real) returns (interrupted: bool)
      modifies this`cancelled, this`races, this`naps
      ensures (interrupted ==> cancelled) && (old(cancelled) ==> cancelled)
      ensures races == old(races) + 1
      ensures naps == if interrupted then old(naps) else old(naps) + [delay]
    {
      interrupted := Interrupts();
      if !interrupted {
        naps := naps + [delay];
      }
    }

    method Steering() returns (batch: seq<Message>)
      modifies this`fetched
      ensures fetched == old(fetched) + [batch]
    {
      batch := *;
      fetched := fetched + [batch];
    }

    method FollowUp() returns (batch: seq<Message>)
      modifies this`followUps, this`resumed
      ensures resumed == old(resumed) + [batch]
      ensures batch != [] ==> old(followUps) > 0 && followUps == old(followUps) - 1
      ensures batch == [] ==> followUps == old(followUps)
    {
      batch := *;
      if followUps == 0 {
        batch := [];
      }
      if batch != [] {
        followUps := followUps - 1;
      }
      resumed := resumed + [batch];
    }

    method TransformContext(messages: seq<Message>, pressure: Pressure) returns (t: Transformed)
      modifies this`transformed
      ensures transformed == old(transformed) + [Transforming(messages, pressure, t)]
    {
      t := *;
      transformed := transformed + [Transforming(messages, pressure, t)];
    }

    /** A request to the provider, raced against the token. */
    method Respond(config: Config, history: seq<Message>) returns (response: Option<Response>)
      modifies this`cancelled, this`races, this`losses, this`asked
      ensures races == old(races) + 1
      ensures asked == old(asked) + [history]
      ensures (response.None? ==> cancelled) && (old(cancelled) ==> cancelled)
      ensures losses == old(losses) - (if response.Some? && Loses(config, response.value) then 1 else 0)
      ensures response.Some? && response.value.Rejected? && response.value.retryAfter.Some? ==>
                response.value.retryAfter.value >= 0.0
    {
      asked := asked + [history];
      var interrupted := Interrupts();
      if interrupted {
        return None;
      }
      var r: Response := *;
      if (losses == 0 && Loses(config, r)) || (r.Rejected? && r.retryAfter.Some? && r.retryAfter.value < 0.0) {
        r := Rejected("", false, None);
      }
      if Loses(config, r) {
        losses := losses - 1;
      }
      response := Some(r);
    }

    method Confirm(call: ToolCall) returns (c: Confirmation)
      modifies this`confirmed, this`verdicts
      ensures confirmed == old(confirmed) + [call] && verdicts == old(verdicts) + [c]
    {
      c := *;
      confirmed := confirmed + [call];
      verdicts := verdicts + [c];
    }

    method RunHooks(point: HookPoint, tool: Option<string>) returns (results: seq<HookResult>)
      modifies this`hookCalls, this`hookRuns
      ensures hookCalls == old(hookCalls) + [HookCall(point, tool)] && hookRuns == old(hookRuns) + [results]
    {
      results := *;
      hookCalls := hookCalls + [HookCall(point, tool)];
      hookRuns := hookRuns + [results];
    }

    /** Tool calls were dropped while they ran; how far they got is open. */
    method AbandonTools()
      modifies this`files
    {
      files := *;
    }

    /** Text attached to a result after its tool ran: matching rules and diagnostics. */
    method Attachments(call: ToolCall) returns (texts: seq<string>) {
      texts := *;
    }
  }
}
