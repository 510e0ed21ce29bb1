/** The vocabulary shared by the agent loop and its consumers: messages, stream events and
    agent events.  Timestamps, token usage and the provider identity are folded into an
    uninterpreted `meta` string; JSON values are kept as text. */
module Types {

  datatype Option<+T> = None | Some(value: T) {
    function Or(other: Option<T>): Option<T> {
      if Some? then this else other
    }

    function GetOr(default: T): T {
      if Some? then value else default
    }
  }

  datatype StopReason = Stop | Length | ToolUse | Error | Aborted

  datatype ToolCall = ToolCall(id: string, name: string, arguments: string)

  datatype Part =
    | Text(text: string)
    | Thinking(thinking: string, signature: Option<string>)
    | RedactedThinking(data: string)
    | Call(call: ToolCall)
    | ServerPart(data: string)

  datatype Assistant = Assistant(content: seq<Part>, meta: string, stop: StopReason, error: Option<string>) {
    predicate Replayable() {
      stop != Error && stop != Aborted
    }
  }

  /** The tool calls of a message, in content order. */
  function Calls(content: seq<Part>): (calls: seq<ToolCall>) {
    if content == [] then []
    else (if content[0].Call? then [content[0].call] else []) + Calls(content[1..])
  }

  function Ids(calls: seq<ToolCall>): set<string> {
    set call <- calls :: call.id
  }

  datatype Outcome = Success | Failure

  datatype ToolResult = ToolResult(content: seq<string>, outcome: Outcome)

  function ErrorResult(text: string): ToolResult {
    ToolResult([text], Failure)
  }

  datatype Message =
    | User(text: string)
    | Notice(text: string)
    | Reply(assistant: Assistant)
    | Result(id: string, name: string, result: ToolResult)

  datatype StreamEvent =
    | Start(start: Assistant)
    | TextStart(index: nat)
    | TextDelta(index: nat, delta: string)
    | TextEnd(index: nat, text: string)
    | ThinkingStart(index: nat)
    | ThinkingDelta(index: nat, delta: string)
    | ThinkingEnd(index: nat, text: string)
    | ToolCallStart(index: nat)
    | ToolCallDelta(index: nat, delta: string)
    | ToolCallEnd(index: nat, call: ToolCall)
    | Done(message: Assistant)
    | StreamError(message: Assistant)

  datatype HookPoint = PreSession | PreToolUse | PostToolUse | StopPoint

  datatype HookResult = HookResult(success: bool, output: string, command: string, blocking: bool)

  datatype AgentEvent =
    | AgentStart
    | TurnStart(turnIndex: nat)
    | MessageStart(message: Assistant)
    | Streamed(event: StreamEvent)
    | MessageEnd(message: Assistant)
    | PartialDiscarded(error: string)
    | NetworkWait(error: string, retryInMs: nat)
    | NetworkRestored
    | ToolExecStart(call: ToolCall)
    | ToolOutput(id: string, name: string, output: string)
    | ToolExecEnd(id: string, name: string, result: ToolResult)
    | SteeringInjected(messages: seq<Message>)
    | FollowUpInjected(messages: seq<Message>)
    | HookRan(point: HookPoint, hook: HookResult)
    | ContextCompacted(beforeCount: nat, compacted: seq<Message>)
    | TurnEnd(turnIndex: nat, message: Assistant)
    | MaxTurnsReached(maxTurns: nat)
    | AgentEnd
    | ErrorEvent(error: string)
}
