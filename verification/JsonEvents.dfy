/** The JSON event stream of a headless run: one list of output lines per agent event. */
module JsonEvents {
  import opened Types
  import opened Partials
  import opened Protocol
  import opened Pairing
  import opened Grammar

  /** An output line.  A message stands for its rendered JSON value. */
  datatype Line =
    | AgentStartLine
    | TurnStartLine
    | MessageStartLine(message: Message)
    | MessageUpdateLine(event: StreamEvent, snapshot: Assistant)
    | MessageEndLine(message: Message)
    | RetryStartLine(attempt: nat, error: string)
    | RetryEndLine(success: bool, attempt: nat, finalError: Option<string>)
    | ToolStartLine(call: ToolCall)
    | ToolUpdateLine(id: string, name: string, args: Option<string>, output: string)
    | ToolEndLine(id: string, name: string, result: ToolResult)
    | CompactionStartLine
    | CompactionEndLine
    | TurnEndLine(message: Message, toolResults: seq<Message>)
    | AgentEndLine(messages: seq<Message>)

  datatype Json = Json(
    model: string,
    prompt: Option<Message>,
    partial: Option<Partial>,
    toolArgs: map<string, string>,
    toolResults: seq<Message>,
    messages: seq<Message>,
    turnOpen: bool,
    retries: nat)

  function Opened(model: string, prompt: Option<Message>): Json {
    Json(model, prompt, None, map[], [], [], false, 0)
  }

  function Pushed(j: Json, m: Message): (Json, seq<Line>) {
    (j.(messages := j.messages + [m]), [MessageStartLine(m), MessageEndLine(m)])
  }

  function PushedAll(j: Json, batch: seq<Message>): (Json, seq<Line>)
    decreases |batch|
  {
    if batch == [] then (j, [])
    else
      var (j1, out1) := Pushed(j, batch[0]);
      var (j2, out2) := PushedAll(j1, batch[1..]);
      (j2, out1 + out2)
  }

  function TurnEnded(j: Json, m: Message): (Json, seq<Line>) {
    if !j.turnOpen then (j, []) else (j.(turnOpen := false, toolResults := []), [TurnEndLine(m, j.toolResults)])
  }

  function RetryFinished(j: Json, success: bool, error: Option<string>): (Json, seq<Line>) {
    if j.retries == 0 then (j, [])
    else (j.(retries := 0), [RetryEndLine(success, j.retries, if success then None else error)])
  }

  function Failure(j: Json, error: string): Assistant {
    Assistant([], j.model, Error, Some(error))
  }

  function Render(j: Json, e: AgentEvent): (Json, seq<Line>) {
    match e
    case AgentStart => (j, [AgentStartLine])
    case TurnStart(_) =>
      var begun := j.(turnOpen := true, prompt := None);
      if j.prompt.None? then (begun, [TurnStartLine])
      else
        var (pushed, out) := Pushed(begun, j.prompt.value);
        (pushed, [TurnStartLine] + out)
    case MessageStart(m) => (j.(partial := Some(NewPartial(m))), [MessageStartLine(Reply(m))])
    case Streamed(event) =>
      if j.partial.None? then (j, [])
      else
        var p := Partials.ApplyEvent(j.partial.value, event);
        (j.(partial := Some(p)), if Indexed(event) then [MessageUpdateLine(event, Snapshot(p))] else [])
    case PartialDiscarded(error) =>
      (j.(partial := None, retries := j.retries + 1), [RetryStartLine(j.retries + 1, error)])
    case MessageEnd(m) =>
      var (j1, out1) := RetryFinished(j.(partial := None), m.Replayable(), m.error);
      var j2 := j1.(messages := j1.messages + [Reply(m)]);
      if m.Replayable() then (j2, out1 + [MessageEndLine(Reply(m))])
      else
        var (j3, out3) := TurnEnded(j2, Reply(m));
        (j3, out1 + [MessageEndLine(Reply(m))] + out3)
    case ToolExecStart(call) => (j.(toolArgs := j.toolArgs[call.id := call.arguments]), [ToolStartLine(call)])
    case ToolOutput(id, name, output) =>
      (j, [ToolUpdateLine(id, name, if id in j.toolArgs then Some(j.toolArgs[id]) else None, output)])
    case ToolExecEnd(id, name, result) =>
      var m := Result(id, name, result);
      var (j1, out) := Pushed(j.(toolArgs := j.toolArgs - {id}), m);
      (j1.(toolResults := j1.toolResults + [m]), [ToolEndLine(id, name, result)] + out)
    case SteeringInjected(batch) => PushedAll(j, batch)
    case ContextCompacted(_, _) => (j, [CompactionStartLine, CompactionEndLine])
    case TurnEnd(_, m) => TurnEnded(j, Reply(m))
    case ErrorEvent(error) =>
      var (j1, out1) := RetryFinished(j, false, Some(error));
      if !j1.turnOpen then (j1, out1)
      else
        var m := Reply(Failure(j, error));
        var (j2, out2) := Pushed(j1, m);
        var (j3, out3) := TurnEnded(j2, m);
        (j3, out1 + out2 + out3)
    case AgentEnd => (j.(messages := []), [AgentEndLine(j.messages)])
    case _ => (j, [])
  }

  class JsonEvents {
    const model: string
    var prompt: Option<Message>
    var partial: PartialMessage?
    var toolArgs: map<string, string>
    var toolResults: seq<Message>
    var messages: seq<Message>
    var turnOpen: bool
    var retries: nat

    constructor (model: string, prompt: Option<Message>)
      ensures Value() == Opened(model, prompt) && partial == null
    {
      this.model, this.prompt, partial := model, prompt, null;
      toolArgs, toolResults, messages, turnOpen, retries := map[], [], [], false, 0;
    }

    function Value(): Json
      reads this, partial
    {
      Json(model, prompt, if partial == null then None else Some(partial.Value()),
           toolArgs, toolResults, messages, turnOpen, retries)
    }

    method Apply(e: AgentEvent) returns (out: seq<Line>)
      modifies this, partial
      ensures partial == null || partial == old(partial) || fresh(partial)
      ensures (Value(), out) == Render(old(Value()), e)
    {
      hide PushedAll, Pushed, TurnEnded, RetryFinished, Snapshot, Enumerate;
      out := [];
      match e {
        case AgentStart => out := [AgentStartLine];
        case TurnStart(_) => out := BeginTurn();
        case MessageStart(m) =>
          partial := new PartialMessage(m);
          out := [MessageStartLine(Reply(m))];
        case Streamed(event) =>
          if partial != null {
            out := Update(partial, event);
          }
        case PartialDiscarded(error) =>
          partial := null;
          retries := retries + 1;
          out := [RetryStartLine(retries, error)];
        case MessageEnd(m) =>
          out := EndMessage(m);
        case ToolExecStart(call) =>
          toolArgs := toolArgs[call.id := call.arguments];
          out := [ToolStartLine(call)];
        case ToolOutput(id, name, output) =>
          out := [ToolUpdateLine(id, name, if id in toolArgs then Some(toolArgs[id]) else None, output)];
        case ToolExecEnd(id, name, result) =>
          out := EndTool(id, name, result);
        case SteeringInjected(batch) => out := PushAll(batch);
        case ContextCompacted(_, _) => out := [CompactionStartLine, CompactionEndLine];
        case TurnEnd(_, m) => out := EndTurn(Reply(m));
        case ErrorEvent(error) =>
          out := Fail(error);
        case AgentEnd =>
          out := [AgentEndLine(messages)];
          messages := [];
        case _ =>
      }
    }

    method BeginTurn() returns (out: seq<Line>)
      modifies this`turnOpen, this`prompt, this`messages
      ensures forall index: nat :: (Value(), out) == Render(old(Value()), TurnStart(index))
    {
      turnOpen := true;
      out := [TurnStartLine];
      if prompt.Some? {
        var m := prompt.value;
        prompt := None;
        var pushed := PushMessage(m);
        out := out + pushed;
      }
    }

    method EndTool(id: string, name: string, result: ToolResult) returns (out: seq<Line>)
      modifies this`toolArgs, this`toolResults, this`messages
      ensures (Value(), out) == Render(old(Value()), ToolExecEnd(id, name, result))
    {
      toolArgs := toolArgs - {id};
      var pushed := PushMessage(Result(id, name, result));
      toolResults := toolResults + [Result(id, name, result)];
      out := [ToolEndLine(id, name, result)] + pushed;
    }

    method Update(partial: PartialMessage, event: StreamEvent) returns (out: seq<Line>)
      requires this.partial == partial
      modifies partial
      ensures (Value(), out) == Render(old(Value()), Streamed(event))
    {
      partial.Apply(event);
      var snapshot := partial.TakeSnapshot();
      out := if Indexed(event) then [MessageUpdateLine(event, snapshot)] else [];
    }

    method EndMessage(m: Assistant) returns (out: seq<Line>)
      modifies this
      ensures partial == null
      ensures (Value(), out) == Render(old(Value()), MessageEnd(m))
    {
      partial := null;
      out := FinishRetry(m.Replayable(), m.error);
      out := out + [MessageEndLine(Reply(m))];
      messages := messages + [Reply(m)];
      if !m.Replayable() {
        var ended := EndTurn(Reply(m));
        out := out + ended;
      }
    }

    method Fail(error: string) returns (out: seq<Line>)
      modifies this`turnOpen, this`toolResults, this`messages, this`retries
      ensures (Value(), out) == Render(old(Value()), ErrorEvent(error))
    {
      out := FinishRetry(false, Some(error));
      if turnOpen {
        var m := Reply(Assistant([], model, Error, Some(error)));
        var pushed := PushMessage(m);
        var ended := EndTurn(m);
        out := out + pushed + ended;
      }
    }

    method PushMessage(m: Message) returns (out: seq<Line>)
      modifies this`messages
      ensures (Value(), out) == Pushed(old(Value()), m)
    {
      out := [MessageStartLine(m), MessageEndLine(m)];
      messages := messages + [m];
    }

    method PushAll(batch: seq<Message>) returns (out: seq<Line>)
      modifies this`messages
      ensures (Value(), out) == PushedAll(old(Value()), batch)
    {
      out := [];
      ghost var start := Value();
      assert batch[0..] == batch && out + PushedAll(start, batch).1 == PushedAll(start, batch).1;
      for i := 0 to |batch|
        invariant var (j, rest) := PushedAll(Value(), batch[i..]);
                  (j, out + rest) == PushedAll(start, batch)
      {
        assert batch[i..][1..] == batch[i + 1..];
        ghost var (j, rest) := PushedAll(Pushed(Value(), batch[i]).0, batch[i + 1..]);
        var pushed := PushMessage(batch[i]);
        assert out + (pushed + rest) == out + pushed + rest;
        out := out + pushed;
      }
      assert out + [] == out;
    }

    method EndTurn(m: Message) returns (out: seq<Line>)
      modifies this`turnOpen, this`toolResults
      ensures (Value(), out) == TurnEnded(old(Value()), m)
    {
      if !turnOpen {
        return [];
      }
      out := [TurnEndLine(m, toolResults)];
      turnOpen, toolResults := false, [];
    }

    method FinishRetry(success: bool, error: Option<string>) returns (out: seq<Line>)
      modifies this`retries
      ensures (Value(), out) == RetryFinished(old(Value()), success, error)
    {
      if retries == 0 {
        return [];
      }
      out := [RetryEndLine(success, retries, if success then None else error)];
      retries := 0;
    }
  }

  // --- What a reader of the lines can rely on ----------------------------------------------------

  /** What a reader knows after some lines: whether a turn is open, the messages ended since the last
      `agent_end`, the tool results of the open turn and those reported before it but not yet
      carried, and the retries under way. */
  datatype View = View(open: bool, ended: seq<Message>, late: seq<Message>, own: seq<Message>, retries: nat)

  const NOTHING_READ := View(false, [], [], [], 0)

  /** A line is sound if it agrees with everything before it. */
  predicate Sound(v: View, line: Line) {
    match line
    case TurnEndLine(_, results) => v.open && results == v.late + v.own
    case AgentEndLine(messages) => messages == v.ended
    case RetryStartLine(attempt, _) => attempt == v.retries + 1
    case RetryEndLine(_, attempt, _) => attempt == v.retries && attempt > 0
    case _ => true
  }

  function Read(v: View, line: Line): View {
    match line
    case TurnStartLine => v.(open := true, late := v.late + v.own, own := [])
    case TurnEndLine(_, _) => v.(open := false, late := [], own := [])
    case MessageEndLine(m) => v.(ended := v.ended + [m])
    case ToolEndLine(id, name, result) => v.(own := v.own + [Result(id, name, result)])
    case RetryStartLine(_, _) => v.(retries := v.retries + 1)
    case RetryEndLine(_, _, _) => v.(retries := 0)
    case AgentEndLine(_) => v.(ended := [])
    case _ => v
  }

  /** Reads lines as long as they are sound. */
  function ReadAll(v: View, lines: seq<Line>): Option<View>
    decreases |lines|
  {
    if lines == [] then Some(v)
    else if !Sound(v, lines[0]) then None
    else ReadAll(Read(v, lines[0]), lines[1..])
  }

  lemma {:induction false} ReadAppend(v: View, a: seq<Line>, b: seq<Line>)
    requires ReadAll(v, a).Some?
    ensures ReadAll(v, a + b) == ReadAll(ReadAll(v, a).value, b)
    decreases |a|
  {
    if a == [] {
      assert a + b == b;
    } else {
      assert (a + b)[1..] == a[1..] + b;
      ReadAppend(Read(v, a[0]), a[1..], b);
    }
  }

  lemma ReadOne(v: View, line: Line)
    ensures ReadAll(v, [line]) == if Sound(v, line) then Some(Read(v, line)) else None
  {
    assert [line][1..] == [];
  }

  /** The reader's view is the consumer's own bookkeeping. */
  predicate Agrees(j: Json, v: View) {
    j.turnOpen == v.open && j.messages == v.ended && j.toolResults == v.late + v.own && j.retries == v.retries
  }

  /** These lines are sound, and after them the view still agrees. */
  predicate Keeps(v: View, lines: seq<Line>, j: Json) {
    ReadAll(v, lines).Some? && Agrees(j, ReadAll(v, lines).value)
  }

  lemma KeepsAppend(v: View, a: seq<Line>, mid: Json, b: seq<Line>, j: Json)
    requires Keeps(v, a, mid) && Keeps(ReadAll(v, a).value, b, j)
    ensures Keeps(v, a + b, j)
    ensures ReadAll(v, a + b) == ReadAll(ReadAll(v, a).value, b)
  {
    ReadAppend(v, a, b);
  }

  lemma PushedKeeps(j: Json, v: View, m: Message)
    requires Agrees(j, v)
    ensures Keeps(v, Pushed(j, m).1, Pushed(j, m).0)
    ensures ReadAll(v, Pushed(j, m).1).value == v.(ended := v.ended + [m])
  {
    ReadOne(v, MessageStartLine(m));
    ReadOne(v, MessageEndLine(m));
    ReadAppend(v, [MessageStartLine(m)], [MessageEndLine(m)]);
  }

  lemma {:induction false} PushedAllKeeps(j: Json, v: View, batch: seq<Message>)
    requires Agrees(j, v)
    ensures Keeps(v, PushedAll(j, batch).1, PushedAll(j, batch).0)
    ensures ReadAll(v, PushedAll(j, batch).1).value == v.(ended := v.ended + batch)
    decreases |batch|
  {
    if batch == [] {
      assert v.ended + batch == v.ended;
    } else {
      PushedKeeps(j, v, batch[0]);
      var (j1, out1) := Pushed(j, batch[0]);
      PushedAllKeeps(j1, ReadAll(v, out1).value, batch[1..]);
      KeepsAppend(v, out1, j1, PushedAll(j1, batch[1..]).1, PushedAll(j1, batch[1..]).0);
      assert v.ended + [batch[0]] + batch[1..] == v.ended + batch;
    }
  }

  lemma TurnEndedKeeps(j: Json, v: View, m: Message)
    requires Agrees(j, v)
    ensures Keeps(v, TurnEnded(j, m).1, TurnEnded(j, m).0)
  {
    ReadOne(v, TurnEndLine(m, j.toolResults));
  }

  lemma RetryFinishedKeeps(j: Json, v: View, success: bool, error: Option<string>)
    requires Agrees(j, v)
    ensures Keeps(v, RetryFinished(j, success, error).1, RetryFinished(j, success, error).0)
    ensures var v' := ReadAll(v, RetryFinished(j, success, error).1).value; v'.late == v.late && v'.own == v.own
  {
    ReadOne(v, RetryEndLine(success, j.retries, if success then None else error));
  }

  lemma MessageEndKeeps(j: Json, v: View, m: Assistant)
    requires Agrees(j, v)
    ensures Keeps(v, Render(j, MessageEnd(m)).1, Render(j, MessageEnd(m)).0)
  {
    var (j1, out1) := RetryFinished(j.(partial := None), m.Replayable(), m.error);
    RetryFinishedKeeps(j.(partial := None), v, m.Replayable(), m.error);
    var v1 := ReadAll(v, out1).value;
    var j2 := j1.(messages := j1.messages + [Reply(m)]);
    ReadOne(v1, MessageEndLine(Reply(m)));
    KeepsAppend(v, out1, j1, [MessageEndLine(Reply(m))], j2);
    if !m.Replayable() {
      var v2 := ReadAll(v, out1 + [MessageEndLine(Reply(m))]).value;
      TurnEndedKeeps(j2, v2, Reply(m));
      KeepsAppend(v, out1 + [MessageEndLine(Reply(m))], j2, TurnEnded(j2, Reply(m)).1, TurnEnded(j2, Reply(m)).0);
    }
  }

  lemma ErrorKeeps(j: Json, v: View, error: string)
    requires Agrees(j, v)
    ensures Keeps(v, Render(j, ErrorEvent(error)).1, Render(j, ErrorEvent(error)).0)
  {
    var (j1, out1) := RetryFinished(j, false, Some(error));
    RetryFinishedKeeps(j, v, false, Some(error));
    if j1.turnOpen {
      var m := Reply(Failure(j, error));
      var (j2, out2) := Pushed(j1, m);
      PushedKeeps(j1, ReadAll(v, out1).value, m);
      KeepsAppend(v, out1, j1, out2, j2);
      TurnEndedKeeps(j2, ReadAll(v, out1 + out2).value, m);
      KeepsAppend(v, out1 + out2, j2, TurnEnded(j2, m).1, TurnEnded(j2, m).0);
    }
  }

  lemma ToolEndKeeps(j: Json, v: View, id: string, name: string, result: ToolResult)
    requires Agrees(j, v)
    ensures var e := ToolExecEnd(id, name, result);
            && Keeps(v, Render(j, e).1, Render(j, e).0)
            && ReadAll(v, Render(j, e).1).value.late == v.late
  {
    var m := Result(id, name, result);
    var line := ToolEndLine(id, name, result);
    var j0 := j.(toolArgs := j.toolArgs - {id}, toolResults := j.toolResults + [m]);
    ReadOne(v, line);
    assert j.toolResults + [m] == v.late + (v.own + [m]);
    PushedKeeps(j0, Read(v, line), m);
    KeepsAppend(v, [line], j0, Pushed(j0, m).1, Pushed(j0, m).0);
  }

  lemma TurnStartKeeps(j: Json, v: View, index: nat)
    requires Agrees(j, v)
    ensures Keeps(v, Render(j, TurnStart(index)).1, Render(j, TurnStart(index)).0)
    ensures ReadAll(v, Render(j, TurnStart(index)).1).value.late == v.late + v.own
  {
    var begun := j.(turnOpen := true, prompt := None);
    ReadOne(v, TurnStartLine);
    assert v.late + v.own + [] == v.late + v.own;
    if j.prompt.Some? {
      PushedKeeps(begun, Read(v, TurnStartLine), j.prompt.value);
      KeepsAppend(v, [TurnStartLine], begun, Pushed(begun, j.prompt.value).1, Pushed(begun, j.prompt.value).0);
    }
  }

  /** The events that render to no more than one line. */
  predicate Plain(e: AgentEvent) {
    match e
    case TurnStart(_) => false
    case MessageEnd(_) => false
    case ToolExecEnd(_, _, _) => false
    case SteeringInjected(_) => false
    case TurnEnd(_, _) => false
    case ErrorEvent(_) => false
    case ContextCompacted(_, _) => false
    case _ => true
  }

  lemma PlainIsSound(j: Json, v: View, e: AgentEvent)
    requires Agrees(j, v) && Plain(e)
    ensures var (j', out) := Render(j, e);
            (out == [] && Agrees(j', v)) || (|out| == 1 && Sound(v, out[0]) && Agrees(j', Read(v, out[0])))
  {
  }

  lemma PlainKeeps(j: Json, v: View, e: AgentEvent)
    requires Agrees(j, v) && Plain(e)
    ensures Keeps(v, Render(j, e).1, Render(j, e).0)
  {
    PlainIsSound(j, v, e);
    var (j', out) := Render(j, e);
    if out != [] {
      assert out == [out[0]];
      ReadOne(v, out[0]);
    }
  }

  lemma CompactionKeeps(j: Json, v: View)
    requires Agrees(j, v)
    ensures Keeps(v, [CompactionStartLine, CompactionEndLine], j)
  {
    ReadOne(v, CompactionStartLine);
    ReadOne(v, CompactionEndLine);
    ReadAppend(v, [CompactionStartLine], [CompactionEndLine]);
  }

  /** Every event renders to sound lines, whatever came before. */
  lemma RenderKeeps(j: Json, v: View, e: AgentEvent)
    requires Agrees(j, v)
    ensures Keeps(v, Render(j, e).1, Render(j, e).0)
  {
    if Plain(e) {
      PlainKeeps(j, v, e);
    } else {
      match e {
        case TurnStart(index) => TurnStartKeeps(j, v, index);
        case MessageEnd(m) => MessageEndKeeps(j, v, m);
        case ToolExecEnd(id, name, result) => ToolEndKeeps(j, v, id, name, result);
        case SteeringInjected(batch) => PushedAllKeeps(j, v, batch);
        case TurnEnd(_, m) => TurnEndedKeeps(j, v, Reply(m));
        case ErrorEvent(error) => ErrorKeeps(j, v, error);
        case ContextCompacted(_, _) => CompactionKeeps(j, v);
      }
    }
  }

  /** The consumer's state and all its lines after some events. */
  function RenderAll(j: Json, es: seq<AgentEvent>): (Json, seq<Line>)
    decreases |es|
  {
    if es == [] then (j, [])
    else
      var (j1, out) := RenderAll(j, es[..|es| - 1]);
      var (j2, more) := Render(j1, es[|es| - 1]);
      (j2, out + more)
  }

  /** The lines of any event sequence form a sound ledger: `agent_end` lists exactly the messages
      ended, `turn_end` closes an open turn and carries exactly the results reported since the last
      one, and retry attempts count up from one to the number their end reports. */
  lemma {:induction false} LedgerIsSound(model: string, prompt: Option<Message>, es: seq<AgentEvent>)
    ensures var (j, out) := RenderAll(Opened(model, prompt), es); Keeps(NOTHING_READ, out, j)
    decreases |es|
  {
    if es != [] {
      var init, e := es[..|es| - 1], es[|es| - 1];
      LedgerIsSound(model, prompt, init);
      var (j, out) := RenderAll(Opened(model, prompt), init);
      var v := ReadAll(NOTHING_READ, out).value;
      RenderKeeps(j, v, e);
      KeepsAppend(NOTHING_READ, out, j, Render(j, e).1, Render(j, e).0);
    }
  }

  /** The messages of the `message_end` lines, in order. */
  function Payloads(lines: seq<Line>): seq<Message>
    decreases |lines|
  {
    if lines == [] then []
    else (if lines[0].MessageEndLine? then [lines[0].message] else []) + Payloads(lines[1..])
  }

  predicate NoEnd(lines: seq<Line>) {
    forall line <- lines :: !line.AgentEndLine?
  }

  lemma ReadEnded(v: View, line: Line)
    requires !line.AgentEndLine?
    ensures Read(v, line).ended == v.ended + if line.MessageEndLine? then [line.message] else []
  {
    assert v.ended + [] == v.ended;
  }

  lemma {:induction false} EndedArePayloads(v: View, lines: seq<Line>)
    requires ReadAll(v, lines).Some? && NoEnd(lines)
    ensures ReadAll(v, lines).value.ended == v.ended + Payloads(lines)
    decreases |lines|
  {
    if lines == [] {
      assert v.ended + [] == v.ended;
    } else {
      var own := if lines[0].MessageEndLine? then [lines[0].message] else [];
      EndedArePayloads(Read(v, lines[0]), lines[1..]);
      ReadEnded(v, lines[0]);
      assert v.ended + own + Payloads(lines[1..]) == v.ended + (own + Payloads(lines[1..]));
    }
  }

  lemma {:induction false} NoEarlyEnd(model: string, prompt: Option<Message>, start: Track, es: seq<AgentEvent>)
    requires Run(start, es).Some? && !Run(start, es).value.phase.Ended?
    ensures NoEnd(RenderAll(Opened(model, prompt), es).1)
    decreases |es|
  {
    if es != [] {
      var init, e := es[..|es| - 1], es[|es| - 1];
      NoEarlyEnd(model, prompt, start, init);
      var (j, out) := RenderAll(Opened(model, prompt), init);
      NoEndLine(j, e);
      forall line <- out + Render(j, e).1 ensures !line.AgentEndLine? {
        assert line in out || line in Render(j, e).1;
      }
    }
  }

  lemma NoEndLine(j: Json, e: AgentEvent)
    requires !e.AgentEnd?
    ensures NoEnd(Render(j, e).1)
  {
    if e.SteeringInjected? {
      NoEndLineIn(j, e.messages);
    }
  }

  lemma {:induction false} NoEndLineIn(j: Json, batch: seq<Message>)
    ensures NoEnd(PushedAll(j, batch).1)
    decreases |batch|
  {
    if batch != [] {
      NoEndLineIn(Pushed(j, batch[0]).0, batch[1..]);
    }
  }

  lemma CompleteEndsOnce(limit: nat, initial: seq<Message>, es: seq<AgentEvent>)
    requires Complete(limit, initial, es)
    ensures es != [] && es[|es| - 1].AgentEnd?
    ensures var init := es[..|es| - 1];
            Run(Begin(limit, initial), init).Some? && !Run(Begin(limit, initial), init).value.phase.Ended?
  {
  }

  /** The last line of a complete run lists every message the run ended, in order. */
  lemma AgentEndListsEveryMessage(model: string, prompt: Option<Message>, limit: nat, initial: seq<Message>,
                                  es: seq<AgentEvent>)
    requires Complete(limit, initial, es)
    ensures var lines := RenderAll(Opened(model, prompt), es).1;
            lines != [] && lines[|lines| - 1] == AgentEndLine(Payloads(lines[..|lines| - 1]))
  {
    CompleteEndsOnce(limit, initial, es);
    var init := es[..|es| - 1];
    LedgerIsSound(model, prompt, init);
    NoEarlyEnd(model, prompt, Begin(limit, initial), init);
    var (j, out) := RenderAll(Opened(model, prompt), init);
    EndedArePayloads(NOTHING_READ, out);
    LastLine(j, out);
  }

  lemma LastLine(j: Json, out: seq<Line>)
    requires ReadAll(NOTHING_READ, out).Some?
    requires ReadAll(NOTHING_READ, out).value.ended == NOTHING_READ.ended + Payloads(out)
    requires Agrees(j, ReadAll(NOTHING_READ, out).value)
    ensures var lines := out + Render(j, AgentEnd).1;
            lines[|lines| - 1] == AgentEndLine(Payloads(lines[..|lines| - 1]))
  {
    assert [] + Payloads(out) == Payloads(out);
    assert (out + [AgentEndLine(j.messages)])[..|out|] == out;
  }

  // --- The rebuilt partial ------------------------------------------------------------------------

  /** The consumer's partial is the loop's own, but for the moment between announcing a reply and
      its first event. */
  predicate Synced(t: Track, j: Json) {
    || t.phase.Erred? || t.phase.Ended?
    || (j.partial == if t.announced.Some? then Some(NewPartial(t.announced.value)) else t.partial)
  }

  lemma StepSynced(t: Track, j: Json, e: AgentEvent)
    requires Synced(t, j) && Step(t, e).Some?
    ensures Synced(Step(t, e).value, Render(j, e).0)
  {
    if e.SteeringInjected? {
      PushingKeepsPartial(j, e.messages);
    }
  }

  lemma {:induction false} PushingKeepsPartial(j: Json, batch: seq<Message>)
    ensures PushedAll(j, batch).0.partial == j.partial && PushedAll(j, batch).0.turnOpen == j.turnOpen
    ensures PushedAll(j, batch).0.toolResults == j.toolResults
    decreases |batch|
  {
    if batch != [] {
      PushingKeepsPartial(Pushed(j, batch[0]).0, batch[1..]);
    }
  }

  lemma {:induction false} RunsStaySynced(model: string, prompt: Option<Message>, start: Track, es: seq<AgentEvent>)
    requires start.partial.None? && start.announced.None? && Run(start, es).Some?
    ensures Synced(Run(start, es).value, RenderAll(Opened(model, prompt), es).0)
    decreases |es|
  {
    if es != [] {
      var init := es[..|es| - 1];
      RunsStaySynced(model, prompt, start, init);
      StepSynced(Run(start, init).value, RenderAll(Opened(model, prompt), init).0, es[|es| - 1]);
    }
  }

  /** After every stream event of a run the consumer's partial equals the loop's, and an update line
      shows its snapshot. */
  lemma UpdatesShowTheLoopsPartial(model: string, prompt: Option<Message>, limit: nat, initial: seq<Message>,
                                   es: seq<AgentEvent>, event: StreamEvent)
    requires Accepted(limit, initial, es + [Streamed(event)])
    ensures var t := Run(Begin(limit, initial), es + [Streamed(event)]).value;
            var before := RenderAll(Opened(model, prompt), es).0;
            var (j, lines) := Render(before, Streamed(event));
            && j.partial == t.partial
            && (lines != [] ==> t.partial.Some? && lines == [MessageUpdateLine(event, Snapshot(t.partial.value))])
            && (lines == [] <==> t.partial.None? || !Indexed(event))
  {
    PrefixAccepted(Begin(limit, initial), es + [Streamed(event)], |es|);
    assert (es + [Streamed(event)])[..|es|] == es;
    RunsStaySynced(model, prompt, Begin(limit, initial), es);
    StepSynced(Run(Begin(limit, initial), es).value, RenderAll(Opened(model, prompt), es).0, Streamed(event));
  }

  /** A reply cut short by a cancel ends with the content the consumer last showed. */
  lemma AbortedContentWasShown(model: string, prompt: Option<Message>, limit: nat, initial: seq<Message>,
                               es: seq<AgentEvent>, m: Assistant)
    requires Accepted(limit, initial, es + [MessageEnd(m)])
    requires m.stop == Aborted && Run(Begin(limit, initial), es).Some?
    requires Run(Begin(limit, initial), es).value.done != Some(m)
    ensures var j := RenderAll(Opened(model, prompt), es).0;
            j.partial.Some? && m == Finish(j.partial.value, Aborted, ABORTED_MESSAGE)
            && m.content == Snapshot(j.partial.value).content
  {
    assert (es + [MessageEnd(m)])[..|es|] == es;
    RunsStaySynced(model, prompt, Begin(limit, initial), es);
  }

  // --- A turn carries its own results ---------------------------------------------------------------

  /** An aborted reply whose calls were answered all the same: its turn was closed before them. */
  predicate Unsettled(last: Option<Assistant>) {
    last.Some? && !last.value.Replayable() && Calls(last.value.content) != []
  }

  /** Results are left over exactly after an unsettled reply. */
  ghost predicate Leaves(t: Track, j: Json, last: Option<Assistant>) {
    match t.phase
    case Answering(reply, due, _, _) =>
      && last == Some(reply)
      && (if reply.Replayable() then j.turnOpen
          else !j.turnOpen && |j.toolResults| + |due| == |Calls(reply.content)|)
    case Asking(_, _) => j.turnOpen && (j.toolResults != [] <==> Unsettled(last))
    case Failed => true
    case Cut => true
    case Erred => true
    case Ended => true
    case _ => j.toolResults != [] <==> Unsettled(last)
  }

  lemma ReplyLeaves(t: Track, j: Json, m: Assistant)
    requires Step(t, MessageEnd(m)).Some? && (t.phase.Asking? ==> j.turnOpen)
    ensures Leaves(Step(t, MessageEnd(m)).value, Render(j, MessageEnd(m)).0, Some(m))
  {
    OwedIds(Calls(m.content));
  }

  /** What an event that ends no reply does to the open turn and its results. */
  predicate Turns(j: Json, e: AgentEvent, k: Json) {
    match e
    case TurnStart(_) => k.turnOpen && k.toolResults == j.toolResults
    case ToolExecEnd(_, _, _) => k.turnOpen == j.turnOpen && |k.toolResults| == |j.toolResults| + 1
    case TurnEnd(_, _) => !k.turnOpen && k.toolResults == if j.turnOpen then [] else j.toolResults
    case ErrorEvent(_) => true
    case _ => k.turnOpen == j.turnOpen && k.toolResults == j.toolResults
  }

  lemma RenderTurns(j: Json, e: AgentEvent)
    requires !e.MessageEnd?
    ensures Turns(j, e, Render(j, e).0)
  {
    if e.SteeringInjected? {
      PushingKeepsPartial(j, e.messages);
    }
  }

  lemma ResultLeaves(t: Track, j: Json, k: Json, last: Option<Assistant>, id: string, name: string, result: ToolResult)
    requires Leaves(t, j, last) && Step(t, ToolExecEnd(id, name, result)).Some?
    requires Turns(j, ToolExecEnd(id, name, result), k)
    ensures Leaves(Step(t, ToolExecEnd(id, name, result)).value, k, last)
  {
    assert t.phase.due == (t.phase.due - multiset{Ref(id, name)}) + multiset{Ref(id, name)};
  }

  lemma EndTurnLeaves(t: Track, j: Json, k: Json, last: Option<Assistant>, index: nat, m: Assistant)
    requires Leaves(t, j, last) && Step(t, TurnEnd(index, m)).Some? && Turns(j, TurnEnd(index, m), k)
    ensures Leaves(Step(t, TurnEnd(index, m)).value, k, last)
  {
  }

  lemma StartTurnLeaves(t: Track, j: Json, k: Json, last: Option<Assistant>, index: nat)
    requires Leaves(t, j, last) && Step(t, TurnStart(index)).Some? && Turns(j, TurnStart(index), k)
    ensures Leaves(Step(t, TurnStart(index)).value, k, last)
  {
  }

  /** The phases that only a turn's start or end, or a result, can enter or change. */
  lemma OtherPhases(t: Track, e: AgentEvent)
    requires Step(t, e).Some? && !e.MessageEnd? && !e.ToolExecEnd? && !e.TurnEnd? && !e.TurnStart?
    ensures var u := Step(t, e).value;
            && (u.phase.Asking? ==> t.phase.Asking?)
            && (Rested(u.phase) && !u.phase.Asking? ==> Rested(t.phase) && !t.phase.Asking?)
            && (e.ErrorEvent? ==> u.phase.Erred?)
  {
  }

  lemma OtherLeaves(t: Track, u: Track, j: Json, k: Json, last: Option<Assistant>, e: AgentEvent)
    requires Leaves(t, j, last) && Turns(j, e, k) && Moves(t.phase, e, u.phase)
    requires !e.MessageEnd? && !e.ToolExecEnd? && !e.TurnEnd? && !e.TurnStart?
    requires u.phase.Asking? ==> t.phase.Asking?
    requires Rested(u.phase) && !u.phase.Asking? ==> Rested(t.phase) && !t.phase.Asking?
    requires e.ErrorEvent? ==> u.phase.Erred?
    ensures Leaves(u, k, last)
  {
  }

  lemma StepLeaves(t: Track, j: Json, last: Option<Assistant>, e: AgentEvent)
    requires Leaves(t, j, last) && Step(t, e).Some? && !e.MessageEnd?
    ensures Leaves(Step(t, e).value, Render(j, e).0, last)
  {
    hide Step, Render, Leaves, Turns, Moves;
    RenderTurns(j, e);
    var k := Render(j, e).0;
    if e.ToolExecEnd? {
      ResultLeaves(t, j, k, last, e.id, e.name, e.result);
    } else if e.TurnEnd? {
      EndTurnLeaves(t, j, k, last, e.turnIndex, e.message);
    } else if e.TurnStart? {
      StartTurnLeaves(t, j, k, last, e.turnIndex);
    } else {
      OtherMoves(t, e);
      OtherPhases(t, e);
      OtherLeaves(t, Step(t, e).value, j, k, last, e);
    }
  }

  lemma {:induction false} RunLeaves(model: string, prompt: Option<Message>, start: Track, es: seq<AgentEvent>)
    requires start.phase.Unstarted? && Run(start, es).Some?
    ensures Leaves(Run(start, es).value, RenderAll(Opened(model, prompt), es).0, LastEnded(es))
    decreases |es|
  {
    if es != [] {
      var init, e := es[..|es| - 1], es[|es| - 1];
      RunLeaves(model, prompt, start, init);
      var t, j := Run(start, init).value, RenderAll(Opened(model, prompt), init).0;
      if e.MessageEnd? {
        ReplyLeaves(t, j, e.message);
      } else {
        StepLeaves(t, j, LastEnded(init), e);
      }
    }
  }

  /** When a turn starts, results of earlier turns are still waiting to be carried exactly if the last
      reply was an aborted one that called tools. */
  lemma LeftoversComeFromAbortedReplies(model: string, prompt: Option<Message>, limit: nat, initial: seq<Message>,
                                        es: seq<AgentEvent>, index: nat)
    requires Accepted(limit, initial, es + [TurnStart(index)])
    ensures var (j, out) := RenderAll(Opened(model, prompt), es + [TurnStart(index)]);
            && ReadAll(NOTHING_READ, out).Some?
            && (ReadAll(NOTHING_READ, out).value.late == [] <==> !Unsettled(LastEnded(es)))
  {
    var all := es + [TurnStart(index)];
    assert all[..|es|] == es;
    RunLeaves(model, prompt, Begin(limit, initial), es);
    LedgerIsSound(model, prompt, es);
    var (j, out) := RenderAll(Opened(model, prompt), es);
    var v := ReadAll(NOTHING_READ, out).value;
    TurnStartKeeps(j, v, index);
    ReadAppend(NOTHING_READ, out, Render(j, TurnStart(index)).1);
  }

  /** No reply that ended was aborted after it called tools. */
  predicate AllSettled(es: seq<AgentEvent>) {
    forall k | 0 <= k < |es| && es[k].MessageEnd? :: !Unsettled(Some(es[k].message))
  }

  lemma {:induction false} LastIsSettled(es: seq<AgentEvent>)
    requires AllSettled(es)
    ensures !Unsettled(LastEnded(es))
    decreases |es|
  {
    if es != [] && !es[|es| - 1].MessageEnd? {
      LastIsSettled(es[..|es| - 1]);
    }
  }

  /** Without such replies nothing is ever left to a later turn: what a `turn_end` carries is exactly
      what was reported since its turn started. */
  lemma {:induction false} TurnsCarryTheirOwnResults(model: string, prompt: Option<Message>, limit: nat,
                                                     initial: seq<Message>, es: seq<AgentEvent>)
    requires Accepted(limit, initial, es) && AllSettled(es)
    ensures var (j, out) := RenderAll(Opened(model, prompt), es);
            ReadAll(NOTHING_READ, out).Some? && ReadAll(NOTHING_READ, out).value.late == []
    decreases |es|
  {
    LedgerIsSound(model, prompt, es);
    if es != [] {
      var init, e := es[..|es| - 1], es[|es| - 1];
      assert forall k | 0 <= k < |init| :: init[k] == es[k];
      if e.TurnStart? {
        assert init + [e] == es;
        LastIsSettled(init);
        LeftoversComeFromAbortedReplies(model, prompt, limit, initial, init, e.turnIndex);
      } else {
        TurnsCarryTheirOwnResults(model, prompt, limit, initial, init);
        QuietEventsLeaveNothing(model, prompt, init, e);
      }
    }
  }

  lemma QuietEventsLeaveNothing(model: string, prompt: Option<Message>, es: seq<AgentEvent>, e: AgentEvent)
    requires !e.TurnStart?
    requires var out := RenderAll(Opened(model, prompt), es).1;
             ReadAll(NOTHING_READ, out).Some? && ReadAll(NOTHING_READ, out).value.late == []
    ensures var out := RenderAll(Opened(model, prompt), es).1 + Render(RenderAll(Opened(model, prompt), es).0, e).1;
            ReadAll(NOTHING_READ, out).Some? && ReadAll(NOTHING_READ, out).value.late == []
  {
    LedgerIsSound(model, prompt, es);
    var (j, out) := RenderAll(Opened(model, prompt), es);
    var v := ReadAll(NOTHING_READ, out).value;
    RenderKeeps(j, v, e);
    ReadAppend(NOTHING_READ, out, Render(j, e).1);
    NoTurnStart(j, e);
    LateOnlyClears(v, Render(j, e).1);
  }

  lemma {:induction false} LateOnlyClears(v: View, lines: seq<Line>)
    requires ReadAll(v, lines).Some? && v.late == []
    ensures (forall line <- lines :: !line.TurnStartLine?) ==> ReadAll(v, lines).value.late == []
    decreases |lines|
  {
    if lines != [] && !lines[0].TurnStartLine? {
      LateOnlyClears(Read(v, lines[0]), lines[1..]);
    }
  }

  lemma NoTurnStart(j: Json, e: AgentEvent)
    requires !e.TurnStart?
    ensures forall line <- Render(j, e).1 :: !line.TurnStartLine?
  {
    if e.SteeringInjected? {
      NoTurnStartIn(j, e.messages);
    }
  }

  lemma {:induction false} NoTurnStartIn(j: Json, batch: seq<Message>)
    ensures forall line <- PushedAll(j, batch).1 :: !line.TurnStartLine?
    decreases |batch|
  {
    if batch != [] {
      NoTurnStartIn(Pushed(j, batch[0]).0, batch[1..]);
    }
  }
}
