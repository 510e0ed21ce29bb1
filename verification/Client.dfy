/** The daemon client's request protocol: requests over a link that may drop, answer late or never,
    reattaching in between.  `log` records every request put on the wire, `received` every frame
    taken off it. */
module Client {
  import opened Types

  datatype Cursor = Cursor(generation: string, sequence: nat)

  datatype Envelope = Envelope(version: nat, client: string, command: string, ack: Option<string>)

  const ENVELOPE_VERSION: nat := 1

  /** The requests; the payload of a command and the plain queries are kept as text. */
  datatype Request =
    | AttachRequest(id: nat, client: string, from: Option<Cursor>)
    | CommandRequest(id: nat, payload: string, envelope: Envelope)
    | QueryRequest(id: nat, query: string)

  datatype Reply =
    | Attached(cursor: Cursor, snapshot: bool)
    | Events(events: seq<string>)
    | Answered(answer: string)

  datatype ConnectionError = Closed | Reconnected | TimedOut | Refused(reason: string) | Transport

  datatype Answer = Ok(reply: Reply) | Err(error: ConnectionError)

  datatype Frame =
    | Hello(current: string, cursor: Cursor)
    | Event(event: string, state: Option<string>, sequence: nat)
    | Response(id: nat, answer: Answer, state: Option<string>)
    | Goodbye

  datatype Inbound = Arrived(frame: Frame) | Malformed

  /** A future either completes or is dropped at one of its await points. */
  datatype Outcome = Returned(answer: Answer) | Dropped

  datatype Redial = Up | Down | Abandoned

  datatype Dialled = Dialled(link: seq<Inbound>, state: string, cursor: Cursor)

  function Later(n: nat, m: nat): nat {
    if n > m then n else m
  }

  // --- Command ids -----------------------------------------------------------------------------

  function Digits(n: nat): (s: string)
    ensures s != [] && forall c <- s :: '0' <= c <= '9'
  {
    var last := ['0' + (n % 10) as char];
    if n < 10 then last else Digits(n / 10) + last
  }

  function CommandId(client: string, n: nat): string {
    client + "-" + Digits(n)
  }

  lemma {:induction false} DigitsDiffer(n: nat, m: nat)
    requires Digits(n) == Digits(m)
    ensures n == m
    decreases n + m
  {
    var s := Digits(n);
    assert s[|s| - 1] == '0' + (n % 10) as char == '0' + (m % 10) as char;
    if n >= 10 && m >= 10 {
      assert Digits(n / 10) == s[..|s| - 1] == Digits(m / 10);
      DigitsDiffer(n / 10, m / 10);
    }
  }

  /** What the digits read as. */
  function Number(digits: string): int
    decreases |digits|
  {
    if digits == "" then 0
    else 10 * Number(digits[..|digits| - 1]) + (digits[|digits| - 1] as int - '0' as int)
  }

  /** The digits are the decimal ones, without leading zeros. */
  lemma {:induction false} DigitsAreDecimal(n: nat)
    ensures Number(Digits(n)) == n && (n > 0 ==> Digits(n)[0] != '0') && Digits(0) == "0"
    decreases n
  {
    var s := Digits(n);
    assert s[|s| - 1] == '0' + (n % 10) as char;
    if n < 10 {
      assert s[..|s| - 1] == "";
    } else {
      DigitsAreDecimal(n / 10);
      assert s[..|s| - 1] == Digits(n / 10);
    }
  }

  lemma NoDash(n: nat, i: nat)
    requires i < |Digits(n)|
    ensures Digits(n)[i] != '-'
  {
    assert Digits(n)[i] in Digits(n);
  }

  /** Two commands share an id only if they are the same command of the same client. */
  lemma CommandIdsDiffer(c: string, n: nat, d: string, m: nat)
    requires CommandId(c, n) == CommandId(d, m)
    ensures c == d && n == m
  {
    var s, a, b := CommandId(c, n), Digits(n), Digits(m);
    assert s[|c| + 1..] == a && s[|d| + 1..] == b && s[|c|] == '-' && s[|d|] == '-';
    if |c| < |d| {
      NoDash(n, |d| - |c| - 1);
    }
    if |d| < |c| {
      NoDash(m, |c| - |d| - 1);
    }
    assert s[..|c|] == c && s[..|d|] == d;
    DigitsDiffer(n, m);
  }

  // --- The wire log ------------------------------------------------------------------------------

  /** A request put on the wire: for a command the number of its send; the cursor of the moment; how
      many frames had been received, and how many when the cursor was last set. */
  datatype Sent = Sent(request: Request, number: nat, cursor: Cursor, heard: nat, since: nat)

  predicate IdsIncrease(log: seq<Sent>, nextId: nat) {
    && (forall i, j | 0 <= i < j < |log| :: log[i].request.id < log[j].request.id)
    && (forall i | 0 <= i < |log| :: log[i].request.id < nextId)
  }

  /** A command carries its send's id, and acknowledges only the send right before it, once that is
      finished. */
  predicate Labelled(client: string, finished: set<nat>, s: Sent) {
    s.request.CommandRequest? ==>
      && s.request.envelope.version == ENVELOPE_VERSION
      && s.request.envelope.client == client
      && s.request.envelope.command == CommandId(client, s.number)
      && (s.request.envelope.ack.Some? ==>
            && s.number > 0 && s.number - 1 in finished
            && s.request.envelope.ack.value == CommandId(client, s.number - 1))
  }

  /** Of two commands on the wire, the later belongs to a later send, or is the one retry of the same
      send: same payload, same generation, no acknowledgement. */
  predicate Follows(a: Sent, b: Sent) {
    a.request.CommandRequest? && b.request.CommandRequest? ==>
      || a.number < b.number
      || (a.number == b.number && a.request.payload == b.request.payload
          && a.cursor.generation == b.cursor.generation && b.request.envelope.ack.None?)
  }

  /** Three commands on the wire span at least two sends. */
  predicate NotThrice(a: Sent, b: Sent, c: Sent) {
    a.request.CommandRequest? && b.request.CommandRequest? && c.request.CommandRequest? ==> a.number < c.number
  }

  predicate Ordered(log: seq<Sent>) {
    forall i, j {:trigger Follows(log[i], log[j])} | 0 <= i < j < |log| :: Follows(log[i], log[j])
  }

  predicate OnceRepeated(log: seq<Sent>) {
    forall i, j, k {:trigger NotThrice(log[i], log[j], log[k])} | 0 <= i < j < k < |log| ::
      NotThrice(log[i], log[j], log[k])
  }

  predicate AllLabelled(client: string, log: seq<Sent>, finished: set<nat>) {
    forall i {:trigger Labelled(client, finished, log[i])} | 0 <= i < |log| :: Labelled(client, finished, log[i])
  }

  predicate Below(s: Sent, number: nat) {
    s.request.CommandRequest? ==> s.number < number
  }

  predicate AllBelow(log: seq<Sent>, number: nat) {
    forall i {:trigger Below(log[i], number)} | 0 <= i < |log| :: Below(log[i], number)
  }

  /** The wire so far: request ids increase, every command carries its send's id, a send comes after
      the ones before it and is repeated at most once, and only finished sends are acknowledged. */
  predicate Accounted(client: string, log: seq<Sent>, nextId: nat, nextCommand: nat, finished: set<nat>) {
    && IdsIncrease(log, nextId)
    && AllLabelled(client, log, finished)
    && Ordered(log)
    && OnceRepeated(log)
    && AllBelow(log, nextCommand)
  }

  /** Once a command is acknowledged it is never transmitted again. */
  lemma NeverSentAfterAck(client: string, log: seq<Sent>, nextId: nat, nextCommand: nat, finished: set<nat>, i: nat,
                          j: nat)
    requires Accounted(client, log, nextId, nextCommand, finished) && i < |log| && j < |log|
    requires log[i].request.CommandRequest? && log[j].request.CommandRequest?
    requires log[i].request.envelope.ack == Some(log[j].request.envelope.command)
    ensures j < i && log[j].number in finished
  {
    assert Labelled(client, finished, log[i]) && Labelled(client, finished, log[j]);
    CommandIdsDiffer(client, log[i].number - 1, client, log[j].number);
    assert i < j ==> Follows(log[i], log[j]);
  }

  lemma SameIdSameNumber(client: string, log: seq<Sent>, finished: set<nat>, i: nat, j: nat)
    requires AllLabelled(client, log, finished) && i < |log| && j < |log|
    requires log[i].request.CommandRequest? && log[j].request.CommandRequest?
    requires log[i].request.envelope.command == log[j].request.envelope.command
    ensures log[i].number == log[j].number
  {
    assert Labelled(client, finished, log[i]) && Labelled(client, finished, log[j]);
    CommandIdsDiffer(client, log[i].number, client, log[j].number);
  }

  lemma NoThird(log: seq<Sent>, i: nat, j: nat, k: nat)
    requires OnceRepeated(log) && i < j < |log| && k < |log| && k != i && k != j
    requires log[i].request.CommandRequest? && log[j].request.CommandRequest? && log[k].request.CommandRequest?
    requires log[i].number == log[j].number
    ensures log[k].number != log[i].number
  {
    assert k < i ==> NotThrice(log[k], log[i], log[j]);
    assert i < k < j ==> NotThrice(log[i], log[k], log[j]);
    assert j < k ==> NotThrice(log[i], log[j], log[k]);
  }

  /** Two transmissions with one command id are the send and its retry; they carry the same payload
      under the same generation, and no third one exists. */
  lemma SharedIdIsARetry(client: string, log: seq<Sent>, nextId: nat, nextCommand: nat, finished: set<nat>, i: nat,
                         j: nat)
    requires Accounted(client, log, nextId, nextCommand, finished) && i < j < |log|
    requires log[i].request.CommandRequest? && log[j].request.CommandRequest?
    requires log[i].request.envelope.command == log[j].request.envelope.command
    ensures log[i].request.payload == log[j].request.payload && log[j].request.envelope.ack.None?
    ensures log[i].cursor.generation == log[j].cursor.generation
    ensures forall k | 0 <= k < |log| && k != i && k != j && log[k].request.CommandRequest? ::
              log[k].request.envelope.command != log[i].request.envelope.command
  {
    SameIdSameNumber(client, log, finished, i, j);
    assert Follows(log[i], log[j]);
    forall k | 0 <= k < |log| && k != i && k != j && log[k].request.CommandRequest?
      ensures log[k].request.envelope.command != log[i].request.envelope.command
    {
      NoThird(log, i, j, k);
      if log[k].request.envelope.command == log[i].request.envelope.command {
        SameIdSameNumber(client, log, finished, i, k);
      }
    }
  }

  /** `s` repeats the last command of the log, which was not repeated yet. */
  predicate Retries(log: seq<Sent>, s: Sent) {
    && (forall i {:trigger Follows(log[i], s)} | 0 <= i < |log| :: Follows(log[i], s))
    && (forall i, j {:trigger NotThrice(log[i], log[j], s)} | 0 <= i < j < |log| :: NotThrice(log[i], log[j], s))
  }

  lemma NewIsRetry(log: seq<Sent>, s: Sent)
    requires s.request.CommandRequest? ==> AllBelow(log, s.number)
    ensures Retries(log, s)
  {
    forall i | 0 <= i < |log| ensures Follows(log[i], s) {
      assert s.request.CommandRequest? ==> Below(log[i], s.number);
    }
    forall i, j | 0 <= i < j < |log| ensures NotThrice(log[i], log[j], s) {
      assert s.request.CommandRequest? ==> Below(log[i], s.number);
    }
  }

  lemma LogGrows(client: string, log: seq<Sent>, s: Sent, nextId: nat, nextCommand: nat, finished: set<nat>)
    requires Accounted(client, log, nextId, nextCommand, finished)
    requires IdsIncrease(log, s.request.id) && s.request.id < nextId
    requires Labelled(client, finished, s) && Below(s, nextCommand) && Retries(log, s)
    ensures Accounted(client, log + [s], nextId, nextCommand, finished)
  {
    var all := log + [s];
    forall i | 0 <= i < |all| ensures Labelled(client, finished, all[i]) && Below(all[i], nextCommand) {
      assert i < |log| ==> Labelled(client, finished, log[i]) && Below(log[i], nextCommand);
    }
    forall i, j | 0 <= i < j < |all| ensures Follows(all[i], all[j]) {
      assert if j < |log| then Follows(log[i], log[j]) else Follows(log[i], s);
    }
    forall i, j, k | 0 <= i < j < k < |all| ensures NotThrice(all[i], all[j], all[k]) {
      assert if k < |log| then NotThrice(log[i], log[j], log[k]) else NotThrice(log[i], log[j], s);
    }
  }

  // --- The events ----------------------------------------------------------------------------------

  /** The event payloads of the received frames, in order of arrival. */
  function EventsOf(received: seq<Frame>): seq<string>
    decreases |received|
  {
    if received == [] then []
    else
      var f := received[|received| - 1];
      EventsOf(received[..|received| - 1]) + if f.Event? then [f.event] else []
  }

  lemma EventsSnoc(received: seq<Frame>, f: Frame)
    ensures EventsOf(received + [f]) == EventsOf(received) + if f.Event? then [f.event] else []
  {
    assert (received + [f])[..|received|] == received;
  }

  /** The cursor is past every event received since it was last set. */
  predicate Covers(cursor: Cursor, received: seq<Frame>, since: nat, heard: nat) {
    && since <= heard <= |received|
    && forall k | since <= k < heard && received[k].Event? :: received[k].sequence <= cursor.sequence
  }

  /** A reattach resumes after every event received since the worker last set the cursor. */
  predicate Resumes(received: seq<Frame>, s: Sent) {
    && Covers(s.cursor, received, s.since, s.heard)
    && (s.request.AttachRequest? && s.request.from.Some? ==> s.request.from.value == s.cursor)
  }

  predicate AllResume(received: seq<Frame>, log: seq<Sent>) {
    forall i {:trigger Resumes(received, log[i])} | 0 <= i < |log| :: Resumes(received, log[i])
  }

  lemma StillResume(received: seq<Frame>, log: seq<Sent>, f: Frame)
    requires AllResume(received, log)
    ensures AllResume(received + [f], log)
  {
    forall i | 0 <= i < |log| ensures Resumes(received + [f], log[i]) {
      assert Resumes(received, log[i]);
    }
  }

  /** Only reattaches were added. */
  predicate Attaches(before: seq<Sent>, log: seq<Sent>) {
    before <= log && forall i | |before| <= i < |log| :: log[i].request.AttachRequest?
  }

  lemma AttachesTwice(a: seq<Sent>, b: seq<Sent>, c: seq<Sent>)
    requires Attaches(a, b) && Attaches(b, c)
    ensures Attaches(a, c)
  {
    forall i | |a| <= i < |c| ensures c[i].request.AttachRequest? {
      assert i < |b| ==> c[i] == b[i];
    }
  }

  lemma ResumeSnoc(received: seq<Frame>, log: seq<Sent>, s: Sent)
    requires AllResume(received, log) && Resumes(received, s)
    ensures AllResume(received, log + [s])
  {
    var all := log + [s];
    forall i | 0 <= i < |all| ensures Resumes(received, all[i]) {
      assert i < |log| ==> Resumes(received, log[i]);
    }
  }

  /** Some frame among the later ones carries this answer to this request. */
  predicate AnsweredBy(received: seq<Frame>, from: nat, id: nat, answer: Answer) {
    exists k :: from <= k < |received| && received[k].Response? && received[k].id == id && received[k].answer == answer
  }

  // --- The environment -------------------------------------------------------------------------------

  class Network {
    /** How often a dial can still reach a worker. */
    var dials: nat

    /** What every attempt to connect brought. */
    ghost var connects: seq<Option<seq<Inbound>>>

    /** Requests that could not be encoded or written, and malformed frames read. */
    ghost var failures: nat

    /** Awaits that were dropped, by a timeout or with the caller; looks that found no frame here yet. */
    ghost var drops: nat
    ghost var pauses: nat

    constructor (dials: nat)
      ensures this.dials == dials && connects == []
    {
      this.dials, connects := dials, [];
    }

    /** Connecting to the socket: the frames this link will ever bring. */
    method Connect() returns (link: Option<seq<Inbound>>)
      modifies this`dials, this`connects
      ensures link.Some? ==> old(dials) > 0 && dials == old(dials) - 1
      ensures link.None? ==> dials == old(dials)
      ensures connects == old(connects) + [link]
    {
      link := *;
      if dials == 0 {
        link := None;
      }
      if link.Some? {
        dials := dials - 1;
      }
      connects := connects + [link];
    }

    method Fails() returns (failed: bool)
      modifies this`failures
      ensures failures == old(failures) + if failed then 1 else 0
    {
      failed := *;
      if failed {
        failures := failures + 1;
      }
    }

    method Drops() returns (dropped: bool)
      modifies this`drops
      ensures drops == old(drops) + if dropped then 1 else 0
    {
      dropped := *;
      if dropped {
        drops := drops + 1;
      }
    }

    method Pauses() returns (paused: bool)
      modifies this`pauses
      ensures pauses == old(pauses) + if paused then 1 else 0
    {
      paused := *;
      if paused {
        pauses := pauses + 1;
      }
    }
  }

  /** A link that opens with a hello. */
  predicate Greeted(link: Option<seq<Inbound>>) {
    link.Some? && link.value != [] && link.value[0].Arrived? && link.value[0].frame.Hello?
  }

  /** `dial`: the first frame must come in time and be a hello. */
  method Dial(network: Network) returns (dialled: Option<Dialled>)
    modifies network`dials, network`connects, network`drops
    ensures dialled.Some? ==> network.dials < old(network.dials)
    ensures network.dials <= old(network.dials) && old(network.drops) <= network.drops
    ensures old(network.connects) <= network.connects && |network.connects| == |old(network.connects)| + 1
    ensures var link := network.connects[|old(network.connects)|];
            if network.drops > old(network.drops) || !Greeted(link) then dialled.None?
            else dialled == Some(Dialled(link.value[1..], link.value[0].frame.current, link.value[0].frame.cursor))
  {
    var link := network.Connect();
    var late := network.Drops();
    if link.None? || late || link.value == [] {
      return None;
    }
    match link.value[0] {
      case Arrived(Hello(state, cursor)) => dialled := Some(Dialled(link.value[1..], state, cursor));
      case _ => dialled := None;
    }
  }

  /** The frames a link still brings. */
  function FramesOf(link: seq<Inbound>): seq<Frame> {
    if link == [] then []
    else (if link[0].Arrived? then [link[0].frame] else []) + FramesOf(link[1..])
  }

  lemma Regroup<T>(a: seq<T>, b: seq<T>, c: seq<T>)
    ensures a + (b + c) == a + b + c
  {
  }

  lemma TakenIsHeard(before: seq<Frame>, link: seq<Inbound>)
    requires link != []
    ensures var arrived := if link[0].Arrived? then [link[0].frame] else [];
            before + FramesOf(link) == before + arrived + FramesOf(link[1..])
  {
    Regroup(before, if link[0].Arrived? then [link[0].frame] else [], FramesOf(link[1..]));
  }

  /** The state the daemon last told of. */
  function StateAfter(state: string, frame: Frame): string {
    match frame
    case Hello(current, _) => current
    case Event(_, told, _) => told.GetOr(state)
    case Response(_, _, told) => told.GetOr(state)
    case Goodbye => state
  }

  function EnvelopeOf(client: string, number: nat, ack: Option<string>): Envelope {
    Envelope(ENVELOPE_VERSION, client, CommandId(client, number), ack)
  }

  function StatesAfter(state: string, frames: seq<Frame>): string
    decreases |frames|
  {
    if frames == [] then state
    else StateAfter(StatesAfter(state, frames[..|frames| - 1]), frames[|frames| - 1])
  }

  lemma StatesSnoc(state: string, before: seq<Frame>, from: nat, f: Frame)
    requires from <= |before|
    ensures StatesAfter(state, (before + [f])[from..]) == StateAfter(StatesAfter(state, before[from..]), f)
  {
    assert (before + [f])[from..] == before[from..] + [f];
    assert (before[from..] + [f])[..|before| - from] == before[from..];
  }

  predicate IsAttached(a: Answer) {
    a.Ok? && a.reply.Attached?
  }

  predicate Answers(f: Frame, id: nat) {
    f.Response? && f.id == id
  }

  /** No frame among the later ones answers this request. */
  predicate Unanswered(received: seq<Frame>, from: nat, id: nat) {
    forall k | from <= k < |received| :: !Answers(received[k], id)
  }

  class DaemonConnection {
    const client: string
    const network: Network
    var cursor: Cursor
    var link: seq<Inbound>
    var buffered: seq<string>
    var state: string
    var nextId: nat
    var nextCommand: nat
    var acked: Option<string>
    var closed: bool

    ghost var log: seq<Sent>
    ghost var received: seq<Frame>
    ghost var delivered: seq<string>
    ghost var since: nat
    ghost var finished: set<nat>

    ghost predicate Valid()
      reads this
    {
      && Accounted(client, log, nextId, nextCommand, finished)
      && AllResume(received, log)
      && delivered + buffered == EventsOf(received)
      && Covers(cursor, received, since, |received|)
      && (forall n <- finished :: n < nextCommand)
      && (acked.Some? ==>
            nextCommand > 0 && nextCommand - 1 in finished && acked.value == CommandId(client, nextCommand - 1))
    }

    /** Every method only extends what was sent and received. */
    twostate predicate Extends()
      reads this
    {
      && old(log) <= log && old(received) <= received && old(finished) <= finished
      && old(nextId) <= nextId
    }

    constructor (client: string, network: Network, dialled: Dialled)
      ensures Valid() && this.client == client && this.network == network
      ensures log == [] && received == [] && delivered == [] && acked.None? && !closed && nextCommand == nextId == 1
      ensures cursor == dialled.cursor && link == dialled.link && state == dialled.state && buffered == []
    {
      this.client, this.network := client, network;
      cursor, link, state := dialled.cursor, dialled.link, dialled.state;
      buffered, nextId, nextCommand, acked, closed := [], 1, 1, None, false;
      log, received, delivered, since, finished := [], [], [], 0, {};
    }

    method AbsorbState(state: Option<string>)
      modifies this`state
      ensures this.state == state.GetOr(old(this.state))
    {
      if state.Some? {
        this.state := state.value;
      }
    }

    method Absorb(frame: Frame) returns (response: Option<(nat, Answer)>)
      requires Valid()
      modifies this`cursor, this`buffered, this`state, this`closed, this`received, this`since
      ensures Valid() && received == old(received) + [frame]
      ensures buffered == if frame.Event? then old(buffered) + [frame.event] else old(buffered)
      ensures response == if frame.Response? then Some((frame.id, frame.answer)) else None
      ensures closed == (old(closed) || frame.Goodbye?) && state == StateAfter(old(state), frame)
      ensures cursor == match frame
                        case Hello(_, c) => c
                        case Event(_, _, n) => old(cursor).(sequence := Later(n, old(cursor).sequence))
                        case _ => old(cursor)
    {
      hide Accounted, EventsOf;
      response := None;
      EventsSnoc(received, frame);
      received := received + [frame];
      match frame {
        case Event(event, state, sequence) =>
          AbsorbState(state);
          if sequence > cursor.sequence {
            cursor := cursor.(sequence := sequence);
          }
          assert delivered + buffered + [event] == delivered + (buffered + [event]);
          buffered := buffered + [event];
        case Response(id, answer, state) =>
          AbsorbState(state);
          response := Some((id, answer));
        case Hello(state, cursor) =>
          this.state, this.cursor := state, cursor;
          since := |received|;
        case Goodbye => closed := true;
      }
      StillResume(old(received), log, frame);
    }

    method AbsorbUnrequested(inbound: Inbound)
      requires Valid()
      modifies this`cursor, this`buffered, this`state, this`closed, this`received, this`since
      ensures Valid() && received == old(received) + if inbound.Arrived? then [inbound.frame] else []
      ensures buffered == old(buffered) + if inbound.Arrived? && inbound.frame.Event? then [inbound.frame.event] else []
      ensures closed == (old(closed) || (inbound.Arrived? && inbound.frame.Goodbye?))
      ensures state == if inbound.Arrived? then StateAfter(old(state), inbound.frame) else old(state)
    {
      if inbound.Arrived? {
        var _ := Absorb(inbound.frame);
      }
    }

    method NextRequestId() returns (id: nat)
      requires Valid()
      modifies this`nextId
      ensures Valid() && id == old(nextId) && nextId == old(nextId) + 1
      ensures IdsIncrease(log, id)
    {
      id := nextId;
      nextId := nextId + 1;
    }

    /** The request may go out next. */
    ghost predicate MaySend(request: Request, number: nat)
      reads this
    {
      var s := Sent(request, number, cursor, |received|, since);
      && Valid() && IdsIncrease(log, request.id) && request.id < nextId
      && Labelled(client, finished, s)
      && Below(s, nextCommand) && Retries(log, s)
      && (request.AttachRequest? && request.from.Some? ==> request.from.value == cursor)
    }

    method Write(request: Request, ghost number: nat) returns (written: bool)
      requires MaySend(request, number)
      modifies this`log, network`failures
      ensures Valid() && log == old(log) + [Sent(request, number, cursor, |received|, since)]
      ensures network.failures == old(network.failures) + if written then 0 else 1
    {
      ghost var s := Sent(request, number, cursor, |received|, since);
      LogGrows(client, log, s, nextId, nextCommand, finished);
      ResumeSnoc(received, log, s);
      log := log + [s];
      var failed := network.Fails();
      written := !failed;
    }

    /** The next frame of the link. */
    method Take() returns (inbound: Inbound)
      requires link != []
      modifies this`link, network`failures
      ensures inbound == old(link)[0] && link == old(link)[1..]
      ensures network.failures == old(network.failures) + if inbound.Malformed? then 1 else 0
    {
      inbound := link[0];
      link := link[1..];
      if inbound.Malformed? {
        network.failures := network.failures + 1;
      }
    }

    /** Every frame that left the link was received, in order. */
    twostate predicate Heard()
      reads this
    {
      received + FramesOf(link) == old(received) + FramesOf(old(link))
    }

    /** The state is the one the frames received since then last told of. */
    twostate predicate UpToDate()
      reads this
    {
      |old(received)| <= |received| && state == StatesAfter(old(state), received[|old(received)|..])
    }

    /** How one exchange ends: with the first frame that carries the request's id, or, while none came,
        with a failure, a drop, or the end of the connection. */
    twostate predicate Concludes(id: nat, new o: Outcome)
      reads this, network
    {
      || (&& |received| > |old(received)| && Answers(received[|received| - 1], id)
          && Unanswered(received[..|received| - 1], |old(received)|, id)
          && o == Returned(received[|received| - 1].answer))
      || (&& Unanswered(received, |old(received)|, id)
          && match o
             case Dropped => network.drops > old(network.drops)
             case Returned(Err(Closed)) => closed || link == []
             case Returned(Err(Transport)) => network.failures > old(network.failures)
             case _ => false)
    }

    /** The connection closes only when the worker says so or cannot be reached again. */
    twostate predicate WhyClosed()
      reads this, network
    {
      closed && !old(closed) ==>
        || (exists k :: |old(received)| <= k < |received| && received[k].Goodbye?)
        || |network.connects| > |old(network.connects)|
    }

    /** Takes one frame off the link; `None` if it does not end the exchange. */
    method HearFrame(id: nat) returns (o: Option<Outcome>)
      requires Valid() && !closed && link != []
      modifies this`cursor, this`link, this`buffered, this`state, this`closed, this`received, this`since
      modifies network`failures
      ensures Valid() && Heard() && |link| < |old(link)| && old(network.failures) <= network.failures
      ensures o.None? ==> !closed
      ensures state == if old(link)[0].Malformed? then old(state) else StateAfter(old(state), old(link)[0].frame)
      ensures if old(link)[0].Malformed? then
                received == old(received) && closed == old(closed)
                && o == Some(Returned(Err(Transport))) && network.failures > old(network.failures)
              else
                var f := old(link)[0].frame;
                && received == old(received) + [f] && closed == f.Goodbye?
                && o == if Answers(f, id) then Some(Returned(f.answer))
                        else if closed then Some(Returned(Err(Closed))) else None
    {
      hide Accounted, AllResume, EventsOf, Covers, FramesOf;
      TakenIsHeard(received, link);
      var inbound := Take();
      if inbound.Malformed? {
        return Some(Returned(Err(Transport)));
      }
      var response := Absorb(inbound.frame);
      if response.Some? && response.value.0 == id {
        return Some(Returned(response.value.1));
      }
      o := if response.None? && closed then Some(Returned(Err(Closed))) else None;
    }

    /** Waits for the answer to a request that is on the wire. */
    method Await(id: nat) returns (o: Outcome)
      requires Valid() && !closed
      modifies this`cursor, this`link, this`buffered, this`state, this`closed, this`received, this`since
      modifies network`failures, network`drops
      ensures Valid() && old(received) <= received && UpToDate()
      ensures Heard() && Concludes(id, o) && WhyClosed()
      ensures old(network.failures) <= network.failures && old(network.drops) <= network.drops
    {
      hide Valid, FramesOf;
      while true
        invariant Valid() && old(received) <= received && !closed && Heard() && UpToDate()
        invariant Unanswered(received, |old(received)|, id)
        invariant old(network.failures) <= network.failures && old(network.drops) <= network.drops
        decreases |link|
      {
        var dropped := network.Drops();
        if dropped {
          return Dropped;
        }
        if link == [] {
          return Returned(Err(Closed));
        }
        ghost var before := received;
        if link[0].Arrived? {
          StatesSnoc(old(state), before, |old(received)|, link[0].frame);
        }
        var end := HearFrame(id);
        assert |received| > |before| ==> received[..|received| - 1] == before;
        if end.Some? {
          assert closed ==> received[|received| - 1].Goodbye?;
          return end.value;
        }
      }
    }

    /** Sends one request and takes frames off the link until its own answer comes.  Only a frame
        with the request's id can make it return a reply. */
    method Exchange(request: Request, ghost number: nat) returns (o: Outcome)
      requires MaySend(request, number)
      modifies this`cursor, this`link, this`buffered, this`state, this`closed, this`log, this`received, this`since
      modifies network`failures, network`drops
      ensures Valid() && Extends()
      ensures log == old(log) || log == old(log) + [Sent(request, number, old(cursor), |old(received)|, old(since))]
      ensures log == old(log) ==>
                received == old(received) && (old(closed) || network.failures > old(network.failures))
      ensures Heard() && Concludes(request.id, o) && WhyClosed() && UpToDate()
      ensures old(network.failures) <= network.failures && old(network.drops) <= network.drops
      ensures o.Returned? && o.answer.Ok? ==>
                |log| > |old(log)| && AnsweredBy(received, |old(received)|, request.id, o.answer)
      ensures o == Returned(Err(Reconnected)) || (o == Returned(Err(Closed)) && !closed) ==> |log| > |old(log)|
      ensures old(closed) ==> o == Returned(Err(Closed)) && log == old(log) && received == old(received)
    {
      hide Accounted, AllResume, EventsOf, Covers, Labelled, Retries, IdsIncrease, FramesOf;
      if closed {
        return Returned(Err(Closed));
      }
      var unencoded := network.Fails();
      if unencoded {
        return Returned(Err(Transport));
      }
      var written := Write(request, number);
      if !written {
        return Returned(Err(Transport));
      }
      o := Await(request.id);
    }

    /** The commands on the wire stay as they are. */
    twostate predicate OnlyAttachedSince()
      reads this
    {
      && Attaches(old(log), log) && old(received) <= received && old(nextId) <= nextId
      && nextCommand == old(nextCommand) && acked == old(acked) && finished == old(finished)
    }

    twostate predicate OnlyAttached()
      reads this
    {
      && OnlyAttachedSince() && delivered == old(delivered)
    }

    /** The last request was a reattach from the cursor of its moment, and the worker took it. */
    twostate predicate Reattached()
      reads this
    {
      && |log| > |old(log)|
      && var last := log[|log| - 1];
      && last.request == AttachRequest(last.request.id, client, Some(last.cursor))
      && exists snapshot :: AnsweredBy(received, last.heard, last.request.id, Ok(Attached(cursor, snapshot)))
    }

    /** Failures and drops are only counted up. */
    twostate predicate Counted()
      reads this, network
    {
      && old(network.failures) <= network.failures && old(network.drops) <= network.drops
      && old(network.connects) <= network.connects && network.dials <= old(network.dials)
    }

    /** The worker told where it resumes. */
    method Resume(cursor: Cursor)
      requires Valid()
      modifies this`cursor, this`since
      ensures Valid() && this.cursor == cursor && since == |received|
    {
      this.cursor, since := cursor, |received|;
    }

    lemma AttachMaySend(id: nat, from: Option<Cursor>)
      requires Valid() && IdsIncrease(log, id) && id < nextId && (from.Some? ==> from.value == cursor)
      ensures MaySend(AttachRequest(id, client, from), 0)
    {
      NewIsRetry(log, Sent(AttachRequest(id, client, from), 0, cursor, |received|, since));
    }

    method Attach(from: Option<Cursor>) returns (o: Option<bool>, dropped: bool)
      requires Valid() && (from.Some? ==> from.value == cursor)
      modifies this`cursor, this`link, this`buffered, this`state, this`closed, this`nextId, this`log, this`received
      modifies this`since, network`failures, network`drops
      ensures Valid() && OnlyAttached() && Heard() && Counted() && WhyClosed() && UpToDate()
      ensures !old(closed) && network.failures == old(network.failures) ==> |log| > |old(log)|
      ensures dropped ==> network.drops > old(network.drops)
      ensures if o.Some? then !dropped && Concludes(old(nextId), Returned(Ok(Attached(cursor, o.value))))
              else if dropped then Concludes(old(nextId), Dropped)
              else exists a :: !IsAttached(a) && Concludes(old(nextId), Returned(a))
      ensures o.Some? ==>
                && !dropped && |log| == |old(log)| + 1
                && log[|old(log)|] == Sent(AttachRequest(old(nextId), client, from), 0, old(cursor), |old(received)|,
                                           old(since))
                && AnsweredBy(received, |old(received)|, old(nextId), Ok(Attached(cursor, o.value)))
    {
      hide Valid, FramesOf, MaySend, Unanswered, IdsIncrease;
      var id := NextRequestId();
      AttachMaySend(id, from);
      var outcome := Exchange(AttachRequest(id, client, from), 0);
      match outcome {
        case Dropped => return None, true;
        case Returned(Ok(Attached(cursor, snapshot))) =>
          Resume(cursor);
          return Some(snapshot), false;
        case Returned(a) =>
          assert !IsAttached(a);
          return None, false;
      }
    }

    /** One dial, and a reattach from the cursor if a worker answers. */
    method Redial() returns (up: bool, gone: bool)
      requires Valid()
      modifies this`cursor, this`link, this`buffered, this`state, this`closed, this`nextId, this`log, this`received
      modifies this`since, network`dials, network`connects, network`failures, network`drops
      ensures Valid() && OnlyAttached() && Counted()
      ensures |network.connects| == |old(network.connects)| + 1
      ensures up ==> network.dials < old(network.dials) && !gone && Reattached()
      ensures gone ==> network.drops > old(network.drops)
      ensures old(closed) || network.failures > old(network.failures) || network.drops > old(network.drops)
              || !Greeted(network.connects[|old(network.connects)|]) || |log| > |old(log)|
      ensures up ==>
                && var brought := network.connects[|old(network.connects)|];
                && Greeted(brought)
                && received + FramesOf(link) == old(received) + FramesOf(brought.value[1..])
                && old(received) <= received
                && state == StatesAfter(brought.value[0].frame.current, received[|old(received)|..])
    {
      hide Accounted, AllResume, EventsOf, FramesOf, Concludes;
      up, gone := false, false;
      var dialled := Dial(network);
      if dialled.Some? {
        link, state := dialled.value.link, dialled.value.state;
        var attached;
        attached, gone := Attach(Some(cursor));
        up := attached.Some?;
      }
    }

    /** Dials until a worker takes the client back, or the deadline passes. */
    method Reconnect() returns (r: Redial)
      requires Valid()
      modifies this`cursor, this`link, this`buffered, this`state, this`closed, this`nextId, this`log, this`received
      modifies this`since, network`dials, network`connects, network`failures, network`drops
      ensures Valid() && OnlyAttached() && Counted()
      ensures r.Up? ==> network.dials < old(network.dials) && Reattached()
      ensures r.Down? ==> closed && (old(closed) || |network.connects| > |old(network.connects)|)
      ensures r.Abandoned? ==> network.drops > old(network.drops)
      ensures network.connects == old(network.connects) ==>
                received == old(received) && link == old(link) && buffered == old(buffered)
      ensures WhyClosed()
    {
      if closed {
        return Down;
      }
      var patience: nat := *;
      while true
        invariant Valid() && OnlyAttached() && Counted()
        invariant !closed || |network.connects| > |old(network.connects)|
        invariant network.connects == old(network.connects) ==>
                    received == old(received) && link == old(link) && buffered == old(buffered)
        decreases patience
      {
        var dropped := network.Drops();
        if dropped {
          return Abandoned;
        }
        ghost var before := log;
        var up, gone := Redial();
        AttachesTwice(old(log), before, log);
        if gone {
          return Abandoned;
        }
        if up {
          return Up;
        }
        if patience == 0 {
          closed := true;
          return Down;
        }
        patience := patience - 1;
      }
    }

    /** What a request leaves on the wire: itself at most once, and reattaches. */
    twostate predicate SentOnce(request: Request, number: nat)
      reads this
    {
      && Extends()
      && nextCommand == old(nextCommand) && acked == old(acked)
      && finished == old(finished) && delivered == old(delivered)
      && (forall i | |old(log)| <= i < |log| ::
            log[i].request.AttachRequest? || (i == |old(log)| && log[i].request == request))
      && (forall i | |old(log)| <= i < |log| && !log[i].request.AttachRequest? ::
            log[i].number == number && log[i].cursor == old(cursor))
    }

    /** Every outcome has its cause: an answer came from the worker, a closed connection is closed, and
        whoever is told to have been reconnected was reattached. */
    twostate predicate Accounts(id: nat, new o: Outcome)
      reads this, network
    {
      match o
      case Dropped => network.drops > old(network.drops)
      case Returned(a) =>
        || AnsweredBy(received, |old(received)|, id, a)
        || (a == Err(Closed) && closed)
        || (a == Err(Transport) && network.failures > old(network.failures))
        || (a == Err(Reconnected) && Reattached())
        || (a == Err(TimedOut) && network.drops > old(network.drops))
    }

    /** The request goes out first, unless the connection was closed or a failure is counted. */
    twostate predicate GoesOut(request: Request)
      reads this, network
    {
      if log == old(log) then received == old(received) && (old(closed) || network.failures > old(network.failures))
      else |log| > |old(log)| && log[|old(log)|].request == request
    }

    method RequestForever(request: Request, ghost number: nat) returns (o: Outcome)
      requires MaySend(request, number) && !request.AttachRequest?
      modifies this`cursor, this`link, this`buffered, this`state, this`closed, this`nextId, this`log, this`received
      modifies this`since, network`dials, network`connects, network`failures, network`drops
      ensures Valid() && SentOnce(request, number)
      ensures Accounts(request.id, o) && GoesOut(request) && Counted() && WhyClosed()
      ensures o == Returned(Err(Closed)) ==> closed
      ensures o.Returned? && o.answer.Ok? ==>
                && |log| > |old(log)| && log[|old(log)|].request == request
                && AnsweredBy(received, |old(received)|, request.id, o.answer)
      ensures o == Returned(Err(Reconnected)) ==> |log| > |old(log)| && log[|old(log)|].request == request
    {
      hide Valid, MaySend, FramesOf, IdsIncrease;
      o := Exchange(request, number);
      if o == Returned(Err(Closed)) && !closed {
        var r := Reconnect();
        o := match r
          case Up => Returned(Err(Reconnected))
          case Down => Returned(Err(Closed))
          case Abandoned => Dropped;
      }
    }

    /** Bounded by a timeout, which drops the exchange wherever it is. */
    method Ask(request: Request, ghost number: nat) returns (o: Outcome)
      requires MaySend(request, number) && !request.AttachRequest?
      modifies this`cursor, this`link, this`buffered, this`state, this`closed, this`nextId, this`log, this`received
      modifies this`since, network`dials, network`connects, network`failures, network`drops
      ensures Valid() && SentOnce(request, number)
      ensures Accounts(request.id, o) && GoesOut(request) && Counted() && WhyClosed()
      ensures o == Returned(Err(Closed)) ==> closed
      ensures o.Returned? && o.answer.Ok? ==>
                && |log| > |old(log)| && log[|old(log)|].request == request
                && AnsweredBy(received, |old(received)|, request.id, o.answer)
      ensures o == Returned(Err(Reconnected)) ==> |log| > |old(log)| && log[|old(log)|].request == request
    {
      o := RequestForever(request, number);
      if o.Dropped? {
        var abandoned := network.Drops();
        if !abandoned {
          o := Returned(Err(TimedOut));
        }
      }
    }

    method RequestNext(query: string) returns (o: Outcome)
      requires Valid()
      modifies this`cursor, this`link, this`buffered, this`state, this`closed, this`nextId, this`log, this`received
      modifies this`since, network`dials, network`connects, network`failures, network`drops
      ensures Valid() && Extends()
      ensures Accounts(old(nextId), o) && GoesOut(QueryRequest(old(nextId), query)) && Counted() && WhyClosed()
      ensures o == Returned(Err(Closed)) ==> closed
      ensures o.Returned? && o.answer.Ok? ==>
                AnsweredBy(received, |old(received)|, old(nextId), o.answer)
    {
      var id := NextRequestId();
      o := Ask(QueryRequest(id, query), 0);
    }

    method MakeEnvelope(command: string) returns (envelope: Envelope)
      requires Valid()
      modifies this`acked
      ensures Valid() && acked.None?
      ensures envelope == Envelope(ENVELOPE_VERSION, client, command, old(acked))
    {
      envelope := Envelope(ENVELOPE_VERSION, client, command, acked);
      acked := None;
    }

    /** The next send goes out for the first time, acknowledging the send before it. */
    method FirstTry(payload: string) returns (o: Outcome)
      requires Valid()
      modifies this, network`dials, network`connects, network`failures, network`drops
      ensures Valid() && Extends() && acked.None? && finished == old(finished) && delivered == old(delivered)
      ensures nextCommand == old(nextCommand) + 1
      ensures OneTry(old(log), log, old(nextCommand), payload, old(cursor).generation)
      ensures TryAt(log, |old(log)|, client, old(nextCommand), payload, old(acked))
      ensures SendAccounts(o) && Counted() && WhyClosed()
      ensures GoesOut(CommandRequest(old(nextId), payload, EnvelopeOf(client, old(nextCommand), old(acked))))
      ensures o == Returned(Err(Closed)) ==> closed
      ensures o.Returned? && o.answer.Ok? ==> OwnAnswer(o.answer)
      ensures o == Returned(Err(Reconnected)) ==> |log| > |old(log)| && log[|old(log)|].request.CommandRequest?
    {
      hide AllResume, EventsOf, Covers;
      ghost var number := nextCommand;
      var id := NextRequestId();
      var envelope := MakeEnvelope(CommandId(client, nextCommand));
      nextCommand := nextCommand + 1;
      var request := CommandRequest(id, payload, envelope);
      NewIsRetry(log, Sent(request, number, cursor, |received|, since));
      StillBelow(log, number, nextCommand);
      o := Ask(request, number);
    }

    /** The same command once more, under a new request id and without an acknowledgement. */
    method Resend(payload: string, ghost number: nat, ghost before: seq<Sent>, commandId: string) returns (o: Outcome)
      requires Valid() && acked.None? && nextCommand == number + 1 && commandId == CommandId(client, number)
      requires OneTry(before, log, number, payload, cursor.generation)
      requires |log| > |before| && log[|before|].request.CommandRequest?
      modifies this, network`dials, network`connects, network`failures, network`drops
      ensures Valid() && Extends() && acked.None? && finished == old(finished) && delivered == old(delivered)
      ensures nextCommand == old(nextCommand)
      ensures OnlyTry(old(log), log)
      ensures TryAt(log, |old(log)|, client, number, payload, None)
      ensures SendAccounts(o) && Counted() && WhyClosed()
      ensures GoesOut(CommandRequest(old(nextId), payload, EnvelopeOf(client, number, None)))
      ensures o == Returned(Err(Closed)) ==> closed
      ensures |log| > |old(log)| && log[|old(log)|].request.CommandRequest? ==> log[|old(log)|].cursor == old(cursor)
      ensures o.Returned? && o.answer.Ok? ==> OwnAnswer(o.answer)
      ensures o == Returned(Err(Reconnected)) ==> |log| > |old(log)| && log[|old(log)|].request.CommandRequest?
    {
      hide AllResume, EventsOf, Covers;
      var id := NextRequestId();
      var envelope := MakeEnvelope(commandId);
      var request := CommandRequest(id, payload, envelope);
      RetryFollows(before, log, payload, Sent(request, number, cursor, |received|, since));
      o := Ask(request, number);
    }

    /** The send is over: the next one acknowledges it. */
    method Settle(commandId: string, ghost number: nat)
      requires Valid() && nextCommand == number + 1 && commandId == CommandId(client, number)
      modifies this`acked, this`finished
      ensures Valid() && acked == Some(commandId) && finished == old(finished) + {number}
    {
      acked := Some(commandId);
      FinishedGrows(client, log, finished, number);
      finished := finished + {number};
    }

    /** A reply handed to the caller answers one of this send's own transmissions. */
    twostate predicate OwnAnswer(answer: Answer)
      reads this
    {
      exists i :: && |old(log)| <= i < |log| && log[i].request.CommandRequest?
                  && AnsweredBy(received, |old(received)|, log[i].request.id, answer)
    }

    /** Every outcome of a send has its cause. */
    twostate predicate SendAccounts(new o: Outcome)
      reads this, network
    {
      match o
      case Dropped => network.drops > old(network.drops)
      case Returned(a) =>
        || OwnAnswer(a)
        || (a == Err(Closed) && closed)
        || (a == Err(Transport) && (network.failures > old(network.failures) || Misanswered()))
        || (a == Err(Reconnected) && Reattached())
        || (a == Err(TimedOut) && network.drops > old(network.drops))
    }

    /** The worker answered the command, but not with events. */
    twostate predicate Misanswered()
      reads this
    {
      exists reply: Reply :: !reply.Events? && OwnAnswer(Ok(reply))
    }

    /** The one or two transmissions of a send. */
    method TryTwice(payload: string, ghost number: nat) returns (o: Outcome, ghost retry: nat)
      requires Valid() && number == nextCommand
      modifies this, network`dials, network`connects, network`failures, network`drops
      ensures Valid() && Extends() && acked.None? && finished == old(finished) && delivered == old(delivered)
      ensures nextCommand == number + 1
      ensures TryAt(log, |old(log)|, client, number, payload, old(acked))
      ensures |old(log)| < retry && TryAt(log, retry, client, number, payload, None)
      ensures retry < |log| && log[retry].request.CommandRequest? ==>
                log[retry].cursor.generation == old(cursor).generation
      ensures forall i | |old(log)| < i < |log| && i != retry :: log[i].request.AttachRequest?
      ensures SendAccounts(o) && Counted() && WhyClosed() && (o == Returned(Err(Closed)) ==> closed)
      ensures FirstOut(payload, number)
      ensures o.Returned? && o.answer.Ok? ==> OwnAnswer(o.answer)
      ensures o == Returned(Err(Reconnected)) ==>
                cursor.generation != old(cursor).generation || (retry < |log| && log[retry].request.CommandRequest?)
    {
      hide Valid, Labelled;
      ghost var before := log;
      var commandId := CommandId(client, nextCommand);
      var generation := cursor.generation;
      o := FirstTry(payload);
      retry := |log| + 1;
      if o == Returned(Err(Reconnected)) && cursor.generation == generation {
        retry := |log|;
        o := Resend(payload, number, before, commandId);
      }
    }

    /** The first transmission goes out first, unless the connection was closed or a failure is counted. */
    twostate predicate FirstOut(payload: string, number: nat)
      reads this, network
    {
      || old(closed) || network.failures > old(network.failures)
      || (&& |log| > |old(log)|
          && log[|old(log)|].request
             == CommandRequest(old(nextId), payload, EnvelopeOf(client, number, old(acked))))
    }

    /** Sends a command: once, and once more if the client had to reattach to a worker of the same
        generation.  `retry` is where in the log the second transmission stands. */
    method Send(payload: string) returns (o: Outcome, ghost retry: nat)
      requires Valid()
      modifies this, network`dials, network`connects, network`failures, network`drops
      ensures Valid() && Extends() && delivered == old(delivered)
      ensures nextCommand == old(nextCommand) + 1
      ensures TryAt(log, |old(log)|, client, old(nextCommand), payload, old(acked))
      ensures |old(log)| < retry && TryAt(log, retry, client, old(nextCommand), payload, None)
      ensures retry < |log| && log[retry].request.CommandRequest? ==>
                log[retry].cursor.generation == old(cursor).generation
      ensures forall i | |old(log)| < i < |log| && i != retry :: log[i].request.AttachRequest?
      ensures o.Returned? ==> acked == Some(CommandId(client, old(nextCommand)))
      ensures SendAccounts(o) && Counted() && WhyClosed() && (o == Returned(Err(Closed)) ==> closed)
      ensures FirstOut(payload, old(nextCommand))
      ensures o.Returned? && o.answer.Ok? ==> o.answer.reply.Events? && OwnAnswer(o.answer)
      ensures o == Returned(Err(Reconnected)) ==>
                cursor.generation != old(cursor).generation || (retry < |log| && log[retry].request.CommandRequest?)
    {
      hide Valid, Labelled, CommandId;
      ghost var number := nextCommand;
      var commandId := CommandId(client, nextCommand);
      o, retry := TryTwice(payload, number);
      if o.Dropped? {
        return;
      }
      Settle(commandId, number);
      if o.answer.Ok? && !o.answer.reply.Events? {
        o := Returned(Err(Transport));
      }
    }

    /** The next buffered event, else the next one from the link, reattaching if the link drops. */
    method NextEvent() returns (event: Option<string>)
      requires Valid()
      modifies this, network`dials, network`connects, network`failures, network`drops
      ensures Valid() && OnlyAttachedSince() && Counted() && WhyClosed()
      ensures delivered == old(delivered) + if event.Some? then [event.value] else []
      ensures event.None? ==> closed || network.drops > old(network.drops)
      ensures event.None? && network.connects == old(network.connects) ==> buffered == []
      ensures network.connects == old(network.connects) ==> Heard()
    {
      hide Valid, FramesOf;
      while true
        invariant Valid() && OnlyAttached() && Counted() && WhyClosed()
        invariant network.connects == old(network.connects) ==> Heard()
        decreases network.dials, |link|
      {
        if buffered != [] {
          event := Deliver();
          return;
        }
        var dropped := network.Drops();
        if closed || dropped {
          return None;
        }
        ghost var before := log;
        var more := Pump();
        AttachesTwice(old(log), before, log);
        if !more {
          return None;
        }
      }
    }

    /** Takes one frame off the link, or reattaches; without either the connection is closed. */
    method Pump() returns (more: bool)
      requires Valid() && !closed && buffered == []
      modifies this, network`dials, network`connects, network`failures, network`drops
      ensures Valid() && OnlyAttached() && Counted() && WhyClosed()
      ensures network.connects == old(network.connects) ==> Heard()
      ensures more ==>
                network.dials < old(network.dials) || (network.dials == old(network.dials) && |link| < |old(link)|)
      ensures !more ==> closed || network.drops > old(network.drops)
      ensures !more && network.connects == old(network.connects) ==> buffered == []
      ensures old(link) == [] && more ==> Reattached()
    {
      hide Valid;
      if link == [] {
        more := PumpAnew();
      } else {
        PumpOne();
        more := true;
      }
    }

    method PumpOne()
      requires Valid() && !closed && link != []
      modifies this`cursor, this`link, this`buffered, this`state, this`closed, this`received, this`since
      modifies network`failures
      ensures Valid() && OnlyAttached() && Counted() && WhyClosed() && Heard() && link == old(link)[1..]
    {
      hide Accounted, AllResume, EventsOf, Covers, FramesOf;
      TakenIsHeard(received, link);
      var inbound := Take();
      AbsorbUnrequested(inbound);
      assert inbound.Arrived? ==> received[|received| - 1] == inbound.frame;
    }

    method PumpAnew() returns (more: bool)
      requires Valid() && !closed && link == [] && buffered == []
      modifies this, network`dials, network`connects, network`failures, network`drops
      ensures Valid() && OnlyAttached() && Counted() && WhyClosed()
      ensures network.connects == old(network.connects) ==> Heard()
      ensures more ==> network.dials < old(network.dials) && Reattached()
      ensures !more ==> closed || network.drops > old(network.drops)
      ensures !more && network.connects == old(network.connects) ==> buffered == []
    {
      var r := Reconnect();
      more := r.Up?;
    }

    method Deliver() returns (event: Option<string>)
      requires Valid() && buffered != []
      modifies this`buffered, this`delivered
      ensures Valid() && event == Some(old(buffered)[0]) && buffered == old(buffered)[1..]
      ensures delivered == old(delivered) + [old(buffered)[0]]
    {
      event := Some(buffered[0]);
      assert delivered + buffered == delivered + [buffered[0]] + buffered[1..];
      delivered := delivered + [buffered[0]];
      buffered := buffered[1..];
    }

    /** The same without waiting: only frames that are already here. */
    method TryNextEvent() returns (event: Option<string>)
      requires Valid()
      modifies this`cursor, this`link, this`buffered, this`state, this`closed, this`received, this`since, this`delivered
      modifies network`failures, network`pauses
      ensures Valid() && log == old(log) && old(received) <= received && Heard() && WhyClosed()
      ensures delivered == old(delivered) + if event.Some? then [event.value] else []
      ensures event.None? ==> buffered == [] && (closed || link == [] || network.pauses > old(network.pauses))
    {
      hide Valid, FramesOf;
      while true
        invariant Valid() && log == old(log) && old(received) <= received && delivered == old(delivered) && Heard()
        invariant WhyClosed() && old(network.pauses) <= network.pauses
        decreases |link|
      {
        if buffered != [] {
          event := Deliver();
          return;
        }
        var waiting := network.Pauses();
        if closed || waiting || link == [] {
          return None;
        }
        PumpOne();
      }
    }
  }

  /** The worker takes the client in: its first answer to request 1 says so, before any goodbye. */
  predicate TakesIn(frames: seq<Frame>, k: nat) {
    && k < |frames| && Answers(frames[k], 1) && IsAttached(frames[k].answer)
    && forall j | 0 <= j < k :: !Answers(frames[j], 1) && !frames[j].Goodbye?
  }

  lemma NotTakenIn(frames: seq<Frame>, received: seq<Frame>, a: Answer, k: nat)
    requires received <= frames && !IsAttached(a)
    requires if received != [] && Answers(received[|received| - 1], 1)
             then a == received[|received| - 1].answer && Unanswered(received[..|received| - 1], 0, 1)
             else && Unanswered(received, 0, 1)
                  && (received == frames || exists g :: 0 <= g < |received| && received[g].Goodbye?)
    ensures !TakesIn(frames, k)
  {
    assert forall j | 0 <= j < |received| :: received[j] == frames[j];
    assert forall j | 0 <= j < |received| - 1 :: received[..|received| - 1][j] == frames[j];
  }

  /** `connect_within`: dial, then attach as a new client.  Without failures and drops this succeeds
      whenever the worker greets the client and takes it in. */
  method Connect(client: string, network: Network) returns (connection: Option<DaemonConnection>)
    modifies network`dials, network`connects, network`failures, network`drops
    ensures |network.connects| == |old(network.connects)| + 1
    ensures connection.Some? ==>
              && var c := connection.value;
              && fresh(c) && c.Valid() && c.client == client && c.network == network && c.nextCommand == 1
              && c.acked.None? && |c.log| == 1 && c.log[0].request.AttachRequest? && c.log[0].request.from.None?
    ensures connection.None? && network.failures == old(network.failures) && network.drops == old(network.drops) ==>
              && var brought := network.connects[|old(network.connects)|];
              Greeted(brought) ==> forall k :: !TakesIn(FramesOf(brought.value[1..]), k)
  {
    connection := None;
    var dialled := Dial(network);
    if dialled.Some? {
      var c := new DaemonConnection(client, network, dialled.value);
      var attached := AttachNew(c);
      if attached {
        connection := Some(c);
      }
    }
  }

  method AttachNew(c: DaemonConnection) returns (attached: bool)
    requires c.Valid() && c.log == [] && c.received == [] && !c.closed && c.nextId == 1
    modifies c, c.network`failures, c.network`drops
    ensures c.Valid() && c.nextCommand == old(c.nextCommand) && c.acked == old(c.acked)
    ensures attached ==> |c.log| == 1 && c.log[0].request == AttachRequest(1, c.client, None)
    ensures !attached && c.network.failures == old(c.network.failures) && c.network.drops == old(c.network.drops) ==>
              forall k :: !TakesIn(FramesOf(old(c.link)), k)
  {
    hide AnsweredBy;
    ghost var frames := FramesOf(c.link);
    var up, dropped := c.Attach(None);
    attached := up.Some?;
    if !attached && !dropped && c.network.failures == old(c.network.failures) {
      ghost var a :| !IsAttached(a) && c.Concludes(1, Returned(a));
      assert c.received + FramesOf(c.link) == [] + frames == frames;
      assert c.link == [] ==> c.received == frames;
      forall k ensures !TakesIn(frames, k) {
        NotTakenIn(frames, c.received, a, k);
      }
    }
  }

  lemma FinishedGrows(client: string, log: seq<Sent>, finished: set<nat>, number: nat)
    requires AllLabelled(client, log, finished)
    ensures AllLabelled(client, log, finished + {number})
  {
    forall i | 0 <= i < |log| ensures Labelled(client, finished + {number}, log[i]) {
      assert Labelled(client, finished, log[i]);
    }
  }

  lemma StillBelow(log: seq<Sent>, number: nat, larger: nat)
    requires AllBelow(log, number) && number <= larger
    ensures AllBelow(log, larger)
  {
    forall i | 0 <= i < |log| ensures Below(log[i], larger) {
      assert Below(log[i], number);
    }
  }

  /** At this place the log holds nothing, a reattach, or this send. */
  predicate TryAt(log: seq<Sent>, at: nat, client: string, number: nat, payload: string, ack: Option<string>) {
    at < |log| && !log[at].request.AttachRequest? ==>
      && log[at].number == number && log[at].request.CommandRequest? && log[at].request.payload == payload
      && log[at].request.envelope == Envelope(ENVELOPE_VERSION, client, CommandId(client, number), ack)
  }

  /** After `before` the log holds reattaches, but for its first place. */
  predicate OnlyTry(before: seq<Sent>, log: seq<Sent>) {
    before <= log && forall i | |before| < i < |log| :: log[i].request.AttachRequest?
  }

  /** That place may hold the first transmission of this send. */
  predicate OneTry(before: seq<Sent>, log: seq<Sent>, number: nat, payload: string, generation: string) {
    && OnlyTry(before, log)
    && AllBelow(before, number)
    && (|log| > |before| && log[|before|].request.CommandRequest? ==>
          && log[|before|].number == number && log[|before|].request.payload == payload
          && log[|before|].cursor.generation == generation)
  }

  lemma RetryFollows(before: seq<Sent>, log: seq<Sent>, payload: string, s: Sent)
    requires s.request.CommandRequest? && s.request.payload == payload && s.request.envelope.ack.None?
    requires OneTry(before, log, s.number, payload, s.cursor.generation)
    ensures Retries(log, s)
  {
    forall i | 0 <= i < |log| ensures Follows(log[i], s) {
      assert i < |before| ==> Below(before[i], s.number) && log[i] == before[i];
    }
    forall i, j | 0 <= i < j < |log| ensures NotThrice(log[i], log[j], s) {
      assert i < |before| ==> Below(before[i], s.number) && log[i] == before[i];
    }
  }
}
