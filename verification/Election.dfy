/** The daemon launch election: any number of candidate processes share a lock file and a socket
    path, and daemons start only through them.  One action is one system call of one process. */
module Election {
  import opened Types

  /** Where a candidate stands in `elect`. */
  datatype Candidate =
    | Idle
    | Trying                 // about to try the lock
    | Holding                // lock held, about to look whether a daemon answers
    | Clearing               // nobody answered, about to remove the socket
    | Spawning
    | Waiting(daemon: nat)   // polling until the daemon it spawned answers
    | Gone

  datatype Daemon =
    | Starting               // about to look at the socket path
    | Reclaiming             // about to remove a socket nobody answers on
    | Binding
    | Serving
    | Closing                // about to remove the socket on its way out
    | Dead

  predicate HoldsLock(c: Candidate) {
    c.Holding? || c.Clearing? || c.Spawning? || c.Waiting?
  }

  predicate Pending(d: Daemon) {
    d.Starting? || d.Reclaiming? || d.Binding?
  }

  predicate Listening(d: Daemon) {
    d.Serving? || d.Closing?
  }

  /** `file` is the daemon whose socket the path names, dead or alive. */
  datatype State = State(candidates: seq<Candidate>, daemons: seq<Daemon>, lock: Option<nat>, file: Option<nat>)

  predicate Owns(s: State, d: nat) {
    s.file == Some(d)
  }

  predicate IsPending(s: State, d: nat)
    requires d < |s.daemons|
  {
    Pending(s.daemons[d])
  }

  predicate IsListening(s: State, d: nat)
    requires d < |s.daemons|
  {
    Listening(s.daemons[d])
  }

  predicate IsDead(s: State, d: nat)
    requires d < |s.daemons|
  {
    s.daemons[d].Dead?
  }

  /** `answers`: a connect to the path succeeds. */
  predicate Answers(s: State) {
    s.file.Some? && s.file.value < |s.daemons| && IsListening(s, s.file.value)
  }

  datatype Action =
    | Look(who: nat)         // `watch`: calls `elect` only if nobody answers
    | Enter(who: nat)         // any other call of `elect`
    | TryLock(who: nat)
    | Check(who: nat)
    | Unlink(who: nat)
    | Spawn(who: nat)
    | Fail(who: nat)         // an error before the daemon is spawned
    | Poll(who: nat)
    | TimeOut(who: nat)
    | Die(who: nat)
    | Probe(daemon: nat)
    | Reclaim(daemon: nat)
    | Bind(daemon: nat)
    | Close(daemon: nat)
    | Remove(daemon: nat)
    | Crash(daemon: nat)

  function Move(s: State, p: nat, c: Candidate): State
    requires p < |s.candidates|
  {
    s.(candidates := s.candidates[p := c])
  }

  /** Leaves `elect`; the lock goes with the lease handle. */
  function Leave(s: State, p: nat, c: Candidate): State
    requires p < |s.candidates|
  {
    Move(if HoldsLock(s.candidates[p]) then s.(lock := None) else s, p, c)
  }

  function Turn(s: State, d: nat, to: Daemon): State
    requires d < |s.daemons|
  {
    s.(daemons := s.daemons[d := to])
  }

  predicate At(s: State, p: nat, c: Candidate) {
    p < |s.candidates| && s.candidates[p] == c
  }

  predicate Is(s: State, d: nat, k: Daemon) {
    d < |s.daemons| && s.daemons[d] == k
  }

  /** One action; `None` if it cannot happen in this state. */
  function Act(s: State, a: Action): Option<State> {
    match a
    case Look(p) => if !At(s, p, Idle) then None else Some(if Answers(s) then s else Move(s, p, Trying))
    case Enter(p) => if !At(s, p, Idle) then None else Some(Move(s, p, Trying))
    case TryLock(p) =>
      if !At(s, p, Trying) then None
      else Some(if s.lock.None? then Move(s.(lock := Some(p)), p, Holding) else Move(s, p, Idle))
    case Check(p) =>
      if !At(s, p, Holding) then None
      else Some(if Answers(s) then Leave(s, p, Idle) else Move(s, p, Clearing))
    case Unlink(p) => if !At(s, p, Clearing) then None else Some(Move(s.(file := None), p, Spawning))
    case Spawn(p) =>
      if !At(s, p, Spawning) then None
      else Some(Move(s.(daemons := s.daemons + [Starting]), p, Waiting(|s.daemons|)))
    case Fail(p) => if !At(s, p, Trying) && !At(s, p, Spawning) then None else Some(Leave(s, p, Idle))
    case Poll(p) =>
      if p >= |s.candidates| || !s.candidates[p].Waiting? || !Answers(s) then None else Some(Leave(s, p, Idle))
    case TimeOut(p) => if p >= |s.candidates| || !s.candidates[p].Waiting? then None else Some(Leave(s, p, Idle))
    case Die(p) => if p >= |s.candidates| then None else Some(Leave(s, p, Gone))
    case Probe(d) =>
      if !Is(s, d, Starting) then None
      else Some(Turn(s, d, if s.file.None? then Binding else if Answers(s) then Dead else Reclaiming))
    case Reclaim(d) =>
      if !Is(s, d, Reclaiming) then None
      else Some(if s.file.None? then Turn(s, d, Dead) else Turn(s.(file := None), d, Binding))
    case Bind(d) =>
      if !Is(s, d, Binding) then None
      else Some(if s.file.Some? then Turn(s, d, Dead) else Turn(s.(file := Some(d)), d, Serving))
    case Close(d) => if !Is(s, d, Serving) then None else Some(Turn(s, d, Closing))
    case Remove(d) => if !Is(s, d, Closing) then None else Some(Turn(s.(file := None), d, Dead))
    case Crash(d) => if d >= |s.daemons| then None else Some(Turn(s, d, Dead))
  }

  /** A launcher stops waiting only once its daemon answered or died. */
  predicate Patient(s: State, a: Action) {
    (a.TimeOut? || a.Die?) && a.who < |s.candidates| && s.candidates[a.who].Waiting? ==>
      && s.candidates[a.who].daemon < |s.daemons|
      && !IsPending(s, s.candidates[a.who].daemon)
  }

  // --- Safety ----------------------------------------------------------------------------------

  predicate Guarded(s: State, p: nat)
    requires p < |s.candidates|
  {
    HoldsLock(s.candidates[p]) <==> s.lock == Some(p)
  }

  /** One candidate at most is past the lock. */
  predicate Exclusive(s: State) {
    forall p: nat {:trigger Guarded(s, p)} | p < |s.candidates| :: Guarded(s, p)
  }

  predicate OthersDead(s: State, d: nat) {
    forall e: nat {:trigger IsDead(s, e)} | e < |s.daemons| && e != d :: IsDead(s, e)
  }

  predicate AllDead(s: State) {
    forall e: nat {:trigger IsDead(s, e)} | e < |s.daemons| :: IsDead(s, e)
  }

  /** At most one daemon is not dead: the one being waited for while a launcher holds the lock and
      waits, none while a launcher clears the way, else one that owns the socket. */
  predicate Single(s: State) {
    match (if s.lock.Some? && s.lock.value < |s.candidates| then s.candidates[s.lock.value] else Idle)
    case Waiting(d) => d < |s.daemons| && OthersDead(s, d) && (IsListening(s, d) ==> Owns(s, d))
    case Clearing => AllDead(s)
    case Spawning => AllDead(s)
    case _ => AllDead(s) || (Answers(s) && OthersDead(s, s.file.value))
  }

  predicate Inv(s: State) {
    Exclusive(s) && Single(s)
  }

  /** At most one daemon is live, and a live one that listens owns the path. */
  predicate AtMostOneLive(s: State) {
    && (forall d: nat, e: nat {:trigger IsDead(s, d), IsDead(s, e)} | d < |s.daemons| && e < |s.daemons| && d != e ::
          IsDead(s, d) || IsDead(s, e))
    && (forall d: nat {:trigger IsListening(s, d)} | d < |s.daemons| && IsListening(s, d) :: Owns(s, d))
  }

  /** The path of a live daemon is removed by that daemon alone, on its way out. */
  predicate Harmless(s: State, a: Action, next: State) {
    Answers(s) && next.file != s.file ==> a == Remove(s.file.value)
  }

  lemma InvIsSafe(s: State)
    requires Inv(s)
    ensures AtMostOneLive(s)
  {
    if s.lock.Some? && s.lock.value < |s.candidates| {
      assert Guarded(s, s.lock.value);
    }
    forall d: nat | d < |s.daemons| && IsListening(s, d) ensures Owns(s, d) {
      assert !IsDead(s, d);
    }
  }

  /** The dead stay dead. */
  predicate StayDead(s: State, next: State) {
    && |s.daemons| <= |next.daemons|
    && forall e: nat {:trigger IsDead(next, e)} | e < |s.daemons| :: IsDead(s, e) ==> IsDead(next, e)
  }

  lemma ActStaysDead(s: State, a: Action)
    requires Act(s, a).Some?
    ensures StayDead(s, Act(s, a).value)
  {
  }

  predicate OfCandidate(a: Action) {
    !a.Probe? && !a.Reclaim? && !a.Bind? && !a.Close? && !a.Remove? && !a.Crash?
  }

  lemma ActKeepsExclusive(s: State, a: Action)
    requires Exclusive(s) && Act(s, a).Some?
    ensures Exclusive(Act(s, a).value)
  {
    var next := Act(s, a).value;
    if OfCandidate(a) {
      assert Guarded(s, a.who);
    }
    forall p: nat | p < |next.candidates| ensures Guarded(next, p) {
      assert Guarded(s, p);
    }
  }

  /** Taking or leaving the lock moves nothing else. */
  lemma LockKeepsSingle(s: State, a: Action)
    requires Inv(s) && Act(s, a).Some? && Patient(s, a) && OfCandidate(a) && !a.Unlink? && !a.Spawn?
    ensures Single(Act(s, a).value) && Harmless(s, a, Act(s, a).value)
  {
    var next := Act(s, a).value;
    assert next.daemons == s.daemons && next.file == s.file;
    assert Guarded(s, a.who);
    assert Answers(s) ==> !IsDead(s, s.file.value);
    ActStaysDead(s, a);
  }

  lemma LaunchKeepsSingle(s: State, a: Action)
    requires Inv(s) && Act(s, a).Some? && (a.Unlink? || a.Spawn?)
    ensures Single(Act(s, a).value) && Harmless(s, a, Act(s, a).value)
  {
    ActStaysDead(s, a);
    assert Guarded(s, a.who);
    assert Answers(s) ==> !IsDead(s, s.file.value);
  }

  lemma PendingKeepsSingle(s: State, a: Action)
    requires Inv(s) && Act(s, a).Some? && (a.Probe? || a.Reclaim? || a.Bind?)
    ensures Single(Act(s, a).value) && Harmless(s, a, Act(s, a).value)
  {
    ActStaysDead(s, a);
    assert !IsDead(s, a.daemon);
    assert Answers(s) ==> !IsDead(s, s.file.value);
  }

  lemma LeavingKeepsSingle(s: State, a: Action)
    requires Inv(s) && Act(s, a).Some? && (a.Close? || a.Remove? || a.Crash?)
    ensures Single(Act(s, a).value) && Harmless(s, a, Act(s, a).value)
  {
    ActStaysDead(s, a);
    InvIsSafe(s);
    if Answers(s) {
      assert !IsDead(s, s.file.value);
      assert a.daemon == s.file.value || IsDead(s, a.daemon);
    }
  }

  // --- Runs --------------------------------------------------------------------------------------

  function Exec(s: State, run: seq<Action>): Option<State>
    decreases |run|
  {
    if run == [] then Some(s)
    else
      var before := Exec(s, run[..|run| - 1]);
      if before.None? then None else Act(before.value, run[|run| - 1])
  }

  /** No launcher in the run stops waiting early. */
  predicate AllPatient(s: State, run: seq<Action>) {
    forall k | 0 <= k < |run| && Exec(s, run[..k]).Some? :: Patient(Exec(s, run[..k]).value, run[k])
  }

  /** Nobody is launching and whatever the path names is dead. */
  predicate Initial(s: State) {
    && s.lock.None?
    && (forall p: nat | p < |s.candidates| :: s.candidates[p].Idle?)
    && (forall d: nat | d < |s.daemons| :: s.daemons[d].Dead?)
  }

  lemma InitialInv(s: State)
    requires Initial(s)
    ensures Inv(s)
  {
    assert AllDead(s);
  }

  lemma StepKeepsInv(s: State, a: Action)
    requires Inv(s) && Act(s, a).Some? && Patient(s, a)
    ensures Inv(Act(s, a).value) && Harmless(s, a, Act(s, a).value)
  {
    hide Act, Single, Exclusive, Harmless;
    ActKeepsExclusive(s, a);
    if a.Unlink? || a.Spawn? {
      LaunchKeepsSingle(s, a);
    } else if OfCandidate(a) {
      LockKeepsSingle(s, a);
    } else if a.Close? || a.Remove? || a.Crash? {
      LeavingKeepsSingle(s, a);
    } else {
      PendingKeepsSingle(s, a);
    }
  }

  lemma {:induction false} RunsKeepInv(s: State, run: seq<Action>)
    requires Inv(s) && Exec(s, run).Some? && AllPatient(s, run)
    ensures Inv(Exec(s, run).value)
    ensures run != [] ==> Harmless(Exec(s, run[..|run| - 1]).value, run[|run| - 1], Exec(s, run).value)
    decreases |run|
  {
    if run != [] {
      var init, a := run[..|run| - 1], run[|run| - 1];
      assert forall k | 0 <= k <= |init| :: init[..k] == run[..k];
      RunsKeepInv(s, init);
      assert Patient(Exec(s, init).value, a);
      StepKeepsInv(Exec(s, init).value, a);
    }
  }

  lemma {:induction false} ExecPrefix(s: State, run: seq<Action>, k: nat)
    requires Exec(s, run).Some? && k <= |run|
    ensures Exec(s, run[..k]).Some?
    decreases |run|
  {
    if k == |run| {
      assert run[..k] == run;
    } else {
      ExecPrefix(s, run[..|run| - 1], k);
      assert run[..|run| - 1][..k] == run[..k];
    }
  }

  /** However candidates and daemons interleave, fail and die: while every launcher waits for its
      daemon to answer or die, at most one daemon is live at any time, and no step but that daemon's
      own exit removes its socket. */
  lemma {:induction false} ElectionIsSafe(s: State, run: seq<Action>, k: nat)
    requires Initial(s) && Exec(s, run).Some? && AllPatient(s, run) && k < |run|
    ensures Exec(s, run[..k]).Some? && Exec(s, run[..k + 1]).Some?
    ensures AtMostOneLive(Exec(s, run[..k]).value) && AtMostOneLive(Exec(s, run[..k + 1]).value)
    ensures Harmless(Exec(s, run[..k]).value, run[k], Exec(s, run[..k + 1]).value)
  {
    var next := run[..k + 1];
    ExecPrefix(s, run, k);
    ExecPrefix(s, run, k + 1);
    assert next[..k] == run[..k];
    assert forall i | 0 <= i <= k :: next[..i] == run[..i];
    assert forall i | 0 <= i < k :: run[..k][..i] == run[..i];
    InitialInv(s);
    RunsKeepInv(s, run[..k]);
    RunsKeepInv(s, next);
    InvIsSafe(Exec(s, run[..k]).value);
    InvIsSafe(Exec(s, next).value);
  }

  /** A launcher that sees an answer was elected: the daemon that answers is the one it spawned. */
  lemma AnswerIsOwn(s: State, p: nat)
    requires Inv(s) && p < |s.candidates| && s.candidates[p].Waiting? && Answers(s)
    ensures s.file == Some(s.candidates[p].daemon)
  {
    assert Guarded(s, p);
    assert !IsDead(s, s.file.value);
  }

  // --- Why the launcher must wait ------------------------------------------------------------------

  predicate Leads(s: State, a: Action, t: State) {
    var done := Act(s, a);
    && done.Some? && done.value.candidates == t.candidates && done.value.daemons == t.daemons
    && done.value.lock == t.lock && done.value.file == t.file
  }

  lemma Then(s: State, run: seq<Action>, from: State, a: Action, to: State)
    requires Exec(s, run) == Some(from) && Leads(from, a, to)
    ensures Exec(s, run + [a]) == Some(to)
  {
    assert (run + [a])[..|run|] == run;
  }

  lemma Three(s: State, run: seq<Action>, from: State, a: Action, t: State, b: Action, u: State, c: Action, v: State)
    requires Exec(s, run) == Some(from) && Leads(from, a, t) && Leads(t, b, u) && Leads(u, c, v)
    ensures Exec(s, run + [a, b, c]) == Some(v)
  {
    Then(s, run, from, a, t);
    Then(s, run + [a], t, b, u);
    Then(s, run + [a] + [b], u, c, v);
    assert run + [a] + [b] + [c] == run + [a, b, c];
  }

  function Impatient(): seq<Action> {
    [] + [Enter(0), TryLock(0), Check(0)]
    + [Unlink(0), Spawn(0), TimeOut(0)]
    + [Enter(1), TryLock(1), Check(1)]
    + [Probe(0), Bind(0), Unlink(1)]
    + [Spawn(1), Probe(1), Bind(1)]
  }

  lemma ExecNone(s: State)
    ensures Exec(s, []) == Some(s)
  {
  }

  lemma ImpatientRun(s: State)
    requires s == State([Idle, Idle], [], None, None)
    ensures Exec(s, Impatient()) == Some(State([Idle, Waiting(1)], [Serving, Serving], Some(1), Some(1)))
  {
    hide Exec;
    ExecNone(s);
    var locked := State([Clearing, Idle], [], Some(0), None);
    Three(s, [], s, Enter(0), State([Trying, Idle], [], None, None),
          TryLock(0), State([Holding, Idle], [], Some(0), None), Check(0), locked);
    var run := [] + [Enter(0), TryLock(0), Check(0)];
    var left := State([Idle, Idle], [Starting], None, None);
    Three(s, run, locked, Unlink(0), State([Spawning, Idle], [], Some(0), None),
          Spawn(0), State([Waiting(0), Idle], [Starting], Some(0), None), TimeOut(0), left);
    run := run + [Unlink(0), Spawn(0), TimeOut(0)];
    var looked := State([Idle, Clearing], [Starting], Some(1), None);
    Three(s, run, left, Enter(1), State([Idle, Trying], [Starting], None, None),
          TryLock(1), State([Idle, Holding], [Starting], Some(1), None), Check(1), looked);
    run := run + [Enter(1), TryLock(1), Check(1)];
    ImpatientEnd(s, run, looked);
  }

  /** The second launcher looked before the first daemon bound, and clears its path afterwards. */
  lemma ImpatientEnd(s: State, run: seq<Action>, looked: State)
    requires looked == State([Idle, Clearing], [Starting], Some(1), None) && Exec(s, run) == Some(looked)
    ensures Exec(s, run + [Probe(0), Bind(0), Unlink(1)] + [Spawn(1), Probe(1), Bind(1)])
            == Some(State([Idle, Waiting(1)], [Serving, Serving], Some(1), Some(1)))
  {
    hide Exec;
    var served := State([Idle, Clearing], [Serving], Some(1), Some(0));
    var cleared := State([Idle, Spawning], [Serving], Some(1), None);
    Three(s, run, looked, Probe(0), State([Idle, Clearing], [Binding], Some(1), None),
          Bind(0), served, Unlink(1), cleared);
    Three(s, run + [Probe(0), Bind(0), Unlink(1)], cleared,
          Spawn(1), State([Idle, Waiting(1)], [Serving, Starting], Some(1), None),
          Probe(1), State([Idle, Waiting(1)], [Serving, Binding], Some(1), None),
          Bind(1), State([Idle, Waiting(1)], [Serving, Serving], Some(1), Some(1)));
  }

  /** Should one launcher time out before its daemon answers, two daemons can end up serving: a second
      candidate that looked too early removes the path of the first and starts another. */
  lemma ImpatienceSplits()
    ensures exists s: State, run: seq<Action> ::
              && Initial(s) && Exec(s, run).Some? && !AtMostOneLive(Exec(s, run).value)
              && |run| == 15 && run[5] == TimeOut(0)
              && (forall k | 0 <= k < |run| && k != 5 :: !run[k].TimeOut? && !run[k].Die? && !run[k].Crash?)
  {
    var s := State([Idle, Idle], [], None, None);
    ImpatientRun(s);
    var end := Exec(s, Impatient()).value;
    assert !IsDead(end, 0) && !IsDead(end, 1);
    assert Initial(s) && Impatient()[5] == TimeOut(0);
  }

  // --- When giving up is safe ------------------------------------------------------------------------

  function Holder(s: State): Candidate {
    if s.lock.Some? && s.lock.value < |s.candidates| then s.candidates[s.lock.value] else Idle
  }

  /** While a launcher spawns or its daemon starts, the path names nothing. */
  predicate Cleared(s: State) {
    match Holder(s)
    case Spawning => s.file.None?
    case Waiting(d) => d < |s.daemons| && IsPending(s, d) ==> s.file.None? && !s.daemons[d].Reclaiming?
    case _ => true
  }

  lemma ActKeepsCleared(s: State, a: Action)
    requires Inv(s) && Cleared(s) && Act(s, a).Some?
    ensures Cleared(Act(s, a).value)
  {
    if OfCandidate(a) {
      assert Guarded(s, a.who);
    } else {
      assert a.daemon < |s.daemons|;
      assert IsDead(s, a.daemon) || !IsDead(s, a.daemon);
      assert Answers(s) ==> !IsDead(s, s.file.value);
    }
  }

  lemma {:induction false} RunsKeepCleared(s: State, run: seq<Action>)
    requires Inv(s) && Cleared(s) && Exec(s, run).Some? && AllPatient(s, run)
    ensures Inv(Exec(s, run).value) && Cleared(Exec(s, run).value)
    decreases |run|
  {
    hide Act, Inv, Cleared, Patient;
    if run != [] {
      var init := run[..|run| - 1];
      assert forall k | 0 <= k <= |init| :: init[..k] == run[..k];
      RunsKeepCleared(s, init);
      assert Patient(Exec(s, init).value, run[|run| - 1]);
      StepKeepsInv(Exec(s, init).value, run[|run| - 1]);
      ActKeepsCleared(Exec(s, init).value, run[|run| - 1]);
    }
  }

  /** Nobody gives up, dies or crashes. */
  predicate Calm(run: seq<Action>) {
    forall a <- run :: !a.TimeOut? && !a.Die? && !a.Crash?
  }

  lemma CalmIsPatient(s: State, run: seq<Action>)
    requires Calm(run)
    ensures AllPatient(s, run)
  {
  }

  lemma Next(s: State, run: seq<Action>, from: State, a: Action) returns (longer: seq<Action>, to: State)
    requires Exec(s, run) == Some(from) && Act(from, a).Some?
    requires Calm(run) && !a.TimeOut? && !a.Die? && !a.Crash?
    ensures Calm(longer) && Some(to) == Act(from, a) && Exec(s, longer) == Some(to)
  {
    longer, to := run + [a], Act(from, a).value;
    assert longer[..|run|] == run;
  }

  /** A candidate that can still launch. */
  predicate Free(s: State, p: nat) {
    At(s, p, Idle) || At(s, p, Trying)
  }

  /** The lock is free and the path names nothing, but a daemon is still on its way up. */
  predicate Abandoned(s: State, d: nat) {
    s.lock.None? && s.file.None? && (Is(s, d, Starting) || Is(s, d, Binding))
  }

  lemma GivingUpAbandons(s: State, a: Action)
    requires Inv(s) && Cleared(s) && Act(s, a).Some? && !Patient(s, a)
    ensures var next := Act(s, a).value; exists d :: Abandoned(next, d)
  {
    assert Guarded(s, a.who);
    assert Abandoned(Act(s, a).value, s.candidates[a.who].daemon);
  }

  /** Another candidate takes the lock and sees nobody answer. */
  lemma LooksTooEarly(s: State, d: nat, q: nat) returns (run: seq<Action>, t: State)
    requires Abandoned(s, d) && Free(s, q)
    ensures Calm(run) && Exec(s, run) == Some(t)
    ensures At(t, q, Clearing) && t.file.None? && (Is(t, d, Starting) || Is(t, d, Binding))
  {
    hide Exec, Calm;
    run, t := [], s;
    ExecNone(s);
    CalmNone();
    if t.candidates[q].Idle? {
      run, t := Next(s, run, t, Enter(q));
    }
    run, t := Next(s, run, t, TryLock(q));
    run, t := Next(s, run, t, Check(q));
  }

  lemma CalmNone()
    ensures Calm([])
  {
  }

  /** The first daemon comes up, and the candidate removes its path and starts a second. */
  lemma StartsASecond(s: State, run: seq<Action>, t: State, d: nat, q: nat)
    returns (longer: seq<Action>, end: State, e: nat)
    requires Calm(run) && Exec(s, run) == Some(t)
    requires At(t, q, Clearing) && t.file.None? && (Is(t, d, Starting) || Is(t, d, Binding))
    ensures Calm(longer) && Exec(s, longer) == Some(end) && d != e && Is(end, d, Serving) && Is(end, e, Serving)
  {
    hide Exec, Calm;
    longer, end, e := run, t, |t.daemons|;
    if end.daemons[d].Starting? {
      longer, end := Next(s, longer, end, Probe(d));
    }
    longer, end := Next(s, longer, end, Bind(d));
    longer, end := Next(s, longer, end, Unlink(q));
    longer, end := Next(s, longer, end, Spawn(q));
    longer, end := Next(s, longer, end, Probe(e));
    longer, end := Next(s, longer, end, Bind(e));
  }

  ghost predicate TwoServe(s: State) {
    exists d: nat, e: nat :: d != e && Is(s, d, Serving) && Is(s, e, Serving)
  }

  lemma TwoServeIsUnsafe(s: State)
    requires TwoServe(s)
    ensures !AtMostOneLive(s)
  {
    var d: nat, e: nat :| d != e && Is(s, d, Serving) && Is(s, e, Serving);
    assert !IsDead(s, d) && !IsDead(s, e);
  }

  /** However a run got there: once a launcher gives up while its daemon is still starting, and some
      candidate is left, the run can go on, with nobody else giving up, to two serving daemons. */
  lemma GivingUpSplits(s: State, run: seq<Action>, a: Action)
    requires Initial(s) && Exec(s, run).Some? && AllPatient(s, run)
    requires Act(Exec(s, run).value, a).Some? && !Patient(Exec(s, run).value, a)
    requires exists q :: Free(Act(Exec(s, run).value, a).value, q)
    ensures var next := Act(Exec(s, run).value, a).value;
            exists more :: Calm(more) && Exec(next, more).Some? && TwoServe(Exec(next, more).value)
  {
    hide Act, Exec, AllPatient, Inv, Cleared, Patient, Abandoned, Initial;
    InitialInv(s);
    InitialCleared(s);
    RunsKeepCleared(s, run);
    GivingUpAbandons(Exec(s, run).value, a);
    var next := Act(Exec(s, run).value, a).value;
    var d: nat :| Abandoned(next, d);
    var q: nat :| Free(next, q);
    var more, t := LooksTooEarly(next, d, q);
    var longer, end, e := StartsASecond(next, more, t, d, q);
    assert TwoServe(Exec(next, longer).value);
  }

  lemma InitialCleared(s: State)
    requires Initial(s)
    ensures Cleared(s)
  {
  }

  // --- and when it is not ----------------------------------------------------------------------------

  predicate IsGone(s: State, p: nat)
    requires p < |s.candidates|
  {
    s.candidates[p].Gone?
  }

  /** Nobody is left to launch, and only this daemon may still live. */
  predicate Orphaned(s: State, d: nat) {
    && s.lock.None?
    && (forall p: nat {:trigger IsGone(s, p)} | p < |s.candidates| :: IsGone(s, p))
    && d < |s.daemons| && OthersDead(s, d) && (IsListening(s, d) ==> Owns(s, d))
  }

  lemma GivingUpOrphans(s: State, a: Action)
    requires Inv(s) && Act(s, a).Some? && !Patient(s, a)
    requires !exists q :: Free(Act(s, a).value, q)
    ensures exists d :: Orphaned(Act(s, a).value, d)
  {
    var next := Act(s, a).value;
    ActKeepsExclusive(s, a);
    assert Guarded(s, a.who);
    forall p: nat | p < |next.candidates| ensures IsGone(next, p) {
      assert Guarded(next, p);
      assert !Free(next, p);
    }
    ActStaysDead(s, a);
    assert Orphaned(next, s.candidates[a.who].daemon);
  }

  lemma ActKeepsOrphaned(s: State, a: Action, d: nat)
    requires Orphaned(s, d) && Act(s, a).Some?
    ensures Orphaned(Act(s, a).value, d)
  {
    var next := Act(s, a).value;
    ActStaysDead(s, a);
    if OfCandidate(a) {
      assert IsGone(s, a.who);
    } else if a.daemon != d {
      assert IsDead(s, a.daemon);
    }
    forall p: nat | p < |next.candidates| ensures IsGone(next, p) {
      assert IsGone(s, p);
    }
  }

  lemma OneIsSafe(s: State, d: nat)
    requires Orphaned(s, d)
    ensures AtMostOneLive(s)
  {
    forall e: nat | e < |s.daemons| && IsListening(s, e) ensures Owns(s, e) {
      assert !IsDead(s, e);
    }
  }

  lemma {:induction false} OrphanedIsSafe(s: State, run: seq<Action>, d: nat)
    requires Orphaned(s, d) && Exec(s, run).Some?
    ensures Orphaned(Exec(s, run).value, d) && AtMostOneLive(Exec(s, run).value)
    decreases |run|
  {
    hide Act, Orphaned, AtMostOneLive;
    if run != [] {
      OrphanedIsSafe(s, run[..|run| - 1], d);
      ActKeepsOrphaned(Exec(s, run[..|run| - 1]).value, run[|run| - 1], d);
    }
    OneIsSafe(Exec(s, run).value, d);
  }

  /** In any state a patient run reaches, a step is safe, in that whatever patient steps follow leave at
      most one daemon live, exactly if it is patient itself or nobody is left to launch after it. */
  lemma GivingUpIsSafeIff(s: State, run: seq<Action>, a: Action)
    requires Initial(s) && Exec(s, run).Some? && AllPatient(s, run) && Act(Exec(s, run).value, a).Some?
    ensures var before := Exec(s, run).value; var next := Act(before, a).value;
            (forall more | Exec(next, more).Some? && AllPatient(next, more) :: AtMostOneLive(Exec(next, more).value))
            <==> Patient(before, a) || !exists q :: Free(next, q)
  {
    hide Act, Exec, AllPatient, Inv, Patient, AtMostOneLive, Orphaned, Initial, Free;
    var before := Exec(s, run).value;
    var next := Act(before, a).value;
    InitialInv(s);
    RunsKeepInv(s, run);
    if Patient(before, a) {
      StepKeepsInv(before, a);
      forall more | Exec(next, more).Some? && AllPatient(next, more) ensures AtMostOneLive(Exec(next, more).value) {
        RunsKeepInv(next, more);
        InvIsSafe(Exec(next, more).value);
      }
    } else if exists q :: Free(next, q) {
      GivingUpSplits(s, run, a);
      var more :| Calm(more) && Exec(next, more).Some? && TwoServe(Exec(next, more).value);
      CalmIsPatient(next, more);
      TwoServeIsUnsafe(Exec(next, more).value);
    } else {
      GivingUpOrphans(before, a);
      var d: nat :| Orphaned(next, d);
      forall more | Exec(next, more).Some? && AllPatient(next, more) ensures AtMostOneLive(Exec(next, more).value) {
        OrphanedIsSafe(next, more, d);
      }
    }
  }

  // --- Watching --------------------------------------------------------------------------------------

  predicate IsIdle(s: State, p: nat)
    requires p < |s.candidates|
  {
    s.candidates[p].Idle?
  }

  predicate AllIdle(s: State) {
    forall p: nat {:trigger IsIdle(s, p)} | p < |s.candidates| :: IsIdle(s, p)
  }

  /** Watchers look, and daemons go on; nobody asks for an election otherwise and no process goes away. */
  predicate Watching(run: seq<Action>) {
    forall a <- run :: !a.Enter? && !a.Die? && !a.Close? && !a.Remove? && !a.Crash?
  }

  lemma LookingStartsNothing(s: State, a: Action)
    requires Inv(s) && s.lock.None? && AllIdle(s) && Answers(s) && Watching([a])
    ensures Act(s, a).Some? ==> Act(s, a) == Some(s)
  {
    assert a in [a];
    if OfCandidate(a) {
      assert a.who < |s.candidates| ==> IsIdle(s, a.who);
    } else {
      if a.daemon < |s.daemons| {
        ServingAlone(s, a.daemon);
      }
    }
  }

  lemma ServingAlone(s: State, d: nat)
    requires Inv(s) && s.lock.None? && Answers(s) && d < |s.daemons|
    ensures IsDead(s, d) || IsListening(s, d)
  {
    assert !IsDead(s, s.file.value);
    assert IsDead(s, d) || !IsDead(s, d);
  }

  lemma WatchingOn(run: seq<Action>)
    requires Watching(run) && run != []
    ensures Watching(run[..|run| - 1]) && Watching([run[|run| - 1]])
  {
    assert forall a <- run[..|run| - 1] :: a in run;
    assert run[|run| - 1] in run;
  }

  /** While a daemon answers, watching clients start no election and change nothing. */
  lemma {:induction false} WatchersStartNothing(s: State, run: seq<Action>)
    requires Inv(s) && s.lock.None? && AllIdle(s) && Answers(s) && Exec(s, run).Some? && Watching(run)
    ensures Exec(s, run) == Some(s)
    decreases |run|
  {
    hide Act, Inv, Answers, AllIdle, Watching;
    if run != [] {
      var init, a := run[..|run| - 1], run[|run| - 1];
      WatchingOn(run);
      WatchersStartNothing(s, init);
      LookingStartsNothing(s, a);
    }
  }

  /** When nobody answers, a watching client that is idle turns to the election. */
  lemma WatchersElect(s: State, p: nat)
    requires At(s, p, Idle) && !Answers(s)
    ensures Act(s, Look(p)).Some? && At(Act(s, Look(p)).value, p, Trying)
  {
  }

  // --- An undisturbed launch ---------------------------------------------------------------------------

  /** Where nobody answers and the lock is free, an idle candidate can launch a daemon that serves, and
      leaves the lock free again. */
  lemma LaunchSucceeds(s: State, q: nat) returns (run: seq<Action>, t: State)
    requires s.lock.None? && At(s, q, Idle) && !Answers(s)
    ensures Calm(run) && Exec(s, run) == Some(t)
    ensures t.lock.None? && At(t, q, Idle) && Answers(t) && t.file == Some(|s.daemons|)
    ensures |t.daemons| == |s.daemons| + 1 && t.daemons[..|s.daemons|] == s.daemons
    ensures t.candidates == s.candidates
  {
    hide Exec, Calm;
    run, t := LooksFirst(s, q);
    run, t := Next(s, run, t, Unlink(q));
    run, t := Next(s, run, t, Spawn(q));
    run, t := ComesUp(s, run, t, |s.daemons|);
    run, t := Next(s, run, t, Poll(q));
  }

  lemma LooksFirst(s: State, q: nat) returns (run: seq<Action>, t: State)
    requires s.lock.None? && At(s, q, Idle) && !Answers(s)
    ensures Calm(run) && Exec(s, run) == Some(t)
    ensures t == State(s.candidates[q := Clearing], s.daemons, Some(q), s.file)
  {
    hide Exec, Calm;
    run, t := [], s;
    ExecNone(s);
    CalmNone();
    run, t := Next(s, run, t, Look(q));
    run, t := Next(s, run, t, TryLock(q));
    run, t := Next(s, run, t, Check(q));
  }

  /** A daemon that starts where no path is in its way comes to serve. */
  lemma ComesUp(s: State, run: seq<Action>, t: State, d: nat) returns (longer: seq<Action>, end: State)
    requires Calm(run) && Exec(s, run) == Some(t) && Is(t, d, Starting) && t.file.None?
    ensures Calm(longer) && Exec(s, longer) == Some(end)
    ensures end == t.(daemons := t.daemons[d := Serving], file := Some(d))
  {
    hide Exec, Calm;
    longer, end := Next(s, run, t, Probe(d));
    longer, end := Next(s, longer, end, Bind(d));
  }

  /** A daemon that serves can leave, and takes its path with it. */
  lemma LeavesCleanly(s: State, d: nat) returns (run: seq<Action>, t: State)
    requires Is(s, d, Serving)
    ensures Calm(run) && Exec(s, run) == Some(t) && t == s.(daemons := s.daemons[d := Dead], file := None)
  {
    hide Exec, Calm;
    run, t := [], s;
    ExecNone(s);
    CalmNone();
    run, t := Next(s, run, t, Close(d));
    run, t := Next(s, run, t, Remove(d));
  }

  // --- Who touches what --------------------------------------------------------------------------------

  /** A candidate moves only itself, a daemon only itself; the path is cleared by whoever launches, reclaims
      or leaves, and taken only by the daemon that binds it; a lock that is held turns others away, and goes
      only with its holder. */
  lemma WhoTouchesWhat(s: State, a: Action)
    requires Act(s, a).Some?
    ensures var t := Act(s, a).value;
            && |t.candidates| == |s.candidates| && |t.daemons| == |s.daemons| + (if a.Spawn? then 1 else 0)
            && (forall p | 0 <= p < |s.candidates| && t.candidates[p] != s.candidates[p] ::
                  OfCandidate(a) && a.who == p)
            && (forall d | 0 <= d < |s.daemons| && t.daemons[d] != s.daemons[d] :: !OfCandidate(a) && a.daemon == d)
            && (t.file != s.file ==>
                  if a.Bind? then s.file.None? && t.file == Some(a.daemon)
                  else t.file.None? && (a.Unlink? || a.Reclaim? || a.Remove?))
            && (t.lock != s.lock ==>
                  if a.TryLock? then s.lock.None? && t.lock == Some(a.who)
                  else
                    && t.lock.None? && OfCandidate(a) && HoldsLock(s.candidates[a.who])
                    && (t.candidates[a.who].Idle? || t.candidates[a.who].Gone?))
            && (a.TryLock? && s.lock.Some? ==> At(t, a.who, Idle) && t.lock == s.lock)
            && (a.Unlink? || a.Remove? ==> t.file.None?)
  {
  }
}
