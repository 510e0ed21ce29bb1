/** Retry timing: the backoff arithmetic, the counters one turn keeps, and the one-shot retry driver.
    Durations are exact reals in seconds; the jitter is any unit the random source may return. */
module Retry {
  import opened Types

  const MAX_RETRIES: nat := 5
  const RETRY_MAX_DELAY: real := 60.0
  const NETWORK_RETRY_CAP: real := 60.0

  function Min(a: real, b: real): real {
    if a <= b then a else b
  }

  function Max(a: real, b: real): real {
    if a <= b then b else a
  }

  function Shift(n: nat): nat {
    if n == 0 then 1 else 2 * Shift(n - 1)
  }

  /** `attempt.saturating_sub(1).min(cap)`. */
  function Exponent(attempt: nat, cap: nat): nat {
    var e := if attempt == 0 then 0 else attempt - 1;
    if e <= cap then e else cap
  }

  function Jitter(backoff: real, unit: real): real {
    backoff * Factor(unit)
  }

  function RetryBackoff(attempt: nat): real {
    Shift(Exponent(attempt, 4)) as real
  }

  function JitteredRetryDelay(backoff: real, retryAfter: Option<real>, unit: real): Option<real> {
    if retryAfter.Some? && retryAfter.value > RETRY_MAX_DELAY then None
    else if retryAfter.Some? && retryAfter.value >= backoff then retryAfter
    else Some(Max(Jitter(backoff, unit), retryAfter.GetOr(0.0)))
  }

  function JitteredNetworkDelay(tries: nat, unit: real): real {
    Min(Jitter(Min(Shift(Exponent(tries, 6)) as real, NETWORK_RETRY_CAP), unit), NETWORK_RETRY_CAP)
  }

  /** The factor a backoff is multiplied by. */
  function Factor(unit: real): (f: real)
    ensures 0.75 <= f <= 1.25
  {
    0.75 + 0.5 * Max(0.0, Min(unit, 1.0))
  }

  lemma JitterRange(backoff: real, unit: real)
    requires backoff >= 0.0
    ensures 0.75 * backoff <= Jitter(backoff, unit) <= 1.25 * backoff
  {
    Scale(backoff, 0.75, Factor(unit));
    Scale(backoff, Factor(unit), 1.25);
  }

  lemma Scale(b: real, x: real, y: real)
    requires b >= 0.0 && x <= y
    ensures b * x <= b * y
  {
    assert b * (y - x) >= 0.0;
  }

  lemma Backoffs(attempt: nat)
    ensures RetryBackoff(attempt) in {1.0, 2.0, 4.0, 8.0, 16.0}
  {
    var e := Exponent(attempt, 4);
    assert e in {0, 1, 2, 3, 4};
    assert Shift(2) == 4 && Shift(3) == 8 && Shift(4) == 16;
  }

  /** A retry is refused exactly when the server asks for more than the cap; otherwise it waits at
      least as long as the server asked and never past the cap. */
  lemma RetryDelayContract(attempt: nat, retryAfter: Option<real>, unit: real)
    requires retryAfter.Some? ==> retryAfter.value >= 0.0
    ensures var delay := JitteredRetryDelay(RetryBackoff(attempt), retryAfter, unit);
            && (delay.None? <==> retryAfter.Some? && retryAfter.value > RETRY_MAX_DELAY)
            && (delay.Some? ==> retryAfter.GetOr(0.0) <= delay.value <= RETRY_MAX_DELAY && delay.value >= 0.75)
  {
    Backoffs(attempt);
    JitterRange(RetryBackoff(attempt), unit);
  }

  lemma NetworkBase(tries: nat)
    requires tries >= 1
    ensures tries >= 7 ==> Shift(Exponent(tries, 6)) == 64
    ensures tries == 1 ==> Shift(Exponent(tries, 6)) == 1
    ensures 1 < tries <= 7 ==> Shift(Exponent(tries, 6)) == 2 * Shift(Exponent(tries - 1, 6))
    ensures tries < 7 ==> 1 <= Shift(Exponent(tries, 6)) <= 32
  {
    assert Shift(2) == 4 && Shift(3) == 8 && Shift(4) == 16 && Shift(5) == 32 && Shift(6) == 64;
    if tries < 7 {
      assert Exponent(tries, 6) in {0, 1, 2, 3, 4, 5};
    }
  }

  /** Whatever the jitter draws, each of the first seven waits for the network outlasts the one
      before it, and every later wait lies between 45 and 60 seconds. */
  lemma NetworkDelaysGrow(tries: nat, unit: real, nextUnit: real)
    requires tries >= 1
    ensures tries < 7 ==> JitteredNetworkDelay(tries, unit) < JitteredNetworkDelay(tries + 1, nextUnit)
    ensures tries >= 7 ==> 45.0 <= JitteredNetworkDelay(tries, unit) <= 60.0
  {
    NetworkBase(tries);
    NetworkBase(tries + 1);
    var base := Min(Shift(Exponent(tries, 6)) as real, NETWORK_RETRY_CAP);
    var next := Min(Shift(Exponent(tries + 1, 6)) as real, NETWORK_RETRY_CAP);
    JitterRange(base, unit);
    JitterRange(next, nextUnit);
    if tries < 7 {
      assert next == 2.0 * base || (base == 32.0 && next == 60.0);
    }
  }

  /** The backoffs by name: one second, doubled with every retry up to the fifth and kept from then on; the
      jitter takes off up to a quarter of it or adds up to a quarter. */
  lemma DelayIsJitteredBackoff(n: nat, retryAfter: Option<real>, unit: real)
    requires n >= 1 && 0.0 <= unit <= 1.0
    ensures var backoff := if n == 1 then 1.0 else if n == 2 then 2.0 else if n == 3 then 4.0 else if n == 4 then 8.0
                           else 16.0;
            var jittered := backoff * (0.75 + unit / 2.0);
            JitteredRetryDelay(RetryBackoff(n), retryAfter, unit)
            == match retryAfter
               case None => Some(if jittered < 0.0 then 0.0 else jittered)
               case Some(wait) =>
                 if wait > 60.0 then None
                 else if wait >= backoff || wait >= jittered then Some(wait)
                 else Some(jittered)
  {
    assert Shift(2) == 4 && Shift(3) == 8 && Shift(4) == 16;
    assert n >= 5 ==> Exponent(n, 4) == 4;
  }

  /** The same for the waits for the network: doubled up to 32 seconds, then a minute, never more. */
  lemma NetworkDelayIsJitteredBackoff(n: nat, unit: real)
    requires n >= 1 && 0.0 <= unit <= 1.0
    ensures var backoff := if n == 1 then 1.0 else if n == 2 then 2.0 else if n == 3 then 4.0 else if n == 4 then 8.0
                           else if n == 5 then 16.0 else if n == 6 then 32.0 else 60.0;
            var jittered := backoff * (0.75 + unit / 2.0);
            JitteredNetworkDelay(n, unit) == if jittered > 60.0 then 60.0 else jittered
  {
    assert Shift(2) == 4 && Shift(3) == 8 && Shift(4) == 16 && Shift(5) == 32 && Shift(6) == 64;
    assert n >= 7 ==> Exponent(n, 6) == 6;
  }

  /** Draws outside the unit interval count as its nearest end. */
  lemma DrawsAreClamped(backoff: real, unit: real)
    ensures unit <= 0.0 ==> Jitter(backoff, unit) == Jitter(backoff, 0.0)
    ensures unit >= 1.0 ==> Jitter(backoff, unit) == Jitter(backoff, 1.0)
  {
  }

  /** A duration is told in whole milliseconds, rounded down. */
  lemma MillisRoundDown(delay: real)
    requires delay >= 0.0
    ensures Millis(delay) as real <= delay * 1000.0 < Millis(delay) as real + 1.0
  {
  }

  function Total(delays: seq<real>): real {
    if delays == [] then 0.0 else delays[0] + Total(delays[1..])
  }

  /** The delays of a driver that retried `|units|` times without a server header. */
  function Schedule(units: seq<real>): (delays: seq<real>)
    ensures |delays| == |units|
  {
    seq(|units|, i requires 0 <= i < |units| => Jitter(RetryBackoff(i + 1), units[i]))
  }

  lemma FiveRetriesTotal(units: seq<real>)
    requires |units| == MAX_RETRIES
    ensures 23.25 <= Total(Schedule(units)) <= 38.75
  {
    var d := Schedule(units);
    assert Shift(2) == 4 && Shift(3) == 8 && Shift(4) == 16;
    JitterRange(1.0, units[0]);
    JitterRange(2.0, units[1]);
    JitterRange(4.0, units[2]);
    JitterRange(8.0, units[3]);
    JitterRange(16.0, units[4]);
    assert d[1..][1..] == d[2..] && d[2..][1..] == d[3..] && d[3..][1..] == d[4..] && d[4..][1..] == [];
    assert Total(d) == d[0] + (d[1] + (d[2] + (d[3] + (d[4] + 0.0)))) by {
      assert Total(d[4..]) == d[4] + Total([]);
      assert Total(d[3..]) == d[3] + Total(d[4..]);
      assert Total(d[2..]) == d[2] + Total(d[3..]);
      assert Total(d[1..]) == d[1] + Total(d[2..]);
    }
  }

  /** One retry: what the server asked for and what the jitter drew. */
  datatype Sleep = Sleep(retryAfter: Option<real>, unit: real)

  /** How long the `n`th retry waits; `None` if it is not made. */
  function DelayOf(n: nat, s: Sleep): Option<real> {
    JitteredRetryDelay(RetryBackoff(n), s.retryAfter, s.unit)
  }

  /** The waits of the retries made, added up. */
  function Slept(sleeps: seq<Sleep>): real
    decreases |sleeps|
  {
    if sleeps == [] then 0.0
    else Slept(sleeps[..|sleeps| - 1]) + DelayOf(|sleeps|, sleeps[|sleeps| - 1]).GetOr(0.0)
  }

  /** The retries that were made: all but the refused. */
  function Made(sleeps: seq<Sleep>): (made: nat)
    ensures made <= |sleeps|
    decreases |sleeps|
  {
    if sleeps == [] then 0
    else Made(sleeps[..|sleeps| - 1]) + if DelayOf(|sleeps|, sleeps[|sleeps| - 1]).Some? then 1 else 0
  }

  predicate HeaderFree(sleeps: seq<Sleep>) {
    forall s <- sleeps :: s.retryAfter.None?
  }

  /** One more retry was counted, and this is its delay. */
  predicate Adds(before: seq<Sleep>, after: seq<Sleep>, delay: Option<real>) {
    |after| == |before| + 1 && before <= after && delay == DelayOf(|after|, after[|before|])
  }

  lemma AddedDelay(before: seq<Sleep>, after: seq<Sleep>, delay: Option<real>)
    requires Adds(before, after, delay)
    ensures Slept(after) == Slept(before) + delay.GetOr(0.0)
    ensures Made(after) == Made(before) + if delay.Some? then 1 else 0
  {
    assert after[..|after| - 1] == before;
  }

  lemma {:induction false} TotalSnoc(delays: seq<real>, d: real)
    ensures Total(delays + [d]) == Total(delays) + d
    decreases |delays|
  {
    if delays != [] {
      assert (delays + [d])[1..] == delays[1..] + [d];
      TotalSnoc(delays[1..], d);
    } else {
      assert [d][1..] == [];
    }
  }

  lemma {:induction false} HeaderFreeSlept(sleeps: seq<Sleep>)
    requires HeaderFree(sleeps)
    ensures Slept(sleeps) == Total(Schedule(seq(|sleeps|, i requires 0 <= i < |sleeps| => sleeps[i].unit)))
    decreases |sleeps|
  {
    var units := seq(|sleeps|, i requires 0 <= i < |sleeps| => sleeps[i].unit);
    if sleeps != [] {
      var n := |sleeps|;
      var init := sleeps[..n - 1];
      assert seq(n - 1, i requires 0 <= i < n - 1 => init[i].unit) == units[..n - 1];
      HeaderFreeSlept(init);
      assert Schedule(units) == Schedule(units[..n - 1]) + [Jitter(RetryBackoff(n), units[n - 1])];
      TotalSnoc(Schedule(units[..n - 1]), Jitter(RetryBackoff(n), units[n - 1]));
      Backoffs(n);
      JitterRange(RetryBackoff(n), units[n - 1]);
      assert sleeps[n - 1] in sleeps;
    }
  }

  /** Five retries for which no server named a wait take between 23.25 and 38.75 seconds in all. */
  lemma FiveHeaderFreeRetries(sleeps: seq<Sleep>)
    requires |sleeps| == MAX_RETRIES && HeaderFree(sleeps)
    ensures 23.25 <= Slept(sleeps) <= 38.75
  {
    HeaderFreeSlept(sleeps);
    FiveRetriesTotal(seq(|sleeps|, i requires 0 <= i < |sleeps| => sleeps[i].unit));
  }

  lemma FiveOf(sleeps: seq<Sleep>)
    ensures |sleeps| == MAX_RETRIES && HeaderFree(sleeps) ==> 23.25 <= Slept(sleeps) <= 38.75
  {
    if |sleeps| == MAX_RETRIES && HeaderFree(sleeps) {
      FiveHeaderFreeRetries(sleeps);
    }
  }

  /** A draw of `random_unit`. */
  method RandomUnit() returns (unit: real)
    ensures 0.0 <= unit < 1.0
  {
    unit := *;
    if !(0.0 <= unit < 1.0) {
      unit := 0.5;
    }
  }

  /** A duration as the event tells it. */
  function Millis(delay: real): nat {
    var ms := (delay * 1000.0).Floor;
    if ms < 0 then 0 else ms
  }

  /** The wait before this try, for some draw. */
  ghost predicate IsNetworkDelay(tries: nat, delay: real) {
    exists unit: real :: delay == JitteredNetworkDelay(tries, unit)
  }

  /** The retry counters of one turn. */
  class Retries {
    var failures: nat
    var networkWaits: nat
    var waitingForNetwork: bool

    /** Every retry counted so far. */
    ghost var sleeps: seq<Sleep>

    constructor ()
      ensures failures == 0 && networkWaits == 0 && !waitingForNetwork && sleeps == []
    {
      failures, networkWaits, waitingForNetwork, sleeps := 0, 0, false, [];
    }

    /** Nothing was counted that was not drawn. */
    ghost predicate Counted()
      reads this
    {
      |sleeps| == failures
    }

    predicate CanRetry()
      reads this
    {
      failures < MAX_RETRIES
    }

    method Failed(retryAfter: Option<real>) returns (delay: Option<real>)
      modifies this`failures, this`sleeps
      ensures failures == old(failures) + 1
      ensures old(Counted()) ==> Adds(old(sleeps), sleeps, delay) && sleeps[|old(sleeps)|].retryAfter == retryAfter
      ensures delay.None? <==> retryAfter.Some? && retryAfter.value > RETRY_MAX_DELAY
      ensures old(Counted()) ==> Counted()
    {
      failures := failures + 1;
      var unit := RandomUnit();
      delay := JitteredRetryDelay(RetryBackoff(failures), retryAfter, unit);
      sleeps := sleeps + [Sleep(retryAfter, unit)];
    }

    method Offline(error: string) returns (event: AgentEvent, delay: real)
      modifies this`networkWaits, this`waitingForNetwork
      ensures networkWaits == old(networkWaits) + 1 && waitingForNetwork
      ensures IsNetworkDelay(networkWaits, delay)
      ensures event == NetworkWait(error, Millis(delay))
    {
      networkWaits, waitingForNetwork := networkWaits + 1, true;
      var unit := RandomUnit();
      delay := JitteredNetworkDelay(networkWaits, unit);
      event := NetworkWait(error, Millis(delay));
    }

    method BackOnline() returns (was: bool)
      modifies this`waitingForNetwork
      ensures was == old(waitingForNetwork) && !waitingForNetwork
    {
      was, waitingForNetwork := waitingForNetwork, false;
    }
  }

  // --- The one-shot driver ----------------------------------------------------------------

  datatype Answer =
    | TextReply(text: string)
    | StreamFailed(retryable: bool)
    | Textless
    | RequestFailed(retryable: bool, retryAfter: Option<real>)

  datatype Retried = Collected(text: string, retries: nat) | GaveUp(error: Answer, retries: nat)

  function AskedFor(answer: Answer): Option<real> {
    if answer.RequestFailed? then answer.retryAfter else None
  }

  predicate Transient(answer: Answer) {
    (answer.StreamFailed? || answer.RequestFailed?) && answer.retryable
  }

  class OneshotProvider {
    /** Every answer given so far, and every sleep between two of them. */
    var answers: seq<Answer>
    ghost var naps: seq<real>

    constructor ()
      ensures answers == [] && naps == []
    {
      answers, naps := [], [];
    }

    method Call() returns (answer: Answer)
      modifies this`answers
      ensures answers == old(answers) + [answer]
    {
      answer := *;
      answers := answers + [answer];
    }

    method Sleep(delay: real)
      modifies this`naps
      ensures naps == old(naps) + [delay]
    {
      naps := naps + [delay];
    }
  }

  /** The answers before the last: each was transient, and its delay was within the cap. */
  predicate AllRetried(answers: seq<Answer>, sleeps: seq<Sleep>) {
    && |sleeps| <= |answers|
    && forall i | 0 <= i < |sleeps| ::
         Transient(answers[i]) && sleeps[i].retryAfter == AskedFor(answers[i]) && DelayOf(i + 1, sleeps[i]).Some?
  }

  lemma RetriedNext(answers: seq<Answer>, sleeps: seq<Sleep>, answer: Answer, unit: real, naps: seq<real>)
    requires AllRetried(answers, sleeps) && |answers| == |sleeps| && Transient(answer)
    requires DelayOf(|sleeps| + 1, Sleep(AskedFor(answer), unit)).Some?
    ensures var s := Sleep(AskedFor(answer), unit);
            var next, delay := sleeps + [s], DelayOf(|sleeps| + 1, s);
            && AllRetried(answers + [answer], next)
            && (Total(naps) == Slept(sleeps) ==> Total(naps + [delay.value]) == Slept(next))
  {
    var s := Sleep(AskedFor(answer), unit);
    AddedDelay(sleeps, sleeps + [s], DelayOf(|sleeps| + 1, s));
    TotalSnoc(naps, DelayOf(|sleeps| + 1, s).value);
  }

  /** Retries until an answer is text or final.  The answers before the last were all transient and
      asked for no more than the cap; the last one is text, or permanent, or asked for too long, or
      came when no retry was left.  The driver sleeps exactly the delays of its retries, and five of
      them without a server's wait take a bounded time in all. */
  method CollectTextRetrying(provider: OneshotProvider) returns (result: Retried, ghost sleeps: seq<Sleep>)
    requires provider.answers == [] && provider.naps == []
    modifies provider
    ensures result.retries <= MAX_RETRIES
    ensures |provider.answers| == result.retries + 1 && |sleeps| == result.retries
    ensures AllRetried(provider.answers, sleeps)
    ensures Total(provider.naps) == Slept(sleeps)
    ensures result.retries == MAX_RETRIES && HeaderFree(sleeps) ==> 23.25 <= Total(provider.naps) <= 38.75
    ensures var last := provider.answers[result.retries];
            && (result.Collected? <==> last.TextReply?)
            && (result.Collected? ==> result.text == last.text)
            && (result.GaveUp? ==> result.error == last)
            && (result.GaveUp? ==>
                  || !Transient(last)
                  || result.retries == MAX_RETRIES
                  || (AskedFor(last).Some? && AskedFor(last).value > RETRY_MAX_DELAY))
  {
    var retries := 0;
    sleeps := [];
    while true
      invariant retries <= MAX_RETRIES
      invariant |provider.answers| == retries == |sleeps|
      invariant AllRetried(provider.answers, sleeps)
      invariant Total(provider.naps) == Slept(sleeps)
      decreases MAX_RETRIES - retries
    {
      var canRetry := retries < MAX_RETRIES;
      var answer := provider.Call();
      var retryable := match answer
        case TextReply(_) => false
        case StreamFailed(transient) => canRetry && transient
        case Textless => false
        case RequestFailed(transient, _) => canRetry && transient;
      if answer.TextReply? {
        FiveOf(sleeps);
        return Collected(answer.text, retries), sleeps;
      }
      if !retryable {
        FiveOf(sleeps);
        return GaveUp(answer, retries), sleeps;
      }
      var unit := RandomUnit();
      var delay := JitteredRetryDelay(RetryBackoff(retries + 1), AskedFor(answer), unit);
      if delay.None? {
        return GaveUp(answer, retries), sleeps;
      }
      retries := retries + 1;
      RetriedNext(provider.answers[..retries - 1], sleeps, answer, unit, provider.naps);
      sleeps := sleeps + [Sleep(AskedFor(answer), unit)];
      assert provider.answers == provider.answers[..retries - 1] + [answer];
      provider.Sleep(delay.value);
    }
  }
}
