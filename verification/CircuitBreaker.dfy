/** The pipeline's circuit breaker (crates/application/src/data_pipeline.rs).

    Instants are naturals on a monotone clock; every operation that reads the clock
    takes the instant it read. */
module CircuitBreakers {
  import opened Values

  datatype CircuitState = Closed | Open | HalfOpen

  datatype BreakerData = BreakerData(
    state: CircuitState,
    failureCount: nat,
    lastFailure: Option<nat>,
    threshold: nat,
    timeout: nat)

  /** `Instant::elapsed` saturates at zero. */
  function Elapsed(since: nat, now: nat): nat {
    if now < since then 0 else now - since
  }

  predicate TimedOut(b: BreakerData, now: nat) {
    b.lastFailure.Some? && Elapsed(b.lastFailure.value, now) >= b.timeout
  }

  function Success(b: BreakerData): BreakerData {
    b.(state := if b.state.HalfOpen? then Closed else b.state, failureCount := 0, lastFailure := None)
  }

  function Failure(b: BreakerData, now: nat): BreakerData {
    var counted := b.(failureCount := b.failureCount + 1, lastFailure := Some(now));
    if b.state.HalfOpen? || (counted.failureCount >= b.threshold && b.state.Closed?)
    then counted.(state := Open)
    else counted
  }

  predicate CanExecute(b: BreakerData, now: nat) {
    !b.state.Open? || b.lastFailure.None? || TimedOut(b, now)
  }

  function AttemptReset(b: BreakerData, now: nat): BreakerData {
    if b.state.Open? && TimedOut(b, now) then b.(state := HalfOpen) else b
  }

  class CircuitBreaker {
    var state: CircuitState
    var failureCount: nat
    var lastFailure: Option<nat>
    const threshold: nat
    const timeout: nat

    function Data(): BreakerData
      reads this
    {
      BreakerData(state, failureCount, lastFailure, threshold, timeout)
    }

    constructor (threshold: nat, timeout: nat)
      ensures Data() == BreakerData(Closed, 0, None, threshold, timeout)
    {
      this.threshold, this.timeout := threshold, timeout;
      state, failureCount, lastFailure := Closed, 0, None;
    }

    method RecordSuccess()
      modifies this
      ensures Data() == Success(old(Data()))
      ensures failureCount == 0 && (state.Open? <==> old(state).Open?) && !state.HalfOpen?
    {
      if state == HalfOpen {
        state := Closed;
      }
      failureCount := 0;
      lastFailure := None;
    }

    method RecordFailure(now: nat) returns (s: CircuitState)
      modifies this
      ensures Data() == Failure(old(Data()), now) && s == state
      ensures failureCount == old(failureCount) + 1 && lastFailure == Some(now)
      ensures state.Open? <==> !old(state).Closed? || failureCount >= threshold
    {
      failureCount := failureCount + 1;
      lastFailure := Some(now);
      if state == HalfOpen {
        state := Open;
      } else if failureCount >= threshold && state == Closed {
        state := Open;
      }
      s := state;
    }

    method TryReset(now: nat) returns (moved: bool)
      modifies this
      ensures Data() == AttemptReset(old(Data()), now)
      ensures moved <==> state != old(state)
    {
      if state == Open {
        if lastFailure.Some? {
          if Elapsed(lastFailure.value, now) >= timeout {
            state := HalfOpen;
            return true;
          }
        }
      }
      return false;
    }
  }

  // ------------------------------------------------------------- whole runs

  /** What the persistence task does with the breaker: a flush that it allowed at
      `checkedAt` and whose save failed or succeeded at `at`, or a half-open tick. A
      flush that it refused has no effect on it. */
  datatype Event =
    | FailedFlush(checkedAt: nat, at: nat)
    | SavedFlush(checkedAt: nat, at: nat)
    | Tick(at: nat)

  function Apply(b: BreakerData, e: Event): BreakerData {
    match e
    case FailedFlush(_, at) => Failure(b, at)
    case SavedFlush(_, _) => Success(b)
    case Tick(at) => AttemptReset(b, at)
  }

  function Run(b: BreakerData, events: seq<Event>): BreakerData {
    if events == [] then b else Apply(Run(b, Front(events)), Last(events))
  }

  function New(threshold: nat, timeout: nat): BreakerData {
    BreakerData(Closed, 0, None, threshold, timeout)
  }

  function Clock(start: nat, events: seq<Event>): nat {
    if events == [] then start else Last(events).at
  }

  /** When saves failed since the last one that succeeded. */
  function FailureTimes(events: seq<Event>): seq<nat> {
    if events == [] then []
    else match Last(events)
      case FailedFlush(_, at) => FailureTimes(Front(events)) + [at]
      case SavedFlush(_, _) => []
      case Tick(_) => FailureTimes(Front(events))
  }

  /** Time does not go back, and every flush was allowed when it was checked. */
  predicate Possible(b: BreakerData, start: nat, events: seq<Event>) {
    events == [] ||
    (Possible(b, start, Front(events)) &&
     match Last(events)
     case Tick(at) => Clock(start, Front(events)) <= at
     case flush => Clock(start, Front(events)) <= flush.checkedAt <= flush.at
                   && CanExecute(Run(b, Front(events)), flush.checkedAt))
  }

  /** The last save that succeeded met an open breaker, which it leaves open. */
  predicate Stuck(b: BreakerData, events: seq<Event>) {
    events != [] &&
    if Last(events).SavedFlush? then Run(b, Front(events)).state.Open? else Stuck(b, Front(events))
  }

  function Limit(threshold: nat): (n: nat)
    ensures n > 0
  {
    if threshold == 0 then 1 else threshold
  }

  /** How many failures in a row the breaker takes before it refuses. */
  function LimitNow(b: BreakerData, events: seq<Event>): (n: nat)
    ensures n > 0
  {
    if Stuck(b, events) then 1 else Limit(b.threshold)
  }

  /** After the limit, consecutive failures are at least `timeout` apart. */
  ghost predicate Spaced(times: seq<nat>, limit: nat, timeout: nat)
    requires limit > 0
  {
    forall i :: limit <= i < |times| ==> times[i] - times[i - 1] >= timeout
  }

  /** What holds after failures at `times` since the last success, with the clock at `now`. */
  ghost predicate Tracks(r: BreakerData, times: seq<nat>, now: nat, stuck: bool) {
    && r.failureCount == |times|
    && r.lastFailure == (if times == [] then None else Some(Last(times)))
    && (times != [] ==> Last(times) <= now)
    && (r.state.Closed? <==> !stuck && |times| < Limit(r.threshold))
    && (r.state.HalfOpen? ==> times != [] && now >= Last(times) + r.timeout)
    && Spaced(times, if stuck then 1 else Limit(r.threshold), r.timeout)
  }

  lemma FailureTracks(r: BreakerData, times: seq<nat>, now: nat, stuck: bool, checkedAt: nat, at: nat)
    requires Tracks(r, times, now, stuck) && now <= checkedAt <= at && CanExecute(r, checkedAt)
    ensures Tracks(Failure(r, at), times + [at], at, stuck)
  {
    FrontLast(times, at);
    if !r.state.Closed? && times != [] {
      assert at - Last(times) >= r.timeout;
    }
  }

  lemma SuccessTracks(r: BreakerData, times: seq<nat>, now: nat, stuck: bool, at: nat)
    requires Tracks(r, times, now, stuck)
    ensures Tracks(Success(r), [], at, r.state.Open?)
  {
  }

  lemma TickTracks(r: BreakerData, times: seq<nat>, now: nat, stuck: bool, at: nat)
    requires Tracks(r, times, now, stuck) && now <= at
    ensures Tracks(AttemptReset(r, at), times, at, stuck)
  {
  }

  lemma {:induction false} RunTracks(threshold: nat, timeout: nat, start: nat, events: seq<Event>)
    requires Possible(New(threshold, timeout), start, events)
    ensures var b := New(threshold, timeout);
            && Tracks(Run(b, events), FailureTimes(events), Clock(start, events), Stuck(b, events))
            && Run(b, events).threshold == threshold && Run(b, events).timeout == timeout
    decreases |events|
  {
    var b := New(threshold, timeout);
    if events != [] {
      RunTracks(threshold, timeout, start, Front(events));
      var r, times, now := Run(b, Front(events)), FailureTimes(Front(events)), Clock(start, Front(events));
      var stuck := Stuck(b, Front(events));
      hide Tracks;
      match Last(events)
      case FailedFlush(checkedAt, at) => FailureTracks(r, times, now, stuck, checkedAt, at);
      case SavedFlush(_, at) => SuccessTracks(r, times, now, stuck, at);
      case Tick(at) => TickTracks(r, times, now, stuck, at);
    }
  }

  /** Which flushes the breaker allows, over every run of a new one: all of them as
      long as fewer saves in a row have failed than the limit, and otherwise those that
      come at least the timeout after the last failure. The limit is the threshold (a
      threshold of 0 acts as 1), except that it is 1 after a success while Open. */
  lemma AllowedIff(threshold: nat, timeout: nat, start: nat, events: seq<Event>, now: nat)
    requires Possible(New(threshold, timeout), start, events) && Clock(start, events) <= now
    ensures var b, times := New(threshold, timeout), FailureTimes(events);
            CanExecute(Run(b, events), now) <==> |times| < LimitNow(b, events) || now - Last(times) >= timeout
  {
    RunTracks(threshold, timeout, start, events);
    hide Possible, FailureTimes, Clock, Run, Spaced, Stuck;
  }

  /** And its state, with the next half-open tick: Closed exactly below the threshold
      unless it is stuck open; and a tick changes nothing, except that it half-opens an
      open breaker when the last failure is at least the timeout ago. */
  lemma HalfOpensIff(threshold: nat, timeout: nat, start: nat, events: seq<Event>, at: nat)
    requires Possible(New(threshold, timeout), start, events) && Clock(start, events) <= at
    ensures var (b, times) := (New(threshold, timeout), FailureTimes(events));
            var r := Run(b, events);
            && (r.state.Closed? <==> |times| < Limit(threshold) && !Stuck(b, events))
            && AttemptReset(r, at) ==
                 if r.state.Open? && times != [] && at - Last(times) >= timeout then r.(state := HalfOpen) else r
  {
    RunTracks(threshold, timeout, start, events);
    hide Possible, FailureTimes, Clock, Run, Spaced, Stuck;
  }

  lemma {:induction false} SpacingAddsUp(times: seq<nat>, limit: nat, timeout: nat)
    requires 0 < limit <= |times| && Spaced(times, limit, timeout)
    ensures times[limit - 1] + (|times| - limit) * timeout <= Last(times)
    decreases |times|
  {
    if |times| > limit {
      var before := Front(times);
      SpacingAddsUp(before, limit, timeout);
      assert Last(times) - Last(before) >= timeout;
      assert (|times| - limit) * timeout == (|before| - limit) * timeout + timeout;
    }
  }

  /** In every run, the failures since the last success that come after the limit are
      at least the timeout apart. */
  lemma AllowedFailuresAreSpaced(threshold: nat, timeout: nat, start: nat, events: seq<Event>)
    requires Possible(New(threshold, timeout), start, events)
    ensures Spaced(FailureTimes(events), LimitNow(New(threshold, timeout), events), timeout)
  {
    hide Possible, FailureTimes, Clock, Run, Stuck;
    RunTracks(threshold, timeout, start, events);
  }

  /** So an unbroken run of failed saves has at most limit + L / timeout failures, L
      being the time from the limit-th failure to the last. */
  lemma FailureRateBound(threshold: nat, timeout: nat, start: nat, events: seq<Event>)
    requires Possible(New(threshold, timeout), start, events)
    requires |FailureTimes(events)| >= LimitNow(New(threshold, timeout), events)
    ensures var times, limit := FailureTimes(events), LimitNow(New(threshold, timeout), events);
            var elapsed: int := Last(times) as int - times[limit - 1];
            && (|times| - limit) * timeout <= elapsed
            && (timeout > 0 ==> |times| <= limit + elapsed / timeout)
  {
    AllowedFailuresAreSpaced(threshold, timeout, start, events);
    hide *;
    var times, limit := FailureTimes(events), LimitNow(New(threshold, timeout), events);
    SpacingAddsUp(times, limit, timeout);
    if timeout > 0 {
      QuotientBound(|times| - limit, Last(times) - times[limit - 1], timeout);
    }
  }

  lemma QuotientBound(n: nat, x: int, t: nat)
    requires t > 0 && n * t <= x
    ensures n <= x / t
  {
    var q := x / t;
    assert x < (q + 1) * t;
    if q < n {
      ScaleUp(q + 1, n, t);
    }
  }

  lemma ScaleUp(a: int, b: int, t: nat)
    requires a <= b
    ensures a * t <= b * t
  {
  }

  // ------------------------------------------------------------ never closing

  /** A success that arrives while the breaker is Open forgets the last failure
      but leaves it Open; from then on neither successes nor half-open ticks can
      close it, and it allows every flush at every instant. Only a further failure
      makes a reset possible again. */
  lemma {:induction false} OpenSuccessIsFinal(b: BreakerData, moves: seq<Option<nat>>)
    requires b.state.Open?
    ensures ReplayAfterSuccess(b, moves).state.Open? && ReplayAfterSuccess(b, moves).lastFailure.None?
    ensures forall now :: CanExecute(ReplayAfterSuccess(b, moves), now)
    decreases |moves|
  {
    if moves != [] {
      OpenSuccessIsFinal(b, Front(moves));
    }
  }

  /** A success, then any successes (None) and half-open ticks (at Some instant). */
  function ReplayAfterSuccess(b: BreakerData, moves: seq<Option<nat>>): BreakerData {
    if moves == [] then Success(b)
    else match Last(moves)
      case None => Success(ReplayAfterSuccess(b, Front(moves)))
      case Some(at) => AttemptReset(ReplayAfterSuccess(b, Front(moves)), at)
  }

  /** That happens when no half-open tick comes between the timeout and a flush: the
      flush is allowed although the breaker is Open, and its success leaves it Open.
      Here one failed save has opened a new breaker with threshold 1. */
  lemma SuccessWhileOpen(timeout: nat)
    ensures var run := [FailedFlush(0, 0), SavedFlush(timeout, timeout)];
            Possible(New(1, timeout), 0, run) && Run(New(1, timeout), run).state.Open?
  {
    var (b, first) := (New(1, timeout), [FailedFlush(0, 0)]);
    var run := [FailedFlush(0, 0), SavedFlush(timeout, timeout)];
    assert Front(first) == [] && Front(run) == first;
    assert Run(b, []) == b;
    assert Run(b, first) == Failure(b, 0);
    assert Possible(b, 0, []) && Possible(b, 0, first);
  }
}
