/** The bar buffer between distribution and persistence
    (crates/application/src/data_pipeline.rs).

    A bar is known by its arrival index. `Pipeline` holds the tasks' code as
    methods; `State` and `Next` are the same lock-protected sections as steps that
    interleave freely. `save_batch` stores all of a batch or, on error, none of it. */
module Pipelines {
  import opened Values
  import opened CircuitBreakers

  type Bar = nat

  const DEFAULT_BUFFER_SIZE: nat := 1000

  datatype Config = Config(bufferSize: nat, batchSize: nat)

  // -------------------------------------------------------- buffer operations

  function Drop<T>(s: seq<T>, n: nat): seq<T> {
    if |s| <= n then [] else s[n..]
  }

  function Take<T>(s: seq<T>, n: nat): seq<T> {
    if |s| <= n then s else s[..n]
  }

  /** `distribution_task` with a full buffer drops the oldest bar. */
  function Pushed(buffer: seq<Bar>, bar: Bar): seq<Bar> {
    (if |buffer| >= DEFAULT_BUFFER_SIZE then buffer[1..] else buffer) + [bar]
  }

  function AllPushed(buffer: seq<Bar>, bars: seq<Bar>): seq<Bar> {
    if bars == [] then buffer else Pushed(AllPushed(buffer, Front(bars)), Last(bars))
  }

  /** A failed batch goes back to the front, and the newest bars are trimmed. */
  function PutBack(batch: seq<Bar>, buffer: seq<Bar>, config: Config): seq<Bar> {
    Take(batch + buffer, config.bufferSize)
  }

  function Capacity(buffer: seq<Bar>): nat {
    if |buffer| > DEFAULT_BUFFER_SIZE then |buffer| else DEFAULT_BUFFER_SIZE
  }

  /** The last bars that fit. */
  function Newest(bars: seq<Bar>, capacity: nat): seq<Bar> {
    if |bars| <= capacity then bars else bars[|bars| - capacity..]
  }

  /** Pushes keep exactly the most recent bars that fit. */
  lemma {:induction false} PushesKeepNewest(buffer: seq<Bar>, bars: seq<Bar>)
    ensures AllPushed(buffer, bars) == Newest(buffer + bars, Capacity(buffer))
    decreases |bars|
  {
    if bars == [] {
      assert buffer + bars == buffer;
    } else {
      hide Pushed, Newest;
      PushesKeepNewest(buffer, Front(bars));
      assert buffer + bars == buffer + Front(bars) + [Last(bars)];
      PushKeepsNewest(buffer + Front(bars), Capacity(buffer), Last(bars));
    }
  }

  lemma PushKeepsNewest(all: seq<Bar>, capacity: nat, bar: Bar)
    requires capacity >= DEFAULT_BUFFER_SIZE && (capacity > DEFAULT_BUFFER_SIZE ==> |all| >= capacity)
    ensures Pushed(Newest(all, capacity), bar) == Newest(all + [bar], capacity)
  {
    if |all| >= capacity {
      var kept := all[|all| - capacity..];
      assert all[0..] == all;
      assert kept[1..] == all[|all| + 1 - capacity..];
      assert (all + [bar])[|all| + 1 - capacity..] == kept[1..] + [bar];
    }
  }

  datatype FlushError = CircuitOpen | RepositoryError

  class Pipeline {
    var buffer: seq<Bar>
    var persisted: seq<Bar>   // what the repository holds
    var barsPersisted: nat
    var batchesWritten: nat
    var errorCount: nat
    var lastError: Option<FlushError>
    const circuit: CircuitBreaker
    const config: Config

    constructor (config: Config, circuit: CircuitBreaker)
      ensures buffer == [] && persisted == [] && Counters() == (0, 0, 0) && lastError == None
      ensures this.config == config && this.circuit == circuit
    {
      this.config, this.circuit := config, circuit;
      buffer, persisted, barsPersisted, batchesWritten, errorCount, lastError := [], [], 0, 0, 0, None;
    }

    /** Bars persisted, batches written and errors. */
    function Counters(): (nat, nat, nat)
      reads this
    {
      (barsPersisted, batchesWritten, errorCount)
    }

    method Push(bar: Bar)
      modifies this`buffer
      ensures buffer == Pushed(old(buffer), bar)
      ensures |buffer| <= Capacity(old(buffer)) && Last(buffer) == bar
    {
      if |buffer| >= DEFAULT_BUFFER_SIZE {
        buffer := buffer[1..];
      }
      buffer := buffer + [bar];
    }

    /** Inserts the batch bar by bar at the front, then pops from the back. */
    method Restore(batch: seq<Bar>)
      modifies this`buffer
      ensures buffer == PutBack(batch, old(buffer), config)
      ensures |buffer| <= config.bufferSize
    {
      var i := |batch|;
      while i > 0
        invariant 0 <= i <= |batch|
        invariant buffer == batch[i..] + old(buffer)
      {
        i := i - 1;
        buffer := [batch[i]] + buffer;
      }
      ghost var full := buffer;
      while |buffer| > config.bufferSize
        invariant |buffer| <= |full| && buffer == full[..|buffer|]
        invariant |buffer| == |full| || |buffer| >= config.bufferSize
        decreases |buffer|
      {
        buffer := buffer[..|buffer| - 1];
      }
    }

    /** One `flush_to_repository`. The save is awaited: `arrivals` are the bars pushed
        meanwhile and `saved` is its answer. A refused flush touches nothing; too
        few bars leave everything; a saved batch is the oldest `batchSize` bars, in
        order; a failed one leaves the first `bufferSize` of batch ++ newer bars. */
    method FlushToRepository(saved: bool, arrivals: seq<Bar>, checkedAt: nat, answeredAt: nat)
      returns (r: Result<Unit, FlushError>)
      modifies this, circuit
      ensures var n := config.batchSize;
              var (bars, batches, errors) := old(Counters());
              if !CanExecute(old(circuit.Data()), checkedAt) || n == 0 || |old(buffer)| < n then
                r == (if CanExecute(old(circuit.Data()), checkedAt) then Ok(Unit.Unit) else Err(CircuitOpen))
                && buffer == old(buffer) && persisted == old(persisted)
                && Counters() == old(Counters()) && lastError == old(lastError)
                && circuit.Data() == old(circuit.Data())
              else if saved then
                r.Ok? && persisted == old(persisted) + old(buffer)[..n]
                && Counters() == (bars + n, batches + 1, errors) && lastError == None
                && buffer == AllPushed(old(buffer)[n..], arrivals)
                && circuit.Data() == Success(old(circuit.Data()))
              else
                r == Err(RepositoryError) && persisted == old(persisted)
                && Counters() == (bars, batches, errors + 1) && lastError == Some(RepositoryError)
                && buffer == PutBack(old(buffer)[..n], AllPushed(old(buffer)[n..], arrivals), config)
                && circuit.Data() == Failure(old(circuit.Data()), answeredAt)
    {
      if !CanExecute(circuit.Data(), checkedAt) {
        return Err(CircuitOpen);
      }
      if |buffer| < config.batchSize {
        return Ok(Unit.Unit);
      }
      var count := if config.batchSize < |buffer| then config.batchSize else |buffer|;
      var batch := buffer[..count];
      if batch == [] {
        return Ok(Unit.Unit);
      }
      buffer := buffer[count..];
      ghost var rest := buffer;
      for i := 0 to |arrivals|
        invariant buffer == AllPushed(rest, arrivals[..i])
        invariant persisted == old(persisted) && Counters() == old(Counters()) && lastError == old(lastError)
        invariant circuit.Data() == old(circuit.Data())
      {
        Push(arrivals[i]);
        FrontLast(arrivals[..i], arrivals[i]);
        assert arrivals[..i + 1] == arrivals[..i] + [arrivals[i]];
      }
      assert arrivals[..|arrivals|] == arrivals;
      if saved {
        persisted := persisted + batch;
        barsPersisted := barsPersisted + |batch|;
        batchesWritten := batchesWritten + 1;
        circuit.RecordSuccess();
        lastError := None;
        r := Ok(Unit.Unit);
      } else {
        errorCount := errorCount + 1;
        lastError := Some(RepositoryError);
        var _ := circuit.RecordFailure(answeredAt);
        Restore(batch);
        r := Err(RepositoryError);
      }
    }

    /** `flush_buffer`, the last step of a shutdown: it takes the whole buffer, whatever
        its size and whatever the breaker says, and what it fails to save is gone. */
    method FlushBuffer(saved: bool, arrivals: seq<Bar>) returns (r: Result<Unit, FlushError>)
      modifies this
      ensures buffer == if old(buffer) == [] then [] else AllPushed([], arrivals)
      ensures persisted == old(persisted) + if saved then old(buffer) else []
      ensures var (bars, batches, errors) := old(Counters());
              Counters() == (if saved then bars + |old(buffer)| else bars, batches, errors)
      ensures lastError == old(lastError)
      ensures r == if saved || old(buffer) == [] then Ok(Unit.Unit) else Err(RepositoryError)
    {
      if buffer == [] {
        assert persisted + [] == persisted;
        return Ok(Unit.Unit);
      }
      var bars := buffer;
      buffer := [];
      for i := 0 to |arrivals|
        invariant buffer == AllPushed([], arrivals[..i])
        invariant persisted == old(persisted) && Counters() == old(Counters()) && lastError == old(lastError)
      {
        Push(arrivals[i]);
        FrontLast(arrivals[..i], arrivals[i]);
        assert arrivals[..i + 1] == arrivals[..i] + [arrivals[i]];
      }
      assert arrivals[..|arrivals|] == arrivals;
      if !saved {
        assert persisted + [] == persisted;
        return Err(RepositoryError);
      }
      persisted := persisted + bars;
      barsPersisted := barsPersisted + |bars|;
      r := Ok(Unit.Unit);
    }
  }

  /** A failed flush with nothing pushed meanwhile restores a buffer within
      capacity exactly, and otherwise keeps its oldest bars. */
  lemma QuietFailureRestores(buffer: seq<Bar>, n: nat, config: Config)
    requires n <= |buffer|
    ensures PutBack(buffer[..n], buffer[n..], config) == Take(buffer, config.bufferSize)
    ensures |buffer| <= config.bufferSize ==> PutBack(buffer[..n], buffer[n..], config) == buffer
  {
    assert buffer[..n] + buffer[n..] == buffer;
  }

  /** With pushes meanwhile, what is lost is exact: the overflowing pushes drop the
      oldest bars that were not in the batch, and the put-back trims the newest. */
  lemma BusyFailureLoses(buffer: seq<Bar>, n: nat, arrivals: seq<Bar>, config: Config)
    requires n <= |buffer|
    ensures PutBack(buffer[..n], AllPushed(buffer[n..], arrivals), config)
              == Take(buffer[..n] + Newest(buffer[n..] + arrivals, Capacity(buffer[n..])), config.bufferSize)
  {
    hide AllPushed, Take, Capacity, Newest;
    PushesKeepNewest(buffer[n..], arrivals);
  }

  // ------------------------------------------------------- interleaved steps

  /** Where the persistence task stands in a flush. */
  datatype Persister =
    | Idle
    | Saving(batch: seq<Bar>)
    | Counting(batch: seq<Bar>)    // saved, counter not yet raised
    | Returning(batch: seq<Bar>)   // failed, not yet put back

  /** Where `shutdown` stands in `flush_buffer`. */
  datatype Flusher =
    | NotFlushing
    | Flushing(batch: seq<Bar>)
    | FlushCounting(batch: seq<Bar>)

  datatype State = State(
    delivered: nat,
    buffer: seq<Bar>,
    persisted: seq<Bar>,
    lost: seq<Bar>,
    persister: Persister,
    flusher: Flusher,
    barsPersisted: nat,
    uncounted: nat)        // saved by a shutdown flush that timed out before counting
  {
    function InFlight(): seq<Bar> {
      if persister.Saving? || persister.Returning? then persister.batch else []
    }

    function InShutdownFlush(): seq<Bar> {
      if flusher.Flushing? then flusher.batch else []
    }

    function SavedButUncounted(): nat {
      (if persister.Counting? then |persister.batch| else 0)
      + (if flusher.FlushCounting? then |flusher.batch| else 0) + uncounted
    }
  }

  datatype Action =
    | Push
    | Drain(allowed: bool)
    | SaveReply(ok: bool)
    | Count
    | ReturnBatch
    | TakeAll
    | FlushReply(ok: bool)
    | FlushCount
    | FlushTimeout

  function Next(s: State, a: Action, config: Config): State {
    match a
    case Push =>
      s.(delivered := s.delivered + 1,
         buffer := Pushed(s.buffer, s.delivered),
         lost := if |s.buffer| >= DEFAULT_BUFFER_SIZE then s.lost + [s.buffer[0]] else s.lost)
    case Drain(allowed) =>
      if !s.persister.Idle? || !allowed || config.batchSize == 0 || |s.buffer| < config.batchSize then s
      else s.(persister := Saving(s.buffer[..config.batchSize]), buffer := s.buffer[config.batchSize..])
    case SaveReply(ok) =>
      if !s.persister.Saving? then s
      else if ok then s.(persister := Counting(s.persister.batch), persisted := s.persisted + s.persister.batch)
      else s.(persister := Returning(s.persister.batch))
    case Count =>
      if !s.persister.Counting? then s
      else s.(persister := Idle, barsPersisted := s.barsPersisted + |s.persister.batch|)
    case ReturnBatch =>
      if !s.persister.Returning? then s
      else s.(persister := Idle,
              buffer := PutBack(s.persister.batch, s.buffer, config),
              lost := s.lost + Drop(s.persister.batch + s.buffer, config.bufferSize))
    case TakeAll =>
      if !s.flusher.NotFlushing? || s.buffer == [] then s
      else s.(flusher := Flushing(s.buffer), buffer := [])
    case FlushReply(ok) =>
      if !s.flusher.Flushing? then s
      else if ok then s.(flusher := FlushCounting(s.flusher.batch), persisted := s.persisted + s.flusher.batch)
      else s.(flusher := NotFlushing, lost := s.lost + s.flusher.batch)
    case FlushCount =>
      if !s.flusher.FlushCounting? then s
      else s.(flusher := NotFlushing, barsPersisted := s.barsPersisted + |s.flusher.batch|)
    case FlushTimeout =>
      match s.flusher
      case NotFlushing => s
      case Flushing(batch) => s.(flusher := NotFlushing, lost := s.lost + batch)
      case FlushCounting(batch) => s.(flusher := NotFlushing, uncounted := s.uncounted + |batch|)
  }

  const INITIAL := State(0, [], [], [], Idle, NotFlushing, 0, 0)

  function Exec(actions: seq<Action>, config: Config): State {
    if actions == [] then INITIAL else Next(Exec(Front(actions), config), Last(actions), config)
  }

  function Pushing(s: State, n: nat, config: Config): State {
    if n == 0 then s else Next(Pushing(s, n - 1, config), Push, config)
  }

  /** One flush as the persister's steps, with n bars pushed during the save. */
  function FlushSteps(s: State, allowed: bool, n: nat, saved: bool, config: Config): State {
    var t := Next(s, Drain(allowed), config);
    if !t.persister.Saving? then t
    else
      var answered := Next(Pushing(t, n, config), SaveReply(saved), config);
      Next(answered, if saved then Count else ReturnBatch, config)
  }

  function Arrivals(from: nat, n: nat): seq<Bar> {
    seq(n, i => from + i)
  }

  lemma {:induction false} PushingFillsBuffer(s: State, n: nat, config: Config)
    ensures var t := Pushing(s, n, config);
            && t.delivered == s.delivered + n && t.persister == s.persister
            && t.persisted == s.persisted && t.barsPersisted == s.barsPersisted
            && t.buffer == AllPushed(s.buffer, Arrivals(s.delivered, n))
  {
    if n > 0 {
      PushingFillsBuffer(s, n - 1, config);
      assert Front(Arrivals(s.delivered, n)) == Arrivals(s.delivered, n - 1);
    }
  }

  /** `FlushToRepository` is its steps: what its contract says of the buffer, the
      repository and the counter is what `Drain`, the pushes, `SaveReply` and
      `Count` or `ReturnBatch` make of a state that agrees with its fields. */
  lemma FlushIsItsSteps(s: State, allowed: bool, n: nat, saved: bool, config: Config)
    requires s.persister.Idle?
    ensures var t, size := FlushSteps(s, allowed, n, saved, config), config.batchSize;
            && t.persister.Idle?
            && if !allowed || size == 0 || |s.buffer| < size then t == s
               else
                 var batch := s.buffer[..size];
                 var rest := AllPushed(s.buffer[size..], Arrivals(s.delivered, n));
                 && t.buffer == (if saved then rest else PutBack(batch, rest, config))
                 && t.persisted == s.persisted + (if saved then batch else [])
                 && t.barsPersisted == s.barsPersisted + (if saved then size else 0)
  {
    PushingFillsBuffer(Next(s, Drain(allowed), config), n, config);
    assert s.persisted + [] == s.persisted;
  }

  /** One shutdown flush as steps, with n bars pushed during the save. */
  function ShutdownSteps(s: State, n: nat, saved: bool, config: Config): State {
    Next(Next(Pushing(Next(s, TakeAll, config), n, config), FlushReply(saved), config), FlushCount, config)
  }

  /** `FlushBuffer` is its steps, whatever the persister is doing. */
  lemma ShutdownFlushIsItsSteps(s: State, n: nat, saved: bool, config: Config)
    requires s.flusher.NotFlushing? && s.buffer != []
    ensures var t := ShutdownSteps(s, n, saved, config);
            && t.flusher.NotFlushing? && t.persister == s.persister && t.uncounted == s.uncounted
            && t.buffer == AllPushed([], Arrivals(s.delivered, n))
            && t.persisted == s.persisted + (if saved then s.buffer else [])
            && t.barsPersisted == s.barsPersisted + (if saved then |s.buffer| else 0)
  {
    var taken := Next(s, TakeAll, config);
    PushingFillsBuffer(taken, n, config);
    PushingSparesFlusher(taken, n, config);
    assert s.persisted + [] == s.persisted;
  }

  lemma {:induction false} PushingSparesFlusher(s: State, n: nat, config: Config)
    ensures Pushing(s, n, config).flusher == s.flusher && Pushing(s, n, config).uncounted == s.uncounted
  {
    if n > 0 {
      PushingSparesFlusher(s, n - 1, config);
    }
  }

  /** A run is its actions one after the other, from the initial state. */
  lemma {:induction false} ExecIsRunFrom(actions: seq<Action>, config: Config)
    ensures Exec(actions, config) == RunFrom(INITIAL, actions, config)
    decreases |actions|
  {
    hide Next;
    if actions != [] {
      ExecIsRunFrom(Front(actions), config);
      RunFromSnoc(INITIAL, actions, config);
    }
  }

  lemma {:induction false} RunFromSnoc(s: State, actions: seq<Action>, config: Config)
    requires actions != []
    ensures RunFrom(s, actions, config) == Next(RunFrom(s, Front(actions), config), Last(actions), config)
    decreases |actions|
  {
    hide Next;
    if |actions| > 1 {
      RunFromSnoc(Next(s, actions[0], config), actions[1..], config);
      assert Front(actions[1..]) == Front(actions)[1..];
    }
  }

  // ------------------------------------------------------------------- order

  ghost predicate Increasing(s: seq<Bar>) {
    forall i, j :: 0 <= i < j < |s| ==> s[i] < s[j]
  }

  /** All bars not lost, the oldest first. */
  function Line(s: State): seq<Bar> {
    s.persisted + s.InFlight() + s.InShutdownFlush() + s.buffer
  }

  /** They are in arrival order, and no two batches are outstanding. */
  ghost predicate InOrder(s: State) {
    && Increasing(Line(s))
    && (forall b :: b in Line(s) ==> b < s.delivered)
    && (s.InFlight() == [] || s.InShutdownFlush() == [])
  }

  /** Shutdown does not take the buffer while a batch is out, and no batch is drained
      while the shutdown flush is. */
  predicate Separate(s: State, a: Action) {
    && (a.TakeAll? ==> !s.persister.Saving? && !s.persister.Returning?)
    && (a.Drain? ==> !s.flusher.Flushing?)
  }

  lemma PushKeepsOrder(s: State, config: Config)
    requires InOrder(s)
    ensures InOrder(Next(s, Push, config))
  {
    hide Increasing;
    var t := Next(s, Push, config);
    var front := s.persisted + s.InFlight() + s.InShutdownFlush();
    var k := if |s.buffer| >= DEFAULT_BUFFER_SIZE then 1 else 0;
    assert s.buffer[0..] == s.buffer;
    DroppingKeepsIncreasing(front, s.buffer, k);
    var kept := front + s.buffer[k..];
    assert Line(t) == kept + [s.delivered];
    AppendKeepsIncreasing(kept, s.delivered);
  }

  lemma AppendKeepsIncreasing(bars: seq<Bar>, next: Bar)
    requires Increasing(bars) && forall b :: b in bars ==> b < next
    ensures Increasing(bars + [next]) && forall b :: b in bars + [next] ==> b < next + 1
  {
    var all := bars + [next];
    forall i, j | 0 <= i < j < |all| ensures all[i] < all[j] {
      assert all[i] == bars[i] && bars[i] in bars;
    }
  }

  lemma PrefixKeepsIncreasing(bars: seq<Bar>, n: nat)
    requires Increasing(bars) && n <= |bars|
    ensures Increasing(bars[..n]) && forall b :: b in bars[..n] ==> b in bars
  {
  }

  lemma ReturnKeepsOrder(s: State, config: Config)
    requires InOrder(s) && s.persister.Returning?
    ensures InOrder(Next(s, ReturnBatch, config))
  {
    hide Increasing, Next, Line;
    var returned := s.persister.batch + s.buffer;
    var front := s.persisted + s.InShutdownFlush();
    var n := if |returned| <= config.bufferSize then |returned| else config.bufferSize;
    ReturnCutsLine(s, front, returned, n, config);
    PrefixOfConcat(front, returned, n);
    PrefixKeepsIncreasing(Line(s), |front| + n);
  }

  lemma PrefixOfConcat(front: seq<Bar>, back: seq<Bar>, n: nat)
    requires n <= |back|
    ensures (front + back)[..|front| + n] == front + back[..n]
  {
  }

  lemma ReturnCutsLine(s: State, front: seq<Bar>, returned: seq<Bar>, n: nat, config: Config)
    requires s.persister.Returning? && (s.InFlight() == [] || s.InShutdownFlush() == [])
    requires front == s.persisted + s.InShutdownFlush() && returned == s.persister.batch + s.buffer
    requires n == if |returned| <= config.bufferSize then |returned| else config.bufferSize
    ensures var t := Next(s, ReturnBatch, config);
            && Line(s) == front + returned && Line(t) == front + returned[..n]
            && t.InFlight() == [] && t.delivered == s.delivered
  {
    TakeIsPrefix(returned, config.bufferSize);
    hide Take;
  }

  lemma TakeIsPrefix(s: seq<Bar>, n: nat)
    ensures Take(s, n) == s[..if |s| <= n then |s| else n]
  {
  }

  lemma FlushEndKeepsOrder(s: State, t: State)
    requires InOrder(s) && s.flusher.Flushing?
    requires t.persisted == s.persisted && t.persister == s.persister && t.delivered == s.delivered
    requires t.buffer == s.buffer && t.flusher.NotFlushing?
    ensures InOrder(t)
  {
    hide Increasing;
    var front, back := s.persisted + s.InFlight(), s.InShutdownFlush() + s.buffer;
    assert Line(s) == front + back;
    assert back[|s.InShutdownFlush()|..] == s.buffer;
    DroppingKeepsIncreasing(front, back, |s.InShutdownFlush()|);
    assert Line(t) == front + s.buffer;
  }

  lemma NextKeepsOrder(s: State, a: Action, config: Config)
    requires InOrder(s) && Separate(s, a)
    ensures InOrder(Next(s, a, config))
  {
    hide Increasing;
    var t := Next(s, a, config);
    if a.Push? {
      PushKeepsOrder(s, config);
    } else if a.ReturnBatch? && s.persister.Returning? {
      ReturnKeepsOrder(s, config);
    } else if s.flusher.Flushing? && (a == FlushReply(false) || a.FlushTimeout?) {
      FlushEndKeepsOrder(s, t);
    } else {
      assert Line(t) == Line(s);
    }
  }

  lemma DroppingKeepsIncreasing(front: seq<Bar>, back: seq<Bar>, k: nat)
    requires Increasing(front + back) && k <= |back|
    ensures Increasing(front + back[k..])
    ensures forall b :: b in front + back[k..] ==> b in front + back
  {
    var kept := front + back[k..];
    forall i, j | 0 <= i < j < |kept| ensures kept[i] < kept[j] {
      var i' := if i < |front| then i else i + k;
      var j' := if j < |front| then j else j + k;
      assert kept[i] == (front + back)[i'] && kept[j] == (front + back)[j'];
    }
  }

  /** In every run that keeps the two flushes apart, under every interleaving of
      pushes, drains, answers, put-backs and shutdown flushes: persisted ++ in flight
      ++ in the shutdown flush ++ buffer is an in-order, duplicate-free subsequence of
      the bars delivered. */
  lemma {:induction false} SeparateFlushesKeepOrder(actions: seq<Action>, config: Config)
    requires forall i :: 0 <= i < |actions| ==> Separate(Exec(actions[..i], config), actions[i])
    ensures InOrder(Exec(actions, config))
    decreases |actions|
  {
    if actions != [] {
      var front := Front(actions);
      assert forall i :: 0 <= i < |front| ==> front[..i] == actions[..i] && front[i] == actions[i];
      assert front == actions[..|actions| - 1];
      SeparateFlushesKeepOrder(front, config);
      NextKeepsOrder(Exec(front, config), Last(actions), config);
    }
  }

  lemma {:induction false} NoFlushBeforeShutdown(actions: seq<Action>, config: Config)
    requires forall i :: 0 <= i < |actions| ==> !actions[i].TakeAll?
    ensures Exec(actions, config).flusher.NotFlushing?
    decreases |actions|
  {
    if actions != [] {
      NoFlushBeforeShutdown(Front(actions), config);
    }
  }

  /** In particular before shutdown takes the buffer. */
  lemma PipelineKeepsOrder(actions: seq<Action>, config: Config)
    requires forall i :: 0 <= i < |actions| ==> !actions[i].TakeAll?
    ensures var s := Exec(actions, config);
            var bars := s.persisted + s.InFlight() + s.buffer;
            s.flusher.NotFlushing? && Increasing(bars) && forall b :: b in bars ==> b < s.delivered
  {
    hide Exec, Increasing;
    forall i | 0 <= i < |actions| ensures Separate(Exec(actions[..i], config), actions[i]) {
      NoFlushBeforeShutdown(actions[..i], config);
    }
    SeparateFlushesKeepOrder(actions, config);
    NoFlushBeforeShutdown(actions, config);
    var s := Exec(actions, config);
    assert Line(s) == s.persisted + s.InFlight() + s.buffer;
  }

  /** The shutdown flush is not ordered after a batch in flight: when it takes the
      rest of the buffer while a batch is being saved and is answered first, the
      newer bars reach the repository before the older ones. */
  lemma ShutdownReorders(s: State, config: Config)
    requires s.persister.Idle? && s.flusher.NotFlushing?
    requires 0 < config.batchSize < |s.buffer|
    ensures var t := Next(Next(s, Drain(true), config), TakeAll, config);
            Next(Next(t, FlushReply(true), config), SaveReply(true), config).persisted
              == s.persisted + s.buffer[config.batchSize..] + s.buffer[..config.batchSize]
  {
  }

  /** Nor is a drain ordered after an outstanding shutdown flush: with batches of one,
      a bar pushed and drained meanwhile is saved ahead of the older ones. */
  lemma DrainDuringFlushReorders(s: State, config: Config)
    requires s.persister.Idle? && s.flusher.NotFlushing? && s.buffer != [] && config.batchSize == 1
    ensures RunFrom(s, [TakeAll, Push, Drain(true), SaveReply(true), FlushReply(true)], config).persisted
              == s.persisted + [s.delivered] + s.buffer
  {
    var s1 := Next(s, TakeAll, config);
    var s2 := Next(s1, Push, config);
    var s3 := Next(s2, Drain(true), config);
    var s4 := Next(s3, SaveReply(true), config);
    assert s2.buffer == [s.delivered];
    assert s3.persister == Saving([s.delivered]);
    assert s4.persisted == s.persisted + [s.delivered];
    calc {
      RunFrom(s, [TakeAll, Push, Drain(true), SaveReply(true), FlushReply(true)], config);
      RunFrom(s1, [Push, Drain(true), SaveReply(true), FlushReply(true)], config);
      RunFrom(s2, [Drain(true), SaveReply(true), FlushReply(true)], config);
      RunFrom(s3, [SaveReply(true), FlushReply(true)], config);
      RunFrom(s4, [FlushReply(true)], config);
      RunFrom(Next(s4, FlushReply(true), config), [], config);
      Next(s4, FlushReply(true), config);
    }
  }

  function RunFrom(s: State, actions: seq<Action>, config: Config): State
    decreases |actions|
  {
    if actions == [] then s else RunFrom(Next(s, actions[0], config), actions[1..], config)
  }

  /** The state once a batch and the shutdown flush begun beside it are answered. */
  function BothAnswered(s: State, batchFirst: bool, batchOk: bool, flushOk: bool, config: Config): State {
    var t := Next(s, TakeAll, config);
    if batchFirst then Next(Next(t, SaveReply(batchOk), config), FlushReply(flushOk), config)
    else Next(Next(t, FlushReply(flushOk), config), SaveReply(batchOk), config)
  }

  /** Overlapping flushes leave the repository in arrival order exactly when the batch
      is answered first or one of the two saves fails. */
  lemma OverlapOrderIff(s: State, batchFirst: bool, batchOk: bool, flushOk: bool, config: Config)
    requires InOrder(s) && s.flusher.NotFlushing? && s.buffer != []
    requires s.persister.Saving? && s.persister.batch != []
    ensures Increasing(BothAnswered(s, batchFirst, batchOk, flushOk, config).persisted) <==>
              batchFirst || !batchOk || !flushOk
  {
    var batch, taken := s.persister.batch, s.buffer;
    hide Increasing, BothAnswered;
    BothAnsweredPersists(s, batchFirst, batchOk, flushOk, config);
    assert Line(s) == s.persisted + batch + taken;
    OrdersOfSaving(s.persisted, batch, taken);
    NothingJoined(batch);
    NothingJoined(taken);
    NothingJoined(s.persisted);
  }

  lemma NothingJoined(bars: seq<Bar>)
    ensures bars + [] == bars == [] + bars
  {
  }

  /** The order of a batch and a newer one behind what is saved already. */
  lemma OrdersOfSaving(persisted: seq<Bar>, batch: seq<Bar>, taken: seq<Bar>)
    requires batch != [] && taken != [] && Increasing(persisted + batch + taken)
    ensures Increasing(persisted) && Increasing(persisted + batch) && Increasing(persisted + taken)
    ensures Increasing(persisted + (batch + taken)) && !Increasing(persisted + (taken + batch))
  {
    assert persisted + (batch + taken) == persisted + batch + taken;
    assert persisted + (taken + batch) == persisted + taken + batch;
    hide Increasing;
    BatchBeforeTaken(persisted, batch, taken);
    JoinedIncreasing(persisted + batch, taken);
    JoinedIncreasing(persisted, batch);
    JoinedIncreasing(persisted, taken);
    JoinedIncreasing(persisted + taken, batch);
    FirstBeforeLast(taken);
    assert Last(persisted + taken) == Last(taken);
  }

  lemma BatchBeforeTaken(persisted: seq<Bar>, batch: seq<Bar>, taken: seq<Bar>)
    requires batch != [] && taken != [] && Increasing(persisted + batch + taken)
    ensures batch[0] < taken[0]
  {
    var line := persisted + batch + taken;
    assert line[|persisted|] == batch[0] && line[|persisted| + |batch|] == taken[0];
  }

  lemma FirstBeforeLast(bars: seq<Bar>)
    requires bars != [] && Increasing(bars)
    ensures bars[0] <= Last(bars)
  {
  }

  lemma BothAnsweredPersists(s: State, batchFirst: bool, batchOk: bool, flushOk: bool, config: Config)
    requires s.flusher.NotFlushing? && s.buffer != [] && s.persister.Saving?
    ensures var batch := if batchOk then s.persister.batch else [];
            var taken := if flushOk then s.buffer else [];
            BothAnswered(s, batchFirst, batchOk, flushOk, config).persisted
              == s.persisted + (if batchFirst then batch + taken else taken + batch)
  {
    assert s.persisted + [] == s.persisted;
  }

  /** Two sequences joined are increasing exactly when both are and they meet in order. */
  lemma JoinedIncreasing(front: seq<Bar>, back: seq<Bar>)
    ensures Increasing(front + back) <==>
              Increasing(front) && Increasing(back) && (front == [] || back == [] || Last(front) < back[0])
  {
    var all := front + back;
    if Increasing(all) {
      assert forall i :: 0 <= i < |front| ==> all[i] == front[i];
      assert forall i :: 0 <= i < |back| ==> all[|front| + i] == back[i];
    } else if Increasing(front) && Increasing(back) && front != [] && back != [] && Last(front) < back[0] {
      forall i, j | 0 <= i < j < |all| ensures all[i] < all[j] {
        if i < |front| <= j {
          assert front[i] <= Last(front) < back[0] <= back[j - |front|];
        }
      }
    }
  }

  /** The batch that an answer reports as saved. */
  function Confirmed(s: State, a: Action): seq<Bar> {
    if a == SaveReply(true) && s.persister.Saving? then s.persister.batch
    else if a == FlushReply(true) && s.flusher.Flushing? then s.flusher.batch
    else []
  }

  /** A batch saved in its turn starts after the newest bar already saved. */
  predicate SavedInTurn(s: State, a: Action) {
    var batch := Confirmed(s, a);
    batch == [] || s.persisted == [] || Last(s.persisted) < batch[0]
  }

  /** Whatever overlaps, each place that is not yet saved is in order. */
  ghost predicate PlacesInOrder(s: State) {
    && Increasing(s.InFlight() + s.buffer)
    && Increasing(s.InShutdownFlush())
    && (forall b :: b in s.InFlight() + s.buffer ==> b < s.delivered)
  }

  lemma NextKeepsPlaces(s: State, a: Action, config: Config)
    requires PlacesInOrder(s)
    ensures PlacesInOrder(Next(s, a, config))
  {
    hide Increasing, Take;
    var t := Next(s, a, config);
    var line := s.InFlight() + s.buffer;
    if a.Push? {
      var k := if |s.buffer| >= DEFAULT_BUFFER_SIZE then 1 else 0;
      assert s.buffer[0..] == s.buffer;
      DroppingKeepsIncreasing(s.InFlight(), s.buffer, k);
      assert t.InFlight() + t.buffer == s.InFlight() + s.buffer[k..] + [s.delivered];
      AppendKeepsIncreasing(s.InFlight() + s.buffer[k..], s.delivered);
    } else if a.ReturnBatch? && s.persister.Returning? {
      var n := if |line| <= config.bufferSize then |line| else config.bufferSize;
      TakeIsPrefix(line, config.bufferSize);
      PrefixKeepsIncreasing(line, n);
      assert t.InFlight() + t.buffer == line[..n];
    } else {
      OtherStepsKeepPlaces(s, a, config);
    }
  }

  lemma OtherStepsKeepPlaces(s: State, a: Action, config: Config)
    requires PlacesInOrder(s) && !a.Push? && !(a.ReturnBatch? && s.persister.Returning?)
    ensures PlacesInOrder(Next(s, a, config))
  {
    hide Increasing;
    EachPlaceInOrder(s);
    if a.Drain? {
      assert Next(s, a, config).InFlight() + Next(s, a, config).buffer == s.InFlight() + s.buffer;
    } else if a.TakeAll? {
      NothingJoined(s.InFlight());
    } else if a.SaveReply? {
      NothingJoined(s.buffer);
    }
  }

  lemma EachPlaceInOrder(s: State)
    requires PlacesInOrder(s)
    ensures Increasing(s.InFlight()) && Increasing(s.buffer) && Increasing([])
    ensures forall b :: b in s.InFlight() || b in s.buffer ==> b in s.InFlight() + s.buffer
  {
    JoinedIncreasing(s.InFlight(), s.buffer);
  }

  lemma NextPersists(s: State, a: Action, config: Config)
    ensures Next(s, a, config).persisted == s.persisted + Confirmed(s, a)
  {
  }

  /** Every batch saved in the run was saved in its turn. */
  ghost predicate AllInTurn(actions: seq<Action>, config: Config) {
    forall i :: 0 <= i < |actions| ==> SavedInTurn(Exec(actions[..i], config), actions[i])
  }

  lemma AllInTurnSplits(actions: seq<Action>, config: Config)
    requires actions != []
    ensures var front := Front(actions);
            AllInTurn(actions, config)
              == (AllInTurn(front, config) && SavedInTurn(Exec(front, config), Last(actions)))
  {
    hide Exec, SavedInTurn;
    var front := Front(actions);
    assert forall i :: 0 <= i < |front| ==> front[..i] == actions[..i] && front[i] == actions[i];
    assert front == actions[..|actions| - 1];
  }

  /** In every run, overlapping flushes included, the repository holds the bars in
      arrival order exactly when each batch was saved in its turn. */
  lemma {:induction false} PersistedInOrderIff(actions: seq<Action>, config: Config)
    ensures PlacesInOrder(Exec(actions, config))
    ensures Increasing(Exec(actions, config).persisted) <==> AllInTurn(actions, config)
    decreases |actions|
  {
    if actions != [] {
      var front, a := Front(actions), Last(actions);
      PersistedInOrderIff(front, config);
      AllInTurnSplits(actions, config);
      var s := Exec(front, config);
      NextKeepsPlaces(s, a, config);
      InTurnIff(s, a, config);
      hide Increasing, Next, SavedInTurn, PlacesInOrder, AllInTurn;
    }
  }

  lemma InTurnIff(s: State, a: Action, config: Config)
    requires PlacesInOrder(s)
    ensures Increasing(Next(s, a, config).persisted) <==> Increasing(s.persisted) && SavedInTurn(s, a)
  {
    NextPersists(s, a, config);
    ConfirmedInOrder(s, a);
    hide Increasing, Next, Confirmed, PlacesInOrder;
    JoinedIncreasing(s.persisted, Confirmed(s, a));
  }

  lemma ConfirmedInOrder(s: State, a: Action)
    requires PlacesInOrder(s)
    ensures Increasing(Confirmed(s, a))
  {
    JoinedIncreasing(s.InFlight(), s.buffer);
  }

  // ------------------------------------------------------------ conservation

  function Occurrences(s: seq<Bar>, bar: Bar): nat {
    multiset(s)[bar]
  }

  lemma OccurrencesConcat(s: seq<Bar>, t: seq<Bar>, bar: Bar)
    ensures Occurrences(s + t, bar) == Occurrences(s, bar) + Occurrences(t, bar)
  {
  }

  lemma OccurrencesSplit(s: seq<Bar>, n: nat, bar: Bar)
    requires n <= |s|
    ensures Occurrences(s, bar) == Occurrences(s[..n], bar) + Occurrences(s[n..], bar)
  {
    assert s == s[..n] + s[n..];
  }

  lemma OccurrencesBasics(bar: Bar, other: Bar)
    ensures Occurrences([], bar) == 0
    ensures Occurrences([other], bar) == if bar == other then 1 else 0
  {
  }

  function Everywhere(s: State, bar: Bar): nat {
    Occurrences(s.persisted, bar) + Occurrences(s.InFlight(), bar) + Occurrences(s.InShutdownFlush(), bar)
    + Occurrences(s.buffer, bar) + Occurrences(s.lost, bar)
  }

  predicate Accounted(s: State, bar: Bar) {
    && Everywhere(s, bar) == (if bar < s.delivered then 1 else 0)
    && s.barsPersisted + s.SavedButUncounted() == |s.persisted|
  }

  lemma PushKeepsAccount(s: State, bar: Bar, config: Config)
    requires Accounted(s, bar)
    ensures Accounted(Next(s, Push, config), bar)
  {
    hide Occurrences;
    var k := if |s.buffer| >= DEFAULT_BUFFER_SIZE then 1 else 0;
    OccurrencesSplit(s.buffer, k, bar);
    OccurrencesConcat(s.lost, s.buffer[..k], bar);
    OccurrencesConcat(s.buffer[k..], [s.delivered], bar);
    OccurrencesBasics(bar, s.delivered);
    var t := Next(s, Push, config);
    assert t.buffer == s.buffer[k..] + [s.delivered];
    assert t.lost == s.lost + s.buffer[..k];
    hide Next, Pushed;
  }

  lemma ReturnKeepsAccount(s: State, bar: Bar, config: Config)
    requires Accounted(s, bar) && s.persister.Returning?
    ensures Accounted(Next(s, ReturnBatch, config), bar)
  {
    hide Occurrences;
    var all := s.persister.batch + s.buffer;
    var n := if |all| <= config.bufferSize then |all| else config.bufferSize;
    OccurrencesConcat(s.persister.batch, s.buffer, bar);
    OccurrencesSplit(all, n, bar);
    OccurrencesConcat(s.lost, all[n..], bar);
    OccurrencesBasics(bar, bar);
    assert Drop(all, config.bufferSize) == all[n..] && Take(all, config.bufferSize) == all[..n];
  }

  lemma NextKeepsAccount(s: State, a: Action, bar: Bar, config: Config)
    requires Accounted(s, bar)
    ensures Accounted(Next(s, a, config), bar)
  {
    hide Occurrences;
    OccurrencesBasics(bar, bar);
    match a
    case Push => PushKeepsAccount(s, bar, config);
    case Drain(allowed) =>
      if config.batchSize <= |s.buffer| {
        OccurrencesSplit(s.buffer, config.batchSize, bar);
      }
    case SaveReply(ok) =>
      if s.persister.Saving? {
        OccurrencesConcat(s.persisted, s.persister.batch, bar);
      }
    case ReturnBatch =>
      if s.persister.Returning? {
        ReturnKeepsAccount(s, bar, config);
      }
    case _ =>
      if s.flusher.Flushing? {
        OccurrencesConcat(s.persisted, s.flusher.batch, bar);
        OccurrencesConcat(s.lost, s.flusher.batch, bar);
      }
  }

  /** In every run, shutdown included: each delivered bar is in exactly one place
      (persisted, in flight, in the shutdown flush, buffered or lost), exactly once,
      and `bars_persisted` is the number of bars persisted, less the batches saved
      but not yet (or, after a shutdown timeout, never) counted. */
  lemma {:induction false} EveryBarIsSomewhereOnce(actions: seq<Action>, config: Config, bar: Bar)
    ensures var s := Exec(actions, config);
            && Everywhere(s, bar) == (if bar < s.delivered then 1 else 0)
            && s.barsPersisted == |s.persisted| - s.SavedButUncounted()
    decreases |actions|
  {
    if actions != [] {
      EveryBarIsSomewhereOnce(Front(actions), config, bar);
      NextKeepsAccount(Exec(Front(actions), config), Last(actions), bar, config);
      hide Next, Everywhere;
    }
  }

  /** In every interleaving the buffer stays within max(1000, buffer_size). */
  lemma {:induction false} BufferIsBounded(actions: seq<Action>, config: Config)
    ensures |Exec(actions, config).buffer| <= DEFAULT_BUFFER_SIZE
            || |Exec(actions, config).buffer| <= config.bufferSize
    decreases |actions|
  {
    if actions != [] {
      BufferIsBounded(Front(actions), config);
    }
  }
}
