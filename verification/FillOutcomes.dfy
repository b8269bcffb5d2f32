/** What becomes of one delivered fill (crates/application/src/order_lifecycle.rs):
    exactly when its handler, retries included, gets it into the stored order, and
    that it is lost for good otherwise. */
module FillOutcomes {
  import opened Values
  import opened Fills
  import opened Orders
  import opened OrderStore

  /** The answers that one attempt of `handle_fill` meets. */
  datatype Answers = Answers(save: WriteOutcome, loadOk: bool, write: WriteOutcome, booking: Booking, announceOk: bool, now: int)

  /** One attempt, not interrupted by other handlers; calls it does not reach are no steps. */
  function Attempt(s: State, pid: nat, a: Answers): State {
    Rest(Next(s, SaveFill(pid, a.save)), pid, a)
  }

  function Rest(s: State, pid: nat, a: Answers): State {
    Tail(Next(s, Load(pid, a.loadOk, a.now)), pid, a)
  }

  function Tail(s: State, pid: nat, a: Answers): State {
    Next(Next(Next(s, Write(pid, a.write)), Book(pid, a.booking)), Announce(pid, a.announceOk))
  }

  /** The stored order exists and `Order::fill` would take the fill. */
  predicate Accepts(s: State, f: Fill) {
    f.orderId in s.orders
    && s.orders[f.orderId].order.status.IsActive()
    && f.quantity <= s.orders[f.orderId].order.Remaining()
  }

  /** The attempt's answers let it store the fill in the order. */
  predicate Stores(s: State, f: Fill, a: Answers) {
    a.save.Done? && a.loadOk && Accepts(s, f) && a.write.TakesEffect()
  }

  /** Once the order is stored: an error that makes the whole handler run again. */
  predicate BookingToRetry(a: Answers) {
    (a.booking.BookingFailed? && a.booking.retryable) || (a.booking.Booked? && !a.announceOk)
  }

  /** The attempt ends in such an error: a call to a repository failed, as opposed to an
      order that is missing or refuses the fill. */
  predicate ToRetry(s: State, f: Fill, a: Answers) {
    a.save != Done || !a.loadOk || (Accepts(s, f) && (a.write != Done || BookingToRetry(a)))
  }

  function Filled(v: Version, f: Fill, now: int): Version
    requires v.order.filled >= 0.0 && ApplyFill(v.order, f, now).Ok?
  {
    Version(ApplyFill(v.order, f, now).value, v.base, v.ops + [FillOp(f, now)])
  }

  lemma AcceptedFill(s: State, f: Fill, now: int)
    requires Inv(s, {}) && f.orderId in s.orders
    ensures s.orders[f.orderId].order.filled >= 0.0 && s.orders[f.orderId].order.id == f.orderId
    ensures ApplyFill(s.orders[f.orderId].order, f, now).Ok? <==> Accepts(s, f)
    ensures Accepts(s, f) ==> ApplyFill(s.orders[f.orderId].order, f, now).value.id == f.orderId
  {
    RunAccounting(s.orders[f.orderId].base, s.orders[f.orderId].ops);
    hide Blend, Unapplied, Orders.Run, Accepted;
  }

  /** A handler that waits for its next try, or has ended, is not moved by the rest. */
  lemma IdleRest(s: State, pid: nat, a: Answers)
    requires pid in s.procs ==> s.procs[pid].FillTry?
    ensures Rest(s, pid, a) == s
  {
  }

  lemma IdleTail(s: State, pid: nat, a: Answers)
    requires pid in s.procs ==> s.procs[pid].FillTry?
    ensures Tail(s, pid, a) == s
  {
  }

  /** Write, position and events, once the copy is filled. */
  lemma TailOutcome(s: State, pid: nat, a: Answers)
    requires pid in s.procs && s.procs[pid].FillWriting?
    ensures var (f, k, v) := (s.procs[pid].fill, s.procs[pid].retries, s.procs[pid].v);
            var t := Tail(s, pid, a);
            var booked := a.write.Done? && (a.booking.Booked? || a.booking.persisted);
            var done := a.write.Done? && a.booking.Booked? && a.announceOk;
            && t.saved == s.saved && t.maxRetries == s.maxRetries
            && t.orders == (if a.write.TakesEffect() then s.orders[v.order.id := v] else s.orders)
            && t.booked == s.booked + (if booked then [f] else [])
            && t.announced == s.announced + (if done then [f] else [])
            && t.processed == s.processed + (if done then {KeyOf(f)} else {})
            && t.procs - {pid} == s.procs - {pid}
            && (pid in t.procs ==> t.procs[pid] == FillTry(f, k + 1))
            && (pid in t.procs <==> k < s.maxRetries && (a.write != Done || BookingToRetry(a)))
  {
    var p := s.procs[pid];
    var s1 := Next(s, Write(pid, a.write));
    if a.write.Done? {
      assert s1 == s.(orders := s.orders[p.v.order.id := p.v], procs := s.procs[pid := FillBooking(p.fill, p.retries)]);
      BookingOutcome(s1, pid, a);
    } else {
      StoredKeepsProcesses(s, p.v, a.write);
      assert s1 == Retry(Stored(s, p.v, a.write), pid, p);
      IdleTail(s1, pid, a);
    }
  }

  lemma BookingOutcome(s: State, pid: nat, a: Answers)
    requires pid in s.procs && s.procs[pid].FillBooking?
    ensures var (f, k) := (s.procs[pid].fill, s.procs[pid].retries);
            var t := Next(Next(s, Book(pid, a.booking)), Announce(pid, a.announceOk));
            var done := a.booking.Booked? && a.announceOk;
            && t.saved == s.saved && t.maxRetries == s.maxRetries && t.orders == s.orders
            && t.booked == s.booked + (if a.booking.Booked? || a.booking.persisted then [f] else [])
            && t.announced == s.announced + (if done then [f] else [])
            && t.processed == s.processed + (if done then {KeyOf(f)} else {})
            && t.procs - {pid} == s.procs - {pid}
            && (pid in t.procs ==> t.procs[pid] == FillTry(f, k + 1))
            && (pid in t.procs <==> k < s.maxRetries && BookingToRetry(a))
  {
    var p := s.procs[pid];
    var s1 := Next(s, Book(pid, a.booking));
    if a.booking.Booked? {
      assert s1 == s.(booked := s.booked + [p.fill], procs := s.procs[pid := FillAnnouncing(p.fill, p.retries)]);
    } else {
      assert pid in s1.procs ==> s1.procs[pid] == FillTry(p.fill, p.retries + 1);
      assert Next(s1, Announce(pid, a.announceOk)) == s1;
    }
    hide KeyOf;
  }

  /** Load and everything after it, for a handler whose fill has just been saved. */
  lemma RestOutcome(s: State, pid: nat, a: Answers)
    requires Inv(s, {}) && pid in s.procs && s.procs[pid].FillSaved?
    ensures var (f, k) := (s.procs[pid].fill, s.procs[pid].retries);
            var t := Rest(s, pid, a);
            var reached := a.loadOk && Accepts(s, f);
            var booked := reached && a.write.Done? && (a.booking.Booked? || a.booking.persisted);
            var done := reached && a.write.Done? && a.booking.Booked? && a.announceOk;
            && t.saved == s.saved && t.maxRetries == s.maxRetries
            && (f.orderId in s.orders ==> s.orders[f.orderId].order.filled >= 0.0)
            && (Accepts(s, f) ==> ApplyFill(s.orders[f.orderId].order, f, a.now).Ok?)
            && t.orders == (if reached && a.write.TakesEffect()
                            then s.orders[f.orderId := Filled(s.orders[f.orderId], f, a.now)] else s.orders)
            && t.booked == s.booked + (if booked then [f] else [])
            && t.announced == s.announced + (if done then [f] else [])
            && t.processed == s.processed + (if done then {KeyOf(f)} else {})
            && t.procs - {pid} == s.procs - {pid}
            && (pid in t.procs ==> t.procs[pid] == FillTry(f, k + 1))
            && (pid in t.procs <==>
                  k < s.maxRetries && (!a.loadOk || (Accepts(s, f) && (a.write != Done || BookingToRetry(a)))))
  {
    hide ApplyFill, Inv;
    var (f, k) := (s.procs[pid].fill, s.procs[pid].retries);
    var s1 := Next(s, Load(pid, a.loadOk, a.now));
    if f.orderId in s.orders {
      AcceptedFill(s, f, a.now);
    }
    if a.loadOk && Accepts(s, f) {
      assert s1 == Goto(s, pid, FillWriting(f, k, Filled(s.orders[f.orderId], f, a.now)));
      hide Next;
      TailOutcome(s1, pid, a);
      assert s1.procs - {pid} == s.procs - {pid};
    } else {
      assert s1 == if a.loadOk then Finish(s, pid) else Retry(s, pid, s.procs[pid]);
      hide Next;
      IdleTail(s1, pid, a);
    }
  }

  /** One uninterrupted attempt for a fill not yet in the repository, whatever its
      calls answer: what it leaves saved, stored, booked, published and remembered, and
      whether the handler waits for its next try or has ended. */
  lemma UninterruptedFill(s: State, pid: nat, a: Answers)
    requires Inv(s, {}) && pid in s.procs && s.procs[pid].FillTry? && s.procs[pid].fill !in s.saved
    ensures var (f, k) := (s.procs[pid].fill, s.procs[pid].retries);
            var t := Attempt(s, pid, a);
            var reached := a.save.Done? && a.loadOk && Accepts(s, f) && a.write.Done?;
            && (Accepts(s, f) ==> s.orders[f.orderId].order.filled >= 0.0
                                  && ApplyFill(s.orders[f.orderId].order, f, a.now).Ok?)
            && t.saved == s.saved + (if a.save.TakesEffect() then {f} else {})
            && t.orders == (if Stores(s, f, a)
                            then s.orders[f.orderId := Filled(s.orders[f.orderId], f, a.now)] else s.orders)
            && t.booked == s.booked + (if reached && (a.booking.Booked? || a.booking.persisted) then [f] else [])
            && t.announced == s.announced + (if reached && a.booking.Booked? && a.announceOk then [f] else [])
            && t.processed == s.processed + (if reached && a.booking.Booked? && a.announceOk then {KeyOf(f)} else {})
            && t.procs - {pid} == s.procs - {pid} && t.maxRetries == s.maxRetries
            && (pid in t.procs ==> t.procs[pid] == FillTry(f, k + 1))
            && (pid in t.procs <==> k < s.maxRetries && ToRetry(s, f, a))
  {
    hide ApplyFill, Inv;
    var (f, k) := (s.procs[pid].fill, s.procs[pid].retries);
    var s1 := Next(s, SaveFill(pid, a.save));
    NextKeepsInv(s, SaveFill(pid, a.save), {});
    if f.orderId in s.orders {
      AcceptedFill(s, f, a.now);
    }
    if a.save.Done? {
      assert s1 == s.(saved := s.saved + {f}, procs := s.procs[pid := FillSaved(f, k)]);
      hide Next;
      RestOutcome(s1, pid, a);
      assert s1.procs - {pid} == s.procs - {pid};
    } else {
      assert s1.orders == s.orders && (pid in s1.procs ==> s1.procs[pid] == FillTry(f, k + 1));
      IdleRest(s1, pid, a);
    }
  }

  predicate Applied(s: State, f: Fill) {
    f.orderId in s.orders && f in AppliedFills(s.orders[f.orderId])
  }

  lemma UnsavedIsUnapplied(s: State, f: Fill)
    requires Inv(s, {}) && f !in s.saved
    ensures Unapplied(s, f) && !Applied(s, f)
    ensures forall pid :: pid in s.procs && s.procs[pid].FillSaved? ==> s.procs[pid].fill != f
  {
    hide Orders.Run, Accepted, Fresh;
  }

  /** After one attempt the fill is in its stored order exactly when the save
      succeeded, the load succeeded, the order accepts it and the write took effect. */
  lemma AppliedIff(s: State, pid: nat, a: Answers)
    requires Inv(s, {}) && pid in s.procs && s.procs[pid].FillTry? && s.procs[pid].fill !in s.saved
    ensures var f := s.procs[pid].fill;
            Applied(Attempt(s, pid, a), f) <==> Stores(s, f, a)
  {
    var f := s.procs[pid].fill;
    UninterruptedFill(s, pid, a);
    UnsavedIsUnapplied(s, f);
    if Stores(s, f, a) {
      FilledContains(s, f, a.now);
    }
    hide Attempt, Inv, AppliedFills;
  }

  lemma FilledContains(s: State, f: Fill, now: int)
    requires Inv(s, {}) && Accepts(s, f)
    requires s.orders[f.orderId].order.filled >= 0.0 && ApplyFill(s.orders[f.orderId].order, f, now).Ok?
    ensures f in AppliedFills(Filled(s.orders[f.orderId], f, now))
  {
    hide ApplyFill;
    var v := s.orders[f.orderId];
    assert Change(v, FillOp(f, now)) == Some(Filled(v, f, now));
    FrontLast(v.ops, FillOp(f, now));
    FrontLast(AppliedFills(v), f);
  }

  lemma AttemptKeepsInv(s: State, pid: nat, a: Answers)
    requires Inv(s, {})
    ensures Inv(Attempt(s, pid, a), {})
  {
    hide Inv, Next;
    var s1 := Next(s, SaveFill(pid, a.save));
    NextKeepsInv(s, SaveFill(pid, a.save), {});
    var s2 := Next(s1, Load(pid, a.loadOk, a.now));
    NextKeepsInv(s1, Load(pid, a.loadOk, a.now), {});
    var s3 := Next(s2, Write(pid, a.write));
    NextKeepsInv(s2, Write(pid, a.write), {});
    NextKeepsInv(s3, Book(pid, a.booking), {});
    NextKeepsInv(Next(s3, Book(pid, a.booking)), Announce(pid, a.announceOk), {});
  }

  /** And an attempt that saved the fill without storing it in the order has lost it:
      no continuation, with whatever handlers, retries and redeliveries, applies it. */
  lemma SavedButNotStoredIsLost(s: State, pid: nat, a: Answers, more: seq<Action>)
    requires Inv(s, {}) && pid in s.procs && s.procs[pid].FillTry? && s.procs[pid].fill !in s.saved
    requires a.save.TakesEffect() && !Stores(s, s.procs[pid].fill, a)
    ensures s.procs[pid].fill in Attempt(s, pid, a).saved
    ensures Unapplied(Exec(Attempt(s, pid, a), more), s.procs[pid].fill)
  {
    var f, t := s.procs[pid].fill, Attempt(s, pid, a);
    UninterruptedFill(s, pid, a);
    UnsavedIsUnapplied(s, f);
    AttemptKeepsInv(s, pid, a);
    hide Attempt, Inv, AppliedFills, Stores;
    forall q | q in t.procs && q != pid ensures q in s.procs && t.procs[q] == s.procs[q] {
      assert q in t.procs - {pid};
      assert q in s.procs - {pid} && (t.procs - {pid})[q] == (s.procs - {pid})[q];
    }
    LostFillStaysLost(t, f, more);
  }

  // ----------------------------------------------------- with all its retries

  /** The retry loop: attempt after attempt, as long as there are answers. A handler
      that has ended is not moved by further attempts. */
  function Attempts(s: State, pid: nat, answers: seq<Answers>): State
    decreases |answers|
  {
    if answers == [] then s else Attempts(Attempt(s, pid, answers[0]), pid, answers[1..])
  }

  /** The first attempt whose save leaves the fill in the repository decides; until
      then each failed save uses up one retry. */
  predicate EventuallyStores(s: State, f: Fill, answers: seq<Answers>, retriesLeft: int)
    decreases |answers|
  {
    answers != [] &&
    if answers[0].save == Failed(false)
    then retriesLeft > 0 && EventuallyStores(s, f, answers[1..], retriesLeft - 1)
    else Stores(s, f, answers[0])
  }

  /** Further tries for a saved fill meet the duplicate key and change no order. */
  lemma SpentAttempt(s: State, pid: nat, f: Fill, a: Answers)
    requires f in s.saved && (pid in s.procs ==> s.procs[pid].FillTry? && s.procs[pid].fill == f)
    ensures var t := Attempt(s, pid, a);
            && t.orders == s.orders && f in t.saved
            && (pid in t.procs ==> t.procs[pid].FillTry? && t.procs[pid].fill == f)
  {
    var s1 := Next(s, SaveFill(pid, a.save));
    assert pid in s1.procs ==> s1.procs[pid].FillTry? && s1.procs[pid].fill == f;
    IdleRest(s1, pid, a);
  }

  lemma {:induction false} SpentAttempts(s: State, pid: nat, f: Fill, answers: seq<Answers>)
    requires f in s.saved && (pid in s.procs ==> s.procs[pid].FillTry? && s.procs[pid].fill == f)
    ensures Attempts(s, pid, answers).orders == s.orders
    decreases |answers|
  {
    if answers != [] {
      SpentAttempt(s, pid, f, answers[0]);
      hide Attempt;
      SpentAttempts(Attempt(s, pid, answers[0]), pid, f, answers[1..]);
    }
  }

  lemma {:induction false} EndedAttempts(s: State, pid: nat, answers: seq<Answers>)
    requires pid !in s.procs
    ensures Attempts(s, pid, answers) == s
    decreases |answers|
  {
    if answers != [] {
      IdleRest(s, pid, answers[0]);
      EndedAttempts(s, pid, answers[1..]);
    }
  }

  lemma SameOrdersStoreAlike(s: State, t: State, f: Fill, answers: seq<Answers>, retriesLeft: int)
    requires s.orders == t.orders
    ensures EventuallyStores(s, f, answers, retriesLeft) == EventuallyStores(t, f, answers, retriesLeft)
  {
  }

  /** `process_fill`, retries included: a fill not yet in the repository ends up in its
      stored order exactly when the first attempt whose save takes effect comes within
      the retry limit, reports that save as successful, and goes through to the write. */
  lemma {:induction false} ProcessedFillAppliedIff(s: State, pid: nat, answers: seq<Answers>)
    requires Inv(s, {}) && pid in s.procs && s.procs[pid].FillTry? && s.procs[pid].fill !in s.saved
    ensures var (f, k) := (s.procs[pid].fill, s.procs[pid].retries);
            Applied(Attempts(s, pid, answers), f) <==> EventuallyStores(s, f, answers, s.maxRetries - k)
    decreases |answers|
  {
    hide Attempt, Inv, Unapplied, AppliedFills, Accepts, ApplyFill;
    var (f, k) := (s.procs[pid].fill, s.procs[pid].retries);
    UnsavedIsUnapplied(s, f);
    if answers != [] {
      var a, t := answers[0], Attempt(s, pid, answers[0]);
      UninterruptedFill(s, pid, a);
      AppliedIff(s, pid, a);
      AttemptKeepsInv(s, pid, a);
      if a.save == Failed(false) {
        SameOrdersStoreAlike(s, t, f, answers[1..], s.maxRetries - k - 1);
        if pid in t.procs {
          ProcessedFillAppliedIff(t, pid, answers[1..]);
        } else {
          EndedAttempts(t, pid, answers[1..]);
        }
      } else {
        SpentAttempts(t, pid, f, answers[1..]);
      }
    }
  }

  /** The failing run: the save succeeds, the load fails once, and the retry meets the
      fill its own first attempt saved. The fill is in the repository, no order has
      changed, the handler has ended, and no continuation ever applies the fill. */
  lemma FailedLoadLosesFill(s: State, pid: nat, f: Fill, now: int, more: seq<Action>)
    requires Inv(s, {}) && pid !in s.procs && KeyOf(f) !in s.processed && f !in s.saved && s.maxRetries > 0
    ensures var s2 := Next(Next(s, Deliver(pid, f)), SaveFill(pid, Done));
            var t := Next(Next(s2, Load(pid, false, now)), SaveFill(pid, Done));
            t == s.(saved := s.saved + {f}) && Unapplied(Exec(t, more), f)
  {
    FailedLoadRun(s, pid, f, now);
    UnsavedIsUnapplied(s, f);
    SavingMoreKeepsInv(s, f, {});
    hide Inv, AppliedFills, Next;
    LostFillStaysLost(s.(saved := s.saved + {f}), f, more);
  }

  lemma FailedLoadRun(s: State, pid: nat, f: Fill, now: int)
    requires pid !in s.procs && KeyOf(f) !in s.processed && f !in s.saved && s.maxRetries > 0
    ensures var s2 := Next(Next(s, Deliver(pid, f)), SaveFill(pid, Done));
            Next(Next(s2, Load(pid, false, now)), SaveFill(pid, Done)) == s.(saved := s.saved + {f})
  {
    var s2 := Next(Next(s, Deliver(pid, f)), SaveFill(pid, Done));
    assert s2 == s.(saved := s.saved + {f}, procs := s.procs[pid := FillSaved(f, 0)]);
    var s3 := Next(s2, Load(pid, false, now));
    assert s3 == s.(saved := s.saved + {f}, procs := s.procs[pid := FillTry(f, 1)]);
    assert s3.procs - {pid} == s.procs;
  }
}
