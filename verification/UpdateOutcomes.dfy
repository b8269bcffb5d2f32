/** What becomes of an order update from the broker, and of a fill delivered again
    (crates/application/src/order_lifecycle.rs). */
module UpdateOutcomes {
  import opened Values
  import opened Fills
  import opened Orders
  import opened OrderStore

  // ---------------------------------------------------------- order updates

  /** The answers that one attempt of `handle_order_update` meets. */
  datatype Answers = Answers(loadOk: bool, write: WriteOutcome, now: int)

  function Attempt(s: State, pid: nat, a: Answers): State {
    Next(Next(s, Load(pid, a.loadOk, a.now)), Write(pid, a.write))
  }

  /** The stored order exists and its status may become this one. */
  predicate Takes(s: State, id: nat, status: OrderStatus) {
    id in s.orders && IsValidTransition(s.orders[id].order.status, status)
  }

  function Updated(v: Version, status: OrderStatus, now: int): Version {
    Version(v.order.(status := status, updatedAt := now), v.base, v.ops + [UpdateStatusOp(status, now)])
  }

  /** One uninterrupted attempt, whatever its calls answer: the status is stored exactly
      when the load succeeds, the order takes it and the write has effect; nothing else
      changes; and it is tried again exactly after a failed load or write. */
  lemma UninterruptedUpdate(s: State, pid: nat, a: Answers)
    requires Inv(s, {}) && pid in s.procs && s.procs[pid].UpdateTry?
    ensures var (id, status, k) := (s.procs[pid].id, s.procs[pid].status, s.procs[pid].retries);
            var t := Attempt(s, pid, a);
            && t == s.(orders := t.orders, procs := t.procs)
            && t.orders == (if a.loadOk && Takes(s, id, status) && a.write.TakesEffect()
                            then s.orders[id := Updated(s.orders[id], status, a.now)] else s.orders)
            && t.procs - {pid} == s.procs - {pid}
            && (pid in t.procs ==> t.procs[pid] == UpdateTry(id, status, k + 1))
            && (pid in t.procs <==> k < s.maxRetries && (!a.loadOk || (Takes(s, id, status) && a.write != Done)))
  {
    hide Inv, KeyOf, SaveFillStep, BookStep, AnnounceStep, GatewayStep, ValidateForSubmission, Change;
    var (id, status, k) := (s.procs[pid].id, s.procs[pid].status, s.procs[pid].retries);
    if id in s.orders {
      ChangeByUpdate(s, id, status, a.now);
    }
    var s1 := Next(s, Load(pid, a.loadOk, a.now));
    if a.loadOk && Takes(s, id, status) {
      var v := Updated(s.orders[id], status, a.now);
      assert s1 == Goto(s, pid, UpdateWriting(id, status, k, v));
      hide Next;
      WriteOfUpdate(s, pid, id, status, k, v, a.write);
    } else {
      assert s1 == if a.loadOk then Finish(s, pid) else Retry(s, pid, s.procs[pid]);
      hide LoadStep;
      assert pid in s1.procs ==> s1.procs[pid].UpdateTry?;
      assert Next(s1, Write(pid, a.write)) == s1;
    }
  }

  lemma ChangeByUpdate(s: State, id: nat, status: OrderStatus, now: int)
    requires Inv(s, {}) && id in s.orders
    ensures var v := s.orders[id];
            && v.order.id == id
            && Change(v, UpdateStatusOp(status, now))
                 == if IsValidTransition(v.order.status, status) then Some(Updated(v, status, now)) else None
  {
    RunAccounting(s.orders[id].base, s.orders[id].ops);
    hide Orders.Run, Accepted, Unapplied;
  }

  lemma WriteOfUpdate(s: State, pid: nat, id: nat, status: OrderStatus, k: nat, v: Version, write: WriteOutcome)
    requires pid in s.procs
    ensures var t := Next(Goto(s, pid, UpdateWriting(id, status, k, v)), Write(pid, write));
            && t == s.(orders := t.orders, procs := t.procs)
            && t.orders == (if write.TakesEffect() then s.orders[v.order.id := v] else s.orders)
            && t.procs - {pid} == s.procs - {pid}
            && (pid in t.procs ==> t.procs[pid] == UpdateTry(id, status, k + 1))
            && (pid in t.procs <==> k < s.maxRetries && write != Done)
  {
    hide Change, LoadStep, KeyOf, ValidateForSubmission, SaveFillStep, BookStep, AnnounceStep, GatewayStep;
  }

  /** The retry loop; a handler that has ended is not moved by further attempts. */
  function Attempts(s: State, pid: nat, answers: seq<Answers>): State
    decreases |answers|
  {
    if answers == [] then s else Attempts(Attempt(s, pid, answers[0]), pid, answers[1..])
  }

  /** Some attempt within the limit loads and writes with effect, after attempts that
      all failed for a reason to try again. */
  predicate EventuallyWrites(answers: seq<Answers>, retriesLeft: int)
    decreases |answers|
  {
    answers != [] &&
    ((answers[0].loadOk && answers[0].write.TakesEffect())
     || (retriesLeft > 0 && (!answers[0].loadOk || answers[0].write != Done) && EventuallyWrites(answers[1..], retriesLeft - 1)))
  }

  lemma {:induction false} EndedAttempts(s: State, pid: nat, answers: seq<Answers>)
    requires pid !in s.procs
    ensures Attempts(s, pid, answers) == s
    decreases |answers|
  {
    if answers != [] {
      assert Attempt(s, pid, answers[0]) == s;
      EndedAttempts(s, pid, answers[1..]);
    }
  }

  /** A later try stores the same status again: what is stored has that status and only
      more of a history. */
  lemma {:induction false} RetriesKeepStatus(s: State, pid: nat, id: nat, status: OrderStatus, answers: seq<Answers>)
    requires Inv(s, {}) && id in s.orders && s.orders[id].order.status == status
    requires pid in s.procs ==> s.procs[pid].UpdateTry? && s.procs[pid].id == id && s.procs[pid].status == status
    ensures var t := Attempts(s, pid, answers);
            id in t.orders && t.orders[id].order.status == status && |t.orders[id].ops| >= |s.orders[id].ops|
    decreases |answers|
  {
    if pid !in s.procs {
      EndedAttempts(s, pid, answers);
    } else if answers != [] {
      hide Inv, Attempt;
      UninterruptedUpdate(s, pid, answers[0]);
      AttemptKeepsInv(s, pid, answers[0]);
      RetriesKeepStatus(Attempt(s, pid, answers[0]), pid, id, status, answers[1..]);
    }
  }

  lemma AttemptKeepsInv(s: State, pid: nat, a: Answers)
    requires Inv(s, {})
    ensures Inv(Attempt(s, pid, a), {})
  {
    hide Inv, Next;
    NextKeepsInv(s, Load(pid, a.loadOk, a.now), {});
    NextKeepsInv(Next(s, Load(pid, a.loadOk, a.now)), Write(pid, a.write), {});
  }

  lemma UpdatedHasStatus(s: State, id: nat, status: OrderStatus, now: int)
    requires Takes(s, id, status)
    ensures id in s.orders
    ensures var v := Updated(s.orders[id], status, now);
            v.order.status == status && |v.ops| == |s.orders[id].ops| + 1
  {
  }

  lemma SameOrdersTake(s: State, t: State, id: nat, status: OrderStatus)
    requires t.orders == s.orders
    ensures Takes(t, id, status) == Takes(s, id, status)
  {
  }

  /** An order update, retries included: it makes history in the stored order exactly
      when the order takes the status and some attempt within the limit loads and
      writes with effect; then the status is stored. Otherwise no order changes. */
  lemma {:induction false} ReceivedUpdateStoredIff(s: State, pid: nat, answers: seq<Answers>)
    requires Inv(s, {}) && pid in s.procs && s.procs[pid].UpdateTry?
    ensures var (id, status) := (s.procs[pid].id, s.procs[pid].status);
            var t := Attempts(s, pid, answers);
            if Takes(s, id, status) && EventuallyWrites(answers, s.maxRetries - s.procs[pid].retries)
            then id in t.orders && t.orders[id].order.status == status && |t.orders[id].ops| > |s.orders[id].ops|
            else t.orders == s.orders
    decreases |answers|
  {
    hide Inv, Attempt, Takes, Updated, Attempts;
    var (id, status) := (s.procs[pid].id, s.procs[pid].status);
    AttemptsUnfold(s, pid, answers);
    if answers != [] {
      var (a, t) := (answers[0], Attempt(s, pid, answers[0]));
      UninterruptedUpdate(s, pid, a);
      AttemptKeepsInv(s, pid, a);
      if a.loadOk && Takes(s, id, status) && a.write.TakesEffect() {
        UpdatedHasStatus(s, id, status, a.now);
        RetriesKeepStatus(t, pid, id, status, answers[1..]);
      } else if pid in t.procs {
        SameOrdersTake(s, t, id, status);
        ReceivedUpdateStoredIff(t, pid, answers[1..]);
      } else {
        EndedAttempts(t, pid, answers[1..]);
      }
    }
  }

  lemma AttemptsUnfold(s: State, pid: nat, answers: seq<Answers>)
    ensures Attempts(s, pid, answers)
              == if answers == [] then s else Attempts(Attempt(s, pid, answers[0]), pid, answers[1..])
  {
  }

  /** The same from the moment the broker's update arrives at a free handler. */
  lemma ArrivedUpdateStoredIff(s: State, pid: nat, id: nat, status: OrderStatus, answers: seq<Answers>)
    requires Inv(s, {}) && pid !in s.procs
    ensures var t := Attempts(Next(s, ReceiveUpdate(pid, id, status)), pid, answers);
            if Takes(s, id, status) && EventuallyWrites(answers, s.maxRetries)
            then id in t.orders && t.orders[id].order.status == status && |t.orders[id].ops| > |s.orders[id].ops|
            else t.orders == s.orders
  {
    var begun := Next(s, ReceiveUpdate(pid, id, status));
    NextKeepsInv(s, ReceiveUpdate(pid, id, status), {});
    assert begun == s.(procs := s.procs[pid := UpdateTry(id, status, 0)]);
    hide Inv, Next, Attempts, EventuallyWrites;
    ReceivedUpdateStoredIff(begun, pid, answers);
    SameOrdersTake(s, begun, id, status);
  }

  /** A busy handler takes nothing new. */
  lemma BusyHandlersGoOn(s: State, a: Action)
    requires (a.Deliver? || a.ReceiveUpdate? || a.RequestCancel? || a.Place?) && a.pid in s.procs
    ensures Next(s, a) == s
  {
  }

  // ------------------------------------------------------- repeated deliveries

  ghost predicate WasAnnounced(s: State, key: FillKey) {
    exists g :: g in s.announced && KeyOf(g) == key
  }

  /** What is remembered are fills whose handler succeeded, and all of them as long as
      nothing was evicted. */
  lemma {:induction false} RememberedWereAnnounced(maxRetries: nat, actions: seq<Action>)
    ensures var s := Exec(Initial(maxRetries), actions);
            && (forall key :: key in s.processed ==> WasAnnounced(s, key))
            && ((forall a :: a in actions ==> !a.Evict?) ==> forall g :: g in s.announced ==> KeyOf(g) in s.processed)
    decreases |actions|
  {
    if actions != [] {
      var a := Last(actions);
      var s := Exec(Initial(maxRetries), Front(actions));
      RememberedWereAnnounced(maxRetries, Front(actions));
      assert forall key :: key in Exec(Initial(maxRetries), Front(actions)).processed ==>
                             WasAnnounced(Exec(Initial(maxRetries), Front(actions)), key);
      assert a in actions && forall b :: b in Front(actions) ==> b in actions;
      NextRemembers(s, a);
      hide Next, WasAnnounced, KeyOf;
      forall key | key in Next(s, a).processed ensures WasAnnounced(Next(s, a), key) {
        assert key in s.processed ==> WasAnnounced(s, key);
      }
    }
  }

  lemma NextRemembers(s: State, a: Action)
    ensures var t := Next(s, a);
            && (forall key :: key in t.processed ==> key in s.processed || WasAnnounced(t, key))
            && (forall key :: WasAnnounced(s, key) ==> WasAnnounced(t, key))
            && (!a.Evict? ==> s.processed <= t.processed)
            && (forall g :: g in t.announced ==> g in s.announced || KeyOf(g) in t.processed)
  {
    hide KeyOf;
    NextAnnounces(s, a);
    hide Next;
    var t := Next(s, a);
    forall key | WasAnnounced(s, key) ensures WasAnnounced(t, key) {
      var g :| g in s.announced && KeyOf(g) == key;
      assert g in t.announced;
    }
    if exists f :: t.announced == s.announced + [f] && t.processed == s.processed + {KeyOf(f)} {
      var f :| t.announced == s.announced + [f] && t.processed == s.processed + {KeyOf(f)};
      assert f in t.announced;
    }
  }

  lemma NextAnnounces(s: State, a: Action)
    ensures var t := Next(s, a);
            || (t.announced == s.announced && t.processed == s.processed)
            || (a.Evict? && t.announced == s.announced && t.processed <= s.processed)
            || exists f :: t.announced == s.announced + [f] && t.processed == s.processed + {KeyOf(f)}
  {
    hide Change, ValidateForSubmission, KeyOf;
  }

  /** Over every run without eviction: a fill delivered to a free handler is turned away
      exactly when a fill of the same order, time and quantity was handled to the end,
      be it this one or another; otherwise its handler starts. */
  lemma DeliveryRefusedIff(maxRetries: nat, actions: seq<Action>, pid: nat, f: Fill)
    requires forall a :: a in actions ==> !a.Evict?
    requires pid !in Exec(Initial(maxRetries), actions).procs
    ensures var s := Exec(Initial(maxRetries), actions);
            var t := Next(s, Deliver(pid, f));
            var handled := exists g :: g in s.announced
                             && g.orderId == f.orderId && g.timestamp == f.timestamp && g.quantity == f.quantity;
            && (handled ==> t == s)
            && (!handled ==> t == s.(procs := s.procs[pid := FillTry(f, 0)]))
  {
    RememberedWereAnnounced(maxRetries, actions);
    hide Exec;
  }

  /** Evicting a handled fill is harmless: delivered again, it starts a handler, but the
      fill repository refuses it, and all that has changed is the memory. */
  lemma EvictedFillIsRefusedLater(s: State, pid: nat, f: Fill)
    requires pid !in s.procs && f in s.saved
    ensures var delivered := Next(Next(s, Evict({KeyOf(f)})), Deliver(pid, f));
            && pid in delivered.procs && delivered.procs[pid] == FillTry(f, 0)
            && Next(delivered, SaveFill(pid, Done)) == s.(processed := s.processed - {KeyOf(f)})
  {
    hide KeyOf;
    var delivered := Next(Next(s, Evict({KeyOf(f)})), Deliver(pid, f));
    assert delivered.procs - {pid} == s.procs;
  }
}
