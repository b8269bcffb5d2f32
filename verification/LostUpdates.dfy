/** Read-modify-write without a lock: what a late write does to what other handlers
    stored, and exactly when it does no harm
    (crates/application/src/order_lifecycle.rs, crates/application/src/trading_service.rs). */
module LostUpdates {
  import opened Values
  import opened Fills
  import opened Orders
  import opened OrderStore

  /** A handler whose next step writes its copy: of the holders all but a
      cancellation still waiting for the gateway. */
  predicate Writing(p: Process) {
    p.Holds() && !p.CancelSent?
  }

  /** Whoever writes, the copy replaces whatever the store holds for that order, and
      nothing else changes. */
  lemma StaleWriteWins(s: State, pid: nat, between: seq<Action>)
    requires pid in s.procs && Writing(s.procs[pid])
    requires forall i :: 0 <= i < |between| ==> Spares(between[i], pid)
    ensures var v := s.procs[pid].v;
            Next(Exec(s, between), Write(pid, Done)).orders == Exec(s, between).orders[v.order.id := v]
  {
    OthersKeepProcess(s, between, pid);
    hide Exec;
  }

  // ---------------------------------------------------------------- an input

  /** A terminal status erased: the update task loads a Submitted order, a cancellation
      goes through and Cancelled is stored, and then the update's late write brings
      the order back as Pending. */
  lemma CancellationErased(s: State, pid: nat, cancelPid: nat, id: nat, now: int)
    requires id in s.orders && s.orders[id].order.id == id && s.orders[id].order.filled >= 0.0
    requires s.orders[id].order.status.Submitted?
    requires pid in s.procs && s.procs[pid] == UpdateTry(id, OrderStatus.Pending(now), 0) && cancelPid !in s.procs
    ensures var s1 := Next(Next(s, Load(pid, true, now)), RequestCancel(cancelPid, id));
            var s2 := Next(Next(s1, Load(cancelPid, true, now)), GatewayReply(cancelPid, true, now));
            var cancelled := Next(s2, Write(cancelPid, Done));
            var written := Next(cancelled, Write(pid, Done));
            && id in cancelled.orders && cancelled.orders[id].order.status.Cancelled?
            && id in written.orders && written.orders[id].order.status.Pending?
  {
    var v := s.orders[id];
    var update := UpdateStatusOp(OrderStatus.Pending(now), now);
    var cancel := CancelOp("User request", now);
    assert Change(v, update).Some? && Change(v, update).value.order == v.order.(status := OrderStatus.Pending(now), updatedAt := now);
    assert Change(v, cancel).Some?
           && Change(v, cancel).value.order == v.order.(status := Cancelled(now, "User request"), updatedAt := now);
    var pending, gone := Change(v, update).value, Change(v, cancel).value;
    hide Change, KeyOf, ValidateForSubmission, WriteStep, GatewayStep, SaveFillStep, BookStep, AnnounceStep;
    var a := Next(s, Load(pid, true, now));
    assert a == Goto(s, pid, UpdateWriting(id, update.status, 0, pending));
    var s1 := Next(a, RequestCancel(cancelPid, id));
    assert s1 == Goto(a, cancelPid, CancelTry(id));
    var b := Next(s1, Load(cancelPid, true, now));
    assert b == Goto(s1, cancelPid, CancelSent(v));
    hide Next, LoadStep;
    AcceptedCancellation(b, cancelPid, now);
    TwoWrites(Goto(b, cancelPid, CancelWriting(gone)), cancelPid, pid);
  }

  lemma TwoWrites(s: State, first: nat, second: nat)
    requires first in s.procs && second in s.procs && first != second
    requires s.procs[first].CancelWriting? && s.procs[second].UpdateWriting?
    ensures var t := Next(s, Write(first, Done));
            && t.orders == s.orders[s.procs[first].v.order.id := s.procs[first].v]
            && Next(t, Write(second, Done)).orders == t.orders[s.procs[second].v.order.id := s.procs[second].v]
  {
  }

  // -------------------------------------------------------- exact conditions

  /** `v` is what `op` made of `loaded`. */
  predicate Changed(loaded: Version, op: OrderOp, v: Version) {
    Change(loaded, op) == Some(v)
  }

  /** A write behaves as if load, change and write had been one atomic step exactly
      when the store still holds, at the write, the version that was loaded. */
  lemma WriteIsAtomicIff(s: State, pid: nat, loaded: Version, op: OrderOp, between: seq<Action>)
    requires Inv(s, {}) && pid in s.procs && Writing(s.procs[pid])
    requires WellFormed(s.saved, loaded) && Changed(loaded, op, s.procs[pid].v)
    requires forall i :: 0 <= i < |between| ==> Spares(between[i], pid)
    requires s.procs[pid].v.order.id in s.orders
    ensures var u := Exec(s, between);
            var id := s.procs[pid].v.order.id;
            var t := Next(u, Write(pid, Done));
            && id in u.orders && id in t.orders
            && (Changed(u.orders[id], op, t.orders[id]) <==> u.orders[id] == loaded)
  {
    var v := s.procs[pid].v;
    StaleWriteWins(s, pid, between);
    ExecKeepsInv(s, between, {});
    OrdersPersist(s, between, v.order.id);
    var stored := Exec(s, between).orders[v.order.id];
    assert WellFormed(Exec(s, between).saved, stored);
    if Changed(stored, op, v) {
      SameChangeSameVersion(stored, loaded, op, v);
    }
    hide Exec, Next, Inv, Orders.Run, Accepted, Change;
  }

  lemma SameChangeSameVersion(a: Version, b: Version, op: OrderOp, v: Version)
    requires a.base.filled >= 0.0 && a.order == Run(a.base, a.ops)
    requires b.base.filled >= 0.0 && b.order == Run(b.base, b.ops)
    requires Changed(a, op, v) && Changed(b, op, v)
    ensures a == b
  {
    hide Perform, Orders.Run;
    FrontLast(a.ops, op);
    FrontLast(b.ops, op);
  }

  lemma {:induction false} OrdersPersist(s: State, actions: seq<Action>, id: nat)
    requires id in s.orders
    ensures id in Exec(s, actions).orders
    decreases |actions|
  {
    if actions != [] {
      OrdersPersist(s, Front(actions), id);
      OrderPersists(Exec(s, Front(actions)), Last(actions), id);
      hide Next;
    }
  }

  lemma OrderPersists(s: State, a: Action, id: nat)
    requires id in s.orders
    ensures id in Next(s, a).orders
    ensures !WritesOrder(s, a, id) ==> Next(s, a).orders[id] == s.orders[id]
  {
    hide Change, ValidateForSubmission, KeyOf;
  }

  /** The step stores, or may store, a copy of this order. */
  predicate WritesOrder(s: State, a: Action, id: nat) {
    a.Write? && a.pid in s.procs && Writing(s.procs[a.pid]) && s.procs[a.pid].v.order.id == id
  }

  ghost predicate NobodyWrites(s: State, actions: seq<Action>, id: nat) {
    forall i :: 0 <= i < |actions| ==> !WritesOrder(Exec(s, actions[..i]), actions[i], id)
  }

  lemma {:induction false} UnwrittenOrderStays(s: State, actions: seq<Action>, id: nat)
    requires id in s.orders && NobodyWrites(s, actions, id)
    ensures id in Exec(s, actions).orders && Exec(s, actions).orders[id] == s.orders[id]
    decreases |actions|
  {
    if actions != [] {
      var front := Front(actions);
      assert NobodyWrites(s, front, id) by {
        forall i | 0 <= i < |front| ensures front[..i] == actions[..i] && front[i] == actions[i] {}
      }
      UnwrittenOrderStays(s, front, id);
      assert actions[..|actions| - 1] == front;
      OrderPersists(Exec(s, front), Last(actions), id);
      hide Next;
    }
  }

  /** The order and the operation of a handler that is about to load. */
  predicate AboutToLoad(p: Process, id: nat, op: OrderOp, now: int) {
    match p
    case FillSaved(f, _) => id == f.orderId && op == FillOp(f, now)
    case UpdateTry(i, status, _) => id == i && op == UpdateStatusOp(status, now)
    case RollbackTry(i) => id == i && op == RejectOp("Execution failed", now)
    case _ => false
  }

  lemma StoredIsWellFormed(s: State, id: nat)
    requires Inv(s, {}) && id in s.orders
    ensures WellFormed(s.saved, s.orders[id]) && s.orders[id].base.id == id
  {
    hide WellFormed, Unapplied;
  }

  lemma LoadMakesCopy(s: State, pid: nat, id: nat, op: OrderOp, now: int)
    requires id in s.orders && pid in s.procs && AboutToLoad(s.procs[pid], id, op, now)
    requires Change(s.orders[id], op).Some?
    ensures var t := Next(s, Load(pid, true, now));
            && pid in t.procs && Writing(t.procs[pid]) && t.procs[pid].v == Change(s.orders[id], op).value
            && t.orders == s.orders && t.saved == s.saved
  {
    hide Change, KeyOf, ValidateForSubmission, WriteStep, GatewayStep, SaveFillStep, BookStep, AnnounceStep;
  }

  /** From load to write, for fills, status updates and rollbacks: with any steps of
      other handlers in between, the write is the operation on the stored order exactly
      when the stored version is still the loaded one. That is so when nobody else
      writes the order in between. */
  lemma ReadModifyWriteIsAtomicIff(s: State, pid: nat, id: nat, op: OrderOp, now: int, between: seq<Action>)
    requires Inv(s, {}) && id in s.orders && pid in s.procs && AboutToLoad(s.procs[pid], id, op, now)
    requires Change(s.orders[id], op).Some?
    requires forall i :: 0 <= i < |between| ==> Spares(between[i], pid)
    ensures var s1 := Next(s, Load(pid, true, now));
            var u := Exec(s1, between);
            var t := Next(u, Write(pid, Done));
            && id in u.orders && id in t.orders
            && (Changed(u.orders[id], op, t.orders[id]) <==> u.orders[id] == s.orders[id])
            && (NobodyWrites(s1, between, id) ==> Changed(u.orders[id], op, t.orders[id]))
  {
    hide Change, Inv, Next, WellFormed, AboutToLoad, Writing, Exec;
    var s1 := Next(s, Load(pid, true, now));
    NextKeepsInv(s, Load(pid, true, now), {});
    StoredIsWellFormed(s, id);
    ChangedIdIsKept(s, id, op);
    LoadMakesCopy(s, pid, id, op, now);
    WriteIsAtomicIff(s1, pid, s.orders[id], op, between);
    if NobodyWrites(s1, between, id) {
      UnwrittenOrderStays(s1, between, id);
    }
  }

  /** The same for a cancellation, whose change waits for the gateway. */
  lemma CancelIsAtomicIff(s: State, pid: nat, id: nat, now: int, between: seq<Action>, further: seq<Action>)
    requires Inv(s, {}) && id in s.orders && pid in s.procs && s.procs[pid] == CancelTry(id)
    requires s.orders[id].order.status.CanCancel()
    requires forall i :: 0 <= i < |between| ==> Spares(between[i], pid)
    requires forall i :: 0 <= i < |further| ==> Spares(further[i], pid)
    ensures var asked := Exec(Next(s, Load(pid, true, now)), between);
            var u := Exec(Next(asked, GatewayReply(pid, true, now)), further);
            var t := Next(u, Write(pid, Done));
            && id in u.orders && id in t.orders
            && (Changed(u.orders[id], CancelOp("User request", now), t.orders[id]) <==> u.orders[id] == s.orders[id])
  {
    var op := CancelOp("User request", now);
    CancelReachesWrite(s, pid, id, now, between);
    var asked := Exec(Next(s, Load(pid, true, now)), between);
    assert s.orders[id].base.id == id;
    hide *;
    WriteIsAtomicIff(Next(asked, GatewayReply(pid, true, now)), pid, s.orders[id], op, further);
  }

  lemma CancelReachesWrite(s: State, pid: nat, id: nat, now: int, between: seq<Action>)
    requires Inv(s, {}) && id in s.orders && pid in s.procs && s.procs[pid] == CancelTry(id)
    requires s.orders[id].order.status.CanCancel()
    requires forall i :: 0 <= i < |between| ==> Spares(between[i], pid)
    ensures var op := CancelOp("User request", now);
            var asked := Exec(Next(s, Load(pid, true, now)), between);
            var t := Next(asked, GatewayReply(pid, true, now));
            && Inv(t, {}) && id in t.orders && pid in t.procs && Writing(t.procs[pid])
            && Changed(s.orders[id], op, t.procs[pid].v) && t.procs[pid].v.order.id == id
            && WellFormed(t.saved, s.orders[id])
  {
    hide Exec, Inv, WellFormed, Change, Next, Orders.Run;
    CancelWaits(s, pid, id, now, between);
    CancellableChanges(s, id, CancelOp("User request", now));
    var asked := Exec(Next(s, Load(pid, true, now)), between);
    NextKeepsInv(asked, GatewayReply(pid, true, now), {});
    AcceptedCancellation(asked, pid, now);
  }

  lemma AcceptedCancellation(s: State, pid: nat, now: int)
    requires pid in s.procs && s.procs[pid].CancelSent?
    ensures var op := CancelOp("User request", now);
            Change(s.procs[pid].v, op).Some? ==>
              Next(s, GatewayReply(pid, true, now)) == Goto(s, pid, CancelWriting(Change(s.procs[pid].v, op).value))
  {
    hide Change, LoadStep, WriteStep, SaveFillStep, BookStep, AnnounceStep;
  }

  lemma CancelWaits(s: State, pid: nat, id: nat, now: int, between: seq<Action>)
    requires Inv(s, {}) && id in s.orders && pid in s.procs && s.procs[pid] == CancelTry(id)
    requires s.orders[id].order.status.CanCancel()
    requires forall i :: 0 <= i < |between| ==> Spares(between[i], pid)
    ensures var asked := Exec(Next(s, Load(pid, true, now)), between);
            && Inv(asked, {}) && id in asked.orders && pid in asked.procs && asked.procs[pid] == CancelSent(s.orders[id])
            && WellFormed(asked.saved, s.orders[id])
  {
    hide Inv, Next, Exec, WellFormed;
    var s1 := Next(s, Load(pid, true, now));
    NextKeepsInv(s, Load(pid, true, now), {});
    StoredIsWellFormed(s, id);
    LoadToCancel(s, pid, id, now);
    ExecKeepsInv(s1, between, {});
    OthersKeepProcess(s1, between, pid);
    OrdersPersist(s1, between, id);
    ExecSavesMore(s1, between);
    SavedMoreIsWellFormed(s.saved, Exec(s1, between).saved, s.orders[id]);
  }

  lemma LoadToCancel(s: State, pid: nat, id: nat, now: int)
    requires id in s.orders && pid in s.procs && s.procs[pid] == CancelTry(id) && s.orders[id].order.status.CanCancel()
    ensures Next(s, Load(pid, true, now)) == Goto(s, pid, CancelSent(s.orders[id]))
  {
    hide Change, WriteStep, GatewayStep, SaveFillStep, BookStep, AnnounceStep;
  }

  lemma SavedMoreIsWellFormed(saved: set<Fill>, more: set<Fill>, v: Version)
    requires WellFormed(saved, v) && saved <= more
    ensures WellFormed(more, v)
  {
    hide Orders.Run, Accepted, Fresh;
  }

  lemma CancellableChanges(s: State, id: nat, op: OrderOp)
    requires Inv(s, {}) && id in s.orders && s.orders[id].order.status.CanCancel() && op.CancelOp?
    ensures Change(s.orders[id], op).Some? && Change(s.orders[id], op).value.order.id == id
  {
    RunAccounting(s.orders[id].base, s.orders[id].ops);
    hide Orders.Run, Accepted, Unapplied;
  }

  lemma {:induction false} ExecSavesMore(s: State, actions: seq<Action>)
    ensures s.saved <= Exec(s, actions).saved
    decreases |actions|
  {
    if actions != [] {
      ExecSavesMore(s, Front(actions));
      NextSavesMore(Exec(s, Front(actions)), Last(actions));
      hide Next;
    }
  }

  lemma NextSavesMore(s: State, a: Action)
    ensures s.saved <= Next(s, a).saved
  {
    hide Change, ValidateForSubmission, KeyOf;
  }

  lemma ChangedIdIsKept(s: State, id: nat, op: OrderOp)
    requires Inv(s, {}) && id in s.orders && Change(s.orders[id], op).Some?
    ensures Change(s.orders[id], op).value.order.id == id
  {
    var v := s.orders[id];
    RunAccounting(v.base, v.ops);
    hide Orders.Run, Accepted, Unapplied;
    StepKeepsSound(v.order, op);
  }

  /** The written order continues the stored one: more operations, none undone. */
  predicate ContinuesWith(stored: Version, written: Version, more: seq<OrderOp>) {
    stored.order.filled >= 0.0
    && written == Version(Run(stored.order, more), stored.base, stored.ops + more)
  }

  /** A write keeps everything the store held for the order exactly when the stored
      lineage is a prefix of the written one; then no fill is dropped and a terminal
      status keeps its variant. */
  lemma WriteKeepsStoredIff(s: State, pid: nat)
    requires Inv(s, {}) && pid in s.procs && Writing(s.procs[pid])
    requires s.procs[pid].v.order.id in s.orders
    ensures var v := s.procs[pid].v;
            var stored, written := s.orders[v.order.id], Next(s, Write(pid, Done)).orders[v.order.id];
            && ((exists more :: ContinuesWith(stored, written, more)) <==> stored.base == v.base && stored.ops <= v.ops)
            && (stored.base == v.base && stored.ops <= v.ops ==>
                  AppliedFills(stored) <= AppliedFills(written)
                  && (stored.order.status.IsTerminal() ==> stored.order.status.SameVariant(written.order.status)))
  {
    var v := s.procs[pid].v;
    assert WellFormed(s.saved, v) && WellFormed(s.saved, s.orders[v.order.id]);
    hide Inv, WellFormed, AppliedFills, ContinuesWith;
    StaleWriteWins(s, pid, []);
    assert Exec(s, []) == s;
    assert Next(s, Write(pid, Done)).orders[v.order.id] == v;
    hide Next, Exec;
    ContinuationIff(s.saved, s.orders[v.order.id], v);
  }

  lemma ContinuationIff(saved: set<Fill>, stored: Version, v: Version)
    requires WellFormed(saved, stored) && WellFormed(saved, v)
    ensures (exists more :: ContinuesWith(stored, v, more)) <==> stored.base == v.base && stored.ops <= v.ops
    ensures stored.base == v.base && stored.ops <= v.ops ==>
              AppliedFills(stored) <= AppliedFills(v)
              && (stored.order.status.IsTerminal() ==> stored.order.status.SameVariant(v.order.status))
  {
    RunAccounting(stored.base, stored.ops);
    hide Accepted, Orders.Run, Sum;
    if stored.base == v.base && stored.ops <= v.ops {
      var more := v.ops[|stored.ops|..];
      assert v.ops == stored.ops + more;
      RunConcat(v.base, stored.ops, more);
      RunFrom(stored.order, more);
      assert v.order == Run(stored.order, more);
      assert ContinuesWith(stored, v, more);
      assert AppliedFills(stored) <= AppliedFills(v);
    }
    if exists more :: ContinuesWith(stored, v, more) {
      var more :| ContinuesWith(stored, v, more);
      assert stored.ops <= stored.ops + more;
    }
  }

  lemma {:induction false} RunConcat(o: OrderData, a: seq<OrderOp>, b: seq<OrderOp>)
    requires o.filled >= 0.0
    ensures Run(o, a + b) == Run(Run(o, a), b)
    ensures Accepted(o, a) <= Accepted(o, a + b)
    decreases |b|
  {
    hide Perform, Orders.Step;
    if b == [] {
      assert a + b == a;
    } else {
      RunConcat(o, a, Front(b));
      assert Front(a + b) == a + Front(b) && Last(a + b) == Last(b);
    }
  }
}
