/** The trading service's calls are runs of the order store's steps: what is proved of
    the interleaved steps holds of `place_order` and `cancel_order`
    (crates/application/src/trading_service.rs). */
module ServiceSteps {
  import opened Values
  import opened Orders
  import opened OrderStore
  import opened TradingServices
  import opened RiskEngines
  import Handlers

  function OrdersOf(s: OrderStore.State): Store {
    Handlers.OrdersOf(s)
  }

  /** The awaited calls of `cancel_order`. */
  function CancelSteps(s: OrderStore.State, pid: nat, id: nat, a: CancelAnswers): OrderStore.State {
    var loaded := Next(Next(s, RequestCancel(pid, id)), Load(pid, a.loadOk, a.now));
    Next(Next(loaded, GatewayReply(pid, a.gatewayOk, a.now)), Write(pid, a.update))
  }

  /** The awaited calls of `place_order` from the allowed order on, rollback included. */
  function PlaceSteps(s: OrderStore.State, pid: nat, o: OrderData, a: PlaceAnswers): OrderStore.State {
    var saved := Next(Next(s, Place(pid, o, a.now)), Write(pid, a.save));
    var loaded := Next(Next(saved, GatewayReply(pid, a.gateway.Some?, a.now)), Load(pid, a.loaded.Some?, a.now));
    Next(loaded, Write(pid, a.update))
  }

  // ----------------------------------------------------------------- cancel

  lemma EndedHandlerRests(s: OrderStore.State, pid: nat)
    requires pid !in s.procs
    ensures forall ok, now :: Next(s, Load(pid, ok, now)) == s && Next(s, GatewayReply(pid, ok, now)) == s
    ensures forall write :: Next(s, Write(pid, write)) == s
  {
  }

  lemma CancelLoads(s: OrderStore.State, pid: nat, id: nat, a: CancelAnswers)
    requires pid !in s.procs
    ensures var t := Next(Next(s, RequestCancel(pid, id)), Load(pid, a.loadOk, a.now));
            if a.loadOk && id in s.orders && s.orders[id].order.status.CanCancel()
            then t == Goto(s, pid, CancelSent(s.orders[id])) else t == s
  {
    hide Change, WriteStep, GatewayStep, SaveFillStep, BookStep, AnnounceStep, ValidateForSubmission;
    var begun := Next(s, RequestCancel(pid, id));
    assert begun == Goto(s, pid, CancelTry(id));
    assert Finish(begun, pid).procs == s.procs;
  }

  lemma CancelReplies(s: OrderStore.State, pid: nat, v: Version, ok: bool, now: int)
    requires pid !in s.procs && v.order.filled >= 0.0 && v.order.status.CanCancel()
    ensures var t := Next(Goto(s, pid, CancelSent(v)), GatewayReply(pid, ok, now));
            var done := v.order.(status := Cancelled(now, "User request"), updatedAt := now);
            if ok then t == Goto(s, pid, CancelWriting(Version(done, v.base, v.ops + [CancelOp("User request", now)])))
            else t == s
  {
    hide LoadStep, WriteStep, SaveFillStep, BookStep, AnnounceStep, ValidateForSubmission;
    assert Finish(Goto(s, pid, CancelSent(v)), pid).procs == s.procs;
  }

  /** The last write of a handler: the store may change, and the handler ends. */
  lemma LastWrite(s: OrderStore.State, pid: nat, p: Process, write: WriteOutcome)
    requires pid !in s.procs && (p.CancelWriting? || p.RollbackWriting?)
    ensures var t := Next(Goto(s, pid, p), Write(pid, write));
            && t.procs == s.procs && t.saved == s.saved
            && OrdersOf(t) == StoredBy(OrdersOf(s), Updated(p.v.order, write))
  {
    var t := Next(Goto(s, pid, p), Write(pid, write));
    assert t == Finish(Stored(Goto(s, pid, p), p.v, write), pid);
    hide Next;
    assert t.procs == s.procs;
    hide Finish, Goto;
  }

  /** `cancel_order` without interruption does to the store what its steps do, for
      every pattern of answers. */
  lemma CancelIsItsSteps(s: OrderStore.State, pid: nat, id: nat, a: CancelAnswers)
    requires Inv(s, {}) && pid !in s.procs
    ensures var t := CancelSteps(s, pid, id, a);
            && OrdersOf(t) == StoreAfter(OrdersOf(s), CancelEffects(OrdersOf(s), id, a))
            && t.procs == s.procs && t.saved == s.saved
  {
    CancelLoads(s, pid, id, a);
    EndedHandlerRests(s, pid);
    CancelStores(OrdersOf(s), id, a);
    if a.loadOk && id in s.orders && s.orders[id].order.status.CanCancel() {
      Handlers.LoadedOrderIsSound(s, id);
      var v := s.orders[id];
      hide Next, StoreAfter, CancelEffects, Inv;
      CancelReplies(s, pid, v, a.gatewayOk, a.now);
      var done := v.order.(status := Cancelled(a.now, "User request"), updatedAt := a.now);
      LastWrite(s, pid, CancelWriting(Version(done, v.base, v.ops + [CancelOp("User request", a.now)])), a.update);
    }
    hide Next, StoreAfter, CancelEffects, Inv;
  }

  lemma CancelStores(store: Store, id: nat, a: CancelAnswers)
    ensures StoreAfter(store, CancelEffects(store, id, a)) ==
              if a.loadOk && id in store && store[id].status.CanCancel() && a.gatewayOk
              then StoredBy(store, Updated(store[id].(status := Cancelled(a.now, "User request"), updatedAt := a.now), a.update))
              else store
  {
    var e := CancelEffects(store, id, a);
    if |e| == 3 {
      assert e == [e[0], e[1], e[2]];
      StoreAfterThree(store, e[0], e[1], e[2]);
    } else if |e| == 2 {
      assert e == [e[0], e[1]];
      StoreAfterThree(store, e[0], e[1], e[1]);
    } else if |e| == 1 {
      assert e == [e[0]];
      StoreAfterThree(store, e[0], e[0], e[0]);
    }
  }

  // ------------------------------------------------------------------ place

  /** The saved order with its lineage. */
  function SavedVersion(o: OrderData, now: int): Version {
    Version(SubmittedCopy(o, now), o, [UpdateStatusOp(OrderStatus.Submitted(now), now)])
  }

  lemma PlaceSaves(s: OrderStore.State, pid: nat, o: OrderData, now: int, save: WriteOutcome)
    requires pid !in s.procs && o.filled == 0.0
    ensures var t := Next(Next(s, Place(pid, o, now)), Write(pid, save));
            var u := Stored(s, SavedVersion(o, now), save);
            t == if ValidateForSubmission(o).Err? then s
                 else if save.Done? then Goto(u, pid, PlaceSent(o.id))
                 else u
  {
    EndedHandlerRests(s, pid);
    var v := SavedVersion(o, now);
    if ValidateForSubmission(o).Ok? {
      PlaceBegins(s, pid, o, now);
      hide Next, ValidateForSubmission;
      SaveEnds(s, pid, v, save);
    } else {
      assert Next(s, Place(pid, o, now)) == s;
      hide Next, ValidateForSubmission;
    }
  }

  lemma PlaceBegins(s: OrderStore.State, pid: nat, o: OrderData, now: int)
    requires pid !in s.procs && o.filled == 0.0 && ValidateForSubmission(o).Ok?
    ensures Next(s, Place(pid, o, now)) == Goto(s, pid, PlaceSaving(SavedVersion(o, now)))
  {
    var op := UpdateStatusOp(OrderStatus.Submitted(now), now);
    assert [] + [op] == [op];
    assert Change(Version(o, o, []), op) == Some(SavedVersion(o, now));
    hide Change;
  }

  lemma SaveEnds(s: OrderStore.State, pid: nat, v: Version, save: WriteOutcome)
    requires pid !in s.procs
    ensures Next(Goto(s, pid, PlaceSaving(v)), Write(pid, save))
              == if save.Done? then Goto(Stored(s, v, save), pid, PlaceSent(v.order.id)) else Stored(s, v, save)
  {
    hide Change, LoadStep, GatewayStep, SaveFillStep, BookStep, AnnounceStep, ValidateForSubmission;
    assert Finish(Goto(s, pid, PlaceSaving(v)), pid).procs == s.procs;
  }

  lemma SentReplies(s: OrderStore.State, pid: nat, id: nat, ok: bool, now: int)
    requires pid !in s.procs
    ensures Next(Goto(s, pid, PlaceSent(id)), GatewayReply(pid, ok, now)) == if ok then s else Goto(s, pid, RollbackTry(id))
  {
    hide Change, LoadStep, WriteStep, SaveFillStep, BookStep, AnnounceStep, ValidateForSubmission;
    assert Finish(Goto(s, pid, PlaceSent(id)), pid).procs == s.procs;
  }

  lemma RollbackLoads(s: OrderStore.State, pid: nat, id: nat, ok: bool, now: int)
    requires pid !in s.procs && id in s.orders && s.orders[id].order.status.Submitted? && s.orders[id].order.filled == 0.0
    ensures var t := Next(Goto(s, pid, RollbackTry(id)), Load(pid, ok, now));
            var v := s.orders[id];
            var rejected := v.order.(status := Rejected(now, "Execution failed"), updatedAt := now);
            t == if ok then Goto(s, pid, RollbackWriting(Version(rejected, v.base, v.ops + [RejectOp("Execution failed", now)])))
                 else s
  {
    hide WriteStep, GatewayStep, SaveFillStep, BookStep, AnnounceStep, ValidateForSubmission;
    assert Finish(Goto(s, pid, RollbackTry(id)), pid).procs == s.procs;
  }

  /** So does `place_order`, once the order is allowed: the rollback loads whatever is
      stored by then. */
  lemma PlaceIsItsSteps(s: OrderStore.State, pid: nat, o: OrderData, a: PlaceAnswers)
    requires pid !in s.procs && o.filled == 0.0 && a.positions.Some?
    requires a.loaded.Some? ==> a.loaded.value == Lookup(OrdersOf(s)[o.id := SubmittedCopy(o, a.now)], o.id)
    ensures var t := PlaceSteps(s, pid, o, a);
            && OrdersOf(t) == StoreAfter(OrdersOf(s), PlaceEffects(o, Ok(Allow), a))
            && t.procs == s.procs && t.saved == s.saved
  {
    var u := Stored(s, SavedVersion(o, a.now), a.save);
    var effects := PlaceEffects(o, Ok(Allow), a);
    assert u.procs == s.procs && u.saved == s.saved;
    assert OrdersOf(u) == StoredBy(OrdersOf(s), Saved(SubmittedCopy(o, a.now), a.save));
    PlaceSaves(s, pid, o, a.now, a.save);
    EndedHandlerRests(s, pid);
    EndedHandlerRests(u, pid);
    SentReplies(u, pid, o.id, a.gateway.Some?, a.now);
    if ValidateForSubmission(o).Ok? {
      if a.save.Failed? || a.gateway.Some? {
        UnrolledEffects(OrdersOf(s), o, a);
      } else {
        RolledBackEffects(OrdersOf(s), o, a);
        RollbackLoads(u, pid, o.id, a.loaded.Some?, a.now);
        if a.loaded.Some? {
          var v := SavedVersion(o, a.now);
          var rejected := v.order.(status := Rejected(a.now, "Execution failed"), updatedAt := a.now);
          hide Next;
          LastWrite(u, pid, RollbackWriting(Version(rejected, v.base, v.ops + [RejectOp("Execution failed", a.now)])), a.update);
        }
      }
    }
    hide Next, StoreAfter, PlaceEffects;
  }

  lemma UnrolledEffects(store: Store, o: OrderData, a: PlaceAnswers)
    requires ValidateForSubmission(o).Ok? && a.positions.Some? && (a.save.Failed? || a.gateway.Some?)
    ensures StoreAfter(store, PlaceEffects(o, Ok(Allow), a)) == StoredBy(store, Saved(SubmittedCopy(o, a.now), a.save))
  {
    var decided := [Decided(o, Allow)];
    StoreAfterConcat(store, decided, SubmitEffects(o, a));
    var e := SubmitEffects(o, a);
    StoreAfterThree(store, decided[0], decided[0], decided[0]);
    StoreAfterThree(store, e[0], e[|e| - 1], e[|e| - 1]);
    if |e| == 3 {
      StoreAfterThree(store, e[0], e[1], e[2]);
      assert e == [e[0], e[1], e[2]];
    } else {
      assert e == [e[0]];
    }
    hide StoreAfter;
  }

  lemma RolledBackEffects(store: Store, o: OrderData, a: PlaceAnswers)
    requires ValidateForSubmission(o).Ok? && a.positions.Some? && a.save.Done? && a.gateway.None?
    requires a.loaded.Some? ==> a.loaded.value == Some(SubmittedCopy(o, a.now))
    ensures var saved := StoredBy(store, Saved(SubmittedCopy(o, a.now), a.save));
            var rejected := o.(status := Rejected(a.now, "Execution failed"), updatedAt := a.now);
            StoreAfter(store, PlaceEffects(o, Ok(Allow), a))
              == if a.loaded.Some? then StoredBy(saved, Updated(rejected, a.update)) else saved
  {
    var s := SubmittedCopy(o, a.now);
    var first := [Decided(o, Allow), Saved(s, a.save), SentToGateway(s, false)];
    assert PlaceEffects(o, Ok(Allow), a) == first + RollbackEffects(a);
    StoreAfterConcat(store, first, RollbackEffects(a));
    StoreAfterThree(store, first[0], first[1], first[2]);
    if a.loaded.Some? {
      var e := RollbackEffects(a)[0];
      assert RollbackEffects(a) == [e];
      StoreAfterThree(StoreAfter(store, first), e, e, e);
    }
  }
}
