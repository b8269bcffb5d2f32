/** Order placement and cancellation (crates/application/src/trading_service.rs).

    The answers of the repositories and the gateway are inputs, and every call to
    them is recorded in order, so that a run is a sequence of effects. */
module TradingServices {
  import opened Values
  import opened Orders
  import opened Positions
  import opened RiskEngines

  datatype TradingError = Validation | RiskRejected | Execution | RepositoryFailed | OrderNotFound | InvalidState | CancellationFailed

  datatype TradingEvent =
    | OrderSubmitted(gatewayId: nat, order: OrderData)
    | OrderRejected(id: nat)
    | OrderCancelled(id: nat)

  datatype Effect =
    | Decided(order: OrderData, decision: RiskDecision)
    | Saved(order: OrderData, write: WriteOutcome)
    | Updated(order: OrderData, write: WriteOutcome)
    | SentToGateway(order: OrderData, accepted: bool)
    | CancelledAtGateway(id: nat, accepted: bool)
    | Published(event: TradingEvent)

  /** What the outside answers during one `place_order`. */
  datatype PlaceAnswers = PlaceAnswers(
    positions: Option<seq<PositionData>>,    // None: the repository failed
    save: WriteOutcome,
    gateway: Option<nat>,                    // None: the gateway refused; else its order id
    loaded: Option<Option<OrderData>>,       // the rollback's load; None: it failed
    update: WriteOutcome,
    now: int)

  // ------------------------------------------------------------ specification

  /** `rollback_order_submission` */
  function RollbackEffects(a: PlaceAnswers): seq<Effect> {
    if a.loaded.None? || a.loaded.value.None? then []
    else match RejectWith(a.loaded.value.value, "Execution failed", a.now)
      case Ok(rejected) => [Updated(rejected, a.update)]
      case Err(_) => []
  }

  function SubmittedCopy(o: OrderData, now: int): OrderData {
    o.(status := OrderStatus.Submitted(now), updatedAt := now)
  }

  /** From the save on: an allowed order is saved as Submitted, then sent. */
  function SubmitEffects(o: OrderData, a: PlaceAnswers): seq<Effect> {
    var s := SubmittedCopy(o, a.now);
    if a.save.Failed? then [Saved(s, a.save)]
    else if a.gateway.None? then [Saved(s, a.save), SentToGateway(s, false)] + RollbackEffects(a)
    else [Saved(s, a.save), SentToGateway(s, true), Published(OrderSubmitted(a.gateway.value, s))]
  }

  /** One `place_order`; `gate` is the risk engine's answer if it is asked. */
  function PlaceEffects(o: OrderData, gate: Result<RiskDecision, RiskError>, a: PlaceAnswers): seq<Effect> {
    if ValidateForSubmission(o).Err? || a.positions.None? || gate.Err? then []
    else if gate.value != Allow then [Decided(o, gate.value), Published(OrderRejected(o.id))]
    else [Decided(o, Allow)] + SubmitEffects(o, a)
  }

  function PlaceResult(o: OrderData, gate: Result<RiskDecision, RiskError>, a: PlaceAnswers): Result<nat, TradingError> {
    if ValidateForSubmission(o).Err? then Err(Validation)
    else if a.positions.None? then Err(RepositoryFailed)
    else if gate.Err? then Err(Validation)
    else if gate.value != Allow then Err(RiskRejected)
    else if a.save.Failed? then Err(RepositoryFailed)
    else if a.gateway.None? then Err(Execution)
    else Ok(a.gateway.value)
  }

  type Store = map<nat, OrderData>

  function StoredBy(store: Store, e: Effect): Store {
    if (e.Saved? || e.Updated?) && e.write.TakesEffect()
    then store[e.order.id := e.order]
    else store
  }

  function StoreAfter(store: Store, effects: seq<Effect>): Store {
    if effects == [] then store else StoredBy(StoreAfter(store, Front(effects)), Last(effects))
  }

  function Lookup(store: Store, id: nat): Option<OrderData> {
    if id in store then Some(store[id]) else None
  }

  // ------------------------------------------------------------ main results

  predicate IsSubmission(e: Effect) {
    e.Published? && e.event.OrderSubmitted?
  }

  lemma CountFour(x: Effect, y: Effect, z: Effect, w: Effect)
    ensures CountWhere(IsSubmission, []) == 0
    ensures CountWhere(IsSubmission, [x, y]) == CountOne(x) + CountOne(y)
    ensures CountWhere(IsSubmission, [x, y, z]) == CountOne(x) + CountOne(y) + CountOne(z)
    ensures CountWhere(IsSubmission, [x, y, z, w]) == CountOne(x) + CountOne(y) + CountOne(z) + CountOne(w)
  {
    assert Front([x]) == [] && Front([x, y]) == [x] && Front([x, y, z]) == [x, y] && Front([x, y, z, w]) == [x, y, z];
    assert CountWhere(IsSubmission, [x]) == CountOne(x);
    assert CountWhere(IsSubmission, [x, y]) == CountOne(x) + CountOne(y);
  }

  function CountOne(e: Effect): nat {
    if IsSubmission(e) then 1 else 0
  }

  /** The order is valid, the positions could be read, and this is the gate's answer. */
  predicate Answered(o: OrderData, gate: Result<RiskDecision, RiskError>, a: PlaceAnswers) {
    ValidateForSubmission(o).Ok? && a.positions.Some? && gate.Ok?
  }

  /** An order is saved, sent, or answered Ok only if the gate's answer for it was Allow,
      and then it is saved; any other answer, a reduction like a rejection, ends in
      exactly one OrderRejected for it; and the log tells the gate's answer. */
  lemma SubmittedIffAllowed(o: OrderData, gate: Result<RiskDecision, RiskError>, a: PlaceAnswers)
    ensures var (effects, r, s) := (PlaceEffects(o, gate, a), PlaceResult(o, gate, a), SubmittedCopy(o, a.now));
            var allowed := Answered(o, gate, a) && gate == Ok(Allow);
            && (forall e :: e in effects && (e.Saved? || e.SentToGateway? || e.Updated?) ==> allowed)
            && (allowed <==> Saved(s, a.save) in effects)
            && (allowed && a.save.Done? <==> SentToGateway(s, a.gateway.Some?) in effects)
            && (forall id: nat :: r == Ok(id) <==> allowed && a.save.Done? && a.gateway == Some(id))
            && (forall id: nat :: Published(OrderSubmitted(id, s)) in effects <==> r == Ok(id))
            && (forall d :: Decided(o, d) in effects <==> Answered(o, gate, a) && gate == Ok(d))
            && (forall id: nat :: Published(OrderRejected(id)) in effects <==>
                  id == o.id && Answered(o, gate, a) && gate != Ok(Allow))
            && (Answered(o, gate, a) && gate != Ok(Allow) ==> effects == [Decided(o, gate.value), Published(OrderRejected(o.id))])
            && (!Answered(o, gate, a) ==> effects == [])
  {
    var effects := PlaceEffects(o, gate, a);
    hide ValidateForSubmission, RejectWith;
    if Answered(o, gate, a) {
      assert effects[0] == Decided(o, gate.value);
      if gate == Ok(Allow) {
        assert effects[1] == Saved(SubmittedCopy(o, a.now), a.save);
        if a.save.Done? {
          assert effects[2] == SentToGateway(SubmittedCopy(o, a.now), a.gateway.Some?);
          if a.gateway.Some? {
            assert effects[3] == Published(OrderSubmitted(a.gateway.value, SubmittedCopy(o, a.now)));
          }
        }
      } else {
        assert effects[1] == Published(OrderRejected(o.id));
      }
    }
  }

  /** Which failure `place_order` reports: the first call that failed. */
  lemma PlaceFailsWith(o: OrderData, gate: Result<RiskDecision, RiskError>, a: PlaceAnswers)
    ensures var r := PlaceResult(o, gate, a);
            && (r == Err(Validation) <==> ValidateForSubmission(o).Err? || (a.positions.Some? && gate.Err?))
            && (r == Err(RiskRejected) <==> Answered(o, gate, a) && gate != Ok(Allow))
            && (r == Err(RepositoryFailed) <==>
                  ValidateForSubmission(o).Ok? && (a.positions.None? || (gate == Ok(Allow) && a.save != Done)))
            && (r == Err(Execution) <==> Answered(o, gate, a) && gate == Ok(Allow) && a.save == Done && a.gateway == None)
            && (r.Ok? || r.error in {Validation, RiskRejected, RepositoryFailed, Execution})
  {
    hide ValidateForSubmission;
  }

  /** `place_order` returns Ok exactly when the gateway accepted the order, and then,
      and only then, publishes OrderSubmitted, once. */
  lemma OkIffAccepted(o: OrderData, gate: Result<RiskDecision, RiskError>, a: PlaceAnswers)
    ensures var effects := PlaceEffects(o, gate, a);
            && (PlaceResult(o, gate, a).Ok? <==> SentToGateway(SubmittedCopy(o, a.now), true) in effects)
            && CountWhere(IsSubmission, effects) == if PlaceResult(o, gate, a).Ok? then 1 else 0
  {
    hide CountWhere;
    var effects, n := PlaceEffects(o, gate, a), |PlaceEffects(o, gate, a)|;
    var s := SubmittedCopy(o, a.now);
    if n == 0 {
      CountFour(Saved(s, a.save), Saved(s, a.save), Saved(s, a.save), Saved(s, a.save));
    } else {
      CountFour(effects[0], effects[1], effects[if n > 2 then 2 else 0], effects[n - 1]);
      if n == 2 {
        assert effects == [effects[0], effects[1]];
      } else if n == 3 {
        assert effects == [effects[0], effects[1], effects[2]];
      } else {
        assert effects == [effects[0], effects[1], effects[2], effects[3]];
      }
      if PlaceResult(o, gate, a).Ok? {
        assert effects[2] == SentToGateway(s, true);
      }
    }
  }

  /** Without concurrent writers, after the gateway refused a saved order, the stored
      order is Rejected; it is still Submitted exactly when the rollback's load failed,
      or its update failed without effect. */
  lemma RollbackOutcome(store: Store, o: OrderData, a: PlaceAnswers)
    requires ValidateForSubmission(o).Ok? && a.positions.Some? && a.save.Done? && a.gateway.None?
    requires a.loaded.Some? ==> a.loaded.value == Lookup(store[o.id := SubmittedCopy(o, a.now)], o.id)
    ensures var t := StoreAfter(store, PlaceEffects(o, Ok(Allow), a));
            var rolledBack := a.loaded.Some? && a.update.TakesEffect();
            && o.id in t
            && (rolledBack ==> t[o.id].status.Rejected?)
            && (!rolledBack ==> t[o.id] == SubmittedCopy(o, a.now) && t[o.id].status.Submitted?)
            && t[o.id].filled == o.filled
            && (forall id :: id != o.id ==> Lookup(t, id) == Lookup(store, id))
  {
    var s := SubmittedCopy(o, a.now);
    var first := [Decided(o, Allow), Saved(s, a.save), SentToGateway(s, false)];
    StoreAfterConcat(store, first, RollbackEffects(a));
    assert PlaceEffects(o, Ok(Allow), a) == first + RollbackEffects(a);
    hide StoreAfter;
    StoreAfterThree(store, first[0], first[1], first[2]);
  }

  lemma StoreAfterThree(store: Store, x: Effect, y: Effect, z: Effect)
    ensures StoreAfter(store, [x]) == StoredBy(store, x)
    ensures StoreAfter(store, [x, y]) == StoredBy(StoredBy(store, x), y)
    ensures StoreAfter(store, [x, y, z]) == StoredBy(StoredBy(StoredBy(store, x), y), z)
  {
    hide StoredBy;
    assert Front([x]) == [] && Front([x, y]) == [x] && Front([x, y, z]) == [x, y];
    assert StoreAfter(store, []) == store;
  }

  lemma {:induction false} StoreAfterConcat(store: Store, x: seq<Effect>, y: seq<Effect>)
    ensures StoreAfter(store, x + y) == StoreAfter(StoreAfter(store, x), y)
    decreases |y|
  {
    if y == [] {
      assert x + y == x;
    } else {
      StoreAfterConcat(store, x, Front(y));
      assert Front(x + y) == x + Front(y) && Last(x + y) == Last(y);
    }
  }

  /** An order reaches the gateway only after it was Created, allowed by the risk
      engine, and saved as Submitted. */
  ghost predicate WriteAhead(log: seq<Effect>) {
    forall i :: 0 <= i < |log| && log[i].SentToGateway? ==> Prepared(log[..i], log[i].order)
  }

  ghost predicate Prepared(before: seq<Effect>, sent: OrderData) {
    && sent.status.Submitted?
    && Saved(sent, Done) in before
    && exists o :: Decided(o, Allow) in before && o.status.Created? && sent == SubmittedCopy(o, sent.updatedAt)
  }

  lemma PlaceIsWriteAhead(o: OrderData, gate: Result<RiskDecision, RiskError>, a: PlaceAnswers)
    ensures WriteAhead(PlaceEffects(o, gate, a))
  {
    var effects := PlaceEffects(o, gate, a);
    forall i | 0 <= i < |effects| && effects[i].SentToGateway? ensures Prepared(effects[..i], effects[i].order) {
      assert i == 2 && effects[..2][0] == Decided(o, Allow) && effects[..2][1] == Saved(effects[2].order, Done);
      assert effects[..2][0] in effects[..2];
    }
  }

  /** Many `place_order` calls at once: `schedule` says which call acts next. */
  function Emitted(calls: seq<seq<Effect>>, schedule: seq<nat>, call: nat): nat {
    if schedule == [] then 0
    else
      var before := Emitted(calls, Front(schedule), call);
      if Last(schedule) == call < |calls| && before < |calls[call]| then before + 1 else before
  }

  function Merged(calls: seq<seq<Effect>>, schedule: seq<nat>): seq<Effect> {
    if schedule == [] then []
    else
      var log, c := Merged(calls, Front(schedule)), Last(schedule);
      var n := Emitted(calls, Front(schedule), c);
      if c < |calls| && n < |calls[c]| then log + [calls[c][n]] else log
  }

  function Turns(schedule: seq<nat>, call: nat): nat {
    if schedule == [] then 0 else Turns(Front(schedule), call) + if Last(schedule) == call then 1 else 0
  }

  /** A call has acted as often as it had its turn, or has ended. */
  lemma {:induction false} ActsAtEachTurn(calls: seq<seq<Effect>>, schedule: seq<nat>, call: nat)
    requires call < |calls|
    ensures Emitted(calls, schedule, call)
              == if Turns(schedule, call) <= |calls[call]| then Turns(schedule, call) else |calls[call]|
    decreases |schedule|
  {
    if schedule != [] {
      ActsAtEachTurn(calls, Front(schedule), call);
    }
  }

  lemma {:induction false} OwnEffectsAreLogged(calls: seq<seq<Effect>>, schedule: seq<nat>, call: nat)
    requires call < |calls|
    ensures Emitted(calls, schedule, call) <= |calls[call]|
    ensures forall e :: e in calls[call][..Emitted(calls, schedule, call)] ==> e in Merged(calls, schedule)
    decreases |schedule|
  {
    if schedule != [] {
      OwnEffectsAreLogged(calls, Front(schedule), call);
      var n := Emitted(calls, Front(schedule), call);
      if Last(schedule) == call && n < |calls[call]| {
        assert calls[call][..n + 1] == calls[call][..n] + [calls[call][n]];
      }
    }
  }

  /** Over every interleaving of any number of placements, whatever fails, the write
      precedes the send. */
  lemma {:induction false} InterleavedWriteAhead(calls: seq<seq<Effect>>, schedule: seq<nat>)
    requires forall c :: 0 <= c < |calls| ==> WriteAhead(calls[c])
    ensures WriteAhead(Merged(calls, schedule))
    decreases |schedule|
  {
    if schedule != [] {
      InterleavedWriteAhead(calls, Front(schedule));
      var log, c := Merged(calls, Front(schedule)), Last(schedule);
      var n := Emitted(calls, Front(schedule), c);
      if c < |calls| && n < |calls[c]| {
        OwnEffectsAreLogged(calls, Front(schedule), c);
        var e, all := calls[c][n], log + [calls[c][n]];
        forall i | 0 <= i < |all| && all[i].SentToGateway? ensures Prepared(all[..i], all[i].order) {
          if i < |log| {
            assert all[..i] == log[..i];
          } else {
            assert all[..i] == log && Prepared(calls[c][..n], e.order);
          }
        }
      }
    }
  }

  // ------------------------------------------------------------- cancellation

  datatype CancelAnswers = CancelAnswers(loadOk: bool, gatewayOk: bool, update: WriteOutcome, now: int)

  function CancelEffects(store: Store, id: nat, a: CancelAnswers): seq<Effect> {
    if !a.loadOk || id !in store || !store[id].status.CanCancel() then []
    else if !a.gatewayOk then [CancelledAtGateway(id, false)]
    else
      var done := store[id].(status := Cancelled(a.now, "User request"), updatedAt := a.now);
      [CancelledAtGateway(id, true), Updated(done, a.update)]
      + if a.update.Failed? then [] else [Published(OrderCancelled(id))]
  }

  /** The gateway is asked to cancel exactly the stored orders that are active; Ok means
      the stored order is Cancelled and the event is out; and the store disagrees with
      a gateway that has cancelled exactly when the update failed without effect. */
  lemma CancelOutcome(store: Store, id: nat, a: CancelAnswers)
    requires id in store ==> store[id].id == id
    ensures var effects := CancelEffects(store, id, a);
            var t := StoreAfter(store, effects);
            var asked := a.loadOk && id in store && store[id].status.IsActive();
            && (asked <==> CancelledAtGateway(id, a.gatewayOk) in effects)
            && (asked && a.gatewayOk && a.update.Done? <==> Published(OrderCancelled(id)) in effects)
            && (asked && a.gatewayOk ==>
                  && id in t
                  && (t[id].status.IsActive() <==> a.update == Failed(false))
                  && (!t[id].status.IsActive() ==> t[id].status.Cancelled? && t[id].filled == store[id].filled))
            && (!(asked && a.gatewayOk) ==> t == store)
  {
    var effects := CancelEffects(store, id, a);
    if effects != [] {
      assert effects[0] in effects;
      StoreAfterThree(store, effects[0], effects[if |effects| > 1 then 1 else 0], effects[|effects| - 1]);
      if |effects| == 3 {
        assert effects[2] in effects;
        assert effects == [effects[0], effects[1], effects[2]];
      } else if |effects| == 2 {
        assert effects == [effects[0], effects[1]];
      } else {
        assert effects == [effects[0]];
      }
      hide StoreAfter;
    }
  }

  // -------------------------------------------------------------- the service

  class TradingService {
    const risk: RiskEngine
    var store: Store          // the order repository
    var log: seq<Effect>

    constructor (risk: RiskEngine)
      ensures this.risk == risk && store == map[] && log == []
    {
      this.risk := risk;
      store, log := map[], [];
    }

    /** `done` are the effects since the store and the log were as given. */
    method Perform(e: Effect, ghost base: Store, ghost start: seq<Effect>, ghost done: seq<Effect>)
      returns (ghost all: seq<Effect>)
      requires store == StoreAfter(base, done) && log == start + done
      modifies this
      ensures all == done + [e]
      ensures store == StoreAfter(base, all) && log == start + all
    {
      all := done + [e];
      FrontLast(done, e);
      log := log + [e];
      store := StoredBy(store, e);
    }

    method RollbackOrderSubmission(id: nat, a: PlaceAnswers, ghost seen: PlaceAnswers, ghost base: Store, ghost start: seq<Effect>, ghost done: seq<Effect>)
      returns (ghost all: seq<Effect>)
      requires store == StoreAfter(base, done) && log == start + done
      requires seen == a.(loaded := if a.loaded.Some? then Some(Lookup(store, id)) else None)
      modifies this
      ensures all == done + RollbackEffects(seen)
      ensures store == StoreAfter(base, all) && log == start + all
    {
      all := done;
      if a.loaded.Some? && id in store {
        var rejected := RejectWith(store[id], "Execution failed", a.now);
        if rejected.Ok? {
          all := Perform(Updated(rejected.value, a.update), base, start, done);
        }
      }
    }

    method Submit(o: OrderData, a: PlaceAnswers, ghost seen: PlaceAnswers, ghost base: Store, ghost start: seq<Effect>)
      returns (r: Result<nat, TradingError>, ghost done: seq<Effect>)
      requires store == base && log == start
      requires seen == a.(loaded := if a.loaded.Some? then Some(Lookup(base[o.id := SubmittedCopy(o, a.now)], o.id)) else None)
      modifies this
      ensures done == SubmitEffects(o, seen)
      ensures store == StoreAfter(base, done) && log == start + done
      ensures r == if a.save.Failed? then Err(RepositoryFailed)
                   else if a.gateway.None? then Err(Execution) else Ok(a.gateway.value)
    {
      done := [];
      assert store == StoreAfter(base, done);
      hide StoreAfter;
      var submitted := SubmittedCopy(o, a.now);
      done := Perform(Saved(submitted, a.save), base, start, done);
      if a.save.Failed? {
        return Err(RepositoryFailed), done;
      }
      done := Perform(SentToGateway(submitted, a.gateway.Some?), base, start, done);
      if a.gateway.None? {
        assert done == [Saved(submitted, a.save), SentToGateway(submitted, false)];
        StoreAfterThree(base, done[0], done[1], done[1]);
        done := RollbackOrderSubmission(o.id, a, seen, base, start, done);
        return Err(Execution), done;
      }
      done := Perform(Published(OrderSubmitted(a.gateway.value, submitted)), base, start, done);
      r := Ok(a.gateway.value);
    }

    /** `a.loaded` says only whether the rollback's load succeeds; what it finds, in
        `seen`, is the order just stored. */
    method PlaceOrder(o: OrderData, a: PlaceAnswers) returns (r: Result<nat, TradingError>, ghost seen: PlaceAnswers)
      modifies this, risk
      ensures seen == a.(loaded := if a.loaded.Some? then Some(Lookup(old(store)[o.id := SubmittedCopy(o, a.now)], o.id)) else None)
      ensures var price := if o.limitPrice.Some? then o.limitPrice.value else 1.0;
              var gate := if a.positions.Some? then Gate(risk.config, old(risk.state), o, a.positions.value, price)
                          else Err(InvalidMoney);
              && r == PlaceResult(o, gate, seen)
              && log == old(log) + PlaceEffects(o, gate, seen)
              && store == StoreAfter(old(store), PlaceEffects(o, gate, seen))
              && risk.state == if ValidateForSubmission(o).Ok? && gate.Ok? then Recorded(old(risk.state), a.now, gate.value)
                               else old(risk.state)
    {
      hide Gate, Recorded, SubmitEffects, ValidateForSubmission;
      seen := a.(loaded := if a.loaded.Some? then Some(Lookup(store[o.id := SubmittedCopy(o, a.now)], o.id)) else None);
      if ValidateForSubmission(o).Err? {
        return Err(Validation), seen;
      }
      if a.positions.None? {
        return Err(RepositoryFailed), seen;
      }
      var price: Price := if o.limitPrice.Some? then o.limitPrice.value else 1.0;
      var decision := risk.CheckPreTrade(o, a.positions.value, price, a.now);
      if decision.Err? {
        return Err(Validation), seen;
      }
      ghost var base, start := store, log;
      StoreAfterThree(base, Decided(o, decision.value), Published(OrderRejected(o.id)), Decided(o, Allow));
      ghost var done := Perform(Decided(o, decision.value), base, start, []);
      if decision.value != Allow {
        done := Perform(Published(OrderRejected(o.id)), base, start, done);
        assert done == [Decided(o, decision.value), Published(OrderRejected(o.id))];
        return Err(RiskRejected), seen;
      }
      assert done == [Decided(o, Allow)];
      r, done := Submit(o, a, seen, store, log);
      StoreAfterConcat(base, [Decided(o, Allow)], done);
      hide StoreAfter;
      assert log == start + ([Decided(o, Allow)] + done);
    }

    method CancelOrder(id: nat, a: CancelAnswers) returns (r: Result<Unit, TradingError>)
      modifies this
      ensures log == old(log) + CancelEffects(old(store), id, a)
      ensures store == StoreAfter(old(store), CancelEffects(old(store), id, a))
      ensures r.Ok? <==> Published(OrderCancelled(id)) in CancelEffects(old(store), id, a)
    {
      ghost var base, start, done := store, log, [];
      assert store == StoreAfter(base, done);
      if !a.loadOk {
        return Err(RepositoryFailed);
      }
      if id !in store {
        return Err(OrderNotFound);
      }
      var order := store[id];
      if !order.status.CanCancel() {
        return Err(InvalidState);
      }
      hide StoreAfter;
      done := Perform(CancelledAtGateway(id, a.gatewayOk), base, start, done);
      if !a.gatewayOk {
        return Err(CancellationFailed);
      }
      var cancelled := CancelWith(order, "User request", a.now);
      done := Perform(Updated(cancelled.value, a.update), base, start, done);
      assert done == [CancelledAtGateway(id, true), Updated(cancelled.value, a.update)];
      if a.update.Failed? {
        assert CancelEffects(base, id, a) == done;
        return Err(RepositoryFailed);
      }
      done := Perform(Published(OrderCancelled(id)), base, start, done);
      assert CancelEffects(base, id, a) == done;
      assert Published(OrderCancelled(id)) == done[2];
      r := Ok(Unit.Unit);
    }
  }
}
