/** The lifecycle handlers as the code runs them (crates/application/src/order_lifecycle.rs):
    each loads an order, changes it in place and writes it back. Run without
    interruption, a handler does exactly what its steps in module OrderStore do, for
    every pattern of answers; so what is proved of the steps holds of the handlers. */
module Handlers {
  import opened Values
  import opened Fills
  import opened Orders
  import opened OrderStore
  import opened Lifecycle

  /** The stored orders, without their lineage. */
  function OrdersOf(s: State): map<nat, OrderData> {
    map id | id in s.orders :: s.orders[id].order
  }

  lemma LoadedOrderIsSound(s: State, id: nat)
    requires Inv(s, {}) && id in s.orders
    ensures Sound(s.orders[id].order) && s.orders[id].order.id == id
  {
    RunAccounting(s.orders[id].base, s.orders[id].ops);
  }

  /** The three awaited calls of `handle_fill` up to the stored order. */
  function FillSteps(s: State, pid: nat, save: WriteOutcome, loadOk: bool, write: WriteOutcome, now: int): State {
    Next(Next(Next(s, SaveFill(pid, save)), Load(pid, loadOk, now)), Write(pid, write))
  }

  /** The two awaited calls of `handle_order_update`. */
  function UpdateSteps(s: State, pid: nat, loadOk: bool, write: WriteOutcome, now: int): State {
    Next(Next(s, Load(pid, loadOk, now)), Write(pid, write))
  }

  /** How the retry loop reads a fill handler's result: another try, the position
      update, or the end. */
  predicate FillContinues(r: Attempt, fill: Fill, retries: nat, t: State, pid: nat) {
    if ShouldRetry(r) && retries < t.maxRetries then pid in t.procs && t.procs[pid] == FillTry(fill, retries + 1)
    else if r.Ok? then pid in t.procs && t.procs[pid] == FillBooking(fill, retries)
    else pid !in t.procs
  }

  predicate UpdateContinues(r: Attempt, id: nat, status: OrderStatus, retries: nat, t: State, pid: nat) {
    if ShouldRetry(r) && retries < t.maxRetries then pid in t.procs && t.procs[pid] == UpdateTry(id, status, retries + 1)
    else pid !in t.procs
  }

  class OrderHandlers {
    var orders: map<nat, OrderData>   // the order repository
    var saved: set<Fill>              // the fill repository

    constructor ()
      ensures orders == map[] && saved == {}
    {
      orders, saved := map[], {};
    }

    ghost predicate Mirrors(s: State)
      reads this
    {
      saved == s.saved && orders == OrdersOf(s)
    }

    method UpdateOrder(order: Order, write: WriteOutcome) returns (r: Attempt)
      modifies this`orders
      ensures orders == if write.TakesEffect() then old(orders)[order.Data().id := order.Data()] else old(orders)
      ensures r == if write.Done? then Ok(Unit.Unit) else Err(Repository)
    {
      if write.TakesEffect() {
        orders := orders[order.Data().id := order.Data()];
      }
      r := if write.Done? then Ok(Unit.Unit) else Err(Repository);
    }

    method SaveOnce(fill: Fill, save: WriteOutcome, ghost s: State, ghost pid: nat) returns (r: Attempt)
      requires Mirrors(s) && pid in s.procs && s.procs[pid].FillTry? && s.procs[pid].fill == fill
      modifies this`saved
      ensures var t := Next(s, SaveFill(pid, save));
              Mirrors(t) && t.maxRetries == s.maxRetries
              && (r.Ok? ==> pid in t.procs && t.procs[pid] == FillSaved(fill, s.procs[pid].retries))
              && (r.Err? ==> FillContinues(r, fill, s.procs[pid].retries, t, pid))
    {
      match save
      case Failed(persisted) =>
        if persisted {
          saved := saved + {fill};
        }
        return Err(Repository);
      case Done =>
        if fill in saved {
          return Err(DuplicateFill);
        }
        saved := saved + {fill};
        return Ok(Unit.Unit);
    }

    method ApplySaved(fill: Fill, loadOk: bool, write: WriteOutcome, now: int, ghost s: State, ghost pid: nat) returns (r: Attempt)
      requires Inv(s, {}) && Mirrors(s)
      requires pid in s.procs && s.procs[pid].FillSaved? && s.procs[pid].fill == fill
      modifies this`orders
      ensures var t := Next(Next(s, Load(pid, loadOk, now)), Write(pid, write));
              Mirrors(t) && t.maxRetries == s.maxRetries && FillContinues(r, fill, s.procs[pid].retries, t, pid)
    {
      hide ApplyFill, Inv;
      if !loadOk {
        return Err(Repository);
      }
      if fill.orderId !in orders {
        return Err(OrderUpdateFailed);
      }
      LoadedOrderIsSound(s, fill.orderId);
      var order := new Order(orders[fill.orderId]);
      var filled := order.Fill(fill, now);
      if filled.Err? {
        return Err(FillFailed);
      }
      ghost var v := s.orders[fill.orderId];
      ghost var v' := Version(order.Data(), v.base, v.ops + [FillOp(fill, now)]);
      assert Change(v, FillOp(fill, now)) == Some(v');
      hide Change;
      assert Next(s, Load(pid, loadOk, now)) == Goto(s, pid, FillWriting(fill, s.procs[pid].retries, v'));
      r := UpdateOrder(order, write);
      hide Next;
      WriteOfFill(s, pid, fill, s.procs[pid].retries, v', write);
    }

    method HandleFill(fill: Fill, save: WriteOutcome, loadOk: bool, write: WriteOutcome, now: int, ghost s: State, ghost pid: nat)
      returns (r: Attempt)
      requires Inv(s, {}) && Mirrors(s)
      requires pid in s.procs && s.procs[pid].FillTry? && s.procs[pid].fill == fill
      modifies this
      ensures Mirrors(FillSteps(s, pid, save, loadOk, write, now))
      ensures FillContinues(r, fill, s.procs[pid].retries, FillSteps(s, pid, save, loadOk, write, now), pid)
    {
      r := SaveOnce(fill, save, s, pid);
      ghost var s1 := Next(s, SaveFill(pid, save));
      NextKeepsInv(s, SaveFill(pid, save), {});
      if r.Ok? {
        hide Next;
        r := ApplySaved(fill, loadOk, write, now, s1, pid);
      } else {
        hide SaveFillStep;
        assert Next(Next(s1, Load(pid, loadOk, now)), Write(pid, write)) == s1;
      }
    }

    method HandleOrderUpdate(id: nat, status: OrderStatus, loadOk: bool, write: WriteOutcome, now: int, ghost s: State, ghost pid: nat)
      returns (r: Attempt)
      requires Inv(s, {}) && Mirrors(s)
      requires pid in s.procs && s.procs[pid].UpdateTry? && s.procs[pid].id == id && s.procs[pid].status == status
      modifies this
      ensures Mirrors(UpdateSteps(s, pid, loadOk, write, now))
      ensures UpdateContinues(r, id, status, s.procs[pid].retries, UpdateSteps(s, pid, loadOk, write, now), pid)
    {
      hide SetStatus, Inv;
      if !loadOk {
        return Err(Repository);
      }
      if id !in orders {
        return Err(OrderUpdateFailed);
      }
      LoadedOrderIsSound(s, id);
      var order := new Order(orders[id]);
      var updated := order.UpdateStatus(status, now);
      if updated.Err? {
        return Err(OrderUpdateFailed);
      }
      ghost var v := s.orders[id];
      ghost var v' := Version(order.Data(), v.base, v.ops + [UpdateStatusOp(status, now)]);
      assert Change(v, UpdateStatusOp(status, now)) == Some(v');
      hide Change;
      assert Next(s, Load(pid, loadOk, now)) == Goto(s, pid, UpdateWriting(id, status, s.procs[pid].retries, v'));
      r := UpdateOrder(order, write);
    }
  }

  lemma WriteOfFill(s: State, pid: nat, fill: Fill, retries: nat, v: Version, write: WriteOutcome)
    ensures var t := Next(Goto(s, pid, FillWriting(fill, retries, v)), Write(pid, write));
            var r := if write.Done? then Ok(Unit.Unit) else Err(Repository);
            && t.saved == s.saved && t.maxRetries == s.maxRetries
            && t.orders == (if write.TakesEffect() then s.orders[v.order.id := v] else s.orders)
            && FillContinues(r, fill, retries, t, pid)
  {
  }
}
