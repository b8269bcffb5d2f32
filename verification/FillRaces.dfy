/** A saved fill among any other handlers (crates/application/src/order_lifecycle.rs):
    exactly when its handler gets it into the stored order, whatever the others do
    between its calls. */
module FillRaces {
  import opened Values
  import opened Fills
  import opened Orders
  import opened OrderStore
  import opened FillOutcomes

  lemma GotoWithout(s: State, q: nat, p: Process, pid: nat)
    requires q != pid
    ensures Finish(Goto(s, q, p), pid) == Goto(Finish(s, pid), q, p)
  {
    assert s.procs[q := p] - {pid} == (s.procs - {pid})[q := p];
  }

  lemma FinishWithout(s: State, q: nat, pid: nat)
    ensures Finish(Finish(s, q), pid) == Finish(Finish(s, pid), q)
  {
    assert s.procs - {q} - {pid} == s.procs - {pid} - {q};
  }

  lemma RetryWithout(s: State, q: nat, p: Process, pid: nat)
    requires q != pid
    requires p.FillSaved? || p.FillTry? || p.FillWriting? || p.FillBooking? || p.FillAnnouncing? || p.UpdateTry? || p.UpdateWriting?
    ensures Finish(Retry(s, q, p), pid) == Retry(Finish(s, pid), q, p)
  {
    FinishWithout(s, q, pid);
    if p.UpdateTry? || p.UpdateWriting? {
      GotoWithout(s, q, UpdateTry(p.id, p.status, p.retries + 1), pid);
    } else {
      GotoWithout(s, q, FillTry(p.fill, p.retries + 1), pid);
    }
  }

  /** What other handlers do does not depend on whether this one is there. */
  lemma StepWithout(s: State, a: Action, pid: nat)
    requires Spares(a, pid)
    ensures Finish(Next(s, a), pid) == Next(Finish(s, pid), a)
  {
    hide Change, ValidateForSubmission, KeyOf;
    if a.Deliver? || a.ReceiveUpdate? || a.RequestCancel? || a.Place? {
      if a.pid !in s.procs {
        BeginWithout(s, a, pid);
      }
    } else if !a.Evict? && a.pid in s.procs {
      match a
      case Load(q, ok, now) => LoadWithout(s, q, ok, now, pid);
      case Write(q, outcome) => WriteWithout(s, q, outcome, pid);
      case _ => OtherStepWithout(s, a, pid);
    }
  }

  lemma BeginWithout(s: State, a: Action, pid: nat)
    requires (a.Deliver? || a.ReceiveUpdate? || a.RequestCancel? || a.Place?) && a.pid != pid && a.pid !in s.procs
    ensures Finish(Next(s, a), pid) == Next(Finish(s, pid), a)
  {
    hide Change, ValidateForSubmission, KeyOf, Goto;
    match a
    case Deliver(q, fill) => GotoWithout(s, q, FillTry(fill, 0), pid);
    case ReceiveUpdate(q, id, status) => GotoWithout(s, q, UpdateTry(id, status, 0), pid);
    case RequestCancel(q, id) => GotoWithout(s, q, CancelTry(id), pid);
    case Place(q, o, now) =>
      var placed := Change(Version(o, o, []), UpdateStatusOp(Submitted(now), now));
      if placed.Some? {
        GotoWithout(s, q, PlaceSaving(placed.value), pid);
      }
  }

  lemma LoadWithout(s: State, q: nat, ok: bool, now: int, pid: nat)
    requires q != pid && q in s.procs
    ensures Finish(Next(s, Load(q, ok, now)), pid) == Next(Finish(s, pid), Load(q, ok, now))
  {
    hide Change, Goto, Retry, KeyOf, ValidateForSubmission;
    var p := s.procs[q];
    FinishWithout(s, q, pid);
    match p
    case FillSaved(f, k) =>
      RetryWithout(s, q, p, pid);
      if f.orderId in s.orders && Change(s.orders[f.orderId], FillOp(f, now)).Some? {
        GotoWithout(s, q, FillWriting(f, k, Change(s.orders[f.orderId], FillOp(f, now)).value), pid);
      }
    case UpdateTry(id, status, k) =>
      RetryWithout(s, q, p, pid);
      if id in s.orders && Change(s.orders[id], UpdateStatusOp(status, now)).Some? {
        GotoWithout(s, q, UpdateWriting(id, status, k, Change(s.orders[id], UpdateStatusOp(status, now)).value), pid);
      }
    case CancelTry(id) =>
      if id in s.orders {
        GotoWithout(s, q, CancelSent(s.orders[id]), pid);
      }
    case RollbackTry(id) =>
      if id in s.orders && Change(s.orders[id], RejectOp("Execution failed", now)).Some? {
        GotoWithout(s, q, RollbackWriting(Change(s.orders[id], RejectOp("Execution failed", now)).value), pid);
      }
    case _ =>
  }

  lemma WriteWithout(s: State, q: nat, outcome: WriteOutcome, pid: nat)
    requires q != pid && q in s.procs
    ensures Finish(Next(s, Write(q, outcome)), pid) == Next(Finish(s, pid), Write(q, outcome))
  {
    hide Retry, Goto;
    var p := s.procs[q];
    if p.Holds() && !p.CancelSent? {
      var t := Stored(s, p.v, outcome);
      assert Finish(t, pid) == Stored(Finish(s, pid), p.v, outcome);
      FinishWithout(t, q, pid);
      if p.FillWriting? || p.UpdateWriting? {
        RetryWithout(t, q, p, pid);
      }
      if p.FillWriting? {
        GotoWithout(t, q, FillBooking(p.fill, p.retries), pid);
      } else if p.PlaceSaving? {
        GotoWithout(t, q, PlaceSent(p.v.order.id), pid);
      }
      hide Finish, Stored;
    }
  }

  lemma OtherStepWithout(s: State, a: Action, pid: nat)
    requires (a.SaveFill? || a.Book? || a.Announce? || a.GatewayReply?) && a.pid != pid && a.pid in s.procs
    ensures Finish(Next(s, a), pid) == Next(Finish(s, pid), a)
  {
    hide Change, Goto, Retry, KeyOf;
    var (q, p) := (a.pid, s.procs[a.pid]);
    FinishWithout(s, q, pid);
    match a
    case SaveFill(_, outcome) =>
      if p.FillTry? {
        var t := s.(saved := s.saved + {p.fill});
        GotoWithout(t, q, FillSaved(p.fill, p.retries), pid);
        RetryWithout(t, q, p, pid);
        RetryWithout(s, q, p, pid);
      }
    case Book(_, _) =>
      if p.FillBooking? {
        var t := s.(booked := s.booked + [p.fill]);
        GotoWithout(t, q, FillAnnouncing(p.fill, p.retries), pid);
        RetryWithout(t, q, p, pid);
        RetryWithout(s, q, p, pid);
        FinishWithout(t, q, pid);
      }
    case Announce(_, _) =>
      if p.FillAnnouncing? {
        RetryWithout(s, q, p, pid);
      }
    case GatewayReply(_, _, now) => GatewayWithout(s, q, a.ok, now, pid);
  }

  lemma GatewayWithout(s: State, q: nat, ok: bool, now: int, pid: nat)
    requires q != pid && q in s.procs
    ensures Finish(Next(s, GatewayReply(q, ok, now)), pid) == Next(Finish(s, pid), GatewayReply(q, ok, now))
  {
    hide Change, Goto, ValidateForSubmission, KeyOf;
    FinishWithout(s, q, pid);
    match s.procs[q]
    case CancelSent(v) =>
      if Change(v, CancelOp("User request", now)).Some? {
        GotoWithout(s, q, CancelWriting(Change(v, CancelOp("User request", now)).value), pid);
      }
    case PlaceSent(id) => GotoWithout(s, q, RollbackTry(id), pid);
    case _ =>
  }

  lemma {:induction false} ExecWithout(s: State, actions: seq<Action>, pid: nat)
    requires forall i :: 0 <= i < |actions| ==> Spares(actions[i], pid)
    ensures Finish(Exec(s, actions), pid) == Exec(Finish(s, pid), actions)
    decreases |actions|
  {
    hide Next, Finish;
    if actions != [] {
      ExecWithout(s, Front(actions), pid);
      StepWithout(Exec(s, Front(actions)), Last(actions), pid);
    }
  }

  /** The three calls of a handler whose save succeeds, with other handlers' steps
      after the save and after the load. */
  function Save(s: State, pid: nat, between: seq<Action>): State {
    Exec(Next(s, SaveFill(pid, Done)), between)
  }

  function LoadAndWrite(s: State, pid: nat, loadOk: bool, now: int, between: seq<Action>, write: WriteOutcome): State {
    Next(Exec(Next(s, Load(pid, loadOk, now)), between), Write(pid, write))
  }

  /** Under every interleaving, once its handler's first save has succeeded: the fill is
      in the stored order after the write exactly when the load succeeded, the order
      stored at the load accepts it, and the write took effect. Otherwise it is lost:
      nothing that happens later applies it. */
  lemma SavedFillAppliedIff(s: State, pid: nat, loadOk: bool, now: int, write: WriteOutcome,
                            first: seq<Action>, second: seq<Action>, later: seq<Action>)
    requires Inv(s, {}) && pid in s.procs && s.procs[pid].FillTry? && s.procs[pid].fill !in s.saved
    requires forall i :: 0 <= i < |first| ==> Spares(first[i], pid)
    requires forall i :: 0 <= i < |second| ==> Spares(second[i], pid)
    ensures var (f, atLoad) := (s.procs[pid].fill, Save(s, pid, first));
            var t := LoadAndWrite(atLoad, pid, loadOk, now, second, write);
            && (Applied(t, f) <==> loadOk && Accepts(atLoad, f) && write.TakesEffect())
            && (!Applied(t, f) ==> Unapplied(Exec(t, later), f))
  {
    var (f, k) := (s.procs[pid].fill, s.procs[pid].retries);
    var s1 := Next(s, SaveFill(pid, Done));
    assert pid in s1.procs && s1.procs[pid] == FillSaved(f, k);
    NextKeepsInv(s, SaveFill(pid, Done), {});
    hide Next, Inv, Applied, Accepts, LoadAndWrite, Unapplied;
    ExecKeepsInv(s1, first, {});
    OthersKeepProcess(s1, first, pid);
    LoadedFillAppliedIff(Exec(s1, first), pid, f, k, loadOk, now, write, second, later);
  }

  lemma LoadedFillAppliedIff(s: State, pid: nat, f: Fill, k: nat, loadOk: bool, now: int, write: WriteOutcome,
                             between: seq<Action>, later: seq<Action>)
    requires Inv(s, {}) && pid in s.procs && s.procs[pid] == FillSaved(f, k)
    requires forall i :: 0 <= i < |between| ==> Spares(between[i], pid)
    ensures var t := LoadAndWrite(s, pid, loadOk, now, between, write);
            && (Applied(t, f) <==> loadOk && Accepts(s, f) && write.TakesEffect())
            && (!Applied(t, f) ==> Unapplied(Exec(t, later), f))
  {
    var loaded := Next(s, Load(pid, loadOk, now));
    var u := Exec(loaded, between);
    var t := Next(u, Write(pid, write));
    hide Inv, Next, AppliedFills, Unapplied, Accepts;
    OwnedFillWithout(s, pid, f, k);
    LoadOutcome(s, pid, f, k, loadOk, now);
    ExecWithout(loaded, between, pid);
    ExecKeepsInv(Finish(s, pid), between, {f});
    if loadOk && Accepts(s, f) {
      OthersKeepProcess(loaded, between, pid);
      WriteOfFill(u, pid, f, write);
    } else {
      NothingToWrite(loaded, pid, between);
      NoWrite(u, pid, write);
    }
    if !(loadOk && Accepts(s, f) && write.TakesEffect()) {
      DroppedStaysUnapplied(t, pid, f, later);
    }
    hide Exec;
  }

  /** A fill in nobody's hands and no copy stays out of all copies. */
  lemma DroppedStaysUnapplied(t: State, pid: nat, f: Fill, later: seq<Action>)
    requires WaitsOrEnded(t, pid) && Inv(Finish(t, pid), {f})
    ensures Unapplied(Exec(t, later), f) && !Applied(t, f)
  {
    var others := Finish(t, pid);
    if pid in t.procs {
      assert t == Goto(others, pid, t.procs[pid]);
      GotoKeepsInv(others, pid, t.procs[pid], {f});
    } else {
      assert t == others;
    }
    ExecKeepsInv(t, later, {f});
    hide AppliedFills, Exec, CopiesOk;
  }

  lemma OwnedFillWithout(s: State, pid: nat, f: Fill, k: nat)
    requires Inv(s, {}) && pid in s.procs && s.procs[pid] == FillSaved(f, k)
    ensures Inv(Finish(s, pid), {f})
  {
    FinishKeepsInv(s, pid, {});
    hide Orders.Run, Accepted, Fresh;
  }

  predicate WaitsOrEnded(s: State, pid: nat) {
    pid in s.procs ==> s.procs[pid].FillTry?
  }

  /** The load makes a copy with the fill, or the handler has nothing to write. */
  lemma LoadOutcome(s: State, pid: nat, f: Fill, k: nat, loadOk: bool, now: int)
    requires Inv(s, {}) && pid in s.procs && s.procs[pid] == FillSaved(f, k)
    ensures var t := Next(s, Load(pid, loadOk, now));
            && Finish(t, pid) == Finish(s, pid)
            && if loadOk && Accepts(s, f)
               then pid in t.procs && t.procs[pid].FillWriting?
                    && t.procs[pid].v.order.id == f.orderId && f in AppliedFills(t.procs[pid].v)
               else WaitsOrEnded(t, pid)
  {
    hide Inv, Next, Change, AppliedFills, Accepts, ApplyFill, FillOutcomes.Filled;
    LoadOfFill(s, pid, f, k, loadOk, now);
    if f.orderId in s.orders {
      AcceptedFill(s, f, now);
      ChangedByFill(s, f, now);
      if Accepts(s, f) {
        FilledContains(s, f, now);
      }
    } else {
      assert !Accepts(s, f) by { NoOrder(s, f); }
    }
  }

  lemma NoOrder(s: State, f: Fill)
    requires f.orderId !in s.orders
    ensures !Accepts(s, f)
  {
  }

  lemma ChangedByFill(s: State, f: Fill, now: int)
    requires f.orderId in s.orders && s.orders[f.orderId].order.filled >= 0.0
    ensures var v := s.orders[f.orderId];
            Change(v, FillOp(f, now))
              == if ApplyFill(v.order, f, now).Ok? then Some(FillOutcomes.Filled(v, f, now)) else None
    ensures var v := s.orders[f.orderId];
            ApplyFill(v.order, f, now).Ok? ==> FillOutcomes.Filled(v, f, now).order == ApplyFill(v.order, f, now).value
  {
    hide ApplyFill;
  }

  lemma LoadOfFill(s: State, pid: nat, f: Fill, k: nat, loadOk: bool, now: int)
    requires pid in s.procs && s.procs[pid] == FillSaved(f, k)
    ensures var t := Next(s, Load(pid, loadOk, now));
            && Finish(t, pid) == Finish(s, pid)
            && if loadOk && f.orderId in s.orders && Change(s.orders[f.orderId], FillOp(f, now)).Some?
               then pid in t.procs && t.procs[pid] == FillWriting(f, k, Change(s.orders[f.orderId], FillOp(f, now)).value)
               else WaitsOrEnded(t, pid)
  {
    hide Change, WriteStep, SaveFillStep, BookStep, AnnounceStep, GatewayStep;
  }

  lemma NothingToWrite(s: State, pid: nat, actions: seq<Action>)
    requires WaitsOrEnded(s, pid)
    requires forall i :: 0 <= i < |actions| ==> Spares(actions[i], pid)
    ensures WaitsOrEnded(Exec(s, actions), pid)
  {
    if pid in s.procs {
      OthersKeepProcess(s, actions, pid);
    } else {
      ExecWithout(s, actions, pid);
      assert s.procs - {pid} == s.procs;
      assert Exec(s, actions).procs == Exec(s, actions).procs - {pid};
    }
  }

  lemma NoWrite(s: State, pid: nat, write: WriteOutcome)
    requires WaitsOrEnded(s, pid)
    ensures Next(s, Write(pid, write)) == s
  {
  }

  lemma WriteOfFill(s: State, pid: nat, f: Fill, write: WriteOutcome)
    requires pid in s.procs && s.procs[pid].FillWriting?
    requires s.procs[pid].v.order.id == f.orderId && f in AppliedFills(s.procs[pid].v)
    ensures var t := Next(s, Write(pid, write));
            && (write.TakesEffect() ==> Applied(t, f))
            && (!write.TakesEffect() ==> Finish(t, pid) == Finish(s, pid) && WaitsOrEnded(t, pid))
  {
  }
}
