/** The shared order store under concurrent read-modify-write
    (crates/application/src/order_lifecycle.rs, crates/application/src/trading_service.rs).

    Every handler loads an order, changes its own copy and writes it back, with awaits
    in between and no lock. The model is a step system: any number of handlers, one
    repository or gateway call per step, any interleaving. A failed write may or may
    not have reached the database. */
module OrderStore {
  import opened Values
  import opened Fills
  import opened Orders

  /** A copy of an order together with its lineage: the placed order and the
      operations since. The lineage is history; no step's outcome depends on it. */
  datatype Version = Version(order: OrderData, base: OrderData, ops: seq<OrderOp>)

  function AppliedFills(v: Version): seq<Fill> {
    if v.base.filled < 0.0 then [] else Accepted(v.base, v.ops)
  }

  /** The identity `process_fill` gives a fill: order, timestamp and quantity. */
  datatype FillKey = FillKey(orderId: nat, timestamp: int, quantity: Decimal)

  function KeyOf(f: Fill): FillKey {
    FillKey(f.orderId, f.timestamp, f.quantity)
  }

  /** Where a handler stands, with what it holds locally. */
  datatype Process =
    // handle_fill
    | FillTry(fill: Fill, retries: nat)
    | FillSaved(fill: Fill, retries: nat)
    | FillWriting(fill: Fill, retries: nat, v: Version)
    | FillBooking(fill: Fill, retries: nat)      // order stored; the position comes next
    | FillAnnouncing(fill: Fill, retries: nat)   // position stored; the events come last
    // handle_order_update
    | UpdateTry(id: nat, status: OrderStatus, retries: nat)
    | UpdateWriting(id: nat, status: OrderStatus, retries: nat, v: Version)
    // cancel_order
    | CancelTry(id: nat)
    | CancelSent(v: Version)
    | CancelWriting(v: Version)
    // place_order, from the allowed order on, and its rollback
    | PlaceSaving(v: Version)
    | PlaceSent(id: nat)
    | RollbackTry(id: nat)
    | RollbackWriting(v: Version)
  {
    predicate Holds() {
      FillWriting? || UpdateWriting? || CancelSent? || CancelWriting? || PlaceSaving? || RollbackWriting?
    }

    /** A fill handler past its successful save. */
    predicate HasFill() {
      FillSaved? || FillWriting? || FillBooking? || FillAnnouncing?
    }
  }

  datatype State = State(
    orders: map<nat, Version>,
    saved: set<Fill>,
    processed: set<FillKey>,
    booked: seq<Fill>,      // fills whose position write took effect
    announced: seq<Fill>,   // fills whose handler published OrderFilled
    procs: map<nat, Process>,
    maxRetries: nat)

  datatype Booking = Booked | BookingFailed(persisted: bool, retryable: bool)

  datatype Action =
    | Deliver(pid: nat, fill: Fill)
    | SaveFill(pid: nat, outcome: WriteOutcome)
    | Load(pid: nat, ok: bool, now: int)
    | Write(pid: nat, outcome: WriteOutcome)
    | Book(pid: nat, booking: Booking)
    | Announce(pid: nat, ok: bool)
    | Evict(keys: set<FillKey>)
    | ReceiveUpdate(pid: nat, id: nat, status: OrderStatus)
    | RequestCancel(pid: nat, id: nat)
    | GatewayReply(pid: nat, ok: bool, now: int)
    | Place(pid: nat, order: OrderData, now: int)

  // --------------------------------------------------------------- the steps

  function Goto(s: State, pid: nat, p: Process): State {
    s.(procs := s.procs[pid := p])
  }

  function Finish(s: State, pid: nat): State {
    s.(procs := s.procs - {pid})
  }

  /** A retryable error: the whole handler runs again, up to the limit. */
  function Retry(s: State, pid: nat, p: Process): State
    requires p.FillSaved? || p.FillTry? || p.FillWriting? || p.FillBooking? || p.FillAnnouncing? || p.UpdateTry? || p.UpdateWriting?
  {
    if p.retries >= s.maxRetries then Finish(s, pid)
    else if p.UpdateTry? || p.UpdateWriting? then Goto(s, pid, UpdateTry(p.id, p.status, p.retries + 1))
    else Goto(s, pid, FillTry(p.fill, p.retries + 1))
  }

  /** The local copy after `op`, if the order accepts it. */
  function Change(v: Version, op: OrderOp): Option<Version> {
    if v.order.filled < 0.0 then None
    else match Perform(v.order, op)
      case Ok(o) => Some(Version(o, v.base, v.ops + [op]))
      case Err(_) => None
  }

  /** An error that is not retried ends the handler. */
  function GotoIf(s: State, pid: nat, v: Option<Version>, next: Version -> Process): State {
    match v
    case Some(v') => Goto(s, pid, next(v'))
    case None => Finish(s, pid)
  }

  function LoadStep(s: State, pid: nat, ok: bool, now: int): State
    requires pid in s.procs
  {
    var p := s.procs[pid];
    match p
    case FillSaved(fill, retries) =>
      if !ok then Retry(s, pid, p)
      else if fill.orderId !in s.orders then Finish(s, pid)
      else GotoIf(s, pid, Change(s.orders[fill.orderId], FillOp(fill, now)), v => FillWriting(fill, retries, v))
    case UpdateTry(id, status, retries) =>
      if !ok then Retry(s, pid, p)
      else if id !in s.orders then Finish(s, pid)
      else GotoIf(s, pid, Change(s.orders[id], UpdateStatusOp(status, now)), v => UpdateWriting(id, status, retries, v))
    case CancelTry(id) =>
      if !ok || id !in s.orders || !s.orders[id].order.status.CanCancel() then Finish(s, pid)
      else Goto(s, pid, CancelSent(s.orders[id]))
    case RollbackTry(id) =>
      if !ok || id !in s.orders then Finish(s, pid)
      else GotoIf(s, pid, Change(s.orders[id], RejectOp("Execution failed", now)), v => RollbackWriting(v))
    case _ => s
  }

  function Stored(s: State, v: Version, outcome: WriteOutcome): State {
    if outcome.TakesEffect() then s.(orders := s.orders[v.order.id := v]) else s
  }

  function WriteStep(s: State, pid: nat, outcome: WriteOutcome): State
    requires pid in s.procs
  {
    var p := s.procs[pid];
    match p
    case FillWriting(fill, retries, v) =>
      if outcome.Done? then Goto(Stored(s, v, outcome), pid, FillBooking(fill, retries))
      else Retry(Stored(s, v, outcome), pid, p)
    case UpdateWriting(_, _, _, v) =>
      if outcome.Done? then Finish(Stored(s, v, outcome), pid)
      else Retry(Stored(s, v, outcome), pid, p)
    case CancelWriting(v) => Finish(Stored(s, v, outcome), pid)
    case RollbackWriting(v) => Finish(Stored(s, v, outcome), pid)
    case PlaceSaving(v) =>
      if outcome.Done? then Goto(Stored(s, v, outcome), pid, PlaceSent(v.order.id))
      else Finish(Stored(s, v, outcome), pid)
    case _ => s
  }

  /** `FillRepository::save`: a stored fill is refused as a duplicate key. */
  function SaveFillStep(s: State, pid: nat, outcome: WriteOutcome): State
    requires pid in s.procs && s.procs[pid].FillTry?
  {
    var p := s.procs[pid];
    match outcome
    case Done =>
      if p.fill in s.saved then Finish(s, pid)
      else Goto(s.(saved := s.saved + {p.fill}), pid, FillSaved(p.fill, p.retries))
    case Failed(persisted) =>
      Retry(if persisted then s.(saved := s.saved + {p.fill}) else s, pid, p)
  }

  /** `update_position`: the upsert may fail with or without effect. */
  function BookStep(s: State, pid: nat, booking: Booking): State
    requires pid in s.procs && s.procs[pid].FillBooking?
  {
    var p := s.procs[pid];
    match booking
    case Booked => Goto(s.(booked := s.booked + [p.fill]), pid, FillAnnouncing(p.fill, p.retries))
    case BookingFailed(persisted, retryable) =>
      var s' := if persisted then s.(booked := s.booked + [p.fill]) else s;
      if retryable then Retry(s', pid, p) else Finish(s', pid)
  }

  /** The position is read back for its event; then OrderFilled is published, and the
      handler's success is remembered. */
  function AnnounceStep(s: State, pid: nat, ok: bool): State
    requires pid in s.procs && s.procs[pid].FillAnnouncing?
  {
    var p := s.procs[pid];
    if ok then Finish(s.(announced := s.announced + [p.fill], processed := s.processed + {KeyOf(p.fill)}), pid)
    else Retry(s, pid, p)
  }

  function GatewayStep(s: State, pid: nat, ok: bool, now: int): State
    requires pid in s.procs
  {
    match s.procs[pid]
    case CancelSent(v) =>
      if ok then GotoIf(s, pid, Change(v, CancelOp("User request", now)), v' => CancelWriting(v'))
      else Finish(s, pid)
    case PlaceSent(id) => if ok then Finish(s, pid) else Goto(s, pid, RollbackTry(id))
    case _ => s
  }

  function Next(s: State, a: Action): State {
    match a
    case Deliver(pid, fill) =>
      if pid in s.procs || KeyOf(fill) in s.processed then s else Goto(s, pid, FillTry(fill, 0))
    case ReceiveUpdate(pid, id, status) =>
      if pid in s.procs then s else Goto(s, pid, UpdateTry(id, status, 0))
    case RequestCancel(pid, id) =>
      if pid in s.procs then s else Goto(s, pid, CancelTry(id))
    case Place(pid, order, now) =>
      if pid in s.procs || order.filled != 0.0 || ValidateForSubmission(order).Err? then s
      else GotoIf(s, pid, Change(Version(order, order, []), UpdateStatusOp(Submitted(now), now)), v => PlaceSaving(v))
    case Evict(keys) => s.(processed := s.processed - keys)
    case SaveFill(pid, outcome) =>
      if pid in s.procs && s.procs[pid].FillTry? then SaveFillStep(s, pid, outcome) else s
    case Book(pid, booking) =>
      if pid in s.procs && s.procs[pid].FillBooking? then BookStep(s, pid, booking) else s
    case Announce(pid, ok) =>
      if pid in s.procs && s.procs[pid].FillAnnouncing? then AnnounceStep(s, pid, ok) else s
    case Load(pid, ok, now) => if pid in s.procs then LoadStep(s, pid, ok, now) else s
    case Write(pid, outcome) => if pid in s.procs then WriteStep(s, pid, outcome) else s
    case GatewayReply(pid, ok, now) => if pid in s.procs then GatewayStep(s, pid, ok, now) else s
  }

  function Exec(s: State, actions: seq<Action>): State {
    if actions == [] then s else Next(Exec(s, Front(actions)), Last(actions))
  }

  /** A run is its actions one after the other. */
  lemma {:induction false} ExecStepByStep(s: State, a: Action, more: seq<Action>)
    ensures Exec(s, []) == s && Exec(s, [a] + more) == Exec(Next(s, a), more)
    decreases |more|
  {
    hide Next;
    if more == [] {
      assert [a] + more == [a] && Front([a]) == [];
    } else {
      ExecStepByStep(s, a, Front(more));
      assert Front([a] + more) == [a] + Front(more);
    }
  }

  function Initial(maxRetries: nat): State {
    State(map[], {}, {}, [], [], map[], maxRetries)
  }

  // --------------------------------------------------------------- invariant

  /** A copy is the outcome of a run of its placed order, and the fills in that
      run are distinct, belong to the order and are all in the fill repository. */
  ghost predicate WellFormed(saved: set<Fill>, v: Version) {
    && Fresh(v.base)
    && v.order == Run(v.base, v.ops)
    && Distinct(AppliedFills(v))
    && forall f :: f in AppliedFills(v) ==> f in saved && f.orderId == v.base.id
  }

  /** No copy, stored or held, contains `f`. */
  ghost predicate Unapplied(s: State, f: Fill) {
    && (forall id :: id in s.orders ==> f !in AppliedFills(s.orders[id]))
    && (forall pid :: pid in s.procs && s.procs[pid].Holds() ==> f !in AppliedFills(s.procs[pid].v))
  }

  ghost predicate CopiesOk(s: State) {
    && (forall id :: id in s.orders ==> WellFormed(s.saved, s.orders[id]) && s.orders[id].base.id == id)
    && (forall pid :: pid in s.procs && s.procs[pid].Holds() ==> WellFormed(s.saved, s.procs[pid].v))
  }

  /** A fill between its save and its load is owned by one handler and is in no copy.
      The fills in `dropped` are in no copy either, and no handler owns them. */
  ghost predicate Inv(s: State, dropped: set<Fill>) {
    && CopiesOk(s)
    && (forall pid :: pid in s.procs && s.procs[pid].FillSaved? ==>
          s.procs[pid].fill in s.saved - dropped && Unapplied(s, s.procs[pid].fill))
    && (forall f :: f in dropped ==> f in s.saved && Unapplied(s, f))
    && (forall p, q :: p in s.procs && q in s.procs && p != q && s.procs[p].FillSaved? && s.procs[q].FillSaved? ==>
          s.procs[p].fill != s.procs[q].fill)
  }

  /** `v` may be held or stored by `pid`: it contains no dropped fill and none
      that another handler owns. */
  ghost predicate Admissible(s: State, pid: nat, v: Version, dropped: set<Fill>) {
    && WellFormed(s.saved, v)
    && (forall f :: f in dropped ==> f !in AppliedFills(v))
    && forall q :: q in s.procs && q != pid && s.procs[q].FillSaved? ==> s.procs[q].fill !in AppliedFills(v)
  }

  lemma FinishKeepsInv(s: State, pid: nat, dropped: set<Fill>)
    requires Inv(s, dropped)
    ensures Inv(Finish(s, pid), dropped)
  {
    hide Run, Accepted, Fresh;
  }

  /** Moving to a process that owns no fill, holding at most an admissible copy. */
  lemma GotoKeepsInv(s: State, pid: nat, p: Process, dropped: set<Fill>)
    requires Inv(s, dropped) && !p.FillSaved?
    requires p.Holds() ==> Admissible(s, pid, p.v, dropped)
    ensures Inv(Goto(s, pid, p), dropped)
  {
    hide Run, Accepted, Fresh;
  }

  lemma RetryKeepsInv(s: State, pid: nat, p: Process, dropped: set<Fill>)
    requires Inv(s, dropped)
    requires p.FillSaved? || p.FillTry? || p.FillWriting? || p.FillBooking? || p.FillAnnouncing? || p.UpdateTry? || p.UpdateWriting?
    ensures Inv(Retry(s, pid, p), dropped)
  {
    hide Inv, Admissible;
    FinishKeepsInv(s, pid, dropped);
    if p.UpdateTry? || p.UpdateWriting? {
      GotoKeepsInv(s, pid, UpdateTry(p.id, p.status, p.retries + 1), dropped);
    } else {
      GotoKeepsInv(s, pid, FillTry(p.fill, p.retries + 1), dropped);
    }
  }

  lemma SavingMoreKeepsInv(s: State, f: Fill, dropped: set<Fill>)
    requires Inv(s, dropped)
    ensures Inv(s.(saved := s.saved + {f}), dropped)
  {
    hide Run, Accepted, Fresh;
  }

  /** A first successful save: nobody can have applied the fill yet. */
  lemma FirstSaveKeepsInv(s: State, pid: nat, f: Fill, retries: nat, dropped: set<Fill>)
    requires Inv(s, dropped) && f !in s.saved
    ensures Inv(Goto(s.(saved := s.saved + {f}), pid, FillSaved(f, retries)), dropped)
  {
    hide Run, Accepted, Fresh;
    SavingMoreKeepsInv(s, f, dropped);
  }

  lemma ChangeIsWellFormed(saved: set<Fill>, v: Version, op: OrderOp)
    requires WellFormed(saved, v) && Change(v, op).Some?
    requires op.FillOp? ==> op.fill in saved && op.fill.orderId == v.base.id && op.fill !in AppliedFills(v)
    ensures WellFormed(saved, Change(v, op).value)
    ensures AppliedFills(Change(v, op).value) == AppliedFills(v) + (if op.FillOp? then [op.fill] else [])
  {
    hide Perform;
    FrontLast(v.ops, op);
  }

  /** Loading the stored order and changing the copy. */
  lemma LoadedIsAdmissible(s: State, pid: nat, id: nat, op: OrderOp, dropped: set<Fill>)
    requires Inv(s, dropped) && pid in s.procs && id in s.orders
    requires op.FillOp? ==> op.fill.orderId == id && s.procs[pid].FillSaved? && s.procs[pid].fill == op.fill
    ensures Admissible(s, pid, s.orders[id], dropped)
    ensures Change(s.orders[id], op).Some? ==> Admissible(s, pid, Change(s.orders[id], op).value, dropped)
  {
    hide Run, Accepted, Fresh, Change;
    if Change(s.orders[id], op).Some? {
      ChangeIsWellFormed(s.saved, s.orders[id], op);
    }
  }

  lemma HeldIsAdmissible(s: State, pid: nat, v: Version, dropped: set<Fill>)
    requires Inv(s, dropped) && pid in s.procs && s.procs[pid].Holds() && v == s.procs[pid].v
    ensures Admissible(s, pid, v, dropped)
    ensures v.order.id == v.base.id
  {
    RunAccounting(v.base, v.ops);
    hide Run, Accepted, Fresh;
  }

  lemma StoreKeepsInv(s: State, pid: nat, outcome: WriteOutcome, dropped: set<Fill>)
    requires Inv(s, dropped) && pid in s.procs && s.procs[pid].Holds()
    ensures Inv(Stored(s, s.procs[pid].v, outcome), dropped)
  {
    HeldIsAdmissible(s, pid, s.procs[pid].v, dropped);
    hide Run, Accepted, Fresh;
  }

  lemma LoadKeepsInv(s: State, pid: nat, ok: bool, now: int, dropped: set<Fill>)
    requires Inv(s, dropped) && pid in s.procs
    ensures Inv(LoadStep(s, pid, ok, now), dropped)
  {
    hide Inv, Change, Admissible;
    var p := s.procs[pid];
    FinishKeepsInv(s, pid, dropped);
    match p
    case FillSaved(fill, retries) =>
      RetryKeepsInv(s, pid, p, dropped);
      if fill.orderId in s.orders {
        var v := Change(s.orders[fill.orderId], FillOp(fill, now));
        LoadedIsAdmissible(s, pid, fill.orderId, FillOp(fill, now), dropped);
        if v.Some? {
          GotoKeepsInv(s, pid, FillWriting(fill, retries, v.value), dropped);
        }
      }
    case UpdateTry(id, status, retries) =>
      RetryKeepsInv(s, pid, p, dropped);
      if id in s.orders {
        var v := Change(s.orders[id], UpdateStatusOp(status, now));
        LoadedIsAdmissible(s, pid, id, UpdateStatusOp(status, now), dropped);
        if v.Some? {
          GotoKeepsInv(s, pid, UpdateWriting(id, status, retries, v.value), dropped);
        }
      }
    case CancelTry(id) =>
      if id in s.orders {
        LoadedIsAdmissible(s, pid, id, CancelOp("", now), dropped);
        GotoKeepsInv(s, pid, CancelSent(s.orders[id]), dropped);
      }
    case RollbackTry(id) =>
      if id in s.orders {
        var v := Change(s.orders[id], RejectOp("Execution failed", now));
        LoadedIsAdmissible(s, pid, id, RejectOp("Execution failed", now), dropped);
        if v.Some? {
          GotoKeepsInv(s, pid, RollbackWriting(v.value), dropped);
        }
      }
    case _ =>
  }

  lemma WriteKeepsInv(s: State, pid: nat, outcome: WriteOutcome, dropped: set<Fill>)
    requires Inv(s, dropped) && pid in s.procs
    ensures Inv(WriteStep(s, pid, outcome), dropped)
  {
    hide Inv, Stored;
    var p := s.procs[pid];
    if p.Holds() {
      var s' := Stored(s, p.v, outcome);
      StoreKeepsInv(s, pid, outcome, dropped);
      FinishKeepsInv(s', pid, dropped);
      if p.FillWriting? || p.UpdateWriting? {
        RetryKeepsInv(s', pid, p, dropped);
      }
      if p.FillWriting? {
        GotoKeepsInv(s', pid, FillBooking(p.fill, p.retries), dropped);
      }
      GotoKeepsInv(s', pid, PlaceSent(p.v.order.id), dropped);
    }
  }

  lemma GatewayKeepsInv(s: State, pid: nat, ok: bool, now: int, dropped: set<Fill>)
    requires Inv(s, dropped) && pid in s.procs
    ensures Inv(GatewayStep(s, pid, ok, now), dropped)
  {
    var p := s.procs[pid];
    FinishKeepsInv(s, pid, dropped);
    if p.CancelSent? {
      var op := CancelOp("User request", now);
      HeldIsAdmissible(s, pid, p.v, dropped);
      if Change(p.v, op).Some? {
        ChangeIsWellFormed(s.saved, p.v, op);
        hide Run, Accepted, Fresh, Change;
        GotoKeepsInv(s, pid, CancelWriting(Change(p.v, op).value), dropped);
      }
    } else if p.PlaceSent? {
      GotoKeepsInv(s, pid, RollbackTry(p.id), dropped);
    }
  }

  lemma PlaceKeepsInv(s: State, pid: nat, order: OrderData, now: int, dropped: set<Fill>)
    requires Inv(s, dropped)
    ensures Inv(Next(s, Place(pid, order, now)), dropped)
  {
    var v, op := Version(order, order, []), UpdateStatusOp(Submitted(now), now);
    FinishKeepsInv(s, pid, dropped);
    if pid !in s.procs && order.filled == 0.0 && ValidateForSubmission(order).Ok? && Change(v, op).Some? {
      ChangeIsWellFormed(s.saved, v, op);
      hide Run, Accepted, Change;
      GotoKeepsInv(s, pid, PlaceSaving(Change(v, op).value), dropped);
    }
  }

  lemma SaveFillKeepsInv(s: State, pid: nat, outcome: WriteOutcome, dropped: set<Fill>)
    requires Inv(s, dropped) && pid in s.procs && s.procs[pid].FillTry?
    ensures Inv(SaveFillStep(s, pid, outcome), dropped)
  {
    hide Inv;
    var p := s.procs[pid];
    FinishKeepsInv(s, pid, dropped);
    SavingMoreKeepsInv(s, p.fill, dropped);
    RetryKeepsInv(s, pid, p, dropped);
    RetryKeepsInv(s.(saved := s.saved + {p.fill}), pid, p, dropped);
    if p.fill !in s.saved {
      FirstSaveKeepsInv(s, pid, p.fill, p.retries, dropped);
    }
  }

  lemma BookKeepsInv(s: State, pid: nat, booking: Booking, dropped: set<Fill>)
    requires Inv(s, dropped) && pid in s.procs && s.procs[pid].FillBooking?
    ensures Inv(BookStep(s, pid, booking), dropped)
  {
    hide Inv;
    var p := s.procs[pid];
    var s' := s.(booked := s.booked + [p.fill]);
    LogsAreIrrelevant(s, s', dropped);
    FinishKeepsInv(s', pid, dropped);
    FinishKeepsInv(s, pid, dropped);
    RetryKeepsInv(s, pid, p, dropped);
    RetryKeepsInv(s', pid, p, dropped);
    GotoKeepsInv(s', pid, FillAnnouncing(p.fill, p.retries), dropped);
  }

  lemma AnnounceKeepsInv(s: State, pid: nat, ok: bool, dropped: set<Fill>)
    requires Inv(s, dropped) && pid in s.procs && s.procs[pid].FillAnnouncing?
    ensures Inv(AnnounceStep(s, pid, ok), dropped)
  {
    hide Inv;
    var p := s.procs[pid];
    var s' := s.(announced := s.announced + [p.fill], processed := s.processed + {KeyOf(p.fill)});
    LogsAreIrrelevant(s, s', dropped);
    FinishKeepsInv(s', pid, dropped);
    RetryKeepsInv(s, pid, p, dropped);
  }

  /** Every step of every handler keeps the invariant. */
  lemma NextKeepsInv(s: State, a: Action, dropped: set<Fill>)
    requires Inv(s, dropped)
    ensures Inv(Next(s, a), dropped)
  {
    match a
    case Deliver(pid, fill) => hide Inv; GotoKeepsInv(s, pid, FillTry(fill, 0), dropped);
    case ReceiveUpdate(pid, id, status) => hide Inv; GotoKeepsInv(s, pid, UpdateTry(id, status, 0), dropped);
    case RequestCancel(pid, id) => hide Inv; GotoKeepsInv(s, pid, CancelTry(id), dropped);
    case Place(pid, order, now) => PlaceKeepsInv(s, pid, order, now, dropped);
    case Evict(keys) => hide Run, Accepted, Fresh;
    case SaveFill(pid, outcome) =>
      hide Inv, SaveFillStep;
      if pid in s.procs && s.procs[pid].FillTry? {
        SaveFillKeepsInv(s, pid, outcome, dropped);
      }
    case Book(pid, booking) =>
      hide Inv, BookStep;
      if pid in s.procs && s.procs[pid].FillBooking? {
        BookKeepsInv(s, pid, booking, dropped);
      }
    case Announce(pid, ok) =>
      hide Inv, AnnounceStep;
      if pid in s.procs && s.procs[pid].FillAnnouncing? {
        AnnounceKeepsInv(s, pid, ok, dropped);
      }
    case Load(pid, ok, now) => hide Inv; if pid in s.procs { LoadKeepsInv(s, pid, ok, now, dropped); }
    case Write(pid, outcome) => hide Inv; if pid in s.procs { WriteKeepsInv(s, pid, outcome, dropped); }
    case GatewayReply(pid, ok, now) => hide Inv; if pid in s.procs { GatewayKeepsInv(s, pid, ok, now, dropped); }
  }

  lemma LogsAreIrrelevant(s: State, s': State, dropped: set<Fill>)
    requires Inv(s, dropped) && s' == s.(processed := s'.processed, booked := s'.booked, announced := s'.announced)
    ensures Inv(s', dropped)
  {
    hide Run, Accepted, Fresh;
  }

  lemma {:induction false} ExecKeepsInv(s: State, actions: seq<Action>, dropped: set<Fill>)
    requires Inv(s, dropped)
    ensures Inv(Exec(s, actions), dropped)
    decreases |actions|
  {
    hide Inv;
    if actions != [] {
      ExecKeepsInv(s, Front(actions), dropped);
      NextKeepsInv(Exec(s, Front(actions)), Last(actions), dropped);
    }
  }

  // ------------------------------------------------------------ main results

  /** Under every interleaving, failure pattern, retry, redelivery and eviction, a
      stored order's filled quantity is the sum of distinct fills, each saved in
      the fill repository for this order, and never exceeds the order quantity. */
  lemma NoFillCountsTwice(maxRetries: nat, actions: seq<Action>, id: nat)
    requires id in Exec(Initial(maxRetries), actions).orders
    ensures var s := Exec(Initial(maxRetries), actions);
            var v := s.orders[id];
            && v.base.filled == 0.0 && v.order.id == id
            && Sound(v.order) && 0.0 <= v.order.filled <= v.order.quantity == v.base.quantity
            && v.order.filled == Sum(QuantityOf, AppliedFills(v))
            && Distinct(AppliedFills(v))
            && (forall f :: f in AppliedFills(v) ==> f in s.saved && f.orderId == id)
  {
    ExecKeepsInv(Initial(maxRetries), actions, {});
    var v := Exec(Initial(maxRetries), actions).orders[id];
    RunAccounting(v.base, v.ops);
  }

  /** A fill that is saved while no handler owns it and no copy contains it is never
      applied, however often it is redelivered. */
  lemma LostFillStaysLost(s: State, f: Fill, more: seq<Action>)
    requires Inv(s, {}) && f in s.saved && Unapplied(s, f)
    requires forall pid :: pid in s.procs && s.procs[pid].FillSaved? ==> s.procs[pid].fill != f
    ensures Unapplied(Exec(s, more), f)
  {
    assert Inv(s, {f}) by {
      hide Exec, Run, Accepted, Fresh;
    }
    ExecKeepsInv(s, more, {f});
  }

  /** The action does not move this handler. */
  predicate Spares(a: Action, pid: nat) {
    a.Evict? || a.pid != pid
  }

  lemma OtherKeepsProcess(s: State, a: Action, pid: nat)
    requires pid in s.procs && Spares(a, pid)
    ensures pid in Next(s, a).procs && Next(s, a).procs[pid] == s.procs[pid]
  {
    hide Change, ValidateForSubmission, Stored, KeyOf;
    if !a.Evict? && a.pid in s.procs {
      var p := s.procs[a.pid];
      if p.Holds() && a.Write? {
        assert Stored(s, p.v, a.outcome).procs == s.procs by { StoredKeepsProcesses(s, p.v, a.outcome); }
      }
    }
  }

  lemma StoredKeepsProcesses(s: State, v: Version, outcome: WriteOutcome)
    ensures Stored(s, v, outcome).procs == s.procs && Stored(s, v, outcome).maxRetries == s.maxRetries
  {
  }

  lemma {:induction false} OthersKeepProcess(s: State, actions: seq<Action>, pid: nat)
    requires pid in s.procs
    requires forall i :: 0 <= i < |actions| ==> Spares(actions[i], pid)
    ensures pid in Exec(s, actions).procs && Exec(s, actions).procs[pid] == s.procs[pid]
    decreases |actions|
  {
    hide Change, ValidateForSubmission;
    if actions != [] {
      OthersKeepProcess(s, Front(actions), pid);
      OtherKeepsProcess(Exec(s, Front(actions)), Last(actions), pid);
      hide Next;
    }
  }

  // ---------------------------------------- positions and events, at most once

  /** A fill past its save is in one handler's hands only, not yet announced, and not
      yet booked before its position is stored. */
  ghost predicate HandsOk(s: State) {
    && (forall pid :: pid in s.procs && s.procs[pid].HasFill() ==>
          && s.procs[pid].fill in s.saved && s.procs[pid].fill !in s.announced
          && (s.procs[pid].FillAnnouncing? <==> s.procs[pid].fill in s.booked))
    && (forall p, q :: p in s.procs && q in s.procs && p != q && s.procs[p].HasFill() && s.procs[q].HasFill() ==>
          s.procs[p].fill != s.procs[q].fill)
    && Distinct(s.booked) && (forall f :: f in s.booked ==> f in s.saved)
    && Distinct(s.announced) && (forall f :: f in s.announced ==> f in s.booked)
  }

  lemma FinishKeepsHands(s: State, pid: nat)
    requires HandsOk(s)
    ensures HandsOk(Finish(s, pid))
  {
  }

  /** A handler moves on without a fill, or with the one it has. */
  lemma GotoKeepsHands(s: State, pid: nat, p: Process)
    requires HandsOk(s)
    requires p.HasFill() ==> pid in s.procs && s.procs[pid].HasFill() && s.procs[pid].fill == p.fill
                             && (s.procs[pid].FillAnnouncing? <==> p.FillAnnouncing?)
    ensures HandsOk(Goto(s, pid, p))
  {
  }

  lemma RetryKeepsHands(s: State, pid: nat, p: Process)
    requires HandsOk(s)
    requires p.FillSaved? || p.FillTry? || p.FillWriting? || p.FillBooking? || p.FillAnnouncing? || p.UpdateTry? || p.UpdateWriting?
    ensures HandsOk(Retry(s, pid, p))
  {
    hide HandsOk;
    FinishKeepsHands(s, pid);
    if p.UpdateTry? || p.UpdateWriting? {
      GotoKeepsHands(s, pid, UpdateTry(p.id, p.status, p.retries + 1));
    } else {
      GotoKeepsHands(s, pid, FillTry(p.fill, p.retries + 1));
    }
  }

  lemma SaveKeepsHands(s: State, pid: nat, f: Fill, retries: nat)
    requires HandsOk(s)
    ensures HandsOk(s.(saved := s.saved + {f}))
    ensures f !in s.saved ==> HandsOk(Goto(s.(saved := s.saved + {f}), pid, FillSaved(f, retries)))
  {
  }

  /** The position write of a handler: its fill is booked for the first time, and the
      handler goes on to announce it or gives the fill up. */
  lemma BookKeepsHands(s: State, pid: nat, p: Process)
    requires HandsOk(s) && pid in s.procs && s.procs[pid].FillBooking?
    requires p.HasFill() ==> p.FillAnnouncing? && p.fill == s.procs[pid].fill
    ensures HandsOk(Goto(s.(booked := s.booked + [s.procs[pid].fill]), pid, p))
    ensures HandsOk(Finish(s.(booked := s.booked + [s.procs[pid].fill]), pid))
  {
    var f := s.procs[pid].fill;
    AppendKeepsDistinct(s.booked, f);
  }

  lemma AnnounceKeepsHands(s: State, pid: nat, processed: set<FillKey>)
    requires HandsOk(s) && pid in s.procs && s.procs[pid].FillAnnouncing?
    ensures HandsOk(Finish(s.(announced := s.announced + [s.procs[pid].fill], processed := processed), pid))
  {
    AppendKeepsDistinct(s.announced, s.procs[pid].fill);
  }

  lemma AppendKeepsDistinct<T>(s: seq<T>, x: T)
    requires Distinct(s) && x !in s
    ensures Distinct(s + [x])
  {
    var t := s + [x];
    forall i, j | 0 <= i < j < |t| ensures t[i] != t[j] {
      assert t[i] == s[i] && s[i] in s;
    }
  }

  lemma StoredKeepsHands(s: State, v: Version, outcome: WriteOutcome)
    requires HandsOk(s)
    ensures HandsOk(Stored(s, v, outcome)) && Stored(s, v, outcome).procs == s.procs
  {
  }

  lemma SaveStepKeepsHands(s: State, pid: nat, outcome: WriteOutcome)
    requires HandsOk(s) && pid in s.procs && s.procs[pid].FillTry?
    ensures HandsOk(SaveFillStep(s, pid, outcome))
  {
    hide HandsOk;
    var p := s.procs[pid];
    SaveKeepsHands(s, pid, p.fill, p.retries);
    FinishKeepsHands(s, pid);
    RetryKeepsHands(s, pid, p);
    RetryKeepsHands(s.(saved := s.saved + {p.fill}), pid, p);
  }

  lemma BookStepKeepsHands(s: State, pid: nat, booking: Booking)
    requires HandsOk(s) && pid in s.procs && s.procs[pid].FillBooking?
    ensures HandsOk(BookStep(s, pid, booking))
  {
    hide HandsOk;
    var p := s.procs[pid];
    FinishKeepsHands(s, pid);
    RetryKeepsHands(s, pid, p);
    BookKeepsHands(s, pid, FillAnnouncing(p.fill, p.retries));
    BookKeepsHands(s, pid, FillTry(p.fill, p.retries + 1));
  }

  lemma WriteStepKeepsHands(s: State, pid: nat, outcome: WriteOutcome)
    requires HandsOk(s) && pid in s.procs
    ensures HandsOk(WriteStep(s, pid, outcome))
  {
    hide Stored;
    var p := s.procs[pid];
    if p.Holds() {
      var s' := Stored(s, p.v, outcome);
      StoredKeepsHands(s, p.v, outcome);
      hide HandsOk;
      FinishKeepsHands(s', pid);
      if p.FillWriting? {
        GotoKeepsHands(s', pid, FillBooking(p.fill, p.retries));
      }
      if p.PlaceSaving? {
        GotoKeepsHands(s', pid, PlaceSent(p.v.order.id));
      }
      if p.FillWriting? || p.UpdateWriting? {
        RetryKeepsHands(s', pid, p);
      }
    }
  }

  lemma LoadStepKeepsHands(s: State, pid: nat, ok: bool, now: int)
    requires HandsOk(s) && pid in s.procs
    ensures HandsOk(LoadStep(s, pid, ok, now))
  {
    hide HandsOk, Change;
    var p := s.procs[pid];
    FinishKeepsHands(s, pid);
    if p.FillSaved? || p.UpdateTry? {
      RetryKeepsHands(s, pid, p);
    }
    var t := LoadStep(s, pid, ok, now);
    if pid in t.procs && t == Goto(s, pid, t.procs[pid]) {
      GotoKeepsHands(s, pid, t.procs[pid]);
    }
  }

  lemma NextKeepsHands(s: State, a: Action)
    requires HandsOk(s)
    ensures HandsOk(Next(s, a))
  {
    hide HandsOk, Change, ValidateForSubmission, SaveFillStep, BookStep, WriteStep, LoadStep;
    match a
    case Evict(keys) => EvictKeepsHands(s, keys);
    case SaveFill(pid, outcome) =>
      if pid in s.procs && s.procs[pid].FillTry? {
        SaveStepKeepsHands(s, pid, outcome);
      }
    case Book(pid, booking) =>
      if pid in s.procs && s.procs[pid].FillBooking? {
        BookStepKeepsHands(s, pid, booking);
      }
    case Announce(pid, ok) =>
      if pid in s.procs && s.procs[pid].FillAnnouncing? {
        AnnounceKeepsHands(s, pid, s.processed + {KeyOf(s.procs[pid].fill)});
        RetryKeepsHands(s, pid, s.procs[pid]);
      }
    case Load(pid, ok, now) =>
      if pid in s.procs {
        LoadStepKeepsHands(s, pid, ok, now);
      }
    case Write(pid, outcome) =>
      if pid in s.procs {
        WriteStepKeepsHands(s, pid, outcome);
      }
    case _ =>
      var t := Next(s, a);
      FinishKeepsHands(s, a.pid);
      if a.pid in t.procs && !t.procs[a.pid].HasFill() {
        GotoKeepsHands(s, a.pid, t.procs[a.pid]);
      }
  }

  lemma EvictKeepsHands(s: State, keys: set<FillKey>)
    requires HandsOk(s)
    ensures HandsOk(s.(processed := s.processed - keys))
  {
  }

  lemma {:induction false} ExecKeepsHands(s: State, actions: seq<Action>)
    requires HandsOk(s)
    ensures HandsOk(Exec(s, actions))
    decreases |actions|
  {
    hide HandsOk;
    if actions != [] {
      ExecKeepsHands(s, Front(actions));
      NextKeepsHands(Exec(s, Front(actions)), Last(actions));
    }
  }

  /** Under every interleaving, failure pattern, retry, redelivery and eviction, the
      position write of a fill takes effect at most once and its OrderFilled event is
      published at most once by its handlers, after that write. */
  lemma NoFillIsBookedTwice(maxRetries: nat, actions: seq<Action>)
    ensures var s := Exec(Initial(maxRetries), actions);
            && Distinct(s.booked) && Distinct(s.announced)
            && (forall f :: f in s.announced ==> f in s.booked) && (forall f :: f in s.booked ==> f in s.saved)
  {
    ExecKeepsHands(Initial(maxRetries), actions);
  }
}
