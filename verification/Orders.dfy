/** The order entity and its status machine (crates/domain/src/entities.rs).

    `OrderData` is the value a repository stores and clones; `Order` is the entity
    whose methods change their fields. Every operation of `Order` is specified by a
    function on `OrderData`, and the run lemmas are about those functions. */
module Orders {
  import opened Values
  import opened Fills

  datatype OrderType = Market | Limit | Stop | StopLimit

  datatype OrderStatus =
    | Created
    | Submitted(at: int)
    | Pending(at: int)
    | PartiallyFilled(filled: Decimal, remaining: Decimal, avgPrice: Decimal)
    | Filled(at: int)
    | Cancelled(at: int, reason: string)
    | Rejected(at: int, reason: string)
  {
    predicate IsActive() {
      Created? || Submitted? || Pending? || PartiallyFilled?
    }

    predicate IsTerminal() {
      Filled? || Cancelled? || Rejected?
    }

    predicate CanCancel() {
      Created? || Submitted? || Pending? || PartiallyFilled?
    }

    predicate SameVariant(other: OrderStatus) {
      match this
      case Created => other.Created?
      case Submitted(_) => other.Submitted?
      case Pending(_) => other.Pending?
      case PartiallyFilled(_, _, _) => other.PartiallyFilled?
      case Filled(_) => other.Filled?
      case Cancelled(_, _) => other.Cancelled?
      case Rejected(_, _) => other.Rejected?
    }

    /** How far along its life an order with this status is. */
    function Rank(): nat {
      match this
      case Created => 0
      case Submitted(_) => 1
      case Pending(_) => 2
      case PartiallyFilled(_, _, _) => 3
      case _ => 4
    }
  }

  datatype OrderError =
    | InvalidStateTransition(from: OrderStatus, to: OrderStatus)
    | OrderValidation
    | InvalidQuantity

  datatype OrderData = OrderData(
    id: nat,
    symbol: Symbol,
    side: Side,
    orderType: OrderType,
    quantity: Quantity,
    filled: Decimal,
    limitPrice: Option<Price>,
    stopPrice: Option<Price>,
    status: OrderStatus,
    updatedAt: int)
  {
    function Remaining(): Decimal {
      quantity - filled
    }
  }

  // ------------------------------------------------------------- operations

  /** `is_valid_transition`. The table comes to this: staying is always allowed; an
      active order may be cancelled or rejected, may move to the next active status,
      and from Pending on may become Filled; nothing leaves a terminal status. */
  predicate IsValidTransition(from: OrderStatus, to: OrderStatus): (ok: bool)
    ensures ok <==> from.SameVariant(to)
                    || (from.IsActive()
                        && (to.Cancelled? || to.Rejected? || (to.Filled? && from.Rank() >= 2)
                            || (to.IsActive() && to.Rank() == from.Rank() + 1)))
  {
    if from.SameVariant(to) then true
    else match from
      case Created => to.Submitted? || to.Cancelled? || to.Rejected?
      case Submitted(_) => to.Pending? || to.Rejected? || to.Cancelled?
      case Pending(_) => to.PartiallyFilled? || to.Filled? || to.Rejected? || to.Cancelled?
      case PartiallyFilled(_, _, _) => to.Filled? || to.Cancelled? || to.Rejected?
      case _ => false
  }

  function SetStatus(o: OrderData, status: OrderStatus, now: int): Result<OrderData, OrderError> {
    if IsValidTransition(o.status, status)
    then Ok(o.(status := status, updatedAt := now))
    else Err(InvalidStateTransition(o.status, status))
  }

  /** `calculate_avg_fill_price`, where `o` already has its new filled quantity. */
  function AvgFillPrice(o: OrderData, fill: Fill): Decimal
    requires o.filled != 0.0
  {
    var prevFilled := o.filled - fill.quantity;
    if prevFilled == 0.0 then fill.price
    else
      var prevAvg := if o.status.PartiallyFilled? then o.status.avgPrice else fill.price;
      Blend(prevAvg, prevFilled, NotionalOf(fill), fill.quantity)
  }

  function ApplyFill(o: OrderData, fill: Fill, now: int): Result<OrderData, OrderError>
    requires o.filled >= 0.0
  {
    if !o.status.IsActive() then Err(OrderValidation)
    else if fill.quantity > o.Remaining() then Err(InvalidQuantity)
    else
      var o' := o.(filled := o.filled + fill.quantity);
      var status :=
        if o'.Remaining() == 0.0 then Filled(now)
        else PartiallyFilled(o'.filled, o'.Remaining(), AvgFillPrice(o', fill));
      Ok(o'.(status := status, updatedAt := now))
  }

  function CancelWith(o: OrderData, reason: string, now: int): Result<OrderData, OrderError> {
    if o.status.CanCancel() then Ok(o.(status := Cancelled(now, reason), updatedAt := now))
    else Err(OrderValidation)
  }

  function RejectWith(o: OrderData, reason: string, now: int): Result<OrderData, OrderError> {
    if o.status.IsTerminal() then Err(OrderValidation)
    else Ok(o.(status := Rejected(now, reason), updatedAt := now))
  }

  /** `validate_for_submission` */
  function ValidateForSubmission(o: OrderData): Result<Unit, OrderError> {
    if o.symbol == "" then Err(OrderValidation)
    else if o.quantity <= 0.0 then Err(InvalidQuantity)
    else if (o.orderType.Limit? || o.orderType.StopLimit?) && o.limitPrice.None? then Err(OrderValidation)
    else if (o.orderType.Stop? || o.orderType.StopLimit?) && o.stopPrice.None? then Err(OrderValidation)
    else if !o.status.Created? then Err(OrderValidation)
    else Ok(Unit.Unit)
  }

  /** Submission takes exactly the Created orders of a named symbol that carry the
      prices their type needs; whether a price carried in vain is there is no matter. */
  lemma ValidIff(o: OrderData)
    ensures ValidateForSubmission(o).Ok? <==>
              && o.symbol != "" && o.status == Created
              && (o.orderType in {Market, Stop} || o.limitPrice != None)
              && (o.orderType in {Market, Limit} || o.stopPrice != None)
  {
  }

  datatype OrderOp =
    | UpdateStatusOp(status: OrderStatus, now: int)
    | FillOp(fill: Fill, now: int)
    | CancelOp(reason: string, now: int)
    | RejectOp(reason: string, now: int)

  function Perform(o: OrderData, op: OrderOp): Result<OrderData, OrderError>
    requires o.filled >= 0.0
  {
    match op
    case UpdateStatusOp(status, now) => SetStatus(o, status, now)
    case FillOp(fill, now) => ApplyFill(o, fill, now)
    case CancelOp(reason, now) => CancelWith(o, reason, now)
    case RejectOp(reason, now) => RejectWith(o, reason, now)
  }

  /** A failed operation leaves the order as it was. */
  function Step(o: OrderData, op: OrderOp): (r: OrderData)
    requires o.filled >= 0.0
    ensures r.filled >= o.filled
    ensures r == r.(filled := r.filled, status := r.status, updatedAt := r.updatedAt)
  {
    match Perform(o, op)
    case Ok(o') => o'
    case Err(_) => o
  }

  function Run(o: OrderData, ops: seq<OrderOp>): (r: OrderData)
    requires o.filled >= 0.0
    ensures r.filled >= o.filled
  {
    if ops == [] then o else Step(Run(o, Front(ops)), Last(ops))
  }

  /** The fills that `Order::fill` accepted in a run, in order. */
  function Accepted(o: OrderData, ops: seq<OrderOp>): seq<Fill>
    requires o.filled >= 0.0
  {
    if ops == [] then []
    else
      var before := Accepted(o, Front(ops));
      if Last(ops).FillOp? && Perform(Run(o, Front(ops)), Last(ops)).Ok?
      then before + [Last(ops).fill]
      else before
  }

  // -------------------------------------------------------------- invariants

  /** What the constructors give: nothing filled, Created (`new_with_id`) or Pending (`new`). */
  predicate Fresh(o: OrderData) {
    o.filled == 0.0 && (o.status.Created? || o.status.Pending?)
  }

  /** The invariant the entity documents, and the one that keeps the average-price
      fallback out of reach: an active order with something filled is PartiallyFilled. */
  predicate Sound(o: OrderData) {
    && 0.0 <= o.filled <= o.quantity
    && (o.status.IsActive() && o.filled > 0.0 ==> o.status.PartiallyFilled?)
  }

  lemma StepKeepsSound(o: OrderData, op: OrderOp)
    requires Sound(o)
    ensures Sound(Step(o, op)) && Step(o, op).quantity == o.quantity && Step(o, op).id == o.id
  {
    hide Blend;
  }

  /** Every run keeps the order sound, and its filled quantity is exactly the sum
      of the fills it accepted. */
  lemma {:induction false} RunAccounting(o: OrderData, ops: seq<OrderOp>)
    requires Fresh(o)
    ensures Sound(Run(o, ops)) && Run(o, ops).quantity == o.quantity && Run(o, ops).id == o.id
    ensures Run(o, ops).filled == Sum(QuantityOf, Accepted(o, ops))
    decreases |ops|
  {
    if ops != [] {
      var before := Run(o, Front(ops));
      RunAccounting(o, Front(ops));
      StepKeepsSound(before, Last(ops));
      if Last(ops).FillOp? && Perform(before, Last(ops)).Ok? {
        SumSnoc(QuantityOf, Accepted(o, Front(ops)), Last(ops).fill);
      }
    }
  }

  // -------------------------------------------------------------- completion

  /** `fill` refuses terminal orders first and then what is more than remains. A fill
      it takes completes the order exactly when nothing remains, and leaves it
      PartiallyFilled with what is filled and what remains otherwise. */
  lemma FillOutcome(o: OrderData, fill: Fill, now: int)
    requires Sound(o)
    ensures var r := ApplyFill(o, fill, now);
            && (r == Err(OrderValidation) <==> o.status.IsTerminal())
            && (r == Err(InvalidQuantity) <==> !o.status.IsTerminal() && o.filled + fill.quantity > o.quantity)
            && (r.Ok? ==>
                  && r.value.filled == o.filled + fill.quantity
                  && (r.value.filled == o.quantity <==> r.value.status == Filled(now))
                  && (r.value.filled < o.quantity <==> r.value.status.PartiallyFilled?)
                  && (r.value.status.PartiallyFilled? ==>
                        r.value.status.filled == r.value.filled
                        && r.value.status.remaining == o.quantity - r.value.filled
                        && (o.filled == 0.0 ==> r.value.status.avgPrice == fill.price)))
  {
    hide Blend, NotionalOf;
  }

  /** A status update from outside has set Filled, and the order accepted it. */
  predicate FilledFromOutside(o: OrderData, ops: seq<OrderOp>)
    requires o.filled >= 0.0
  {
    ops != [] &&
    (FilledFromOutside(o, Front(ops))
     || (Last(ops).UpdateStatusOp? && Last(ops).status.Filled? && Perform(Run(o, Front(ops)), Last(ops)).Ok?
         && Run(o, Front(ops)).filled < o.quantity))
  }

  /** Over every run an order is Filled exactly when its fills add up to its quantity,
      or an update from outside declared it Filled before they did. */
  lemma {:induction false} FilledIff(o: OrderData, ops: seq<OrderOp>)
    requires Fresh(o)
    ensures Run(o, ops).status.Filled? <==> Run(o, ops).filled == o.quantity || FilledFromOutside(o, ops)
    decreases |ops|
  {
    if ops != [] {
      var before, op := Run(o, Front(ops)), Last(ops);
      FilledIff(o, Front(ops));
      RunAccounting(o, Front(ops));
      hide Blend, Sum;
      if op.FillOp? {
        FillOutcome(before, op.fill, op.now);
      }
    }
  }

  // ----------------------------------------------------- where a status is from

  /** The last operation of the run that the order accepted. */
  function LastAccepted(o: OrderData, ops: seq<OrderOp>): Option<OrderOp>
    requires o.filled >= 0.0
  {
    if ops == [] then None
    else if Perform(Run(o, Front(ops)), Last(ops)).Ok? then Some(Last(ops))
    else LastAccepted(o, Front(ops))
  }

  /** Over every run, status and time of change are those of the last operation that
      was accepted: the status an update gave, payload included, the given reason for
      a cancellation or rejection, and for a fill what `FillOutcome` says. */
  lemma {:induction false} StatusIsLastAccepted(o: OrderData, ops: seq<OrderOp>)
    requires Fresh(o)
    ensures var r := Run(o, ops);
            match LastAccepted(o, ops)
            case None => r == o
            case Some(UpdateStatusOp(status, now)) => r.status == status && r.updatedAt == now
            case Some(CancelOp(reason, now)) => r.status == Cancelled(now, reason) && r.updatedAt == now
            case Some(RejectOp(reason, now)) => r.status == Rejected(now, reason) && r.updatedAt == now
            case Some(FillOp(_, now)) =>
              (r.status.PartiallyFilled? || r.status == Filled(now)) && r.updatedAt == now
    decreases |ops|
  {
    if ops != [] {
      StatusIsLastAccepted(o, Front(ops));
      RunAccounting(o, Front(ops));
      hide Blend, Sum;
    }
  }

  /** When an operation is accepted: an update by the transition table, a cancellation
      while active, a rejection until terminal, a fill while active and within what
      remains. Otherwise nothing changes, and the error names what was asked for. */
  lemma AcceptedIff(o: OrderData, op: OrderOp)
    requires Sound(o)
    ensures var accepted := match op
              case UpdateStatusOp(status, _) => IsValidTransition(o.status, status)
              case FillOp(fill, _) => o.status.Rank() < 4 && o.filled + fill.quantity <= o.quantity
              case CancelOp(_, _) => o.status.Rank() < 4
              case RejectOp(_, _) => o.status.Rank() < 4;
            var error := match op
              case UpdateStatusOp(status, _) => InvalidStateTransition(o.status, status)
              case FillOp(_, _) => if o.status.Rank() < 4 then InvalidQuantity else OrderValidation
              case _ => OrderValidation;
            && (accepted ==> Perform(o, op).Ok?)
            && (!accepted ==> Step(o, op) == o && Perform(o, op) == Err(error))
  {
    hide Blend;
  }

  // ---------------------------------------------------------- average price

  /** No PartiallyFilled status arrives from outside: it is entered through `fill` only. */
  predicate FillDriven(ops: seq<OrderOp>) {
    forall i :: 0 <= i < |ops| && ops[i].UpdateStatusOp? ==> !ops[i].status.PartiallyFilled?
  }

  /** The payload of a partially filled order describes the fills it covers. */
  predicate PayloadDescribes(o: OrderData, fills: seq<Fill>) {
    o.status.PartiallyFilled? ==>
      && fills != []
      && o.status.filled == o.filled
      && o.status.remaining == o.Remaining() > 0.0
      && o.status.avgPrice == Aggregated(fills, Exact).avgPrice
  }

  lemma FillKeepsPayload(o: OrderData, fills: seq<Fill>, fill: Fill, now: int)
    requires Sound(o) && PayloadDescribes(o, fills) && o.filled == Sum(QuantityOf, fills)
    requires ApplyFill(o, fill, now).Ok?
    ensures PayloadDescribes(ApplyFill(o, fill, now).value, fills + [fill])
  {
    FrontLast(fills, fill);
    assert Aggregated(fills + [fill], Exact) == Accumulate(Aggregated(fills, Exact), fill, 0.0);
    hide Blend, NotionalOf, Sum, Aggregated;
  }

  lemma OtherOpsKeepPayload(o: OrderData, fills: seq<Fill>, op: OrderOp)
    requires Sound(o) && PayloadDescribes(o, fills) && !op.FillOp?
    requires op.UpdateStatusOp? ==> !op.status.PartiallyFilled?
    ensures PayloadDescribes(Step(o, op), fills)
  {
  }

  lemma {:induction false} PayloadInvariant(o: OrderData, ops: seq<OrderOp>)
    requires Fresh(o) && FillDriven(ops)
    ensures PayloadDescribes(Run(o, ops), Accepted(o, ops))
    decreases |ops|
  {
    if ops != [] {
      var before, fills, op := Run(o, Front(ops)), Accepted(o, Front(ops)), Last(ops);
      PayloadInvariant(o, Front(ops));
      RunAccounting(o, Front(ops));
      hide PayloadDescribes, ApplyFill, Sound;
      if !op.FillOp? {
        OtherOpsKeepPayload(before, fills, op);
      } else if Perform(before, op).Ok? {
        FillKeepsPayload(before, fills, op.fill, op.now);
      }
    }
  }

  /** When PartiallyFilled is entered only through `fill`, its payload agrees with
      the order, something remains, and the average is total notional over total
      quantity of every fill accepted so far: the same average that
      `FillAggregation::from_fills` computes from those fills. */
  lemma FillDrivenAverage(o: OrderData, ops: seq<OrderOp>)
    requires Fresh(o) && FillDriven(ops)
    ensures var (r, fills) := (Run(o, ops), Accepted(o, ops));
            r.status.PartiallyFilled? ==>
              && r.status.filled == r.filled
              && r.status.remaining == r.quantity - r.filled > 0.0
              && r.status.avgPrice == Aggregated(fills, Exact).avgPrice
              && r.status.avgPrice * r.filled == Sum(NotionalOf, fills)
  {
    hide Blend, NotionalOf, Run, Accepted, Aggregated, Accumulate, Sum;
    PayloadInvariant(o, ops);
    RunAccounting(o, ops);
    RunningAverageIsWeightedMean(Accepted(o, ops));
  }

  /** A payload that arrived through `update_status` is trusted by the next fill:
      that fill leaves an exact average exactly when it found one. `notional` is
      what the filled quantity really cost. */
  lemma AverageExactIff(o: OrderData, fill: Fill, now: int, notional: real)
    requires Sound(o) && o.filled > 0.0
    requires o.status.PartiallyFilled? && fill.quantity < o.Remaining()
    ensures var r := ApplyFill(o, fill, now);
            && r.Ok? && r.value.status.PartiallyFilled?
            && (r.value.status.avgPrice * r.value.filled == notional + NotionalOf(fill)
                <==> o.status.avgPrice * o.filled == notional)
  {
    BlendOfMean(o.status.avgPrice, o.filled, o.status.avgPrice * o.filled, NotionalOf(fill), fill.quantity);
    hide Blend, NotionalOf;
  }

  /** What the average says the filled quantity cost, less what it did cost. */
  function Excess(o: OrderData, fills: seq<Fill>): (e: real)
    ensures !o.status.PartiallyFilled? ==> e == 0.0
  {
    if o.status.PartiallyFilled? then o.status.avgPrice * o.filled - Sum(NotionalOf, fills) else 0.0
  }

  /** How far the last accepted PartiallyFilled payload from outside was off when it
      arrived: its average times the filled quantity, less what that quantity had
      really cost. Nothing, if there was no such payload. */
  function Drift(o: OrderData, ops: seq<OrderOp>): real
    requires o.filled >= 0.0
  {
    if ops == [] then 0.0
    else if PayloadStored(Run(o, Front(ops)), Last(ops))
    then Excess(Run(o, ops), Accepted(o, ops))
    else Drift(o, Front(ops))
  }

  /** A broker update brings a PartiallyFilled payload, and it is accepted. */
  predicate PayloadStored(o: OrderData, op: OrderOp)
    requires o.filled >= 0.0
  {
    op.UpdateStatusOp? && op.status.PartiallyFilled? && Perform(o, op).Ok?
  }

  lemma FillKeepsExcess(o: OrderData, fills: seq<Fill>, fill: Fill, now: int)
    requires Sound(o) && (o.filled == 0.0 ==> fills == [])
    requires ApplyFill(o, fill, now).Ok? && ApplyFill(o, fill, now).value.status.PartiallyFilled?
    ensures Excess(ApplyFill(o, fill, now).value, fills + [fill]) == Excess(o, fills)
  {
    SumSnoc(NotionalOf, fills, fill);
    if o.filled > 0.0 {
      AverageExactIff(o, fill, now, o.status.avgPrice * o.filled);
      hide Blend, Sum;
    }
  }

  lemma {:induction false} NothingFilledYet(o: OrderData, ops: seq<OrderOp>)
    requires Fresh(o) && Run(o, ops).filled == 0.0
    ensures Accepted(o, ops) == [] && Drift(o, ops) == 0.0
    decreases |ops|
  {
    if ops != [] {
      NothingFilledYet(o, Front(ops));
    }
  }

  lemma OpKeepsExcess(o: OrderData, op: OrderOp, fills: seq<Fill>)
    requires Sound(o) && (o.filled == 0.0 ==> fills == [])
    requires Step(o, op).status.PartiallyFilled? && !PayloadStored(o, op)
    ensures var taken := op.FillOp? && Perform(o, op).Ok?;
            Excess(Step(o, op), if taken then fills + [op.fill] else fills) == Excess(o, fills)
    ensures o.status.PartiallyFilled? || o.filled == 0.0
  {
    hide Blend, Sum, Fresh;
    if op.FillOp? && Perform(o, op).Ok? {
      FillKeepsExcess(o, fills, op.fill, op.now);
    }
  }

  lemma {:induction false} ExcessIsDrift(o: OrderData, ops: seq<OrderOp>)
    requires Fresh(o) && Run(o, ops).status.PartiallyFilled?
    ensures Excess(Run(o, ops), Accepted(o, ops)) == Drift(o, ops)
    decreases |ops|
  {
    hide Sum, Blend, ApplyFill, Excess;
    if ops != [] && !PayloadStored(Run(o, Front(ops)), Last(ops)) {
      var before := Run(o, Front(ops));
      RunAccounting(o, Front(ops));
      if before.filled == 0.0 {
        NothingFilledYet(o, Front(ops));
      }
      OpKeepsExcess(before, Last(ops), Accepted(o, Front(ops)));
      if before.status.PartiallyFilled? {
        ExcessIsDrift(o, Front(ops));
      }
    }
  }

  /** Over any run, whatever payloads arrive through `update_status`: the average of a
      partially filled order is off by what the last such payload was off when it
      arrived. So it is exact if and only if that payload's average was. */
  lemma AverageExactOverRuns(o: OrderData, ops: seq<OrderOp>)
    requires Fresh(o) && Run(o, ops).status.PartiallyFilled?
    ensures var (r, notional) := (Run(o, ops), Sum(NotionalOf, Accepted(o, ops)));
            && r.status.avgPrice * r.filled - notional == Drift(o, ops)
            && (r.status.avgPrice * r.filled == notional <==> Drift(o, ops) == 0.0)
  {
    hide Run, Accepted, Drift, Sum, Step, Perform, NotionalOf, Fresh;
    ExcessIsDrift(o, ops);
  }

  /** Without that restriction the average can be wrong: a broker update carrying
      another payload is stored as it is. */
  lemma ForeignPayloadBreaksAverage()
    returns (o: OrderData, ops: seq<OrderOp>)
    ensures Fresh(o) && Run(o, ops).status.PartiallyFilled?
    ensures Accepted(o, ops) != []
    ensures Run(o, ops).status.avgPrice * Run(o, ops).filled != Sum(NotionalOf, Accepted(o, ops))
    ensures Run(o, ops).status.filled != Run(o, ops).filled
  {
    hide Blend;
    o := OrderData(0, "ES", Buy, Market, 3.0, 0.0, None, None, OrderStatus.Pending(0), 0);
    var fill := Fill(0, "ES", 1.0, 10.0, Buy, 1, None);
    var op1, op2 := FillOp(fill, 1), UpdateStatusOp(PartiallyFilled(2.0, 1.0, 99.0), 2);
    var o1 := o.(filled := 1.0, status := PartiallyFilled(1.0, 2.0, 10.0), updatedAt := 1);
    var o2 := o1.(status := op2.status, updatedAt := 2);
    ops := [op1, op2];
    RunOfTwo(o, op1, op2);
    assert Perform(o, op1) == Ok(o1);
    assert Perform(o1, op2) == Ok(o2);
    assert Run(o, ops) == o2;
    assert Accepted(o, ops) == [fill];
    assert Sum(NotionalOf, [fill]) == 10.0 by {
      SumSnoc(NotionalOf, [], fill);
      assert [] + [fill] == [fill];
    }
  }

  lemma RunOfTwo(o: OrderData, a: OrderOp, b: OrderOp)
    requires o.filled >= 0.0
    ensures Run(o, [a, b]) == Step(Step(o, a), b)
    ensures !b.FillOp? && a.FillOp? && Perform(o, a).Ok? ==> Accepted(o, [a, b]) == [a.fill]
  {
    hide Step, Perform;
    assert Front([a, b]) == [a] && Front([a]) == [];
    assert Run(o, [a]) == Step(o, a);
    assert Accepted(o, []) == [];
  }

  // ---------------------------------------------------------------- progress

  /** How often the variant changes in a run. */
  function VariantChanges(o: OrderData, ops: seq<OrderOp>): nat
    requires o.filled >= 0.0
  {
    if ops == [] then 0
    else
      var before := Run(o, Front(ops));
      VariantChanges(o, Front(ops)) +
        (if before.status.SameVariant(Step(before, Last(ops)).status) then 0 else 1)
  }

  /** A step keeps the variant or moves strictly up; a terminal variant stays. */
  lemma StepClimbs(o: OrderData, op: OrderOp)
    requires Sound(o)
    ensures o.status.SameVariant(Step(o, op).status) || o.status.Rank() < Step(o, op).status.Rank()
    ensures o.status.IsTerminal() ==> o.status.SameVariant(Step(o, op).status)
  {
  }

  lemma {:induction false} RunFrom(o: OrderData, ops: seq<OrderOp>)
    requires Sound(o)
    ensures Sound(Run(o, ops)) && Run(o, ops).quantity == o.quantity
    ensures o.status.Rank() + VariantChanges(o, ops) <= Run(o, ops).status.Rank()
    ensures o.status.IsTerminal() ==> o.status.SameVariant(Run(o, ops).status)
    decreases |ops|
  {
    hide Blend;
    if ops != [] {
      RunFrom(o, Front(ops));
      StepKeepsSound(Run(o, Front(ops)), Last(ops));
      StepClimbs(Run(o, Front(ops)), Last(ops));
    }
  }

  /** Over any run the rank never falls, a terminal variant is final, and the
      variant changes at most four times. */
  lemma ProgressIsBounded(o: OrderData, ops: seq<OrderOp>, more: seq<OrderOp>)
    requires Fresh(o)
    ensures VariantChanges(o, ops) <= 4
    ensures Run(o, ops).status.Rank() <= Run(Run(o, ops), more).status.Rank()
    ensures Run(o, ops).status.IsTerminal() ==>
              Run(o, ops).status.SameVariant(Run(Run(o, ops), more).status)
  {
    RunFrom(o, ops);
    RunFrom(Run(o, ops), more);
  }

  // ------------------------------------------------------------- the entity

  /** The new value is the specified one, and after an error nothing has changed. */
  predicate Outcome(r: Result<Unit, OrderError>, before: OrderData, after: OrderData,
                    spec: Result<OrderData, OrderError>) {
    match spec
    case Ok(o) => r == Ok(Unit.Unit) && after == o
    case Err(e) => r == Err(e) && after == before
  }

  class Order {
    const base: OrderData
    var filledQuantity: Decimal
    var status: OrderStatus
    var updatedAt: int

    function Data(): OrderData
      reads this
    {
      base.(filled := filledQuantity, status := status, updatedAt := updatedAt)
    }

    constructor (o: OrderData)
      ensures Data() == o
    {
      base := o;
      filledQuantity, status, updatedAt := o.filled, o.status, o.updatedAt;
    }

    method UpdateStatus(newStatus: OrderStatus, now: int) returns (r: Result<Unit, OrderError>)
      modifies this
      ensures Outcome(r, old(Data()), Data(), SetStatus(old(Data()), newStatus, now))
    {
      if !IsValidTransition(status, newStatus) {
        return Err(InvalidStateTransition(status, newStatus));
      }
      status := newStatus;
      updatedAt := now;
      r := Ok(Unit.Unit);
    }

    method Fill(fill: Fill, now: int) returns (r: Result<Unit, OrderError>)
      requires Sound(Data())
      modifies this
      ensures Sound(Data())
      ensures Outcome(r, old(Data()), Data(), ApplyFill(old(Data()), fill, now))
      ensures r.Ok? ==> filledQuantity == old(filledQuantity) + fill.quantity
      ensures r.Ok? <==> old(status).IsActive() && fill.quantity <= base.quantity - old(filledQuantity)
    {
      if !status.IsActive() {
        return Err(OrderValidation);
      }
      if fill.quantity > Data().Remaining() {
        return Err(InvalidQuantity);
      }
      filledQuantity := filledQuantity + fill.quantity;
      var remaining := Data().Remaining();
      var avgPrice := AvgFillPrice(Data(), fill);
      status := if remaining == 0.0 then Filled(now) else PartiallyFilled(filledQuantity, remaining, avgPrice);
      updatedAt := now;
      r := Ok(Unit.Unit);
    }

    method Cancel(reason: string, now: int) returns (r: Result<Unit, OrderError>)
      modifies this
      ensures Outcome(r, old(Data()), Data(), CancelWith(old(Data()), reason, now))
    {
      if !status.CanCancel() {
        return Err(OrderValidation);
      }
      status := Cancelled(now, reason);
      updatedAt := now;
      r := Ok(Unit.Unit);
    }

    method Reject(reason: string, now: int) returns (r: Result<Unit, OrderError>)
      modifies this
      ensures Outcome(r, old(Data()), Data(), RejectWith(old(Data()), reason, now))
    {
      if status.IsTerminal() {
        return Err(OrderValidation);
      }
      status := Rejected(now, reason);
      updatedAt := now;
      r := Ok(Unit.Unit);
    }
  }
}
