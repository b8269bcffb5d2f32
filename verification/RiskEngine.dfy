/** The risk engine: the pre-trade gate and the state it reads
    (crates/application/src/risk/engine.rs).

    Reasons are an enumeration; times are milliseconds and may go back, as wall
    clock time does. */
module RiskEngines {
  import opened Values
  import opened Orders
  import opened Positions
  import opened RiskMetrics

  datatype Reason = KillSwitch | BreakerOpen | PositionSize | DailyLoss | Drawdown | TotalExposure | SymbolExposure

  datatype RiskDecision =
    | Allow
    | Reject(reason: Reason)
    | Reduce(maxAllowed: Decimal)

  datatype RiskConfig = RiskConfig(
    maxPositionSize: map<Symbol, Quantity>,
    maxTotalExposure: Decimal,
    dailyLossLimit: Decimal,
    maxDrawdownPct: Decimal,
    maxSymbolExposure: map<Symbol, Decimal>,
    killSwitchEnabled: bool,
    breakerFailures: nat,
    breakerTimeoutSecs: nat)

  datatype BreakerState = Closed | Open | HalfOpen

  datatype RiskState = RiskState(
    dailyRealizedPnl: Decimal,
    dailyUnrealizedPnl: Decimal,
    equityPeak: Decimal,
    currentEquity: Decimal,
    killSwitch: bool,
    breaker: BreakerState,
    failures: nat,
    openedAt: Option<int>,
    history: seq<(int, RiskDecision)>)
  {
    function TotalDailyPnl(): Decimal {
      dailyRealizedPnl + dailyUnrealizedPnl
    }

    function DrawdownPct(): Decimal {
      if equityPeak > 0.0 then (equityPeak - currentEquity) / equityPeak else 0.0
    }
  }

  const INITIAL_EQUITY: Decimal := 100000.0

  const INITIAL_STATE := RiskState(0.0, 0.0, INITIAL_EQUITY, INITIAL_EQUITY, false, Closed, 0, None, [])

  datatype RiskError = InvalidMoney

  // ---------------------------------------------------------------- the gate

  /** The symbol's quantity over all positions, unsigned. */
  function SymbolQuantity(symbol: Symbol, positions: seq<PositionData>): Decimal {
    if positions == [] then 0.0
    else SymbolQuantity(symbol, Front(positions))
         + (if Last(positions).symbol == symbol then Last(positions).quantity else 0.0)
  }

  function ExposureOf(symbol: Symbol, positions: seq<PositionData>): Decimal {
    if positions == [] then 0.0
    else ExposureOf(symbol, Front(positions))
         + (if Last(positions).symbol == symbol then Last(positions).MarketValue() else 0.0)
  }

  function CheckSwitches(s: RiskState): Option<RiskDecision> {
    if s.killSwitch then Some(Reject(KillSwitch))
    else if s.breaker.Open? then Some(Reject(BreakerOpen))
    else None
  }

  function CheckPositionSize(c: RiskConfig, o: OrderData, positions: seq<PositionData>): Option<RiskDecision> {
    if o.symbol !in c.maxPositionSize then None
    else
      var current := SymbolQuantity(o.symbol, positions);
      var max := c.maxPositionSize[o.symbol];
      if current + o.Remaining() > max then
        if max - current <= 0.0 then Some(Reject(PositionSize)) else Some(Reduce(max - current))
      else None
  }

  function CheckDailyLoss(c: RiskConfig, s: RiskState): Option<RiskDecision> {
    if s.TotalDailyPnl() < -c.dailyLossLimit then Some(Reject(DailyLoss)) else None
  }

  function CheckDrawdown(c: RiskConfig, s: RiskState): Option<RiskDecision> {
    if s.DrawdownPct() > c.maxDrawdownPct then Some(Reject(Drawdown)) else None
  }

  function OrderValue(o: OrderData, price: Price): Decimal {
    Abs(price * o.Remaining())
  }

  /** `Money::new` refuses a negative amount. */
  function ToMoney(amount: Decimal): Result<Decimal, RiskError> {
    if amount < 0.0 then Err(InvalidMoney) else Ok(amount)
  }

  function CheckTotalExposure(c: RiskConfig, o: OrderData, positions: seq<PositionData>, price: Price)
    : Result<Option<RiskDecision>, RiskError>
  {
    match ToMoney(Sum(MarketValueOf, positions))
    case Err(e) => Err(e)
    case Ok(total) =>
      Ok(if total + OrderValue(o, price) > c.maxTotalExposure then Some(Reject(TotalExposure)) else None)
  }

  function CheckSymbolExposure(c: RiskConfig, o: OrderData, positions: seq<PositionData>, price: Price)
    : Result<Option<RiskDecision>, RiskError>
  {
    if o.symbol !in c.maxSymbolExposure then Ok(None)
    else match ToMoney(ExposureOf(o.symbol, positions))
      case Err(e) => Err(e)
      case Ok(exposure) =>
        Ok(if exposure + OrderValue(o, price) > c.maxSymbolExposure[o.symbol] then Some(Reject(SymbolExposure)) else None)
  }

  /** `check_pre_trade` when its three reads of the state see s0, s1 and s2. */
  function GateOver(c: RiskConfig, s0: RiskState, s1: RiskState, s2: RiskState,
                    o: OrderData, positions: seq<PositionData>, price: Price): Result<RiskDecision, RiskError> {
    if CheckSwitches(s0).Some? then Ok(CheckSwitches(s0).value)
    else if CheckPositionSize(c, o, positions).Some? then Ok(CheckPositionSize(c, o, positions).value)
    else if CheckDailyLoss(c, s1).Some? then Ok(CheckDailyLoss(c, s1).value)
    else if CheckDrawdown(c, s2).Some? then Ok(CheckDrawdown(c, s2).value)
    else match CheckTotalExposure(c, o, positions, price)
      case Err(e) => Err(e)
      case Ok(Some(d)) => Ok(d)
      case Ok(None) =>
        match CheckSymbolExposure(c, o, positions, price)
        case Err(e) => Err(e)
        case Ok(Some(d)) => Ok(d)
        case Ok(None) => Ok(Allow)
  }

  function Gate(c: RiskConfig, s: RiskState, o: OrderData, positions: seq<PositionData>, price: Price)
    : Result<RiskDecision, RiskError>
  {
    GateOver(c, s, s, s, o, positions, price)
  }

  function HeldQuantity(p: PositionData): real { p.quantity }

  function OfSymbol(symbol: Symbol): PositionData -> bool {
    (p: PositionData) => p.symbol == symbol
  }

  /** What is held of a symbol, in quantity and at market value, and what would be with
      an order's open quantity on top. */
  function Held(symbol: Symbol, positions: seq<PositionData>): Decimal {
    SumWhere(HeldQuantity, OfSymbol(symbol), positions)
  }

  function HeldValue(symbol: Symbol, positions: seq<PositionData>): Decimal {
    SumWhere(MarketValueOf, OfSymbol(symbol), positions)
  }

  /** The limits that do not depend on the engine's state, on the order's open quantity
      and its value at `price`. */
  predicate WithinLimits(c: RiskConfig, o: OrderData, positions: seq<PositionData>, price: Price) {
    var open := o.quantity - o.filled;
    && (o.symbol in c.maxPositionSize ==> Held(o.symbol, positions) + open <= c.maxPositionSize[o.symbol])
    && Sum(MarketValueOf, positions) + price * Abs(open) <= c.maxTotalExposure
    && (o.symbol in c.maxSymbolExposure ==>
          HeldValue(o.symbol, positions) + price * Abs(open) <= c.maxSymbolExposure[o.symbol])
  }

  /** The engine's own sums are those sums. */
  lemma {:induction false} HeldIsSummed(symbol: Symbol, positions: seq<PositionData>)
    ensures SymbolQuantity(symbol, positions) == Held(symbol, positions)
    ensures ExposureOf(symbol, positions) == HeldValue(symbol, positions)
    decreases |positions|
  {
    if positions != [] {
      HeldIsSummed(symbol, Front(positions));
    }
  }

  lemma ValueOfOpenQuantity(o: OrderData, price: Price)
    ensures OrderValue(o, price) == price * Abs(o.quantity - o.filled) >= 0.0
  {
  }

  lemma {:induction false} ExposuresNonNegative(symbol: Symbol, positions: seq<PositionData>)
    requires Valued(positions)
    ensures Sum(MarketValueOf, positions) >= 0.0 && ExposureOf(symbol, positions) >= 0.0
    decreases |positions|
  {
    if positions != [] {
      ExposuresNonNegative(symbol, Front(positions));
      ValueIsNonNegative(Last(positions));
    }
  }

  /** The gate never errs on real positions. It allows an order exactly when the kill
      switch is off and the breaker not open at its first read, the daily loss is
      within its limit at the second, the drawdown at the third, and the order's open
      quantity fits into the position limit and, at the given price, into the total
      and the symbol's exposure limit. */
  lemma AllowIff(c: RiskConfig, s0: RiskState, s1: RiskState, s2: RiskState,
                 o: OrderData, positions: seq<PositionData>, price: Price)
    requires Valued(positions)
    ensures GateOver(c, s0, s1, s2, o, positions, price).Ok?
    ensures GateOver(c, s0, s1, s2, o, positions, price) == Ok(Allow)
            <==> && !s0.killSwitch && s0.breaker != Open
                 && s1.dailyRealizedPnl + s1.dailyUnrealizedPnl >= -c.dailyLossLimit
                 && s2.DrawdownPct() <= c.maxDrawdownPct
                 && WithinLimits(c, o, positions, price)
  {
    ExposuresNonNegative(o.symbol, positions);
    HeldIsSummed(o.symbol, positions);
    ValueOfOpenQuantity(o, price);
    hide Sum, ExposureOf, SymbolQuantity, Held, HeldValue, OrderValue, RiskState.DrawdownPct;
  }

  /** Whether what a rejection names is really so. */
  predicate Violated(reason: Reason, c: RiskConfig, s0: RiskState, s1: RiskState, s2: RiskState,
                     o: OrderData, positions: seq<PositionData>, price: Price) {
    var open := o.quantity - o.filled;
    match reason
    case KillSwitch => s0.killSwitch
    case BreakerOpen => s0.breaker.Open?
    case PositionSize =>
      o.symbol in c.maxPositionSize
      && c.maxPositionSize[o.symbol] <= Held(o.symbol, positions)
      && c.maxPositionSize[o.symbol] < Held(o.symbol, positions) + open
    case DailyLoss => s1.dailyRealizedPnl + s1.dailyUnrealizedPnl < -c.dailyLossLimit
    case Drawdown => s2.DrawdownPct() > c.maxDrawdownPct
    case TotalExposure => Sum(MarketValueOf, positions) + price * Abs(open) > c.maxTotalExposure
    case SymbolExposure =>
      o.symbol in c.maxSymbolExposure
      && HeldValue(o.symbol, positions) + price * Abs(open) > c.maxSymbolExposure[o.symbol]
  }

  /** A position limit that the order would pass still has room. */
  predicate HasRoom(c: RiskConfig, o: OrderData, positions: seq<PositionData>) {
    o.symbol in c.maxPositionSize
    && Held(o.symbol, positions) < c.maxPositionSize[o.symbol] < Held(o.symbol, positions) + (o.quantity - o.filled)
  }

  /** In which order the limits are looked at. */
  function Turn(reason: Reason): nat {
    match reason
    case KillSwitch => 0
    case BreakerOpen => 1
    case PositionSize => 2
    case DailyLoss => 3
    case Drawdown => 4
    case TotalExposure => 5
    case SymbolExposure => 6
  }

  /** Nothing that is looked at before this reason stops the order. */
  predicate NothingBefore(reason: Reason, c: RiskConfig, s0: RiskState, s1: RiskState, s2: RiskState,
                          o: OrderData, positions: seq<PositionData>, price: Price) {
    && (forall first :: Turn(first) < Turn(reason) ==> !Violated(first, c, s0, s1, s2, o, positions, price))
    && (Turn(reason) > Turn(PositionSize) ==> !HasRoom(c, o, positions))
  }

  lemma NothingBeforeIff(reason: Reason, c: RiskConfig, s0: RiskState, s1: RiskState, s2: RiskState,
                         o: OrderData, positions: seq<PositionData>, price: Price)
    ensures NothingBefore(reason, c, s0, s1, s2, o, positions, price) <==>
              && (Turn(reason) > 0 ==> !Violated(KillSwitch, c, s0, s1, s2, o, positions, price))
              && (Turn(reason) > 1 ==> !Violated(BreakerOpen, c, s0, s1, s2, o, positions, price))
              && (Turn(reason) > 2 ==> !Violated(PositionSize, c, s0, s1, s2, o, positions, price) && !HasRoom(c, o, positions))
              && (Turn(reason) > 3 ==> !Violated(DailyLoss, c, s0, s1, s2, o, positions, price))
              && (Turn(reason) > 4 ==> !Violated(Drawdown, c, s0, s1, s2, o, positions, price))
              && (Turn(reason) > 5 ==> !Violated(TotalExposure, c, s0, s1, s2, o, positions, price))
  {
    hide Violated, HasRoom;
  }

  /** The gate rejects for exactly the first thing that is violated; an order that a
      position limit has room for is reduced instead of being rejected for anything
      looked at later; and an allowed order violates nothing. */
  lemma RejectionIsTruthful(c: RiskConfig, s0: RiskState, s1: RiskState, s2: RiskState,
                            o: OrderData, positions: seq<PositionData>, price: Price, reason: Reason)
    requires Valued(positions)
    ensures var r := GateOver(c, s0, s1, s2, o, positions, price);
            && (r == Ok(Reject(reason)) <==>
                  Violated(reason, c, s0, s1, s2, o, positions, price) && NothingBefore(reason, c, s0, s1, s2, o, positions, price))
            && (r == Ok(Allow) ==> !Violated(reason, c, s0, s1, s2, o, positions, price))
  {
    hide Violated, HasRoom, NothingBefore, CheckSwitches, CheckPositionSize, CheckDailyLoss, CheckDrawdown,
      CheckTotalExposure, CheckSymbolExposure;
    ChecksFindViolations(c, s0, s1, s2, o, positions, price);
    NothingBeforeIff(reason, c, s0, s1, s2, o, positions, price);
  }

  lemma ChecksFindViolations(c: RiskConfig, s0: RiskState, s1: RiskState, s2: RiskState,
                             o: OrderData, positions: seq<PositionData>, price: Price)
    requires Valued(positions)
    ensures CheckSwitches(s0) ==
              if Violated(KillSwitch, c, s0, s1, s2, o, positions, price) then Some(Reject(KillSwitch))
              else if Violated(BreakerOpen, c, s0, s1, s2, o, positions, price) then Some(Reject(BreakerOpen))
              else None
    ensures CheckPositionSize(c, o, positions) ==
              if Violated(PositionSize, c, s0, s1, s2, o, positions, price) then Some(Reject(PositionSize))
              else if HasRoom(c, o, positions) then Some(Reduce(c.maxPositionSize[o.symbol] - Held(o.symbol, positions)))
              else None
    ensures CheckDailyLoss(c, s1) ==
              if Violated(DailyLoss, c, s0, s1, s2, o, positions, price) then Some(Reject(DailyLoss)) else None
    ensures CheckDrawdown(c, s2) ==
              if Violated(Drawdown, c, s0, s1, s2, o, positions, price) then Some(Reject(Drawdown)) else None
    ensures CheckTotalExposure(c, o, positions, price) ==
              Ok(if Violated(TotalExposure, c, s0, s1, s2, o, positions, price) then Some(Reject(TotalExposure)) else None)
    ensures CheckSymbolExposure(c, o, positions, price) ==
              Ok(if Violated(SymbolExposure, c, s0, s1, s2, o, positions, price) then Some(Reject(SymbolExposure)) else None)
  {
    hide Sum, ExposureOf, SymbolQuantity, Held, HeldValue, OrderValue, RiskState.DrawdownPct;
    ExposuresNonNegative(o.symbol, positions);
    HeldIsSummed(o.symbol, positions);
    ValueOfOpenQuantity(o, price);
  }

  /** The gate reduces an order exactly when no switch is thrown at its first read and
      the order would pass a position limit that leaves room: the room is the answer,
      whatever the losses, the drawdown and the exposures. */
  lemma ReduceIff(c: RiskConfig, s0: RiskState, s1: RiskState, s2: RiskState,
                  o: OrderData, positions: seq<PositionData>, price: Price, q: Decimal)
    ensures GateOver(c, s0, s1, s2, o, positions, price) == Ok(Reduce(q))
            <==> && !s0.killSwitch && s0.breaker != Open && o.symbol in c.maxPositionSize
                 && var room := c.maxPositionSize[o.symbol] - Held(o.symbol, positions);
                 o.quantity - o.filled > room > 0.0 && q == room
  {
    HeldIsSummed(o.symbol, positions);
    hide Held, Sum, ExposureOf, SymbolQuantity, OrderValue, RiskState.DrawdownPct;
  }

  /** A reduction fills the position limit exactly: it is positive, smaller than the
      order, and the largest quantity the position check lets through. */
  lemma ReduceIsTheLargestAllowed(c: RiskConfig, o: OrderData, positions: seq<PositionData>, smaller: OrderData)
    requires CheckPositionSize(c, o, positions).Some? && CheckPositionSize(c, o, positions).value.Reduce?
    requires smaller.symbol == o.symbol
    ensures var q := CheckPositionSize(c, o, positions).value.maxAllowed;
            && 0.0 < q < o.Remaining()
            && Held(o.symbol, positions) + q == c.maxPositionSize[o.symbol]
            && (CheckPositionSize(c, smaller, positions).None? <==> smaller.Remaining() <= q)
  {
    HeldIsSummed(o.symbol, positions);
    hide SymbolQuantity, Held;
  }

  function SignedHeld(p: PositionData): real { p.side.Signed(p.quantity) }

  /** The symbol's signed net quantity. */
  function NetQuantity(symbol: Symbol, positions: seq<PositionData>): Decimal {
    SumWhere(SignedHeld, OfSymbol(symbol), positions)
  }

  lemma {:induction false} NetWithinGross(symbol: Symbol, positions: seq<PositionData>)
    requires Valued(positions)
    ensures Abs(NetQuantity(symbol, positions)) <= SymbolQuantity(symbol, positions)
    decreases |positions|
  {
    if positions != [] {
      NetWithinGross(symbol, Front(positions));
    }
  }

  /** After Allow, no run of the order's own operations, partial fills included,
      takes the symbol's absolute net quantity above its limit. */
  lemma AllowedOrderStaysWithinLimit(c: RiskConfig, s0: RiskState, s1: RiskState, s2: RiskState,
                                     o: OrderData, positions: seq<PositionData>, price: Price, ops: seq<OrderOp>)
    requires Valued(positions) && Sound(o) && o.symbol in c.maxPositionSize
    requires GateOver(c, s0, s1, s2, o, positions, price) == Ok(Allow)
    ensures var bought := o.side.Signed(Orders.Run(o, ops).filled - o.filled);
            Abs(NetQuantity(o.symbol, positions) + bought) <= c.maxPositionSize[o.symbol]
  {
    hide GateOver, Orders.Run, Sum, ExposureOf, OrderValue, RiskState.DrawdownPct;
    AllowIff(c, s0, s1, s2, o, positions, price);
    HeldIsSummed(o.symbol, positions);
    NetWithinGross(o.symbol, positions);
    RunFrom(o, ops);
    hide SymbolQuantity, NetQuantity, Held, HeldValue;
  }

  /** Nor does any such run take what is held and bought, at the price of the check,
      above the limit on total exposure or the symbol's. */
  lemma AllowedOrderStaysWithinExposure(c: RiskConfig, s0: RiskState, s1: RiskState, s2: RiskState,
                                        o: OrderData, positions: seq<PositionData>, price: Price, ops: seq<OrderOp>)
    requires Valued(positions) && Sound(o)
    requires GateOver(c, s0, s1, s2, o, positions, price) == Ok(Allow)
    ensures var bought := price * (Orders.Run(o, ops).filled - o.filled);
            && Sum(MarketValueOf, positions) + bought <= c.maxTotalExposure
            && (o.symbol in c.maxSymbolExposure ==>
                  HeldValue(o.symbol, positions) + bought <= c.maxSymbolExposure[o.symbol])
  {
    hide *;
    var whole := o.quantity - o.filled;
    AllowedFits(c, s0, s1, s2, o, positions, price, price * Abs(whole));
    FillsWithinOpen(o, ops);
    Scaled(price, Orders.Run(o, ops).filled - o.filled, whole);
  }

  lemma AllowedFits(c: RiskConfig, s0: RiskState, s1: RiskState, s2: RiskState,
                    o: OrderData, positions: seq<PositionData>, price: Price, value: real)
    requires Valued(positions) && value == price * Abs(o.quantity - o.filled)
    requires GateOver(c, s0, s1, s2, o, positions, price) == Ok(Allow)
    ensures Sum(MarketValueOf, positions) + value <= c.maxTotalExposure
    ensures o.symbol in c.maxSymbolExposure ==> HeldValue(o.symbol, positions) + value <= c.maxSymbolExposure[o.symbol]
  {
    AllowIff(c, s0, s1, s2, o, positions, price);
    hide GateOver, Sum, Held, HeldValue, RiskState.DrawdownPct, Abs;
  }

  lemma FillsWithinOpen(o: OrderData, ops: seq<OrderOp>)
    requires Sound(o)
    ensures o.filled >= 0.0 && 0.0 <= Orders.Run(o, ops).filled - o.filled <= o.quantity - o.filled
  {
    RunFrom(o, ops);
    hide Orders.Run;
  }

  lemma Scaled(price: Price, part: real, whole: real)
    requires 0.0 <= part <= whole
    ensures price * part <= price * Abs(whole)
  {
  }

  // --------------------------------------------------------- state operations

  const HISTORY_LIMIT: nat := 100

  function Recorded(s: RiskState, at: int, d: RiskDecision): RiskState {
    var kept := if |s.history| >= HISTORY_LIMIT then s.history[1..] else s.history;
    s.(history := kept + [(at, d)])
  }

  /** A P&L that would make the daily figure negative is refused, and nothing changes. */
  function OnFill(s: RiskState, pnl: Option<Decimal>): Result<RiskState, RiskError> {
    match pnl
    case None => Ok(s.(failures := 0))
    case Some(x) =>
      match ToMoney(s.dailyRealizedPnl + x)
      case Err(e) => Err(e)
      case Ok(total) => Ok(s.(dailyRealizedPnl := total, failures := 0))
  }

  function OnEquity(s: RiskState, equity: Decimal): RiskState {
    s.(currentEquity := equity, equityPeak := if equity > s.equityPeak then equity else s.equityPeak)
  }

  function OnFailure(c: RiskConfig, s: RiskState, now: int): RiskState {
    var counted := s.(failures := s.failures + 1);
    if counted.failures >= c.breakerFailures && s.breaker.Closed?
    then counted.(breaker := Open, openedAt := Some(now))
    else counted
  }

  /** `num_seconds` truncates toward zero, and a negative count cast to u64 wraps. */
  function ElapsedSecs(since: int, now: int): int {
    var millis := now - since;
    var secs := if millis >= 0 then millis / 1000 else -((-millis) / 1000);
    if secs < 0 then secs + 0x1_0000_0000_0000_0000 else secs
  }

  function OnRecoveryCheck(c: RiskConfig, s: RiskState, now: int): RiskState {
    if s.breaker.Open? && s.openedAt.Some? && ElapsedSecs(s.openedAt.value, now) >= c.breakerTimeoutSecs
    then s.(breaker := HalfOpen)
    else s
  }

  function OnRecovery(s: RiskState): RiskState {
    if s.breaker.HalfOpen? then s.(breaker := Closed, failures := 0, openedAt := None) else s
  }

  datatype RiskOp =
    | RecordDecision(at: int, decision: RiskDecision)
    | UpdateOnFill(pnl: Option<Decimal>)
    | UpdateEquity(equity: Decimal)
    | TriggerKillSwitch
    | ResetKillSwitch
    | RecordFailure(now: int)
    | CheckRecovery(now: int)
    | ConfirmRecovery
    | DailyReset

  function After(c: RiskConfig, s: RiskState, op: RiskOp): RiskState {
    match op
    case RecordDecision(at, d) => Recorded(s, at, d)
    case UpdateOnFill(pnl) => if OnFill(s, pnl).Ok? then OnFill(s, pnl).value else s
    case UpdateEquity(equity) => OnEquity(s, equity)
    case TriggerKillSwitch => if c.killSwitchEnabled then s.(killSwitch := true) else s
    case ResetKillSwitch => s.(killSwitch := false)
    case RecordFailure(now) => OnFailure(c, s, now)
    case CheckRecovery(now) => OnRecoveryCheck(c, s, now)
    case ConfirmRecovery => OnRecovery(s)
    case DailyReset => s.(dailyRealizedPnl := 0.0, dailyUnrealizedPnl := 0.0, failures := 0)
  }

  function AfterAll(c: RiskConfig, s: RiskState, ops: seq<RiskOp>): RiskState {
    if ops == [] then s else After(c, AfterAll(c, s, Front(ops)), Last(ops))
  }

  // --------------------------------------------------- what a history implies

  function HighestEquity(ops: seq<RiskOp>): Decimal {
    if ops == [] then INITIAL_EQUITY
    else if Last(ops).UpdateEquity? then Max(HighestEquity(Front(ops)), Last(ops).equity)
    else HighestEquity(Front(ops))
  }

  function Decisions(ops: seq<RiskOp>): seq<(int, RiskDecision)> {
    if ops == [] then []
    else if Last(ops).RecordDecision? then Decisions(Front(ops)) + [(Last(ops).at, Last(ops).decision)]
    else Decisions(Front(ops))
  }

  function Identity(x: Decimal): Decimal { x }

  /** The P&Ls accepted since the last reset: those that keep the running sum non-negative. */
  function AcceptedPnls(ops: seq<RiskOp>): seq<Decimal> {
    if ops == [] then []
    else
      var before := AcceptedPnls(Front(ops));
      match Last(ops)
      case DailyReset => []
      case UpdateOnFill(Some(x)) => if Sum(Identity, before) + x >= 0.0 then before + [x] else before
      case _ => before
  }

  function LastN<T>(s: seq<T>, n: nat): seq<T> {
    if |s| <= n then s else s[|s| - n..]
  }

  predicate BreakerConsistent(c: RiskConfig, s: RiskState) {
    && (s.breaker.Closed? <==> s.openedAt.None?)
    && (s.breaker.Closed? && c.breakerFailures > 0 ==> s.failures < c.breakerFailures)
  }

  predicate EquityConsistent(s: RiskState, ops: seq<RiskOp>) {
    s.equityPeak == HighestEquity(ops) >= INITIAL_EQUITY && s.currentEquity <= s.equityPeak
  }

  predicate PnlConsistent(s: RiskState, ops: seq<RiskOp>) {
    s.dailyRealizedPnl == Sum(Identity, AcceptedPnls(ops)) >= 0.0 && s.dailyUnrealizedPnl == 0.0
  }

  lemma {:induction false} ReachableBreaker(c: RiskConfig, ops: seq<RiskOp>)
    ensures BreakerConsistent(c, AfterAll(c, INITIAL_STATE, ops))
    decreases |ops|
  {
    if ops != [] {
      ReachableBreaker(c, Front(ops));
    }
  }

  lemma {:induction false} ReachableEquity(c: RiskConfig, ops: seq<RiskOp>)
    ensures EquityConsistent(AfterAll(c, INITIAL_STATE, ops), ops)
    decreases |ops|
  {
    if ops != [] {
      ReachableEquity(c, Front(ops));
    }
  }

  lemma {:induction false} ReachablePnl(c: RiskConfig, ops: seq<RiskOp>)
    ensures PnlConsistent(AfterAll(c, INITIAL_STATE, ops), ops)
    decreases |ops|
  {
    if ops != [] {
      ReachablePnl(c, Front(ops));
      if Last(ops).UpdateOnFill? && Last(ops).pnl.Some? {
        SumSnoc(Identity, AcceptedPnls(Front(ops)), Last(ops).pnl.value);
      }
    }
  }

  lemma {:induction false} ReachableHistory(c: RiskConfig, ops: seq<RiskOp>)
    ensures AfterAll(c, INITIAL_STATE, ops).history == LastN(Decisions(ops), HISTORY_LIMIT)
    decreases |ops|
  {
    if ops != [] {
      ReachableHistory(c, Front(ops));
      if Last(ops).RecordDecision? {
        LastNSnoc(Decisions(Front(ops)), (Last(ops).at, Last(ops).decision), HISTORY_LIMIT);
        hide LastN;
      }
    }
  }

  /** In every reachable state: the breaker is closed exactly when it has no opening
      time, and then its failures are below a positive threshold; the equity peak is
      the highest equity ever reported; the realized P&L is the non-negative sum of
      the P&Ls accepted since the reset; and the history is exactly the last 100
      decisions, in order. */
  lemma ReachableState(c: RiskConfig, ops: seq<RiskOp>)
    ensures var s := AfterAll(c, INITIAL_STATE, ops);
            && (s.breaker.Closed? <==> s.openedAt.None?)
            && (s.breaker.Closed? && c.breakerFailures > 0 ==> s.failures < c.breakerFailures)
            && s.equityPeak == HighestEquity(ops) >= INITIAL_EQUITY && s.currentEquity <= s.equityPeak
            && s.dailyRealizedPnl == Sum(Identity, AcceptedPnls(ops)) >= 0.0 && s.dailyUnrealizedPnl == 0.0
            && s.history == LastN(Decisions(ops), HISTORY_LIMIT)
  {
    ReachableBreaker(c, ops);
    ReachableEquity(c, ops);
    ReachablePnl(c, ops);
    ReachableHistory(c, ops);
    hide AfterAll;
  }

  lemma LastNSnoc<T>(s: seq<T>, x: T, n: nat)
    requires n > 0
    ensures var kept := LastN(s, n);
            LastN(s + [x], n) == (if |kept| >= n then kept[1..] else kept) + [x]
  {
  }

  /** In every reachable state the drawdown is non-negative and is what the metrics
      calculator reports after clamping. */
  lemma DrawdownAgrees(c: RiskConfig, ops: seq<RiskOp>)
    ensures var s := AfterAll(c, INITIAL_STATE, ops);
            s.DrawdownPct() == ClampedDrawdown(s.currentEquity, s.equityPeak) >= 0.0
  {
    ReachableState(c, ops);
    hide AfterAll;
    var s := AfterAll(c, INITIAL_STATE, ops);
    QuotientNonNegative(s.equityPeak - s.currentEquity, s.equityPeak);
  }

  lemma QuotientNonNegative(a: real, b: real)
    requires a >= 0.0 && b > 0.0
    ensures a / b >= 0.0
  {
  }

  /** `calculate_drawdown` */
  function ClampedDrawdown(equity: Decimal, peak: Decimal): Decimal {
    if peak > 0.0 then Max((peak - equity) / peak, 0.0) else 0.0
  }

  /** And it is the part of the peak that is gone; without a positive peak it is zero. */
  lemma DrawdownIsShareOfPeak(s: RiskState)
    ensures s.equityPeak > 0.0 ==> s.DrawdownPct() * s.equityPeak == s.equityPeak - s.currentEquity
    ensures s.equityPeak <= 0.0 ==> s.DrawdownPct() == 0.0
  {
  }

  // ------------------------------------------- the switches, from their history

  ghost predicate TriggeredSinceReset(ops: seq<RiskOp>) {
    exists i :: 0 <= i < |ops| && ops[i].TriggerKillSwitch? && forall j :: i < j < |ops| ==> !ops[j].ResetKillSwitch?
  }

  lemma TriggeredSinceResetSplits(ops: seq<RiskOp>)
    requires ops != []
    ensures TriggeredSinceReset(ops) ==
              (Last(ops).TriggerKillSwitch? || (!Last(ops).ResetKillSwitch? && TriggeredSinceReset(Front(ops))))
  {
    var front := Front(ops);
    if TriggeredSinceReset(ops) && !Last(ops).TriggerKillSwitch? {
      var i :| 0 <= i < |ops| && ops[i].TriggerKillSwitch? && forall j :: i < j < |ops| ==> !ops[j].ResetKillSwitch?;
      assert front[i].TriggerKillSwitch?;
    }
    if TriggeredSinceReset(front) && !Last(ops).ResetKillSwitch? {
      var i :| 0 <= i < |front| && front[i].TriggerKillSwitch? && forall j :: i < j < |front| ==> !front[j].ResetKillSwitch?;
      assert ops[i].TriggerKillSwitch?;
      assert forall j :: i < j < |front| ==> ops[j] == front[j];
    }
  }

  /** In every reachable state the kill switch is on exactly when it is enabled and has
      been triggered since it was last reset. */
  lemma {:induction false} KillSwitchIff(c: RiskConfig, ops: seq<RiskOp>)
    ensures AfterAll(c, INITIAL_STATE, ops).killSwitch <==> c.killSwitchEnabled && TriggeredSinceReset(ops)
    decreases |ops|
  {
    if ops != [] {
      hide TriggeredSinceReset;
      KillSwitchIff(c, Front(ops));
      TriggeredSinceResetSplits(ops);
    }
  }

  /** The failures since the last one that something forgot: a fill that was taken in, a
      new day, or a confirmed recovery. */
  function FailuresInARow(c: RiskConfig, ops: seq<RiskOp>): nat {
    if ops == [] then 0
    else
      var before := AfterAll(c, INITIAL_STATE, Front(ops));
      match Last(ops)
      case RecordFailure(_) => FailuresInARow(c, Front(ops)) + 1
      case DailyReset => 0
      case UpdateOnFill(pnl) =>
        if pnl.Some? && before.dailyRealizedPnl + pnl.value < 0.0 then FailuresInARow(c, Front(ops)) else 0
      case ConfirmRecovery => if before.breaker.HalfOpen? then 0 else FailuresInARow(c, Front(ops))
      case _ => FailuresInARow(c, Front(ops))
  }

  lemma {:induction false} FailuresAreInARow(c: RiskConfig, ops: seq<RiskOp>)
    ensures AfterAll(c, INITIAL_STATE, ops).failures == FailuresInARow(c, ops)
    decreases |ops|
  {
    if ops != [] {
      FailuresAreInARow(c, Front(ops));
    }
  }

  /** Every move of the breaker after any history: it opens, and is dated, exactly when
      a closed one sees the failure that makes as many in a row as configured; it
      half-opens only at a recovery check while open; and it closes, forgetting the
      date, exactly when a half-open one is confirmed. */
  lemma BreakerMoves(c: RiskConfig, ops: seq<RiskOp>, op: RiskOp)
    ensures var s := AfterAll(c, INITIAL_STATE, ops);
            var t := After(c, s, op);
            && (t.breaker.Open? <==>
                  || (s.breaker.Closed? && op.RecordFailure? && FailuresInARow(c, ops) + 1 >= c.breakerFailures)
                  || (s.breaker.Open? && !(op.CheckRecovery? && t.breaker.HalfOpen?)))
            && (t.breaker.HalfOpen? <==>
                  || (s.breaker.HalfOpen? && op != ConfirmRecovery)
                  || (s.breaker.Open? && s.openedAt.Some? && op.CheckRecovery? && ElapsedSecs(s.openedAt.value, op.now) >= c.breakerTimeoutSecs))
            && t.openedAt == (if t.breaker.Closed? then None
                              else if s.breaker.Closed? then Some(op.now) else s.openedAt)
  {
    ReachableBreaker(c, ops);
    FailuresAreInARow(c, ops);
    hide AfterAll, ElapsedSecs;
  }

  /** A new day begins without P&L, and leaves the breaker and the equity alone. */
  lemma NewDay(c: RiskConfig, s: RiskState)
    ensures var t := After(c, s, DailyReset);
            t.TotalDailyPnl() == 0.0 && t.dailyRealizedPnl == 0.0 && t.failures == 0
            && t.breaker == s.breaker && t.openedAt == s.openedAt && t.killSwitch == s.killSwitch
            && t.DrawdownPct() == s.DrawdownPct() && t.history == s.history
  {
  }

  /** Since losses are refused, the daily loss gate cannot fire in a reachable state. */
  lemma DailyLossNeverRejects(c: RiskConfig, ops: seq<RiskOp>)
    requires c.dailyLossLimit >= 0.0
    ensures CheckDailyLoss(c, AfterAll(c, INITIAL_STATE, ops)).None?
  {
    ReachableState(c, ops);
    hide AfterAll;
  }

  /** Recovery waits for the timeout exactly when the clock has not gone back by a
      second or more since the breaker opened: a negative duration counts as a huge one. */
  lemma RecoversIff(c: RiskConfig, s: RiskState, now: int)
    requires s.breaker.Open? && s.openedAt.Some?
    requires c.breakerTimeoutSecs < 0x8000_0000_0000_0000
    requires -0x8000_0000_0000_0000 <= (now - s.openedAt.value) < 0x8000_0000_0000_0000
    ensures OnRecoveryCheck(c, s, now).breaker.HalfOpen?
            <==> var millis := now - s.openedAt.value;
                 millis >= 1000 * c.breakerTimeoutSecs || millis <= -1000 || c.breakerTimeoutSecs == 0
  {
  }

  // --------------------------------------------------------- interleaved gate

  /** Other threads' operations before the first read, and between the reads, of one
      call of `check_pre_trade` that begins in `s`. */
  function InterleavedGate(c: RiskConfig, s: RiskState, ops0: seq<RiskOp>, ops1: seq<RiskOp>, ops2: seq<RiskOp>,
                           o: OrderData, positions: seq<PositionData>, price: Price): Result<RiskDecision, RiskError> {
    var s0 := AfterAll(c, s, ops0);
    var s1 := AfterAll(c, s0, ops1);
    var s2 := AfterAll(c, s1, ops2);
    GateOver(c, s0, s1, s2, o, positions, price)
  }

  lemma {:induction false} KillSwitchStays(c: RiskConfig, s: RiskState, ops: seq<RiskOp>)
    requires s.killSwitch && ResetKillSwitch !in ops
    ensures AfterAll(c, s, ops).killSwitch
    decreases |ops|
  {
    if ops != [] {
      assert Last(ops) in ops;
      KillSwitchStays(c, s, Front(ops));
    }
  }

  /** Whatever the other threads do, a check that begins with the kill switch on is
      rejected unless somebody resets the switch before its first read. */
  lemma KillSwitchRejects(c: RiskConfig, s: RiskState, ops0: seq<RiskOp>, ops1: seq<RiskOp>, ops2: seq<RiskOp>,
                          o: OrderData, positions: seq<PositionData>, price: Price)
    requires s.killSwitch && ResetKillSwitch !in ops0
    ensures InterleavedGate(c, s, ops0, ops1, ops2, o, positions, price) == Ok(Reject(KillSwitch))
  {
    KillSwitchStays(c, s, ops0);
  }

  /** For a call that begins in a reachable state of an engine with a non-negative
      loss limit, Allow is decided by two instants within the call: the switches at
      the first read and the drawdown at the third. */
  lemma InterleavedAllowIff(c: RiskConfig, past: seq<RiskOp>, ops0: seq<RiskOp>, ops1: seq<RiskOp>, ops2: seq<RiskOp>,
                            o: OrderData, positions: seq<PositionData>, price: Price)
    requires Valued(positions) && c.dailyLossLimit >= 0.0
    ensures var s := AfterAll(c, INITIAL_STATE, past);
            var s0 := AfterAll(c, s, ops0);
            var s2 := AfterAll(c, AfterAll(c, s0, ops1), ops2);
            InterleavedGate(c, s, ops0, ops1, ops2, o, positions, price) == Ok(Allow)
            <==> CheckSwitches(s0).None? && CheckDrawdown(c, s2).None? && WithinLimits(c, o, positions, price)
  {
    var s := AfterAll(c, INITIAL_STATE, past);
    var s0 := AfterAll(c, s, ops0);
    var s1 := AfterAll(c, s0, ops1);
    RunConcat(c, INITIAL_STATE, past, ops0);
    RunConcat(c, INITIAL_STATE, past + ops0, ops1);
    DailyLossNeverRejects(c, past + ops0 + ops1);
    AllowIff(c, s0, s1, AfterAll(c, s1, ops2), o, positions, price);
    hide GateOver, WithinLimits, AfterAll, RiskState.DrawdownPct;
  }

  lemma {:induction false} RunConcat(c: RiskConfig, s: RiskState, a: seq<RiskOp>, b: seq<RiskOp>)
    ensures AfterAll(c, s, a + b) == AfterAll(c, AfterAll(c, s, a), b)
    decreases |b|
  {
    if b == [] {
      assert a + b == a;
    } else {
      RunConcat(c, s, a, Front(b));
      assert Front(a + b) == a + Front(b) && Last(a + b) == Last(b);
    }
  }

  /** The two instants can differ, so the reads are not one atomic check: with the
      switch thrown and the equity recovered between the reads, the call allows an
      order that the gate would have rejected at every instant of the call. */
  lemma TornAllow(c: RiskConfig, s: RiskState, o: OrderData, positions: seq<PositionData>, price: Price)
    requires Valued(positions) && WithinLimits(c, o, positions, price) && c.killSwitchEnabled
    requires CheckSwitches(s).None? && s.TotalDailyPnl() >= -c.dailyLossLimit
    requires s.equityPeak > 0.0 && c.maxDrawdownPct >= 0.0 && s.DrawdownPct() > c.maxDrawdownPct
    ensures var thrown := After(c, s, TriggerKillSwitch);
            var recovered := After(c, thrown, UpdateEquity(s.equityPeak));
            && InterleavedGate(c, s, [], [TriggerKillSwitch, UpdateEquity(s.equityPeak)], [], o, positions, price) == Ok(Allow)
            && Gate(c, s, o, positions, price) != Ok(Allow)
            && Gate(c, thrown, o, positions, price) != Ok(Allow)
            && Gate(c, recovered, o, positions, price) != Ok(Allow)
  {
    var ops := [TriggerKillSwitch, UpdateEquity(s.equityPeak)];
    var thrown := After(c, s, TriggerKillSwitch);
    var recovered := After(c, thrown, UpdateEquity(s.equityPeak));
    assert Front(ops) == [TriggerKillSwitch] && Front([TriggerKillSwitch]) == [];
    assert AfterAll(c, s, [TriggerKillSwitch]) == thrown;
    assert AfterAll(c, s, ops) == recovered;
    assert recovered.DrawdownPct() == 0.0;
    AllowIff(c, s, recovered, recovered, o, positions, price);
    AllowIff(c, s, s, s, o, positions, price);
    AllowIff(c, thrown, thrown, thrown, o, positions, price);
    AllowIff(c, recovered, recovered, recovered, o, positions, price);
    hide GateOver, WithinLimits;
  }

  /** An operation that can throw the kill switch or open the breaker. */
  predicate ThrowsSwitch(op: RiskOp) {
    op.TriggerKillSwitch? || op.RecordFailure?
  }

  lemma {:induction false} SwitchesStayOff(c: RiskConfig, s: RiskState, ops: seq<RiskOp>)
    requires CheckSwitches(s).None? && forall op :: op in ops ==> !ThrowsSwitch(op)
    ensures CheckSwitches(AfterAll(c, s, ops)).None?
    decreases |ops|
  {
    if ops != [] {
      assert Last(ops) in ops;
      SwitchesStayOff(c, s, Front(ops));
    }
  }

  lemma {:induction false} DrawdownStays(c: RiskConfig, s: RiskState, ops: seq<RiskOp>)
    requires forall op :: op in ops ==> !op.UpdateEquity?
    ensures var t := AfterAll(c, s, ops);
            t.equityPeak == s.equityPeak && t.currentEquity == s.currentEquity
    decreases |ops|
  {
    if ops != [] {
      assert Last(ops) in ops;
      DrawdownStays(c, s, Front(ops));
    }
  }

  /** When an Allow is not torn. With no operation between the reads that throws a
      switch, it is the gate's answer at the last read; with no equity reported
      between them, the call allows exactly what the gate allows at the first. */
  lemma UntornAllow(c: RiskConfig, past: seq<RiskOp>, ops0: seq<RiskOp>, ops1: seq<RiskOp>, ops2: seq<RiskOp>,
                    o: OrderData, positions: seq<PositionData>, price: Price)
    requires Valued(positions) && c.dailyLossLimit >= 0.0
    ensures var s := AfterAll(c, INITIAL_STATE, past);
            var s0 := AfterAll(c, s, ops0);
            var s2 := AfterAll(c, AfterAll(c, s0, ops1), ops2);
            var allowed := InterleavedGate(c, s, ops0, ops1, ops2, o, positions, price) == Ok(Allow);
            && (allowed && (forall op :: op in ops1 + ops2 ==> !ThrowsSwitch(op)) ==>
                  Gate(c, s2, o, positions, price) == Ok(Allow))
            && ((forall op :: op in ops1 + ops2 ==> !op.UpdateEquity?) ==>
                  (allowed <==> Gate(c, s0, o, positions, price) == Ok(Allow)))
  {
    hide AfterAll, GateOver, Gate, InterleavedGate, CheckSwitches, WithinLimits, RiskState.DrawdownPct;
    var s := AfterAll(c, INITIAL_STATE, past);
    var s0 := AfterAll(c, s, ops0);
    var between := ops1 + ops2;
    var s2 := AfterAll(c, s0, between);
    RunConcat(c, s0, ops1, ops2);
    InterleavedAllowIff(c, past, ops0, ops1, ops2, o, positions, price);
    RunConcat(c, INITIAL_STATE, past, ops0);
    AtomicAllowIff(c, past + ops0, o, positions, price);
    RunConcat(c, INITIAL_STATE, past + ops0, between);
    AtomicAllowIff(c, past + ops0 + between, o, positions, price);
    if CheckSwitches(s0).None? && forall op :: op in between ==> !ThrowsSwitch(op) {
      SwitchesStayOff(c, s0, between);
    }
    if forall op :: op in between ==> !op.UpdateEquity? {
      DrawdownStays(c, s0, between);
      SameDrawdown(c, s0, s2);
    }
  }

  lemma SameDrawdown(c: RiskConfig, s: RiskState, t: RiskState)
    requires t.equityPeak == s.equityPeak && t.currentEquity == s.currentEquity
    ensures CheckDrawdown(c, s) == CheckDrawdown(c, t)
  {
  }

  lemma AtomicAllowIff(c: RiskConfig, past: seq<RiskOp>, o: OrderData, positions: seq<PositionData>, price: Price)
    requires Valued(positions) && c.dailyLossLimit >= 0.0
    ensures var s := AfterAll(c, INITIAL_STATE, past);
            Gate(c, s, o, positions, price) == Ok(Allow)
            <==> CheckSwitches(s).None? && CheckDrawdown(c, s).None? && WithinLimits(c, o, positions, price)
  {
    DailyLossNeverRejects(c, past);
    var s := AfterAll(c, INITIAL_STATE, past);
    AllowIff(c, s, s, s, o, positions, price);
    hide GateOver, WithinLimits, AfterAll, RiskState.DrawdownPct;
  }

  // ------------------------------------------------------------- the engine

  class RiskEngine {
    const config: RiskConfig
    var state: RiskState

    constructor (config: RiskConfig)
      ensures this.config == config && state == INITIAL_STATE
    {
      this.config := config;
      state := INITIAL_STATE;
    }

    /** A decision is recorded and returned; an error records nothing. */
    method CheckPreTrade(o: OrderData, positions: seq<PositionData>, price: Price, now: int)
      returns (r: Result<RiskDecision, RiskError>)
      modifies this
      ensures r == Gate(config, old(state), o, positions, price)
      ensures state == if r.Ok? then Recorded(old(state), now, r.value) else old(state)
    {
      var decision := CheckSwitches(state);
      if decision.None? {
        decision := CheckPositionSize(config, o, positions);
      }
      if decision.None? {
        decision := CheckDailyLoss(config, state);
      }
      if decision.None? {
        decision := CheckDrawdown(config, state);
      }
      if decision.None? {
        var total := CheckTotalExposure(config, o, positions, price);
        if total.Err? {
          return Err(total.error);
        }
        decision := total.value;
      }
      if decision.None? {
        var symbol := CheckSymbolExposure(config, o, positions, price);
        if symbol.Err? {
          return Err(symbol.error);
        }
        decision := symbol.value;
      }
      var d := if decision.Some? then decision.value else Allow;
      Record(now, d);
      r := Ok(d);
    }

    method Record(at: int, d: RiskDecision)
      modifies this
      ensures state == Recorded(old(state), at, d)
      ensures |old(state).history| <= HISTORY_LIMIT ==> |state.history| <= HISTORY_LIMIT
    {
      var history := state.history;
      if |history| >= HISTORY_LIMIT {
        history := history[1..];
      }
      state := state.(history := history + [(at, d)]);
    }

    method OnFilled(pnl: Option<Decimal>) returns (r: Result<Unit, RiskError>)
      modifies this
      ensures state == After(config, old(state), UpdateOnFill(pnl))
      ensures r.Err? <==> pnl.Some? && old(state).dailyRealizedPnl + pnl.value < 0.0
      ensures r.Err? ==> state == old(state)
    {
      if pnl.Some? {
        var newPnl := ToMoney(state.dailyRealizedPnl + pnl.value);
        if newPnl.Err? {
          return Err(newPnl.error);
        }
        state := state.(dailyRealizedPnl := newPnl.value);
      }
      if state.failures > 0 {
        state := state.(failures := 0);
      }
      r := Ok(Unit.Unit);
    }

    method ReportEquity(equity: Decimal)
      modifies this
      ensures state == After(config, old(state), UpdateEquity(equity))
    {
      state := state.(currentEquity := equity);
      if equity > state.equityPeak {
        state := state.(equityPeak := equity);
      }
    }

    method Fail(now: int) returns (b: BreakerState)
      modifies this
      ensures state == After(config, old(state), RecordFailure(now)) && b == state.breaker
      ensures old(state).breaker.HalfOpen? ==> b.HalfOpen?
    {
      state := state.(failures := state.failures + 1);
      if state.failures >= config.breakerFailures {
        if state.breaker == Closed {
          state := state.(breaker := Open, openedAt := Some(now));
        }
      }
      b := state.breaker;
    }

    method TryRecover(now: int) returns (b: BreakerState)
      modifies this
      ensures state == After(config, old(state), CheckRecovery(now)) && b == state.breaker
    {
      if state.breaker == Open {
        if state.openedAt.Some? {
          if ElapsedSecs(state.openedAt.value, now) >= config.breakerTimeoutSecs {
            state := state.(breaker := HalfOpen);
          }
        }
      }
      b := state.breaker;
    }

    method Confirm()
      modifies this
      ensures state == After(config, old(state), ConfirmRecovery)
    {
      if state.breaker == HalfOpen {
        state := state.(breaker := Closed);
        state := state.(failures := 0, openedAt := None);
      }
    }

    method SetKillSwitch(on: bool)
      modifies this
      ensures state == After(config, old(state), if on then TriggerKillSwitch else ResetKillSwitch)
    {
      if on && !config.killSwitchEnabled {
        return;
      }
      state := state.(killSwitch := on);
    }

    method ResetDay()
      modifies this
      ensures state == After(config, old(state), DailyReset)
    {
      state := state.(dailyRealizedPnl := 0.0, dailyUnrealizedPnl := 0.0);
      state := state.(failures := 0);
    }
  }
}
