/** The position entity and its profit and loss (crates/domain/src/entities.rs). */
module Positions {
  import opened Values
  import opened Fills

  datatype PositionData = PositionData(
    symbol: Symbol,
    side: Side,
    quantity: Decimal,
    avgEntryPrice: Decimal,
    currentPrice: Decimal,
    unrealizedPnl: Decimal,
    realizedPnl: Decimal)
  {
    /** What leaving the whole position at `price` would earn. */
    function Gain(price: Decimal): Decimal {
      side.Signed((price - avgEntryPrice) * quantity)
    }

    function MarketValue(): Decimal {
      currentPrice * quantity
    }
  }

  function NewPosition(symbol: Symbol, side: Side, quantity: Quantity, price: Price): PositionData {
    PositionData(symbol, side, quantity, price, price, 0.0, 0.0)
  }

  function UpdatePrice(p: PositionData, price: Decimal): PositionData {
    p.(currentPrice := price, unrealizedPnl := p.Gain(price))
  }

  /** None: the fill is on the other side. */
  function AddFill(p: PositionData, f: Fill): Option<PositionData>
    requires p.quantity >= 0.0
  {
    if f.side != p.side then None
    else
      var avg := Blend(p.avgEntryPrice, p.quantity, NotionalOf(f), f.quantity);
      Some(UpdatePrice(p.(quantity := p.quantity + f.quantity, avgEntryPrice := avg), p.currentPrice))
  }

  function AddRealizedPnl(p: PositionData, pnl: Decimal): PositionData {
    p.(realizedPnl := p.realizedPnl + pnl)
  }

  function Close(p: PositionData, exitPrice: Decimal): PositionData {
    p.(realizedPnl := p.realizedPnl + p.Gain(exitPrice), quantity := 0.0, unrealizedPnl := 0.0)
  }

  datatype PositionOp =
    | AddFillOp(fill: Fill)
    | UpdatePriceOp(price: Price)
    | AddRealizedOp(pnl: Decimal)
    | CloseOp(exitPrice: Price)

  function Step(p: PositionData, op: PositionOp): (r: PositionData)
    requires p.quantity >= 0.0
    ensures r.quantity >= 0.0 && r.side == p.side
  {
    match op
    case AddFillOp(f) => if f.side == p.side then AddFill(p, f).value else p
    case UpdatePriceOp(price) => UpdatePrice(p, price)
    case AddRealizedOp(pnl) => AddRealizedPnl(p, pnl)
    case CloseOp(exitPrice) => Close(p, exitPrice)
  }

  function Run(p: PositionData, ops: seq<PositionOp>): (r: PositionData)
    requires p.quantity >= 0.0
    ensures r.quantity >= 0.0 && r.side == p.side
  {
    if ops == [] then p else Step(Run(p, Front(ops)), Last(ops))
  }

  // ------------------------------------------- the reference: the full history

  /** One entry: bought (or sold short) at this price in this quantity. */
  datatype Lot = Lot(price: Price, quantity: Quantity)

  function LotQuantity(l: Lot): real { l.quantity }

  function LotCost(l: Lot): real { l.price * l.quantity }

  /** The profit per unit of sign of every lot, taken one by one, at `price`. */
  function HistoryPnl(lots: seq<Lot>, price: real): real {
    if lots == [] then 0.0
    else HistoryPnl(Front(lots), price) + (price - Last(lots).price) * Last(lots).quantity
  }

  /** All lots since the last close, the profit booked so far, and the cash paid and received. */
  datatype Ledger = Ledger(lots: seq<Lot>, booked: real, cash: real)

  function LedgerStep(l: Ledger, side: Side, op: PositionOp): Ledger {
    match op
    case AddFillOp(f) =>
      if f.side != side then l
      else l.(lots := l.lots + [Lot(f.price, f.quantity)], cash := l.cash - side.Signed(LotCost(Lot(f.price, f.quantity))))
    case UpdatePriceOp(_) => l
    case AddRealizedOp(pnl) => l.(booked := l.booked + pnl, cash := l.cash + pnl)
    case CloseOp(exitPrice) =>
      Ledger([], l.booked + side.Signed(HistoryPnl(l.lots, exitPrice)),
             l.cash + side.Signed(exitPrice * Sum(LotQuantity, l.lots)))
  }

  function LedgerRun(l: Ledger, side: Side, ops: seq<PositionOp>): Ledger {
    if ops == [] then l else LedgerStep(LedgerRun(l, side, Front(ops)), side, Last(ops))
  }

  function Opening(side: Side, price: Price, quantity: Quantity): Ledger {
    Ledger([Lot(price, quantity)], 0.0, -side.Signed(LotCost(Lot(price, quantity))))
  }

  lemma {:induction false} HistoryPnlIsLinear(lots: seq<Lot>, price: real)
    ensures HistoryPnl(lots, price) == price * Sum(LotQuantity, lots) - Sum(LotCost, lots)
    decreases |lots|
  {
    if lots != [] {
      HistoryPnlIsLinear(Front(lots), price);
      OneLot(price, Last(lots), Sum(LotQuantity, Front(lots)));
    }
  }

  lemma OneLot(price: real, l: Lot, before: real)
    ensures price * before + (price - l.price) * l.quantity == price * (before + LotQuantity(l)) - LotCost(l)
  {
  }

  /** The position's running figures are those of the ledger. */
  ghost predicate Agrees(p: PositionData, l: Ledger) {
    && p.quantity == Sum(LotQuantity, l.lots) >= 0.0
    && p.avgEntryPrice * p.quantity == Sum(LotCost, l.lots)
    && p.unrealizedPnl == p.side.Signed(HistoryPnl(l.lots, p.currentPrice))
    && p.realizedPnl == l.booked
    && l.cash == l.booked - p.side.Signed(Sum(LotCost, l.lots))
  }

  /** Average-cost accounting gives what the lots give one by one. */
  lemma GainIsHistoryPnl(p: PositionData, lots: seq<Lot>, price: real)
    requires p.quantity == Sum(LotQuantity, lots) && p.avgEntryPrice * p.quantity == Sum(LotCost, lots)
    ensures p.Gain(price) == p.side.Signed(HistoryPnl(lots, price))
  {
    HistoryPnlIsLinear(lots, price);
    hide HistoryPnl, Sum;
    assert (price - p.avgEntryPrice) * p.quantity == price * p.quantity - p.avgEntryPrice * p.quantity;
  }

  lemma UpdatePriceAgrees(p: PositionData, l: Ledger, price: real)
    requires p.quantity == Sum(LotQuantity, l.lots) >= 0.0
    requires p.avgEntryPrice * p.quantity == Sum(LotCost, l.lots)
    requires p.realizedPnl == l.booked && l.cash == l.booked - p.side.Signed(Sum(LotCost, l.lots))
    ensures Agrees(UpdatePrice(p, price), l)
  {
    hide HistoryPnl, Sum;
    GainIsHistoryPnl(p, l.lots, price);
  }

  /** A blended average still covers the lots, the new one included. */
  lemma ScaledInSums(p: PositionData, lots: seq<Lot>, f: Fill)
    requires p.quantity == Sum(LotQuantity, lots) >= 0.0 && p.avgEntryPrice * p.quantity == Sum(LotCost, lots)
    ensures var all := lots + [Lot(f.price, f.quantity)];
            var avg := Blend(p.avgEntryPrice, p.quantity, NotionalOf(f), f.quantity);
            && p.quantity + f.quantity == Sum(LotQuantity, all)
            && avg * (p.quantity + f.quantity) == Sum(LotCost, all)
            && Sum(LotCost, all) == Sum(LotCost, lots) + LotCost(Lot(f.price, f.quantity))
  {
    var lot := Lot(f.price, f.quantity);
    SumSnoc(LotQuantity, lots, lot);
    SumSnoc(LotCost, lots, lot);
    assert LotCost(lot) == NotionalOf(f) && LotQuantity(lot) == f.quantity;
    hide Blend, Sum, LotCost, NotionalOf;
    BlendOfMean(p.avgEntryPrice, p.quantity, Sum(LotCost, lots), NotionalOf(f), f.quantity);
  }

  lemma AddFillAgrees(p: PositionData, l: Ledger, f: Fill)
    requires Agrees(p, l) && f.side == p.side
    ensures Agrees(AddFill(p, f).value, LedgerStep(l, p.side, AddFillOp(f)))
  {
    hide Blend, NotionalOf, LotCost, HistoryPnl, Sum, UpdatePrice;
    var avg := Blend(p.avgEntryPrice, p.quantity, NotionalOf(f), f.quantity);
    ScaledInSums(p, l.lots, f);
    UpdatePriceAgrees(p.(quantity := p.quantity + f.quantity, avgEntryPrice := avg),
                      LedgerStep(l, p.side, AddFillOp(f)), p.currentPrice);
    hide Agrees;
  }

  lemma CloseAgrees(p: PositionData, l: Ledger, exitPrice: Price)
    requires Agrees(p, l)
    ensures Agrees(Close(p, exitPrice), LedgerStep(l, p.side, CloseOp(exitPrice)))
  {
    GainIsHistoryPnl(p, l.lots, exitPrice);
    HistoryPnlIsLinear(l.lots, exitPrice);
    assert p.avgEntryPrice * 0.0 == 0.0;
    assert Sum(LotQuantity, []) == 0.0 && Sum(LotCost, []) == 0.0 && HistoryPnl([], p.currentPrice) == 0.0;
    hide HistoryPnl, Sum, PositionData.Gain;
  }

  lemma StepAgrees(p: PositionData, l: Ledger, op: PositionOp)
    requires Agrees(p, l)
    ensures Agrees(Step(p, op), LedgerStep(l, p.side, op))
  {
    match op
    case AddFillOp(f) =>
      hide Agrees;
      if f.side == p.side {
        AddFillAgrees(p, l, f);
      }
    case UpdatePriceOp(price) => UpdatePriceAgrees(p, l, price); hide Agrees;
    case AddRealizedOp(pnl) => hide HistoryPnl, Sum;
    case CloseOp(exitPrice) => hide Agrees; CloseAgrees(p, l, exitPrice);
  }

  lemma {:induction false} RunAgrees(p: PositionData, l: Ledger, ops: seq<PositionOp>)
    requires Agrees(p, l)
    ensures Agrees(Run(p, ops), LedgerRun(l, p.side, ops))
    decreases |ops|
  {
    assert p.quantity >= 0.0;
    hide Agrees, Step, LedgerStep;
    if ops != [] {
      RunAgrees(p, l, Front(ops));
      StepAgrees(Run(p, Front(ops)), LedgerRun(l, p.side, Front(ops)), Last(ops));
    }
  }

  // ------------------------------------------------------------ main results

  /** For a position opened at (price, quantity) and any run of fills, marks, closes
      and bookings: unrealized P&L is the signed profit of every open lot taken one
      by one, realized P&L is what the closes booked lot by lot, and their sum is
      the cash received and paid plus the signed market value. */
  lemma PositionMatchesHistory(symbol: Symbol, side: Side, quantity: Quantity, price: Price, ops: seq<PositionOp>)
    ensures var p := Run(NewPosition(symbol, side, quantity, price), ops);
            var l := LedgerRun(Opening(side, price, quantity), side, ops);
            && p.symbol == symbol && p.side == side && p.currentPrice == LastMark(price, ops)
            && p.quantity == Sum(LotQuantity, l.lots)
            && p.avgEntryPrice * p.quantity == Sum(LotCost, l.lots)
            && p.unrealizedPnl == side.Signed(HistoryPnl(l.lots, p.currentPrice))
            && p.realizedPnl == l.booked
            && p.realizedPnl + p.unrealizedPnl == l.cash + side.Signed(p.MarketValue())
  {
    var p0, l0 := NewPosition(symbol, side, quantity, price), Opening(side, price, quantity);
    assert Agrees(p0, l0) by {
      OpeningAgrees(symbol, side, quantity, price);
    }
    RunAgrees(p0, l0, ops);
    PriceIsLastMark(p0, ops);
    hide Run, LedgerRun, NewPosition, Opening;
    TotalIsCash(Run(p0, ops), LedgerRun(l0, side, ops));
  }

  /** The price of the last mark of a run, or the first price. */
  function LastMark(price: Decimal, ops: seq<PositionOp>): Decimal {
    if ops == [] then price
    else if Last(ops).UpdatePriceOp? then Last(ops).price
    else LastMark(price, Front(ops))
  }

  /** A position is valued at its last mark: fills, closes and bookings do not move it. */
  lemma {:induction false} PriceIsLastMark(p: PositionData, ops: seq<PositionOp>)
    requires p.quantity >= 0.0
    ensures Run(p, ops).currentPrice == LastMark(p.currentPrice, ops)
    ensures Run(p, ops).symbol == p.symbol && Run(p, ops).side == p.side
    decreases |ops|
  {
    hide Blend;
    if ops != [] {
      PriceIsLastMark(p, Front(ops));
    }
  }

  lemma TotalIsCash(p: PositionData, l: Ledger)
    requires Agrees(p, l)
    ensures p.realizedPnl + p.unrealizedPnl == l.cash + p.side.Signed(p.MarketValue())
  {
    hide HistoryPnl, Sum;
    HistoryPnlIsLinear(l.lots, p.currentPrice);
  }

  lemma OpeningAgrees(symbol: Symbol, side: Side, quantity: Quantity, price: Price)
    ensures Agrees(NewPosition(symbol, side, quantity, price), Opening(side, price, quantity))
  {
    var lot := Lot(price, quantity);
    SumSnoc(LotQuantity, [], lot);
    SumSnoc(LotCost, [], lot);
    assert [] + [lot] == [lot];
    assert Front([lot]) == [];
    assert HistoryPnl([lot], price) == 0.0;
  }

  /** `close(x)` books exactly the signed profit of the whole entry history at x, and
      a second close books nothing, at whatever price and after whatever marks. */
  lemma CloseBooksHistoryOnce(p: PositionData, l: Ledger, exitPrice: Price, mark: Price, again: Price)
    requires Agrees(p, l)
    ensures Close(p, exitPrice).realizedPnl == p.realizedPnl + p.side.Signed(HistoryPnl(l.lots, exitPrice))
    ensures Close(UpdatePrice(Close(p, exitPrice), mark), again).realizedPnl == Close(p, exitPrice).realizedPnl
  {
    GainIsHistoryPnl(p, l.lots, exitPrice);
    hide HistoryPnl, Sum;
    var closed := UpdatePrice(Close(p, exitPrice), mark);
    assert closed.quantity == 0.0;
    assert closed.Gain(again) == 0.0;
  }

  // ------------------------------------------------------------- the entity

  datatype ClosedPosition = ClosedPosition(
    symbol: Symbol, side: Side, quantity: Decimal, avgEntryPrice: Decimal, avgExitPrice: Price, realizedPnl: Decimal)

  class Position {
    const symbol: Symbol
    const side: Side
    var quantity: Decimal
    var avgEntryPrice: Decimal
    var currentPrice: Decimal
    var unrealizedPnl: Decimal
    var realizedPnl: Decimal

    function Data(): PositionData
      reads this
    {
      PositionData(symbol, side, quantity, avgEntryPrice, currentPrice, unrealizedPnl, realizedPnl)
    }

    constructor (symbol: Symbol, side: Side, quantity: Quantity, price: Price)
      ensures Data() == NewPosition(symbol, side, quantity, price)
    {
      this.symbol, this.side, this.quantity := symbol, side, quantity;
      avgEntryPrice, currentPrice, unrealizedPnl, realizedPnl := price, price, 0.0, 0.0;
    }

    method MarkTo(newPrice: Decimal)
      modifies this
      ensures Data() == UpdatePrice(old(Data()), newPrice)
    {
      currentPrice := newPrice;
      var priceDiff := newPrice - avgEntryPrice;
      unrealizedPnl := priceDiff * quantity * side.Sign();
    }

    method Add(fill: Fill) returns (ok: bool)
      requires quantity >= 0.0
      modifies this
      ensures ok <==> fill.side == side
      ensures Data() == if ok then AddFill(old(Data()), fill).value else old(Data())
    {
      if fill.side != side {
        return false;
      }
      var currentNotional := avgEntryPrice * quantity;
      var fillNotional := fill.price * fill.quantity;
      var newQuantity := quantity + fill.quantity;
      var newAvgPrice := (currentNotional + fillNotional) / newQuantity;
      assert newAvgPrice == Blend(avgEntryPrice, quantity, NotionalOf(fill), fill.quantity);
      hide Blend, NotionalOf;
      quantity := newQuantity;
      avgEntryPrice := newAvgPrice;
      MarkTo(currentPrice);
      ok := true;
    }

    method CloseAt(exitPrice: Price) returns (closed: ClosedPosition)
      modifies this
      ensures Data() == Close(old(Data()), exitPrice)
      ensures closed == ClosedPosition(symbol, side, old(quantity), avgEntryPrice, exitPrice, realizedPnl - old(realizedPnl))
    {
      var priceDiff := exitPrice - avgEntryPrice;
      var pnl := priceDiff * quantity * side.Sign();
      realizedPnl := realizedPnl + pnl;
      closed := ClosedPosition(symbol, side, quantity, avgEntryPrice, exitPrice, pnl);
      quantity := 0.0;
      unrealizedPnl := 0.0;
    }
  }
}
