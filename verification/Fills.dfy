/** Fills and their running aggregate (crates/domain/src/entities.rs). */
module Fills {
  import opened Values

  datatype Fill = Fill(
    orderId: nat,
    symbol: Symbol,
    quantity: Quantity,
    price: Price,
    side: Side,
    timestamp: int,
    commission: Option<Decimal>)
  {
    function Commission(): Decimal {
      match commission
      case Some(c) => c
      case None => 0.0
    }

    /** `Fill::pnl`: the profit of this fill read as the exit of a position
        entered at `entryPrice`, net of commission. */
    function Pnl(entryPrice: Decimal): Decimal {
      var priceDiff := match side
        case Buy => entryPrice - price
        case Sell => price - entryPrice;
      priceDiff * quantity - Commission()
    }
  }

  function QuantityOf(f: Fill): real { f.quantity }

  function NotionalOf(f: Fill): real { f.price * f.quantity }

  function CommissionOf(f: Fill): real { f.Commission() }

  lemma {:induction false} SumOfQuantitiesPositive(fills: seq<Fill>)
    ensures fills != [] ==> Sum(QuantityOf, fills) > 0.0
    ensures Sum(QuantityOf, fills) >= 0.0
    decreases |fills|
  {
    if fills != [] {
      SumOfQuantitiesPositive(Front(fills));
    }
  }

  // -------------------------------------------------------- the running average

  /** The value of a `FillAggregation`. */
  datatype Aggregate = Aggregate(
    totalQuantity: Decimal,
    avgPrice: Decimal,
    totalNotional: Decimal,
    totalCommission: Decimal,
    fillCount: nat)

  const EMPTY_AGGREGATE := Aggregate(0.0, 0.0, 0.0, 0.0, 0)

  /** One `add_fill`. `err` is the rounding error of its one division; a first
      fill divides nothing. */
  function Accumulate(a: Aggregate, f: Fill, err: real): Aggregate
    requires a.totalQuantity >= 0.0
  {
    var newAvg :=
      if a.totalQuantity == 0.0 then f.price
      else Blend(a.avgPrice, a.totalQuantity, NotionalOf(f), f.quantity) + err;
    Aggregate(a.totalQuantity + f.quantity, newAvg, a.totalNotional + NotionalOf(f),
              a.totalCommission + f.Commission(), a.fillCount + 1)
  }

  /** The aggregate of `fills` when the i-th fill's division is off by `rounding(i)`. */
  function Aggregated(fills: seq<Fill>, rounding: nat -> real): (a: Aggregate)
    ensures a.totalQuantity == Sum(QuantityOf, fills) >= 0.0
    ensures a.totalNotional == Sum(NotionalOf, fills)
    ensures a.totalCommission == Sum(CommissionOf, fills)
    ensures a.fillCount == |fills|
  {
    if fills == [] then EMPTY_AGGREGATE
    else Accumulate(Aggregated(Front(fills), rounding), Last(fills), rounding(|fills| - 1))
  }

  function Exact(i: nat): real { 0.0 }

  /** In exact arithmetic the running average times the total quantity is the
      total notional, after any number of fills. */
  lemma {:induction false} RunningAverageIsWeightedMean(fills: seq<Fill>)
    ensures var a := Aggregated(fills, Exact);
            a.avgPrice * a.totalQuantity == a.totalNotional
    decreases |fills|
  {
    hide Blend, NotionalOf;
    if fills != [] {
      var f := Last(fills);
      var prev := Aggregated(Front(fills), Exact);
      RunningAverageIsWeightedMean(Front(fills));
      SumOfQuantitiesPositive(Front(fills));
      if prev.totalQuantity != 0.0 {
        BlendOfMean(prev.avgPrice, prev.totalQuantity, prev.totalNotional, NotionalOf(f), f.quantity);
      } else {
        FirstNotional(f);
      }
    }
  }

  /** A fill's own profit: what a position on the other side, entered at `entryPrice`,
      gains on its quantity, less the commission if there is one. */
  lemma PnlIsGainOfOtherSide(f: Fill, entryPrice: Decimal)
    ensures var exited := if f.side == Buy then Sell else Buy;
            var gain := exited.Signed((f.price - entryPrice) * f.quantity);
            f.Pnl(entryPrice) == if f.commission == None then gain else gain - f.commission.value
  {
    assert (entryPrice - f.price) * f.quantity == -((f.price - entryPrice) * f.quantity);
  }

  lemma FirstNotional(f: Fill)
    ensures f.price * f.quantity == NotionalOf(f)
  {
  }

  lemma AverageIsQuotient(fills: seq<Fill>)
    requires fills != []
    ensures Sum(QuantityOf, fills) > 0.0
    ensures Aggregated(fills, Exact).avgPrice == Mean(Sum(NotionalOf, fills), Sum(QuantityOf, fills))
  {
    hide *;
    RunningAverageIsWeightedMean(fills);
    SumOfQuantitiesPositive(fills);
    var a := Aggregated(fills, Exact);
    MeanUnique(a.avgPrice, a.totalNotional, a.totalQuantity);
  }

  /** The order in which fills arrive does not matter, for any field. */
  lemma AggregationIgnoresOrder(fills: seq<Fill>, permuted: seq<Fill>)
    requires multiset(fills) == multiset(permuted)
    ensures Aggregated(fills, Exact) == Aggregated(permuted, Exact)
  {
    assert |multiset(fills)| == |fills| && |multiset(permuted)| == |permuted|;
    if fills != [] {
      hide *;
      SumPermutation(QuantityOf, fills, permuted);
      SumPermutation(NotionalOf, fills, permuted);
      SumPermutation(CommissionOf, fills, permuted);
      AverageIsQuotient(fills);
      AverageIsQuotient(permuted);
    }
  }

  lemma MeanOfOne(f: Fill)
    ensures Mean(NotionalOf(f), f.quantity) == f.price
  {
    assert f.price * f.quantity == NotionalOf(f);
    MeanUnique(f.price, NotionalOf(f), f.quantity);
  }

  /** One rounding error for every division made by n fills. */
  function ErrorBound(n: nat, eps: real): real {
    if n <= 1 then 0.0 else ErrorBound(n - 1, eps) + eps
  }

  lemma OneMore(x: real, eps: real)
    ensures (x + 1.0) * eps == x * eps + eps
  {
  }

  lemma {:induction false} ErrorBoundClosedForm(n: nat, eps: real)
    requires n > 0
    ensures ErrorBound(n, eps) == (n - 1) as real * eps
  {
    if n > 1 {
      ErrorBoundClosedForm(n - 1, eps);
      OneMore((n - 2) as real, eps);
      assert (n - 1) as real == (n - 2) as real + 1.0;
    } else {
      assert (n - 1) as real == 0.0;
    }
  }

  /** With every division rounded within `eps`, n fills leave the average within
      (n - 1) * eps of total notional over total quantity. */
  lemma {:induction false} RoundedAverageError(fills: seq<Fill>, rounding: nat -> real, eps: real)
    requires fills != []
    requires forall i: nat :: Abs(rounding(i)) <= eps
    ensures var a := Aggregated(fills, rounding);
            a.totalQuantity > 0.0 &&
            Abs(a.avgPrice - Mean(a.totalNotional, a.totalQuantity)) <= (|fills| - 1) as real * eps
  {
    ErrorAccumulates(fills, rounding, eps);
    ErrorBoundClosedForm(|fills|, eps);
    hide *;
  }

  lemma {:induction false} ErrorAccumulates(fills: seq<Fill>, rounding: nat -> real, eps: real)
    requires fills != []
    requires forall i: nat :: Abs(rounding(i)) <= eps
    ensures var a := Aggregated(fills, rounding);
            a.totalQuantity > 0.0 &&
            Abs(a.avgPrice - Mean(a.totalNotional, a.totalQuantity)) <= ErrorBound(|fills|, eps)
    decreases |fills|
  {
    hide Blend, Mean, NotionalOf;
    SumOfQuantitiesPositive(fills);
    var front, f := Front(fills), Last(fills);
    if front == [] {
      MeanOfOne(f);
    } else {
      SumOfQuantitiesPositive(front);
      ErrorAccumulates(front, rounding, eps);
      var prev := Aggregated(front, rounding);
      ErrorStep(prev.avgPrice, prev.totalQuantity, prev.totalNotional, NotionalOf(f), f.quantity);
    }
  }

  /** The entity: fields updated in place by `add_fill`. */
  class FillAggregation {
    var totalQuantity: Decimal
    var avgPrice: Decimal
    var totalNotional: Decimal
    var totalCommission: Decimal
    var fillCount: nat

    function Value(): Aggregate
      reads this
    {
      Aggregate(totalQuantity, avgPrice, totalNotional, totalCommission, fillCount)
    }

    constructor ()
      ensures Value() == EMPTY_AGGREGATE
    {
      totalQuantity, avgPrice, totalNotional, totalCommission, fillCount := 0.0, 0.0, 0.0, 0.0, 0;
    }

    method Add(fill: Fill)
      requires totalQuantity >= 0.0
      modifies this
      ensures Value() == Accumulate(old(Value()), fill, 0.0)
    {
      var notional := fill.price * fill.quantity;
      totalNotional := totalNotional + notional;
      if fill.commission.Some? {
        totalCommission := totalCommission + fill.commission.value;
      }
      var prevQuantity := totalQuantity;
      totalQuantity := prevQuantity + fill.quantity;
      if totalQuantity > 0.0 {
        var newAvg := fill.price;
        if prevQuantity != 0.0 {
          var prevNotional := avgPrice * prevQuantity;
          newAvg := (prevNotional + notional) / totalQuantity;
        }
        avgPrice := newAvg;
      }
      fillCount := fillCount + 1;
    }
  }

  /** `from_fills`: the loop over the iterator. Quantity, notional and commission
      are the sums, and the average is their quotient. */
  method FromFills(fills: seq<Fill>) returns (a: Aggregate)
    ensures a.totalQuantity == Sum(QuantityOf, fills)
    ensures a.totalNotional == Sum(NotionalOf, fills)
    ensures a.totalCommission == Sum(CommissionOf, fills)
    ensures a.fillCount == |fills|
    ensures fills != [] ==> a.totalQuantity > 0.0 && a.avgPrice == Mean(a.totalNotional, a.totalQuantity)
  {
    hide Accumulate;
    var agg := new FillAggregation();
    for i := 0 to |fills|
      invariant agg.Value() == Aggregated(fills[..i], Exact)
    {
      agg.Add(fills[i]);
      FrontLast(fills[..i], fills[i]);
      assert fills[..i + 1] == fills[..i] + [fills[i]];
    }
    assert fills[..|fills|] == fills;
    a := agg.Value();
    if fills != [] {
      AverageIsQuotient(fills);
    }
  }
}
