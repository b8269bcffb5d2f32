/** Portfolio metrics (crates/application/src/risk/metrics.rs). */
module RiskMetrics {
  import opened Values
  import opened Positions

  function MarketValueOf(p: PositionData): real { p.MarketValue() }

  function AbsValueOf(p: PositionData): real { Abs(p.MarketValue()) }

  function SignedValueOf(p: PositionData): real { p.side.Signed(p.MarketValue()) }

  predicate IsLong(p: PositionData) { p.side == Buy }

  predicate IsShort(p: PositionData) { p.side == Sell }

  function UnrealizedOf(p: PositionData): real { p.unrealizedPnl }

  /** Quantities and prices are never negative, so neither are market values. */
  predicate Valued(positions: seq<PositionData>) {
    forall p :: p in positions ==> p.quantity >= 0.0 && p.currentPrice >= 0.0
  }

  datatype Calculator = Calculator(availableCapital: Decimal, marginRequirementPct: Decimal)

  datatype Metrics = Metrics(
    totalLong: Decimal,
    totalShort: Decimal,
    netExposure: Decimal,
    grossExposure: Decimal,
    unrealizedPnl: Decimal,
    openCount: nat,
    longCount: nat,
    shortCount: nat,
    maxConcentration: Decimal,
    marginRequired: Decimal,
    availableBuyingPower: Decimal,
    marginUtilization: Decimal)

  /** The largest absolute market value; zero for an empty list. */
  function MaxAbsValue(positions: seq<PositionData>): (m: real)
    ensures m >= 0.0
  {
    if positions == [] then 0.0 else Max(MaxAbsValue(Front(positions)), AbsValueOf(Last(positions)))
  }

  function Calculate(c: Calculator, positions: seq<PositionData>): Metrics {
    var long := SumWhere(MarketValueOf, IsLong, positions);
    var short := SumWhere(AbsValueOf, IsShort, positions);
    var gross := long + short;
    var margin := gross * c.marginRequirementPct;
    Metrics(
      long, short, long - short, gross,
      Sum(UnrealizedOf, positions),
      |positions|, CountWhere(IsLong, positions), CountWhere(IsShort, positions),
      if gross > 0.0 then MaxAbsValue(positions) / gross else 0.0,
      margin,
      c.availableCapital - margin,
      if c.availableCapital > 0.0 then margin / c.availableCapital else 0.0)
  }

  lemma {:induction false} ExposuresAddUp(positions: seq<PositionData>)
    requires Valued(positions)
    ensures var long, short := SumWhere(MarketValueOf, IsLong, positions), SumWhere(AbsValueOf, IsShort, positions);
            long >= 0.0 && short >= 0.0 && long + short == Sum(MarketValueOf, positions) == Sum(AbsValueOf, positions)
            && long - short == Sum(SignedValueOf, positions)
    ensures CountWhere(IsLong, positions) + CountWhere(IsShort, positions) == |positions|
    decreases |positions|
  {
    if positions != [] {
      ExposuresAddUp(Front(positions));
      ValueIsNonNegative(Last(positions));
      hide MarketValueOf, AbsValueOf, SignedValueOf;
    }
  }

  lemma ValueIsNonNegative(p: PositionData)
    requires p.quantity >= 0.0 && p.currentPrice >= 0.0
    ensures MarketValueOf(p) == AbsValueOf(p) >= 0.0
    ensures SignedValueOf(p) == p.side.Signed(MarketValueOf(p))
  {
  }

  function Copies(n: nat, m: real): real {
    if n == 0 then 0.0 else Copies(n - 1, m) + m
  }

  lemma {:induction false} CopiesGrow(n: nat, m: real, m': real)
    requires m <= m'
    ensures Copies(n, m) <= Copies(n, m')
    decreases n
  {
    if n > 0 {
      CopiesGrow(n - 1, m, m');
    }
  }

  lemma {:induction false} CopiesAreProduct(n: nat, m: real)
    ensures Copies(n, m) == n as real * m
  {
    if n > 0 {
      CopiesAreProduct(n - 1, m);
      PlusOne((n - 1) as real, m);
    }
  }

  lemma PlusOne(x: real, m: real)
    ensures (x + 1.0) * m == x * m + m
  {
  }

  lemma {:induction false} LargestBounds(positions: seq<PositionData>)
    ensures MaxAbsValue(positions) <= Sum(AbsValueOf, positions) <= Copies(|positions|, MaxAbsValue(positions))
    ensures Sum(AbsValueOf, positions) >= 0.0
    decreases |positions|
  {
    hide AbsValueOf;
    if positions != [] {
      LargestBounds(Front(positions));
      AbsIsNonNegative(Last(positions));
      CopiesGrow(|positions| - 1, MaxAbsValue(Front(positions)), MaxAbsValue(positions));
    }
  }

  lemma AbsIsNonNegative(p: PositionData)
    ensures AbsValueOf(p) >= 0.0
  {
  }

  function SignOf(p: PositionData): real { p.side.Sign() }

  /** What was paid for a position, less what was received. */
  function SignedCostOf(p: PositionData): real { p.side.Signed(p.avgEntryPrice * p.quantity) }

  lemma {:induction false} CountsAreSigned(positions: seq<PositionData>)
    ensures (CountWhere(IsLong, positions) - CountWhere(IsShort, positions)) as real == Sum(SignOf, positions)
    decreases |positions|
  {
    if positions != [] {
      CountsAreSigned(Front(positions));
    }
  }

  /** Marked positions: together they have gained what they are worth over what they cost. */
  lemma {:induction false} UnrealizedIsValueOverCost(positions: seq<PositionData>)
    requires forall p :: p in positions ==> p.unrealizedPnl == p.Gain(p.currentPrice)
    ensures Sum(UnrealizedOf, positions) == Sum(SignedValueOf, positions) - Sum(SignedCostOf, positions)
    decreases |positions|
  {
    if positions != [] {
      UnrealizedIsValueOverCost(Front(positions));
      var p := Last(positions);
      assert (p.currentPrice - p.avgEntryPrice) * p.quantity == p.currentPrice * p.quantity - p.avgEntryPrice * p.quantity;
    }
  }

  lemma {:induction false} LargestIsOne(positions: seq<PositionData>)
    ensures forall p :: p in positions ==> AbsValueOf(p) <= MaxAbsValue(positions)
    ensures positions != [] ==> exists p :: p in positions && AbsValueOf(p) == MaxAbsValue(positions)
    decreases |positions|
  {
    if positions != [] {
      LargestIsOne(Front(positions));
      assert Last(positions) in positions;
      AbsIsNonNegative(Last(positions));
      assert positions == Front(positions) + [Last(positions)];
      if MaxAbsValue(positions) == MaxAbsValue(Front(positions)) && Front(positions) != [] {
        var p :| p in Front(positions) && AbsValueOf(p) == MaxAbsValue(Front(positions));
        assert p in positions;
      }
    }
  }

  /** What fixes the single figures: with sum and difference of the long and the short
      ones known, so is each, in value and in number; and the profit of marked
      positions is their value over their cost. */
  lemma TotalsDetermined(c: Calculator, positions: seq<PositionData>)
    requires Valued(positions)
    ensures var m := Calculate(c, positions);
            && m.totalLong + m.totalShort == Sum(MarketValueOf, positions)
            && m.totalLong - m.totalShort == Sum(SignedValueOf, positions)
            && m.longCount + m.shortCount == |positions|
            && (m.longCount - m.shortCount) as real == Sum(SignOf, positions)
            && ((forall p :: p in positions ==> p.unrealizedPnl == p.Gain(p.currentPrice)) ==>
                  m.unrealizedPnl == Sum(SignedValueOf, positions) - Sum(SignedCostOf, positions))
  {
    ExposuresAddUp(positions);
    CountsAreSigned(positions);
    if forall p :: p in positions ==> p.unrealizedPnl == p.Gain(p.currentPrice) {
      UnrealizedIsValueOverCost(positions);
    }
    hide Sum, SumWhere, CountWhere, MaxAbsValue;
  }

  /** The margin is its share of gross exposure, and utilization is the margin's share
      of a positive capital. */
  lemma MarginDetermined(c: Calculator, positions: seq<PositionData>)
    requires Valued(positions)
    ensures var m := Calculate(c, positions);
            && m.marginRequired == Sum(MarketValueOf, positions) * c.marginRequirementPct
            && (c.availableCapital > 0.0 ==> m.marginUtilization * c.availableCapital == m.marginRequired)
            && (c.availableCapital <= 0.0 ==> m.marginUtilization == 0.0)
  {
    hide *;
    GrossIsTotal(c, positions);
    ShareTimesWhole(Calculate(c, positions).marginRequired, c.availableCapital);
  }

  lemma GrossIsTotal(c: Calculator, positions: seq<PositionData>)
    requires Valued(positions)
    ensures var (m, total) := (Calculate(c, positions), Sum(MarketValueOf, positions));
            && total >= 0.0
            && m.marginRequired == total * c.marginRequirementPct
            && m.marginUtilization == (if c.availableCapital > 0.0 then m.marginRequired / c.availableCapital else 0.0)
            && m.maxConcentration == (if total > 0.0 then MaxAbsValue(positions) / total else 0.0)
  {
    hide *;
    ExposuresAddUp(positions);
    SharesOf(c, positions, Sum(MarketValueOf, positions));
  }

  lemma SharesOf(c: Calculator, positions: seq<PositionData>, gross: real)
    requires gross == SumWhere(MarketValueOf, IsLong, positions) + SumWhere(AbsValueOf, IsShort, positions)
    ensures var m := Calculate(c, positions);
            && m.marginRequired == gross * c.marginRequirementPct
            && m.marginUtilization == (if c.availableCapital > 0.0 then m.marginRequired / c.availableCapital else 0.0)
            && m.maxConcentration == (if gross > 0.0 then MaxAbsValue(positions) / gross else 0.0)
  {
    hide Sum, SumWhere, CountWhere, MaxAbsValue;
  }

  /** The concentration is the share of one position that no other exceeds. */
  lemma ConcentrationIsLargestShare(c: Calculator, positions: seq<PositionData>)
    requires Valued(positions)
    ensures var (share, total) := (Calculate(c, positions).maxConcentration, Sum(MarketValueOf, positions));
            && (total > 0.0 ==>
                  exists p :: p in positions && share * total == MarketValueOf(p)
                    && forall q :: q in positions ==> MarketValueOf(q) <= MarketValueOf(p))
            && (total == 0.0 ==> share == 0.0)
  {
    hide *;
    GrossIsTotal(c, positions);
    if Sum(MarketValueOf, positions) > 0.0 {
      ShareTimesWhole(MaxAbsValue(positions), Sum(MarketValueOf, positions));
      LargestIsLargest(positions);
      var p :| p in positions && MarketValueOf(p) == MaxAbsValue(positions);
    }
  }

  lemma LargestIsLargest(positions: seq<PositionData>)
    requires Valued(positions) && Sum(MarketValueOf, positions) > 0.0
    ensures forall q :: q in positions ==> MarketValueOf(q) <= MaxAbsValue(positions)
    ensures exists p :: p in positions && MarketValueOf(p) == MaxAbsValue(positions)
  {
    assert positions != [];
    LargestIsOne(positions);
    forall q | q in positions ensures AbsValueOf(q) == MarketValueOf(q) {
      ValueIsNonNegative(q);
    }
    var p :| p in positions && AbsValueOf(p) == MaxAbsValue(positions);
    hide MaxAbsValue, AbsValueOf, MarketValueOf, Sum;
  }

  lemma ShareTimesWhole(part: real, whole: real)
    ensures whole > 0.0 ==> part / whole * whole == part
  {
  }

  /** For every position list: gross exposure is the engine's total exposure, net
      exposure is the signed total and within gross, capital is what is margined
      plus what is left, long and short counts add up to the total, and the
      maximum concentration of a portfolio with exposure lies in [1/n, 1]. */
  lemma MetricsAgree(c: Calculator, positions: seq<PositionData>)
    requires Valued(positions)
    ensures var m := Calculate(c, positions);
            && m.grossExposure == Sum(MarketValueOf, positions)
            && m.netExposure == Sum(SignedValueOf, positions) && Abs(m.netExposure) <= m.grossExposure
            && m.availableBuyingPower + m.marginRequired == c.availableCapital
            && m.longCount + m.shortCount == m.openCount == |positions|
            && (m.grossExposure > 0.0 ==>
                  |positions| > 0 && Mean(1.0, |positions| as real) <= m.maxConcentration <= 1.0)
  {
    ExposuresAddUp(positions);
    if Sum(AbsValueOf, positions) > 0.0 {
      ConcentrationBounds(positions);
    }
    hide Sum, SumWhere, MaxAbsValue, CountWhere, Mean;
  }

  lemma ConcentrationBounds(positions: seq<PositionData>)
    requires Sum(AbsValueOf, positions) > 0.0
    ensures |positions| > 0
    ensures Mean(1.0, |positions| as real) <= MaxAbsValue(positions) / Sum(AbsValueOf, positions) <= 1.0
  {
    hide AbsValueOf, MaxAbsValue;
    LargestBounds(positions);
    CopiesAreProduct(|positions|, MaxAbsValue(positions));
    hide *;
    ShareRange(|positions| as real, MaxAbsValue(positions), Sum(AbsValueOf, positions));
  }

  lemma ShareRange(n: real, largest: real, gross: real)
    requires n > 0.0 && 0.0 < gross && largest <= gross <= n * largest
    ensures Mean(1.0, n) <= largest / gross <= 1.0
  {
    var share := largest / gross;
    assert share * gross == largest;
    assert share <= 1.0;
    assert n * share * gross == n * largest;
    assert n * share >= 1.0;
    var inverse := 1.0 / n;
    assert inverse * n == 1.0;
    assert (share - inverse) * n >= 0.0;
  }

  // ------------------------------------------------------------------ sectors

  function SectorOf(sectors: map<Symbol, string>, p: PositionData): string {
    if p.symbol in sectors then sectors[p.symbol] else "Unknown"
  }

  function SectorSum(sectors: map<Symbol, string>, sector: string, positions: seq<PositionData>): real {
    if positions == [] then 0.0
    else SectorSum(sectors, sector, Front(positions))
         + (if SectorOf(sectors, Last(positions)) == sector then AbsValueOf(Last(positions)) else 0.0)
  }

  ghost function SumOfValues(m: map<string, real>): real {
    if m == map[] then 0.0
    else
      var k :| k in m;
      m[k] + SumOfValues(m - {k})
  }

  lemma {:induction false} SumOfValuesWithout(m: map<string, real>, k: string)
    requires k in m
    ensures SumOfValues(m) == m[k] + SumOfValues(m - {k})
    decreases |m|
  {
    var j :| j in m && SumOfValues(m) == m[j] + SumOfValues(m - {j});
    if j != k {
      SumOfValuesWithout(m - {j}, k);
      SumOfValuesWithout(m - {k}, j);
      assert m - {j} - {k} == m - {k} - {j};
    }
  }

  lemma SumOfValuesAfterUpdate(m: map<string, real>, k: string, v: real)
    ensures SumOfValues(m[k := v]) == SumOfValues(m) - (if k in m then m[k] else 0.0) + v
  {
    SumOfValuesWithout(m[k := v], k);
    assert m[k := v] - {k} == m - {k};
    if k in m {
      SumOfValuesWithout(m, k);
    } else {
      assert m - {k} == m;
    }
  }

  /** The position's symbol is mapped to the sector, or not at all and the sector is "Unknown". */
  function InSector(sectors: map<Symbol, string>, sector: string): PositionData -> bool {
    (p: PositionData) => (p.symbol in sectors && sectors[p.symbol] == sector) || (p.symbol !in sectors && sector == "Unknown")
  }

  lemma {:induction false} SectorSumIsSumWhere(sectors: map<Symbol, string>, sector: string, positions: seq<PositionData>)
    ensures SectorSum(sectors, sector, positions) == SumWhere(AbsValueOf, InSector(sectors, sector), positions)
    decreases |positions|
  {
    hide AbsValueOf;
    if positions != [] {
      SectorSumIsSumWhere(sectors, sector, Front(positions));
    }
  }

  lemma SectorOfIff(sectors: map<Symbol, string>, sector: string, p: PositionData)
    ensures InSector(sectors, sector)(p) <==> SectorOf(sectors, p) == sector
  {
  }

  /** The HashMap loop: every sector that occurs gets the total absolute value of its
      positions, and all sectors together give the total exposure. */
  method CalculateSectorExposure(positions: seq<PositionData>, sectors: map<Symbol, string>)
    returns (exposure: map<string, real>)
    ensures forall sector :: sector in exposure <==> exists p :: p in positions && InSector(sectors, sector)(p)
    ensures forall sector :: sector in exposure ==>
              exposure[sector] == SumWhere(AbsValueOf, InSector(sectors, sector), positions)
    ensures SumOfValues(exposure) == Sum(AbsValueOf, positions)
  {
    hide *;
    exposure := map[];
    TallyNothing(sectors);
    assert positions[..0] == [];
    for i := 0 to |positions|
      invariant Tallied(exposure, sectors, positions[..i])
    {
      var p := positions[i];
      var sector := SectorOf(sectors, p);
      var before := if sector in exposure then exposure[sector] else 0.0;
      TallyOne(exposure, sectors, positions[..i], p);
      assert positions[..i + 1] == positions[..i] + [p];
      exposure := exposure[sector := before + AbsValueOf(p)];
    }
    assert positions[..|positions|] == positions;
    TallyReads(exposure, sectors, positions);
  }

  ghost predicate Tallied(exposure: map<string, real>, sectors: map<Symbol, string>, positions: seq<PositionData>) {
    && (forall sector :: sector in exposure ==> exists p :: p in positions && SectorOf(sectors, p) == sector)
    && (forall p :: p in positions ==> SectorOf(sectors, p) in exposure)
    && (forall sector :: SectorSum(sectors, sector, positions) == if sector in exposure then exposure[sector] else 0.0)
    && SumOfValues(exposure) == Sum(AbsValueOf, positions)
  }

  lemma TallyNothing(sectors: map<Symbol, string>)
    ensures Tallied(map[], sectors, [])
  {
  }

  lemma TallyReads(exposure: map<string, real>, sectors: map<Symbol, string>, positions: seq<PositionData>)
    requires Tallied(exposure, sectors, positions)
    ensures forall sector :: sector in exposure <==> exists p :: p in positions && InSector(sectors, sector)(p)
    ensures forall sector :: sector in exposure ==>
              exposure[sector] == SumWhere(AbsValueOf, InSector(sectors, sector), positions)
    ensures SumOfValues(exposure) == Sum(AbsValueOf, positions)
  {
    forall sector, p ensures InSector(sectors, sector)(p) <==> SectorOf(sectors, p) == sector {
      SectorOfIff(sectors, sector, p);
    }
    forall sector ensures SectorSum(sectors, sector, positions) == SumWhere(AbsValueOf, InSector(sectors, sector), positions) {
      SectorSumIsSumWhere(sectors, sector, positions);
    }
    hide InSector, SumWhere;
    hide AbsValueOf, SumOfValues, Sum, SectorSum, SectorOf;
  }

  lemma TallyOne(exposure: map<string, real>, sectors: map<Symbol, string>, positions: seq<PositionData>, p: PositionData)
    requires Tallied(exposure, sectors, positions)
    ensures var sector := SectorOf(sectors, p);
            var before := if sector in exposure then exposure[sector] else 0.0;
            Tallied(exposure[sector := before + AbsValueOf(p)], sectors, positions + [p])
  {
    hide AbsValueOf, SumOfValues, SectorOf, SectorSum, Sum;
    var sector, all := SectorOf(sectors, p), positions + [p];
    var before := if sector in exposure then exposure[sector] else 0.0;
    var after := exposure[sector := before + AbsValueOf(p)];
    SumOfValuesAfterUpdate(exposure, sector, before + AbsValueOf(p));
    SumSnoc(AbsValueOf, positions, p);
    assert p in all;
    forall s | s in after ensures exists q :: q in all && SectorOf(sectors, q) == s {
      if s != sector {
        var q :| q in positions && SectorOf(sectors, q) == s;
        assert q in all;
      }
    }
    forall s ensures SectorSum(sectors, s, all) == if s in after then after[s] else 0.0 {
      SectorSumSnoc(sectors, s, positions, p);
    }
  }

  lemma SectorSumSnoc(sectors: map<Symbol, string>, sector: string, positions: seq<PositionData>, p: PositionData)
    ensures SectorSum(sectors, sector, positions + [p])
              == SectorSum(sectors, sector, positions) + (if SectorOf(sectors, p) == sector then AbsValueOf(p) else 0.0)
  {
    FrontLast(positions, p);
  }

  // ------------------------------------------------------------- square root

  function NewtonStep(v: real, x: real): real
    requires x != 0.0
  {
    (x + v / x) / 2.0
  }

  /** By how much the square of x exceeds v. */
  function Overshoot(v: real, x: real): real {
    x * x - v
  }

  /** The overshoot after the first step from v / 2. */
  function FirstOvershoot(v: real): real {
    (v / 4.0 - 1.0) * (v / 4.0 - 1.0)
  }

  function Square(x: real): real {
    x * x
  }

  /** The square of a Newton step overshoots the value by the square of the step. */
  lemma StepOvershoot(v: real, x: real)
    requires x > 0.0 && v > 0.0
    ensures var y := NewtonStep(v, x);
            y > 0.0 && y >= x / 2.0 && Overshoot(v, y) == Square(y - x) >= 0.0
  {
    var q := v / x;
    assert q * x == v && q > 0.0;
    var y := (x + q) / 2.0;
    assert y * y - q * x == (y - x) * (y - x);
    NonNegativeSquare(y - x);
  }

  lemma NonNegativeSquare(d: real)
    ensures Square(d) >= 0.0
  {
  }

  /** From above the root, each further step shrinks the overshoot at least fourfold. */
  lemma StepContracts(v: real, x: real)
    requires x > 0.0 && v > 0.0 && Overshoot(v, x) >= 0.0
    ensures 4.0 * Overshoot(v, NewtonStep(v, x)) <= Overshoot(v, x)
  {
    StepOvershoot(v, x);
    var y, q := NewtonStep(v, x), v / x;
    var d := x - q;
    assert q * x == v && y - x == -d / 2.0;
    assert 4.0 * Square(y - x) == d * d;
    assert x * x - v == d * x;
    assert 0.0 <= d <= x by {
      DivideBelow(v, x);
    }
    assert d * d <= d * x;
  }

  lemma DivideBelow(v: real, x: real)
    requires x > 0.0 && 0.0 < v <= x * x
    ensures 0.0 < v / x <= x
  {
    var q := v / x;
    assert q * x == v;
    if x - q < 0.0 {
      NegativeProduct(x - q, x);
    }
  }

  lemma NegativeProduct(a: real, b: real)
    requires a < 0.0 < b
    ensures a * b < 0.0
  {
  }

  lemma FirstStep(v: real)
    requires v > 0.0
    ensures NewtonStep(v, v / 2.0) == v / 4.0 + 1.0
    ensures Overshoot(v, v / 4.0 + 1.0) == FirstOvershoot(v)
  {
    assert v / (v / 2.0) == 2.0;
  }

  function Quartered(x: real, n: nat): real {
    if n == 0 then x else Quartered(x, n - 1) / 4.0
  }

  function Halved(x: real, n: nat): real {
    if n == 0 then x else Halved(x, n - 1) / 2.0
  }

  /** x after i steps from v / 2. */
  ghost predicate Closing(v: real, x: real, i: nat) {
    && v > 0.0 && x > 0.0
    && (i == 0 ==> x == v / 2.0)
    && (i > 0 ==> && 0.0 <= Overshoot(v, x) <= Quartered(FirstOvershoot(v), i - 1)
                  && x >= Halved(v / 4.0 + 1.0, i - 1))
  }

  lemma Advance(v: real, x: real, i: nat)
    requires Closing(v, x, i)
    ensures Closing(v, NewtonStep(v, x), i + 1)
    ensures Overshoot(v, NewtonStep(v, x)) == Square(NewtonStep(v, x) - x)
  {
    hide NewtonStep, FirstOvershoot, Overshoot, Square;
    StepOvershoot(v, x);
    if i == 0 {
      FirstStep(v);
    } else {
      StepContracts(v, x);
    }
  }

  lemma SmallSquare(d: real, t: real)
    requires Abs(d) < t
    ensures Square(d) < Square(t)
  {
    PositiveProduct(t - d, t + d);
    assert (t - d) * (t + d) == t * t - d * d;
  }

  lemma PositiveProduct(a: real, b: real)
    requires a > 0.0 && b > 0.0
    ensures a * b > 0.0
  {
  }

  lemma NineDivisions(x: real)
    ensures Quartered(x, 9) == x / 262144.0 && Halved(x, 9) == x / 512.0
  {
    assert Quartered(x, 1) == x / 4.0 && Halved(x, 1) == x / 2.0;
    assert Quartered(x, 2) == x / 16.0 && Halved(x, 2) == x / 4.0;
    assert Quartered(x, 4) == x / 256.0 && Halved(x, 4) == x / 16.0;
    assert Quartered(x, 6) == x / 4096.0 && Halved(x, 6) == x / 64.0;
    assert Quartered(x, 8) == x / 65536.0 && Halved(x, 8) == x / 256.0;
  }

  lemma {:induction false} NoMoreThanNineHalvings(x: real, n: nat)
    requires n <= 9 && x > 0.0
    ensures Halved(x, 9) <= Halved(x, n)
    decreases 9 - n
  {
    if n < 9 {
      NoMoreThanNineHalvings(x, n + 1);
      HalvesArePositive(x, n);
    }
  }

  lemma {:induction false} HalvesArePositive(x: real, n: nat)
    requires x > 0.0
    ensures Halved(x, n) > 0.0
  {
    if n > 0 {
      HalvesArePositive(x, n - 1);
    }
  }

  // ---------------------------------------------- when ten steps are enough

  /** x after n steps, if no step were the last. */
  function Iterate(v: real, n: nat): (x: real)
    requires v > 0.0
    ensures x > 0.0
  {
    if n == 0 then v / 2.0
    else
      StepOvershoot(v, Iterate(v, n - 1));
      NewtonStep(v, Iterate(v, n - 1))
  }

  /** The overshoot relative to v, n steps after the first: it depends on v alone. */
  function RelativeOvershoot(v: real, n: nat): (w: real)
    requires v > 0.0
    ensures w >= 0.0
  {
    if n == 0 then
      NonNegativeRatio(v / 4.0 - 1.0, v);
      FirstOvershoot(v) / v
    else
      var w := RelativeOvershoot(v, n - 1);
      NonNegativeRatio(w, 4.0 * (1.0 + w));
      w * w / (4.0 * (1.0 + w))
  }

  lemma NonNegativeRatio(a: real, b: real)
    requires b > 0.0
    ensures a * a / b >= 0.0
  {
    var q := a * a / b;
    assert q * b == a * a >= 0.0 by {
      NonNegativeSquare(a);
    }
    if q < 0.0 {
      NegativeProduct(q, b);
    }
  }

  /** A relative overshoot of w becomes one of w^2 / (4 (1 + w)). */
  lemma RelativeStep(v: real, x: real, w: real, next: real)
    requires v > 0.0 && x > 0.0 && w >= 0.0
    requires Overshoot(v, x) == v * w && next * (4.0 * (1.0 + w)) == w * w
    ensures Overshoot(v, NewtonStep(v, x)) == v * next
  {
    var y, q := NewtonStep(v, x), v / x;
    StepOvershoot(v, x);
    assert x * q == v;
    assert y - x == (q - x) / 2.0;
    StepIdentity(v, x, q, w);
    var d := Overshoot(v, y) - v * next;
    assert 4.0 * Overshoot(v, y) == (q - x) * (q - x);
    assert d * (4.0 * (1.0 + w)) == 0.0 by {
      assert v * next * (4.0 * (1.0 + w)) == v * (w * w);
    }
    ZeroProduct(d, 4.0 * (1.0 + w));
  }

  lemma StepIdentity(v: real, x: real, q: real, w: real)
    requires x > 0.0 && v > 0.0 && x * q == v && x * x - v == v * w
    ensures (q - x) * (q - x) * (1.0 + w) == v * (w * w)
  {
    assert v * (1.0 + w) == x * x;
    assert x * (x - q) == v * w;
    var d := (q - x) * (q - x) * (1.0 + w) - v * (w * w);
    assert v * d == 0.0;
    ZeroProduct(d, v);
  }

  lemma ZeroProduct(d: real, b: real)
    requires b > 0.0 && d * b == 0.0
    ensures d == 0.0
  {
  }

  lemma NextRelative(v: real, n: nat)
    requires v > 0.0 && n > 0
    ensures var w := RelativeOvershoot(v, n - 1);
            RelativeOvershoot(v, n) * (4.0 * (1.0 + w)) == w * w
  {
  }

  lemma FirstIterate(v: real)
    requires v > 0.0
    ensures Iterate(v, 0) == v / 2.0
  {
  }

  lemma NextIterate(v: real, n: nat)
    requires v > 0.0
    ensures Iterate(v, n + 1) == NewtonStep(v, Iterate(v, n))
  {
  }

  lemma FirstRelative(v: real)
    requires v > 0.0
    ensures Overshoot(v, NewtonStep(v, Iterate(v, 0))) == v * RelativeOvershoot(v, 0)
  {
    FirstStep(v);
    var q := FirstOvershoot(v) / v;
    assert q * v == FirstOvershoot(v);
  }

  lemma {:induction false} IterateOvershoot(v: real, n: nat)
    requires v > 0.0
    ensures Overshoot(v, Iterate(v, n + 1)) == v * RelativeOvershoot(v, n)
  {
    hide RelativeOvershoot, Iterate, NewtonStep, Overshoot;
    NextIterate(v, n);
    if n == 0 {
      FirstRelative(v);
    } else {
      IterateOvershoot(v, n - 1);
      NextRelative(v, n);
      RelativeStep(v, Iterate(v, n), RelativeOvershoot(v, n - 1), RelativeOvershoot(v, n));
    }
  }

  lemma {:induction false} IterateCloses(v: real, n: nat)
    requires v > 0.0
    ensures Closing(v, Iterate(v, n), n)
  {
    if n > 0 {
      IterateCloses(v, n - 1);
      Advance(v, Iterate(v, n - 1), n - 1);
    }
  }

  lemma {:induction false} RelativeShrinks(v: real, n: nat, more: nat)
    requires v > 0.0
    ensures RelativeOvershoot(v, n + more) <= Quartered(RelativeOvershoot(v, n), more)
    ensures RelativeOvershoot(v, n + more) <= RelativeOvershoot(v, n)
    decreases more
  {
    hide RelativeOvershoot;
    if more > 0 {
      RelativeShrinks(v, n, more - 1);
      NextRelative(v, n + more);
      QuarterOfRatio(RelativeOvershoot(v, n + more), RelativeOvershoot(v, n + more - 1));
    }
  }

  lemma QuarterOfRatio(next: real, w: real)
    requires w >= 0.0 && next >= 0.0 && next * (4.0 * (1.0 + w)) == w * w
    ensures next <= w / 4.0
  {
    assert (w - 4.0 * next) * (1.0 + w) == w;
    if w - 4.0 * next < 0.0 {
      NegativeProduct(w - 4.0 * next, 1.0 + w);
    }
  }

  /** A result at least twice the root. */
  predicate FarOff(v: real, r: real) {
    Square(r) >= 4.0 * v
  }

  lemma FarOffIff(v: real, r: real, w: real)
    requires v > 0.0 && Overshoot(v, r) == v * w
    ensures FarOff(v, r) <==> w >= 3.0
  {
    assert Square(r) - 4.0 * v == v * (w - 3.0);
    if w < 3.0 {
      PositiveProduct(v, 3.0 - w);
    } else if w > 3.0 {
      PositiveProduct(v, w - 3.0);
    }
  }

  /** Ten steps are too few both for large values and for small ones. */
  lemma TooFewSteps(v: real, r: real)
    requires v >= 16777216.0 || 0.0 < v <= 1.0 / 1048576.0
    requires r >= (v / 4.0 + 1.0) / 512.0
    ensures FarOff(v, r)
  {
    if v >= 16777216.0 {
      var w := r * 2048.0;
      SquareGrows(v, w);
      assert w * w == 4194304.0 * Square(r);
    } else {
      SquareKeepsOrder(1.0 / 512.0, r);
    }
  }

  lemma SquareKeepsOrder(a: real, b: real)
    requires 0.0 <= a <= b
    ensures Square(a) <= Square(b)
  {
  }

  lemma SquareGrows(v: real, w: real)
    requires 16777216.0 <= v <= w
    ensures w * w >= 16777216.0 * v
  {
    assert w * w >= w * v >= 16777216.0 * v;
  }

  /** The exact condition for a result at least twice the root, from both sides: it
      holds from 2^24 on and up to 2^-20, and fails while (v / 4 - 1)^2 < 3 * 4^9 * v. */
  lemma FarOffRegions(v: real)
    requires v > 0.0
    ensures v >= 16777216.0 || v <= 1.0 / 1048576.0 ==> RelativeOvershoot(v, 9) >= 3.0
    ensures FirstOvershoot(v) < 786432.0 * v ==> RelativeOvershoot(v, 9) < 3.0
  {
    hide Overshoot, FirstOvershoot, NewtonStep, Quartered, Halved, FarOff, Iterate;
    NineDivisions(RelativeOvershoot(v, 0));
    NineDivisions(v / 4.0 + 1.0);
    RelativeShrinks(v, 0, 9);
    IterateCloses(v, 10);
    IterateOvershoot(v, 9);
    FarOffIff(v, Iterate(v, 10), RelativeOvershoot(v, 9));
    if v >= 16777216.0 || v <= 1.0 / 1048576.0 {
      TooFewSteps(v, Iterate(v, 10));
    }
    if FirstOvershoot(v) < 786432.0 * v {
      RatioBelow(FirstOvershoot(v), v, 786432.0);
      assert RelativeOvershoot(v, 0) == FirstOvershoot(v) / v;
    }
    hide RelativeOvershoot;
  }

  /** x to the power 2^n. */
  function Squared(x: real, n: nat): real {
    if n == 0 then x else Square(Squared(x, n - 1))
  }

  /** In closed form, with s the root of v: a result at least twice s comes of
      exactly those v for which ((s - 2) / (s + 2))^1024 is a third or more. */
  lemma FarOffClosedForm(v: real, s: real)
    requires s > 0.0 && v > 0.0 && Square(s) == v
    ensures RelativeOvershoot(v, 9) >= 3.0 <==> Squared((s - 2.0) / (s + 2.0), 10) >= 1.0 / 3.0
  {
    hide Overshoot, NewtonStep, Square, Squared, FarOff, Iterate, RelativeOvershoot;
    var r := Iterate(v, 10);
    IterateOvershoot(v, 9);
    FarOffIff(v, r, RelativeOvershoot(v, 9));
    var q := (s - 2.0) / (s + 2.0);
    DistanceSquares(v, s, q, 10);
    TwiceTheRootIff(v, s, r, Squared(q, 10));
  }

  lemma TwiceTheRootIff(v: real, s: real, r: real, p: real)
    requires s > 0.0 && r > 0.0 && Square(s) == v && AtDistance(s, r, p)
    ensures FarOff(v, r) <==> p >= 1.0 / 3.0
  {
    assert Square(r) - 4.0 * (s * s) == (r - 2.0 * s) * (r + 2.0 * s);
    assert (r + s) * (3.0 * p - 1.0) == 2.0 * (r - 2.0 * s);
    SameSign(r - 2.0 * s, r + 2.0 * s);
    SameSign(3.0 * p - 1.0, r + s);
    assert (3.0 * p - 1.0) * (r + s) == (r + s) * (3.0 * p - 1.0);
  }

  lemma SameSign(a: real, b: real)
    requires b > 0.0
    ensures a * b >= 0.0 <==> a >= 0.0
  {
    if a < 0.0 {
      NegativeProduct(a, b);
    }
  }

  /** The distance of x from the root s, relative to their sum. */
  predicate AtDistance(s: real, x: real, p: real) {
    x - s == (x + s) * p
  }

  /** A Newton step squares that distance. */
  lemma {:induction false} DistanceSquares(v: real, s: real, q: real, n: nat)
    requires v > 0.0 && s > 0.0 && Square(s) == v && q == (s - 2.0) / (s + 2.0)
    ensures AtDistance(s, Iterate(v, n), Squared(q, n))
  {
    hide Iterate, NewtonStep, Square, Squared, AtDistance;
    NextSquared(q, n);
    if n == 0 {
      StartDistance(v, s, q);
    } else {
      DistanceSquares(v, s, q, n - 1);
      NextIterate(v, n - 1);
      DistanceStep(v, s, Iterate(v, n - 1), Squared(q, n - 1));
    }
  }

  lemma NextSquared(x: real, n: nat)
    ensures Squared(x, n) == if n == 0 then x else Square(Squared(x, n - 1))
  {
  }

  lemma StartDistance(v: real, s: real, q: real)
    requires v > 0.0 && s > 0.0 && Square(s) == v && q == (s - 2.0) / (s + 2.0)
    ensures AtDistance(s, Iterate(v, 0), q)
  {
    assert q * (s + 2.0) == s - 2.0;
    assert Iterate(v, 0) == s * s / 2.0;
    assert s * s / 2.0 + s == s / 2.0 * (s + 2.0);
  }

  lemma DistanceStep(v: real, s: real, x: real, p: real)
    requires s > 0.0 && x > 0.0 && Square(s) == v && AtDistance(s, x, p)
    ensures AtDistance(s, NewtonStep(v, x), Square(p))
  {
    var q := v / x;
    assert q * x == s * s;
    var y := (x + q) / 2.0;
    assert 2.0 * x * (y - s) == (x - s) * (x - s);
    assert 2.0 * x * (y + s) == (x + s) * (x + s);
    var d := y - s - (y + s) * (p * p);
    assert (2.0 * x) * d == (x - s) * (x - s) - (x + s) * (x + s) * (p * p);
    assert (x + s) * (x + s) * (p * p) == ((x + s) * p) * ((x + s) * p);
    ZeroProduct(d, 2.0 * x);
  }

  lemma RatioBelow(a: real, v: real, k: real)
    requires v > 0.0 && a < k * v
    ensures a / v < k
  {
    var q := a / v;
    assert q * v == a;
    if q >= k {
      assert q * v >= k * v;
    }
  }

  lemma TinyOvershoot(v: real, w: real, overshoot: real)
    requires v > 1.0 / 1048576.0 && overshoot == v * w && overshoot < 0.00000000000000000001
    ensures w < 3.0
  {
  }

  /** An early exit does not change which side of twice the root the result is on. */
  lemma EarlyResult(v: real, i: nat)
    requires v > 0.0 && i <= 9 && Abs(Iterate(v, i + 1) - Iterate(v, i)) < 0.0000000001
    ensures var r := Iterate(v, i + 1);
            && 0.0 <= Overshoot(v, r) < 0.00000000000000000001
            && r >= (v / 4.0 + 1.0) / 512.0
            && (FarOff(v, r) <==> RelativeOvershoot(v, 9) >= 3.0)
  {
    hide Overshoot, FirstOvershoot, NewtonStep, Quartered, Halved, FarOff, Iterate, RelativeOvershoot;
    IterateCloses(v, i);
    NextIterate(v, i);
    Advance(v, Iterate(v, i), i);
    SmallSquare(Iterate(v, i + 1) - Iterate(v, i), 0.0000000001);
    NineDivisions(v / 4.0 + 1.0);
    NoMoreThanNineHalvings(v / 4.0 + 1.0, i);
    IterateOvershoot(v, i);
    FarOffIff(v, Iterate(v, i + 1), RelativeOvershoot(v, i));
    if v <= 1.0 / 1048576.0 {
      FarOffRegions(v);
      TooFewSteps(v, Iterate(v, i + 1));
    } else {
      RelativeShrinks(v, i, 9 - i);
      TinyOvershoot(v, RelativeOvershoot(v, i), Overshoot(v, Iterate(v, i + 1)));
    }
  }

  lemma TenSteps(v: real)
    requires v > 0.0
    ensures var r := Iterate(v, 10);
            && 0.0 <= Overshoot(v, r) <= FirstOvershoot(v) / 262144.0
            && r >= (v / 4.0 + 1.0) / 512.0
            && (FarOff(v, r) <==> RelativeOvershoot(v, 9) >= 3.0)
  {
    hide Overshoot, FirstOvershoot, Quartered, Halved, FarOff, Iterate, RelativeOvershoot;
    NineDivisions(FirstOvershoot(v));
    NineDivisions(v / 4.0 + 1.0);
    IterateCloses(v, 10);
    IterateOvershoot(v, 9);
    FarOffIff(v, Iterate(v, 10), RelativeOvershoot(v, 9));
  }

  /** `decimal_sqrt`: the starting guess is v / 2, and the result is the first Newton
      iterate within 10^-10 of the one before, or else the tenth. For every positive v
      it squares to no less than v, and overshoots by less than 10^-20 after an early
      exit and by at most (v / 4 - 1)^2 / 4^9 after ten steps. The result is at least
      twice the root exactly when the relative overshoot, followed through ten steps,
      is still 3 or more: `FarOffRegions` says for which values. */
  method DecimalSqrt(v: real) returns (r: Option<real>, ghost steps: nat)
    ensures r.None? <==> v < 0.0
    ensures v == 0.0 ==> r == Some(0.0)
    ensures v > 0.0 ==>
              && 1 <= steps <= 10 && r.value == Iterate(v, steps)
              && (forall k :: 1 <= k < steps ==> Abs(Iterate(v, k) - Iterate(v, k - 1)) >= 0.0000000001)
              && (steps == 10 || Abs(Iterate(v, steps) - Iterate(v, steps - 1)) < 0.0000000001)
              && 0.0 <= Overshoot(v, r.value)
              && (steps < 10 ==> Overshoot(v, r.value) < 0.00000000000000000001)
              && (steps == 10 ==> Overshoot(v, r.value) <= FirstOvershoot(v) / 262144.0)
              && r.value >= (v / 4.0 + 1.0) / 512.0
              && (FarOff(v, r.value) <==> RelativeOvershoot(v, 9) >= 3.0)
  {
    hide *;
    steps := 0;
    if v < 0.0 {
      return None, steps;
    }
    if v == 0.0 {
      return Some(0.0), steps;
    }
    var x := v / 2.0;
    FirstIterate(v);
    for i := 0 to 10
      invariant x > 0.0 && x == Iterate(v, i)
      invariant forall k :: 1 <= k <= i ==> Abs(Iterate(v, k) - Iterate(v, k - 1)) >= 0.0000000001
    {
      NextIterate(v, i);
      var nextX := NewtonStep(v, x);
      if Abs(nextX - x) < 0.0000000001 {
        EarlyResult(v, i);
        if i == 9 {
          TenSteps(v);
        }
        return Some(nextX), i + 1;
      }
      x := nextX;
    }
    TenSteps(v);
    return Some(x), 10;
  }
}
