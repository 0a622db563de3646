/** Fee-aware position sizing of the risk engine, with prices rounded to ticks and sizes to lots. */
module Sizing {
  import opened Domain
  import opened Numbers

  datatype RiskConfig = RiskConfig(
    baseRiskPct: real,
    maxRiskPct: real,
    minRiskPct: real,
    maxLeverage: real,
    preferredLeverage: real,
    minRR: real,
    maxOpenPositions: int,
    maxCorrelatedPositions: int)

  function WithDefaults(c: RiskConfig): (r: RiskConfig)
    ensures r.baseRiskPct > 0.0 && r.maxRiskPct > 0.0 && r.minRiskPct > 0.0 && r.minRR > 0.0
    ensures r.maxLeverage > 0.0 && r.preferredLeverage > 0.0 && r.maxOpenPositions > 0 && r.maxCorrelatedPositions > 0
  {
    RiskConfig(
      if c.baseRiskPct <= 0.0 then 0.5 else c.baseRiskPct,
      if c.maxRiskPct <= 0.0 then 1.0 else c.maxRiskPct,
      if c.minRiskPct <= 0.0 then 0.1 else c.minRiskPct,
      if c.maxLeverage <= 0.0 then 5.0 else c.maxLeverage,
      if c.preferredLeverage <= 0.0 then 3.0 else c.preferredLeverage,
      if c.minRR <= 0.0 then 1.4 else c.minRR,
      if c.maxOpenPositions <= 0 then 2 else c.maxOpenPositions,
      if c.maxCorrelatedPositions <= 0 then 1 else c.maxCorrelatedPositions)
  }

  /** A limit that is set stays as it is. */
  lemma SetLimitsStay(c: RiskConfig)
    ensures var r := WithDefaults(c);
            && (c.baseRiskPct > 0.0 ==> r.baseRiskPct == c.baseRiskPct)
            && (c.maxRiskPct > 0.0 ==> r.maxRiskPct == c.maxRiskPct)
            && (c.minRiskPct > 0.0 ==> r.minRiskPct == c.minRiskPct)
            && (c.maxLeverage > 0.0 ==> r.maxLeverage == c.maxLeverage)
            && (c.preferredLeverage > 0.0 ==> r.preferredLeverage == c.preferredLeverage)
            && (c.minRR > 0.0 ==> r.minRR == c.minRR)
            && (c.maxOpenPositions > 0 ==> r.maxOpenPositions == c.maxOpenPositions)
            && (c.maxCorrelatedPositions > 0 ==> r.maxCorrelatedPositions == c.maxCorrelatedPositions)
    ensures WithDefaults(WithDefaults(c)) == WithDefaults(c)
  {
  }

  /** With none set: half a percent at risk, leverage three, a ratio of 1.4, two positions and one altcoin long. */
  lemma NoLimitsSet(c: RiskConfig)
    requires c.baseRiskPct <= 0.0 && c.maxRiskPct <= 0.0 && c.minRiskPct <= 0.0 && c.minRR <= 0.0
    requires c.maxLeverage <= 0.0 && c.preferredLeverage <= 0.0
    requires c.maxOpenPositions <= 0 && c.maxCorrelatedPositions <= 0
    ensures WithDefaults(c) == RiskConfig(0.5, 1.0, 0.1, 5.0, 3.0, 1.4, 2, 1)
  {
  }

  /** The rounding of prices to ticks and of sizes to lots; a step of zero or less leaves the value alone. */
  function RoundTo(x: real, step: real): real {
    if step <= 0.0 then x else RoundHalfAway(x / step) as real * step
  }

  lemma Distribute(a: real, b: real, c: real)
    ensures (a - b) * c == a * c - b * c && (a + b) * c == a * c + b * c
  {
  }

  lemma HalfStep(d: real, step: real)
    requires step > 0.0 && Abs(d) <= 0.5
    ensures Abs(d * step) <= step / 2.0
  {
    MulMono(d, 0.5, step);
    MulMono(-0.5, d, step);
  }

  /** Rounding moves a value by at most half a step. */
  lemma RoundToIsNear(x: real, step: real)
    ensures step > 0.0 ==> Abs(RoundTo(x, step) - x) <= step / 2.0
    ensures step <= 0.0 ==> RoundTo(x, step) == x
  {
    if step > 0.0 {
      var n, q := RoundHalfAway(x / step) as real, x / step;
      HalfStep(n - q, step);
      Distribute(n, q, step);
      DivMulCancel(x, step);
    }
  }

  lemma RoundToSign(x: real, step: real)
    requires x >= 0.0
    ensures RoundTo(x, step) >= 0.0
  {
    if step > 0.0 {
      QuotientSign(x, step);
      assert RoundHalfAway(x / step) >= 0;
      MulMono(0.0, RoundHalfAway(x / step) as real, step);
    }
  }

  lemma QuotientSign(x: real, y: real)
    requires x >= 0.0 && y > 0.0
    ensures x / y >= 0.0
  {
  }

  /** Half a lot or more rounds up to a positive number of lots, less rounds to nothing. */
  lemma RoundToVanishes(x: real, step: real)
    requires x >= 0.0 && step > 0.0
    ensures RoundTo(x, step) == 0.0 <==> x < step / 2.0
    ensures x >= step / 2.0 ==> RoundTo(x, step) >= step
  {
    QuotientSign(x, step);
    DivMulCancel(x, step);
    var q := x / step;
    var n := RoundHalfAway(q);
    if q < 0.5 {
      assert n == 0;
      MulStrict(q, 0.5, step);
    } else {
      assert n >= 1;
      MulMono(1.0, n as real, step);
      MulMono(0.5, q, step);
    }
  }

  lemma RoundsTo(x: real, step: real, n: int)
    requires step > 0.0 && x >= 0.0 && (n as real - 0.5) * step <= x < (n as real + 0.5) * step
    ensures RoundTo(x, step) == n as real * step
  {
    var q := x / step;
    DivMulCancel(x, step);
    QuotientSign(x, step);
    if q < n as real - 0.5 {
      MulStrict(q, n as real - 0.5, step);
      assert false;
    }
    if q >= n as real + 0.5 {
      MulMono(n as real + 0.5, q, step);
      assert false;
    }
    assert n as real <= q + 0.5 < (n + 1) as real;
    assert (q + 0.5).Floor == n;
  }

  lemma MulStrict(a: real, b: real, c: real)
    requires a < b && 0.0 < c
    ensures a * c < b * c
  {
  }

  lemma QuotientCompares(x: real, y: real, step: real)
    requires step > 0.0
    ensures x >= y * step <==> x / step >= y
    ensures x <= y * step <==> x / step <= y
  {
    var q := x / step;
    DivMulCancel(x, step);
    if q < y {
      MulStrict(q, y, step);
    } else if q > y {
      MulStrict(y, q, step);
    }
  }

  /** The fewest whole steps that reach a bound. */
  function StepsFor(bound: real, step: real): int
    requires step > 0.0
  {
    -(-(bound / step)).Floor
  }

  /** The most whole steps within it. */
  function StepsWithin(bound: real, step: real): int
    requires step > 0.0
  {
    (bound / step).Floor
  }

  /** Half a step short of the fewest that reach the bound, or more. */
  predicate ReachesRounded(x: real, bound: real, step: real) {
    if step <= 0.0 then x >= bound else x >= (StepsFor(bound, step) as real - 0.5) * step
  }

  /** Less than half a step beyond the most within the bound. */
  predicate WithinRounded(x: real, bound: real, step: real) {
    if step <= 0.0 then x <= bound else x < (StepsWithin(bound, step) as real + 0.5) * step
  }

  lemma IntegerCompares(n: int, m: int, x: real, b: real)
    requires n as real <= x < (n + 1) as real && (m - 1) as real < b <= m as real
    ensures n as real >= b <==> x >= m as real
  {
    if n >= m {
      assert n as real >= m as real;
    } else {
      assert (n + 1) as real <= m as real;
    }
  }

  lemma IntegerComparesWithin(n: int, m: int, x: real, b: real)
    requires n as real <= x < (n + 1) as real && m as real <= b < (m + 1) as real
    ensures n as real <= b <==> x < (m + 1) as real
  {
    if n <= m {
      assert n as real <= m as real && (n + 1) as real <= (m + 1) as real;
    } else {
      assert n as real >= (m + 1) as real;
    }
  }

  lemma HalfAwayAgainst(q: real, b: real)
    requires q >= 0.0
    ensures RoundHalfAway(q) as real >= b <==> q >= -(-b).Floor as real - 0.5
    ensures RoundHalfAway(q) as real <= b <==> q < b.Floor as real + 0.5
  {
    var n := RoundHalfAway(q);
    IntegerCompares(n, -(-b).Floor, q + 0.5, b);
    IntegerComparesWithin(n, b.Floor, q + 0.5, b);
  }

  lemma RoundedQuotient(x: real, bound: real, step: real)
    requires x >= 0.0 && step > 0.0
    ensures RoundTo(x, step) >= bound <==> x / step >= StepsFor(bound, step) as real - 0.5
    ensures RoundTo(x, step) <= bound <==> x / step < StepsWithin(bound, step) as real + 0.5
  {
    QuotientSign(x, step);
    QuotientCompares(bound, RoundHalfAway(x / step) as real, step);
    HalfAwayAgainst(x / step, bound / step);
  }

  /** Exactly the amounts that round to a bound or beyond. */
  lemma RoundToReaches(x: real, bound: real, step: real)
    requires x >= 0.0
    ensures RoundTo(x, step) >= bound <==> ReachesRounded(x, bound, step)
  {
    if step > 0.0 {
      RoundedQuotient(x, bound, step);
      QuotientCompares(x, StepsFor(bound, step) as real - 0.5, step);
    }
  }

  /** Exactly the amounts that round to within a bound. */
  lemma RoundToStaysWithin(x: real, bound: real, step: real)
    requires x >= 0.0
    ensures RoundTo(x, step) <= bound <==> WithinRounded(x, bound, step)
  {
    if step > 0.0 {
      RoundedQuotient(x, bound, step);
      QuotientCompares(x, StepsWithin(bound, step) as real + 0.5, step);
    }
  }

  datatype SymbolInfo = SymbolInfo(tickSize: real, lotSize: real, minNotional: real, maxLeverage: real)

  datatype TakeProfit = TakeProfit(price: real, sizePct: real)

  datatype TradeCandidate = TradeCandidate(
    symbol: string,
    side: Side,
    entryPrice: real,
    stopLoss: real,
    takeProfits: seq<TakeProfit>,
    riskRewardRatio: real)

  datatype TakeProfitPlan = TakeProfitPlan(price: real, qty: real)

  datatype OrderPlan = OrderPlan(
    symbol: string,
    side: Side,
    qty: real,
    entryPrice: real,
    stopLoss: real,
    takeProfits: seq<TakeProfitPlan>,
    leverage: real,
    marginRequired: real,
    estimatedFees: real,
    riskAmountUSD: real,
    riskPctUsed: real)

  /** What the scores and the market regime say about the size. */
  datatype Modifiers = Modifiers(reduceSize: bool, btcBearishHTF: bool, strongUnderperform: bool)

  /** The base risk, capped, and scaled down by each modifier that applies; the market ones touch longs only. */
  function RiskPct(cfg: RiskConfig, side: Side, m: Modifiers): real {
    var capped := Min(cfg.baseRiskPct, cfg.maxRiskPct);
    var scored := if m.reduceSize then capped * 0.5 else capped;
    var btc := if side.Long? && m.btcBearishHTF then scored * 0.7 else scored;
    if side.Long? && m.strongUnderperform then btc * 0.6 else btc
  }

  lemma ModifiersOnlyReduce(cfg: RiskConfig, side: Side, m: Modifiers)
    requires cfg.baseRiskPct > 0.0 && cfg.maxRiskPct > 0.0
    ensures 0.21 * Min(cfg.baseRiskPct, cfg.maxRiskPct) <= RiskPct(cfg, side, m) <= Min(cfg.baseRiskPct, cfg.maxRiskPct)
    ensures RiskPct(cfg, side, m) == Min(cfg.baseRiskPct, cfg.maxRiskPct) <==>
            !m.reduceSize && (side.Long? ==> !m.btcBearishHTF && !m.strongUnderperform)
  {
  }

  function LeverageFor(cfg: RiskConfig, info: SymbolInfo): real {
    var capped := Min(cfg.preferredLeverage, cfg.maxLeverage);
    if info.maxLeverage > 0.0 && capped > info.maxLeverage then info.maxLeverage else capped
  }

  /** It is the greatest leverage within the preferred one, the configured limit and the symbol's, if it has one. */
  lemma LeverageIsGreatest(cfg: RiskConfig, info: SymbolInfo, l: real)
    ensures l <= LeverageFor(cfg, info) <==>
            l <= cfg.preferredLeverage && l <= cfg.maxLeverage && (info.maxLeverage > 0.0 ==> l <= info.maxLeverage)
  {
  }

  /** Both taker fees on one unit, as the sizing estimates them: at the entry price on either side. */
  function FeePerUnit(price: real, feeRate: real): real {
    price * feeRate * 2.0
  }

  /** Lots for which the risk and the fees of a stop-out come to `risk`. */
  function SizeFor(risk: real, perUnit: real, lot: real): real
    requires perUnit > 0.0
  {
    RoundTo(risk / perUnit, lot)
  }

  function PerUnit(entry: real, stop: real, feeRate: real): real {
    Abs(entry - stop) + FeePerUnit(entry, feeRate)
  }

  lemma PerUnitPositive(entry: real, stop: real, feeRate: real)
    requires entry >= 0.0 && feeRate >= 0.0 && entry != stop
    ensures PerUnit(entry, stop, feeRate) > 0.0
  {
    MulMono(0.0, entry, feeRate);
  }

  /** What is lost when the plan is stopped out: the price difference and the taker fee at either price. */
  function StopOutLoss(qty: real, entry: real, stop: real, feeRate: real): real {
    qty * Abs(entry - stop) + qty * (entry * feeRate) + qty * (stop * feeRate)
  }

  /** The size times the risk and fees of one unit comes to the risk amount, give or take half a lot. */
  lemma SizeMeetsRisk(risk: real, perUnit: real, lot: real)
    requires risk >= 0.0 && perUnit > 0.0
    ensures lot > 0.0 ==> Abs(SizeFor(risk, perUnit, lot) * perUnit - risk) <= lot / 2.0 * perUnit
    ensures lot <= 0.0 ==> SizeFor(risk, perUnit, lot) * perUnit == risk
    ensures SizeFor(risk, perUnit, lot) >= 0.0
  {
    var raw := risk / perUnit;
    DivMulCancel(risk, perUnit);
    QuotientSign(risk, perUnit);
    RoundToIsNear(raw, lot);
    RoundToSign(raw, lot);
    if lot > 0.0 {
      var d := RoundTo(raw, lot) - raw;
      Distribute(RoundTo(raw, lot), raw, perUnit);
      MulMono(d, lot / 2.0, perUnit);
      MulMono(-(lot / 2.0), d, perUnit);
      Distribute(0.0, lot / 2.0, perUnit);
    }
  }

  /** Selling a long at its stop pays less fee than the sizing assumed. */
  lemma LongLossWithinSizing(qty: real, entry: real, stop: real, feeRate: real)
    requires qty >= 0.0 && 0.0 <= stop < entry && feeRate >= 0.0
    ensures StopOutLoss(qty, entry, stop, feeRate) <= qty * PerUnit(entry, stop, feeRate)
  {
    MulMono(stop, entry, feeRate);
    var u := entry * feeRate;
    MulMono(stop * feeRate, u, qty);
    ThreeTerms(qty, Abs(entry - stop), u);
    assert FeePerUnit(entry, feeRate) == u + u;
  }

  lemma ThreeTerms(q: real, a: real, u: real)
    ensures q * (a + (u + u)) == q * a + q * u + q * u
  {
  }

  /** Buying a short back at its stop pays the fee on a higher price; the excess is the fee on the risk itself. */
  lemma ShortLossWithinSizing(qty: real, entry: real, stop: real, feeRate: real)
    requires qty >= 0.0 && 0.0 <= entry < stop && feeRate >= 0.0
    ensures StopOutLoss(qty, entry, stop, feeRate) <= qty * PerUnit(entry, stop, feeRate) * (1.0 + feeRate)
  {
    var a, u := stop - entry, entry * feeRate;
    Distribute(entry, -a, feeRate);
    Distribute(stop, entry, feeRate);
    assert stop * feeRate == u + a * feeRate;
    MulMono(0.0, entry, feeRate);
    MulMono(0.0, u, feeRate);
    var perUnit := PerUnit(entry, stop, feeRate);
    assert perUnit == a + (u + u);
    ShortTerms(qty, a, u, feeRate);
  }

  lemma ShortTerms(q: real, a: real, u: real, f: real)
    requires q >= 0.0 && u * f >= 0.0
    ensures q * a + q * u + q * (u + a * f) <= q * (a + (u + u)) * (1.0 + f)
  {
    var v, w := u * f, a * f;
    assert (a + (u + u)) * (1.0 + f) == a + u + u + w + v + v;
    MulMono(0.0, v, q);
    var p := a + (u + u);
    assert q * p * (1.0 + f) == q * (p * (1.0 + f));
    FiveTerms(q, a, u, w, v);
  }

  lemma FiveTerms(q: real, a: real, u: real, w: real, v: real)
    ensures q * (a + u + u + w + v + v) == q * a + q * u + q * (u + w) + q * v + q * v
  {
  }

  /** The risk amount, plus half a lot's worth of risk and fees when sizes come in lots. */
  function LossBound(risk: real, perUnit: real, lot: real): real {
    risk + if lot > 0.0 then lot / 2.0 * perUnit else 0.0
  }

  lemma SizedWithinBound(risk: real, perUnit: real, lot: real)
    requires risk >= 0.0 && perUnit > 0.0
    ensures SizeFor(risk, perUnit, lot) >= 0.0
    ensures SizeFor(risk, perUnit, lot) * perUnit <= LossBound(risk, perUnit, lot)
  {
    SizeMeetsRisk(risk, perUnit, lot);
  }

  lemma ScaledUp(loss: real, sized: real, bound: real, factor: real)
    requires loss <= sized * factor && sized <= bound && factor >= 0.0
    ensures loss <= bound * factor
  {
    MulMono(sized, bound, factor);
  }

  /** The loss of a long's stop-out, both fees included, is within the bound. */
  lemma LongStopOutIsBounded(risk: real, entry: real, stop: real, feeRate: real, lot: real)
    requires risk >= 0.0 && feeRate >= 0.0 && 0.0 <= stop < entry
    ensures PerUnit(entry, stop, feeRate) > 0.0
    ensures StopOutLoss(SizeFor(risk, PerUnit(entry, stop, feeRate), lot), entry, stop, feeRate)
            <= LossBound(risk, PerUnit(entry, stop, feeRate), lot)
  {
    PerUnitPositive(entry, stop, feeRate);
    SizedWithinBound(risk, PerUnit(entry, stop, feeRate), lot);
    LongLossWithinSizing(SizeFor(risk, PerUnit(entry, stop, feeRate), lot), entry, stop, feeRate);
  }

  /** The loss of a short's stop-out, both fees included, is within one fee rate more. */
  lemma ShortStopOutIsBounded(risk: real, entry: real, stop: real, feeRate: real, lot: real)
    requires risk >= 0.0 && feeRate >= 0.0 && 0.0 <= entry < stop
    ensures PerUnit(entry, stop, feeRate) > 0.0
    ensures StopOutLoss(SizeFor(risk, PerUnit(entry, stop, feeRate), lot), entry, stop, feeRate)
            <= LossBound(risk, PerUnit(entry, stop, feeRate), lot) * (1.0 + feeRate)
  {
    PerUnitPositive(entry, stop, feeRate);
    var perUnit := PerUnit(entry, stop, feeRate);
    var qty := SizeFor(risk, perUnit, lot);
    SizedWithinBound(risk, perUnit, lot);
    ShortLossWithinSizing(qty, entry, stop, feeRate);
    ScaledUp(StopOutLoss(qty, entry, stop, feeRate), qty * perUnit, LossBound(risk, perUnit, lot), 1.0 + feeRate);
  }

  /**
   The exit fee is charged at the stop and sized at the entry: the loss misses the sized one by the fee on the
   distance.
   */
  lemma LossGap(qty: real, entry: real, stop: real, feeRate: real)
    ensures StopOutLoss(qty, entry, stop, feeRate)
         == qty * PerUnit(entry, stop, feeRate) + qty * ((stop - entry) * feeRate)
  {
    var a, u := Abs(entry - stop), entry * feeRate;
    assert PerUnit(entry, stop, feeRate) == a + (u + u);
    ThreeTerms(qty, a, u);
    Distribute(stop, entry, feeRate);
    Distribute(stop * feeRate, u, qty);
  }

  lemma NoZeroFactors(a: real, b: real)
    requires a != 0.0 && b != 0.0
    ensures a * b != 0.0
  {
  }

  /** Without lots, a stop-out loses exactly the risk amount just when there is no fee. */
  lemma TargetIsMet(risk: real, entry: real, stop: real, feeRate: real)
    requires risk > 0.0 && feeRate >= 0.0 && entry >= 0.0 && entry != stop
    ensures PerUnit(entry, stop, feeRate) > 0.0
    ensures StopOutLoss(SizeFor(risk, PerUnit(entry, stop, feeRate), 0.0), entry, stop, feeRate) == risk <==>
              feeRate == 0.0
  {
    PerUnitPositive(entry, stop, feeRate);
    var perUnit := PerUnit(entry, stop, feeRate);
    var qty := SizeFor(risk, perUnit, 0.0);
    SizeMeetsRisk(risk, perUnit, 0.0);
    LossGap(qty, entry, stop, feeRate);
    if feeRate != 0.0 {
      NoZeroFactors(stop - entry, feeRate);
      NoZeroFactors(qty, (stop - entry) * feeRate);
    }
  }
}
