/** The risk engine's answer in plain terms: what is approved, and what a plan's numbers add up to. */
module RiskAnswers {
  import opened Domain
  import opened Numbers
  import opened Sizing
  import opened RiskEngines
  import StopDistance
  import Setups

  // ---------------------------------------------------------------- what is approved

  /** Past the early exits: money, prices, a distance between them and enough risk to be worth it. */
  lemma SizedExactly(cfg: EngineConfig, input: RiskInput)
    ensures EarlyExit(cfg, input).None? <==>
            0.0 < input.account.equity && 0.0 < input.candidate.entryPrice && 0.0 < input.candidate.stopLoss &&
            input.candidate.entryPrice != input.candidate.stopLoss &&
            WithDefaults(cfg.risk).minRiskPct <= RiskPct(WithDefaults(cfg.risk), input.candidate.side, input.modifiers)
  {
  }

  /** The stop behind the entry, every target beyond it, and the first one paying enough and clear of the stop. */
  predicate WellPriced(c: TradeCandidate, minRR: real, tick: real) {
    && (if c.side == Long then c.stopLoss < c.entryPrice else c.entryPrice < c.stopLoss)
    && (forall i :: 0 <= i < |c.takeProfits| ==>
          if c.side == Long then c.entryPrice < c.takeProfits[i].price else c.takeProfits[i].price < c.entryPrice)
    && (c.takeProfits != [] ==>
          minRR <= c.riskRewardRatio && Apart(c.takeProfits[0].price, c.stopLoss, if 0.0 < tick then tick else 0.0001))
  }

  predicate Apart(x: real, y: real, distance: real) {
    distance <= x - y || distance <= y - x
  }

  /** At least a lot, and at least the minimum notional. */
  predicate Enough(qty: real, value: real, info: SymbolInfo) {
    && 0.0 < qty && (0.0 < info.lotSize ==> info.lotSize <= qty)
    && (0.0 < info.minNotional ==> info.minNotional <= value)
  }

  /** A margin within 95% of what is available, if anything is. */
  predicate Affordable(value: real, leverage: real, a: Account) {
    && (0.0 < a.available ==> value <= a.available * 0.95 * leverage)
    && (a.available <= 0.0 && a.usedMargin < a.balance ==> value <= (a.balance - a.usedMargin) * 0.95 * leverage)
  }

  /** The stop keeps 0.3% away, and more below 100, below 10 and below 1. */
  predicate KeepsDistance(entry: real, stop: real) {
    var away := Abs(entry - stop) * 100.0;
    0.3 * entry <= away && (entry < 100.0 ==> 0.5 * entry <= away) && (entry < 10.0 ==> entry <= away) &&
    (entry < 1.0 ==> 1.5 * entry <= away)
  }

  ghost function Opened(positions: seq<Holding>): set<nat> {
    set i | 0 <= i < |positions| && positions[i].open
  }

  ghost function OpenedAltLongs(positions: seq<Holding>): set<nat> {
    set i | i in Opened(positions) && positions[i].side == Long && positions[i].symbol != "BTCUSDT"
  }

  /** Fewer open positions than allowed, and fewer altcoin longs for another one; a score of 85 needs neither. */
  ghost predicate HasRoom(positions: seq<Holding>, c: TradeCandidate, score: real, limits: RiskConfig) {
    score >= 85.0 ||
    (|Opened(positions)| < limits.maxOpenPositions &&
     (c.side == Short || c.symbol == "BTCUSDT" || |OpenedAltLongs(positions)| < limits.maxCorrelatedPositions))
  }

  /** Not halted, and every cooldown that is switched on has passed. */
  predicate Free(cfg: EngineConfig, input: RiskInput, now: int) {
    var p, symbol := input.portfolio, input.candidate.symbol;
    && !input.halted
    && (cfg.symbolCooldownEnabled && symbol in p.symbolCooldownUntil ==> p.symbolCooldownUntil[symbol] <= now)
    && (cfg.lossCooldownEnabled ==> p.consecutiveLosses < cfg.lossCooldownAfter)
    && (p.cooldownUntil.Some? ==> p.cooldownUntil.value <= now)
  }

  lemma {:induction false} OpenCountIs(positions: seq<Holding>)
    ensures OpenCount(positions) == |Opened(positions)|
    decreases |positions|
  {
    if positions != [] {
      var n := |positions| - 1;
      OpenCountIs(positions[..n]);
      assert Opened(positions) == Opened(positions[..n]) + if positions[n].open then {n} else {};
    } else {
      assert Opened(positions) == {};
    }
  }

  lemma {:induction false} AltLongCountIs(positions: seq<Holding>)
    ensures AltLongCount(positions) == |OpenedAltLongs(positions)|
    decreases |positions|
  {
    if positions != [] {
      var n := |positions| - 1;
      AltLongCountIs(positions[..n]);
      assert OpenedAltLongs(positions)
          == OpenedAltLongs(positions[..n])
             + if positions[n].open && positions[n].side == Long && positions[n].symbol != "BTCUSDT" then {n} else {};
    } else {
      assert OpenedAltLongs(positions) == {};
    }
  }

  lemma DistanceIsKept(entry: real, stop: real)
    requires 0.0 < entry
    ensures DistancePct(entry, stop) >= TierPct(entry) <==> KeepsDistance(entry, stop)
  {
    var away, pct := Abs(entry - stop), DistancePct(entry, stop);
    DivMulCancel(away, entry);
    assert pct * entry == away * 100.0;
    PctCompares(pct, TierPct(entry), entry, away * 100.0);
  }

  lemma PctCompares(pct: real, least: real, entry: real, away: real)
    requires 0.0 < entry && pct * entry == away
    ensures pct >= least <==> least * entry <= away
  {
    if pct >= least {
      MulMono(least, pct, entry);
    } else {
      MulStrict(pct, least, entry);
    }
  }

  /** What the strategies ask of a stop suffices here exactly below a price of 100 or with 0.3 or more configured. */
  lemma GeneratedDistanceSuffices(entry: real, minPct: real)
    requires 0.0 < entry && 0.0 < minPct
    ensures StopDistance.PriceAwareMinSLPct(entry, minPct) >= TierPct(entry) <==> entry < 100.0 || 0.3 <= minPct
  {
  }

  /** And the ratio they ask for is the engine's. */
  lemma GeneratedRatioSuffices(c: RiskConfig)
    ensures Setups.MinRR(c.minRR) == WithDefaults(c).minRR
  {
  }

  lemma PricesPass(cfg: EngineConfig, input: RiskInput)
    ensures (forall r :: !PriceObjects(cfg, input, r))
            <==> WellPriced(input.candidate, WithDefaults(cfg.risk).minRR, input.symbolInfo.tickSize)
  {
    assert (PriceObjects(cfg, input, SLWrongSide) || PriceObjects(cfg, input, TPWrongSide) ||
            PriceObjects(cfg, input, InvalidRR) || PriceObjects(cfg, input, RRBelowMin) ||
            PriceObjects(cfg, input, TPSLTooClose))
      <==> exists r :: PriceObjects(cfg, input, r);
  }

  lemma MarginFits(value: real, leverage: real, cap: real)
    requires 0.0 < leverage
    ensures MarginOf(value, leverage) > cap <==> value > cap * leverage
  {
    QuotientCompares(value, cap, leverage);
  }

  /** The size and what it is worth, as the engine first has them. */
  predicate Sized(cfg: EngineConfig, input: RiskInput, qty: real, value: real, leverage: real) {
    && cfg.feeTakerBps >= 0.0 && EarlyExit(cfg, input).None?
    && PerUnit(input.candidate.entryPrice, input.candidate.stopLoss, FeeRate(cfg)) > 0.0
    && qty == FirstQty(cfg, input) && value == FirstValue(cfg, input)
    && leverage == LeverageFor(WithDefaults(cfg.risk), input.symbolInfo) > 0.0
  }

  lemma CapIsAffordable(value: real, leverage: real, a: Account)
    requires leverage > 0.0
    ensures Affordable(value, leverage, a)
            <==> !(Available(a) > 0.0 && MarginOf(value, leverage) > Available(a) * 0.95)
  {
    MarginFits(value, leverage, Available(a) * 0.95);
  }

  lemma MarginPasses(cfg: EngineConfig, input: RiskInput, qty: real, value: real, leverage: real)
    requires Sized(cfg, input, qty, value, leverage)
    ensures SizeObjects(cfg, input, MarginExceedsAvailable) <==> !Affordable(value, leverage, input.account)
  {
    CapIsAffordable(value, leverage, input.account);
  }

  lemma QuantityPasses(cfg: EngineConfig, input: RiskInput, qty: real, value: real, leverage: real)
    requires Sized(cfg, input, qty, value, leverage)
    ensures SizeObjects(cfg, input, InvalidQty) || SizeObjects(cfg, input, BelowMinNotional)
            <==> !Enough(qty, value, input.symbolInfo)
  {
  }

  lemma OnlyThreeSizeObjections(cfg: EngineConfig, input: RiskInput)
    requires cfg.feeTakerBps >= 0.0 && EarlyExit(cfg, input).None?
    ensures (forall r :: !SizeObjects(cfg, input, r))
            <==> !SizeObjects(cfg, input, MarginExceedsAvailable) && !SizeObjects(cfg, input, InvalidQty) &&
                 !SizeObjects(cfg, input, BelowMinNotional)
  {
  }

  lemma SizePasses(cfg: EngineConfig, input: RiskInput, qty: real, value: real, leverage: real)
    requires Sized(cfg, input, qty, value, leverage)
    ensures (forall r :: !SizeObjects(cfg, input, r))
            <==> Enough(qty, value, input.symbolInfo) && Affordable(value, leverage, input.account)
  {
    OnlyThreeSizeObjections(cfg, input);
    MarginPasses(cfg, input, qty, value, leverage);
    QuantityPasses(cfg, input, qty, value, leverage);
  }

  lemma RoundingPasses(input: RiskInput, entry: real, stop: real)
    requires entry == RoundedEntry(input) && stop == RoundedStop(input)
    ensures (forall r :: !RoundingObjects(input, r))
            <==> (if input.candidate.side == Long then stop < entry else entry < stop)
                 && (0.0 < entry ==> KeepsDistance(entry, stop))
  {
    if 0.0 < entry {
      DistanceIsKept(entry, stop);
    }
    assert RoundingObjects(input, SLEqualsEntryAfterRounding) || RoundingObjects(input, SLTooCloseAfterRounding)
      <==> exists r :: RoundingObjects(input, r);
  }

  lemma PortfolioPasses(cfg: EngineConfig, input: RiskInput)
    ensures (forall r :: !PortfolioObjects(cfg, input, r))
            <==> HasRoom(input.portfolio.positions, input.candidate, input.scoreTotal, WithDefaults(cfg.risk))
  {
    OpenCountIs(input.portfolio.positions);
    AltLongCountIs(input.portfolio.positions);
    assert PortfolioObjects(cfg, input, MaxOpenPositions) || PortfolioObjects(cfg, input, MaxCorrelatedAltPositions)
      <==> exists r :: PortfolioObjects(cfg, input, r);
  }

  lemma StatePasses(cfg: EngineConfig, input: RiskInput, now: int)
    ensures (forall r :: !StateObjects(cfg, input, now, r)) <==> Free(cfg, input, now)
  {
    assert (StateObjects(cfg, input, now, BotHalted) || StateObjects(cfg, input, now, SymbolSLCooldown) ||
            StateObjects(cfg, input, now, ConsecutiveLossesCooldown) || StateObjects(cfg, input, now, InCooldown))
      <==> exists r :: StateObjects(cfg, input, now, r);
  }

  lemma NothingObjects(cfg: EngineConfig, input: RiskInput, now: int)
    requires cfg.feeTakerBps >= 0.0 && EarlyExit(cfg, input).None?
    ensures Approvable(cfg, input, now) <==>
            (forall r :: !PriceObjects(cfg, input, r)) && (forall r :: !SizeObjects(cfg, input, r)) &&
            (forall r :: !RoundingObjects(input, r)) && (forall r :: !PortfolioObjects(cfg, input, r)) &&
            (forall r :: !StateObjects(cfg, input, now, r))
  {
    forall r
      ensures Objects(cfg, input, now, r) <==>
              PriceObjects(cfg, input, r) || SizeObjects(cfg, input, r) || RoundingObjects(input, r) ||
              PortfolioObjects(cfg, input, r) || StateObjects(cfg, input, now, r)
    {
    }
  }

  /**
   A candidate is approved exactly when its prices are in order as given and as rounded, it can be paid, and there is
   room for it.
   */
  lemma ApprovedExactly(
    cfg: EngineConfig, input: RiskInput, now: int, limits: RiskConfig, qty: real, value: real, leverage: real)
    requires limits == WithDefaults(cfg.risk) && Sized(cfg, input, qty, value, leverage)
    ensures value == qty * input.candidate.entryPrice
    ensures var c, entry, stop := input.candidate, RoundedEntry(input), RoundedStop(input);
            Approvable(cfg, input, now) <==>
            && WellPriced(c, limits.minRR, input.symbolInfo.tickSize)
            && Enough(qty, value, input.symbolInfo) && Affordable(value, leverage, input.account)
            && (if c.side == Long then stop < entry else entry < stop) && (0.0 < entry ==> KeepsDistance(entry, stop))
            && HasRoom(input.portfolio.positions, c, input.scoreTotal, limits) && Free(cfg, input, now)
  {
    NothingObjects(cfg, input, now);
    PricesPass(cfg, input);
    SizePasses(cfg, input, qty, value, leverage);
    RoundingPasses(input, RoundedEntry(input), RoundedStop(input));
    PortfolioPasses(cfg, input);
    StatePasses(cfg, input, now);
  }

  // ---------------------------------------------------------------- what a plan's numbers add up to

  /** Each modifier takes its own share off what the others leave; the market's spare shorts. */
  lemma EachModifierCuts(cfg: RiskConfig, side: Side, m: Modifiers)
    ensures m.reduceSize ==> RiskPct(cfg, side, m) == 0.5 * RiskPct(cfg, side, m.(reduceSize := false))
    ensures m.btcBearishHTF ==>
              RiskPct(cfg, side, m)
              == (if side == Long then 0.7 else 1.0) * RiskPct(cfg, side, m.(btcBearishHTF := false))
    ensures m.strongUnderperform ==>
              RiskPct(cfg, side, m)
              == (if side == Long then 0.6 else 1.0) * RiskPct(cfg, side, m.(strongUnderperform := false))
    ensures m == Modifiers(false, false, false) ==>
              RiskPct(cfg, side, m) == if cfg.baseRiskPct <= cfg.maxRiskPct then cfg.baseRiskPct else cfg.maxRiskPct
  {
  }

  /** A stop-out of one unit: the distance and two taker fees on the entry price. */
  lemma UnitCost(entry: real, stop: real, cfg: EngineConfig)
    ensures PerUnit(entry, stop, FeeRate(cfg)) == Abs(entry - stop) + entry * (cfg.feeTakerBps / 10000.0) * 2.0
  {
  }

  /** The first size is what, before rounding to lots, costs the risk percentage of equity when stopped out. */
  lemma SizedFromRisk(cfg: EngineConfig, input: RiskInput, raw: real, perUnit: real)
    requires perUnit == PerUnit(input.candidate.entryPrice, input.candidate.stopLoss, FeeRate(cfg)) > 0.0
    requires raw * perUnit * 100.0
          == input.account.equity * RiskPct(WithDefaults(cfg.risk), input.candidate.side, input.modifiers)
    ensures FirstQty(cfg, input) == RoundTo(raw, input.symbolInfo.lotSize)
  {
    RawSize(RiskAmount(cfg, input), raw, perUnit);
  }

  lemma RawSize(risk: real, raw: real, perUnit: real)
    requires perUnit > 0.0 && raw * perUnit == risk
    ensures risk / perUnit == raw
  {
    QuotientCompares(risk, raw, perUnit);
  }

  /** The margin, leveraged, is the notional. */
  lemma MarginTimesLeverage(value: real, leverage: real)
    requires leverage > 0.0
    ensures MarginOf(value, leverage) * leverage == value
  {
    DivMulCancel(value, leverage);
  }

  function Share(amount: real, pct: real): real {
    amount * pct / 100.0
  }

  lemma ShareAddsUp(amount: real, pct: real)
    ensures Share(amount, pct) * 100.0 == amount * pct
  {
  }

  /** Two taker fees, one either way. */
  lemma FeesAddUp(value: real, cfg: EngineConfig)
    ensures FeePerUnit(value, FeeRate(cfg)) * 10000.0 == 2.0 * cfg.feeTakerBps * value
  {
  }

  /** The fees a plan expects are those of a trade of its notional. */
  lemma PlanFees(cfg: EngineConfig, input: RiskInput, plan: OrderPlan)
    requires cfg.feeTakerBps >= 0.0 && EarlyExit(cfg, input).None? && Planned(cfg, input, plan)
    requires plan.entryPrice != plan.stopLoss
    ensures plan.estimatedFees == FeePerUnit(Value(plan.qty, plan.entryPrice), FeeRate(cfg))
  {
    SizeableInput(cfg, input);
  }

  /** The amount at risk is the risk percentage of the account's equity. */
  lemma RiskIsShare(cfg: EngineConfig, input: RiskInput)
    ensures RiskAmount(cfg, input) * 100.0
         == input.account.equity * RiskPct(WithDefaults(cfg.risk), input.candidate.side, input.modifiers)
  {
    ShareAddsUp(input.account.equity, RiskPct(WithDefaults(cfg.risk), input.candidate.side, input.modifiers));
  }

  /** A target's share of the size, to half a lot. */
  lemma TargetShare(qty: real, sizePct: real, lot: real)
    ensures lot > 0.0 ==> Abs(TargetQty(qty, sizePct, lot) * 100.0 - qty * sizePct) <= 50.0 * lot
    ensures lot <= 0.0 ==> TargetQty(qty, sizePct, lot) * 100.0 == qty * sizePct
  {
    RoundToIsNear(qty * sizePct / 100.0, lot);
  }
}
