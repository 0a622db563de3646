/** The risk engine's last check of a candidate before execution, and the order plan it makes. */
module RiskEngines {
  import opened Domain
  import opened Numbers
  import opened Sizing

  datatype EngineConfig = EngineConfig(
    risk: RiskConfig,
    feeTakerBps: real,
    symbolCooldownEnabled: bool,
    lossCooldownEnabled: bool,
    lossCooldownAfter: int)

  datatype Account = Account(equity: real, balance: real, usedMargin: real, available: real)

  datatype Holding = Holding(symbol: string, side: Side, open: bool)

  datatype Portfolio = Portfolio(
    positions: seq<Holding>,
    consecutiveLosses: int,
    cooldownUntil: Option<int>,
    symbolCooldownUntil: map<string, int>)

  datatype RiskInput = RiskInput(
    candidate: TradeCandidate,
    scoreTotal: real,
    modifiers: Modifiers,
    symbolInfo: SymbolInfo,
    account: Account,
    portfolio: Portfolio,
    halted: bool)

  datatype Objection =
    | InvalidEquity | InvalidEntry | SLMissing | RiskTooSmall | InvalidRiskDistance
    | SLWrongSide | TPWrongSide | InvalidRR | RRBelowMin | TPSLTooClose
    | MarginExceedsAvailable | InvalidQty | BelowMinNotional
    | SLEqualsEntryAfterRounding | SLTooCloseAfterRounding
    | MaxOpenPositions | MaxCorrelatedAltPositions
    | BotHalted | SymbolSLCooldown | ConsecutiveLossesCooldown | InCooldown

  datatype RiskResult = RiskResult(approved: bool, reasons: seq<Objection>, plan: Option<OrderPlan>)

  function FeeRate(cfg: EngineConfig): real {
    cfg.feeTakerBps / 10000.0
  }

  /** The checks that end the validation before anything is sized. */
  function EarlyExit(cfg: EngineConfig, input: RiskInput): Option<Objection> {
    var risk, cand := WithDefaults(cfg.risk), input.candidate;
    if input.account.equity <= 0.0 then Some(InvalidEquity)
    else if cand.entryPrice <= 0.0 then Some(InvalidEntry)
    else if cand.stopLoss <= 0.0 then Some(SLMissing)
    else if RiskPct(risk, cand.side, input.modifiers) < risk.minRiskPct then Some(RiskTooSmall)
    else if cand.entryPrice == cand.stopLoss then Some(InvalidRiskDistance)
    else None
  }

  predicate WrongSide(side: Side, inner: real, outer: real) {
    if side.Long? then outer <= inner else outer >= inner
  }

  /** The least stop distance, in percent, for a price of this size. */
  function TierPct(entry: real): real {
    if entry < 1.0 then 1.5
    else if entry < 10.0 then 1.0
    else if entry < 100.0 then 0.5
    else 0.3
  }

  function DistancePct(entry: real, stop: real): real
    requires entry > 0.0
  {
    Abs(entry - stop) / entry * 100.0
  }

  function OpenCount(positions: seq<Holding>): nat {
    if positions == [] then 0
    else OpenCount(positions[..|positions| - 1]) + if positions[|positions| - 1].open then 1 else 0
  }

  predicate IsAltLong(h: Holding) {
    h.open && h.side.Long? && h.symbol != "BTCUSDT"
  }

  function AltLongCount(positions: seq<Holding>): nat {
    if positions == [] then 0
    else AltLongCount(positions[..|positions| - 1]) + if IsAltLong(positions[|positions| - 1]) then 1 else 0
  }

  function RiskAmount(cfg: EngineConfig, input: RiskInput): real {
    input.account.equity * RiskPct(WithDefaults(cfg.risk), input.candidate.side, input.modifiers) / 100.0
  }

  /** The size before the prices are rounded; the quantity checks look at this one. */
  function FirstQty(cfg: EngineConfig, input: RiskInput): real
    requires PerUnit(input.candidate.entryPrice, input.candidate.stopLoss, FeeRate(cfg)) > 0.0
  {
    SizeFor(RiskAmount(cfg, input), PerUnit(input.candidate.entryPrice, input.candidate.stopLoss, FeeRate(cfg)),
            input.symbolInfo.lotSize)
  }

  function RoundedEntry(input: RiskInput): real {
    RoundTo(input.candidate.entryPrice, input.symbolInfo.tickSize)
  }

  function RoundedStop(input: RiskInput): real {
    RoundTo(input.candidate.stopLoss, input.symbolInfo.tickSize)
  }

  /** A size made again from rounded prices, unless rounding closed the distance between them. */
  function Resized(firstQty: real, risk: real, entry: real, stop: real, feeRate: real, lot: real): real
    requires entry >= 0.0 && feeRate >= 0.0
  {
    if entry == stop then firstQty
    else
      PerUnitPositive(entry, stop, feeRate);
      SizeFor(risk, PerUnit(entry, stop, feeRate), lot)
  }

  function Value(qty: real, price: real): real {
    qty * price
  }

  function Revalued(firstValue: real, qty: real, entry: real, stop: real): real {
    if entry == stop then firstValue else Value(qty, entry)
  }

  /** The notional before the prices are rounded. */
  function FirstValue(cfg: EngineConfig, input: RiskInput): real
    requires PerUnit(input.candidate.entryPrice, input.candidate.stopLoss, FeeRate(cfg)) > 0.0
  {
    Value(FirstQty(cfg, input), input.candidate.entryPrice)
  }

  /** The plan's size and notional. */
  function FinalQty(cfg: EngineConfig, input: RiskInput): real
    requires FeeRate(cfg) >= 0.0 && RoundedEntry(input) >= 0.0
    requires PerUnit(input.candidate.entryPrice, input.candidate.stopLoss, FeeRate(cfg)) > 0.0
  {
    Resized(FirstQty(cfg, input), RiskAmount(cfg, input), RoundedEntry(input), RoundedStop(input), FeeRate(cfg),
            input.symbolInfo.lotSize)
  }

  function FinalValue(cfg: EngineConfig, input: RiskInput): real
    requires FeeRate(cfg) >= 0.0 && RoundedEntry(input) >= 0.0
    requires PerUnit(input.candidate.entryPrice, input.candidate.stopLoss, FeeRate(cfg)) > 0.0
  {
    Revalued(FirstValue(cfg, input), FinalQty(cfg, input), RoundedEntry(input), RoundedStop(input))
  }

  function Available(a: Account): real {
    if a.available <= 0.0 then a.balance - a.usedMargin else a.available
  }

  /** A candidate that got past the early exits can be sized. */
  lemma SizeableInput(cfg: EngineConfig, input: RiskInput)
    requires cfg.feeTakerBps >= 0.0 && EarlyExit(cfg, input).None?
    ensures FeeRate(cfg) >= 0.0 && RoundedEntry(input) >= 0.0 && RoundedStop(input) >= 0.0
    ensures PerUnit(input.candidate.entryPrice, input.candidate.stopLoss, FeeRate(cfg)) > 0.0
    ensures RiskAmount(cfg, input) > 0.0
    ensures LeverageFor(WithDefaults(cfg.risk), input.symbolInfo) > 0.0
  {
    RoundToSign(input.candidate.entryPrice, input.symbolInfo.tickSize);
    RoundToSign(input.candidate.stopLoss, input.symbolInfo.tickSize);
    PerUnitPositive(input.candidate.entryPrice, input.candidate.stopLoss, FeeRate(cfg));
    MulPos(input.account.equity, RiskPct(WithDefaults(cfg.risk), input.candidate.side, input.modifiers));
  }

  function MarginOf(value: real, leverage: real): real
    requires leverage > 0.0
  {
    value / leverage
  }

  /** The candidate's own prices. */
  predicate PriceObjects(cfg: EngineConfig, input: RiskInput, r: Objection) {
    var cand, info := input.candidate, input.symbolInfo;
    match r
    case SLWrongSide => WrongSide(cand.side, cand.stopLoss, cand.entryPrice)
    case TPWrongSide =>
      exists i :: 0 <= i < |cand.takeProfits| && WrongSide(cand.side, cand.entryPrice, cand.takeProfits[i].price)
    case InvalidRR => cand.takeProfits != [] && cand.riskRewardRatio <= 0.0
    case RRBelowMin => cand.takeProfits != [] && 0.0 < cand.riskRewardRatio < WithDefaults(cfg.risk).minRR
    case TPSLTooClose =>
      cand.takeProfits != [] &&
      Abs(cand.takeProfits[0].price - cand.stopLoss) < (if info.tickSize <= 0.0 then 0.0001 else info.tickSize)
    case _ => false
  }

  /** The size and the money it takes, before the prices are rounded. */
  predicate SizeObjects(cfg: EngineConfig, input: RiskInput, r: Objection)
    requires cfg.feeTakerBps >= 0.0 && EarlyExit(cfg, input).None?
  {
    SizeableInput(cfg, input);
    var info, available := input.symbolInfo, Available(input.account);
    match r
    case MarginExceedsAvailable =>
      available > 0.0 && MarginOf(FirstValue(cfg, input), LeverageFor(WithDefaults(cfg.risk), info)) > available * 0.95
    case InvalidQty => FirstQty(cfg, input) <= 0.0 || (info.lotSize > 0.0 && FirstQty(cfg, input) < info.lotSize)
    case BelowMinNotional => info.minNotional > 0.0 && FirstValue(cfg, input) < info.minNotional
    case _ => false
  }

  /** The prices once rounded to ticks. */
  predicate RoundingObjects(input: RiskInput, r: Objection) {
    var entry, stop := RoundedEntry(input), RoundedStop(input);
    match r
    case SLEqualsEntryAfterRounding => WrongSide(input.candidate.side, stop, entry)
    case SLTooCloseAfterRounding => entry > 0.0 && DistancePct(entry, stop) < TierPct(entry)
    case _ => false
  }

  /** The positions already held; a high score overrides both limits. */
  predicate PortfolioObjects(cfg: EngineConfig, input: RiskInput, r: Objection) {
    var risk, cand, positions := WithDefaults(cfg.risk), input.candidate, input.portfolio.positions;
    match r
    case MaxOpenPositions => OpenCount(positions) >= risk.maxOpenPositions && input.scoreTotal < 85.0
    case MaxCorrelatedAltPositions =>
      cand.side.Long? && cand.symbol != "BTCUSDT" && input.scoreTotal < 85.0 &&
      AltLongCount(positions) >= risk.maxCorrelatedPositions
    case _ => false
  }

  /** The halt and the cooldowns. */
  predicate StateObjects(cfg: EngineConfig, input: RiskInput, now: int, r: Objection) {
    var portfolio, symbol := input.portfolio, input.candidate.symbol;
    match r
    case BotHalted => input.halted
    case SymbolSLCooldown =>
      cfg.symbolCooldownEnabled && symbol in portfolio.symbolCooldownUntil &&
          now < portfolio.symbolCooldownUntil[symbol]
    case ConsecutiveLossesCooldown => cfg.lossCooldownEnabled && portfolio.consecutiveLosses >= cfg.lossCooldownAfter
    case InCooldown => portfolio.cooldownUntil.Some? && now < portfolio.cooldownUntil.value
    case _ => false
  }

  predicate Objects(cfg: EngineConfig, input: RiskInput, now: int, r: Objection)
    requires cfg.feeTakerBps >= 0.0 && EarlyExit(cfg, input).None?
  {
    PriceObjects(cfg, input, r) || SizeObjects(cfg, input, r) || RoundingObjects(input, r)
    || PortfolioObjects(cfg, input, r) || StateObjects(cfg, input, now, r)
  }

  function Raise(when: bool, r: Objection): seq<Objection> {
    if when then [r] else []
  }

  method PriceObjections(cfg: EngineConfig, input: RiskInput) returns (reasons: seq<Objection>)
    ensures forall r :: r in reasons <==> PriceObjects(cfg, input, r)
  {
    var risk, cand, info := WithDefaults(cfg.risk), input.candidate, input.symbolInfo;
    reasons := Raise(WrongSide(cand.side, cand.stopLoss, cand.entryPrice), SLWrongSide);
    var i := 0;
    while i < |cand.takeProfits| && !WrongSide(cand.side, cand.entryPrice, cand.takeProfits[i].price)
      invariant 0 <= i <= |cand.takeProfits|
      invariant forall j :: 0 <= j < i ==> !WrongSide(cand.side, cand.entryPrice, cand.takeProfits[j].price)
    {
      i := i + 1;
    }
    reasons := reasons + Raise(i < |cand.takeProfits|, TPWrongSide);
    if cand.takeProfits != [] {
      if cand.riskRewardRatio <= 0.0 {
        reasons := reasons + [InvalidRR];
      } else if cand.riskRewardRatio < risk.minRR {
        reasons := reasons + [RRBelowMin];
      }
      var minSep := if info.tickSize <= 0.0 then 0.0001 else info.tickSize;
      reasons := reasons + Raise(Abs(cand.takeProfits[0].price - cand.stopLoss) < minSep, TPSLTooClose);
    }
  }

  method SizeObjections(cfg: EngineConfig, input: RiskInput, qty: real, value: real, margin: real)
    returns (reasons: seq<Objection>)
    requires cfg.feeTakerBps >= 0.0 && EarlyExit(cfg, input).None?
    requires PerUnit(input.candidate.entryPrice, input.candidate.stopLoss, FeeRate(cfg)) > 0.0
    requires LeverageFor(WithDefaults(cfg.risk), input.symbolInfo) > 0.0
    requires qty == FirstQty(cfg, input) && value == FirstValue(cfg, input)
    requires margin == MarginOf(value, LeverageFor(WithDefaults(cfg.risk), input.symbolInfo))
    ensures forall r :: r in reasons <==> SizeObjects(cfg, input, r)
  {
    var info, available := input.symbolInfo, Available(input.account);
    reasons := Raise(available > 0.0 && margin > available * 0.95, MarginExceedsAvailable);
    reasons := reasons + Raise(qty <= 0.0 || (info.lotSize > 0.0 && qty < info.lotSize), InvalidQty);
    reasons := reasons + Raise(info.minNotional > 0.0 && value < info.minNotional, BelowMinNotional);
  }

  method RoundingObjections(input: RiskInput, entry: real, stop: real) returns (reasons: seq<Objection>)
    requires entry == RoundedEntry(input) && stop == RoundedStop(input)
    ensures forall r :: r in reasons <==> RoundingObjects(input, r)
  {
    reasons := Raise(WrongSide(input.candidate.side, stop, entry), SLEqualsEntryAfterRounding);
    if entry > 0.0 {
      reasons := reasons + Raise(DistancePct(entry, stop) < TierPct(entry), SLTooCloseAfterRounding);
    }
  }

  method PortfolioObjections(cfg: EngineConfig, input: RiskInput) returns (reasons: seq<Objection>)
    ensures forall r :: r in reasons <==> PortfolioObjects(cfg, input, r)
  {
    var risk, cand, positions := WithDefaults(cfg.risk), input.candidate, input.portfolio.positions;
    var openPos, altLongs := 0, 0;
    for i := 0 to |positions|
      invariant openPos == OpenCount(positions[..i]) && altLongs == AltLongCount(positions[..i])
    {
      assert positions[..i + 1][..i] == positions[..i];
      if positions[i].open {
        openPos := openPos + 1;
      }
      if IsAltLong(positions[i]) {
        altLongs := altLongs + 1;
      }
    }
    assert positions[..|positions|] == positions;
    reasons := Raise(openPos >= risk.maxOpenPositions && input.scoreTotal < 85.0, MaxOpenPositions);
    if cand.side.Long? && cand.symbol != "BTCUSDT" && input.scoreTotal < 85.0 {
      reasons := reasons + Raise(altLongs >= risk.maxCorrelatedPositions, MaxCorrelatedAltPositions);
    }
  }

  method StateObjections(cfg: EngineConfig, input: RiskInput, now: int) returns (reasons: seq<Objection>)
    ensures forall r :: r in reasons <==> StateObjects(cfg, input, now, r)
  {
    var portfolio, symbol := input.portfolio, input.candidate.symbol;
    reasons := Raise(input.halted, BotHalted);
    if cfg.symbolCooldownEnabled && symbol in portfolio.symbolCooldownUntil {
      reasons := reasons + Raise(now < portfolio.symbolCooldownUntil[symbol], SymbolSLCooldown);
    }
    reasons := reasons + Raise(
      cfg.lossCooldownEnabled && portfolio.consecutiveLosses >= cfg.lossCooldownAfter, ConsecutiveLossesCooldown);
    reasons := reasons + Raise(portfolio.cooldownUntil.Some? && now < portfolio.cooldownUntil.value, InCooldown);
  }

  /** The share of the size a target gets, in lots. */
  function TargetQty(qty: real, sizePct: real, lot: real): real {
    RoundTo(qty * sizePct / 100.0, lot)
  }

  predicate TargetsPlanned(targets: seq<TakeProfitPlan>, wanted: seq<TakeProfit>, info: SymbolInfo, qty: real) {
    && |targets| == |wanted|
    && forall i :: 0 <= i < |wanted| ==>
         targets[i] == TakeProfitPlan(RoundTo(wanted[i].price, info.tickSize),
                                      TargetQty(qty, wanted[i].sizePct, info.lotSize))
  }

  method PlanTargets(wanted: seq<TakeProfit>, info: SymbolInfo, qty: real) returns (targets: seq<TakeProfitPlan>)
    ensures TargetsPlanned(targets, wanted, info, qty)
  {
    targets := [];
    for i := 0 to |wanted|
      invariant TargetsPlanned(targets, wanted[..i], info, qty)
    {
      targets := targets + [TakeProfitPlan(RoundTo(wanted[i].price, info.tickSize),
                                           TargetQty(qty, wanted[i].sizePct, info.lotSize))];
    }
    assert wanted[..|wanted|] == wanted;
  }

  /** The plan says what the sizing says, whether or not it is approved. */
  ghost predicate Planned(cfg: EngineConfig, input: RiskInput, plan: OrderPlan)
    requires cfg.feeTakerBps >= 0.0 && EarlyExit(cfg, input).None?
  {
    SizeableInput(cfg, input);
    && plan.symbol == input.candidate.symbol && plan.side == input.candidate.side
    && plan.entryPrice == RoundedEntry(input) && plan.stopLoss == RoundedStop(input)
    && plan.riskPctUsed == RiskPct(WithDefaults(cfg.risk), input.candidate.side, input.modifiers)
    && plan.riskAmountUSD == RiskAmount(cfg, input)
    && plan.qty == FinalQty(cfg, input)
    && plan.leverage == LeverageFor(WithDefaults(cfg.risk), input.symbolInfo)
    && plan.marginRequired == MarginOf(FinalValue(cfg, input), plan.leverage)
    && plan.estimatedFees == FeePerUnit(FinalValue(cfg, input), FeeRate(cfg))
    && TargetsPlanned(plan.takeProfits, input.candidate.takeProfits, input.symbolInfo, plan.qty)
  }

  /** Size the plan again from the rounded prices. */
  method FinalSize(firstQty: real, firstValue: real, risk: real, entry: real, stop: real, feeRate: real, lot: real)
    returns (qty: real, value: real)
    requires entry >= 0.0 && feeRate >= 0.0
    ensures qty == Resized(firstQty, risk, entry, stop, feeRate, lot)
    ensures value == Revalued(firstValue, qty, entry, stop)
  {
    qty, value := firstQty, firstValue;
    if Abs(entry - stop) > 0.0 {
      PerUnitPositive(entry, stop, feeRate);
      qty := SizeFor(risk, PerUnit(entry, stop, feeRate), lot);
      value := Value(qty, entry);
    }
  }

  /** Approved exactly when nothing objects; every objection is listed, and the plan is the sized one. */
  method ValidateCandidate(cfg: EngineConfig, input: RiskInput, now: int) returns (result: RiskResult)
    requires cfg.feeTakerBps >= 0.0
    ensures result.approved <==> result.reasons == []
    ensures EarlyExit(cfg, input).Some? ==> result.reasons == [EarlyExit(cfg, input).value] && result.plan.None?
    ensures EarlyExit(cfg, input).None? ==> forall r :: r in result.reasons <==> Objects(cfg, input, now, r)
    ensures EarlyExit(cfg, input).None? ==> result.plan.Some? && Planned(cfg, input, result.plan.value)
  {
    var early := EarlyExit(cfg, input);
    if early.Some? {
      return RiskResult(false, [early.value], None);
    }
    SizeableInput(cfg, input);
    var risk, cand, info := WithDefaults(cfg.risk), input.candidate, input.symbolInfo;
    var leverage, riskAmount := LeverageFor(risk, info), RiskAmount(cfg, input);
    var qty, value := FirstQty(cfg, input), FirstValue(cfg, input);
    var prices := PriceObjections(cfg, input);
    var sizes := SizeObjections(cfg, input, qty, value, MarginOf(value, leverage));
    var entry, stop := RoundedEntry(input), RoundedStop(input);
    qty, value := FinalSize(qty, value, riskAmount, entry, stop, FeeRate(cfg), info.lotSize);
    var roundings := RoundingObjections(input, entry, stop);
    var holdings := PortfolioObjections(cfg, input);
    var state := StateObjections(cfg, input, now);
    var targets := PlanTargets(cand.takeProfits, info, qty);
    var reasons := prices + sizes + roundings + holdings + state;
    var plan := OrderPlan(
      cand.symbol, cand.side, qty, entry, stop, targets, leverage, MarginOf(value, leverage),
      FeePerUnit(value, FeeRate(cfg)), riskAmount, RiskPct(risk, cand.side, input.modifiers));
    result := RiskResult(reasons == [], reasons, Some(plan));
  }

  ghost predicate Approvable(cfg: EngineConfig, input: RiskInput, now: int) {
    cfg.feeTakerBps >= 0.0 && EarlyExit(cfg, input).None? && forall r :: !Objects(cfg, input, now, r)
  }

  /** An approved plan's stop is on the losing side, at no less than the tier's distance from the entry. */
  lemma ApprovedStopIsSet(cfg: EngineConfig, input: RiskInput, now: int, plan: OrderPlan)
    requires Approvable(cfg, input, now) && Planned(cfg, input, plan)
    ensures if plan.side.Long? then 0.0 <= plan.stopLoss < plan.entryPrice else 0.0 <= plan.entryPrice < plan.stopLoss
    ensures plan.entryPrice > 0.0 ==> DistancePct(plan.entryPrice, plan.stopLoss) >= TierPct(plan.entryPrice)
    ensures plan.entryPrice == 0.0 ==>
              plan.side.Short? && input.symbolInfo.tickSize > 0.0 &&
              input.candidate.entryPrice < input.symbolInfo.tickSize / 2.0
  {
    SizeableInput(cfg, input);
    assert !Objects(cfg, input, now, SLEqualsEntryAfterRounding);
    assert !Objects(cfg, input, now, SLTooCloseAfterRounding);
    if plan.entryPrice == 0.0 {
      if input.symbolInfo.tickSize > 0.0 {
        RoundToVanishes(input.candidate.entryPrice, input.symbolInfo.tickSize);
      }
    }
  }

  /** The risk an approved plan takes is within the configured range, whatever modifiers apply. */
  lemma ApprovedRiskInRange(cfg: EngineConfig, input: RiskInput, now: int, plan: OrderPlan)
    requires Approvable(cfg, input, now) && Planned(cfg, input, plan)
    ensures var risk := WithDefaults(cfg.risk);
            risk.minRiskPct <= plan.riskPctUsed <= Min(risk.baseRiskPct, risk.maxRiskPct)
    ensures plan.riskAmountUSD > 0.0 && 0.0 < plan.leverage <= WithDefaults(cfg.risk).maxLeverage
  {
  }

  /** The size of a plan whose prices differ is made from those prices. */
  lemma PlanIsSized(cfg: EngineConfig, input: RiskInput, plan: OrderPlan)
    requires cfg.feeTakerBps >= 0.0 && EarlyExit(cfg, input).None? && Planned(cfg, input, plan)
    requires plan.entryPrice != plan.stopLoss
    ensures plan.entryPrice >= 0.0 && FeeRate(cfg) >= 0.0 && plan.riskAmountUSD > 0.0
    ensures PerUnit(plan.entryPrice, plan.stopLoss, FeeRate(cfg)) > 0.0
    ensures plan.qty == SizeFor(plan.riskAmountUSD, PerUnit(plan.entryPrice, plan.stopLoss, FeeRate(cfg)),
                                input.symbolInfo.lotSize)
  {
    SizeableInput(cfg, input);
    PerUnitPositive(plan.entryPrice, plan.stopLoss, FeeRate(cfg));
  }

  lemma SizedLossIsBounded(side: Side, qty: real, risk: real, entry: real, stop: real, feeRate: real, lot: real)
    requires risk >= 0.0 && feeRate >= 0.0
    requires if side.Long? then 0.0 <= stop < entry else 0.0 <= entry < stop
    requires PerUnit(entry, stop, feeRate) > 0.0 ==> qty == SizeFor(risk, PerUnit(entry, stop, feeRate), lot)
    ensures PerUnit(entry, stop, feeRate) > 0.0
    ensures var bound := LossBound(risk, PerUnit(entry, stop, feeRate), lot);
            StopOutLoss(qty, entry, stop, feeRate) <= if side.Long? then bound else bound * (1.0 + feeRate)
  {
    if side.Long? {
      LongStopOutIsBounded(risk, entry, stop, feeRate, lot);
    } else {
      ShortStopOutIsBounded(risk, entry, stop, feeRate, lot);
    }
  }

  /** Stopped out, an approved plan loses, with both fees, no more than its risk amount and half a lot's worth. */
  lemma ApprovedLossIsBounded(cfg: EngineConfig, input: RiskInput, now: int, plan: OrderPlan)
    requires Approvable(cfg, input, now) && Planned(cfg, input, plan)
    ensures var feeRate := FeeRate(cfg);
            var bound := LossBound(plan.riskAmountUSD, PerUnit(plan.entryPrice, plan.stopLoss, feeRate),
                input.symbolInfo.lotSize);
            StopOutLoss(plan.qty, plan.entryPrice, plan.stopLoss, feeRate)
            <= if plan.side.Long? then bound else bound * (1.0 + feeRate)
  {
    ApprovedStopIsSet(cfg, input, now, plan);
    PlanIsSized(cfg, input, plan);
    SizedLossIsBounded(plan.side, plan.qty, plan.riskAmountUSD, plan.entryPrice, plan.stopLoss, FeeRate(cfg),
                       input.symbolInfo.lotSize);
  }

  /**
    * The quantity is checked before the prices are rounded, so even an approved plan, whose prices always differ, may
    * be empty: in lots, exactly when the risk amount buys less than half a lot at the rounded distance.
    */
  lemma PlanIsEmpty(cfg: EngineConfig, input: RiskInput, plan: OrderPlan)
    requires cfg.feeTakerBps >= 0.0 && EarlyExit(cfg, input).None? && Planned(cfg, input, plan)
    requires input.symbolInfo.lotSize > 0.0 && plan.entryPrice != plan.stopLoss
    ensures PerUnit(plan.entryPrice, plan.stopLoss, FeeRate(cfg)) > 0.0
    ensures plan.qty == 0.0 <==>
            plan.riskAmountUSD / PerUnit(plan.entryPrice, plan.stopLoss, FeeRate(cfg)) < input.symbolInfo.lotSize / 2.0
    ensures plan.qty != 0.0 ==> plan.qty >= input.symbolInfo.lotSize
  {
    PlanIsSized(cfg, input, plan);
    QuotientSign(plan.riskAmountUSD, PerUnit(plan.entryPrice, plan.stopLoss, FeeRate(cfg)));
    RoundToVanishes(plan.riskAmountUSD / PerUnit(plan.entryPrice, plan.stopLoss, FeeRate(cfg)),
        input.symbolInfo.lotSize);
  }

  /**
   When the prices lie on ticks already, what was checked is what is planned: an approved plan can be traded and paid.
   */
  lemma OnTickPlanIsTradable(cfg: EngineConfig, input: RiskInput, now: int, plan: OrderPlan)
    requires Approvable(cfg, input, now) && Planned(cfg, input, plan)
    requires plan.entryPrice == input.candidate.entryPrice && plan.stopLoss == input.candidate.stopLoss
    ensures plan.qty > 0.0 && (input.symbolInfo.lotSize > 0.0 ==> plan.qty >= input.symbolInfo.lotSize)
    ensures input.symbolInfo.minNotional > 0.0 ==> Value(plan.qty, plan.entryPrice) >= input.symbolInfo.minNotional
    ensures Available(input.account) > 0.0 ==> plan.marginRequired <= Available(input.account) * 0.95
  {
    SizeableInput(cfg, input);
    assert !Objects(cfg, input, now, SLEqualsEntryAfterRounding);
    assert !Objects(cfg, input, now, InvalidQty);
    assert !Objects(cfg, input, now, BelowMinNotional);
    assert !Objects(cfg, input, now, MarginExceedsAvailable);
  }

  /** What the risk amount buys at the rounded distance, before it is rounded to lots. */
  function Bought(cfg: EngineConfig, plan: OrderPlan): real
    requires PerUnit(plan.entryPrice, plan.stopLoss, FeeRate(cfg)) > 0.0
  {
    plan.riskAmountUSD / PerUnit(plan.entryPrice, plan.stopLoss, FeeRate(cfg))
  }

  /** The size at which a notional is reached. */
  function SizeAt(value: real, entry: real): real
    requires entry > 0.0
  {
    value / entry
  }

  /** What a margin pays for, leveraged. */
  function PaidSize(margin: real, leverage: real, entry: real): real
    requires entry > 0.0
  {
    SizeAt(margin * leverage, entry)
  }

  /** Sized again, a plan's notional meets a minimum exactly when what is bought rounds to enough lots for it. */
  lemma SizedMeets(bought: real, qty: real, entry: real, lot: real, least: real)
    requires bought >= 0.0 && entry > 0.0 && qty == RoundTo(bought, lot)
    ensures Value(qty, entry) >= least <==> ReachesRounded(bought, SizeAt(least, entry), lot)
  {
    QuotientCompares(least, qty, entry);
    RoundToReaches(bought, SizeAt(least, entry), lot);
  }

  /** And its margin is within a cap exactly when what is bought rounds to no more lots than the cap pays. */
  lemma SizedIsPaid(bought: real, qty: real, entry: real, lot: real, leverage: real, margin: real, cap: real)
    requires bought >= 0.0 && entry > 0.0 && leverage > 0.0 && qty == RoundTo(bought, lot)
    requires margin == MarginOf(Value(qty, entry), leverage)
    ensures margin <= cap <==> WithinRounded(bought, PaidSize(cap, leverage, entry), lot)
  {
    QuotientCompares(Value(qty, entry), cap, leverage);
    QuotientCompares(cap * leverage, qty, entry);
    RoundToStaysWithin(bought, PaidSize(cap, leverage, entry), lot);
  }

  lemma BoughtIsRounded(cfg: EngineConfig, input: RiskInput, plan: OrderPlan)
    requires cfg.feeTakerBps >= 0.0 && EarlyExit(cfg, input).None? && Planned(cfg, input, plan)
    requires plan.entryPrice != plan.stopLoss
    ensures plan.entryPrice >= 0.0 && plan.leverage > 0.0
    ensures PerUnit(plan.entryPrice, plan.stopLoss, FeeRate(cfg)) > 0.0 && Bought(cfg, plan) >= 0.0
    ensures plan.qty == RoundTo(Bought(cfg, plan), input.symbolInfo.lotSize)
    ensures plan.marginRequired == MarginOf(Value(plan.qty, plan.entryPrice), plan.leverage)
  {
    PlanIsSized(cfg, input, plan);
    SizeableInput(cfg, input);
    QuotientSign(plan.riskAmountUSD, PerUnit(plan.entryPrice, plan.stopLoss, FeeRate(cfg)));
  }

  /**
   The notional is checked before the prices are rounded too: the plan's meets the minimum exactly when what the risk
   amount buys at the rounded distance rounds to enough lots for it.
   */
  lemma PlanMeetsNotional(cfg: EngineConfig, input: RiskInput, plan: OrderPlan)
    requires cfg.feeTakerBps >= 0.0 && EarlyExit(cfg, input).None? && Planned(cfg, input, plan)
    requires input.symbolInfo.minNotional > 0.0 && plan.entryPrice != plan.stopLoss
    ensures PerUnit(plan.entryPrice, plan.stopLoss, FeeRate(cfg)) > 0.0
    ensures Value(plan.qty, plan.entryPrice) >= input.symbolInfo.minNotional <==>
            plan.entryPrice > 0.0 &&
            ReachesRounded(Bought(cfg, plan), SizeAt(input.symbolInfo.minNotional, plan.entryPrice),
                           input.symbolInfo.lotSize)
  {
    BoughtIsRounded(cfg, input, plan);
    if plan.entryPrice > 0.0 {
      SizedMeets(Bought(cfg, plan), plan.qty, plan.entryPrice, input.symbolInfo.lotSize, input.symbolInfo.minNotional);
    }
  }

  /** So is the margin: the plan's is within 95% of what is available exactly when that pays the lots it rounds to. */
  lemma PlanIsPaid(cfg: EngineConfig, input: RiskInput, plan: OrderPlan, cap: real)
    requires cfg.feeTakerBps >= 0.0 && EarlyExit(cfg, input).None? && Planned(cfg, input, plan)
    requires cap == Available(input.account) * 0.95 > 0.0 && plan.entryPrice != plan.stopLoss
    ensures PerUnit(plan.entryPrice, plan.stopLoss, FeeRate(cfg)) > 0.0
    ensures plan.marginRequired <= cap <==>
            plan.entryPrice == 0.0 ||
            WithinRounded(Bought(cfg, plan), PaidSize(cap, plan.leverage, plan.entryPrice), input.symbolInfo.lotSize)
  {
    BoughtIsRounded(cfg, input, plan);
    if plan.entryPrice > 0.0 {
      SizedIsPaid(Bought(cfg, plan), plan.qty, plan.entryPrice, input.symbolInfo.lotSize, plan.leverage,
                  plan.marginRequired, cap);
    } else {
      assert Value(plan.qty, 0.0) == 0.0 && MarginOf(0.0, plan.leverage) == 0.0;
    }
  }

  // ---------------------------------------------------------------- approved, and yet

  /** A long at 100, ticks of 1, three times leveraged, no fees, 5 at risk. */
  predicate LongAtHundred(cfg: EngineConfig, input: RiskInput, stop: real, info: SymbolInfo, available: real) {
    && cfg.risk == RiskConfig(0.5, 1.0, 0.1, 5.0, 3.0, 1.4, 2, 1) && cfg.feeTakerBps == 0.0
    && !cfg.symbolCooldownEnabled && !cfg.lossCooldownEnabled
    && input.candidate == TradeCandidate("X", Long, 100.0, stop, [], 2.0)
    && input.symbolInfo == info && info.tickSize == 1.0 && info.maxLeverage == 0.0
    && input.modifiers == Modifiers(false, false, false)
    && input.account == Account(1000.0, 1000.0, 1000.0 - available, available)
    && input.portfolio == Portfolio([], 0, None, map[]) && !input.halted
  }

  /** Such a long whose stop rounds to 99. */
  predicate StopAtNinetyNine(cfg: EngineConfig, input: RiskInput, stop: real, info: SymbolInfo, available: real) {
    LongAtHundred(cfg, input, stop, info, available) && 98.5 <= stop < 99.5
  }

  lemma HundredSizes(cfg: EngineConfig, input: RiskInput, stop: real, info: SymbolInfo, available: real)
    requires StopAtNinetyNine(cfg, input, stop, info, available)
    ensures EarlyExit(cfg, input).None? && RiskAmount(cfg, input) == 5.0 && FeeRate(cfg) == 0.0
    ensures RoundedEntry(input) == 100.0 && RoundedStop(input) == 99.0
    ensures LeverageFor(WithDefaults(cfg.risk), input.symbolInfo) == 3.0
    ensures PerUnit(100.0, stop, 0.0) == 100.0 - stop && PerUnit(100.0, 99.0, 0.0) == 1.0
  {
    RoundsTo(100.0, 1.0, 100);
    RoundsTo(stop, 1.0, 99);
  }

  lemma HundredUnopposed(
    cfg: EngineConfig, input: RiskInput, stop: real, info: SymbolInfo, available: real, now: int, r: Objection)
    requires StopAtNinetyNine(cfg, input, stop, info, available)
    ensures !PriceObjects(cfg, input, r) && !PortfolioObjects(cfg, input, r) && !StateObjects(cfg, input, now, r)
    ensures !RoundingObjects(input, r)
  {
    HundredSizes(cfg, input, stop, info, available);
    assert DistancePct(100.0, 99.0) == 1.0 && TierPct(100.0) == 0.3;
  }

  /** Approved when the first size passes, and planned from the risk amount itself, at a distance of one. */
  lemma HundredApproved(
    cfg: EngineConfig, input: RiskInput, stop: real, info: SymbolInfo, available: real, now: int, qty: real)
    requires StopAtNinetyNine(cfg, input, stop, info, available) && available > 0.0
    requires qty == SizeFor(5.0, 100.0 - stop, info.lotSize) && qty > 0.0
    requires info.lotSize > 0.0 ==> qty >= info.lotSize
    requires (info.minNotional > 0.0 ==> 100.0 * qty >= info.minNotional) && 100.0 * qty <= available * 0.95 * 3.0
    ensures Approvable(cfg, input, now) && FeeRate(cfg) >= 0.0 && RoundedEntry(input) >= 0.0
    ensures PerUnit(input.candidate.entryPrice, input.candidate.stopLoss, FeeRate(cfg)) > 0.0
    ensures FinalQty(cfg, input) == SizeFor(5.0, 1.0, info.lotSize)
    ensures FinalValue(cfg, input) == 100.0 * FinalQty(cfg, input)
  {
    HundredSizes(cfg, input, stop, info, available);
    assert FirstQty(cfg, input) == qty && FirstValue(cfg, input) == 100.0 * qty;
    assert MarginOf(100.0 * qty, 3.0) <= available * 0.95;
    forall r
      ensures !Objects(cfg, input, now, r)
    {
      HundredUnopposed(cfg, input, stop, info, available, now, r);
      assert !SizeObjects(cfg, input, r);
    }
  }

  /** Stop at 99.4 and lots of 12: one lot at the first distance, none at the rounded. Approved with an empty plan. */
  lemma EmptyPlanExample(cfg: EngineConfig, input: RiskInput, now: int, stop: real, info: SymbolInfo)
    requires stop == 99.4 && info == SymbolInfo(1.0, 12.0, 0.0, 0.0)
    requires LongAtHundred(cfg, input, stop, info, 1000.0)
    ensures Approvable(cfg, input, now) && FeeRate(cfg) >= 0.0 && RoundedEntry(input) >= 0.0
    ensures PerUnit(input.candidate.entryPrice, input.candidate.stopLoss, FeeRate(cfg)) > 0.0
    ensures FinalQty(cfg, input) == 0.0
  {
    RoundsTo(5.0 / (100.0 - stop), 12.0, 1);
    RoundsTo(5.0 / 1.0, 12.0, 0);
    HundredApproved(cfg, input, stop, info, 1000.0, now, 12.0);
  }

  /** Stop at 99.4 and a minimum notional of 600: the first notional is above 800, the plan's is 500. */
  lemma SmallPlanExample(cfg: EngineConfig, input: RiskInput, now: int, stop: real, info: SymbolInfo)
    requires stop == 99.4 && info == SymbolInfo(1.0, 0.0, 600.0, 0.0)
    requires LongAtHundred(cfg, input, stop, info, 1000.0)
    ensures Approvable(cfg, input, now) && FeeRate(cfg) >= 0.0 && RoundedEntry(input) >= 0.0
    ensures PerUnit(input.candidate.entryPrice, input.candidate.stopLoss, FeeRate(cfg)) > 0.0
    ensures FinalValue(cfg, input) == 500.0 < info.minNotional
  {
    HundredApproved(cfg, input, stop, info, 1000.0, now, 5.0 / (100.0 - stop));
  }

  /** Stop at 98.6 and 150 available: the first margin is below 120, the plan's above 160. */
  lemma UnpaidPlanExample(cfg: EngineConfig, input: RiskInput, now: int, stop: real, info: SymbolInfo, available: real)
    requires stop == 98.6 && info == SymbolInfo(1.0, 0.0, 0.0, 0.0) && available == 150.0
    requires LongAtHundred(cfg, input, stop, info, available)
    ensures Approvable(cfg, input, now) && FeeRate(cfg) >= 0.0 && RoundedEntry(input) >= 0.0
    ensures PerUnit(input.candidate.entryPrice, input.candidate.stopLoss, FeeRate(cfg)) > 0.0
    ensures MarginOf(FinalValue(cfg, input), 3.0) > available
  {
    HundredApproved(cfg, input, stop, info, available, now, 5.0 / (100.0 - stop));
  }
}
