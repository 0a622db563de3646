/**
 Safety over whole runs: protection under an exact guard, flat after an emergency close, dead after the kill switch.
 */
module BrokerSafety {
  import opened Numbers
  import opened Domain
  import opened BrokerModel
  import opened BrokerProtection
  import opened BrokerRuns
  import opened BrokerLoops
  import opened BrokerCandles
  import opened BrokerMoney
  import Folds

  // ---------------------------------------------------------------- closing everything

  /** Every position is filed under its own symbol. */
  predicate Keyed(ps: Positions) {
    forall sym :: sym in ps ==> ps[sym].symbol == sym
  }

  lemma ProtectedIsKeyed(s: BrokerState)
    requires Protected(s)
    ensures Keyed(s.book.positions)
  {
  }

  function NetAt(cfg: ValidConfig, prices: map<string, real>): Position -> real {
    (p: Position) => ExitNet(cfg, p, EmergencyPrice(prices, p.symbol, p))
  }

  function FeeAt(cfg: ValidConfig, prices: map<string, real>): Position -> real {
    (p: Position) => ExitFee(cfg, p, EmergencyPrice(prices, p.symbol, p))
  }

  function SlipAt(cfg: ValidConfig, prices: map<string, real>): Position -> real {
    (p: Position) => Times(Bps(EmergencyPrice(prices, p.symbol, p), cfg.slippageBps), p.size)
  }

  function LossAt(cfg: ValidConfig, prices: map<string, real>): Position -> real {
    (p: Position) => LossOf(ExitNet(cfg, p, EmergencyPrice(prices, p.symbol, p)))
  }

  /** The wallet once all of `ps` are closed at the quotes, as sums over the set of positions. */
  ghost function AllClosed(cfg: ValidConfig, w: Wallet, ps: Positions, prices: map<string, real>): Wallet {
    var net := Folds.SumBy(ps, NetAt(cfg, prices));
    Wallet(w.balance + net, w.usedMargin - Folds.SumBy(ps, MarginOf()), w.realizedPnL + net,
           w.totalFees + Folds.SumBy(ps, FeeAt(cfg, prices)), w.totalSlippage + Folds.SumBy(ps, SlipAt(cfg, prices)),
           w.dailyLoss + Folds.SumBy(ps, LossAt(cfg, prices)))
  }

  /** Settling one position's exit takes its share out of the sums. */
  lemma OneSettled(cfg: ValidConfig, w: Wallet, ps: Positions, prices: map<string, real>, symbol: string)
    requires symbol in ps
    ensures var p := ps[symbol];
            var price := EmergencyPrice(prices, p.symbol, p);
            var slip := Times(Bps(price, cfg.slippageBps), p.size);
            AllClosed(cfg, w, ps, prices)
            == AllClosed(cfg, Settle(w, ExitGross(cfg, p, price), ExitFee(cfg, p, price), slip, p.margin),
                         ps - {symbol}, prices)
  {
    Folds.SumTakeOut(ps, NetAt(cfg, prices), symbol);
    Folds.SumTakeOut(ps, FeeAt(cfg, prices), symbol);
    Folds.SumTakeOut(ps, SlipAt(cfg, prices), symbol);
    Folds.SumTakeOut(ps, LossAt(cfg, prices), symbol);
    Folds.SumTakeOut(ps, MarginOf(), symbol);
  }

  lemma OneClosed(cfg: ValidConfig, s: BrokerState, symbol: string)
    requires Keyed(s.book.positions) && symbol in s.book.positions
    ensures var t := EmergencyAct(cfg, s, symbol);
            AllClosed(cfg, s.wallet, s.book.positions, s.prices)
                == AllClosed(cfg, t.wallet, t.book.positions, t.prices) &&
            t.book.positions == s.book.positions - {symbol} && t.prices == s.prices && t.halted == s.halted &&
            (s.book.orders == map[] ==> t.book.orders == map[]) && t.book.nextOrderID > s.book.nextOrderID
  {
    OneSettled(cfg, s.wallet, s.book.positions, s.prices, symbol);
  }

  /** The positions no entry of the schedule names. */
  function Without(ps: Positions, sched: seq<string>): Positions {
    map sym | sym in ps && sym !in sched :: ps[sym]
  }

  lemma WithoutStep(ps: Positions, sched: seq<string>)
    requires sched != []
    ensures Without(ps - {sched[0]}, sched[1..]) == Without(ps, sched)
  {
  }

  lemma {:induction false} SweepCloses(cfg: ValidConfig, s: BrokerState, sched: seq<string>)
    requires Keyed(s.book.positions) && s.book.orders == map[]
    ensures var t := Folds.Sweep(s, sched, StillOpen(), EmergencyActing(cfg));
            t.book.orders == map[] && t.book.positions == Without(s.book.positions, sched) &&
            AllClosed(cfg, t.wallet, t.book.positions, s.prices)
                == AllClosed(cfg, s.wallet, s.book.positions, s.prices) &&
            t.halted == s.halted && t.prices == s.prices && t.book.nextOrderID >= s.book.nextOrderID
    decreases |sched|
  {
    if sched != [] {
      WithoutStep(s.book.positions, sched);
      if sched[0] in s.book.positions {
        OneClosed(cfg, s, sched[0]);
        SweepCloses(cfg, EmergencyAct(cfg, s, sched[0]), sched[1..]);
      } else {
        assert s.book.positions - {sched[0]} == s.book.positions;
        SweepCloses(cfg, s, sched[1..]);
      }
    }
  }

  /** An emergency close leaves nothing open or pending, and one and the same wallet for every iteration order. */
  lemma EmergencyFlattens(cfg: ValidConfig, s: BrokerState, sched: seq<string>)
    requires Keyed(s.book.positions) && Folds.Covers(sched, s.book.positions.Keys)
    ensures var t := EmergencyClose(cfg, s, sched);
            t.book.positions == map[] && t.book.orders == map[] && t.halted == s.halted && t.prices == s.prices &&
            t.wallet == AllClosed(cfg, s.wallet, s.book.positions, s.prices)
  {
    SweepCloses(cfg, s.(book := s.book.(orders := map[])), sched);
    var t := EmergencyClose(cfg, s, sched);
    assert t.book.positions == map[];
    assert AllClosed(cfg, t.wallet, t.book.positions, s.prices) == t.wallet;
  }

  lemma NoOrdersNoProtection(s: BrokerState)
    requires s.book.orders == map[] && s.book.nextOrderID >= 1
    ensures Protected(s) <==> s.book.positions == map[]
  {
  }

  lemma AllVisited(ps: Positions, sched: seq<string>)
    ensures Without(ps, sched) == map[] <==> Folds.Covers(sched, ps.Keys)
  {
    if sym :| sym in ps && sym !in sched {
      assert sym in Without(ps, sched);
    }
  }

  /** Missing a position leaves it unguarded, for its stop is already cancelled. */
  lemma EmergencyKeeps(cfg: ValidConfig, s: BrokerState, sched: seq<string>)
    requires Protected(s)
    ensures Protected(EmergencyClose(cfg, s, sched)) <==> Folds.Covers(sched, s.book.positions.Keys)
  {
    ProtectedIsKeyed(s);
    SweepCloses(cfg, s.(book := s.book.(orders := map[])), sched);
    AllVisited(s.book.positions, sched);
    NoOrdersNoProtection(EmergencyClose(cfg, s, sched));
  }

  // ---------------------------------------------------------------- protected runs

  /**
   What has to hold for an operation. A candle visits every order in each of its loops, and what its limit fills have
   left behind when the first is through are stops it crosses.
   */
  ghost predicate Admissible(cfg: ValidConfig, s: BrokerState, op: Op) {
    match op
    case PlaceOrder(req) => !Strays(cfg, s, req)
    case CancelOrder(key) => !(key in s.book.orders && s.book.orders[key].orderType == StopMarket)
    case EmergencyCloseAll(order) => Folds.Covers(order, s.book.positions.Keys)
    case ProcessCandle(c, passes) =>
      CandleCovered(cfg, s, c, passes) && Cleared(LimitPass(cfg, Priced(s, c.symbol, c.close), c, passes.limits), c)
    case SetProtectiveOrders(symbol, sl, tp) => sl > 0.0 && symbol in s.book.positions ==>
        LevelsValid(s.book.positions[symbol], sl, tp)
    case _ => true
  }

  /** The guard is exact for every operation, a candle's loops visiting every order as the broker's do. */
  lemma StepKeepsProtection(cfg: ValidConfig, s: BrokerState, op: Op)
    requires Protected(s)
    ensures Admissible(cfg, s, op) ==> Protected(Step(cfg, s, op))
    ensures (op.ProcessCandle? ==> CandleCovered(cfg, s, op.candle, op.passes)) ==>
              (Protected(Step(cfg, s, op)) <==> Admissible(cfg, s, op))
  {
    match op
    case PlaceOrder(req) => PlaceKeeps(cfg, s, req);
    case CancelOrder(key) => DropSound(s.book.positions, s.book.orders, s.book.nextOrderID, key);
    case CloseSymbol(symbol) =>
      if symbol in s.book.positions && Quoted(s, symbol) {
        CloseOutKeeps(cfg, s, symbol, s.prices[symbol], true);
      }
    case EmergencyCloseAll(order) => EmergencyKeeps(cfg, s, order);
    case UpdatePrice(symbol, price, visits) => TickPassOutcome(cfg, Priced(s, symbol, price), symbol, price, visits);
    case SetSymbolPrice(symbol, price) =>
    case ProcessCandle(c, passes) =>
      if CandleCovered(cfg, s, c, passes) {
        CandleKeepsExactly(cfg, s, c, passes);
      }
    case SetProtectiveOrders(symbol, sl, tp) => ReplaceKeeps(s.book, symbol, sl, tp);
    case ResetDailyLoss =>
    case SetHalted =>
  }

  ghost predicate AdmissibleRun(cfg: ValidConfig, s: BrokerState, ops: seq<Op>)
    decreases |ops|
  {
    ops == [] || (Admissible(cfg, s, ops[0]) && AdmissibleRun(cfg, Step(cfg, s, ops[0]), ops[1..]))
  }

  lemma {:induction false} RunKeepsProtection(cfg: ValidConfig, s: BrokerState, ops: seq<Op>)
    requires Protected(s) && AdmissibleRun(cfg, s, ops)
    ensures Protected(Run(cfg, s, ops))
    decreases |ops|
  {
    if ops != [] {
      StepKeepsProtection(cfg, s, ops[0]);
      RunKeepsProtection(cfg, Step(cfg, s, ops[0]), ops[1..]);
    }
  }

  /**
   In every state an admissible run reaches, each open position has its pending stop, and no stop or target is without
   its position.
   */
  lemma EveryRunIsProtected(cfg: ValidConfig, ops: seq<Op>)
    requires AdmissibleRun(cfg, Fresh(cfg), ops)
    ensures var b := Run(cfg, Fresh(cfg), ops).book;
            (forall sym :: sym in b.positions ==>
              b.positions[sym].slOrderID.Some? && Paper(b.positions[sym].slOrderID.value) in b.orders &&
              StopsOut(b.orders[Paper(b.positions[sym].slOrderID.value)], b.positions[sym])) &&
            (forall k :: k in b.orders && Protective(b.orders[k]) ==>
              b.orders[k].symbol in b.positions && Protects(b.orders[k], b.positions[b.orders[k].symbol]))
  {
    RunKeepsProtection(cfg, Fresh(cfg), ops);
    var b := Run(cfg, Fresh(cfg), ops).book;
    assert forall sym :: sym in b.positions ==> Guarded(b.positions, b.orders, sym);
    assert forall k :: k in b.orders ==> Owned(b.positions, b.orders[k]);
  }

  // ---------------------------------------------------------------- nothing overwritten

  predicate NothingLost(s: BrokerState) {
    Tally(s.journal).overwritten == 0.0
  }

  lemma CloseOutLosesNothing(cfg: ValidConfig, s: BrokerState, pos: Position, price: real, synthetic: bool)
    requires NothingLost(s)
    ensures NothingLost(CloseOut(cfg, s, pos, price, synthetic))
  {
    TallyAppend(s.journal, Exited(ExitGross(cfg, pos, price), ExitFee(cfg, pos, price), pos.realizedPnL));
  }

  lemma EnterLosesNothing(s: BrokerState, pos: Position, fee: real, slip: real)
    requires NothingLost(s) && pos.symbol !in s.book.positions
    ensures NothingLost(Enter(s, pos, fee, slip))
  {
    TallyEntry(s.journal, s.book, pos.symbol, fee);
  }

  lemma OpenAtLosesNothing(cfg: ValidConfig, s: BrokerState, pos: Position, fee: real, slip: real, sl: real, tp: real)
    requires NothingLost(s) && pos.symbol !in s.book.positions
    ensures NothingLost(OpenAt(cfg, s, pos, fee, slip, sl, tp))
  {
    EnterLosesNothing(s, pos, fee, slip);
    if StopInvalid(pos, sl) {
      CloseOutLosesNothing(cfg, Enter(s, pos, fee, slip), pos, pos.entryPrice, true);
    }
  }

  lemma FillMarketLosesNothing(
    cfg: ValidConfig, s: BrokerState, req: OrderRequest, fill: real, margin: real, fee: real, slip: real)
    requires NothingLost(s) && Keyed(s.book.positions) && req.qty > 0.0
    ensures NothingLost(FillMarket(cfg, s, req, fill, margin, fee, slip))
  {
    if req.symbol in s.book.positions && req.reduceOnly {
      var pos := s.book.positions[req.symbol];
      if req.qty >= pos.size {
        CloseOutLosesNothing(cfg, s, pos, fill, true);
      } else {
        TallyAppend(s.journal, Exited(Gross(pos.side, pos.entryPrice, fill, req.qty), fee, 0.0));
      }
    } else {
      var s1 := Vacate(cfg, s, req.symbol, fill);
      if req.symbol in s.book.positions {
        CloseOutLosesNothing(cfg, s, s.book.positions[req.symbol], fill, true);
      }
      OpenAtLosesNothing(cfg, s1, NewPosition(cfg, s1, req.symbol, req.side, req.qty, fill, margin), fee,
          Times(slip, req.qty), req.stopLoss, req.takeProfit);
    }
  }

  lemma LimitActLosesNothing(cfg: ValidConfig, s: BrokerState, k: OrderKey)
    requires NothingLost(s) && k in s.book.orders && s.book.orders[k].price.Some? && LandsFree(cfg, s, k)
    ensures NothingLost(LimitAct(cfg, s, k))
  {
    var o := s.book.orders[k];
    var pos := NewPosition(cfg, s, o.symbol, o.side, o.qty, o.price.value, MarginFor(cfg, o.price.value, o.qty));
    var fee := MakerFee(cfg, o, o.price.value);
    if LimitAccepted(cfg, s, o) {
      if o.intendedSL > 0.0 || o.intendedTP > 0.0 {
        OpenAtLosesNothing(cfg, s, pos, fee, 0.0, o.intendedSL, o.intendedTP);
      } else {
        EnterLosesNothing(s, pos, fee, 0.0);
        CloseOutLosesNothing(cfg, Enter(s, pos, fee, 0.0), pos, o.price.value, true);
      }
    }
  }

  lemma {:induction false} LimitPassLosesNothing(cfg: ValidConfig, s: BrokerState, c: Candle, sched: seq<OrderKey>)
    requires NothingLost(s) && FillsLandFree(cfg, s, c, sched)
    ensures NothingLost(LimitPass(cfg, s, c, sched))
    decreases |sched|
  {
    if sched != [] {
      if LimitFires(c, s, sched[0]) {
        LimitActLosesNothing(cfg, s, sched[0]);
      }
      LimitPassLosesNothing(cfg, Folds.Visit(s, sched[0], LimitFiring(c), LimitActing(cfg)), c, sched[1..]);
    }
  }

  lemma TriggerLosesNothing(cfg: ValidConfig, s: BrokerState, k: OrderKey, price: real)
    requires NothingLost(s) && k in s.book.orders
    ensures NothingLost(Trigger(cfg, s, k, price))
  {
  }

  lemma CandlePassLosesNothing(cfg: ValidConfig, s: BrokerState, c: Candle, orderType: OrderType, sched: seq<OrderKey>)
    requires NothingLost(s)
    ensures NothingLost(CandlePass(cfg, s, c, orderType, sched).s)
  {
    var inv := (p: PassState) => NothingLost(p.s);
    forall p, k | inv(p) && CandleFiring(c, orderType)(p, k)
      ensures inv(CandleActing(cfg)(p, k))
    {
      TriggerLosesNothing(cfg, p.s, k, p.s.book.orders[k].stopPrice.value);
    }
    Folds.SweepInvariant(PassState(s, false), sched, CandleFiring(c, orderType), CandleActing(cfg), inv);
  }

  lemma TickLosesNothing(cfg: ValidConfig, s: BrokerState, symbol: string, price: real, sched: seq<OrderKey>)
    requires NothingLost(s)
    ensures NothingLost(TickPass(cfg, s, symbol, price, sched))
  {
    var inv := (t: BrokerState) => NothingLost(t);
    forall t, k | inv(t) && TickFiring(symbol, price)(t, k)
      ensures inv(TickActing(cfg, price)(t, k))
    {
      TriggerLosesNothing(cfg, t, k, price);
    }
    Folds.SweepInvariant(s, sched, TickFiring(symbol, price), TickActing(cfg, price), inv);
  }

  lemma EmergencyLosesNothing(cfg: ValidConfig, s: BrokerState, sched: seq<string>)
    requires NothingLost(s)
    ensures NothingLost(EmergencyClose(cfg, s, sched))
  {
    var inv := (t: BrokerState) => NothingLost(t);
    forall t, symbol | inv(t) && StillOpen()(t, symbol)
      ensures inv(EmergencyActing(cfg)(t, symbol))
    {
      CloseOutLosesNothing(cfg, t, t.book.positions[symbol],
          EmergencyPrice(t.prices, symbol, t.book.positions[symbol]), true);
    }
    Folds.SweepInvariant(s.(book := s.book.(orders := map[])), sched, StillOpen(), EmergencyActing(cfg), inv);
  }

  lemma AtCandleLosesNothing(cfg: ValidConfig, s: BrokerState, c: Candle, sched: CandleSchedule)
    requires NothingLost(s) && FillsLandFree(cfg, Priced(s, c.symbol, c.close), c, sched.limits)
    ensures NothingLost(AtCandle(cfg, s, c, sched))
  {
    var s0 := Priced(s, c.symbol, c.close);
    LimitPassLosesNothing(cfg, s0, c, sched.limits);
    var s1 := LimitPass(cfg, s0, c, sched.limits);
    CandlePassLosesNothing(cfg, s1, c, StopMarket, sched.stops);
    var p := CandlePass(cfg, s1, c, StopMarket, sched.stops);
    CandlePassLosesNothing(cfg, p.s, c, TakeProfitMarket, sched.targets);
  }

  lemma PlaceLosesNothing(cfg: ValidConfig, s: BrokerState, req: OrderRequest)
    requires NothingLost(s) && Keyed(s.book.positions)
    ensures NothingLost(Place(cfg, s, req).0)
  {
    if !EarlyRefusal(s, req) && req.orderType == Market && MarketFills(cfg, s, req) {
      var fill := EntryFill(cfg, req.side, s.prices[req.symbol]);
      FillMarketLosesNothing(cfg, TakeNumber(s), req, fill, MarginFor(cfg, fill, req.qty), TakerFee(cfg, req, fill),
          Bps(s.prices[req.symbol], cfg.slippageBps));
    }
  }

  lemma CloseLosesNothing(cfg: ValidConfig, s: BrokerState, symbol: string)
    requires NothingLost(s)
    ensures NothingLost(ClosePosition(cfg, s, symbol))
  {
  }

  lemma UpdateLosesNothing(cfg: ValidConfig, s: BrokerState, op: Op)
    requires NothingLost(s) && Keyed(s.book.positions) && !op.ProcessCandle?
    ensures NothingLost(Step(cfg, s, op))
  {
    match op
    case PlaceOrder(req) => PlaceLosesNothing(cfg, s, req);
    case CancelOrder(key) =>
    case CloseSymbol(symbol) => CloseLosesNothing(cfg, s, symbol);
    case EmergencyCloseAll(order) => EmergencyLosesNothing(cfg, s, order);
    case UpdatePrice(symbol, price, visits) => TickLosesNothing(cfg, Priced(s, symbol, price), symbol, price, visits);
    case SetSymbolPrice(symbol, price) =>
    case SetProtectiveOrders(symbol, sl, tp) =>
    case ResetDailyLoss => TallyAppend(s.journal, DayReset);
    case SetHalted =>
  }

  /** No limit fill of the operation lands on a position. Nothing else is asked of it. */
  ghost predicate OverwriteFree(cfg: ValidConfig, s: BrokerState, op: Op) {
    op.ProcessCandle? ==>
      FillsLandFree(cfg, Priced(s, op.candle.symbol, op.candle.close), op.candle, op.passes.limits)
  }

  lemma LedgeredIsKeyed(cfg: ValidConfig, s: BrokerState)
    requires Ledgered(cfg, s)
    ensures Keyed(s.book.positions)
  {
  }

  lemma StepLosesNothing(cfg: ValidConfig, s: BrokerState, op: Op)
    requires NothingLost(s) && Keyed(s.book.positions) && OverwriteFree(cfg, s, op)
    ensures NothingLost(Step(cfg, s, op))
  {
    if op.ProcessCandle? {
      AtCandleLosesNothing(cfg, s, op.candle, op.passes);
    } else {
      UpdateLosesNothing(cfg, s, op);
    }
  }

  ghost predicate OverwriteFreeRun(cfg: ValidConfig, s: BrokerState, ops: seq<Op>)
    decreases |ops|
  {
    ops == [] || (OverwriteFree(cfg, s, ops[0]) && OverwriteFreeRun(cfg, Step(cfg, s, ops[0]), ops[1..]))
  }

  lemma {:induction false} RunLosesNothing(cfg: ValidConfig, s: BrokerState, ops: seq<Op>)
    requires NothingLost(s) && Ledgered(cfg, s) && OverwriteFreeRun(cfg, s, ops)
    ensures NothingLost(Run(cfg, s, ops))
    decreases |ops|
  {
    if ops != [] {
      LedgeredIsKeyed(cfg, s);
      StepLosesNothing(cfg, s, ops[0]);
      StepLedgered(cfg, s, ops[0]);
      RunLosesNothing(cfg, Step(cfg, s, ops[0]), ops[1..]);
    }
  }

  /**
   In every reachable state the margin in use is that of the open positions exactly when nothing overwritten is on the
   books, as on every run whose limit fills all land on free symbols, protected or not.
   */
  lemma MarginIsConserved(cfg: ValidConfig, ops: seq<Op>)
    ensures var s := Run(cfg, Fresh(cfg), ops);
            s.wallet.usedMargin == Folds.SumBy(s.book.positions, MarginOf()) <==> Tally(s.journal).overwritten == 0.0
    ensures OverwriteFreeRun(cfg, Fresh(cfg), ops) ==> Tally(Run(cfg, Fresh(cfg), ops).journal).overwritten == 0.0
  {
    EveryRunBalances(cfg, ops);
    if OverwriteFreeRun(cfg, Fresh(cfg), ops) {
      RunLosesNothing(cfg, Fresh(cfg), ops);
    }
  }

  lemma {:induction false} EmergencyRecordsOnlyExits(cfg: ValidConfig, s: BrokerState, order: seq<string>)
    ensures Tally(EmergencyClose(cfg, s, order).journal).overwritten == Tally(s.journal).overwritten
  {
    var lost := Tally(s.journal).overwritten;
    var inv := (t: BrokerState) => Tally(t.journal).overwritten == lost;
    forall t, symbol | inv(t) && StillOpen()(t, symbol)
      ensures inv(EmergencyActing(cfg)(t, symbol))
    {
      var pos := t.book.positions[symbol];
      var price := EmergencyPrice(t.prices, symbol, pos);
      TallyAppend(t.journal, Exited(ExitGross(cfg, pos, price), ExitFee(cfg, pos, price), pos.realizedPnL));
    }
    Folds.SweepInvariant(s.(book := s.book.(orders := map[])), order, StillOpen(), EmergencyActing(cfg), inv);
  }

  /**
   After any run whatsoever, an emergency close brings the margin in use down to what limit fills have overwritten.
   */
  lemma EmergencyFreesMargin(cfg: ValidConfig, ops: seq<Op>, order: seq<string>)
    requires Folds.Covers(order, Run(cfg, Fresh(cfg), ops).book.positions.Keys)
    ensures var s := Run(cfg, Fresh(cfg), ops);
            var used := EmergencyClose(cfg, s, order).wallet.usedMargin;
            used == Tally(s.journal).overwritten && (used == 0.0 <==> Tally(s.journal).overwritten == 0.0)
  {
    var s := Run(cfg, Fresh(cfg), ops);
    RunLedgered(cfg, Fresh(cfg), ops);
    LedgeredIsKeyed(cfg, s);
    EmergencyFlattens(cfg, s, order);
    EmergencyLedgered(cfg, s, order);
    EmergencyRecordsOnlyExits(cfg, s, order);
  }

  // ---------------------------------------------------------------- the kill switch

  /** Halted, flat, and nothing pending that could open a position. */
  ghost predicate Dead(s: BrokerState) {
    s.halted && s.book.positions == map[] && forall k :: k in s.book.orders ==> s.book.orders[k].orderType != Limit
  }

  /** The money a dead broker must not touch: everything but the daily counter. */
  predicate SameFunds(w: Wallet, v: Wallet) {
    v == w.(dailyLoss := v.dailyLoss)
  }

  /** A request that gets an entry past the halt: not recognised as a new entry, and accepted. */
  predicate Reopens(cfg: ValidConfig, s: BrokerState, req: OrderRequest) {
    !EarlyRefusal(s, req) &&
    match req.orderType
    case Market => MarketFills(cfg, s, req) &&
        !(req.stopLoss > 0.0 && !StopOnLosingSide(SideOf(req.side), EntryFill(cfg, req.side, s.prices[req.symbol]),
        req.stopLoss))
    case Limit => req.price.Some? && req.price.value > 0.0
    case _ => false
  }

  lemma FlatOpening(cfg: ValidConfig, s: BrokerState, pos: Position, fee: real, slip: real, sl: real, tp: real)
    requires Dead(s)
    ensures Dead(OpenAt(cfg, s, pos, fee, slip, sl, tp)) <==> StopInvalid(pos, sl)
  {
  }

  /** Exactly the requests that slip past the halt bring a dead broker back to life. */
  lemma PlaceOnDead(cfg: ValidConfig, s: BrokerState, req: OrderRequest)
    requires Dead(s)
    ensures Dead(Place(cfg, s, req).0) <==> !Reopens(cfg, s, req)
  {
    if !EarlyRefusal(s, req) {
      if req.orderType == Market {
        if MarketFills(cfg, s, req) {
          var t, fill := TakeNumber(s), EntryFill(cfg, req.side, s.prices[req.symbol]);
          FlatOpening(cfg, t, NewPosition(cfg, t, req.symbol, req.side, req.qty, fill, MarginFor(cfg, fill, req.qty)),
              TakerFee(cfg, req, fill),
                      Times(Bps(s.prices[req.symbol], cfg.slippageBps), req.qty), req.stopLoss, req.takeProfit);
        }
      } else {
        var o := NewOrder(s.book.nextOrderID, req);
        assert s.book.orders[o.key := o][o.key] == o;
      }
    }
  }

  /** A well-formed entry request: the halt recognises it. */
  predicate WellFormed(op: Op) {
    op.PlaceOrder? && IsEntry(op.req) ==> HaltBlocks(op.req)
  }

  lemma DropKeepsDead(s: BrokerState, k: OrderKey)
    requires Dead(s)
    ensures Dead(DropOrder(s, k))
  {
  }

  lemma TriggerOnDead(cfg: ValidConfig, s: BrokerState, k: OrderKey, price: real)
    requires Dead(s) && k in s.book.orders
    ensures Dead(Trigger(cfg, s, k, price)) && Trigger(cfg, s, k, price).wallet == s.wallet
  {
  }

  lemma CandlePassOnDead(cfg: ValidConfig, s: BrokerState, c: Candle, orderType: OrderType, sched: seq<OrderKey>)
    requires Dead(s)
    ensures var t := CandlePass(cfg, s, c, orderType, sched).s; Dead(t) && t.wallet == s.wallet
  {
    var w := s.wallet;
    var inv := (p: PassState) => Dead(p.s) && p.s.wallet == w;
    forall p, k | inv(p) && CandleFiring(c, orderType)(p, k)
      ensures inv(CandleActing(cfg)(p, k))
    {
      TriggerOnDead(cfg, p.s, k, p.s.book.orders[k].stopPrice.value);
    }
    Folds.SweepInvariant(PassState(s, false), sched, CandleFiring(c, orderType), CandleActing(cfg), inv);
  }

  lemma AtCandleOnDead(cfg: ValidConfig, s: BrokerState, c: Candle, sched: CandleSchedule)
    requires Dead(s)
    ensures var t := AtCandle(cfg, s, c, sched); Dead(t) && t.wallet == s.wallet
  {
    var s0 := Priced(s, c.symbol, c.close);
    assert Folds.Quiet(s0, LimitFiring(c));
    Folds.SweepQuiet(s0, sched.limits, LimitFiring(c), LimitActing(cfg));
    CandlePassOnDead(cfg, s0, c, StopMarket, sched.stops);
    var p := CandlePass(cfg, s0, c, StopMarket, sched.stops);
    CandlePassOnDead(cfg, p.s, c, TakeProfitMarket, sched.targets);
  }

  lemma PlaceOnDeadMovesNothing(cfg: ValidConfig, s: BrokerState, req: OrderRequest)
    requires Dead(s) && (IsEntry(req) ==> HaltBlocks(req))
    ensures var t := Place(cfg, s, req).0; Dead(t) && t.wallet == s.wallet
  {
  }

  lemma StepOnDead(cfg: ValidConfig, s: BrokerState, op: Op)
    requires Dead(s) && WellFormed(op)
    ensures var t := Step(cfg, s, op); Dead(t) && SameFunds(s.wallet, t.wallet)
  {
    match op
    case PlaceOrder(req) => PlaceOnDeadMovesNothing(cfg, s, req);
    case CancelOrder(key) => DropKeepsDead(s, key);
    case CloseSymbol(symbol) =>
    case EmergencyCloseAll(order) =>
      var t := s.(book := s.book.(orders := map[]));
      assert Folds.Quiet(t, StillOpen());
      Folds.SweepQuiet(t, order, StillOpen(), EmergencyActing(cfg));
    case UpdatePrice(symbol, price, visits) =>
      var t := Priced(s, symbol, price);
      assert Folds.Quiet(t, TickFiring(symbol, price));
      Folds.SweepQuiet(t, visits, TickFiring(symbol, price), TickActing(cfg, price));
    case SetSymbolPrice(symbol, price) =>
    case ProcessCandle(c, passes) => AtCandleOnDead(cfg, s, c, passes);
    case SetProtectiveOrders(symbol, sl, tp) =>
    case ResetDailyLoss =>
    case SetHalted =>
  }

  /** Once dead, no run of well-formed operations opens a position or moves balance, realized profit, fees or margin. */
  lemma {:induction false} DeadStaysDead(cfg: ValidConfig, s: BrokerState, ops: seq<Op>)
    requires Dead(s) && forall i :: 0 <= i < |ops| ==> WellFormed(ops[i])
    ensures var t := Run(cfg, s, ops); Dead(t) && SameFunds(s.wallet, t.wallet)
    decreases |ops|
  {
    if ops != [] {
      StepOnDead(cfg, s, ops[0]);
      DeadStaysDead(cfg, Step(cfg, s, ops[0]), ops[1..]);
    }
  }

  /**
   Halting and closing everything is the kill switch; nothing well-formed undoes it. Every reachable state is keyed.
   */
  lemma KillSwitchAbsorbs(cfg: ValidConfig, s: BrokerState, order: seq<string>, ops: seq<Op>)
    requires Keyed(s.book.positions) && Folds.Covers(order, s.book.positions.Keys)
    requires forall i :: 0 <= i < |ops| ==> WellFormed(ops[i])
    ensures var killed := EmergencyClose(cfg, s.(halted := true), order);
            var t := Run(cfg, killed, ops);
            killed.book.positions == map[] && killed.book.orders == map[] &&
            t.book.positions == map[] && t.halted && SameFunds(killed.wallet, t.wallet)
  {
    EmergencyFlattens(cfg, s.(halted := true), order);
    DeadStaysDead(cfg, EmergencyClose(cfg, s.(halted := true), order), ops);
  }

  /**
   From a fresh broker: after any run, halting and closing everything leaves no position and no order, and a margin in
   use equal to what was overwritten; no later run of well-formed operations changes any of that, nor the funds.
   */
  lemma KillSwitchAfterAnyRun(cfg: ValidConfig, before: seq<Op>, order: seq<string>, after: seq<Op>)
    requires Folds.Covers(order, Run(cfg, Fresh(cfg), before).book.positions.Keys)
    requires forall i :: 0 <= i < |after| ==> WellFormed(after[i])
    ensures var s := Run(cfg, Fresh(cfg), before);
            var killed := EmergencyClose(cfg, s.(halted := true), order);
            var t := Run(cfg, killed, after);
            && killed.book.positions == map[] && killed.book.orders == map[]
            && t.book.positions == map[] && t.halted && SameFunds(killed.wallet, t.wallet)
            && t.wallet.usedMargin == Tally(s.journal).overwritten
  {
    var s := Run(cfg, Fresh(cfg), before);
    RunLedgered(cfg, Fresh(cfg), before);
    LedgeredIsKeyed(cfg, s);
    KillSwitchAbsorbs(cfg, s, order, after);
    EmergencyFreesMargin(cfg, before, order);
    EmergencyFlattens(cfg, s, order);
    EmergencyFlattens(cfg, s.(halted := true), order);
  }
}
