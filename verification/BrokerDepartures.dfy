/** Concrete states, reached from a fresh broker, in which it departs from what it promises. */
module BrokerDepartures {
  import opened Domain
  import opened BrokerModel
  import opened BrokerProtection
  import opened BrokerRuns
  import opened BrokerLoops
  import opened BrokerCandles
  import opened CandleExits
  import opened BrokerMoney
  import opened BrokerSafety
  import opened BrokerTrades
  import Folds

  /** No costs, no leverage. */
  predicate Plain(cfg: ValidConfig) {
    cfg == PaperConfig(1000.0, 0.0, 0.0, 0.0, 1.0)
  }

  lemma PlainFill(cfg: ValidConfig, s: BrokerState, req: OrderRequest)
    requires Plain(cfg) && s.wallet.balance == 1000.0 && s.wallet.usedMargin == 0.0 && "BTC" in s.prices &&
               s.prices["BTC"] == 10.0
    requires req.symbol == "BTC" && req.side == Buy && req.qty == 1.0 && (req.stopLoss == 9.0 || req.reduceOnly)
    ensures EntryFill(cfg, Buy, 10.0) == 10.0 && MarketFills(cfg, s, req)
  {
  }

  lemma RunOfTwo(cfg: ValidConfig, s: BrokerState, a: Op, b: Op)
    ensures Run(cfg, s, [a, b]) == Step(cfg, Step(cfg, s, a), b)
  {
    assert [a, b][1..] == [b] && [b][1..] == [];
    assert Run(cfg, Step(cfg, s, a), [b]) == Step(cfg, Step(cfg, s, a), b);
  }

  lemma RunOfThree(cfg: ValidConfig, s: BrokerState, a: Op, b: Op, c: Op)
    ensures Run(cfg, s, [a, b, c]) == Step(cfg, Step(cfg, Step(cfg, s, a), b), c)
  {
    assert [a, b, c][1..] == [b, c] && [b, c][1..] == [c] && [c][1..] == [];
    assert Run(cfg, Step(cfg, s, a), [b, c]) == Run(cfg, Step(cfg, Step(cfg, s, a), b), [c]);
  }

  lemma HaltedQuote(cfg: ValidConfig, s: BrokerState, symbol: string, price: real)
    ensures Run(cfg, s, [SetSymbolPrice(symbol, price), SetHalted]) == Priced(s, symbol, price).(halted := true)
  {
    RunOfTwo(cfg, s, SetSymbolPrice(symbol, price), SetHalted);
  }

  /**
   From a fresh broker, quoted and halted: a reduce-only MARKET request gets past the halt, and the position it opens
   has no stop.
   */
  lemma HaltIsNotAbsolute(cfg: ValidConfig, price: real) returns (s: BrokerState, req: OrderRequest)
    requires Plain(cfg) && price == 10.0
    ensures s == Run(cfg, Fresh(cfg), [SetSymbolPrice("BTC", price), SetHalted])
    ensures req == OrderRequest("BTC", Buy, Market, 1.0, None, None, true, 0.0, 0.0)
    ensures Dead(s) && !Dead(Place(cfg, s, req).0) && Protected(s) && !Protected(Place(cfg, s, req).0)
  {
    HaltedQuote(cfg, Fresh(cfg), "BTC", price);
    s := Priced(Fresh(cfg), "BTC", price).(halted := true);
    req := OrderRequest("BTC", Buy, Market, 1.0, None, None, true, 0.0, 0.0);
    PlainFill(cfg, s, req);
    PlaceOnDead(cfg, s, req);
    PlaceKeeps(cfg, s, req);
  }

  // ---------------------------------------------------------------- trading without costs

  /** Neither fees nor slippage. */
  predicate Costless(cfg: ValidConfig) {
    cfg.feeTakerBps == 0.0 && cfg.slippageBps == 0.0
  }

  lemma CostlessFill(cfg: ValidConfig, req: OrderRequest, price: real, margin: real)
    requires Costless(cfg) && margin * cfg.leverage == price * req.qty
    ensures EntryFill(cfg, req.side, price) == price && TakerFee(cfg, req, price) == 0.0
    ensures MarginFor(cfg, price, req.qty) == margin
  {
  }

  lemma CostlessMarketFills(cfg: ValidConfig, s: BrokerState, req: OrderRequest, price: real, margin: real)
    requires Costless(cfg) && margin * cfg.leverage == price * req.qty && price > 0.0
    requires req.symbol in s.prices && s.prices[req.symbol] == price
    requires StopOnLosingSide(SideOf(req.side), price, req.stopLoss) && s.wallet.balance - s.wallet.usedMargin >= margin
    ensures MarketFills(cfg, s, req)
  {
    CostlessFill(cfg, req, price, margin);
  }

  lemma CostlessExit(cfg: ValidConfig, q: Position, price: real)
    requires Costless(cfg) && q.side == Long
    ensures ExitNet(cfg, q, price) == (price - q.entryPrice) * q.size
  {
  }

  /** A market entry with a stop on its losing side, on a fresh broker that can pay for it. */
  predicate CostlessEntry(cfg: ValidConfig, s: BrokerState, req: OrderRequest, price: real, margin: real) {
    && Costless(cfg) && margin * cfg.leverage == price * req.qty && price > 0.0
    && req.orderType == Market && !req.reduceOnly && req.qty > 0.0 && req.symbol != ""
    && 0.0 < req.stopLoss && StopOnLosingSide(SideOf(req.side), price, req.stopLoss) && req.takeProfit == 0.0
    && s == Priced(Fresh(cfg), req.symbol, price) && cfg.startingBalance >= margin
  }

  /** The state a costless market entry leaves on a flat, fresh broker. */
  lemma CostlessPosition(cfg: ValidConfig, s: BrokerState, req: OrderRequest, price: real, margin: real, t: BrokerState)
    requires CostlessEntry(cfg, s, req, price, margin) && t == Place(cfg, s, req).0
    ensures t.wallet.balance == cfg.startingBalance && t.wallet.usedMargin == margin && t.halted == s.halted
    ensures req.symbol in t.book.positions
    ensures var q := t.book.positions[req.symbol];
            q.side == SideOf(req.side) && q.entryPrice == price && q.size == req.qty && q.margin == margin
  {
    CostlessFill(cfg, req, price, margin);
    CostlessMarketFills(cfg, s, req, price, margin);
    CleanEntryShape(cfg, s, req);
    var pos := NewPosition(cfg, s, req.symbol, req.side, req.qty, price, margin);
    StopShape(TakeNumber(s).book, pos, req.stopLoss, 0.0);
  }

  // ---------------------------------------------------------------- one position, and a limit order beside it

  /** A market order for one at the price of 10. */
  function AtTen(side: OrderSide, stop: real): OrderRequest {
    OrderRequest("BTC", side, Market, 1.0, None, None, false, stop, 0.0)
  }

  /** A limit buy of one at 9.9, its stop at 9.5. */
  function LimitBelow(target: real): OrderRequest {
    OrderRequest("BTC", Buy, Limit, 1.0, Some(9.9), None, false, 9.5, target)
  }

  /** A position of one entered at 10 with its stop. */
  ghost predicate Alone(t: BrokerState, side: Side, stop: real) {
    && Protected(t) && t.wallet.balance == 1000.0 && t.wallet.usedMargin == 10.0 && !t.halted
    && "BTC" in t.book.positions && t.book.positions["BTC"].margin == 10.0 && t.book.positions["BTC"].stopLoss == stop
    && t.book.positions["BTC"].side == side && t.book.positions["BTC"].entryPrice == 10.0
    && t.book.nextOrderID == 3 && Tally(t.journal).overwritten == 0.0
    && forall k :: k in t.book.orders ==> t.book.orders[k].orderType == StopMarket
  }

  /** The same with a limit order for one more at 9.9. */
  ghost predicate WithLimit(s: BrokerState, side: Side, stop: real, target: real) {
    && Protected(s) && s.wallet.balance == 1000.0 && s.wallet.usedMargin == 10.0
    && "BTC" in s.book.positions && s.book.positions["BTC"].margin == 10.0 && s.book.positions["BTC"].stopLoss == stop
    && s.book.positions["BTC"].side == side && s.book.positions["BTC"].entryPrice == 10.0
    && Tally(s.journal).overwritten == 0.0
    && Paper(3) in s.book.orders && s.book.orders[Paper(3)] == NewOrder(3, LimitBelow(target))
    && forall k :: k in s.book.orders && k != Paper(3) ==> s.book.orders[k].orderType == StopMarket
  }

  /** A long of one at 10 with its stop at 9, and a limit order for one more at 9.9. */
  ghost predicate LongWithLimit(s: BrokerState) {
    WithLimit(s, Long, 9.0, 0.0)
  }

  /** A short of one at 10 with its stop at 11, and a limit buy at 9.9 with its target at 10.5. */
  ghost predicate ShortWithLimit(s: BrokerState) {
    WithLimit(s, Short, 11.0, 10.5)
  }

  /** The book of a costless market entry on a flat, fresh broker. */
  lemma CostlessBook(cfg: ValidConfig, s: BrokerState, req: OrderRequest, price: real, margin: real, t: BrokerState)
    requires CostlessEntry(cfg, s, req, price, margin) && t == Place(cfg, s, req).0
    ensures req.symbol in t.book.positions && t.book.positions[req.symbol].stopLoss == req.stopLoss
    ensures t.book.nextOrderID == 3 && forall k :: k in t.book.orders ==> t.book.orders[k].orderType == StopMarket
  {
    CostlessFill(cfg, req, price, margin);
    CostlessMarketFills(cfg, s, req, price, margin);
    CleanEntryShape(cfg, s, req);
    StopShape(TakeNumber(s).book, NewPosition(cfg, s, req.symbol, req.side, req.qty, price, margin), req.stopLoss, 0.0);
  }

  lemma EnteredIsProtected(cfg: ValidConfig, s: BrokerState, req: OrderRequest)
    requires Protected(s) && NothingLost(s) && !Strays(cfg, s, req)
    ensures Protected(Place(cfg, s, req).0) && NothingLost(Place(cfg, s, req).0)
  {
    PlaceKeeps(cfg, s, req);
    PlaceLosesNothing(cfg, s, req);
  }

  lemma EnteredAtTen(cfg: ValidConfig, s: BrokerState, side: OrderSide, stop: real, t: BrokerState)
    requires Plain(cfg) && s == Priced(Fresh(cfg), "BTC", 10.0) && t == Place(cfg, s, AtTen(side, stop)).0
    requires 0.0 < stop && StopOnLosingSide(SideOf(side), 10.0, stop)
    ensures Alone(t, SideOf(side), stop)
  {
    CostlessPosition(cfg, s, AtTen(side, stop), 10.0, 10.0, t);
    CostlessBook(cfg, s, AtTen(side, stop), 10.0, 10.0, t);
    EnteredIsProtected(cfg, s, AtTen(side, stop));
  }

  lemma OnePlacement(cfg: ValidConfig, s: BrokerState, symbol: string, price: real, a: OrderRequest)
    ensures Run(cfg, s, [SetSymbolPrice(symbol, price), PlaceOrder(a)]) == Place(cfg, Priced(s, symbol, price), a).0
  {
    RunOfTwo(cfg, s, SetSymbolPrice(symbol, price), PlaceOrder(a));
  }

  /** The long is reached from a fresh broker in two operations. */
  lemma LongIsReached(cfg: ValidConfig, long: OrderRequest, price: real) returns (s: BrokerState)
    requires Plain(cfg) && long == AtTen(Buy, 9.0) && price == 10.0
    ensures s == Run(cfg, Fresh(cfg), [SetSymbolPrice("BTC", price), PlaceOrder(long)]) && Alone(s, Long, 9.0)
  {
    OnePlacement(cfg, Fresh(cfg), "BTC", price, long);
    var quoted := Priced(Fresh(cfg), "BTC", price);
    s := Place(cfg, quoted, long).0;
    EnteredAtTen(cfg, quoted, Buy, 9.0, s);
  }

  /** The long at 10 loses its stop to a replacement at 11, although the replacement is refused. */
  lemma RefusedReplacementExposes(cfg: ValidConfig, s: BrokerState, symbol: string, level: real, replacement: Op)
    requires Alone(s, Long, 9.0) && symbol == "BTC" && level == 11.0
    requires replacement == SetProtectiveOrders(symbol, level, 0.0)
    ensures Protected(s) && !Protected(Step(cfg, s, replacement))
  {
    ReplaceKeeps(s.book, symbol, level, 0.0);
  }

  lemma LimitRests(cfg: ValidConfig, t: BrokerState, target: real)
    requires Protected(t) && !t.halted && t.book.nextOrderID == 3
    ensures var u := Place(cfg, t, LimitBelow(target)).0;
            && Protected(u) && u.wallet == t.wallet && u.book.positions == t.book.positions && u.journal == t.journal
            && u.book.orders == t.book.orders[Paper(3) := NewOrder(3, LimitBelow(target))]
  {
    PlaceKeeps(cfg, t, LimitBelow(target));
  }

  lemma LimitJoins(cfg: ValidConfig, t: BrokerState, side: Side, stop: real, target: real)
    requires Alone(t, side, stop)
    ensures WithLimit(Place(cfg, t, LimitBelow(target)).0, side, stop, target)
  {
    LimitRests(cfg, t, target);
  }

  lemma TwoPlacements(cfg: ValidConfig, s: BrokerState, symbol: string, price: real, a: OrderRequest, b: OrderRequest)
    ensures Run(cfg, s, [SetSymbolPrice(symbol, price), PlaceOrder(a), PlaceOrder(b)])
         == Place(cfg, Place(cfg, Priced(s, symbol, price), a).0, b).0
  {
    RunOfThree(cfg, s, SetSymbolPrice(symbol, price), PlaceOrder(a), PlaceOrder(b));
  }

  /** A position and a limit order beside it are reached from a fresh broker in three operations. */
  lemma WithLimitIsReached(
    cfg: ValidConfig, side: OrderSide, stop: real, target: real, price: real) returns (s: BrokerState)
    requires Plain(cfg) && price == 10.0 && 0.0 < stop && StopOnLosingSide(SideOf(side), price, stop)
    ensures s == Run(cfg, Fresh(cfg), [SetSymbolPrice("BTC", price), PlaceOrder(AtTen(side, stop)),
                                       PlaceOrder(LimitBelow(target))])
    ensures WithLimit(s, SideOf(side), stop, target)
  {
    TwoPlacements(cfg, Fresh(cfg), "BTC", price, AtTen(side, stop), LimitBelow(target));
    var quoted := Priced(Fresh(cfg), "BTC", price);
    var entered := Place(cfg, quoted, AtTen(side, stop)).0;
    EnteredAtTen(cfg, quoted, side, stop, entered);
    LimitJoins(cfg, entered, SideOf(side), stop, target);
    s := Place(cfg, entered, LimitBelow(target)).0;
  }

  // ---------------------------------------------------------------- a candle that strands a stop

  /** A candle that reaches the limit order at 9.9 but not the stop at 9. */
  predicate Dips(c: Candle) {
    c.symbol == "BTC" && 9.5 < c.low <= 9.9 && 9.9 < c.close
  }

  /** Reached, the limit order fills on the position, whichever side that is on. */
  lemma LimitFillsOver(cfg: ValidConfig, s: BrokerState, side: Side, stop: real, target: real, c: Candle)
    requires Plain(cfg) && WithLimit(s, side, stop, target) && c.symbol == "BTC" && c.low <= 9.9
    ensures FillsOver(cfg, Priced(s, c.symbol, c.close), c, Paper(3))
  {
    assert MarginFor(cfg, 9.9, 1.0) == 9.9;
  }

  lemma DipFillsOver(cfg: ValidConfig, s: BrokerState, c: Candle)
    requires Plain(cfg) && LongWithLimit(s) && Dips(c)
    ensures FillsOver(cfg, Priced(s, c.symbol, c.close), c, Paper(3))
    ensures !Crosses(c, s.book.positions[c.symbol].stopLoss)
  {
    LimitFillsOver(cfg, s, Long, 9.0, 0.0, c);
  }

  lemma MarginInUse(s: BrokerState, symbol: string, side: Side, stop: real, target: real)
    requires WithLimit(s, side, stop, target) && symbol == "BTC"
    ensures symbol in s.book.positions && Tally(s.journal).overwritten + s.book.positions[symbol].margin == 10.0
  {
  }

  lemma CandleOverwrites(cfg: ValidConfig, s: BrokerState, c: Candle, passes: CandleSchedule, k: OrderKey)
    requires FillsOver(cfg, Priced(s, c.symbol, c.close), c, k) && CandleCovered(cfg, s, c, passes)
    ensures Tally(AtCandle(cfg, s, c, passes).journal).overwritten
         == Tally(s.journal).overwritten + s.book.positions[c.symbol].margin
  {
    var s0 := Priced(s, c.symbol, c.close);
    LimitPassOutcome(cfg, s0, c, passes.limits);
    assert k in passes.limits;
    OverwriteLosesMargin(cfg, s0, s0.book.orders[k]);
    var s1 := LimitPass(cfg, s0, c, passes.limits);
    CandlePassOverwritesNothing(cfg, s1, c, StopMarket, passes.stops);
    var p := CandlePass(cfg, s1, c, StopMarket, passes.stops);
    CandlePassOverwritesNothing(cfg, p.s, c, TakeProfitMarket, passes.targets);
  }

  lemma OverlayStrands(cfg: ValidConfig, s: BrokerState, c: Candle, passes: CandleSchedule, k: OrderKey)
    requires FillsOver(cfg, Priced(s, c.symbol, c.close), c, k) && CandleCovered(cfg, s, c, passes)
    requires !Crosses(c, s.book.positions[c.symbol].stopLoss)
    ensures !Protected(AtCandle(cfg, s, c, passes))
    ensures Tally(AtCandle(cfg, s, c, passes).journal).overwritten
         == Tally(s.journal).overwritten + s.book.positions[c.symbol].margin
  {
    AtCandleKeeps(cfg, s, c, passes);
    CandleOverwrites(cfg, s, c, passes, k);
  }

  /**
   From a fresh broker: whatever order the candle's loops take, the limit fill lands on the long, leaves its stop behind
   without a position, and its margin of 10 is in use for good.
   */
  lemma CandleStrandsStop(cfg: ValidConfig, s: BrokerState, c: Candle, passes: CandleSchedule)
    requires Plain(cfg) && LongWithLimit(s) && Dips(c) && CandleCovered(cfg, s, c, passes)
    ensures !Protected(AtCandle(cfg, s, c, passes))
    ensures Tally(AtCandle(cfg, s, c, passes).journal).overwritten
         == Tally(s.journal).overwritten + s.book.positions[c.symbol].margin == 10.0
  {
    DipFillsOver(cfg, s, c);
    OverlayStrands(cfg, s, c, passes, Paper(3));
    MarginInUse(s, c.symbol, Long, 9.0, 0.0);
  }

  lemma CandlePassOverwritesNothing(
    cfg: ValidConfig, s: BrokerState, c: Candle, orderType: OrderType, sched: seq<OrderKey>)
    ensures Tally(CandlePass(cfg, s, c, orderType, sched).s.journal).overwritten == Tally(s.journal).overwritten
  {
    var lost := Tally(s.journal).overwritten;
    var inv := (p: PassState) => Tally(p.s.journal).overwritten == lost;
    forall p, k | inv(p) && CandleFiring(c, orderType)(p, k)
      ensures inv(CandleActing(cfg)(p, k))
    {
      TriggerOverwritesNothing(cfg, p.s, k, p.s.book.orders[k].stopPrice.value);
    }
    Folds.SweepInvariant(PassState(s, false), sched, CandleFiring(c, orderType), CandleActing(cfg), inv);
  }

  lemma TriggerOverwritesNothing(cfg: ValidConfig, s: BrokerState, k: OrderKey, price: real)
    requires k in s.book.orders
    ensures Tally(Trigger(cfg, s, k, price).journal).overwritten == Tally(s.journal).overwritten
  {
    var symbol := s.book.orders[k].symbol;
    if symbol in s.book.positions {
      var pos := s.book.positions[symbol];
      TallyAppend(s.journal, Exited(ExitGross(cfg, pos, price), ExitFee(cfg, pos, price), pos.realizedPnL));
    }
  }

  // ---------------------------------------------------------------- a candle whose outcome depends on the map's order

  lemma LimitIsIn(cfg: ValidConfig, s: BrokerState, side: Side, stop: real, target: real, c: Candle)
    requires Plain(cfg) && WithLimit(s, side, stop, target) && c.symbol == "BTC" && c.low <= 9.9
    ensures var s0 := Priced(s, c.symbol, c.close);
            && FillsOver(cfg, s0, c, Paper(3)) && SingleFill(s, c)
            && AfterFills(cfg, s0, c) == LimitAct(cfg, s0, Paper(3))
  {
    LimitFillsOver(cfg, s, side, stop, target, c);
  }

  /** The new long of one at 9.9 that the fill enters, and the wallet it leaves. */
  lemma LongFilled(cfg: ValidConfig, s: BrokerState, side: Side, stop: real, target: real, c: Candle, t: BrokerState)
    requires Plain(cfg) && WithLimit(s, side, stop, target) && c.symbol == "BTC" && c.low <= 9.9
    requires t == AfterFills(cfg, Priced(s, c.symbol, c.close), c)
    ensures Placed(t, c.symbol) && t.wallet.balance == 1000.0 && t.wallet.realizedPnL == s.wallet.realizedPnL
    ensures var q := t.book.positions[c.symbol];
            q.side == Long && q.entryPrice == 9.9 && q.size == 1.0 && q.stopLoss == 9.5 && q.takeProfit == target
  {
    LimitIsIn(cfg, s, side, stop, target, c);
    StopsAfterFill(cfg, Priced(s, c.symbol, c.close), c, Paper(3));
    FillOverShape(cfg, Priced(s, c.symbol, c.close), c, Paper(3));
  }

  /** Either stop that is crossed once the limit order is in can decide the exit, each order coming up once. */
  lemma MayExitAt(cfg: ValidConfig, s: BrokerState, side: Side, stop: real, target: real, c: Candle, level: real)
    returns (sched: CandleSchedule)
    requires Plain(cfg) && WithLimit(s, side, stop, target) && c.symbol == "BTC" && c.low <= 9.9
    requires Crosses(c, level) && (level == stop || level == 9.5)
    ensures CandleCovered(cfg, s, c, sched) && EachOnce(sched)
    ensures AtCandle(cfg, s, c, sched).wallet.balance == 1000.0 + (level - 9.9)
    ensures AtCandle(cfg, s, c, sched).wallet.realizedPnL == s.wallet.realizedPnL + (level - 9.9)
  {
    var t := AfterFills(cfg, Priced(s, c.symbol, c.close), c);
    LimitIsIn(cfg, s, side, stop, target, c);
    LongFilled(cfg, s, side, stop, target, c, t);
    var k := StopAt(cfg, Priced(s, c.symbol, c.close), c, Paper(3), level);
    var after := FirstDecides(cfg, t, c, StopMarket, k);
    sched := Covering(cfg, s, c, after);
    CostlessExit(cfg, t.book.positions[c.symbol], level);
  }

  lemma StopAt(cfg: ValidConfig, s: BrokerState, c: Candle, k: OrderKey, level: real) returns (j: OrderKey)
    requires FillsOver(cfg, s, c, k) && Crosses(c, level)
    requires level == s.book.positions[c.symbol].stopLoss || level == s.book.orders[k].intendedSL
    ensures CandleFires(c, StopMarket, LimitAct(cfg, s, k), j) && Level(LimitAct(cfg, s, k), j) == level
  {
    StopsAfterFill(cfg, s, c, k);
    j :| CandleFires(c, StopMarket, LimitAct(cfg, s, k), j) && Level(LimitAct(cfg, s, k), j) == level;
  }

  /** A candle that spans the limit order at 9.9, its stop at 9.5 and the old stop at 9. */
  predicate Plunges(c: Candle) {
    c.symbol == "BTC" && c.low <= 9.0 && 9.9 <= c.high
  }

  /** From a fresh broker: which of the two crossed stops comes up first decides what the candle loses. */
  lemma CandleDependsOnOrder(cfg: ValidConfig, s: BrokerState, c: Candle)
    returns (one: CandleSchedule, two: CandleSchedule)
    requires Plain(cfg) && LongWithLimit(s) && Plunges(c)
    ensures CandleCovered(cfg, s, c, one) && EachOnce(one) && CandleCovered(cfg, s, c, two) && EachOnce(two)
    ensures AtCandle(cfg, s, c, one).wallet.balance == s.wallet.balance - 0.9
    ensures AtCandle(cfg, s, c, two).wallet.balance == s.wallet.balance - 0.4
  {
    one := MayExitAt(cfg, s, Long, 9.0, 0.0, c, 9.0);
    two := MayExitAt(cfg, s, Long, 9.0, 0.0, c, 9.5);
  }

  /** A candle that spans the new long's stop at 9.5 and the short's at 11. */
  predicate Spans(c: Candle) {
    c.symbol == "BTC" && c.low <= 9.5 && 11.0 <= c.high
  }

  /** From a fresh broker: the short's stop closes the new long beyond its target, although its own stop is crossed. */
  lemma StopBeatsTarget(cfg: ValidConfig, s: BrokerState, c: Candle) returns (sched: CandleSchedule)
    requires Plain(cfg) && ShortWithLimit(s) && Spans(c)
    ensures CandleCovered(cfg, s, c, sched) && EachOnce(sched)
    ensures var t := AfterFills(cfg, Priced(s, c.symbol, c.close), c);
            && c.symbol in t.book.positions && Crosses(c, t.book.positions[c.symbol].stopLoss)
            && Realized(t, AtCandle(cfg, s, c, sched))
               > ExitNet(cfg, t.book.positions[c.symbol], t.book.positions[c.symbol].takeProfit)
  {
    var t := AfterFills(cfg, Priced(s, c.symbol, c.close), c);
    LongFilled(cfg, s, Short, 11.0, 10.5, c, t);
    sched := MayExitAt(cfg, s, Short, 11.0, 10.5, c, 11.0);
    CostlessExit(cfg, t.book.positions[c.symbol], 10.5);
  }

  // ---------------------------------------------------------------- a reversal that overdraws

  /** A long of 100 at 50, ten times leveraged, and a short of 1 at 30. */
  predicate DeepReversal(cfg: ValidConfig, long: OrderRequest, short: OrderRequest, entry: real, exit: real) {
    && Costless(cfg) && cfg.startingBalance == 1000.0 && cfg.leverage == 10.0 && entry == 50.0 && exit == 30.0
    && long == OrderRequest(short.symbol, Buy, Market, 100.0, None, None, false, 1.0, 0.0) && short.symbol != ""
    && short == OrderRequest(short.symbol, Sell, Market, 1.0, None, None, false, 40.0, 0.0)
  }

  /** From a fresh broker: at 30 the reversal of the long of 100 at 50 passes its check, and overdraws. */
  lemma ReversalOverdraws(
    cfg: ValidConfig, long: OrderRequest, short: OrderRequest, entry: real, exit: real) returns (t: BrokerState)
    requires DeepReversal(cfg, long, short, entry, exit)
    ensures t == Run(cfg, Fresh(cfg),
                     [SetSymbolPrice(short.symbol, entry), PlaceOrder(long), SetSymbolPrice(short.symbol, exit)])
    ensures Available(t.wallet) == 500.0 && !EarlyRefusal(t, short) && MarketFills(cfg, t, short)
    ensures Available(Place(cfg, t, short).0.wallet) < 0.0
  {
    RunOfThree(cfg, Fresh(cfg), SetSymbolPrice(short.symbol, entry), PlaceOrder(long),
        SetSymbolPrice(short.symbol, exit));
    var quoted := Priced(Fresh(cfg), short.symbol, entry);
    var entered := Place(cfg, quoted, long).0;
    CostlessPosition(cfg, quoted, long, entry, 500.0, entered);
    t := Priced(entered, short.symbol, exit);
    CostlessFill(cfg, short, exit, 3.0);
    CostlessMarketFills(cfg, t, short, exit, 3.0);
    CostlessExit(cfg, t.book.positions[short.symbol], exit);
    ReversalCollateral(cfg, t, short);
  }
}
