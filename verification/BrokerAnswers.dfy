/**
 What the broker's calls come to, in prices, sizes, levels and basis points: when a tick, a candle or a close ends a
 position and what that pays, and which requests are taken and what they open.
 */
module BrokerAnswers {
  import opened Numbers
  import opened Domain
  import opened BrokerModel
  import opened BrokerProtection
  import opened BrokerRuns
  import opened BrokerLoops
  import opened BrokerMoney
  import opened BrokerCandles
  import opened BrokerSafety
  import Folds

  // ---------------------------------------------------------------- what an exit pays

  /** A price moved against the one who buys or sells at it. */
  function Slipped(cfg: ValidConfig, selling: bool, price: real): real {
    if selling then price * (1.0 - cfg.slippageBps / 10000.0) else price * (1.0 + cfg.slippageBps / 10000.0)
  }

  /** The fee on an amount traded. */
  function FeeOn(amount: real, bps: real): real {
    amount * (bps / 10000.0)
  }

  /** What is bought or sold for at the slipped price. */
  function Worth(price: real, size: real): real {
    price * size
  }

  /** What closing a position at this quote earns: one side's proceeds less the other side's, and the fee. */
  function Earned(cfg: ValidConfig, p: Position, quote: real): real {
    var out, fee := Worth(Slipped(cfg, p.side == Long, quote), p.size),
                    FeeOn(Worth(Slipped(cfg, p.side == Long, quote), p.size), cfg.feeTakerBps);
    if p.side == Long then out - Worth(p.entryPrice, p.size) - fee else Worth(p.entryPrice, p.size) - out - fee
  }

  lemma EarnedIsNet(cfg: ValidConfig, p: Position, quote: real)
    ensures ExitNet(cfg, p, quote) == Earned(cfg, p, quote)
    ensures ExitFee(cfg, p, quote) == FeeOn(Worth(Slipped(cfg, p.side == Long, quote), p.size), cfg.feeTakerBps)
    ensures Bps(quote, cfg.slippageBps) == FeeOn(quote, cfg.slippageBps)
  {
    var exit := ExitFill(cfg, p.side, quote);
    assert exit == Slipped(cfg, p.side == Long, quote) by {
      assert Bps(quote, cfg.slippageBps) == quote * (cfg.slippageBps / 10000.0);
    }
    assert Gross(p.side, p.entryPrice, exit, p.size)
        == if p.side == Long then exit * p.size - p.entryPrice * p.size else p.entryPrice * p.size - exit * p.size;
    assert Bps(exit * p.size, cfg.feeTakerBps) == FeeOn(exit * p.size, cfg.feeTakerBps);
  }

  /** An order that the position is linked to. */
  predicate LinkedTo(o: Order, p: Position) {
    o.symbol == p.symbol && (Some(o.id) == p.slOrderID || Some(o.id) == p.tpOrderID)
  }

  /** The orders the position is linked to are gone, no stop or target of its symbol is left, and nothing else moved. */
  ghost predicate OrdersGone(before: Orders, after: Orders, p: Position) {
    && (forall k :: k in after <==> k in before && !LinkedTo(before[k], p))
    && (forall k :: k in after ==>
          after[k] == before[k] &&
          (after[k].symbol == p.symbol ==>
             after[k].orderType != StopMarket && after[k].orderType != TakeProfitMarket))
  }

  /** The exit of a position at this quote is booked, and its margin is free again. */
  predicate Booked(cfg: ValidConfig, before: Wallet, after: Wallet, p: Position, quote: real) {
    var earned := Earned(cfg, p, quote);
    && after.balance == before.balance + earned && after.realizedPnL == before.realizedPnL + earned
    && after.usedMargin == before.usedMargin - p.margin
    && after.dailyLoss == before.dailyLoss + (if earned < 0.0 then -earned else 0.0)
    && after.totalFees
       == before.totalFees + FeeOn(Worth(Slipped(cfg, p.side == Long, quote), p.size), cfg.feeTakerBps)
    && after.totalSlippage == before.totalSlippage + Worth(FeeOn(quote, cfg.slippageBps), p.size)
  }

  /** The symbol's position is closed at this quote: it and its orders are gone, and the profit is booked. */
  ghost predicate ClosedAt(cfg: ValidConfig, s: BrokerState, t: BrokerState, symbol: string, quote: real)
    requires symbol in s.book.positions
  {
    var p := s.book.positions[symbol];
    && t.book.positions == s.book.positions - {symbol} && OrdersGone(s.book.orders, t.book.orders, p)
    && Booked(cfg, s.wallet, t.wallet, p, quote)
    && t.closed == s.closed + [p.(realizedPnL := Earned(cfg, p, quote), open := false)]
    && t.prices == s.prices && t.halted == s.halted && t.nextPositionID == s.nextPositionID
    && t.nextExecID == s.nextExecID + 1
  }

  lemma ClosedIsBooked(cfg: ValidConfig, s: BrokerState, p: Position, quote: real, synthetic: bool)
    ensures var t := CloseOut(cfg, s, p, quote, synthetic);
            Booked(cfg, s.wallet, t.wallet, p, quote) &&
            t.closed == s.closed + [p.(realizedPnL := Earned(cfg, p, quote), open := false)]
  {
    EarnedIsNet(cfg, p, quote);
  }

  lemma CancelledAreGone(b: Book, symbol: string)
    requires SoundBook(b) && symbol in b.positions
    ensures var p := b.positions[symbol]; OrdersGone(b.orders, CancelSiblings(b.orders, p), p)
  {
    var p := b.positions[symbol];
    assert Guarded(b.positions, b.orders, symbol);
    CloseSound(b.positions, b.orders, b.nextOrderID, symbol);
    assert forall k :: k in b.orders ==> (Protects(b.orders[k], p) <==> LinkedTo(b.orders[k], p));
  }

  lemma ClosesOut(cfg: ValidConfig, s: BrokerState, symbol: string, quote: real, synthetic: bool)
    requires Protected(s) && symbol in s.book.positions
    ensures var t := CloseOut(cfg, s, s.book.positions[symbol], quote, synthetic);
            ClosedAt(cfg, s, t, symbol, quote) && t.book.nextOrderID == s.book.nextOrderID + if synthetic then 1 else 0
  {
    assert Guarded(s.book.positions, s.book.orders, symbol);
    ClosedIsBooked(cfg, s, s.book.positions[symbol], quote, synthetic);
    CancelledAreGone(s.book, symbol);
  }

  // ---------------------------------------------------------------- ticks and candles

  /** A pending target of the symbol. */
  predicate TargetOf(s: BrokerState, symbol: string, k: OrderKey) {
    k in s.book.orders && s.book.orders[k].symbol == symbol && s.book.orders[k].orderType == TakeProfitMarket &&
    s.book.orders[k].stopPrice.Some?
  }

  /** The price is at or beyond the position's stop, or at or beyond a pending target. */
  ghost predicate TickReaches(s: BrokerState, symbol: string, price: real)
    requires symbol in s.book.positions
  {
    var p := s.book.positions[symbol];
    if p.side == Long then
      price <= p.stopLoss || exists k :: TargetOf(s, symbol, k) && s.book.orders[k].stopPrice.value <= price
    else
      p.stopLoss <= price || exists k :: TargetOf(s, symbol, k) && price <= s.book.orders[k].stopPrice.value
  }

  lemma TickFiresExactly(s: BrokerState, symbol: string, price: real)
    requires Protected(s)
    ensures (exists k :: TickFires(symbol, price, s, k)) <==>
            symbol in s.book.positions && TickReaches(s, symbol, price)
  {
    if symbol in s.book.positions {
      var stop := TheStop(s.book, symbol);
      if TickReaches(s, symbol, price) {
        if k :| TargetOf(s, symbol, k) &&
                if s.book.positions[symbol].side == Long then s.book.orders[k].stopPrice.value <= price
                else price <= s.book.orders[k].stopPrice.value {
          assert TickFires(symbol, price, s, k);
        } else {
          assert TickFires(symbol, price, s, stop);
        }
      }
      if k :| TickFires(symbol, price, s, k) {
        assert k == stop || TargetOf(s, symbol, k);
      }
    }
  }

  /**
   A tick, in whatever order it goes through the orders, closes the symbol's position at its price exactly when that is
   at or beyond the stop or a pending target; otherwise only the quote changes.
   */
  lemma TickClosesExactly(cfg: ValidConfig, s: BrokerState, symbol: string, price: real, sched: seq<OrderKey>)
    requires Protected(s) && Folds.Covers(sched, s.book.orders.Keys)
    ensures var t, quoted := AtTick(cfg, s, symbol, price, sched), s.(prices := s.prices[symbol := price]);
            if symbol in s.book.positions && TickReaches(s, symbol, price) then
              ClosedAt(cfg, quoted, t, symbol, price) && t.book.nextOrderID == s.book.nextOrderID
            else t == quoted
  {
    var quoted := Priced(s, symbol, price);
    TickFiresExactly(quoted, symbol, price);
    TickPassOutcome(cfg, quoted, symbol, price, sched);
    assert symbol in s.book.positions ==> (TickReaches(s, symbol, price) <==> TickReaches(quoted, symbol, price)) by {
      assert forall k :: TargetOf(s, symbol, k) <==> TargetOf(quoted, symbol, k);
    }
    if k :| TickFires(symbol, price, quoted, k) {
      assert k in sched;
      ClosesOut(cfg, quoted, symbol, price, false);
    }
  }

  /** The candle's range includes the price. */
  predicate Spans(c: Candle, price: real) {
    c.low <= price <= c.high
  }

  /** The candle trades at the limit order's price or better. */
  predicate ReachesLimit(s: BrokerState, c: Candle, k: OrderKey) {
    && k in s.book.orders && s.book.orders[k].symbol == c.symbol && s.book.orders[k].orderType == Limit
    && s.book.orders[k].price.Some?
    && if s.book.orders[k].side == Buy then c.low <= s.book.orders[k].price.value
       else s.book.orders[k].price.value <= c.high
  }

  /**
   A candle that reaches no limit order closes the symbol's position at its stop exactly when it trades there; otherwise
   at a pending target exactly when it trades there; and otherwise only the quote changes.
   */
  lemma CandleClosesExactly(cfg: ValidConfig, s: BrokerState, c: Candle, sched: CandleSchedule)
    requires Protected(s) && CandleCovered(cfg, s, c, sched) && forall k :: !ReachesLimit(s, c, k)
    ensures var t, quoted := AtCandle(cfg, s, c, sched), s.(prices := s.prices[c.symbol := c.close]);
            if c.symbol in s.book.positions && Spans(c, s.book.positions[c.symbol].stopLoss) then
              ClosedAt(cfg, quoted, t, c.symbol, s.book.positions[c.symbol].stopLoss)
            else if exists k :: TargetOf(s, c.symbol, k) && Spans(c, s.book.orders[k].stopPrice.value) then
              c.symbol in s.book.positions &&
              forall k :: TargetOf(s, c.symbol, k) && Spans(c, s.book.orders[k].stopPrice.value) ==>
                ClosedAt(cfg, quoted, t, c.symbol, s.book.orders[k].stopPrice.value)
            else t == quoted
  {
    var quoted := Priced(s, c.symbol, c.close);
    assert forall k :: LimitFires(c, quoted, k) ==> ReachesLimit(s, c, k);
    LimitPassOutcome(cfg, quoted, c, sched.limits);
    assert LimitPass(cfg, quoted, c, sched.limits) == quoted;
    StopsThenTargets(cfg, quoted, c, sched);
    assert forall k :: TargetOf(s, c.symbol, k) <==> TargetOf(quoted, c.symbol, k);
  }

  lemma StopsThenTargets(cfg: ValidConfig, s: BrokerState, c: Candle, sched: CandleSchedule)
    requires Protected(s) && Folds.Covers(sched.stops, s.book.orders.Keys)
    requires var p := CandlePass(cfg, s, c, StopMarket, sched.stops);
             !p.hit ==> Folds.Covers(sched.targets, p.s.book.orders.Keys)
    ensures var t := Finish(cfg, s, c, sched);
            if c.symbol in s.book.positions && Spans(c, s.book.positions[c.symbol].stopLoss) then
              ClosedAt(cfg, s, t, c.symbol, s.book.positions[c.symbol].stopLoss)
            else if exists k :: TargetOf(s, c.symbol, k) && Spans(c, s.book.orders[k].stopPrice.value) then
              c.symbol in s.book.positions &&
              forall k :: TargetOf(s, c.symbol, k) && Spans(c, s.book.orders[k].stopPrice.value) ==>
                ClosedAt(cfg, s, t, c.symbol, s.book.orders[k].stopPrice.value)
            else t == s
  {
    CandlePassOutcome(cfg, s, c, StopMarket, sched.stops);
    StopFiresExactly(s, c);
    if c.symbol in s.book.positions && Spans(c, s.book.positions[c.symbol].stopLoss) {
      var stop := TheStop(s.book, c.symbol);
      ClosesOut(cfg, s, c.symbol, s.book.positions[c.symbol].stopLoss, false);
    } else {
      CandlePassOutcome(cfg, s, c, TakeProfitMarket, sched.targets);
      forall k | TargetOf(s, c.symbol, k) && Spans(c, s.book.orders[k].stopPrice.value)
        ensures c.symbol in s.book.positions
        ensures ClosedAt(cfg, s, Finish(cfg, s, c, sched), c.symbol, s.book.orders[k].stopPrice.value)
      {
        assert CandleFires(c, TakeProfitMarket, s, k) && k in sched.targets;
        ClosesOut(cfg, s, c.symbol, s.book.orders[k].stopPrice.value, false);
      }
      assert forall k :: CandleFires(c, TakeProfitMarket, s, k) ==>
          TargetOf(s, c.symbol, k) && Spans(c, s.book.orders[k].stopPrice.value);
    }
  }

  lemma StopFiresExactly(s: BrokerState, c: Candle)
    requires Protected(s)
    ensures (exists k :: CandleFires(c, StopMarket, s, k)) <==>
            c.symbol in s.book.positions && Spans(c, s.book.positions[c.symbol].stopLoss)
    ensures forall k :: CandleFires(c, StopMarket, s, k) ==>
              c.symbol in s.book.positions && s.book.orders[k].stopPrice.value == s.book.positions[c.symbol].stopLoss
  {
    if c.symbol in s.book.positions {
      var stop := TheStop(s.book, c.symbol);
      assert Spans(c, s.book.positions[c.symbol].stopLoss) ==> CandleFires(c, StopMarket, s, stop);
    }
    forall k | CandleFires(c, StopMarket, s, k)
      ensures c.symbol in s.book.positions
    {
      assert Owned(s.book.positions, s.book.orders[k]);
    }
  }

  // ---------------------------------------------------------------- closing on request, and all at once

  /** The last price seen for the symbol, if it can be traded at. */
  function LastQuote(s: BrokerState, symbol: string): Option<real> {
    if symbol in s.prices && 0.0 < s.prices[symbol] then Some(s.prices[symbol]) else None
  }

  /** Closing on request closes at the last quote, and does nothing without one. */
  lemma CloseIsAtQuote(cfg: ValidConfig, s: BrokerState, symbol: string)
    requires Protected(s)
    ensures var t := ClosePosition(cfg, s, symbol);
            if symbol in s.book.positions && LastQuote(s, symbol).Some? then
              ClosedAt(cfg, s, t, symbol, LastQuote(s, symbol).value) && t.book.nextOrderID == s.book.nextOrderID + 1
            else t == s
  {
    if symbol in s.book.positions && LastQuote(s, symbol).Some? {
      ClosesOut(cfg, s, symbol, LastQuote(s, symbol).value, true);
    }
  }

  /** What the emergency close earns on a position: its exit at the last quote, or at its entry without one. */
  function EarnedAtQuote(cfg: ValidConfig, s: BrokerState): Position -> real {
    (p: Position) => Earned(cfg, p, if LastQuote(s, p.symbol).Some? then LastQuote(s, p.symbol).value else p.entryPrice)
  }

  function LostAtQuote(cfg: ValidConfig, s: BrokerState): Position -> real {
    (p: Position) => if EarnedAtQuote(cfg, s)(p) < 0.0 then -EarnedAtQuote(cfg, s)(p) else 0.0
  }

  function FeeAtQuote(cfg: ValidConfig, s: BrokerState): Position -> real {
    (p: Position) =>
      FeeOn(Worth(Slipped(cfg, p.side == Long,
                          if LastQuote(s, p.symbol).Some? then LastQuote(s, p.symbol).value else p.entryPrice), p.size),
            cfg.feeTakerBps)
  }

  function MarginHeld(): Position -> real {
    (p: Position) => p.margin
  }

  lemma {:induction false} SameSum(m: map<string, Position>, f: Position -> real, g: Position -> real)
    requires forall k :: k in m ==> f(m[k]) == g(m[k])
    ensures Folds.SumBy(m, f) == Folds.SumBy(m, g)
    decreases |m|
  {
    if m != map[] {
      var k :| k in m;
      Folds.SumTakeOut(m, f, k);
      Folds.SumTakeOut(m, g, k);
      SameSum(m - {k}, f, g);
    }
  }

  /**
   The emergency close, in whatever order, leaves nothing open or pending, books what each position earns at its last
   quote, or at its entry when it has none, and adds every loss among that to the day's.
   */
  lemma EmergencyPays(cfg: ValidConfig, s: BrokerState, sched: seq<string>)
    requires Keyed(s.book.positions) && Folds.Covers(sched, s.book.positions.Keys)
    ensures var t, ps := EmergencyClose(cfg, s, sched), s.book.positions;
            var earned := Folds.SumBy(ps, EarnedAtQuote(cfg, s));
            && t.book.positions == map[] && t.book.orders == map[]
            && t.wallet.balance == s.wallet.balance + earned && t.wallet.realizedPnL == s.wallet.realizedPnL + earned
            && t.wallet.dailyLoss == s.wallet.dailyLoss + Folds.SumBy(ps, LostAtQuote(cfg, s))
            && t.wallet.totalFees == s.wallet.totalFees + Folds.SumBy(ps, FeeAtQuote(cfg, s))
            && t.wallet.usedMargin == s.wallet.usedMargin - Folds.SumBy(ps, MarginHeld())
  {
    EmergencyFlattens(cfg, s, sched);
    forall symbol | symbol in s.book.positions
      ensures NetAt(cfg, s.prices)(s.book.positions[symbol]) == EarnedAtQuote(cfg, s)(s.book.positions[symbol])
      ensures LossAt(cfg, s.prices)(s.book.positions[symbol]) == LostAtQuote(cfg, s)(s.book.positions[symbol])
      ensures FeeAt(cfg, s.prices)(s.book.positions[symbol]) == FeeAtQuote(cfg, s)(s.book.positions[symbol])
      ensures MarginOf()(s.book.positions[symbol]) == MarginHeld()(s.book.positions[symbol])
    {
      var p := s.book.positions[symbol];
      EarnedIsNet(cfg, p, EmergencyPrice(s.prices, p.symbol, p));
    }
    SameSum(s.book.positions, NetAt(cfg, s.prices), EarnedAtQuote(cfg, s));
    SameSum(s.book.positions, LossAt(cfg, s.prices), LostAtQuote(cfg, s));
    SameSum(s.book.positions, FeeAt(cfg, s.prices), FeeAtQuote(cfg, s));
    SameSum(s.book.positions, MarginOf(), MarginHeld());
  }
}
