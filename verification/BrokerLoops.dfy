/** The broker's range loops over maps: on a protected book their outcome does not depend on the iteration order. */
module BrokerLoops {
  import opened Numbers
  import opened Domain
  import opened BrokerModel
  import opened BrokerProtection
  import opened BrokerRuns
  import Folds

  predicate Protective(o: Order) {
    o.orderType == StopMarket || o.orderType == TakeProfitMarket
  }

  /** A triggered stop or target closes its own position and nothing of the pair is left. */
  lemma TriggerCloses(cfg: ValidConfig, s: BrokerState, k: OrderKey, price: real)
    requires Protected(s) && k in s.book.orders && Protective(s.book.orders[k])
    ensures s.book.orders[k].symbol in s.book.positions
    ensures var symbol := s.book.orders[k].symbol;
            var t := Trigger(cfg, s, k, price);
            t == CloseOut(cfg, s, s.book.positions[symbol], price, false) &&
            Protected(t) && Bare(t.book.orders, symbol) && symbol !in t.book.positions
  {
    var symbol := s.book.orders[k].symbol;
    assert Owned(s.book.positions, s.book.orders[k]);
    CloseOutKeeps(cfg, s, symbol, price, false);
    var t := CloseOut(cfg, s, s.book.positions[symbol], price, false);
    assert k !in t.book.orders;
    assert t.book.orders - {k} == t.book.orders;
  }

  // ---------------------------------------------------------------- ticks

  /** One price cannot reach both the stop and the target of a position. */
  lemma OneTickFires(s: BrokerState, symbol: string, price: real, j: OrderKey, k: OrderKey)
    requires Protected(s) && TickFires(symbol, price, s, j) && TickFires(symbol, price, s, k)
    ensures j == k
  {
  }

  /** A tick either leaves the state alone or closes the symbol's position through the one order it reaches. */
  lemma TickPassOutcome(cfg: ValidConfig, s: BrokerState, symbol: string, price: real, sched: seq<OrderKey>)
    requires Protected(s)
    ensures (forall k :: k in sched ==> !TickFires(symbol, price, s, k)) ==> TickPass(cfg, s, symbol, price, sched) == s
    ensures (exists k :: k in sched && TickFires(symbol, price, s, k)) ==>
              symbol in s.book.positions &&
              TickPass(cfg, s, symbol, price, sched) == CloseOut(cfg, s, s.book.positions[symbol], price, false)
    ensures Protected(TickPass(cfg, s, symbol, price, sched))
  {
    var fires, act := TickFiring(symbol, price), TickActing(cfg, price);
    if k :| TickFires(symbol, price, s, k) {
      forall j | fires(s, j)
        ensures j == k
      {
        OneTickFires(s, symbol, price, j, k);
      }
      TriggerCloses(cfg, s, k, price);
      assert Folds.Quiet(act(s, k), fires);
      Folds.SweepSingle(s, sched, k, fires, act);
    } else {
      assert Folds.Quiet(s, fires);
      Folds.SweepQuiet(s, sched, fires, act);
    }
  }

  /** Every fair iteration order of openOrders gives one and the same state after a price update. */
  lemma TickOrderIndependent(
    cfg: ValidConfig, s: BrokerState, symbol: string, price: real, one: seq<OrderKey>, two: seq<OrderKey>)
    requires Protected(s) && Folds.Covers(one, s.book.orders.Keys) && Folds.Covers(two, s.book.orders.Keys)
    ensures AtTick(cfg, s, symbol, price, one) == AtTick(cfg, s, symbol, price, two)
  {
    var s1 := Priced(s, symbol, price);
    TickPassOutcome(cfg, s1, symbol, price, one);
    TickPassOutcome(cfg, s1, symbol, price, two);
    if k :| TickFires(symbol, price, s1, k) {
      assert k in one && k in two;
    }
  }

  // ---------------------------------------------------------------- candles: limit fills

  /** The LIMIT orders left after one has been worked off are the others, unchanged. */
  lemma LimitActOrders(cfg: ValidConfig, s: BrokerState, k: OrderKey, j: OrderKey)
    requires Protected(s) && k in s.book.orders && s.book.orders[k].orderType == Limit && s.book.orders[k].price.Some?
    requires var t := LimitAct(cfg, s, k); j in t.book.orders && t.book.orders[j].orderType == Limit
    ensures j != k && j in s.book.orders && s.book.orders[j] == LimitAct(cfg, s, k).book.orders[j]
  {
    var o := s.book.orders[k];
    assert Armed(o);
    if LimitAccepted(cfg, s, o) {
      var pos := NewPosition(cfg, s, o.symbol, o.side, o.qty, o.price.value, MarginFor(cfg, o.price.value, o.qty));
      OpenAtOrders(cfg, s, pos, MakerFee(cfg, o, o.price.value), 0.0, o.intendedSL, o.intendedTP);
    }
  }

  /** At most one pending LIMIT order of the symbol would fill at this candle. */
  ghost predicate OneLimitFires(s: BrokerState, c: Candle) {
    forall j, k :: LimitFires(c, s, j) && LimitFires(c, s, k) ==> j == k
  }

  lemma LimitPassOutcome(cfg: ValidConfig, s: BrokerState, c: Candle, sched: seq<OrderKey>)
    requires Protected(s) && OneLimitFires(s, c)
    ensures (forall k :: k in sched ==> !LimitFires(c, s, k)) ==> LimitPass(cfg, s, c, sched) == s
    ensures forall k :: k in sched && LimitFires(c, s, k) ==> LimitPass(cfg, s, c, sched) == LimitAct(cfg, s, k)
  {
    var fires, act := LimitFiring(c), LimitActing(cfg);
    if k :| LimitFires(c, s, k) {
      forall j | LimitFires(c, LimitAct(cfg, s, k), j)
        ensures false
      {
        LimitActOrders(cfg, s, k, j);
        assert LimitFires(c, s, j);
      }
      assert Folds.Quiet(act(s, k), fires);
      Folds.SweepSingle(s, sched, k, fires, act);
    } else {
      assert Folds.Quiet(s, fires);
      Folds.SweepQuiet(s, sched, fires, act);
    }
  }

  /** The guard a caller can check before a candle: nothing would fill onto an open position, nor two orders at once. */
  ghost predicate LimitsLandFree(cfg: ValidConfig, s: BrokerState, c: Candle) {
    OneLimitFires(s, c) && forall k :: LimitFires(c, s, k) ==> LandsFree(cfg, s, k)
  }

  lemma LimitPassKeeps(cfg: ValidConfig, s: BrokerState, c: Candle, sched: seq<OrderKey>)
    requires Protected(s) && LimitsLandFree(cfg, s, c)
    ensures Protected(LimitPass(cfg, s, c, sched))
  {
    LimitPassOutcome(cfg, s, c, sched);
    if k :| k in sched && LimitFires(c, s, k) {
      LimitActKeeps(cfg, s, k);
    }
  }

  // ---------------------------------------------------------------- candles: stops and targets

  lemma CandlePassOutcome(cfg: ValidConfig, s: BrokerState, c: Candle, orderType: OrderType, sched: seq<OrderKey>)
    requires Protected(s) && (orderType == StopMarket || orderType == TakeProfitMarket)
    ensures (forall k :: k in sched ==> !CandleFires(c, orderType, s, k)) ==>
              CandlePass(cfg, s, c, orderType, sched) == PassState(s, false)
    ensures forall k :: k in sched && CandleFires(c, orderType, s, k) ==>
              c.symbol in s.book.positions &&
              CandlePass(cfg, s, c, orderType, sched) ==
                PassState(CloseOut(cfg, s, s.book.positions[c.symbol], s.book.orders[k].stopPrice.value, false), true)
    ensures Protected(CandlePass(cfg, s, c, orderType, sched).s)
  {
    var p, fires, act := PassState(s, false), CandleFiring(c, orderType), CandleActing(cfg);
    if k :| CandleFires(c, orderType, s, k) {
      forall j | fires(p, j)
        ensures j == k
      {
        OnePerKind(s.book.positions, s.book.orders, s.book.nextOrderID, j, k);
      }
      TriggerCloses(cfg, s, k, s.book.orders[k].stopPrice.value);
      assert Folds.Quiet(act(p, k), fires);
      Folds.SweepSingle(p, sched, k, fires, act);
    } else {
      assert Folds.Quiet(p, fires);
      Folds.SweepQuiet(p, sched, fires, act);
    }
  }

  /** A candle whose limit fill, if any, lands on a free symbol keeps every position protected. */
  lemma FreeCandleKeeps(cfg: ValidConfig, s: BrokerState, c: Candle, sched: CandleSchedule)
    requires Protected(s) && LimitsLandFree(cfg, Priced(s, c.symbol, c.close), c)
    ensures Protected(AtCandle(cfg, s, c, sched))
  {
    var s0 := Priced(s, c.symbol, c.close);
    LimitPassKeeps(cfg, s0, c, sched.limits);
    var s1 := LimitPass(cfg, s0, c, sched.limits);
    CandlePassOutcome(cfg, s1, c, StopMarket, sched.stops);
    var p := CandlePass(cfg, s1, c, StopMarket, sched.stops);
    CandlePassOutcome(cfg, p.s, c, TakeProfitMarket, sched.targets);
  }

  /** Every limit fill of the pass, when its turn comes, is refused or lands on a free symbol. */
  ghost predicate FillsLandFree(cfg: ValidConfig, s: BrokerState, c: Candle, sched: seq<OrderKey>)
    decreases |sched|
  {
    sched != [] ==>
      && (LimitFires(c, s, sched[0]) ==> s.book.orders[sched[0]].price.Some? && LandsFree(cfg, s, sched[0]))
      && FillsLandFree(cfg, Folds.Visit(s, sched[0], LimitFiring(c), LimitActing(cfg)), c, sched[1..])
  }

  lemma {:induction false} LandingPassKeeps(cfg: ValidConfig, s: BrokerState, c: Candle, sched: seq<OrderKey>)
    requires Protected(s) && FillsLandFree(cfg, s, c, sched)
    ensures Protected(LimitPass(cfg, s, c, sched))
    decreases |sched|
  {
    if sched != [] {
      if LimitFires(c, s, sched[0]) {
        LimitActKeeps(cfg, s, sched[0]);
      }
      LandingPassKeeps(cfg, Folds.Visit(s, sched[0], LimitFiring(c), LimitActing(cfg)), c, sched[1..]);
    }
  }

  /** A candle keeps every position protected when each of its limit fills lands on a free symbol, however many fire. */
  lemma LandingCandleKeeps(cfg: ValidConfig, s: BrokerState, c: Candle, sched: CandleSchedule)
    requires Protected(s) && FillsLandFree(cfg, Priced(s, c.symbol, c.close), c, sched.limits)
    ensures Protected(AtCandle(cfg, s, c, sched))
  {
    var s0 := Priced(s, c.symbol, c.close);
    LandingPassKeeps(cfg, s0, c, sched.limits);
    var s1 := LimitPass(cfg, s0, c, sched.limits);
    CandlePassOutcome(cfg, s1, c, StopMarket, sched.stops);
    CandlePassOutcome(cfg, CandlePass(cfg, s1, c, StopMarket, sched.stops).s, c, TakeProfitMarket, sched.targets);
  }

  // ---------------------------------------------------------------- what an exit nets

  function Less(bps: real): real {
    1.0 - bps / 10000.0
  }

  function More(bps: real): real {
    1.0 + bps / 10000.0
  }

  /** What is left of an exit price, or what has to be paid on top of it, after slippage and fee. */
  function ExitFactor(cfg: ValidConfig, side: Side): real {
    if side == Long then Times(Less(cfg.slippageBps), Less(cfg.feeTakerBps))
    else Times(More(cfg.slippageBps), More(cfg.feeTakerBps))
  }

  lemma TimesPos(a: real, b: real)
    requires 0.0 < a && 0.0 < b
    ensures 0.0 < Times(a, b)
  {
    MulPos(a, b);
  }

  lemma ExitFactorPositive(cfg: ValidConfig, side: Side)
    requires cfg.feeTakerBps < 10000.0 && cfg.slippageBps < 10000.0
    ensures ExitFactor(cfg, side) > 0.0
  {
    if side == Long {
      TimesPos(Less(cfg.slippageBps), Less(cfg.feeTakerBps));
    } else {
      TimesPos(More(cfg.slippageBps), More(cfg.feeTakerBps));
    }
  }

  /** The net of an exit at a price already scaled by the factor. */
  function ScaledNet(side: Side, entry: real, scaled: real, size: real): real {
    if side == Long then (scaled - entry) * size else (entry - scaled) * size
  }

  lemma ScaledNetMono(side: Side, entry: real, worse: real, better: real, size: real)
    requires size >= 0.0 && if side == Long then worse <= better else better <= worse
    ensures ScaledNet(side, entry, worse, size) <= ScaledNet(side, entry, better, size)
  {
    if side == Long {
      MulMono(worse - entry, better - entry, size);
    } else {
      MulMono(entry - worse, entry - better, size);
    }
  }

  /** The net of an exit as entry against the price after slippage and fee. */
  lemma NetForm(cfg: ValidConfig, pos: Position, price: real)
    ensures ExitNet(cfg, pos, price) == ScaledNet(pos.side, pos.entryPrice, Times(price, ExitFactor(cfg, pos.side)),
              pos.size)
  {
    var f, v, factor := cfg.feeTakerBps / 10000.0, cfg.slippageBps / 10000.0, ExitFactor(cfg, pos.side);
    var exit := ExitFill(cfg, pos.side, price);
    assert Bps(price, cfg.slippageBps) == price * v;
    assert Bps(exit * pos.size, cfg.feeTakerBps) == exit * pos.size * f;
    if pos.side == Long {
      assert exit == price * (1.0 - v);
      assert price * factor == exit * (1.0 - f);
    } else {
      assert exit == price * (1.0 + v);
      assert price * factor == exit * (1.0 + f);
    }
  }

  lemma TimesMono(a: real, b: real, c: real)
    requires a <= b && 0.0 <= c
    ensures Times(a, c) <= Times(b, c)
  {
    MulMono(a, b, c);
  }

  /** An exit further on the losing side never nets more, as long as fee and slippage are each below the whole price. */
  lemma WorseExitNetsLess(cfg: ValidConfig, pos: Position, worse: real, better: real)
    requires cfg.feeTakerBps < 10000.0 && cfg.slippageBps < 10000.0 && pos.size >= 0.0
    requires if pos.side == Long then worse <= better else better <= worse
    ensures ExitNet(cfg, pos, worse) <= ExitNet(cfg, pos, better)
  {
    var factor := ExitFactor(cfg, pos.side);
    ExitFactorPositive(cfg, pos.side);
    NetForm(cfg, pos, worse);
    NetForm(cfg, pos, better);
    if pos.side == Long {
      TimesMono(worse, better, factor);
    } else {
      TimesMono(better, worse, factor);
    }
    ScaledNetMono(pos.side, pos.entryPrice, Times(worse, factor), Times(better, factor), pos.size);
  }
}
