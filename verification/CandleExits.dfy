/** Where a candle closes the position, and when that depends on the order in which the broker's maps come up. */
module CandleExits {
  import opened Numbers
  import opened Domain
  import opened BrokerModel
  import opened BrokerProtection
  import opened BrokerRuns
  import opened BrokerLoops
  import opened BrokerCandles
  import Folds

  // ---------------------------------------------------------------- exits at different prices

  /** Fee and slippage are each below the whole price. */
  predicate CostsBelowPrice(cfg: ValidConfig) {
    cfg.feeTakerBps < 10000.0 && cfg.slippageBps < 10000.0
  }

  predicate BetterExit(side: Side, a: real, b: real) {
    if side == Long then a > b else a < b
  }

  lemma TimesStrict(a: real, b: real, c: real)
    requires a < b && 0.0 < c
    ensures Times(a, c) < Times(b, c)
  {
    MulPos(b - a, c);
    assert (b - a) * c == b * c - a * c;
  }

  lemma ScaledNetStrict(side: Side, entry: real, worse: real, better: real, size: real)
    requires size > 0.0 && BetterExit(side, better, worse)
    ensures ScaledNet(side, entry, worse, size) < ScaledNet(side, entry, better, size)
  {
    if side == Long {
      TimesStrict(worse - entry, better - entry, size);
    } else {
      TimesStrict(entry - worse, entry - better, size);
    }
  }

  /** An exit at a better price nets more. */
  lemma BetterNetsMore(cfg: ValidConfig, pos: Position, worse: real, better: real)
    requires CostsBelowPrice(cfg) && pos.size > 0.0 && BetterExit(pos.side, better, worse)
    ensures ExitNet(cfg, pos, worse) < ExitNet(cfg, pos, better)
  {
    var factor := ExitFactor(cfg, pos.side);
    ExitFactorPositive(cfg, pos.side);
    NetForm(cfg, pos, worse);
    NetForm(cfg, pos, better);
    if pos.side == Long {
      TimesStrict(worse, better, factor);
    } else {
      TimesStrict(better, worse, factor);
    }
    ScaledNetStrict(pos.side, pos.entryPrice, Times(worse, factor), Times(better, factor), pos.size);
  }

  lemma OtherPriceOtherNet(cfg: ValidConfig, pos: Position, a: real, b: real)
    requires CostsBelowPrice(cfg) && pos.size > 0.0 && a != b
    ensures ExitNet(cfg, pos, a) != ExitNet(cfg, pos, b)
  {
    if BetterExit(pos.side, a, b) {
      BetterNetsMore(cfg, pos, b, a);
    } else {
      BetterNetsMore(cfg, pos, a, b);
    }
  }

  // ---------------------------------------------------------------- after the limit loop

  /** The protective loops visit every order; the targets come up only when no stop fired. */
  ghost predicate Completes(cfg: ValidConfig, t: BrokerState, c: Candle, sched: CandleSchedule) {
    var p := CandlePass(cfg, t, c, StopMarket, sched.stops);
    Folds.Covers(sched.stops, t.book.orders.Keys) && (!p.hit ==> Folds.Covers(sched.targets, p.s.book.orders.Keys))
  }

  /** The symbol has a position, filed under it and not empty. */
  predicate Placed(t: BrokerState, symbol: string) {
    symbol in t.book.positions && t.book.positions[symbol].symbol == symbol && t.book.positions[symbol].size > 0.0
  }

  /** Two orders of a kind fire, at different levels. */
  ghost predicate Rivals(t: BrokerState, c: Candle, orderType: OrderType, i: OrderKey, j: OrderKey) {
    CandleFires(c, orderType, t, i) && CandleFires(c, orderType, t, j) && Level(t, i) != Level(t, j)
  }

  ghost predicate Contested(t: BrokerState, c: Candle) {
    || (exists i, j :: Rivals(t, c, StopMarket, i, j))
    || ((forall k :: !CandleFires(c, StopMarket, t, k)) && exists i, j :: Rivals(t, c, TakeProfitMarket, i, j))
  }

  /** What a loop over all orders comes to: nothing, or the exit at the level of the first that fires. */
  lemma CompletePass(cfg: ValidConfig, t: BrokerState, c: Candle, orderType: OrderType, sched: seq<OrderKey>)
    requires Folds.Covers(sched, t.book.orders.Keys)
    requires Placed(t, c.symbol)
    ensures (forall k :: !CandleFires(c, orderType, t, k)) ==>
              CandlePass(cfg, t, c, orderType, sched) == PassState(t, false)
    ensures (exists k :: CandleFires(c, orderType, t, k)) ==>
              && ComingUp(c, orderType, t, sched) != {}
              && CandlePass(cfg, t, c, orderType, sched)
                 == PassState(Settled(cfg, t, c.symbol, Level(t, First(c, orderType, t, sched)),
                                      ComingUp(c, orderType, t, sched)), true)
  {
    var all := ComingUp(c, orderType, t, sched);
    assert forall k :: CandleFires(c, orderType, t, k) ==> k in all;
    if all == {} {
      QuietPass(cfg, t, c, orderType, sched);
    } else {
      PassSettles(cfg, t, c, orderType, sched);
    }
  }

  lemma PassesAgree(
    cfg: ValidConfig, t: BrokerState, c: Candle, orderType: OrderType, one: seq<OrderKey>, two: seq<OrderKey>)
    requires Folds.Covers(one, t.book.orders.Keys) && Folds.Covers(two, t.book.orders.Keys)
    requires Placed(t, c.symbol)
    requires forall i, j :: !Rivals(t, c, orderType, i, j)
    ensures CandlePass(cfg, t, c, orderType, one) == CandlePass(cfg, t, c, orderType, two)
  {
    CompletePass(cfg, t, c, orderType, one);
    CompletePass(cfg, t, c, orderType, two);
    if k :| CandleFires(c, orderType, t, k) {
      assert ComingUp(c, orderType, t, one) == ComingUp(c, orderType, t, two);
      var i, j := First(c, orderType, t, one), First(c, orderType, t, two);
      assert i in ComingUp(c, orderType, t, one) && j in ComingUp(c, orderType, t, two);
      assert !Rivals(t, c, orderType, i, j);
    }
  }

  /** Uncontested, every complete order of the two loops comes to the same. */
  lemma UncontestedAgrees(cfg: ValidConfig, t: BrokerState, c: Candle, one: CandleSchedule, two: CandleSchedule)
    requires Placed(t, c.symbol) && !Contested(t, c) && Completes(cfg, t, c, one) && Completes(cfg, t, c, two)
    ensures Finish(cfg, t, c, one) == Finish(cfg, t, c, two)
  {
    PassesAgree(cfg, t, c, StopMarket, one.stops, two.stops);
    CompletePass(cfg, t, c, StopMarket, one.stops);
    if forall k :: !CandleFires(c, StopMarket, t, k) {
      PassesAgree(cfg, t, c, TakeProfitMarket, one.targets, two.targets);
    }
  }

  ghost predicate Once(l: seq<OrderKey>) {
    forall i, j :: 0 <= i < j < |l| ==> l[i] != l[j]
  }

  ghost predicate EachOnce(sched: CandleSchedule) {
    Once(sched.limits) && Once(sched.stops) && Once(sched.targets)
  }

  /** A list of a set's elements, each once. */
  lemma Listing(keys: set<OrderKey>) returns (l: seq<OrderKey>)
    ensures forall k :: k in l <==> k in keys
    ensures Once(l)
    decreases |keys|
  {
    if keys == {} {
      l := [];
    } else {
      var k :| k in keys;
      var rest := Listing(keys - {k});
      l := [k] + rest;
    }
  }

  /** Every order once, a given one first. */
  lemma StartingWith(keys: set<OrderKey>, k: OrderKey) returns (l: seq<OrderKey>)
    requires k in keys
    ensures l != [] && l[0] == k && Folds.Covers(l, keys) && Once(l)
  {
    var rest := Listing(keys - {k});
    l := [k] + rest;
  }

  /** The exit of the symbol's position at a price, as the ledger and the record show it. */
  ghost predicate SettledAt(cfg: ValidConfig, t: BrokerState, symbol: string, price: real, u: BrokerState)
    requires symbol in t.book.positions
  {
    var exited := CloseOut(cfg, t, t.book.positions[symbol], price, false);
    u.wallet == exited.wallet && u.closed == exited.closed && u.book.positions == exited.book.positions
  }

  lemma SettledOnce(cfg: ValidConfig, t: BrokerState, symbol: string, a: real, b: real, u: BrokerState)
    requires CostsBelowPrice(cfg) && Placed(t, symbol)
    requires SettledAt(cfg, t, symbol, a, u) && SettledAt(cfg, t, symbol, b, u)
    ensures a == b
  {
    if a != b {
      OtherPriceOtherNet(cfg, t.book.positions[symbol], a, b);
    }
  }

  /** Any order that fires can be the one that decides the exit: it may come up first, and each comes up once. */
  lemma FirstDecides(cfg: ValidConfig, t: BrokerState, c: Candle, orderType: OrderType, k: OrderKey)
    returns (sched: CandleSchedule)
    requires Placed(t, c.symbol) && CandleFires(c, orderType, t, k)
    requires orderType == StopMarket || (orderType == TakeProfitMarket && forall j :: !CandleFires(c, StopMarket, t, j))
    ensures Completes(cfg, t, c, sched) && EachOnce(sched)
    ensures SettledAt(cfg, t, c.symbol, Level(t, k), Finish(cfg, t, c, sched))
  {
    var first := StartingWith(t.book.orders.Keys, k);
    assert k in ComingUp(c, orderType, t, first);
    assert First(c, orderType, t, first) == k;
    CompletePass(cfg, t, c, orderType, first);
    if orderType == StopMarket {
      sched := CandleSchedule([], first, []);
    } else {
      CompletePass(cfg, t, c, StopMarket, first);
      sched := CandleSchedule([], first, first);
    }
  }

  /** Some order decides every exit: a stop, or a target when no stop fires. */
  lemma SomeDecides(cfg: ValidConfig, t: BrokerState, c: Candle, sched: CandleSchedule) returns (k: OrderKey)
    requires Placed(t, c.symbol) && Completes(cfg, t, c, sched) && exists j :: CandleFires(c, StopMarket, t, j)
    ensures CandleFires(c, StopMarket, t, k) && SettledAt(cfg, t, c.symbol, Level(t, k), Finish(cfg, t, c, sched))
  {
    CompletePass(cfg, t, c, StopMarket, sched.stops);
    k := First(c, StopMarket, t, sched.stops);
    assert k in ComingUp(c, StopMarket, t, sched.stops);
  }

  ghost predicate AllAgree(cfg: ValidConfig, t: BrokerState, c: Candle) {
    forall one: CandleSchedule, two: CandleSchedule :: Completes(cfg, t, c, one) && Completes(cfg, t, c, two) ==>
      Finish(cfg, t, c, one) == Finish(cfg, t, c, two)
  }

  /** All complete orders of the protective loops come to one state exactly when nothing is contested. */
  lemma ContestedExactly(cfg: ValidConfig, t: BrokerState, c: Candle)
    requires CostsBelowPrice(cfg) && Placed(t, c.symbol)
    ensures AllAgree(cfg, t, c) <==> !Contested(t, c)
  {
    if Contested(t, c) {
      var orderType := if exists i, j :: Rivals(t, c, StopMarket, i, j) then StopMarket else TakeProfitMarket;
      var i, j :| Rivals(t, c, orderType, i, j);
      var one := FirstDecides(cfg, t, c, orderType, i);
      var two := FirstDecides(cfg, t, c, orderType, j);
      if Finish(cfg, t, c, one) == Finish(cfg, t, c, two) {
        SettledOnce(cfg, t, c.symbol, Level(t, i), Level(t, j), Finish(cfg, t, c, one));
      }
    } else {
      forall one: CandleSchedule, two: CandleSchedule | Completes(cfg, t, c, one) && Completes(cfg, t, c, two)
        ensures Finish(cfg, t, c, one) == Finish(cfg, t, c, two)
      {
        UncontestedAgrees(cfg, t, c, one, two);
      }
    }
  }

  // ---------------------------------------------------------------- at the stop, and no better

  /** Every complete order exits the symbol's position at this price. */
  ghost predicate AllSettleAt(cfg: ValidConfig, t: BrokerState, c: Candle, price: real)
    requires c.symbol in t.book.positions
  {
    forall sched: CandleSchedule :: Completes(cfg, t, c, sched) ==>
      SettledAt(cfg, t, c.symbol, price, Finish(cfg, t, c, sched))
  }

  /** Once a stop is crossed, every complete order exits at the position's own exactly when no crossed stop differs. */
  lemma OwnStopExactly(cfg: ValidConfig, t: BrokerState, c: Candle)
    requires Placed(t, c.symbol) && exists k :: CandleFires(c, StopMarket, t, k)
    ensures var stop := t.book.positions[c.symbol].stopLoss;
            var alone := forall k :: CandleFires(c, StopMarket, t, k) ==> Level(t, k) == stop;
            (alone ==> AllSettleAt(cfg, t, c, stop)) &&
            (CostsBelowPrice(cfg) ==> (AllSettleAt(cfg, t, c, stop) <==> alone))
  {
    var stop := t.book.positions[c.symbol].stopLoss;
    if k :| CandleFires(c, StopMarket, t, k) && Level(t, k) != stop {
      var sched := FirstDecides(cfg, t, c, StopMarket, k);
      if CostsBelowPrice(cfg) && SettledAt(cfg, t, c.symbol, stop, Finish(cfg, t, c, sched)) {
        SettledOnce(cfg, t, c.symbol, Level(t, k), stop, Finish(cfg, t, c, sched));
      }
    } else {
      forall sched: CandleSchedule | Completes(cfg, t, c, sched)
        ensures SettledAt(cfg, t, c.symbol, stop, Finish(cfg, t, c, sched))
      {
        var k := SomeDecides(cfg, t, c, sched);
      }
    }
  }

  /** What the exit earned. */
  function Realized(t: BrokerState, u: BrokerState): real {
    u.wallet.realizedPnL - t.wallet.realizedPnL
  }

  /** No complete order nets more than the exit at `target` would, exactly when no crossed stop is a better exit. */
  lemma NoBetterExactly(cfg: ValidConfig, t: BrokerState, c: Candle, target: real)
    requires CostsBelowPrice(cfg) && Placed(t, c.symbol) && exists k :: CandleFires(c, StopMarket, t, k)
    ensures var pos := t.book.positions[c.symbol];
            (forall sched: CandleSchedule :: Completes(cfg, t, c, sched) ==>
               Realized(t, Finish(cfg, t, c, sched)) <= ExitNet(cfg, pos, target)) <==>
            forall k :: CandleFires(c, StopMarket, t, k) ==> !BetterExit(pos.side, Level(t, k), target)
  {
    var pos := t.book.positions[c.symbol];
    if k :| CandleFires(c, StopMarket, t, k) && BetterExit(pos.side, Level(t, k), target) {
      var sched := FirstDecides(cfg, t, c, StopMarket, k);
      BetterNetsMore(cfg, pos, target, Level(t, k));
    } else {
      forall sched: CandleSchedule | Completes(cfg, t, c, sched)
        ensures Realized(t, Finish(cfg, t, c, sched)) <= ExitNet(cfg, pos, target)
      {
        var k := SomeDecides(cfg, t, c, sched);
        WorseExitNetsLess(cfg, pos, Level(t, k), target);
      }
    }
  }

  // ---------------------------------------------------------------- from before the candle, at most one limit fill

  /** What every complete limit loop comes to when one order fires at most. */
  ghost function AfterFills(cfg: ValidConfig, s: BrokerState, c: Candle): BrokerState {
    if exists k :: LimitFires(c, s, k) then
      var k :| LimitFires(c, s, k);
      LimitAct(cfg, s, k)
    else s
  }

  /** A candle on a protected book on which one limit order fires at most, as it stands once priced. */
  ghost predicate SingleFill(s: BrokerState, c: Candle) {
    Protected(s) && OneLimitFires(Priced(s, c.symbol, c.close), c)
  }

  lemma LimitsDone(cfg: ValidConfig, s: BrokerState, c: Candle, limits: seq<OrderKey>)
    requires Protected(s) && OneLimitFires(s, c) && Folds.Covers(limits, s.book.orders.Keys)
    ensures LimitPass(cfg, s, c, limits) == AfterFills(cfg, s, c)
  {
    LimitPassOutcome(cfg, s, c, limits);
    if k :| LimitFires(c, s, k) {
      assert k in limits;
    }
  }

  /** The candle seen from after its limit loop. */
  lemma CandleFromFills(cfg: ValidConfig, s: BrokerState, c: Candle, sched: CandleSchedule)
    requires SingleFill(s, c) && Folds.Covers(sched.limits, s.book.orders.Keys)
    ensures var t := AfterFills(cfg, Priced(s, c.symbol, c.close), c);
            (CandleCovered(cfg, s, c, sched) <==> Completes(cfg, t, c, sched)) &&
            AtCandle(cfg, s, c, sched) == Finish(cfg, t, c, sched)
  {
    LimitsDone(cfg, Priced(s, c.symbol, c.close), c, sched.limits);
  }

  /** Every order of the protective loops belongs to a candle that visits everything. */
  lemma Covering(cfg: ValidConfig, s: BrokerState, c: Candle, sched: CandleSchedule) returns (full: CandleSchedule)
    requires SingleFill(s, c) && Completes(cfg, AfterFills(cfg, Priced(s, c.symbol, c.close), c), c, sched)
    ensures CandleCovered(cfg, s, c, full) && Once(full.limits)
    ensures full.stops == sched.stops && full.targets == sched.targets
    ensures AtCandle(cfg, s, c, full) == Finish(cfg, AfterFills(cfg, Priced(s, c.symbol, c.close), c), c, sched)
  {
    var limits := Listing(s.book.orders.Keys);
    full := sched.(limits := limits);
    CandleFromFills(cfg, s, c, full);
  }

  ghost predicate CandlesAgree(cfg: ValidConfig, s: BrokerState, c: Candle) {
    forall one: CandleSchedule, two: CandleSchedule ::
      CandleCovered(cfg, s, c, one) && CandleCovered(cfg, s, c, two) ==>
      AtCandle(cfg, s, c, one) == AtCandle(cfg, s, c, two)
  }

  lemma AgreeFromFills(cfg: ValidConfig, s: BrokerState, c: Candle)
    requires SingleFill(s, c)
    ensures CandlesAgree(cfg, s, c) <==> AllAgree(cfg, AfterFills(cfg, Priced(s, c.symbol, c.close), c), c)
  {
    var t := AfterFills(cfg, Priced(s, c.symbol, c.close), c);
    if AllAgree(cfg, t, c) {
      forall one: CandleSchedule, two: CandleSchedule
        | CandleCovered(cfg, s, c, one) && CandleCovered(cfg, s, c, two)
        ensures AtCandle(cfg, s, c, one) == AtCandle(cfg, s, c, two)
      {
        CandleFromFills(cfg, s, c, one);
        CandleFromFills(cfg, s, c, two);
      }
    }
    if CandlesAgree(cfg, s, c) {
      forall one: CandleSchedule, two: CandleSchedule | Completes(cfg, t, c, one) && Completes(cfg, t, c, two)
        ensures Finish(cfg, t, c, one) == Finish(cfg, t, c, two)
      {
        var first := Covering(cfg, s, c, one);
        var second := Covering(cfg, s, c, two);
      }
    }
  }

  /** The fill's own target fires. */
  predicate OwnTargetFires(s: BrokerState, c: Candle, k: OrderKey)
    requires k in s.book.orders && s.book.orders[k].price.Some?
  {
    var o := s.book.orders[k];
    o.intendedTP > 0.0 && TargetOnWinningSide(SideOf(o.side), o.price.value, o.intendedTP) && Crosses(c, o.intendedTP)
  }

  /** The old stop and the fill's own are both crossed, at different levels. */
  predicate StopsContested(s: BrokerState, c: Candle, k: OrderKey)
    requires c.symbol in s.book.positions && k in s.book.orders
  {
    var was, own := s.book.positions[c.symbol].stopLoss, s.book.orders[k].intendedSL;
    Crosses(c, was) && Crosses(c, own) && was != own
  }

  /** Neither stop is crossed, and the old target and the fill's own both are, at different levels. */
  ghost predicate TargetsContested(s: BrokerState, c: Candle, k: OrderKey)
    requires c.symbol in s.book.positions && k in s.book.orders && s.book.orders[k].price.Some?
  {
    && !Crosses(c, s.book.positions[c.symbol].stopLoss) && !Crosses(c, s.book.orders[k].intendedSL)
    && OwnTargetFires(s, c, k)
    && exists j :: CandleFires(c, TakeProfitMarket, s, j) && Level(s, j) != s.book.orders[k].intendedTP
  }

  /** A limit order fills on an open position and its orders compete with the old ones. */
  ghost predicate FillContests(cfg: ValidConfig, s: BrokerState, c: Candle) {
    exists k :: FillsOver(cfg, s, c, k) && (StopsContested(s, c, k) || TargetsContested(s, c, k))
  }

  /** The orders once an entry is in: its own stop and target, and all old ones but the one filled. */
  lemma OrdersAfterEntry(b: Book, k: OrderKey, pos: Position, sl: real, tp: real, j: OrderKey)
    requires Enters(b, k, pos, sl)
    ensures var d, n := Entered(b, k, pos, sl, tp), b.nextOrderID;
            && Paper(n) in d.orders && d.orders[Paper(n)] == ProtectiveOrder(n, pos, StopMarket, sl)
            && (Targeted(pos, tp) ==>
                  Paper(n + 1) in d.orders &&
                  d.orders[Paper(n + 1)] == ProtectiveOrder(n + 1, pos, TakeProfitMarket, tp))
            && (j in d.orders && j !in b.orders ==> j == Paper(n) || (Targeted(pos, tp) && j == Paper(n + 1)))
            && (j in b.orders ==> (j in d.orders <==> j != k) && (j != k ==> d.orders[j] == b.orders[j]))
  {
    if j in b.orders {
      OldOrder(b, k, pos, sl, tp, j);
    }
  }

  /** The state after an entry, as `OrdersAfterEntry` sees its book. */
  ghost predicate After(s: BrokerState, k: OrderKey, pos: Position, sl: real, tp: real, t: BrokerState) {
    Enters(s.book, k, pos, sl) && t.book == Entered(s.book, k, pos, sl, tp)
  }

  /** The old protective orders fire as they did. */
  lemma FiresAfterEntry(
    s: BrokerState, k: OrderKey, pos: Position, sl: real, tp: real, t: BrokerState, c: Candle, orderType: OrderType,
    j: OrderKey)
    requires After(s, k, pos, sl, tp, t) && orderType != Limit
    ensures CandleFires(c, orderType, s, j) ==> CandleFires(c, orderType, t, j) && Level(t, j) == Level(s, j)
    ensures CandleFires(c, orderType, t, j) && j != Paper(s.book.nextOrderID) && j != Paper(s.book.nextOrderID + 1) ==>
              CandleFires(c, orderType, s, j)
  {
    OrdersAfterEntry(s.book, k, pos, sl, tp, j);
  }

  /** So do the entry's own, when their levels are crossed. */
  lemma OwnAfterEntry(
    s: BrokerState, k: OrderKey, pos: Position, sl: real, tp: real, t: BrokerState, c: Candle)
    requires After(s, k, pos, sl, tp, t) && pos.symbol == c.symbol
    ensures var stop := Paper(s.book.nextOrderID);
            && (CandleFires(c, StopMarket, t, stop) <==> Crosses(c, sl))
            && (CandleFires(c, StopMarket, t, stop) ==> Level(t, stop) == sl)
            && !CandleFires(c, TakeProfitMarket, t, stop)
    ensures var target := Paper(s.book.nextOrderID + 1);
            && (CandleFires(c, TakeProfitMarket, t, target) <==> Targeted(pos, tp) && Crosses(c, tp))
            && (CandleFires(c, TakeProfitMarket, t, target) ==> Level(t, target) == tp)
            && !CandleFires(c, StopMarket, t, target)
  {
    OrdersAfterEntry(s.book, k, pos, sl, tp, Paper(s.book.nextOrderID + 1));
  }

  lemma AfterFill(cfg: ValidConfig, s: BrokerState, c: Candle, k: OrderKey)
    requires FillsOver(cfg, s, c, k)
    ensures var o, pos := s.book.orders[k], Entering(cfg, s, k);
            After(s, k, pos, o.intendedSL, o.intendedTP, LimitAct(cfg, s, k)) && pos.symbol == c.symbol &&
            (Targeted(pos, o.intendedTP) && Crosses(c, o.intendedTP) <==> OwnTargetFires(s, c, k))
  {
    FillOverShape(cfg, s, c, k);
  }

  /** The position after such a fill, and the stops that fire then. */
  lemma StopsAfterFill(cfg: ValidConfig, s: BrokerState, c: Candle, k: OrderKey)
    requires FillsOver(cfg, s, c, k)
    ensures var t, was, own := LimitAct(cfg, s, k), s.book.positions[c.symbol].stopLoss, s.book.orders[k].intendedSL;
            && Placed(t, c.symbol) && t.book.positions[c.symbol].stopLoss == own
            && (forall j :: CandleFires(c, StopMarket, t, j) ==>
                  Crosses(c, Level(t, j)) && (Level(t, j) == was || Level(t, j) == own))
            && (Crosses(c, was) ==> exists j :: CandleFires(c, StopMarket, t, j) && Level(t, j) == was)
            && (Crosses(c, own) ==> exists j :: CandleFires(c, StopMarket, t, j) && Level(t, j) == own)
  {
    var o, pos, t, n := s.book.orders[k], Entering(cfg, s, k), LimitAct(cfg, s, k), s.book.nextOrderID;
    AfterFill(cfg, s, c, k);
    OwnAfterEntry(s, k, pos, o.intendedSL, o.intendedTP, t, c);
    var stop := TheStop(s.book, c.symbol);
    FiresAfterEntry(s, k, pos, o.intendedSL, o.intendedTP, t, c, StopMarket, stop);
    forall j | CandleFires(c, StopMarket, t, j)
      ensures j == stop || j == Paper(n)
    {
      FiresAfterEntry(s, k, pos, o.intendedSL, o.intendedTP, t, c, StopMarket, j);
    }
  }

  lemma TargetsAfterFill(cfg: ValidConfig, s: BrokerState, c: Candle, k: OrderKey)
    requires FillsOver(cfg, s, c, k)
    ensures var t, own := LimitAct(cfg, s, k), s.book.orders[k].intendedTP;
            && (forall j :: CandleFires(c, TakeProfitMarket, s, j) ==>
                  CandleFires(c, TakeProfitMarket, t, j) && Level(t, j) == Level(s, j))
            && (forall j :: CandleFires(c, TakeProfitMarket, t, j) ==>
                  (CandleFires(c, TakeProfitMarket, s, j) && Level(t, j) == Level(s, j)) ||
                  (OwnTargetFires(s, c, k) && Level(t, j) == own))
            && (OwnTargetFires(s, c, k) ==> exists j :: CandleFires(c, TakeProfitMarket, t, j) && Level(t, j) == own)
  {
    var o, pos, t, n := s.book.orders[k], Entering(cfg, s, k), LimitAct(cfg, s, k), s.book.nextOrderID;
    AfterFill(cfg, s, c, k);
    OwnAfterEntry(s, k, pos, o.intendedSL, o.intendedTP, t, c);
    forall j
      ensures CandleFires(c, TakeProfitMarket, s, j) ==>
                CandleFires(c, TakeProfitMarket, t, j) && Level(t, j) == Level(s, j)
      ensures CandleFires(c, TakeProfitMarket, t, j) && j != Paper(n + 1) ==> CandleFires(c, TakeProfitMarket, s, j)
    {
      FiresAfterEntry(s, k, pos, o.intendedSL, o.intendedTP, t, c, TakeProfitMarket, j);
    }
  }

  /** In a sound book there is one old target at most. */
  lemma OneTarget(s: BrokerState, c: Candle, i: OrderKey, j: OrderKey)
    requires Protected(s) && CandleFires(c, TakeProfitMarket, s, i) && CandleFires(c, TakeProfitMarket, s, j)
    ensures i == j
  {
    OnePerKind(s.book.positions, s.book.orders, s.book.nextOrderID, i, j);
  }

  lemma StopsContestedExactly(cfg: ValidConfig, s: BrokerState, c: Candle, k: OrderKey)
    requires FillsOver(cfg, s, c, k)
    ensures (exists i, j :: Rivals(LimitAct(cfg, s, k), c, StopMarket, i, j)) <==> StopsContested(s, c, k)
    ensures (forall i :: !CandleFires(c, StopMarket, LimitAct(cfg, s, k), i)) <==>
            !Crosses(c, s.book.positions[c.symbol].stopLoss) && !Crosses(c, s.book.orders[k].intendedSL)
  {
    var t := LimitAct(cfg, s, k);
    StopsAfterFill(cfg, s, c, k);
    if StopsContested(s, c, k) {
      var i :| CandleFires(c, StopMarket, t, i) && Level(t, i) == s.book.positions[c.symbol].stopLoss;
      var j :| CandleFires(c, StopMarket, t, j) && Level(t, j) == s.book.orders[k].intendedSL;
      assert Rivals(t, c, StopMarket, i, j);
    }
  }

  lemma TargetRivalsExactly(cfg: ValidConfig, s: BrokerState, c: Candle, k: OrderKey)
    requires FillsOver(cfg, s, c, k)
    ensures (exists i, j :: Rivals(LimitAct(cfg, s, k), c, TakeProfitMarket, i, j)) <==>
            OwnTargetFires(s, c, k) &&
            exists j :: CandleFires(c, TakeProfitMarket, s, j) && Level(s, j) != s.book.orders[k].intendedTP
  {
    var t, own := LimitAct(cfg, s, k), s.book.orders[k].intendedTP;
    TargetsAfterFill(cfg, s, c, k);
    if i :| CandleFires(c, TakeProfitMarket, s, i) && Level(s, i) != own && OwnTargetFires(s, c, k) {
      var j :| CandleFires(c, TakeProfitMarket, t, j) && Level(t, j) == own;
      assert Rivals(t, c, TakeProfitMarket, i, j);
    } else if i, j :| Rivals(t, c, TakeProfitMarket, i, j) {
      if CandleFires(c, TakeProfitMarket, s, i) && CandleFires(c, TakeProfitMarket, s, j) {
        OneTarget(s, c, i, j);
      }
    }
  }

  lemma FillContestsExactly(cfg: ValidConfig, s: BrokerState, c: Candle, k: OrderKey)
    requires FillsOver(cfg, s, c, k)
    ensures Contested(LimitAct(cfg, s, k), c) <==> StopsContested(s, c, k) || TargetsContested(s, c, k)
  {
    StopsContestedExactly(cfg, s, c, k);
    TargetRivalsExactly(cfg, s, c, k);
  }

  /** On a sound book nothing competes. */
  lemma SoundUncontested(t: BrokerState, c: Candle)
    requires Protected(t)
    ensures !Contested(t, c)
  {
    if orderType, i, j :| (orderType == StopMarket || orderType == TakeProfitMarket) && Rivals(t, c, orderType, i, j) {
      OnePerKind(t.book.positions, t.book.orders, t.book.nextOrderID, i, j);
    }
  }

  /** After any other limit loop the book is sound. */
  lemma OtherwiseSound(cfg: ValidConfig, s: BrokerState, c: Candle)
    requires Protected(s) && OneLimitFires(s, c) && forall k :: !FillsOver(cfg, s, c, k)
    ensures Protected(AfterFills(cfg, s, c)) && !Contested(AfterFills(cfg, s, c), c)
  {
    if k :| LimitFires(c, s, k) {
      assert Armed(s.book.orders[k]);
      assert !FillsOver(cfg, s, c, k);
      LimitActKeeps(cfg, s, k);
    }
    SoundUncontested(AfterFills(cfg, s, c), c);
  }

  lemma ContestsFromBefore(cfg: ValidConfig, s: BrokerState, c: Candle)
    requires Protected(s) && OneLimitFires(s, c)
    ensures Contested(AfterFills(cfg, s, c), c) <==> FillContests(cfg, s, c)
    ensures FillContests(cfg, s, c) ==> Placed(AfterFills(cfg, s, c), c.symbol)
    ensures c.symbol in AfterFills(cfg, s, c).book.positions ==> Placed(AfterFills(cfg, s, c), c.symbol)
  {
    if k :| FillsOver(cfg, s, c, k) {
      FillContestsExactly(cfg, s, c, k);
      StopsAfterFill(cfg, s, c, k);
    } else {
      OtherwiseSound(cfg, s, c);
      var t := AfterFills(cfg, s, c);
      assert c.symbol in t.book.positions ==> Guarded(t.book.positions, t.book.orders, c.symbol);
    }
  }

  /** Without a position on a sound book nothing fires, and the loops come to nothing. */
  lemma FlatAgrees(cfg: ValidConfig, t: BrokerState, c: Candle)
    requires Protected(t) && c.symbol !in t.book.positions
    ensures AllAgree(cfg, t, c)
  {
    forall one: CandleSchedule, two: CandleSchedule | Completes(cfg, t, c, one) && Completes(cfg, t, c, two)
      ensures Finish(cfg, t, c, one) == Finish(cfg, t, c, two)
    {
      NothingFires(cfg, t, c, one);
      NothingFires(cfg, t, c, two);
    }
  }

  lemma NothingFires(cfg: ValidConfig, t: BrokerState, c: Candle, sched: CandleSchedule)
    requires Protected(t) && c.symbol !in t.book.positions
    ensures Finish(cfg, t, c, sched) == t
  {
    assert forall k :: k in t.book.orders ==> Owned(t.book.positions, t.book.orders[k]);
    assert ComingUp(c, StopMarket, t, sched.stops) == {} && ComingUp(c, TakeProfitMarket, t, sched.targets) == {};
    QuietPass(cfg, t, c, StopMarket, sched.stops);
    QuietPass(cfg, t, c, TakeProfitMarket, sched.targets);
  }

  /**
   With one limit order firing at most, all complete iteration orders of a candle come to one state exactly when its
   fill does not set its stop or target against the old position's. (That they agree needs no bound on the costs.)
   */
  lemma CandleOrderIndependent(cfg: ValidConfig, s: BrokerState, c: Candle)
    requires SingleFill(s, c)
    ensures !FillContests(cfg, Priced(s, c.symbol, c.close), c) ==> CandlesAgree(cfg, s, c)
    ensures CostsBelowPrice(cfg) ==>
              (CandlesAgree(cfg, s, c) <==> !FillContests(cfg, Priced(s, c.symbol, c.close), c))
  {
    var s0 := Priced(s, c.symbol, c.close);
    var t := AfterFills(cfg, s0, c);
    AgreeFromFills(cfg, s, c);
    ContestsFromBefore(cfg, s0, c);
    if c.symbol in t.book.positions {
      if CostsBelowPrice(cfg) {
        ContestedExactly(cfg, t, c);
      }
      if !Contested(t, c) {
        forall one: CandleSchedule, two: CandleSchedule | Completes(cfg, t, c, one) && Completes(cfg, t, c, two)
          ensures Finish(cfg, t, c, one) == Finish(cfg, t, c, two)
        {
          UncontestedAgrees(cfg, t, c, one, two);
        }
      }
    } else {
      assert forall k :: !FillsOver(cfg, s0, c, k) by {
        if k :| FillsOver(cfg, s0, c, k) {
          StopsAfterFill(cfg, s0, c, k);
        }
      }
      OtherwiseSound(cfg, s0, c);
      FlatAgrees(cfg, t, c);
    }
  }

  /** The stop of a position the fill went over is crossed as well, and meets `p`. */
  ghost predicate OldStopMeets(cfg: ValidConfig, s: BrokerState, c: Candle, p: real -> bool) {
    exists k :: FillsOver(cfg, s, c, k) && Crosses(c, s.book.positions[c.symbol].stopLoss) &&
                p(s.book.positions[c.symbol].stopLoss)
  }

  /** The stops that fire after the limit loop: the position's own, and the old one if the fill went over a position. */
  lemma FiringStops(cfg: ValidConfig, s: BrokerState, c: Candle, p: real -> bool)
    requires Protected(s) && OneLimitFires(s, c)
    requires var t := AfterFills(cfg, s, c);
             c.symbol in t.book.positions && Crosses(c, t.book.positions[c.symbol].stopLoss) &&
             !p(t.book.positions[c.symbol].stopLoss)
    ensures var t := AfterFills(cfg, s, c);
            && Placed(t, c.symbol) && (exists j :: CandleFires(c, StopMarket, t, j))
            && ((forall j :: CandleFires(c, StopMarket, t, j) ==> !p(Level(t, j))) <==> !OldStopMeets(cfg, s, c, p))
  {
    var t := AfterFills(cfg, s, c);
    ContestsFromBefore(cfg, s, c);
    if k :| FillsOver(cfg, s, c, k) {
      StopsAfterFill(cfg, s, c, k);
    } else {
      OtherwiseSound(cfg, s, c);
      var stop := TheStop(t.book, c.symbol);
      assert CandleFires(c, StopMarket, t, stop);
    }
  }

  /** Every complete order of the candle exits, at this price, the position that is open after its limit loop. */
  ghost predicate ExitsAt(cfg: ValidConfig, s: BrokerState, c: Candle, price: real)
    requires c.symbol in AfterFills(cfg, Priced(s, c.symbol, c.close), c).book.positions
  {
    forall sched: CandleSchedule :: CandleCovered(cfg, s, c, sched) ==>
      SettledAt(cfg, AfterFills(cfg, Priced(s, c.symbol, c.close), c), c.symbol, price, AtCandle(cfg, s, c, sched))
  }

  lemma ExitsFromFills(cfg: ValidConfig, s: BrokerState, c: Candle, price: real)
    requires SingleFill(s, c) && c.symbol in AfterFills(cfg, Priced(s, c.symbol, c.close), c).book.positions
    ensures ExitsAt(cfg, s, c, price) <==> AllSettleAt(cfg, AfterFills(cfg, Priced(s, c.symbol, c.close), c), c, price)
  {
    var t := AfterFills(cfg, Priced(s, c.symbol, c.close), c);
    forall sched: CandleSchedule | CandleCovered(cfg, s, c, sched)
      ensures Completes(cfg, t, c, sched) && AtCandle(cfg, s, c, sched) == Finish(cfg, t, c, sched)
    {
      CandleFromFills(cfg, s, c, sched);
    }
    if sched: CandleSchedule :| Completes(cfg, t, c, sched) &&
                                !SettledAt(cfg, t, c.symbol, price, Finish(cfg, t, c, sched)) {
      var full := Covering(cfg, s, c, sched);
    }
  }

  /**
   Once a candle crosses the stop of the position that is open after its limit loop, every complete iteration order
   exits there exactly when the fill is refused, lands on a free symbol, or the old stop is not crossed or lies at that
   level. (That they do so needs no bound on the costs.)
   */
  lemma StopFirst(cfg: ValidConfig, s: BrokerState, c: Candle)
    requires SingleFill(s, c)
    requires var t := AfterFills(cfg, Priced(s, c.symbol, c.close), c);
             c.symbol in t.book.positions && Crosses(c, t.book.positions[c.symbol].stopLoss)
    ensures var stop := AfterFills(cfg, Priced(s, c.symbol, c.close), c).book.positions[c.symbol].stopLoss;
            var other := OldStopMeets(cfg, Priced(s, c.symbol, c.close), c, (level: real) => level != stop);
            (!other ==> ExitsAt(cfg, s, c, stop)) && (CostsBelowPrice(cfg) ==> (ExitsAt(cfg, s, c, stop) <==> !other))
  {
    var s0 := Priced(s, c.symbol, c.close);
    var t := AfterFills(cfg, s0, c);
    var stop := t.book.positions[c.symbol].stopLoss;
    FiringStops(cfg, s0, c, (level: real) => level != stop);
    OwnStopExactly(cfg, t, c);
    ExitsFromFills(cfg, s, c, stop);
  }

  /**
   And no complete order nets more than the position's target would have exactly when that holds, or the old stop is no
   better an exit than the target.
   */
  lemma StopIsNoBetter(cfg: ValidConfig, s: BrokerState, c: Candle, target: real)
    requires CostsBelowPrice(cfg) && SingleFill(s, c)
    requires var t := AfterFills(cfg, Priced(s, c.symbol, c.close), c);
             c.symbol in t.book.positions && Crosses(c, t.book.positions[c.symbol].stopLoss) &&
             !BetterExit(t.book.positions[c.symbol].side, t.book.positions[c.symbol].stopLoss, target)
    ensures var t := AfterFills(cfg, Priced(s, c.symbol, c.close), c);
            var pos := t.book.positions[c.symbol];
            (forall sched: CandleSchedule :: CandleCovered(cfg, s, c, sched) ==>
               Realized(t, AtCandle(cfg, s, c, sched)) <= ExitNet(cfg, pos, target)) <==>
            !OldStopMeets(cfg, Priced(s, c.symbol, c.close), c, (level: real) => BetterExit(pos.side, level, target))
  {
    var s0 := Priced(s, c.symbol, c.close);
    var t := AfterFills(cfg, s0, c);
    var pos := t.book.positions[c.symbol];
    FiringStops(cfg, s0, c, (level: real) => BetterExit(pos.side, level, target));
    NoBetterExactly(cfg, t, c, target);
    forall sched: CandleSchedule | CandleCovered(cfg, s, c, sched)
      ensures Completes(cfg, t, c, sched) && AtCandle(cfg, s, c, sched) == Finish(cfg, t, c, sched)
    {
      CandleFromFills(cfg, s, c, sched);
    }
    if sched: CandleSchedule :| Completes(cfg, t, c, sched) &&
                                Realized(t, Finish(cfg, t, c, sched)) > ExitNet(cfg, pos, target) {
      var full := Covering(cfg, s, c, sched);
    }
  }
}
