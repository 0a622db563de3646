/** The paper broker itself: fields updated in place, proved to take exactly the steps of BrokerModel. */
module PaperBrokers {
  import opened Numbers
  import opened Domain
  import opened BrokerModel
  import opened BrokerMoney
  import opened Rehydration
  import Folds

  class PaperBroker {
    const cfg: ValidConfig

    var balance: real
    var usedMargin: real
    var realizedPnL: real
    var totalFees: real
    var totalSlippage: real
    var dailyLoss: real
    var openPositions: map<string, Position>
    var openOrders: map<OrderKey, Order>
    var closedPositions: seq<Position>
    var nextOrderID: int
    var nextPositionID: int
    var nextExecID: int
    var prices: map<string, real>
    var halted: bool
    ghost var journal: seq<JournalEntry>

    ghost function Funds(): Wallet
      reads this
    {
      Wallet(balance, usedMargin, realizedPnL, totalFees, totalSlippage, dailyLoss)
    }

    ghost function Snapshot(): BrokerState
      reads this
    {
      BrokerState(Book(openPositions, openOrders, nextOrderID), Funds(), closedPositions, nextPositionID, nextExecID,
          prices, halted, journal)
    }

    constructor (cfg: ValidConfig)
      ensures this.cfg == cfg && Snapshot() == Fresh(cfg)
    {
      this.cfg := cfg;
      balance, usedMargin, realizedPnL, totalFees, totalSlippage, dailyLoss := cfg.startingBalance, 0.0, 0.0, 0.0, 0.0,
          0.0;
      openPositions, openOrders, closedPositions := map[], map[], [];
      nextOrderID, nextPositionID, nextExecID := 1, 1, 1;
      prices, halted, journal := map[], false, [];
    }

    // -------------------------------------------------------------- closing

    method CancelSiblingOrders(pos: Position)
      modifies this`openOrders
      ensures openOrders == CancelSiblings(old(openOrders), pos)
    {
      var todo := openOrders.Keys;
      while todo != {}
        invariant todo <= openOrders.Keys <= old(openOrders).Keys
        invariant forall k :: k in openOrders ==>
                    openOrders[k] == old(openOrders)[k] && (k in todo || !Protects(openOrders[k], pos))
        invariant forall k :: k in old(openOrders) && k !in openOrders ==> Protects(old(openOrders)[k], pos)
        decreases |todo|
      {
        var k :| k in todo;
        todo := todo - {k};
        if Protects(openOrders[k], pos) {
          openOrders := openOrders - {k};
        }
      }
    }

    /** The wallet side of an exit; `pnl` is before the fee. */
    method SettleExit(pnl: real, fee: real, slippage: real, margin: real)
      modifies this`balance, this`usedMargin, this`realizedPnL, this`totalFees, this`totalSlippage, this`dailyLoss
      ensures Funds() == Settle(old(Funds()), pnl, fee, slippage, margin)
    {
      var net := pnl - fee;
      balance := balance + net;
      usedMargin := usedMargin - margin;
      realizedPnL := realizedPnL + net;
      totalFees := totalFees + fee;
      totalSlippage := totalSlippage + slippage;
      if net < 0.0 {
        dailyLoss := dailyLoss + Abs(net);
      }
    }

    method ClosePositionInternalWithOrder(pos: Position, price: real, closingOrder: Option<Order>)
      modifies this
      ensures Snapshot() == CloseOut(cfg, old(Snapshot()), pos, price, closingOrder.None?)
    {
      var slippageAmt := Bps(price, cfg.slippageBps);
      var exitPrice := if pos.side == Long then price - slippageAmt else price + slippageAmt;
      var pnl := if pos.side == Long then (exitPrice - pos.entryPrice) * pos.size
          else (pos.entryPrice - exitPrice) * pos.size;
      var fee := Bps(exitPrice * pos.size, cfg.feeTakerBps);
      assert pnl == ExitGross(cfg, pos, price) && fee == ExitFee(cfg, pos, price);
      LeaveBook(pos, pnl, fee, Times(slippageAmt, pos.size), closingOrder.None?);
    }

    method LeaveBook(pos: Position, pnl: real, fee: real, slippage: real, synthetic: bool)
      modifies this
      ensures Snapshot() == Exit(old(Snapshot()), pos, pnl, fee, slippage, synthetic)
    {
      RemovePosition(pos, synthetic);
      SettleExit(pnl, fee, slippage, pos.margin);
      closedPositions := closedPositions + [pos.(realizedPnL := pnl - fee, open := false)];
      nextExecID := nextExecID + 1;
      journal := journal + [Exited(pnl, fee, pos.realizedPnL)];
    }

    method RemovePosition(pos: Position, synthetic: bool)
      modifies this`openPositions, this`openOrders, this`nextOrderID
      ensures openPositions == old(openPositions) - {pos.symbol} && openOrders == CancelSiblings(old(openOrders), pos)
      ensures nextOrderID == old(nextOrderID) + if synthetic then 1 else 0
    {
      CancelSiblingOrders(pos);
      openPositions := openPositions - {pos.symbol};
      if synthetic {
        nextOrderID := nextOrderID + 1;
      }
    }

    method ReducePosition(pos: Position, qty: real, fillPrice: real, fee: real, slippageAmt: real)
      requires qty > 0.0
      modifies this
      ensures Snapshot() == Reduce(cfg, old(Snapshot()), pos, qty, fillPrice, fee, slippageAmt)
    {
      if qty >= pos.size {
        ClosePositionInternalWithOrder(pos, fillPrice, None);
        return;
      }
      var pnl := if pos.side == Long then (fillPrice - pos.entryPrice) * qty else (pos.entryPrice - fillPrice) * qty;
      assert pnl == Gross(pos.side, pos.entryPrice, fillPrice, qty);
      LeaveInPart(pos, qty, pnl, fee, Times(slippageAmt, qty), ShareOf(pos.margin, qty, pos.size));
    }

    method LeaveInPart(pos: Position, qty: real, pnl: real, fee: real, slippage: real, marginFreed: real)
      modifies this
      ensures Snapshot() == ExitPart(old(Snapshot()), pos, qty, pnl, fee, slippage, marginFreed)
    {
      ghost var s := Snapshot();
      var rest := pos.(size := pos.size - qty, margin := pos.margin - marginFreed,
          realizedPnL := pos.realizedPnL + (pnl - fee));
      journal := journal + [Exited(pnl, fee, 0.0)];
      openPositions := openPositions[pos.symbol := rest];
      SettleExit(pnl, fee, slippage, marginFreed);
      assert Snapshot().book == s.book.(positions := s.book.positions[pos.symbol := rest]);
    }

    // -------------------------------------------------------------- protective orders

    method CreateProtectiveOrdersForPosition(pos: Position, slPrice: real, tpPrice: real) returns (survived: bool)
      modifies this
      ensures survived <==> !StopInvalid(pos, slPrice)
      ensures survived ==> Snapshot() == old(Snapshot()).(book := AddProtection(old(Snapshot()).book, pos, slPrice,
                tpPrice))
      ensures !survived ==> Snapshot() == CloseOut(cfg, old(Snapshot()), pos, pos.entryPrice, true)
    {
      if slPrice <= 0.0 && tpPrice <= 0.0 {
        return true;
      }
      if slPrice > 0.0 {
        if pos.side == Long && slPrice >= pos.entryPrice {
          ClosePositionInternalWithOrder(pos, pos.entryPrice, None);
          return false;
        }
        if pos.side == Short && slPrice <= pos.entryPrice {
          ClosePositionInternalWithOrder(pos, pos.entryPrice, None);
          return false;
        }
      }
      var tp := tpPrice;
      if tp > 0.0 {
        if pos.side == Long && tp <= pos.entryPrice {
          tp := 0.0;
        }
        if pos.side == Short && tp >= pos.entryPrice {
          tp := 0.0;
        }
      }
      AddProtectiveOrders(pos, slPrice, tp);
      return true;
    }

    /** The stop and the target, each under the next number and linked as soon as it is stored. */
    method AddProtectiveOrders(pos: Position, slPrice: real, tp: real)
      requires tp > 0.0 ==> TargetOnWinningSide(pos.side, pos.entryPrice, tp)
      modifies this`openPositions, this`openOrders, this`nextOrderID
      ensures Snapshot().book == AddProtection(old(Snapshot()).book, pos, slPrice, tp)
    {
      var linked := pos;
      if slPrice > 0.0 {
        var slOrder := ProtectiveOrder(nextOrderID, pos, StopMarket, slPrice);
        nextOrderID := nextOrderID + 1;
        openOrders := openOrders[slOrder.key := slOrder];
        linked := linked.(slOrderID := Some(slOrder.id));
        openPositions := openPositions[pos.symbol := linked];
      }
      if tp > 0.0 {
        var tpOrder := ProtectiveOrder(nextOrderID, pos, TakeProfitMarket, tp);
        nextOrderID := nextOrderID + 1;
        openOrders := openOrders[tpOrder.key := tpOrder];
        linked := linked.(tpOrderID := Some(tpOrder.id));
        openPositions := openPositions[pos.symbol := linked];
      }
    }

    /** The common tail of both kinds of fill: position and margin first, protective orders next, labels last. */
    method OpenPosition(pos: Position, fee: real, slippage: real, sl: real, tp: real) returns (survived: bool)
      modifies this
      ensures survived <==> !StopInvalid(pos, sl)
      ensures Snapshot() == OpenAt(cfg, old(Snapshot()), pos, fee, slippage, sl, tp)
    {
      EnterPosition(pos, fee, slippage);
      survived := CreateProtectiveOrdersForPosition(pos, sl, tp);
      if survived {
        if pos.symbol in openPositions {
          openPositions := openPositions[pos.symbol := openPositions[pos.symbol].(stopLoss := sl, takeProfit := tp)];
        }
        nextExecID := nextExecID + 1;
      }
    }

    method EnterPosition(pos: Position, fee: real, slippage: real)
      modifies this
      ensures Snapshot() == Enter(old(Snapshot()), pos, fee, slippage)
    {
      journal := journal + EntryRecord(Book(openPositions, openOrders, nextOrderID), pos.symbol, fee);
      nextPositionID := nextPositionID + 1;
      openPositions := openPositions[pos.symbol := pos];
      CommitEntry(pos.margin, fee, slippage);
    }

    method CommitEntry(margin: real, fee: real, slippage: real)
      modifies this`balance, this`usedMargin, this`totalFees, this`totalSlippage
      ensures Funds() == Commit(old(Funds()), margin, fee, slippage)
    {
      usedMargin := usedMargin + margin;
      balance := balance - fee;
      totalFees := totalFees + fee;
      totalSlippage := totalSlippage + slippage;
    }

    // -------------------------------------------------------------- orders from outside

    method FillMarketOrder(
      req: OrderRequest, fillPrice: real, margin: real, fee: real, slippageAmt: real)
      returns (survived: bool)
      requires req.qty > 0.0
      modifies this
      ensures Snapshot() == FillMarket(cfg, old(Snapshot()), req, fillPrice, margin, fee, slippageAmt)
      ensures survived <==> (req.symbol in old(openPositions) && req.reduceOnly) ||
                            !(req.stopLoss > 0.0 && !StopOnLosingSide(SideOf(req.side), fillPrice, req.stopLoss))
    {
      var hasPos := req.symbol in openPositions;
      if hasPos && !req.reduceOnly {
        ClosePositionInternalWithOrder(openPositions[req.symbol], fillPrice, None);
        hasPos := false;
      }
      if hasPos && req.reduceOnly {
        ReducePosition(openPositions[req.symbol], req.qty, fillPrice, fee, slippageAmt);
        survived := true;
      } else {
        var pos := Position(nextPositionID, req.symbol, SideOf(req.side), fillPrice, req.qty, cfg.leverage, margin,
                            0.0, 0.0, None, None, 0.0, true);
        survived := OpenPosition(pos, fee, Times(slippageAmt, req.qty), req.stopLoss, req.takeProfit);
      }
    }

    method PlaceMarketOrder(req: OrderRequest) returns (r: Outcome)
      requires req.qty > 0.0
      modifies this
      ensures (Snapshot(), r) == PlaceMarket(cfg, old(Snapshot()), req)
    {
      var order := NewOrder(nextOrderID, req);
      nextOrderID := nextOrderID + 1;
      if req.symbol !in prices || prices[req.symbol] <= 0.0 {
        return Refused;
      }
      var price := prices[req.symbol];
      var slippageAmt := Bps(price, cfg.slippageBps);
      var fillPrice := if req.side == Buy then price + slippageAmt else price - slippageAmt;
      if !req.reduceOnly && req.stopLoss > 0.0 && !StopOnLosingSide(SideOf(req.side), fillPrice, req.stopLoss) {
        return Refused;
      }
      var fee := TakerFee(cfg, req, fillPrice);
      var margin := MarginFor(cfg, fillPrice, req.qty);
      if balance - usedMargin < margin + fee {
        return Refused;
      }
      r := ExecuteMarketOrder(req, order, fillPrice, margin, fee, slippageAmt);
    }

    /** The fill once every check has passed, and what is reported of it. */
    method ExecuteMarketOrder(
      req: OrderRequest, order: Order, fillPrice: real, margin: real, fee: real, slippageAmt: real)
      returns (r: Outcome)
      requires req.qty > 0.0
      modifies this
      ensures Snapshot() == FillMarket(cfg, old(Snapshot()), req, fillPrice, margin, fee, slippageAmt)
      ensures r == if req.symbol in old(openPositions) && req.reduceOnly then Accepted(order)
                   else if req.stopLoss > 0.0 && !StopOnLosingSide(SideOf(req.side), fillPrice, req.stopLoss)
                       then Refused
                   else Accepted(order.(status := Filled))
    {
      var reducing := req.symbol in openPositions && req.reduceOnly;
      var survived := FillMarketOrder(req, fillPrice, margin, fee, slippageAmt);
      r := if reducing then Accepted(order) else if survived then Accepted(order.(status := Filled)) else Refused;
    }

    method PlaceRestingOrder(req: OrderRequest) returns (r: Outcome)
      modifies this`openOrders, this`nextOrderID
      ensures (Snapshot(), r) == PlaceResting(old(Snapshot()), req)
    {
      var order := NewOrder(nextOrderID, req);
      nextOrderID := nextOrderID + 1;
      var level := if req.orderType == Limit then req.price else req.stopPrice;
      if level.None? || level.value <= 0.0 {
        return Refused;
      }
      openOrders := openOrders[order.key := order];
      return Accepted(order);
    }

    method PlaceOrder(req: OrderRequest) returns (r: Outcome)
      modifies this
      ensures (Snapshot(), r) == Place(cfg, old(Snapshot()), req)
    {
      if req.qty <= 0.0 || req.symbol == "" {
        return Refused;
      }
      if halted && req.stopPrice.None? && !req.reduceOnly && (req.orderType == Market || req.orderType == Limit) {
        return Refused;
      }
      if !req.reduceOnly && (req.orderType == Market || req.orderType == Limit) && req.stopLoss <= 0.0 {
        return Refused;
      }
      if req.orderType == Market {
        r := PlaceMarketOrder(req);
      } else {
        r := PlaceRestingOrder(req);
      }
    }

    method CancelOrder(key: OrderKey) returns (found: bool)
      modifies this`openOrders
      ensures found <==> key in old(openOrders)
      ensures Snapshot() == Step(cfg, old(Snapshot()), Op.CancelOrder(key))
    {
      found := key in openOrders;
      openOrders := openOrders - {key};
    }

    method ClosePosition(symbol: string) returns (ok: bool)
      modifies this
      ensures Snapshot() == Step(cfg, old(Snapshot()), CloseSymbol(symbol))
      ensures ok <==> symbol in old(openPositions) && Quoted(old(Snapshot()), symbol)
    {
      if symbol !in openPositions || symbol !in prices || prices[symbol] <= 0.0 {
        return false;
      }
      ClosePositionInternalWithOrder(openPositions[symbol], prices[symbol], None);
      return true;
    }

    method EmergencyCloseAll() returns (ghost order: seq<string>)
      modifies this
      ensures Folds.Covers(order, old(openPositions).Keys)
      ensures Snapshot() == Step(cfg, old(Snapshot()), Op.EmergencyCloseAll(order))
    {
      openOrders := map[];
      ghost var s0 := Snapshot();
      var todo := openPositions.Keys;
      order := [];
      while todo != {}
        invariant Snapshot() == Folds.Sweep(s0, order, StillOpen(), EmergencyActing(cfg))
        invariant forall sym :: sym in old(openPositions) ==> sym in todo || sym in order
        decreases |todo|
      {
        var symbol :| symbol in todo;
        todo := todo - {symbol};
        Folds.SweepAppend(s0, order, symbol, StillOpen(), EmergencyActing(cfg));
        order := order + [symbol];
        if symbol in openPositions {
          var pos := openPositions[symbol];
          var price := if symbol in prices && prices[symbol] > 0.0 then prices[symbol] else pos.entryPrice;
          ClosePositionInternalWithOrder(pos, price, None);
        }
      }
    }

    // -------------------------------------------------------------- prices

    method TriggerProtectiveOrder(order: Order, price: real)
      modifies this
      ensures Snapshot() == if order.symbol in old(openPositions)
                            then CloseOut(cfg, old(Snapshot()), old(openPositions)[order.symbol], price, false)
                                else old(Snapshot())
    {
      if order.symbol in openPositions {
        ClosePositionInternalWithOrder(openPositions[order.symbol], price, Some(order));
      }
    }

    method SetSymbolPrice(symbol: string, price: real)
      modifies this`prices
      ensures Snapshot() == Step(cfg, old(Snapshot()), Op.SetSymbolPrice(symbol, price))
    {
      prices := prices[symbol := price];
    }

    method UpdatePrice(symbol: string, price: real) returns (ghost visits: seq<OrderKey>)
      modifies this
      ensures Folds.Covers(visits, old(openOrders).Keys)
      ensures Snapshot() == Step(cfg, old(Snapshot()), Op.UpdatePrice(symbol, price, visits))
    {
      prices := prices[symbol := price];
      ghost var s0 := Snapshot();
      var todo := openOrders.Keys;
      visits := [];
      while todo != {}
        invariant Snapshot() == TickPass(cfg, s0, symbol, price, visits)
        invariant forall k :: k in old(openOrders) ==> k in todo || k in visits
        decreases |todo|
      {
        var k :| k in todo;
        todo := todo - {k};
        Folds.SweepAppend(s0, visits, k, TickFiring(symbol, price), TickActing(cfg, price));
        visits := visits + [k];
        CheckTickLevel(symbol, price, k);
      }
    }

    /** One turn of the loop over the stored orders. */
    method CheckTickLevel(symbol: string, price: real, k: OrderKey)
      modifies this
      ensures Snapshot() == Folds.Visit(old(Snapshot()), k, TickFiring(symbol, price), TickActing(cfg, price))
    {
      if k in openOrders && openOrders[k].symbol == symbol && openOrders[k].stopPrice.Some? && symbol in openPositions {
        var order := openOrders[k];
        var side := openPositions[symbol].side;
        if (order.orderType == StopMarket && StopHit(side, order.stopPrice.value, price)) ||
           (order.orderType == TakeProfitMarket && TargetHit(side, order.stopPrice.value, price)) {
          TriggerProtectiveOrder(order, price);
          openOrders := openOrders - {k};
        }
      }
    }

    // -------------------------------------------------------------- candles

    method FillLimitOrder(order: Order)
      requires order.price.Some?
      modifies this
      ensures Snapshot() == FillLimit(cfg, old(Snapshot()), order)
    {
      var fillPrice := order.price.value;
      if order.intendedSL > 0.0 && !StopOnLosingSide(SideOf(order.side), fillPrice, order.intendedSL) {
        return;
      }
      var fee := MakerFee(cfg, order, fillPrice);
      var margin := MarginFor(cfg, fillPrice, order.qty);
      if balance - usedMargin < margin + fee {
        return;
      }
      var pos := Position(nextPositionID, order.symbol, SideOf(order.side), fillPrice, order.qty, cfg.leverage, margin,
                          0.0, 0.0, None, None, 0.0, true);
      if order.intendedSL > 0.0 || order.intendedTP > 0.0 {
        var _ := OpenPosition(pos, fee, 0.0, order.intendedSL, order.intendedTP);
      } else {
        EnterPosition(pos, fee, 0.0);
        ClosePositionInternalWithOrder(pos, fillPrice, None);
      }
    }

    method FillLimitOrders(c: Candle) returns (ghost visits: seq<OrderKey>)
      modifies this
      ensures Folds.Covers(visits, old(openOrders).Keys)
      ensures Snapshot() == LimitPass(cfg, old(Snapshot()), c, visits)
    {
      ghost var s0 := Snapshot();
      var todo := openOrders.Keys;
      visits := [];
      while todo != {}
        invariant Snapshot() == LimitPass(cfg, s0, c, visits)
        invariant forall k :: k in old(openOrders) ==> k in todo || k in visits
        decreases |todo|
      {
        var k :| k in todo;
        todo := todo - {k};
        Folds.SweepAppend(s0, visits, k, LimitFiring(c), LimitActing(cfg));
        visits := visits + [k];
        if k in openOrders && openOrders[k].symbol == c.symbol && openOrders[k].orderType == Limit &&
            WouldFill(openOrders[k], c) {
          FillLimitOrder(openOrders[k]);
          openOrders := openOrders - {k};
        }
      }
    }

    method CheckCandleLevel(c: Candle, orderType: OrderType) returns (triggered: bool, ghost visits: seq<OrderKey>)
      modifies this
      ensures Folds.Covers(visits, old(openOrders).Keys)
      ensures PassState(Snapshot(), triggered) == CandlePass(cfg, old(Snapshot()), c, orderType, visits)
    {
      ghost var p0 := PassState(Snapshot(), false);
      var todo := openOrders.Keys;
      triggered, visits := false, [];
      while todo != {}
        invariant PassState(Snapshot(), triggered)
                    == Folds.Sweep(p0, visits, CandleFiring(c, orderType), CandleActing(cfg))
        invariant forall k :: k in old(openOrders) ==> k in todo || k in visits
        decreases |todo|
      {
        var k :| k in todo;
        todo := todo - {k};
        Folds.SweepAppend(p0, visits, k, CandleFiring(c, orderType), CandleActing(cfg));
        visits := visits + [k];
        if k in openOrders && openOrders[k].symbol == c.symbol && openOrders[k].orderType == orderType &&
           openOrders[k].stopPrice.Some? && Crosses(c, openOrders[k].stopPrice.value) {
          TriggerProtectiveOrder(openOrders[k], openOrders[k].stopPrice.value);
          openOrders := openOrders - {k};
          triggered := true;
        }
      }
    }

    method ProcessCandle(c: Candle) returns (ghost passes: CandleSchedule)
      modifies this
      ensures CandleCovered(cfg, old(Snapshot()), c, passes)
      ensures Snapshot() == Step(cfg, old(Snapshot()), Op.ProcessCandle(c, passes))
    {
      prices := prices[c.symbol := c.close];
      ghost var limits := FillLimitOrders(c);
      var slTriggered, stops := CheckCandleLevel(c, StopMarket);
      ghost var targets: seq<OrderKey> := [];
      if !slTriggered {
        var _, t := CheckCandleLevel(c, TakeProfitMarket);
        targets := t;
      }
      passes := CandleSchedule(limits, stops, targets);
    }

    // -------------------------------------------------------------- levels, halting, day boundary

    method SetProtectiveOrders(symbol: string, slPrice: real, tpPrice: real) returns (ok: bool)
      modifies this
      ensures Snapshot() == Step(cfg, old(Snapshot()), Op.SetProtectiveOrders(symbol, slPrice, tpPrice))
      ensures ok <==>
                slPrice > 0.0 && symbol in old(openPositions) && symbol != "" &&
                    old(openPositions)[symbol].size > 0.0 &&
                LevelsValid(old(openPositions)[symbol], slPrice, tpPrice)
    {
      if slPrice <= 0.0 || symbol !in openPositions {
        return false;
      }
      var pos := openPositions[symbol];
      CancelSiblingOrders(pos);
      if !LevelsValid(pos, slPrice, tpPrice) || pos.size <= 0.0 || symbol == "" {
        return false;
      }
      LinkProtective(symbol, pos, slPrice, tpPrice);
      return true;
    }

    /** The new pair under the next numbers, linked and recorded; without a target the old target's link stays. */
    method LinkProtective(symbol: string, pos: Position, slPrice: real, tpPrice: real)
      modifies this`openPositions, this`openOrders, this`nextOrderID
      ensures var n, stop := old(nextOrderID), ProtectiveOrder(old(nextOrderID), pos, StopMarket, slPrice);
              if tpPrice > 0.0
              then nextOrderID == n + 2 &&
                   openOrders == old(openOrders)[Paper(n) := stop]
                                                [Paper(n + 1) := ProtectiveOrder(n + 1, pos, TakeProfitMarket,
                                                    tpPrice)] &&
                   openPositions == old(openPositions)[symbol := pos.(slOrderID := Some(n), tpOrderID := Some(n + 1),
                                                                      stopLoss := slPrice, takeProfit := tpPrice)]
              else nextOrderID == n + 1 && openOrders == old(openOrders)[Paper(n) := stop] &&
                   openPositions == old(openPositions)[symbol := pos.(slOrderID := Some(n), stopLoss := slPrice)]
    {
      var slID := PlaceProtective(pos, StopMarket, slPrice);
      if tpPrice > 0.0 {
        var tpID := PlaceProtective(pos, TakeProfitMarket, tpPrice);
        openPositions := openPositions[symbol := pos.(slOrderID := Some(slID), tpOrderID := Some(tpID),
                                                      stopLoss := slPrice, takeProfit := tpPrice)];
      } else {
        openPositions := openPositions[symbol := pos.(slOrderID := Some(slID), stopLoss := slPrice)];
      }
    }

    method PlaceProtective(pos: Position, orderType: OrderType, price: real) returns (id: int)
      modifies this`openOrders, this`nextOrderID
      ensures id == old(nextOrderID) && nextOrderID == id + 1
      ensures openOrders == old(openOrders)[Paper(id) := ProtectiveOrder(id, pos, orderType, price)]
    {
      id := nextOrderID;
      nextOrderID := nextOrderID + 1;
      openOrders := openOrders[Paper(id) := ProtectiveOrder(id, pos, orderType, price)];
    }

    // -------------------------------------------------------------- restart

    method LoadPositions(
      positions: seq<Position>)
      returns (ok: bool, loaded: map<string, Position>, margin: real, nextID: int)
      ensures ok <==> AllResumable(positions)
      ensures ok ==> PositionsLoaded(positions, loaded, margin, nextID)
    {
      loaded, margin, nextID := map[], 0.0, 1;
      for i := 0 to |positions|
        invariant forall j :: 0 <= j < i ==> Resumable(positions[j])
        invariant loaded == LoadedPositions(positions[..i]) && margin == MarginSum(positions[..i])
        invariant nextID == NextPosition(positions[..i])
      {
        var p := positions[i];
        NextPositionSnoc(positions, i);
        if p.id >= nextID {
          nextID := p.id + 1;
        }
        if !Resumable(p) {
          return false, loaded, margin, nextID;
        }
        MarginSumSnoc(positions, i);
        LoadedSnoc(positions, [], i);
        loaded := loaded[p.symbol := p];
        margin := margin + p.margin;
      }
      assert positions[..|positions|] == positions;
      TotalsAreLoaded(positions);
      ok := true;
    }

    method LoadOrder(orders: seq<Order>, i: nat, before: map<OrderKey, Order>, counter: int)
      returns (loaded: map<OrderKey, Order>, nextID: int)
      requires i < |orders| && OrdersResumed(orders[..i], before, counter)
      requires before == LoadedOrders(orders[..i]) && counter == NextNumber(orders[..i])
      ensures OrdersResumed(orders[..i + 1], loaded, nextID) && nextID >= counter
      ensures loaded == LoadedOrders(orders[..i + 1]) && nextID == NextNumber(orders[..i + 1])
    {
      var o := orders[i];
      loaded, nextID := before, counter;
      if o.id >= nextID {
        nextID := o.id + 1;
      }
      OrdersResumedSnoc(orders, i, before, counter, nextID);
      LoadedSnoc([], orders, i);
      if !Dropped(o) {
        loaded := loaded[KeyOf(o) := o.(key := KeyOf(o))];
      }
    }

    method LoadOrders(orders: seq<Order>) returns (loaded: map<OrderKey, Order>, updates: bool, nextID: int)
      ensures OrdersResumed(orders, loaded, nextID) && nextID >= 1
      ensures loaded == LoadedOrders(orders) && nextID == NextNumber(orders)
      ensures updates <==> AnyUpdate(orders)
    {
      loaded, updates, nextID := map[], false, 1;
      for i := 0 to |orders|
        invariant OrdersResumed(orders[..i], loaded, nextID) && nextID >= 1
        invariant loaded == LoadedOrders(orders[..i]) && nextID == NextNumber(orders[..i])
        invariant updates <==> AnyUpdate(orders[..i])
      {
        AnyUpdateSnoc(orders, i);
        updates := updates || NeedsUpdate(orders[i]);
        loaded, nextID := LoadOrder(orders, i, loaded, nextID);
      }
      assert orders[..|orders|] == orders;
    }

    /** Restart from what the repositories answer; `updatesSucceed` says whether they accept corrected orders. */
    method Rehydrate(
      positions: Fetched<seq<Position>>, orders: Fetched<seq<Order>>, snapshot: Fetched<Option<AccountSnapshot>>,
      updatesSucceed: bool) returns (ok: bool)
      modifies this
      ensures positions.FetchFailed? || orders.FetchFailed? || snapshot.FetchFailed? ==>
                !ok && Snapshot() == old(Snapshot())
      ensures positions.Fetched? && orders.Fetched? && snapshot.Fetched? ==>
                (ok <==> AllResumable(positions.value) && (AnyUpdate(orders.value) ==> updatesSucceed)) &&
                (!ok ==> Snapshot() == old(Snapshot()).(halted := old(halted) || !AllResumable(positions.value)))
      ensures ok ==> Restarted(positions.value, orders.value, old(nextOrderID), Snapshot())
      ensures ok ==> AccountBack(old(Snapshot()), Snapshot(), positions.value, snapshot.value)
    {
      if positions.FetchFailed? || orders.FetchFailed? || snapshot.FetchFailed? {
        return false;
      }
      ok := Restart(positions.value, orders.value, snapshot.value, updatesSucceed);
    }

    method Restart(
      positions: seq<Position>, orders: seq<Order>, snapshot: Option<AccountSnapshot>, updatesSucceed: bool)
      returns (ok: bool)
      modifies this
      ensures ok <==> AllResumable(positions) && (AnyUpdate(orders) ==> updatesSucceed)
      ensures !ok ==> Snapshot() == old(Snapshot()).(halted := old(halted) || !AllResumable(positions))
      ensures ok ==> Restarted(positions, orders, old(nextOrderID), Snapshot())
      ensures ok ==> AccountBack(old(Snapshot()), Snapshot(), positions, snapshot)
    {
      var valid, loaded, margin, nextPosition := LoadPositions(positions);
      if !valid {
        SetHalted();
        return false;
      }
      var pending, updates, nextOrder := LoadOrders(orders);
      if updates && !updatesSucceed {
        return false;
      }
      Adopt(positions, orders, loaded, margin, nextPosition, pending, nextOrder, snapshot, nextOrderID);
      ok := true;
    }

    method Adopt(
      ghost positions: seq<Position>, ghost orders: seq<Order>, loaded: map<string, Position>, margin: real,
      nextPosition: int, pending: map<OrderKey, Order>, nextOrder: int, snapshot: Option<AccountSnapshot>,
      ghost counter: int)
      requires Read(positions, orders, loaded, pending, nextOrder) && counter == nextOrderID
      requires margin == MarginSum(positions) &&
                 (DistinctSymbols(positions) ==> margin == Folds.SumBy(loaded, MarginOf()))
      requires NumberedBeyond(positions, 1, nextPosition)
      modifies this
      ensures Restarted(positions, orders, counter, Snapshot())
      ensures AccountBack(old(Snapshot()), Snapshot(), positions, snapshot)
    {
      ghost var before := Snapshot();
      RestoreAccount(positions, margin, nextPosition, snapshot);
      ghost var restored := Snapshot();
      Resume(positions, orders, loaded, pending, nextOrder, counter);
      AccountStaysBack(before, restored, Snapshot(), positions, snapshot);
    }

    /** Money and position numbers first, before the book. */
    method RestoreAccount(
      ghost positions: seq<Position>, margin: real, nextPosition: int, snapshot: Option<AccountSnapshot>)
      requires NumberedBeyond(positions, 1, nextPosition)
      modifies this`balance, this`usedMargin, this`realizedPnL, this`totalFees, this`totalSlippage, this`dailyLoss
      modifies this`nextPositionID
      ensures AccountBack(old(Snapshot()), Snapshot(), positions, snapshot) && usedMargin == margin
    {
      RestoreFunds(snapshot, margin);
      NumberedFrom(positions, nextPosition, nextPositionID);
      nextPositionID := if nextPosition > nextPositionID then nextPosition else nextPositionID;
    }

    method RestoreFunds(snapshot: Option<AccountSnapshot>, margin: real)
      modifies this`balance, this`usedMargin, this`realizedPnL, this`totalFees, this`totalSlippage, this`dailyLoss
      ensures FundsBack(old(Funds()), Funds(), snapshot) && usedMargin == margin
    {
      if snapshot.Some? {
        var a := snapshot.value;
        balance, realizedPnL, totalFees, totalSlippage, dailyLoss := a.balance, a.realizedPnL, a.totalFees,
            a.totalSlippage, a.dailyLoss;
      }
      usedMargin := margin;
    }

    /** What was read from the two lists. */
    static ghost predicate Read(
      positions: seq<Position>, orders: seq<Order>, loaded: map<string, Position>, pending: map<OrderKey, Order>,
      nextOrder: int)
    {
      && PositionsBack(positions, loaded) && OrdersResumed(orders, pending, nextOrder)
      && loaded == LoadedPositions(positions) && pending == LoadedOrders(orders) && nextOrder == NextNumber(orders)
    }

    method Resume(
      ghost positions: seq<Position>, ghost orders: seq<Order>, loaded: map<string, Position>,
      pending: map<OrderKey, Order>, nextOrder: int, ghost counter: int)
      requires Read(positions, orders, loaded, pending, nextOrder) && counter == nextOrderID
      modifies this
      ensures Restored(positions, orders, counter, Snapshot().book)
      ensures Folds.SumBy(openPositions, MarginOf()) == Folds.SumBy(loaded, MarginOf())
      ensures Snapshot() == old(Snapshot()).(book := Snapshot().book)
    {
      TakeOver(loaded, pending, nextOrder);
      RepairedIsRestored(positions, orders, counter, Loaded(positions, orders, counter), Snapshot().book);
    }

    /** Install what was loaded, and repair it. */
    method TakeOver(loaded: map<string, Position>, pending: map<OrderKey, Order>, nextOrder: int)
      requires forall sym :: sym in loaded ==> loaded[sym].symbol == sym && Resumable(loaded[sym])
      modifies this
      ensures var b := Book(loaded, pending, if nextOrder > old(nextOrderID) then nextOrder else old(nextOrderID));
              Mended(b, Snapshot().book) && StopsBack(b, Snapshot().book, {}) && RecoveredFrom(b, Snapshot().book)
      ensures Snapshot() == old(Snapshot()).(book := Snapshot().book)
    {
      openPositions := loaded;
      openOrders := pending;
      nextOrderID := if nextOrder > nextOrderID then nextOrder else nextOrderID;
      RepairAll();
    }

    method RepairAll()
      requires forall sym :: sym in openPositions ==> openPositions[sym].symbol == sym && Resumable(openPositions[sym])
      modifies this
      ensures Mended(old(Snapshot().book), Snapshot().book)
      ensures StopsBack(old(Snapshot().book), Snapshot().book, {})
      ensures RecoveredFrom(old(Snapshot().book), Snapshot().book)
      ensures Snapshot() == old(Snapshot()).(book := Snapshot().book)
    {
      ghost var b := Snapshot().book;
      ghost var done := RepairStops(b);
      TurnsRecover(b, done, Recoverable(b, b.positions.Keys), b.nextOrderID + Minting(b, b.positions.Keys));
    }

    /** Repairs every position without a pending stop, one after another in an order nobody chooses. */
    method RepairStops(ghost b: Book) returns (ghost done: seq<string>)
      requires b == Snapshot().book && Turns(b, [])
      modifies this
      ensures Turns(b, done) && Rest(b, done) == {}
      ensures Snapshot() == old(Snapshot()).(book := InTurn(b, done))
    {
      var todo := openPositions.Keys;
      done := [];
      while todo != {}
        invariant Turns(b, done) && todo == Rest(b, done)
        invariant Snapshot() == old(Snapshot()).(book := InTurn(b, done))
        decreases |todo|
      {
        var symbol :| symbol in todo;
        TurnsKeep(b, done, symbol);
        TurnsSnoc(b, done, symbol);
        Repair(symbol);
        todo := todo - {symbol};
        done := done + [symbol];
      }
    }

    /** A validated stop never takes the emergency branch. */
    method Repair(symbol: string)
      requires symbol in openPositions && Resumable(openPositions[symbol])
      modifies this
      ensures Snapshot() == old(Snapshot()).(book := Turned(old(Snapshot()).book, symbol))
    {
      if !HasOpenStop(openOrders, symbol) {
        var pos := openPositions[symbol];
        var _ := CreateProtectiveOrdersForPosition(pos, pos.stopLoss, pos.takeProfit);
      }
    }

    method ResetDailyLoss()
      modifies this`dailyLoss, this`journal
      ensures Snapshot() == Step(cfg, old(Snapshot()), Op.ResetDailyLoss)
    {
      dailyLoss := 0.0;
      journal := journal + [DayReset];
    }

    method SetHalted()
      modifies this`halted
      ensures Snapshot() == Step(cfg, old(Snapshot()), Op.SetHalted)
    {
      halted := true;
    }
  }
}
