/** What a trade costs, what a fill leaves free, and what an overwriting fill loses. */
module BrokerTrades {
  import opened Numbers
  import opened Domain
  import opened BrokerModel
  import opened BrokerProtection
  import opened BrokerRuns
  import opened BrokerMoney

  /** A plain entry the broker will fill: symbol free, quoted, affordable, stop on the losing side. */
  predicate CleanEntry(cfg: ValidConfig, s: BrokerState, req: OrderRequest) {
    req.orderType == Market && !req.reduceOnly && !EarlyRefusal(s, req) && req.symbol !in s.book.positions &&
        MarketFills(cfg, s, req)
  }

  lemma CleanEntryShape(cfg: ValidConfig, s: BrokerState, req: OrderRequest)
    requires CleanEntry(cfg, s, req)
    ensures var fill := EntryFill(cfg, req.side, s.prices[req.symbol]);
            var pos := NewPosition(cfg, s, req.symbol, req.side, req.qty, fill, MarginFor(cfg, fill, req.qty));
            var t := Place(cfg, s, req).0;
            !StopInvalid(pos, req.stopLoss) &&
            t.book == Label(AddProtection(TakeNumber(s).book.(positions := s.book.positions[req.symbol := pos]), pos,
                req.stopLoss, req.takeProfit),
                            req.symbol, req.stopLoss, req.takeProfit) &&
            t.wallet == Commit(s.wallet, pos.margin, TakerFee(cfg, req, fill),
                Times(Bps(s.prices[req.symbol], cfg.slippageBps), req.qty)) &&
            t.prices == s.prices
  {
  }

  /** Removing a freshly protected position gives back the book it was entered into, whatever number its orders took. */
  lemma EntryUndone(b: Book, n: int, pos: Position, sl: real, tp: real)
    requires SoundBook(b) && n >= b.nextOrderID && pos.symbol !in b.positions && pos.slOrderID == None &&
               pos.tpOrderID == None && sl > 0.0
    ensures var c := Label(AddProtection(b.(positions := b.positions[pos.symbol := pos], nextOrderID := n), pos, sl,
              tp), pos.symbol, sl, tp);
            pos.symbol in c.positions && SameTrade(pos, c.positions[pos.symbol]) &&
            c.positions - {pos.symbol} == b.positions && CancelSiblings(c.orders, c.positions[pos.symbol]) == b.orders
  {
    var e := b.(positions := b.positions[pos.symbol := pos], nextOrderID := n);
    var c := Label(AddProtection(e, pos, sl, tp), pos.symbol, sl, tp);
    assert forall k :: k in b.orders ==> k == Paper(b.orders[k].id) && b.orders[k].id < n;
    EntryAdds(e, pos, sl, tp);
    AddedIsCancelled(b, c.orders, c.positions[pos.symbol], n);
    ProtectionMoney(e, pos, sl, tp);
    ProtectionSide(e, pos, sl, tp);
    assert c.positions - {pos.symbol} == b.positions;
  }

  predicate SameTrade(p: Position, q: Position) {
    SameMoney(p, q) && q.side == p.side
  }

  lemma ProtectionSide(b: Book, pos: Position, sl: real, tp: real)
    requires pos.symbol in b.positions && b.positions[pos.symbol] == pos
    ensures Label(AddProtection(b, pos, sl, tp), pos.symbol, sl, tp).positions[pos.symbol].side == pos.side
  {
  }

  lemma SameTradeSameExit(cfg: ValidConfig, p: Position, q: Position, price: real)
    requires SameTrade(p, q)
    ensures ExitGross(cfg, p, price) == ExitGross(cfg, q, price) && ExitFee(cfg, p, price) == ExitFee(cfg, q, price)
  {
  }

  /** The price paid twice over by one trip in and out at the same quote. */
  lemma SlippageBothWays(cfg: ValidConfig, side: OrderSide, price: real, qty: real)
    ensures Gross(SideOf(side), EntryFill(cfg, side, price), ExitFill(cfg, SideOf(side), price), qty)
              == -2.0 * Bps(price, cfg.slippageBps) * qty
  {
  }

  lemma CommitThenSettle(w: Wallet, margin: real, feeIn: real, slipIn: real, gross: real, feeOut: real, slipOut: real)
    ensures var v := Settle(Commit(w, margin, feeIn, slipIn), gross, feeOut, slipOut, margin);
            v.usedMargin == w.usedMargin && v.balance == w.balance - feeIn - feeOut + gross
  {
  }

  lemma CloseQuoted(cfg: ValidConfig, t: BrokerState, symbol: string, q: Position, price: real)
    requires symbol in t.book.positions && t.book.positions[symbol] == q && q.symbol == symbol && symbol in t.prices &&
               t.prices[symbol] == price && price > 0.0
    ensures var u := ClosePosition(cfg, t, symbol);
            u.book.positions == t.book.positions - {symbol} && u.book.orders == CancelSiblings(t.book.orders, q) &&
            u.wallet == Settle(t.wallet, ExitGross(cfg, q, price), ExitFee(cfg, q, price),
                Times(Bps(price, cfg.slippageBps), q.size), q.margin)
  {
  }

  lemma EnteredFrom(b: Book, pos: Position, sl: real, tp: real, c: Book) returns (q: Position)
    requires SoundBook(b) && pos.symbol !in b.positions && pos.slOrderID == None && pos.tpOrderID == None && sl > 0.0
    requires var e := b.(positions := b.positions[pos.symbol := pos], nextOrderID := b.nextOrderID + 1);
             c == Label(AddProtection(e, pos, sl, tp), pos.symbol, sl, tp)
    ensures pos.symbol in c.positions && c.positions[pos.symbol] == q && SameTrade(pos, q)
    ensures c.positions - {pos.symbol} == b.positions && CancelSiblings(c.orders, q) == b.orders
  {
    EntryUndone(b, b.nextOrderID + 1, pos, sl, tp);
    q := c.positions[pos.symbol];
  }

  /** The position as entered: the rest of the book is as before once it and its orders are taken out. */
  lemma EnteredBook(cfg: ValidConfig, s: BrokerState, req: OrderRequest, pos: Position) returns (q: Position)
    requires Protected(s) && CleanEntry(cfg, s, req)
    requires var fill := EntryFill(cfg, req.side, s.prices[req.symbol]);
             pos == NewPosition(cfg, s, req.symbol, req.side, req.qty, fill, MarginFor(cfg, fill, req.qty))
    ensures var t := Place(cfg, s, req).0;
            req.symbol in t.book.positions && t.book.positions[req.symbol] == q && SameTrade(pos, q) &&
            t.book.positions - {req.symbol} == s.book.positions && CancelSiblings(t.book.orders, q) == s.book.orders &&
            t.wallet == Commit(s.wallet, pos.margin, TakerFee(cfg, req, pos.entryPrice),
                Times(Bps(s.prices[req.symbol], cfg.slippageBps), req.qty)) &&
            t.prices == s.prices
  {
    CleanEntryShape(cfg, s, req);
    q := EnteredFrom(s.book, pos, req.stopLoss, req.takeProfit, Place(cfg, s, req).0.book);
  }

  lemma RoundTripState(cfg: ValidConfig, s: BrokerState, req: OrderRequest)
    requires Protected(s) && CleanEntry(cfg, s, req)
    ensures var price := s.prices[req.symbol];
            var fill := EntryFill(cfg, req.side, price);
            var pos := NewPosition(cfg, s, req.symbol, req.side, req.qty, fill, MarginFor(cfg, fill, req.qty));
            var slip := Times(Bps(price, cfg.slippageBps), req.qty);
            var u := ClosePosition(cfg, Place(cfg, s, req).0, req.symbol);
            u.book.positions == s.book.positions && u.book.orders == s.book.orders &&
            u.wallet == Settle(Commit(s.wallet, pos.margin, TakerFee(cfg, req, fill), slip),
                ExitGross(cfg, pos, price), ExitFee(cfg, pos, price), slip, pos.margin)
  {
    var price := s.prices[req.symbol];
    var fill := EntryFill(cfg, req.side, price);
    var pos := NewPosition(cfg, s, req.symbol, req.side, req.qty, fill, MarginFor(cfg, fill, req.qty));
    var q := EnteredBook(cfg, s, req, pos);
    CloseQuoted(cfg, Place(cfg, s, req).0, req.symbol, q, price);
    SameTradeSameExit(cfg, pos, q, price);
  }

  /**
   Opening and closing at one quoted price restores positions, pending orders and margin, and costs the
   two fees plus the slippage both ways.
   */
  lemma RoundTripCost(cfg: ValidConfig, s: BrokerState, req: OrderRequest)
    requires Protected(s) && CleanEntry(cfg, s, req)
    ensures var price := s.prices[req.symbol];
            var fill, exit := EntryFill(cfg, req.side, price), ExitFill(cfg, SideOf(req.side), price);
            var t := ClosePosition(cfg, Place(cfg, s, req).0, req.symbol);
            t.book.positions == s.book.positions && t.book.orders == s.book.orders &&
                t.wallet.usedMargin == s.wallet.usedMargin &&
            t.wallet.balance == s.wallet.balance - Bps(fill * req.qty, cfg.feeTakerBps) - Bps(exit * req.qty,
                cfg.feeTakerBps)
                                - 2.0 * Bps(price, cfg.slippageBps) * req.qty
  {
    var price := s.prices[req.symbol];
    var fill := EntryFill(cfg, req.side, price);
    var pos := NewPosition(cfg, s, req.symbol, req.side, req.qty, fill, MarginFor(cfg, fill, req.qty));
    var slip := Times(Bps(price, cfg.slippageBps), req.qty);
    RoundTripState(cfg, s, req);
    SlippageBothWays(cfg, req.side, price, req.qty);
    CommitThenSettle(s.wallet, pos.margin, TakerFee(cfg, req, fill), slip, ExitGross(cfg, pos, price),
        ExitFee(cfg, pos, price), slip);
  }

  // ---------------------------------------------------------------- free collateral

  function Available(w: Wallet): real {
    w.balance - w.usedMargin
  }

  lemma OpenAtAvailable(cfg: ValidConfig, s: BrokerState, pos: Position, fee: real, slip: real, sl: real, tp: real)
    requires !StopInvalid(pos, sl)
    ensures Available(OpenAt(cfg, s, pos, fee, slip, sl, tp).wallet) == Available(s.wallet) - pos.margin - fee
  {
  }

  /** A fill undone for its stop costs the entry fee and the net of leaving at the entry price. */
  lemma UndoneAvailable(cfg: ValidConfig, s: BrokerState, pos: Position, fee: real, slip: real, price: real)
    ensures Available(CloseOut(cfg, Enter(s, pos, fee, slip), pos, price, true).wallet)
         == Available(s.wallet) - fee + ExitNet(cfg, pos, price)
  {
  }

  /**
   A market fill onto a free symbol, reduce-only or not, leaves collateral that is not negative, unless its stop was
   never validated and undoes it; then exactly when the fee and the net of leaving at once were to spare.
   */
  lemma EntryLeavesCollateral(cfg: ValidConfig, s: BrokerState, req: OrderRequest)
    requires req.orderType == Market && !EarlyRefusal(s, req) && MarketFills(cfg, s, req)
    requires req.symbol !in s.book.positions
    ensures var fill := EntryFill(cfg, req.side, s.prices[req.symbol]);
            var pos := NewPosition(cfg, s, req.symbol, req.side, req.qty, fill, MarginFor(cfg, fill, req.qty));
            Available(Place(cfg, s, req).0.wallet) >= 0.0 <==>
            (StopInvalid(pos, req.stopLoss) ==>
               Available(s.wallet) - TakerFee(cfg, req, fill) + ExitNet(cfg, pos, fill) >= 0.0)
  {
    var fill := EntryFill(cfg, req.side, s.prices[req.symbol]);
    var t, fee := TakeNumber(s), TakerFee(cfg, req, fill);
    var slip := Times(Bps(s.prices[req.symbol], cfg.slippageBps), req.qty);
    var pos := NewPosition(cfg, t, req.symbol, req.side, req.qty, fill, MarginFor(cfg, fill, req.qty));
    if StopInvalid(pos, req.stopLoss) {
      UndoneAvailable(cfg, t, pos, fee, slip, fill);
    } else {
      OpenAtAvailable(cfg, t, pos, fee, slip, req.stopLoss, req.takeProfit);
    }
  }

  lemma ReversalWallet(
    cfg: ValidConfig, s: BrokerState, req: OrderRequest, fill: real, margin: real, fee: real, slip: real)
    requires req.symbol in s.book.positions && !req.reduceOnly && req.qty > 0.0
    requires req.stopLoss > 0.0 && StopOnLosingSide(SideOf(req.side), fill, req.stopLoss)
    ensures var prior := s.book.positions[req.symbol];
            Available(FillMarket(cfg, s, req, fill, margin, fee, slip).wallet) ==
            Available(s.wallet) + ExitNet(cfg, prior, fill) + prior.margin - margin - fee
  {
    var t := Vacate(cfg, s, req.symbol, fill);
    OpenAtAvailable(cfg, t, NewPosition(cfg, t, req.symbol, req.side, req.qty, fill, margin), fee,
        Times(slip, req.qty), req.stopLoss, req.takeProfit);
  }

  /**
   A reversal is checked against the collateral before the old position is closed: it overdraws exactly when that
   close loses more than was spare.
   */
  lemma ReversalCollateral(cfg: ValidConfig, s: BrokerState, req: OrderRequest)
    requires req.orderType == Market && !req.reduceOnly && !EarlyRefusal(s, req) && MarketFills(cfg, s, req) &&
               req.symbol in s.book.positions
    ensures var fill, before := EntryFill(cfg, req.side, s.prices[req.symbol]), s.book.positions[req.symbol];
            Available(Place(cfg, s, req).0.wallet) >= 0.0 <==>
            Available(s.wallet) - MarginFor(cfg, fill, req.qty) - TakerFee(cfg, req, fill)
            >= -(ExitNet(cfg, before, fill) + before.margin)
  {
    var fill := EntryFill(cfg, req.side, s.prices[req.symbol]);
    ReversalWallet(cfg, TakeNumber(s), req, fill, MarginFor(cfg, fill, req.qty), TakerFee(cfg, req, fill),
        Bps(s.prices[req.symbol], cfg.slippageBps));
  }

  /**
   A limit fill never overdraws, not even on top of a position, when its order carries a stop or a target. Without
   either it is closed at once, and overdraws exactly when the fee and the net of leaving at once were not to spare.
   */
  lemma LimitFillLeavesCollateral(cfg: ValidConfig, s: BrokerState, o: Order)
    requires o.price.Some? && LimitAccepted(cfg, s, o)
    ensures var fill := o.price.value;
            var pos := NewPosition(cfg, s, o.symbol, o.side, o.qty, fill, MarginFor(cfg, fill, o.qty));
            Available(FillLimit(cfg, s, o).wallet) >= 0.0 <==>
            (o.intendedSL <= 0.0 && o.intendedTP <= 0.0 ==>
               Available(s.wallet) - MakerFee(cfg, o, fill) + ExitNet(cfg, pos, fill) >= 0.0)
  {
    var fill := o.price.value;
    var pos := NewPosition(cfg, s, o.symbol, o.side, o.qty, fill, MarginFor(cfg, fill, o.qty));
    if o.intendedSL > 0.0 || o.intendedTP > 0.0 {
      OpenAtAvailable(cfg, s, pos, MakerFee(cfg, o, fill), 0.0, o.intendedSL, o.intendedTP);
    } else {
      UndoneAvailable(cfg, s, pos, MakerFee(cfg, o, fill), 0.0, fill);
    }
  }

  // ---------------------------------------------------------------- what an overwriting fill loses

  /**
   A limit fill on an occupied symbol loses exactly the margin of the position it replaces: no later close gives it
   back.
   */
  lemma OverwriteLosesMargin(cfg: ValidConfig, s: BrokerState, o: Order)
    requires o.price.Some? && LimitAccepted(cfg, s, o) && o.symbol in s.book.positions
    ensures Tally(FillLimit(cfg, s, o).journal).overwritten
         == Tally(s.journal).overwritten + s.book.positions[o.symbol].margin
  {
    var fill, fee := o.price.value, MakerFee(cfg, o, o.price.value);
    var pos := NewPosition(cfg, s, o.symbol, o.side, o.qty, fill, MarginFor(cfg, fill, o.qty));
    TallyEntry(s.journal, s.book, o.symbol, fee);
    var entered := Enter(s, pos, fee, 0.0);
    TallyAppend(entered.journal, Exited(ExitGross(cfg, pos, fill), ExitFee(cfg, pos, fill), pos.realizedPnL));
  }

  // ---------------------------------------------------------------- the emergency branches

  /**
   Once an order has passed the checks, its fill is undone for an invalid stop in one case only: a reduce-only request
   with nothing to reduce, whose stop nobody had validated. Otherwise only what it replaces is closed.
   */
  lemma ValidatedFillStays(cfg: ValidConfig, s: BrokerState, req: OrderRequest)
    requires req.orderType == Market && !EarlyRefusal(s, req) && MarketFills(cfg, s, req)
    ensures var fill := EntryFill(cfg, req.side, s.prices[req.symbol]);
            Place(cfg, s, req).1.Refused? <==>
            req.reduceOnly && req.symbol !in s.book.positions && req.stopLoss > 0.0 &&
                !StopOnLosingSide(SideOf(req.side), fill, req.stopLoss)
    ensures !req.reduceOnly ==>
              var t := Place(cfg, s, req).0;
              req.symbol in t.book.positions &&
              |t.closed| == |s.closed| + (if req.symbol in s.book.positions then 1 else 0)
  {
  }

  /** A limit fill that passed its checks stays open exactly when the order carries a stop or a target. */
  lemma ValidatedLimitFillStays(cfg: ValidConfig, s: BrokerState, o: Order)
    requires o.price.Some? && LimitAccepted(cfg, s, o)
    ensures o.symbol in FillLimit(cfg, s, o).book.positions <==> o.intendedSL > 0.0 || o.intendedTP > 0.0
    ensures o.intendedSL > 0.0 || o.intendedTP > 0.0 ==> FillLimit(cfg, s, o).closed == s.closed
  {
  }
}
