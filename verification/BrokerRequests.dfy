/** Which requests the broker takes, and what those that fill open, reduce or replace: prices, sizes, money, orders. */
module BrokerRequests {
  import opened Numbers
  import opened Domain
  import opened BrokerModel
  import opened BrokerProtection
  import opened BrokerRuns
  import opened BrokerLoops
  import opened BrokerAnswers
  import Folds

  // ---------------------------------------------------------------- which requests are taken

  /** The stop asked for, if any, is on the losing side of the fill. */
  predicate StopFits(side: OrderSide, sl: real, fill: real) {
    sl <= 0.0 || if side == Buy then sl < fill else fill < sl
  }

  /** Margin and fee of a fill are covered by what is not in use. */
  predicate Payable(cfg: ValidConfig, s: BrokerState, fill: real, qty: real, feeBps: real) {
    Worth(fill, qty) / cfg.leverage + FeeOn(Worth(fill, qty), feeBps) <= s.wallet.balance - s.wallet.usedMargin
  }

  predicate Entry(req: OrderRequest) {
    req.orderType == Market || req.orderType == Limit
  }

  /** A quantity and a symbol; an entry that is not reduce-only has a stop, and under a halt a stop price. */
  predicate WellPosed(s: BrokerState, req: OrderRequest) {
    && 0.0 < req.qty && req.symbol != ""
    && (Entry(req) && !req.reduceOnly ==> 0.0 < req.stopLoss && (s.halted ==> req.stopPrice.Some?))
  }

  /** There is a quote, and the fill at it can be paid for. */
  predicate Fillable(cfg: ValidConfig, s: BrokerState, req: OrderRequest) {
    LastQuote(s, req.symbol).Some? &&
    Payable(cfg, s, Slipped(cfg, req.side == Sell, LastQuote(s, req.symbol).value), req.qty, cfg.feeTakerBps)
  }

  predicate Reduces(s: BrokerState, req: OrderRequest) {
    req.reduceOnly && req.symbol in s.book.positions
  }

  /** The requests that are accepted, by what a caller knows. */
  predicate Takes(cfg: ValidConfig, s: BrokerState, req: OrderRequest) {
    WellPosed(s, req) &&
    match req.orderType
    case Market =>
      Fillable(cfg, s, req) &&
      (Reduces(s, req) ||
       StopFits(req.side, req.stopLoss, Slipped(cfg, req.side == Sell, LastQuote(s, req.symbol).value)))
    case Limit => req.price.Some? && 0.0 < req.price.value
    case StopMarket => req.stopPrice.Some? && 0.0 < req.stopPrice.value
    case TakeProfitMarket => req.stopPrice.Some? && 0.0 < req.stopPrice.value
  }

  lemma SlippedFill(cfg: ValidConfig, side: OrderSide, quote: real, qty: real)
    ensures EntryFill(cfg, side, quote) == Slipped(cfg, side == Sell, quote)
    ensures Bps(quote, cfg.slippageBps) == FeeOn(quote, cfg.slippageBps)
  {
    assert Bps(quote, cfg.slippageBps) == quote * (cfg.slippageBps / 10000.0);
  }

  lemma FeeIs(amount: real, bps: real)
    ensures Bps(amount, bps) == FeeOn(amount, bps)
  {
  }

  lemma MarketFillsExactly(cfg: ValidConfig, s: BrokerState, req: OrderRequest)
    ensures MarketFills(cfg, s, req) <==>
            Fillable(cfg, s, req) &&
            (req.reduceOnly ||
             StopFits(req.side, req.stopLoss, Slipped(cfg, req.side == Sell, LastQuote(s, req.symbol).value)))
  {
    if LastQuote(s, req.symbol).Some? {
      SlippedFill(cfg, req.side, s.prices[req.symbol], req.qty);
      FeeIs(EntryFill(cfg, req.side, s.prices[req.symbol]) * req.qty, cfg.feeTakerBps);
    }
  }

  /** Exactly these are accepted; the order returned has the number before the call, and is filled unless it rests. */
  lemma TakenExactly(cfg: ValidConfig, s: BrokerState, req: OrderRequest)
    ensures var r := Place(cfg, s, req).1;
            && (r.Accepted? <==> Takes(cfg, s, req))
            && (r.Accepted? ==>
                  r.order
                  == Order(s.book.nextOrderID, Paper(s.book.nextOrderID), req.symbol, req.side, req.orderType, req.qty,
                           req.price, req.stopPrice,
                           if req.orderType == Market && !Reduces(s, req) then Filled else Pending, req.stopLoss,
                           req.takeProfit))
  {
    if !EarlyRefusal(s, req) && req.orderType == Market {
      MarketFillsExactly(cfg, s, req);
      if LastQuote(s, req.symbol).Some? {
        SlippedFill(cfg, req.side, s.prices[req.symbol], req.qty);
      }
    }
  }

  /** A request refused before it fills changes nothing but the order counter, and rests nothing. */
  lemma RefusedChangesNothing(cfg: ValidConfig, s: BrokerState, req: OrderRequest)
    requires !Takes(cfg, s, req) && (req.orderType == Market ==> !req.reduceOnly)
    ensures var t := Place(cfg, s, req).0; t == s.(book := s.book.(nextOrderID := t.book.nextOrderID))
  {
    TakenExactly(cfg, s, req);
  }

  // ---------------------------------------------------------------- what an entry opens

  /** What is entered: at which price, for what, and with which levels. */
  datatype Deal = Deal(symbol: string, side: OrderSide, price: real, size: real, feeBps: real, sl: real, tp: real)

  function Opposite(side: OrderSide): OrderSide {
    if side == Buy then Sell else Buy
  }

  function PendingAt(d: Deal, id: int, orderType: OrderType, level: real): Order {
    Order(id, Paper(id), d.symbol, Opposite(d.side), orderType, d.size, None, Some(level), Pending, 0.0, 0.0)
  }

  /** The target is on the winning side; any other is left out. */
  predicate Aimed(d: Deal) {
    0.0 < d.tp && if d.side == Buy then d.price < d.tp else d.tp < d.price
  }

  function StopNumber(d: Deal, n: int): Option<int> {
    if 0.0 < d.sl then Some(n) else None
  }

  function TargetNumber(d: Deal, n: int): Option<int> {
    if !Aimed(d) then None else if 0.0 < d.sl then Some(n + 1) else Some(n)
  }

  /** The position of a deal, its orders numbered from `n`. */
  function PositionOf(cfg: ValidConfig, d: Deal, id: int, n: int): Position {
    Position(id, d.symbol, if d.side == Buy then Long else Short, d.price, d.size, cfg.leverage,
             Worth(d.price, d.size) / cfg.leverage, d.sl, d.tp, StopNumber(d, n), TargetNumber(d, n), 0.0, true)
  }

  /** Stop and target are pending for the whole size under the numbers from `n`, and no other order moved. */
  ghost predicate OwnOrders(before: Orders, after: Orders, d: Deal, n: int) {
    var stop, target := StopNumber(d, n), TargetNumber(d, n);
    && (stop.Some? ==> Paper(n) in after && after[Paper(n)] == PendingAt(d, n, StopMarket, d.sl))
    && (target.Some? ==>
          Paper(target.value) in after &&
          after[Paper(target.value)] == PendingAt(d, target.value, TakeProfitMarket, d.tp))
    && (forall k :: k in before ==> k in after && after[k] == before[k])
    && (forall k :: k in after && k !in before ==>
          (stop.Some? && k == Paper(n)) || (target.Some? && k == Paper(target.value)))
  }

  /** The deal is on the books: the position, its stop and target at the levels asked for, the money. */
  ghost predicate Opened(cfg: ValidConfig, m: BrokerState, t: BrokerState, d: Deal, slip: real) {
    && t.book.positions
       == m.book.positions[d.symbol := PositionOf(cfg, d, m.nextPositionID, m.book.nextOrderID)]
    && OwnOrders(m.book.orders, t.book.orders, d, m.book.nextOrderID)
    && t.wallet.balance == m.wallet.balance - FeeOn(Worth(d.price, d.size), d.feeBps)
    && t.wallet.usedMargin == m.wallet.usedMargin + Worth(d.price, d.size) / cfg.leverage
    && t.wallet.totalFees == m.wallet.totalFees + FeeOn(Worth(d.price, d.size), d.feeBps)
    && t.wallet.totalSlippage == m.wallet.totalSlippage + slip
    && t.wallet.realizedPnL == m.wallet.realizedPnL && t.wallet.dailyLoss == m.wallet.dailyLoss
    && t.closed == m.closed && t.prices == m.prices && t.halted == m.halted
    && t.nextPositionID == m.nextPositionID + 1 && t.nextExecID == m.nextExecID + 1
  }

  /** The next two order keys are free. */
  predicate NextFree(b: Book) {
    Paper(b.nextOrderID) !in b.orders && Paper(b.nextOrderID + 1) !in b.orders
  }

  function Levelled(pos: Position, d: Deal, n: int): Position {
    pos.(stopLoss := d.sl, takeProfit := d.tp, slOrderID := StopNumber(d, n), tpOrderID := TargetNumber(d, n))
  }

  predicate Enters(pos: Position, d: Deal) {
    pos.symbol == d.symbol && pos.side == SideOf(d.side) && pos.entryPrice == d.price && pos.size == d.size &&
    pos.slOrderID == None && pos.tpOrderID == None
  }

  function EntryOrders(os: Orders, d: Deal, n: int): Orders {
    var stopped := if 0.0 < d.sl then os[Paper(n) := PendingAt(d, n, StopMarket, d.sl)] else os;
    var target := TargetNumber(d, n);
    if target.None? then stopped
    else stopped[Paper(target.value) := PendingAt(d, target.value, TakeProfitMarket, d.tp)]
  }

  lemma ProtectedEntry(b: Book, pos: Position, d: Deal)
    requires Enters(pos, d)
    ensures var c, n := AddProtection(b, pos, d.sl, d.tp), b.nextOrderID;
            && c.orders == EntryOrders(b.orders, d, n)
            && (0.0 < d.sl || Aimed(d) ==>
                  c.positions
                  == b.positions[pos.symbol := pos.(slOrderID := StopNumber(d, n), tpOrderID := TargetNumber(d, n))])
            && (!(0.0 < d.sl) && !Aimed(d) ==> c == b)
  {
    if 0.0 < d.sl && Aimed(d) {
      var q := pos.(slOrderID := Some(b.nextOrderID));
      assert b.positions[pos.symbol := q][pos.symbol := q.(tpOrderID := Some(b.nextOrderID + 1))]
          == b.positions[pos.symbol := q.(tpOrderID := Some(b.nextOrderID + 1))];
    }
  }

  /** The book an entry leaves, whatever levels it has. */
  lemma EntryBook(b: Book, pos: Position, d: Deal)
    requires Enters(pos, d)
    ensures var entered := b.(positions := b.positions[pos.symbol := pos]);
            var c, n := Label(AddProtection(entered, pos, d.sl, d.tp), pos.symbol, d.sl, d.tp), b.nextOrderID;
            c.positions == b.positions[pos.symbol := Levelled(pos, d, n)] && c.orders == EntryOrders(b.orders, d, n)
  {
    var entered := b.(positions := b.positions[pos.symbol := pos]);
    ProtectedEntry(entered, pos, d);
    var c := AddProtection(entered, pos, d.sl, d.tp);
    assert pos.symbol in c.positions;
    assert Label(c, pos.symbol, d.sl, d.tp).positions[pos.symbol] == Levelled(pos, d, b.nextOrderID);
  }

  /** All that was stored, and the entry's own. */
  lemma EntryOrdersAre(b: Book, d: Deal)
    requires NextFree(b)
    ensures OwnOrders(b.orders, EntryOrders(b.orders, d, b.nextOrderID), d, b.nextOrderID)
  {
  }

  lemma OpensAt(cfg: ValidConfig, m: BrokerState, d: Deal, pos: Position, fee: real, slip: real)
    requires NextFree(m.book) && StopFits(d.side, d.sl, d.price)
    requires pos == NewPosition(cfg, m, d.symbol, d.side, d.size, d.price, MarginFor(cfg, d.price, d.size))
    requires fee == FeeOn(Worth(d.price, d.size), d.feeBps)
    ensures Opened(cfg, m, OpenAt(cfg, m, pos, fee, slip, d.sl, d.tp), d, slip)
  {
    EntryBook(m.book, pos, d);
    EntryOrdersAre(m.book, d);
    assert Levelled(pos, d, m.book.nextOrderID) == PositionOf(cfg, d, m.nextPositionID, m.book.nextOrderID);
  }

  /** What a market request that fills enters. */
  function MarketDeal(cfg: ValidConfig, req: OrderRequest, quote: real): Deal {
    Deal(req.symbol, req.side, Slipped(cfg, req.side == Sell, quote), req.qty, cfg.feeTakerBps, req.stopLoss,
         req.takeProfit)
  }

  lemma PlaceEnters(cfg: ValidConfig, s: BrokerState, req: OrderRequest, fill: real)
    requires Takes(cfg, s, req) && req.orderType == Market && !Reduces(s, req)
    requires fill == Slipped(cfg, req.side == Sell, LastQuote(s, req.symbol).value)
    ensures var m := Vacate(cfg, TakeNumber(s), req.symbol, fill);
            StopFits(req.side, req.stopLoss, fill) &&
            Place(cfg, s, req).0
            == OpenNew(cfg, m, req, fill, MarginFor(cfg, fill, req.qty), TakerFee(cfg, req, fill),
                       Bps(s.prices[req.symbol], cfg.slippageBps))
  {
    MarketFillsExactly(cfg, s, req);
    SlippedFill(cfg, req.side, s.prices[req.symbol], req.qty);
  }

  lemma NewOpens(cfg: ValidConfig, m: BrokerState, req: OrderRequest, d: Deal, slip: real)
    requires NextFree(m.book) && StopFits(req.side, req.stopLoss, d.price)
    requires d == Deal(req.symbol, req.side, d.price, req.qty, cfg.feeTakerBps, req.stopLoss, req.takeProfit)
    ensures Opened(cfg, m, OpenNew(cfg, m, req, d.price, MarginFor(cfg, d.price, req.qty), TakerFee(cfg, req, d.price),
                                   slip), d, Worth(slip, req.qty))
  {
    FeeIs(d.price * req.qty, cfg.feeTakerBps);
    OpensAt(cfg, m, d, NewPosition(cfg, m, req.symbol, req.side, req.qty, d.price, MarginFor(cfg, d.price, req.qty)),
            TakerFee(cfg, req, d.price), Times(slip, req.qty));
  }

  /** The state an entry starts from: what the symbol had is closed at the entry's price. */
  ghost predicate Emptied(cfg: ValidConfig, s: BrokerState, m: BrokerState, symbol: string, price: real) {
    if symbol in s.book.positions then ClosedAt(cfg, s, m, symbol, price)
    else m == s.(book := s.book.(nextOrderID := s.book.nextOrderID + 1))
  }

  /**
   A market request that is taken and does not reduce opens at the quote moved against it; what the symbol had is closed
   first, at that very price.
   */
  lemma MarketOpens(cfg: ValidConfig, s: BrokerState, req: OrderRequest)
    requires Protected(s) && Takes(cfg, s, req) && req.orderType == Market && !Reduces(s, req)
    ensures var d := MarketDeal(cfg, req, LastQuote(s, req.symbol).value);
            var slip := Worth(FeeOn(LastQuote(s, req.symbol).value, cfg.slippageBps), req.qty);
            exists m :: Opened(cfg, m, Place(cfg, s, req).0, d, slip) && Emptied(cfg, s, m, req.symbol, d.price)
  {
    var d, u := MarketDeal(cfg, req, s.prices[req.symbol]), TakeNumber(s);
    var m := Vacate(cfg, u, req.symbol, d.price);
    MoreNumbers(s.book.positions, s.book.orders, s.book.nextOrderID, u.book.nextOrderID);
    Vacated(cfg, u, req.symbol, d.price);
    FreshNumbers(m.book);
    PlaceEnters(cfg, s, req, d.price);
    NewOpens(cfg, m, req, d, Bps(s.prices[req.symbol], cfg.slippageBps));
    FeeIs(s.prices[req.symbol], cfg.slippageBps);
    assert Opened(cfg, m, Place(cfg, s, req).0, d, Worth(FeeOn(s.prices[req.symbol], cfg.slippageBps), req.qty));
    assert Emptied(cfg, s, m, req.symbol, d.price);
  }

  lemma Vacated(cfg: ValidConfig, s: BrokerState, symbol: string, price: real)
    requires Protected(s)
    ensures var m := Vacate(cfg, s, symbol, price);
            Protected(m) && (symbol in s.book.positions ==> ClosedAt(cfg, s, m, symbol, price)) &&
            (symbol !in s.book.positions ==> m == s)
  {
    VacateKeeps(cfg, s, symbol, price);
    if symbol in s.book.positions {
      ClosesOut(cfg, s, symbol, price, true);
    }
  }

  // ---------------------------------------------------------------- what a reduction settles

  /** What taking `qty` off a position at a fill price earns. */
  function EarnedInPart(cfg: ValidConfig, p: Position, qty: real, fill: real): real {
    var cost, out := Worth(p.entryPrice, qty), Worth(fill, qty);
    (if p.side == Long then out - cost else cost - out) - FeeOn(out, cfg.feeTakerBps)
  }

  /** The share of the margin that goes with `qty`. */
  function Portion(p: Position, qty: real): real
    requires p.size > 0.0
  {
    p.margin * (qty / p.size)
  }

  /** `qty` of the position is gone, with its share of the margin, and that part's profit is booked. */
  ghost predicate ReducedBy(cfg: ValidConfig, s: BrokerState, t: BrokerState, symbol: string, qty: real, fill: real)
    requires symbol in s.book.positions && s.book.positions[symbol].size > 0.0
  {
    var p := s.book.positions[symbol];
    var earned, freed := EarnedInPart(cfg, p, qty, fill), Portion(p, qty);
    && t.book.positions
       == s.book.positions[symbol := p.(size := p.size - qty, margin := p.margin - freed,
                                        realizedPnL := p.realizedPnL + earned)]
    && t.book.orders == s.book.orders && t.closed == s.closed && t.prices == s.prices && t.halted == s.halted
    && t.wallet.balance == s.wallet.balance + earned && t.wallet.realizedPnL == s.wallet.realizedPnL + earned
    && t.wallet.usedMargin == s.wallet.usedMargin - freed
    && t.wallet.totalFees == s.wallet.totalFees + FeeOn(Worth(fill, qty), cfg.feeTakerBps)
    && t.wallet.dailyLoss == s.wallet.dailyLoss + (if earned < 0.0 then -earned else 0.0)
  }

  lemma PartReduced(
    cfg: ValidConfig, s: BrokerState, p: Position, qty: real, fill: real, gross: real, fee: real, slip: real,
    freed: real)
    requires p.symbol in s.book.positions && s.book.positions[p.symbol] == p && p.size > 0.0
    requires fee == FeeOn(Worth(fill, qty), cfg.feeTakerBps) && gross - fee == EarnedInPart(cfg, p, qty, fill)
    requires freed == Portion(p, qty)
    ensures ReducedBy(cfg, s, ExitPart(s, p, qty, gross, fee, slip, freed), p.symbol, qty, fill)
  {
  }

  lemma PartIs(cfg: ValidConfig, p: Position, qty: real, fill: real)
    requires p.size > 0.0
    ensures Bps(fill * qty, cfg.feeTakerBps) == FeeOn(Worth(fill, qty), cfg.feeTakerBps)
    ensures Gross(p.side, p.entryPrice, fill, qty) - FeeOn(Worth(fill, qty), cfg.feeTakerBps)
         == EarnedInPart(cfg, p, qty, fill)
    ensures ShareOf(p.margin, qty, p.size) == Portion(p, qty)
  {
    FeeIs(fill * qty, cfg.feeTakerBps);
  }

  lemma Takeoff(cfg: ValidConfig, s: BrokerState, p: Position, qty: real, fill: real, fee: real, slip: real)
    requires p.symbol in s.book.positions && s.book.positions[p.symbol] == p && 0.0 < qty < p.size
    requires fee == FeeOn(Worth(fill, qty), cfg.feeTakerBps)
    ensures ReducedBy(cfg, s, Reduce(cfg, s, p, qty, fill, fee, slip), p.symbol, qty, fill)
  {
    PartIs(cfg, p, qty, fill);
    PartReduced(cfg, s, p, qty, fill, Gross(p.side, p.entryPrice, fill, qty), fee, Times(slip, qty), Portion(p, qty));
  }

  lemma PlaceTakesOff(cfg: ValidConfig, s: BrokerState, req: OrderRequest, fill: real)
    requires Takes(cfg, s, req) && req.orderType == Market && Reduces(s, req)
    requires fill == Slipped(cfg, req.side == Sell, LastQuote(s, req.symbol).value)
    ensures Place(cfg, s, req).0
            == Reduce(cfg, TakeNumber(s), s.book.positions[req.symbol], req.qty, fill, TakerFee(cfg, req, fill),
                      Bps(s.prices[req.symbol], cfg.slippageBps))
  {
    MarketFillsExactly(cfg, s, req);
    SlippedFill(cfg, req.side, s.prices[req.symbol], req.qty);
  }

  /** What `qty` of a position, or all of it, comes to at a fill price. */
  ghost predicate TakenOff(cfg: ValidConfig, s: BrokerState, t: BrokerState, symbol: string, qty: real, fill: real)
    requires symbol in s.book.positions
  {
    var p := s.book.positions[symbol];
    p.size > 0.0 && if qty >= p.size then ClosedAt(cfg, s, t, symbol, fill) else ReducedBy(cfg, s, t, symbol, qty, fill)
  }

  lemma ReducingTakesOff(
    cfg: ValidConfig, s: BrokerState, symbol: string, qty: real, fill: real, fee: real, slip: real)
    requires Protected(s) && symbol in s.book.positions && qty > 0.0
    requires fee == FeeOn(Worth(fill, qty), cfg.feeTakerBps)
    ensures TakenOff(cfg, s, Reduce(cfg, s, s.book.positions[symbol], qty, fill, fee, slip), symbol, qty, fill)
  {
    assert Guarded(s.book.positions, s.book.orders, symbol);
    if qty >= s.book.positions[symbol].size {
      ClosesOut(cfg, s, symbol, fill, true);
    } else {
      Takeoff(cfg, s, s.book.positions[symbol], qty, fill, fee, slip);
    }
  }

  /** Taking an order number before does not matter. */
  lemma NumberedTakesOff(
    cfg: ValidConfig, s: BrokerState, symbol: string, qty: real, fill: real, fee: real, slip: real)
    requires Protected(s) && symbol in s.book.positions && qty > 0.0
    requires fee == FeeOn(Worth(fill, qty), cfg.feeTakerBps)
    ensures TakenOff(cfg, s, Reduce(cfg, TakeNumber(s), s.book.positions[symbol], qty, fill, fee, slip), symbol, qty,
                     fill)
  {
    var u := TakeNumber(s);
    var t := Reduce(cfg, u, s.book.positions[symbol], qty, fill, fee, slip);
    MoreNumbers(s.book.positions, s.book.orders, s.book.nextOrderID, u.book.nextOrderID);
    ReducingTakesOff(cfg, u, symbol, qty, fill, fee, slip);
    if qty >= s.book.positions[symbol].size {
      assert ClosedAt(cfg, u, t, symbol, fill);
    } else {
      assert ReducedBy(cfg, u, t, symbol, qty, fill);
    }
  }

  lemma PlacedTakesOff(cfg: ValidConfig, s: BrokerState, req: OrderRequest, fill: real, t: BrokerState)
    requires Protected(s) && req.symbol in s.book.positions && req.qty > 0.0 && LastQuote(s, req.symbol).Some?
    requires t == Reduce(cfg, TakeNumber(s), s.book.positions[req.symbol], req.qty, fill, TakerFee(cfg, req, fill),
                         Bps(s.prices[req.symbol], cfg.slippageBps))
    ensures TakenOff(cfg, s, t, req.symbol, req.qty, fill)
  {
    FeeIs(fill * req.qty, cfg.feeTakerBps);
    NumberedTakesOff(cfg, s, req.symbol, req.qty, fill, TakerFee(cfg, req, fill),
                     Bps(s.prices[req.symbol], cfg.slippageBps));
  }

  /** A reduce-only market request takes its quantity off the position, or closes it when that is all there is. */
  lemma MarketReduces(cfg: ValidConfig, s: BrokerState, req: OrderRequest, fill: real, t: BrokerState)
    requires Protected(s) && Takes(cfg, s, req) && req.orderType == Market && Reduces(s, req)
    requires fill == Slipped(cfg, req.side == Sell, LastQuote(s, req.symbol).value) && t == Place(cfg, s, req).0
    ensures TakenOff(cfg, s, t, req.symbol, req.qty, fill)
  {
    PlaceTakesOff(cfg, s, req, fill);
    PlacedTakesOff(cfg, s, req, fill, t);
  }

  // ---------------------------------------------------------------- limit fills

  function LimitDeal(cfg: ValidConfig, o: Order): Deal
    requires o.price.Some?
  {
    Deal(o.symbol, o.side, o.price.value, o.qty, cfg.feeMakerBps, o.intendedSL, o.intendedTP)
  }

  function WithoutOrder(s: BrokerState, k: OrderKey): BrokerState {
    s.(book := s.book.(orders := s.book.orders - {k}))
  }

  lemma LimitAcceptedExactly(cfg: ValidConfig, s: BrokerState, o: Order)
    requires o.price.Some?
    ensures LimitAccepted(cfg, s, o) <==>
            Payable(cfg, s, o.price.value, o.qty, cfg.feeMakerBps) && StopFits(o.side, o.intendedSL, o.price.value)
  {
    FeeIs(o.price.value * o.qty, cfg.feeMakerBps);
  }

  lemma FilledOpens(cfg: ValidConfig, s: BrokerState, o: Order)
    requires NextFree(s.book) && o.price.Some? && o.intendedSL > 0.0 && LimitAccepted(cfg, s, o)
    ensures Opened(cfg, s, FillLimit(cfg, s, o), LimitDeal(cfg, o), 0.0)
  {
    var d := LimitDeal(cfg, o);
    LimitAcceptedExactly(cfg, s, o);
    FeeIs(d.price * o.qty, cfg.feeMakerBps);
    OpensAt(cfg, s, d, NewPosition(cfg, s, o.symbol, o.side, o.qty, d.price, MarginFor(cfg, d.price, o.qty)),
            MakerFee(cfg, o, d.price), 0.0);
  }

  /** A limit order that fills is gone either way; it opens at its own price if it can be paid for and its stop fits. */
  lemma LimitFillOpens(cfg: ValidConfig, s: BrokerState, k: OrderKey)
    requires Protected(s) && k in s.book.orders && s.book.orders[k].orderType == Limit
    ensures var o, t := s.book.orders[k], LimitAct(cfg, s, k);
            o.price.Some? &&
            if Payable(cfg, s, o.price.value, o.qty, cfg.feeMakerBps) && StopFits(o.side, o.intendedSL, o.price.value)
            then Opened(cfg, WithoutOrder(s, k), t, LimitDeal(cfg, o), 0.0) else t == WithoutOrder(s, k)
  {
    var o := s.book.orders[k];
    assert Armed(o);
    FreshNumbers(s.book);
    LimitAcceptedExactly(cfg, s, o);
    if LimitAccepted(cfg, s, o) {
      FilledOpens(cfg, s, o);
      FilledIsGone(cfg, s, k, FillLimit(cfg, s, o), LimitDeal(cfg, o));
    }
  }

  lemma FilledIsGone(cfg: ValidConfig, s: BrokerState, k: OrderKey, t: BrokerState, d: Deal)
    requires k in s.book.orders && NextFree(s.book) && Opened(cfg, s, t, d, 0.0)
    ensures Opened(cfg, WithoutOrder(s, k), DropOrder(t, k), d, 0.0)
  {
  }

  /**
   Of the limit orders a candle's first loop comes to, one that alone trades at its price or better fills, and no other
   does.
   */
  lemma LimitFillsExactly(cfg: ValidConfig, s: BrokerState, c: Candle, sched: seq<OrderKey>, k: OrderKey)
    requires Protected(s) && Folds.Covers(sched, s.book.orders.Keys)
    requires k in s.book.orders && forall j :: ReachesLimit(s, c, j) ==> j == k
    ensures LimitPass(cfg, s, c, sched) == if ReachesLimit(s, c, k) then LimitAct(cfg, s, k) else s
  {
    assert forall j :: LimitFires(c, s, j) <==> ReachesLimit(s, c, j);
    LimitPassOutcome(cfg, s, c, sched);
  }

  // ---------------------------------------------------------------- replacing the levels

  /** The new levels are on their sides of the entry. */
  predicate LevelsFit(p: Position, sl: real, tp: real) {
    if p.side == Long then sl < p.entryPrice && (0.0 < tp ==> p.entryPrice < tp)
    else p.entryPrice < sl && (0.0 < tp ==> tp < p.entryPrice)
  }

  function ProtectiveOf(p: Position, id: int, orderType: OrderType, level: real): Order {
    Order(id, Paper(id), p.symbol, if p.side == Long then Sell else Buy, orderType, p.size, None, Some(level), Pending,
          0.0, 0.0)
  }

  /** The orders with the new pair, or the new stop alone, under the numbers from `n`. */
  function WithLevels(os: Orders, p: Position, n: int, sl: real, tp: real): Orders {
    var stopped := os[Paper(n) := ProtectiveOf(p, n, StopMarket, sl)];
    if 0.0 < tp then stopped[Paper(n + 1) := ProtectiveOf(p, n + 1, TakeProfitMarket, tp)] else stopped
  }

  function Relevelled(p: Position, n: int, sl: real, tp: real): Position {
    if 0.0 < tp then p.(stopLoss := sl, takeProfit := tp, slOrderID := Some(n), tpOrderID := Some(n + 1))
    else p.(stopLoss := sl, slOrderID := Some(n))
  }

  /**
   Without a stop price nothing happens. With one, replacing a position's levels cancels the orders it is linked to;
   levels that fit are pending for its whole size afterwards, and any others leave it with none.
   */
  lemma ReplacesExactly(b: Book, symbol: string, sl: real, tp: real)
    requires SoundBook(b) && symbol in b.positions
    ensures var p, n, c := b.positions[symbol], b.nextOrderID, Replace(b, symbol, sl, tp);
            if sl <= 0.0 then c == b
            else if LevelsFit(p, sl, tp) then
              && c.positions == b.positions[symbol := Relevelled(p, n, sl, tp)]
              && exists os :: OrdersGone(b.orders, os, p) && NextFree(b.(orders := os)) &&
                              c.orders == WithLevels(os, p, n, sl, tp)
            else c.positions == b.positions && OrdersGone(b.orders, c.orders, p)
  {
    var p, n := b.positions[symbol], b.nextOrderID;
    var os := CancelSiblings(b.orders, p);
    assert Guarded(b.positions, b.orders, symbol);
    FreshNumbers(b);
    CancelledAreGone(b, symbol);
    if 0.0 < sl && LevelsFit(p, sl, tp) {
      ReplaceShape(b, symbol, sl, tp);
      assert NextFree(b.(orders := os)) && Replace(b, symbol, sl, tp).orders == WithLevels(os, p, n, sl, tp);
    }
  }

  lemma ReplaceShape(b: Book, symbol: string, sl: real, tp: real)
    requires symbol in b.positions && b.positions[symbol].symbol == symbol && symbol != "" && 0.0 < sl
    requires b.positions[symbol].size > 0.0 && LevelsFit(b.positions[symbol], sl, tp)
    ensures var p, n, c := b.positions[symbol], b.nextOrderID, Replace(b, symbol, sl, tp);
            c.positions == b.positions[symbol := Relevelled(p, n, sl, tp)] &&
            c.orders == WithLevels(CancelSiblings(b.orders, p), p, n, sl, tp)
  {
  }
}
