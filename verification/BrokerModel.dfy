/**
 The paper broker as a transition system on values: each function gives the state one broker
 operation leaves behind. The class in PaperBroker.dfy is proved to take exactly these steps;
 the laws in the other Broker files are proved about runs of them.
 */
module BrokerModel {
  import opened Numbers
  import opened Domain
  import Folds

  /** Open positions, pending orders and the next order number. */
  datatype Book = Book(positions: map<string, Position>, orders: map<OrderKey, Order>, nextOrderID: int)

  datatype Wallet = Wallet(
    balance: real,
    usedMargin: real,
    realizedPnL: real,
    totalFees: real,
    totalSlippage: real,
    dailyLoss: real)

  /**
   History the broker itself does not keep: what each step did to the wallet, and which profit of earlier partial
   exits it dropped from the position's record.
   */
  datatype JournalEntry =
    | Opened(fee: real)
    | Exited(gross: real, fee: real, forgotten: real)
    | Overwritten(margin: real, forgotten: real)
    | DayReset

  datatype BrokerState = BrokerState(
    book: Book,
    wallet: Wallet,
    closed: seq<Position>,
    nextPositionID: int,
    nextExecID: int,
    prices: map<string, real>,
    halted: bool,
    journal: seq<JournalEntry>)

  datatype Outcome = Accepted(order: Order) | Refused

  function Fresh(cfg: ValidConfig): BrokerState {
    BrokerState(Book(map[], map[], 1), Wallet(cfg.startingBalance, 0.0, 0.0, 0.0, 0.0, 0.0), [], 1, 1, map[], false, [])
  }

  // ---------------------------------------------------------------- prices, fees and profit

  function SideOf(side: OrderSide): Side {
    if side == Buy then Long else Short
  }

  function ClosingSide(side: Side): OrderSide {
    if side == Long then Sell else Buy
  }

  function EntryFill(cfg: ValidConfig, side: OrderSide, price: real): real {
    if side == Buy then price + Bps(price, cfg.slippageBps) else price - Bps(price, cfg.slippageBps)
  }

  function ExitFill(cfg: ValidConfig, side: Side, price: real): real {
    if side == Long then price - Bps(price, cfg.slippageBps) else price + Bps(price, cfg.slippageBps)
  }

  function Gross(side: Side, entry: real, exit: real, qty: real): real {
    if side == Long then (exit - entry) * qty else (entry - exit) * qty
  }

  function ExitFee(cfg: ValidConfig, pos: Position, price: real): real {
    Bps(ExitFill(cfg, pos.side, price) * pos.size, cfg.feeTakerBps)
  }

  function ExitGross(cfg: ValidConfig, pos: Position, price: real): real {
    Gross(pos.side, pos.entryPrice, ExitFill(cfg, pos.side, price), pos.size)
  }

  /** What closing `pos` at the quoted `price` adds to the balance. */
  function ExitNet(cfg: ValidConfig, pos: Position, price: real): real {
    ExitGross(cfg, pos, price) - ExitFee(cfg, pos, price)
  }

  function LossOf(net: real): real {
    if net < 0.0 then Abs(net) else 0.0
  }

  predicate StopOnLosingSide(side: Side, entry: real, stop: real) {
    if side == Long then stop < entry else stop > entry
  }

  predicate TargetOnWinningSide(side: Side, entry: real, target: real) {
    if side == Long then target > entry else target < entry
  }

  // ---------------------------------------------------------------- the wallet

  function Settle(w: Wallet, gross: real, fee: real, slip: real, margin: real): Wallet {
    var net := gross - fee;
    Wallet(w.balance + net, w.usedMargin - margin, w.realizedPnL + net, w.totalFees + fee, w.totalSlippage + slip,
        w.dailyLoss + LossOf(net))
  }

  function Commit(w: Wallet, margin: real, fee: real, slip: real): Wallet {
    w.(balance := w.balance - fee, usedMargin := w.usedMargin + margin, totalFees := w.totalFees + fee,
        totalSlippage := w.totalSlippage + slip)
  }

  predicate Affordable(w: Wallet, margin: real, fee: real) {
    !(w.balance - w.usedMargin < margin + fee)
  }

  // ---------------------------------------------------------------- the book

  function Deref(id: Option<int>): int {
    if id.None? then -1 else id.value
  }

  predicate Protects(o: Order, pos: Position) {
    o.symbol == pos.symbol && (o.id == Deref(pos.slOrderID) || o.id == Deref(pos.tpOrderID))
  }

  function CancelSiblings(orders: map<OrderKey, Order>, pos: Position): map<OrderKey, Order> {
    map k | k in orders && !Protects(orders[k], pos) :: orders[k]
  }

  function Remove(b: Book, pos: Position): Book {
    b.(positions := b.positions - {pos.symbol}, orders := CancelSiblings(b.orders, pos))
  }

  function ProtectiveOrder(id: int, pos: Position, orderType: OrderType, stop: real): Order {
    Order(id, Paper(id), pos.symbol, ClosingSide(pos.side), orderType, pos.size, None, Some(stop), Pending, 0.0, 0.0)
  }

  function AddStop(b: Book, pos: Position, stop: real): Book {
    var id := b.nextOrderID;
    Book(b.positions[pos.symbol := pos.(slOrderID := Some(id))],
        b.orders[Paper(id) := ProtectiveOrder(id, pos, StopMarket, stop)], id + 1)
  }

  function AddTarget(b: Book, pos: Position, target: real): Book {
    var id := b.nextOrderID;
    Book(b.positions[pos.symbol := pos.(tpOrderID := Some(id))],
        b.orders[Paper(id) := ProtectiveOrder(id, pos, TakeProfitMarket, target)], id + 1)
  }

  /**
   Stop and target orders for a position whose stop, if it has one, is on the losing side; an invalid target is
   skipped.
   */
  function AddProtection(b: Book, pos: Position, sl: real, tp: real): Book {
    var b1 := if sl > 0.0 then AddStop(b, pos, sl) else b;
    var pos1 := if sl > 0.0 then pos.(slOrderID := Some(b.nextOrderID)) else pos;
    if tp > 0.0 && TargetOnWinningSide(pos.side, pos.entryPrice, tp) then AddTarget(b1, pos1, tp) else b1
  }

  predicate StopInvalid(pos: Position, sl: real) {
    sl > 0.0 && !StopOnLosingSide(pos.side, pos.entryPrice, sl)
  }

  /** Recording the levels on the stored position. */
  function Label(b: Book, symbol: string, sl: real, tp: real): Book {
    if symbol in b.positions
    then b.(positions := b.positions[symbol := b.positions[symbol].(stopLoss := sl, takeProfit := tp)])
    else b
  }

  // ---------------------------------------------------------------- closing and opening

  /** The position leaves the book with its protective orders, and the exit is settled. */
  function Exit(s: BrokerState, pos: Position, gross: real, fee: real, slip: real, synthetic: bool): BrokerState {
    var b := Remove(s.book, pos);
    s.(book := if synthetic then b.(nextOrderID := b.nextOrderID + 1) else b,
       wallet := Settle(s.wallet, gross, fee, slip, pos.margin),
       closed := s.closed + [pos.(realizedPnL := gross - fee, open := false)],
       nextExecID := s.nextExecID + 1,
       journal := s.journal + [Exited(gross, fee, pos.realizedPnL)])
  }

  /** Closing a position at the quoted price; `synthetic` when no stored order closes it. */
  function CloseOut(cfg: ValidConfig, s: BrokerState, pos: Position, price: real, synthetic: bool): BrokerState {
    Exit(s, pos, ExitGross(cfg, pos, price), ExitFee(cfg, pos, price), Times(Bps(price, cfg.slippageBps), pos.size),
        synthetic)
  }

  /** Taking `qty` off a position and settling that part. */
  function ExitPart(
    s: BrokerState, pos: Position, qty: real, gross: real, fee: real, slip: real, freed: real): BrokerState {
    var q := pos.(size := pos.size - qty, margin := pos.margin - freed, realizedPnL := pos.realizedPnL + (gross - fee));
    s.(book := s.book.(positions := s.book.positions[pos.symbol := q]),
       wallet := Settle(s.wallet, gross, fee, slip, freed),
       journal := s.journal + [Exited(gross, fee, 0.0)])
  }

  function Times(a: real, b: real): real {
    a * b
  }

  function ShareOf(total: real, part: real, whole: real): real
    requires whole != 0.0
  {
    total * (part / whole)
  }

  /** A reduce-only fill against an open position: all of it, or a proportional part. */
  function Reduce(
    cfg: ValidConfig, s: BrokerState, pos: Position, qty: real, fill: real, fee: real, slip: real): BrokerState
    requires qty > 0.0
  {
    if qty >= pos.size then CloseOut(cfg, s, pos, fill, true)
    else ExitPart(s, pos, qty, Gross(pos.side, pos.entryPrice, fill, qty), fee, Times(slip, qty),
        ShareOf(pos.margin, qty, pos.size))
  }

  function MarginFor(cfg: ValidConfig, fill: real, qty: real): real {
    fill * qty / cfg.leverage
  }

  function NewPosition(
    cfg: ValidConfig, s: BrokerState, symbol: string, side: OrderSide, qty: real, fill: real, margin: real): Position {
    Position(s.nextPositionID, symbol, SideOf(side), fill, qty, cfg.leverage, margin, 0.0, 0.0, None, None, 0.0, true)
  }

  /** What the journal says about a fill: a position already under the symbol is lost without being closed. */
  function EntryRecord(b: Book, symbol: string, fee: real): seq<JournalEntry> {
    (if symbol in b.positions then [Overwritten(b.positions[symbol].margin, b.positions[symbol].realizedPnL)] else [])
    + [Opened(fee)]
  }

  /** The fill itself: position, margin and fee, before any protective order exists. */
  function Enter(s: BrokerState, pos: Position, fee: real, slip: real): BrokerState {
    s.(book := s.book.(positions := s.book.positions[pos.symbol := pos]),
       wallet := Commit(s.wallet, pos.margin, fee, slip),
       nextPositionID := s.nextPositionID + 1,
       journal := s.journal + EntryRecord(s.book, pos.symbol, fee))
  }

  /** A fill with its protective orders; an invalid stop closes the position again. */
  function OpenAt(
    cfg: ValidConfig, s: BrokerState, pos: Position, fee: real, slip: real, sl: real, tp: real): BrokerState {
    var entered := Enter(s, pos, fee, slip);
    if StopInvalid(pos, sl) then CloseOut(cfg, entered, pos, pos.entryPrice, true)
    else entered.(book := Label(AddProtection(entered.book, pos, sl, tp), pos.symbol, sl, tp),
        nextExecID := entered.nextExecID + 1)
  }

  // ---------------------------------------------------------------- placing orders

  predicate IsEntry(req: OrderRequest) {
    req.orderType == Market || req.orderType == Limit
  }

  predicate HaltBlocks(req: OrderRequest) {
    req.stopPrice.None? && !req.reduceOnly && IsEntry(req)
  }

  predicate EarlyRefusal(s: BrokerState, req: OrderRequest) {
    req.qty <= 0.0 || req.symbol == "" || (s.halted && HaltBlocks(req)) ||
        (!req.reduceOnly && IsEntry(req) && req.stopLoss <= 0.0)
  }

  function TakerFee(cfg: ValidConfig, req: OrderRequest, fill: real): real {
    Bps(fill * req.qty, cfg.feeTakerBps)
  }

  predicate Quoted(s: BrokerState, symbol: string) {
    symbol in s.prices && s.prices[symbol] > 0.0
  }

  /** Every check a MARKET order has to pass, given that nothing refused it earlier. */
  predicate MarketFills(cfg: ValidConfig, s: BrokerState, req: OrderRequest) {
    Quoted(s, req.symbol) &&
    var fill := EntryFill(cfg, req.side, s.prices[req.symbol]);
    (!req.reduceOnly && req.stopLoss > 0.0 ==> StopOnLosingSide(SideOf(req.side), fill, req.stopLoss)) &&
    Affordable(s.wallet, MarginFor(cfg, fill, req.qty), TakerFee(cfg, req, fill))
  }

  function NewOrder(id: int, req: OrderRequest): Order {
    Order(id, Paper(id), req.symbol, req.side, req.orderType, req.qty, req.price, req.stopPrice,
          Pending, req.stopLoss, req.takeProfit)
  }

  function TakeNumber(s: BrokerState): BrokerState {
    s.(book := s.book.(nextOrderID := s.book.nextOrderID + 1))
  }

  /** Before opening, whatever position the symbol has is closed at the fill price. */
  function Vacate(cfg: ValidConfig, s: BrokerState, symbol: string, fill: real): BrokerState {
    if symbol in s.book.positions then CloseOut(cfg, s, s.book.positions[symbol], fill, true) else s
  }

  function OpenNew(
    cfg: ValidConfig, s: BrokerState, req: OrderRequest, fill: real, margin: real, fee: real, slip: real): BrokerState {
    OpenAt(cfg, s, NewPosition(cfg, s, req.symbol, req.side, req.qty, fill, margin), fee, Times(slip, req.qty),
        req.stopLoss, req.takeProfit)
  }

  /** A MARKET order that fills: reduces, or closes what is there and opens. */
  function FillMarket(
    cfg: ValidConfig, s: BrokerState, req: OrderRequest, fill: real, margin: real, fee: real, slip: real): BrokerState
    requires req.qty > 0.0
  {
    if req.symbol in s.book.positions && req.reduceOnly then
      Reduce(cfg, s, s.book.positions[req.symbol], req.qty, fill, fee, slip)
    else
      OpenNew(cfg, Vacate(cfg, s, req.symbol, fill), req, fill, margin, fee, slip)
  }

  /** A reduce-only request that reduces comes back pending; one whose stop undid the fill comes back rejected. */
  function MarketOutcome(s: BrokerState, req: OrderRequest, fill: real): Outcome {
    if req.symbol in s.book.positions && req.reduceOnly then Accepted(NewOrder(s.book.nextOrderID, req))
    else if req.stopLoss > 0.0 && !StopOnLosingSide(SideOf(req.side), fill, req.stopLoss) then Refused
    else Accepted(NewOrder(s.book.nextOrderID, req).(status := Filled))
  }

  function PlaceMarket(cfg: ValidConfig, s: BrokerState, req: OrderRequest): (BrokerState, Outcome)
    requires req.qty > 0.0
  {
    if !MarketFills(cfg, s, req) then (TakeNumber(s), Refused)
    else
      var fill := EntryFill(cfg, req.side, s.prices[req.symbol]);
      (FillMarket(cfg, TakeNumber(s), req, fill, MarginFor(cfg, fill, req.qty), TakerFee(cfg, req, fill),
          Bps(s.prices[req.symbol], cfg.slippageBps)),
       MarketOutcome(s, req, fill))
  }

  /** Storing a resting order once its trigger or limit price is known to be positive. */
  function PlaceResting(s: BrokerState, req: OrderRequest): (BrokerState, Outcome) {
    var order := NewOrder(s.book.nextOrderID, req);
    var level := if req.orderType == Limit then req.price else req.stopPrice;
    if level.None? || level.value <= 0.0 then (TakeNumber(s), Refused)
    else (s.(book := s.book.(orders := s.book.orders[order.key := order], nextOrderID := order.id + 1)),
        Accepted(order))
  }

  function Place(cfg: ValidConfig, s: BrokerState, req: OrderRequest): (BrokerState, Outcome) {
    if EarlyRefusal(s, req) then (s, Refused)
    else if req.orderType == Market then PlaceMarket(cfg, s, req)
    else PlaceResting(s, req)
  }

  // ---------------------------------------------------------------- limit fills

  predicate WouldFill(o: Order, c: Candle) {
    o.price.Some? && (if o.side == Buy then c.low <= o.price.value else c.high >= o.price.value)
  }

  predicate LimitAccepted(cfg: ValidConfig, s: BrokerState, o: Order)
    requires o.price.Some?
  {
    (o.intendedSL > 0.0 ==> StopOnLosingSide(SideOf(o.side), o.price.value, o.intendedSL)) &&
    Affordable(s.wallet, MarginFor(cfg, o.price.value, o.qty), MakerFee(cfg, o, o.price.value))
  }

  /** A limit fill without any protective level is closed again at once. */
  function FillAt(cfg: ValidConfig, s: BrokerState, o: Order, fill: real, margin: real, fee: real): BrokerState {
    var pos := NewPosition(cfg, s, o.symbol, o.side, o.qty, fill, margin);
    if o.intendedSL > 0.0 || o.intendedTP > 0.0 then OpenAt(cfg, s, pos, fee, 0.0, o.intendedSL, o.intendedTP)
    else CloseOut(cfg, Enter(s, pos, fee, 0.0), pos, fill, true)
  }

  function MakerFee(cfg: ValidConfig, o: Order, fill: real): real {
    Bps(fill * o.qty, cfg.feeMakerBps)
  }

  function FillLimit(cfg: ValidConfig, s: BrokerState, o: Order): BrokerState
    requires o.price.Some?
  {
    if !LimitAccepted(cfg, s, o) then s
    else FillAt(cfg, s, o, o.price.value, MarginFor(cfg, o.price.value, o.qty), MakerFee(cfg, o, o.price.value))
  }

  function DropOrder(s: BrokerState, k: OrderKey): BrokerState {
    s.(book := s.book.(orders := s.book.orders - {k}))
  }

  predicate LimitFires(c: Candle, s: BrokerState, k: OrderKey) {
    k in s.book.orders && s.book.orders[k].symbol == c.symbol && s.book.orders[k].orderType == Limit &&
        WouldFill(s.book.orders[k], c)
  }

  function LimitAct(cfg: ValidConfig, s: BrokerState, k: OrderKey): BrokerState {
    if k in s.book.orders && s.book.orders[k].price.Some? then DropOrder(FillLimit(cfg, s, s.book.orders[k]), k) else s
  }

  function LimitFiring(c: Candle): (BrokerState, OrderKey) -> bool {
    (s, k) => LimitFires(c, s, k)
  }

  function LimitActing(cfg: ValidConfig): (BrokerState, OrderKey) -> BrokerState {
    (s, k) => LimitAct(cfg, s, k)
  }

  function LimitPass(cfg: ValidConfig, s: BrokerState, c: Candle, schedule: seq<OrderKey>): BrokerState {
    Folds.Sweep(s, schedule, LimitFiring(c), LimitActing(cfg))
  }

  // ---------------------------------------------------------------- protective triggers

  /** Triggering a stored stop or target: closes whatever position its symbol has, then drops the order. */
  function Trigger(cfg: ValidConfig, s: BrokerState, k: OrderKey, price: real): BrokerState
    requires k in s.book.orders
  {
    var symbol := s.book.orders[k].symbol;
    var t := if symbol in s.book.positions then CloseOut(cfg, s, s.book.positions[symbol], price, false) else s;
    DropOrder(t, k)
  }

  predicate StopHit(side: Side, stop: real, price: real) {
    if side == Long then price <= stop else price >= stop
  }

  predicate TargetHit(side: Side, target: real, price: real) {
    if side == Long then price >= target else price <= target
  }

  predicate TickFires(symbol: string, price: real, s: BrokerState, k: OrderKey) {
    k in s.book.orders && s.book.orders[k].symbol == symbol && s.book.orders[k].stopPrice.Some? &&
        symbol in s.book.positions &&
    var stop := s.book.orders[k].stopPrice.value;
    var side := s.book.positions[symbol].side;
    (s.book.orders[k].orderType == StopMarket && StopHit(side, stop, price)) ||
    (s.book.orders[k].orderType == TakeProfitMarket && TargetHit(side, stop, price))
  }

  function TickAct(cfg: ValidConfig, price: real, s: BrokerState, k: OrderKey): BrokerState {
    if k in s.book.orders then Trigger(cfg, s, k, price) else s
  }

  function TickFiring(symbol: string, price: real): (BrokerState, OrderKey) -> bool {
    (s, k) => TickFires(symbol, price, s, k)
  }

  function TickActing(cfg: ValidConfig, price: real): (BrokerState, OrderKey) -> BrokerState {
    (s, k) => TickAct(cfg, price, s, k)
  }

  function TickPass(
    cfg: ValidConfig, s: BrokerState, symbol: string, price: real, schedule: seq<OrderKey>): BrokerState {
    Folds.Sweep(s, schedule, TickFiring(symbol, price), TickActing(cfg, price))
  }

  predicate Crosses(c: Candle, price: real) {
    c.low <= price && c.high >= price
  }

  predicate CandleFires(c: Candle, orderType: OrderType, s: BrokerState, k: OrderKey) {
    k in s.book.orders && s.book.orders[k].symbol == c.symbol && s.book.orders[k].orderType == orderType &&
    s.book.orders[k].stopPrice.Some? && Crosses(c, s.book.orders[k].stopPrice.value)
  }

  function CandleAct(cfg: ValidConfig, s: BrokerState, k: OrderKey): BrokerState {
    if k in s.book.orders && s.book.orders[k].stopPrice.Some? then Trigger(cfg, s, k, s.book.orders[k].stopPrice.value)
    else s
  }

  /** A protective pass also remembers whether anything fired. */
  datatype PassState = PassState(s: BrokerState, hit: bool)

  function CandleFiring(c: Candle, orderType: OrderType): (PassState, OrderKey) -> bool {
    (p: PassState, k: OrderKey) => CandleFires(c, orderType, p.s, k)
  }

  function CandleActing(cfg: ValidConfig): (PassState, OrderKey) -> PassState {
    (p: PassState, k: OrderKey) => PassState(CandleAct(cfg, p.s, k), true)
  }

  function CandlePass(
    cfg: ValidConfig, s: BrokerState, c: Candle, orderType: OrderType, schedule: seq<OrderKey>): PassState {
    Folds.Sweep(PassState(s, false), schedule, CandleFiring(c, orderType), CandleActing(cfg))
  }

  /** The three loops of candle processing, each with its own iteration order. */
  datatype CandleSchedule = CandleSchedule(limits: seq<OrderKey>, stops: seq<OrderKey>, targets: seq<OrderKey>)

  function Priced(s: BrokerState, symbol: string, price: real): BrokerState {
    s.(prices := s.prices[symbol := price])
  }

  function AtCandle(cfg: ValidConfig, s: BrokerState, c: Candle, sched: CandleSchedule): BrokerState {
    var s1 := LimitPass(cfg, Priced(s, c.symbol, c.close), c, sched.limits);
    var p := CandlePass(cfg, s1, c, StopMarket, sched.stops);
    if p.hit then p.s else CandlePass(cfg, p.s, c, TakeProfitMarket, sched.targets).s
  }

  ghost predicate CandleCovered(cfg: ValidConfig, s: BrokerState, c: Candle, sched: CandleSchedule) {
    var s1 := LimitPass(cfg, Priced(s, c.symbol, c.close), c, sched.limits);
    var p := CandlePass(cfg, s1, c, StopMarket, sched.stops);
    Folds.Covers(sched.limits, s.book.orders.Keys) && Folds.Covers(sched.stops, s1.book.orders.Keys) &&
    (!p.hit ==> Folds.Covers(sched.targets, p.s.book.orders.Keys))
  }

  function AtTick(cfg: ValidConfig, s: BrokerState, symbol: string, price: real, sched: seq<OrderKey>): BrokerState {
    TickPass(cfg, Priced(s, symbol, price), symbol, price, sched)
  }

  // ---------------------------------------------------------------- remaining operations

  function ClosePosition(cfg: ValidConfig, s: BrokerState, symbol: string): BrokerState {
    if symbol in s.book.positions && Quoted(s, symbol)
    then CloseOut(cfg, s, s.book.positions[symbol], s.prices[symbol], true)
    else s
  }

  /** The emergency close falls back on the entry price when no usable quote exists. */
  function EmergencyPrice(prices: map<string, real>, symbol: string, pos: Position): real {
    if symbol in prices && prices[symbol] > 0.0 then prices[symbol] else pos.entryPrice
  }

  function EmergencyAct(cfg: ValidConfig, s: BrokerState, symbol: string): BrokerState {
    if symbol in s.book.positions
    then CloseOut(cfg, s, s.book.positions[symbol], EmergencyPrice(s.prices, symbol, s.book.positions[symbol]), true)
    else s
  }

  function StillOpen(): (BrokerState, string) -> bool {
    (s: BrokerState, symbol: string) => symbol in s.book.positions
  }

  function EmergencyActing(cfg: ValidConfig): (BrokerState, string) -> BrokerState {
    (s, symbol) => EmergencyAct(cfg, s, symbol)
  }

  function EmergencyClose(cfg: ValidConfig, s: BrokerState, sched: seq<string>): BrokerState {
    Folds.Sweep(s.(book := s.book.(orders := map[])), sched, StillOpen(), EmergencyActing(cfg))
  }

  predicate LevelsValid(pos: Position, sl: real, tp: real) {
    StopOnLosingSide(pos.side, pos.entryPrice, sl) && (tp > 0.0 ==> TargetOnWinningSide(pos.side, pos.entryPrice, tp))
  }

  /** Replacing the protective orders: the old pair is cancelled before the new levels are looked at. */
  function Replace(b: Book, symbol: string, sl: real, tp: real): Book {
    if sl <= 0.0 || symbol !in b.positions then b
    else
      var pos := b.positions[symbol];
      var b1 := b.(orders := CancelSiblings(b.orders, pos));
      if !LevelsValid(pos, sl, tp) || pos.size <= 0.0 || symbol == "" then b1
      else
        var n := b.nextOrderID;
        var os := b1.orders[Paper(n) := ProtectiveOrder(n, pos, StopMarket, sl)];
        if tp > 0.0 then
          Book(b.positions[symbol := pos.(slOrderID := Some(n), tpOrderID := Some(n + 1), stopLoss := sl,
              takeProfit := tp)],
               os[Paper(n + 1) := ProtectiveOrder(n + 1, pos, TakeProfitMarket, tp)], n + 2)
        else Book(b.positions[symbol := pos.(slOrderID := Some(n), stopLoss := sl)], os, n + 1)
  }

  // ---------------------------------------------------------------- runs

  datatype Op =
    | PlaceOrder(req: OrderRequest)
    | CancelOrder(key: OrderKey)
    | CloseSymbol(symbol: string)
    | EmergencyCloseAll(order: seq<string>)
    | UpdatePrice(symbol: string, price: real, visits: seq<OrderKey>)
    | SetSymbolPrice(symbol: string, price: real)
    | ProcessCandle(candle: Candle, passes: CandleSchedule)
    | SetProtectiveOrders(symbol: string, sl: real, tp: real)
    | ResetDailyLoss
    | SetHalted

  function Step(cfg: ValidConfig, s: BrokerState, op: Op): BrokerState {
    match op
    case PlaceOrder(req) => Place(cfg, s, req).0
    case CancelOrder(key) => DropOrder(s, key)
    case CloseSymbol(symbol) => ClosePosition(cfg, s, symbol)
    case EmergencyCloseAll(order) => EmergencyClose(cfg, s, order)
    case UpdatePrice(symbol, price, visits) => AtTick(cfg, s, symbol, price, visits)
    case SetSymbolPrice(symbol, price) => Priced(s, symbol, price)
    case ProcessCandle(candle, passes) => AtCandle(cfg, s, candle, passes)
    case SetProtectiveOrders(symbol, sl, tp) => s.(book := Replace(s.book, symbol, sl, tp))
    case ResetDailyLoss => s.(wallet := s.wallet.(dailyLoss := 0.0), journal := s.journal + [DayReset])
    case SetHalted => s.(halted := true)
  }

  function Run(cfg: ValidConfig, s: BrokerState, ops: seq<Op>): BrokerState
    decreases |ops|
  {
    if ops == [] then s else Run(cfg, Step(cfg, s, ops[0]), ops[1..])
  }
}
