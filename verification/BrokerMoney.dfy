/** What the wallet, the margin and the journal have in common after any run whatsoever. */
module BrokerMoney {
  import opened Numbers
  import opened Domain
  import opened BrokerModel
  import Folds

  // ---------------------------------------------------------------- the reference ledger

  /** Totals of a journal, read off entry by entry. */
  datatype Totals = Totals(
    gross: real,
    fees: real,
    net: real,
    lossesToday: real,
    overwritten: real,
    forgotten: real)

  function Book1(t: Totals, e: JournalEntry): Totals {
    match e
    case Opened(fee) => t.(fees := t.fees + fee)
    case Exited(gross, fee, forgotten) =>
      Totals(t.gross + gross, t.fees + fee, t.net + (gross - fee), t.lossesToday + LossOf(gross - fee), t.overwritten,
             t.forgotten + forgotten)
    case Overwritten(margin, forgotten) =>
      t.(overwritten := t.overwritten + margin, forgotten := t.forgotten + forgotten)
    case DayReset => t.(lossesToday := 0.0)
  }

  function Tally(j: seq<JournalEntry>): Totals
    decreases |j|
  {
    if j == [] then Totals(0.0, 0.0, 0.0, 0.0, 0.0, 0.0) else Book1(Tally(j[..|j| - 1]), j[|j| - 1])
  }

  lemma TallyAppend(j: seq<JournalEntry>, e: JournalEntry)
    ensures Tally(j + [e]) == Book1(Tally(j), e)
  {
  }

  function MarginOf(): Position -> real {
    (p: Position) => p.margin
  }

  function ProfitOf(): Position -> real {
    (p: Position) => p.realizedPnL
  }

  /** Profit recorded on the closed positions. */
  function ClosedProfit(closed: seq<Position>): real
    decreases |closed|
  {
    if closed == [] then 0.0 else ClosedProfit(closed[..|closed| - 1]) + closed[|closed| - 1].realizedPnL
  }

  lemma ClosedProfitAppend(closed: seq<Position>, p: Position)
    ensures ClosedProfit(closed + [p]) == ClosedProfit(closed) + p.realizedPnL
  {
    assert (closed + [p])[..|closed|] == closed;
  }

  /** All realized profit is on record with a closed or an open position, but for what was forgotten. */
  ghost predicate RecordLaw(ps: map<string, Position>, closed: seq<Position>, w: Wallet, t: Totals) {
    w.realizedPnL == ClosedProfit(closed) + Folds.SumBy(ps, ProfitOf()) + t.forgotten
  }

  predicate WalletLaw(cfg: ValidConfig, w: Wallet, t: Totals) {
    w.balance == cfg.startingBalance + t.gross - t.fees &&
    w.totalFees == t.fees && w.realizedPnL == t.net && w.dailyLoss == t.lossesToday
  }

  ghost predicate MarginLaw(ps: map<string, Position>, w: Wallet, t: Totals) {
    w.usedMargin == Folds.SumBy(ps, MarginOf()) + t.overwritten
  }

  /** Positions sit under their own symbol at the configured leverage, with margin in proportion to size. */
  ghost predicate Proportional(cfg: ValidConfig, ps: map<string, Position>) {
    forall sym :: sym in ps ==> ps[sym].symbol == sym && ps[sym].leverage == cfg.leverage &&
                                ps[sym].margin == MarginFor(cfg, ps[sym].entryPrice, ps[sym].size)
  }

  ghost predicate Laws(cfg: ValidConfig, ps: map<string, Position>, w: Wallet, t: Totals) {
    WalletLaw(cfg, w, t) && MarginLaw(ps, w, t) && Proportional(cfg, ps)
  }

  ghost predicate Ledgered(cfg: ValidConfig, s: BrokerState) {
    && Laws(cfg, s.book.positions, s.wallet, Tally(s.journal))
    && RecordLaw(s.book.positions, s.closed, s.wallet, Tally(s.journal))
  }

  // ---------------------------------------------------------------- single movements

  lemma SettleLaws(cfg: ValidConfig, ps: map<string, Position>, qs: map<string, Position>, w: Wallet, t: Totals,
                   gross: real, fee: real, slip: real, margin: real, forgotten: real)
    requires Laws(cfg, ps, w, t) && Proportional(cfg, qs)
    requires Folds.SumBy(qs, MarginOf()) == Folds.SumBy(ps, MarginOf()) - margin
    ensures Laws(cfg, qs, Settle(w, gross, fee, slip, margin), Book1(t, Exited(gross, fee, forgotten)))
  {
  }

  lemma ExitRecords(
    ps: map<string, Position>, closed: seq<Position>, w: Wallet, t: Totals, symbol: string, gross: real, fee: real,
    slip: real)
    requires symbol in ps && RecordLaw(ps, closed, w, t)
    ensures var pos := ps[symbol];
            RecordLaw(ps - {symbol}, closed + [pos.(realizedPnL := gross - fee, open := false)],
                      Settle(w, gross, fee, slip, pos.margin), Book1(t, Exited(gross, fee, pos.realizedPnL)))
  {
    Folds.SumTakeOut(ps, ProfitOf(), symbol);
    ClosedProfitAppend(closed, ps[symbol].(realizedPnL := gross - fee, open := false));
  }

  lemma ExitLedgered(
    cfg: ValidConfig, s: BrokerState, symbol: string, gross: real, fee: real, slip: real, synthetic: bool)
    requires Ledgered(cfg, s) && symbol in s.book.positions
    ensures Ledgered(cfg, Exit(s, s.book.positions[symbol], gross, fee, slip, synthetic))
  {
    var ps, pos := s.book.positions, s.book.positions[symbol];
    TallyAppend(s.journal, Exited(gross, fee, pos.realizedPnL));
    Folds.SumTakeOut(ps, MarginOf(), symbol);
    SettleLaws(cfg, ps, ps - {symbol}, s.wallet, Tally(s.journal), gross, fee, slip, pos.margin, pos.realizedPnL);
    ExitRecords(ps, s.closed, s.wallet, Tally(s.journal), symbol, gross, fee, slip);
  }

  lemma CloseOutLedgered(cfg: ValidConfig, s: BrokerState, symbol: string, price: real, synthetic: bool)
    requires Ledgered(cfg, s) && symbol in s.book.positions
    ensures Ledgered(cfg, CloseOut(cfg, s, s.book.positions[symbol], price, synthetic))
  {
    var pos := s.book.positions[symbol];
    ExitLedgered(cfg, s, symbol, ExitGross(cfg, pos, price), ExitFee(cfg, pos, price),
        Times(Bps(price, cfg.slippageBps), pos.size), synthetic);
  }

  lemma MarginShrinks(cfg: ValidConfig, entry: real, size: real, qty: real)
    requires size != 0.0
    ensures MarginFor(cfg, entry, size) - ShareOf(MarginFor(cfg, entry, size), qty, size)
              == MarginFor(cfg, entry, size - qty)
  {
    var m := MarginFor(cfg, entry, size);
    assert m == (entry / cfg.leverage) * size;
    calc {
      m * (qty / size);
      (entry / cfg.leverage) * (size * (qty / size));
      { DivMulCancel(qty, size); }
      (entry / cfg.leverage) * qty;
    }
    assert MarginFor(cfg, entry, size - qty) == (entry / cfg.leverage) * (size - qty);
  }

  lemma ReplacedMargin(ps: map<string, Position>, symbol: string, q: Position)
    requires symbol in ps
    ensures Folds.SumBy(ps[symbol := q], MarginOf()) == Folds.SumBy(ps, MarginOf()) - ps[symbol].margin + q.margin
  {
    Folds.SumTakeOut(ps, MarginOf(), symbol);
    Folds.SumPut(ps, MarginOf(), symbol, q);
  }

  lemma ReplacedProfit(ps: map<string, Position>, symbol: string, q: Position)
    requires symbol in ps
    ensures Folds.SumBy(ps[symbol := q], ProfitOf())
              == Folds.SumBy(ps, ProfitOf()) - ps[symbol].realizedPnL + q.realizedPnL
  {
    Folds.SumTakeOut(ps, ProfitOf(), symbol);
    Folds.SumPut(ps, ProfitOf(), symbol, q);
  }

  lemma ExitPartLedgered(
    cfg: ValidConfig, s: BrokerState, symbol: string, qty: real, gross: real, fee: real, slip: real,
    freed: real)
    requires Ledgered(cfg, s) && symbol in s.book.positions
    requires var p := s.book.positions[symbol]; p.margin - freed == MarginFor(cfg, p.entryPrice, p.size - qty)
    ensures Ledgered(cfg, ExitPart(s, s.book.positions[symbol], qty, gross, fee, slip, freed))
  {
    var t := ExitPart(s, s.book.positions[symbol], qty, gross, fee, slip, freed);
    TallyAppend(s.journal, Exited(gross, fee, 0.0));
    ReplacedMargin(s.book.positions, symbol, t.book.positions[symbol]);
    ReplacedProfit(s.book.positions, symbol, t.book.positions[symbol]);
    SettleLaws(cfg, s.book.positions, t.book.positions, s.wallet, Tally(s.journal), gross, fee, slip, freed, 0.0);
  }

  lemma ReduceLedgered(cfg: ValidConfig, s: BrokerState, symbol: string, qty: real, fill: real, fee: real, slip: real)
    requires Ledgered(cfg, s) && symbol in s.book.positions && qty > 0.0
    ensures Ledgered(cfg, Reduce(cfg, s, s.book.positions[symbol], qty, fill, fee, slip))
  {
    var pos := s.book.positions[symbol];
    if qty >= pos.size {
      CloseOutLedgered(cfg, s, symbol, fill, true);
    } else {
      MarginShrinks(cfg, pos.entryPrice, pos.size, qty);
      ExitPartLedgered(cfg, s, symbol, qty, Gross(pos.side, pos.entryPrice, fill, qty), fee, Times(slip, qty),
          ShareOf(pos.margin, qty, pos.size));
    }
  }

  lemma CommitLaws(
    cfg: ValidConfig, ps: map<string, Position>, w: Wallet, t: Totals, pos: Position, fee: real, slip: real, lost: real,
    dropped: real)
    requires Laws(cfg, ps, w, t) && pos.leverage == cfg.leverage &&
               pos.margin == MarginFor(cfg, pos.entryPrice, pos.size)
    requires lost == if pos.symbol in ps then ps[pos.symbol].margin else 0.0
    ensures Laws(cfg, ps[pos.symbol := pos], Commit(w, pos.margin, fee, slip),
                 t.(fees := t.fees + fee, overwritten := t.overwritten + lost, forgotten := t.forgotten + dropped))
  {
    if pos.symbol in ps {
      ReplacedMargin(ps, pos.symbol, pos);
    } else {
      Folds.SumPut(ps, MarginOf(), pos.symbol, pos);
      Folds.SumDrop(ps, MarginOf(), pos.symbol);
    }
  }

  lemma TallyEntry(j: seq<JournalEntry>, b: Book, symbol: string, fee: real)
    ensures Tally(j + EntryRecord(b, symbol, fee)) ==
            var t, lost := Tally(j), if symbol in b.positions then b.positions[symbol].margin else 0.0;
            var dropped := if symbol in b.positions then b.positions[symbol].realizedPnL else 0.0;
            t.(fees := t.fees + fee, overwritten := t.overwritten + lost, forgotten := t.forgotten + dropped)
  {
    if symbol in b.positions {
      var lost := Overwritten(b.positions[symbol].margin, b.positions[symbol].realizedPnL);
      TallyAppend(j, lost);
      TallyAppend(j + [lost], Opened(fee));
      assert j + ([lost] + [Opened(fee)]) == j + [lost] + [Opened(fee)];
    } else {
      TallyAppend(j, Opened(fee));
      assert [] + [Opened(fee)] == [Opened(fee)];
    }
  }

  /** A position that enters has no profit yet; one it replaces takes its record along. */
  lemma EntryRecords(
    ps: map<string, Position>, closed: seq<Position>, w: Wallet, t: Totals, pos: Position, v: Wallet,
    u: Totals)
    requires RecordLaw(ps, closed, w, t) && pos.realizedPnL == 0.0 && v.realizedPnL == w.realizedPnL
    requires u.forgotten == t.forgotten + if pos.symbol in ps then ps[pos.symbol].realizedPnL else 0.0
    ensures RecordLaw(ps[pos.symbol := pos], closed, v, u)
  {
    if pos.symbol in ps {
      ReplacedProfit(ps, pos.symbol, pos);
    } else {
      Folds.SumPut(ps, ProfitOf(), pos.symbol, pos);
      Folds.SumDrop(ps, ProfitOf(), pos.symbol);
    }
  }

  /** What a fill brings in: the configured leverage, margin in proportion, no profit yet. */
  predicate FreshTrade(cfg: ValidConfig, pos: Position) {
    && pos.leverage == cfg.leverage && pos.margin == MarginFor(cfg, pos.entryPrice, pos.size)
    && pos.realizedPnL == 0.0
  }

  lemma EnterLedgered(cfg: ValidConfig, s: BrokerState, pos: Position, fee: real, slip: real)
    requires Ledgered(cfg, s) && FreshTrade(cfg, pos)
    ensures Ledgered(cfg, Enter(s, pos, fee, slip))
  {
    var lost := if pos.symbol in s.book.positions then s.book.positions[pos.symbol].margin else 0.0;
    TallyEntry(s.journal, s.book, pos.symbol, fee);
    var dropped := if pos.symbol in s.book.positions then s.book.positions[pos.symbol].realizedPnL else 0.0;
    CommitLaws(cfg, s.book.positions, s.wallet, Tally(s.journal), pos, fee, slip, lost, dropped);
    var t := Enter(s, pos, fee, slip);
    EntryRecords(s.book.positions, s.closed, s.wallet, Tally(s.journal), pos, t.wallet, Tally(t.journal));
  }

  /** Relinking and relabelling a position moves no money. */
  predicate SameMoney(p: Position, q: Position) {
    && p.symbol == q.symbol && p.leverage == q.leverage && p.margin == q.margin && p.entryPrice == q.entryPrice
    && p.size == q.size && p.realizedPnL == q.realizedPnL
  }

  lemma RelinkLedgered(cfg: ValidConfig, s: BrokerState, t: BrokerState, symbol: string)
    requires Ledgered(cfg, s) && symbol in s.book.positions && symbol in t.book.positions
    requires t.book.positions == s.book.positions[symbol := t.book.positions[symbol]]
    requires SameMoney(s.book.positions[symbol], t.book.positions[symbol])
    requires t.wallet == s.wallet && t.journal == s.journal && t.closed == s.closed
    ensures Ledgered(cfg, t)
  {
    ReplacedMargin(s.book.positions, symbol, t.book.positions[symbol]);
    ReplacedProfit(s.book.positions, symbol, t.book.positions[symbol]);
  }

  lemma ProtectionMoney(b: Book, pos: Position, sl: real, tp: real)
    requires pos.symbol in b.positions && b.positions[pos.symbol] == pos
    ensures var c := Label(AddProtection(b, pos, sl, tp), pos.symbol, sl, tp);
            pos.symbol in c.positions && SameMoney(pos, c.positions[pos.symbol]) &&
            c.positions == b.positions[pos.symbol := c.positions[pos.symbol]]
  {
  }

  lemma OpenAtLedgered(cfg: ValidConfig, s: BrokerState, pos: Position, fee: real, slip: real, sl: real, tp: real)
    requires Ledgered(cfg, s) && FreshTrade(cfg, pos)
    ensures Ledgered(cfg, OpenAt(cfg, s, pos, fee, slip, sl, tp))
  {
    EnterLedgered(cfg, s, pos, fee, slip);
    var entered := Enter(s, pos, fee, slip);
    if StopInvalid(pos, sl) {
      CloseOutLedgered(cfg, entered, pos.symbol, pos.entryPrice, true);
    } else {
      ProtectionMoney(entered.book, pos, sl, tp);
      RelinkLedgered(cfg, entered, OpenAt(cfg, s, pos, fee, slip, sl, tp), pos.symbol);
    }
  }

  // ---------------------------------------------------------------- operations

  lemma VacateLedgered(cfg: ValidConfig, s: BrokerState, symbol: string, fill: real)
    requires Ledgered(cfg, s)
    ensures Ledgered(cfg, Vacate(cfg, s, symbol, fill))
  {
    if symbol in s.book.positions {
      CloseOutLedgered(cfg, s, symbol, fill, true);
    }
  }

  lemma PlaceLedgered(cfg: ValidConfig, s: BrokerState, req: OrderRequest)
    requires Ledgered(cfg, s)
    ensures Ledgered(cfg, Place(cfg, s, req).0)
  {
    if !EarlyRefusal(s, req) && req.orderType == Market && MarketFills(cfg, s, req) {
      var fill := EntryFill(cfg, req.side, s.prices[req.symbol]);
      var margin, fee := MarginFor(cfg, fill, req.qty), TakerFee(cfg, req, fill);
      FillMarketLedgered(cfg, TakeNumber(s), req, fill, margin, fee, Bps(s.prices[req.symbol], cfg.slippageBps));
    }
  }

  lemma OpenNewLedgered(
    cfg: ValidConfig, s: BrokerState, req: OrderRequest, fill: real, margin: real, fee: real, slip: real)
    requires Ledgered(cfg, s) && margin == MarginFor(cfg, fill, req.qty)
    ensures Ledgered(cfg, OpenNew(cfg, s, req, fill, margin, fee, slip))
  {
    OpenAtLedgered(cfg, s, NewPosition(cfg, s, req.symbol, req.side, req.qty, fill, margin), fee, Times(slip, req.qty),
        req.stopLoss, req.takeProfit);
  }

  lemma FillMarketLedgered(
    cfg: ValidConfig, s: BrokerState, req: OrderRequest, fill: real, margin: real, fee: real, slip: real)
    requires Ledgered(cfg, s) && req.qty > 0.0 && margin == MarginFor(cfg, fill, req.qty)
    ensures Ledgered(cfg, FillMarket(cfg, s, req, fill, margin, fee, slip))
  {
    if req.symbol in s.book.positions && req.reduceOnly {
      ReduceLedgered(cfg, s, req.symbol, req.qty, fill, fee, slip);
    } else {
      VacateLedgered(cfg, s, req.symbol, fill);
      OpenNewLedgered(cfg, Vacate(cfg, s, req.symbol, fill), req, fill, margin, fee, slip);
    }
  }

  lemma EnterAndLeaveLedgered(cfg: ValidConfig, s: BrokerState, pos: Position, fee: real, price: real)
    requires Ledgered(cfg, s) && FreshTrade(cfg, pos)
    ensures Ledgered(cfg, CloseOut(cfg, Enter(s, pos, fee, 0.0), pos, price, true))
  {
    EnterLedgered(cfg, s, pos, fee, 0.0);
    CloseOutLedgered(cfg, Enter(s, pos, fee, 0.0), pos.symbol, price, true);
  }

  lemma FillAtLedgered(cfg: ValidConfig, s: BrokerState, o: Order, fill: real, margin: real, fee: real)
    requires Ledgered(cfg, s) && margin == MarginFor(cfg, fill, o.qty)
    ensures Ledgered(cfg, FillAt(cfg, s, o, fill, margin, fee))
  {
    var pos := NewPosition(cfg, s, o.symbol, o.side, o.qty, fill, margin);
    if o.intendedSL > 0.0 || o.intendedTP > 0.0 {
      OpenAtLedgered(cfg, s, pos, fee, 0.0, o.intendedSL, o.intendedTP);
    } else {
      EnterAndLeaveLedgered(cfg, s, pos, fee, fill);
    }
  }

  lemma FillLimitLedgered(cfg: ValidConfig, s: BrokerState, o: Order)
    requires Ledgered(cfg, s) && o.price.Some?
    ensures Ledgered(cfg, FillLimit(cfg, s, o))
  {
    if LimitAccepted(cfg, s, o) {
      FillAtLedgered(cfg, s, o, o.price.value, MarginFor(cfg, o.price.value, o.qty), MakerFee(cfg, o, o.price.value));
    }
  }

  lemma TriggerLedgered(cfg: ValidConfig, s: BrokerState, k: OrderKey, price: real)
    requires Ledgered(cfg, s) && k in s.book.orders
    ensures Ledgered(cfg, Trigger(cfg, s, k, price))
  {
    var symbol := s.book.orders[k].symbol;
    if symbol in s.book.positions {
      CloseOutLedgered(cfg, s, symbol, price, false);
    }
  }

  lemma TickLedgered(cfg: ValidConfig, s: BrokerState, symbol: string, price: real, sched: seq<OrderKey>)
    requires Ledgered(cfg, s)
    ensures Ledgered(cfg, TickPass(cfg, s, symbol, price, sched))
  {
    var inv := (t: BrokerState) => Ledgered(cfg, t);
    forall t, k | inv(t) && TickFiring(symbol, price)(t, k)
      ensures inv(TickActing(cfg, price)(t, k))
    {
      TriggerLedgered(cfg, t, k, price);
    }
    Folds.SweepInvariant(s, sched, TickFiring(symbol, price), TickActing(cfg, price), inv);
  }

  lemma LimitPassLedgered(cfg: ValidConfig, s: BrokerState, c: Candle, sched: seq<OrderKey>)
    requires Ledgered(cfg, s)
    ensures Ledgered(cfg, LimitPass(cfg, s, c, sched))
  {
    var inv := (t: BrokerState) => Ledgered(cfg, t);
    forall t, k | inv(t) && LimitFiring(c)(t, k)
      ensures inv(LimitActing(cfg)(t, k))
    {
      FillLimitLedgered(cfg, t, t.book.orders[k]);
    }
    Folds.SweepInvariant(s, sched, LimitFiring(c), LimitActing(cfg), inv);
  }

  lemma CandlePassLedgered(cfg: ValidConfig, s: BrokerState, c: Candle, orderType: OrderType, sched: seq<OrderKey>)
    requires Ledgered(cfg, s)
    ensures Ledgered(cfg, CandlePass(cfg, s, c, orderType, sched).s)
  {
    var inv := (p: PassState) => Ledgered(cfg, p.s);
    forall p, k | inv(p) && CandleFiring(c, orderType)(p, k)
      ensures inv(CandleActing(cfg)(p, k))
    {
      TriggerLedgered(cfg, p.s, k, p.s.book.orders[k].stopPrice.value);
    }
    Folds.SweepInvariant(PassState(s, false), sched, CandleFiring(c, orderType), CandleActing(cfg), inv);
  }

  lemma EmergencyLedgered(cfg: ValidConfig, s: BrokerState, sched: seq<string>)
    requires Ledgered(cfg, s)
    ensures Ledgered(cfg, EmergencyClose(cfg, s, sched))
  {
    var inv := (t: BrokerState) => Ledgered(cfg, t);
    forall t, symbol | inv(t) && StillOpen()(t, symbol)
      ensures inv(EmergencyActing(cfg)(t, symbol))
    {
      CloseOutLedgered(cfg, t, symbol, EmergencyPrice(t.prices, symbol, t.book.positions[symbol]), true);
    }
    Folds.SweepInvariant(s.(book := s.book.(orders := map[])), sched, StillOpen(), EmergencyActing(cfg), inv);
  }

  lemma ReplaceLedgered(cfg: ValidConfig, s: BrokerState, symbol: string, sl: real, tp: real)
    requires Ledgered(cfg, s)
    ensures Ledgered(cfg, s.(book := Replace(s.book, symbol, sl, tp)))
  {
    if sl > 0.0 && symbol in s.book.positions {
      var t := s.(book := Replace(s.book, symbol, sl, tp));
      assert SameMoney(s.book.positions[symbol], t.book.positions[symbol]);
      assert t.book.positions == s.book.positions[symbol := t.book.positions[symbol]];
      RelinkLedgered(cfg, s, t, symbol);
    }
  }

  lemma AtCandleLedgered(cfg: ValidConfig, s: BrokerState, c: Candle, sched: CandleSchedule)
    requires Ledgered(cfg, s)
    ensures Ledgered(cfg, AtCandle(cfg, s, c, sched))
  {
    var s0 := Priced(s, c.symbol, c.close);
    LimitPassLedgered(cfg, s0, c, sched.limits);
    var s1 := LimitPass(cfg, s0, c, sched.limits);
    CandlePassLedgered(cfg, s1, c, StopMarket, sched.stops);
    var p := CandlePass(cfg, s1, c, StopMarket, sched.stops);
    CandlePassLedgered(cfg, p.s, c, TakeProfitMarket, sched.targets);
  }

  /** Every operation, valid or not, in every iteration order, keeps the ledger. */
  lemma StepLedgered(cfg: ValidConfig, s: BrokerState, op: Op)
    requires Ledgered(cfg, s)
    ensures Ledgered(cfg, Step(cfg, s, op))
  {
    match op
    case PlaceOrder(req) => PlaceLedgered(cfg, s, req);
    case CancelOrder(key) =>
    case CloseSymbol(symbol) =>
      if symbol in s.book.positions && Quoted(s, symbol) {
        CloseOutLedgered(cfg, s, symbol, s.prices[symbol], true);
      }
    case EmergencyCloseAll(order) => EmergencyLedgered(cfg, s, order);
    case UpdatePrice(symbol, price, visits) => TickLedgered(cfg, Priced(s, symbol, price), symbol, price, visits);
    case SetSymbolPrice(symbol, price) =>
    case ProcessCandle(candle, passes) => AtCandleLedgered(cfg, s, candle, passes);
    case SetProtectiveOrders(symbol, sl, tp) => ReplaceLedgered(cfg, s, symbol, sl, tp);
    case ResetDailyLoss => TallyAppend(s.journal, DayReset);
    case SetHalted =>
  }

  lemma {:induction false} RunLedgered(cfg: ValidConfig, s: BrokerState, ops: seq<Op>)
    requires Ledgered(cfg, s)
    ensures Ledgered(cfg, Run(cfg, s, ops))
    decreases |ops|
  {
    if ops != [] {
      StepLedgered(cfg, s, ops[0]);
      RunLedgered(cfg, Step(cfg, s, ops[0]), ops[1..]);
    }
  }

  /**
   From a fresh broker, whatever operations follow: the wallet is the starting balance plus all gross
   profit minus all fees, the daily loss is what was lost since the last reset, and the margin in use
   is the margin of the open positions plus that of positions overwritten by limit fills.
   */
  lemma EveryRunBalances(cfg: ValidConfig, ops: seq<Op>)
    ensures var s := Run(cfg, Fresh(cfg), ops);
            var t := Tally(s.journal);
            s.wallet.balance == cfg.startingBalance + t.gross - t.fees &&
            s.wallet.totalFees == t.fees && s.wallet.realizedPnL == t.net && s.wallet.dailyLoss == t.lossesToday &&
            s.wallet.usedMargin == Folds.SumBy(s.book.positions, MarginOf()) + t.overwritten &&
            (forall sym :: sym in s.book.positions ==>
              s.book.positions[sym].leverage == cfg.leverage &&
              s.book.positions[sym].margin
                  == s.book.positions[sym].entryPrice * s.book.positions[sym].size / cfg.leverage)
  {
    RunLedgered(cfg, Fresh(cfg), ops);
  }

  /**
   Where the realized profit is on record: with the closed positions, with the open ones after partial exits, or
   nowhere, when a position that had been reduced was closed or overwritten.
   */
  lemma EveryRunRecords(cfg: ValidConfig, ops: seq<Op>)
    ensures var s := Run(cfg, Fresh(cfg), ops);
            var onRecord := ClosedProfit(s.closed) + Folds.SumBy(s.book.positions, ProfitOf());
            && s.wallet.realizedPnL == onRecord + Tally(s.journal).forgotten
            && (s.wallet.realizedPnL == onRecord <==> Tally(s.journal).forgotten == 0.0)
  {
    RunLedgered(cfg, Fresh(cfg), ops);
  }

  /**
   The record a close writes is the whole profit of the position exactly when no partial exit had earned or lost
   anything.
   */
  lemma ClosedRecordForgets(cfg: ValidConfig, s: BrokerState, symbol: string, price: real, synthetic: bool)
    requires symbol in s.book.positions
    ensures var pos, t := s.book.positions[symbol], CloseOut(cfg, s, s.book.positions[symbol], price, synthetic);
            && |t.closed| == |s.closed| + 1
            && t.closed[|s.closed|].realizedPnL == ExitNet(cfg, pos, price)
            && Tally(t.journal).forgotten == Tally(s.journal).forgotten + pos.realizedPnL
            && (t.closed[|s.closed|].realizedPnL == pos.realizedPnL + ExitNet(cfg, pos, price) <==>
                pos.realizedPnL == 0.0)
  {
    var pos := s.book.positions[symbol];
    TallyAppend(s.journal, Exited(ExitGross(cfg, pos, price), ExitFee(cfg, pos, price), pos.realizedPnL));
  }
}
