/** Which broker operations keep every position protected: an exact condition for each, then whole runs. */
module BrokerRuns {
  import opened Numbers
  import opened Domain
  import opened BrokerModel
  import opened BrokerProtection

  ghost predicate SoundBook(b: Book) {
    Sound(b.positions, b.orders, b.nextOrderID)
  }

  // ---------------------------------------------------------------- opening

  /** A position with a stop numbered `n`. */
  function Stopped(pos: Position, n: int, sl: real, tp: real): Position {
    pos.(slOrderID := Some(n), stopLoss := sl, takeProfit := tp)
  }

  lemma StopShape(b: Book, pos: Position, sl: real, tp: real)
    ensures Label(AddStop(b.(positions := b.positions[pos.symbol := pos]), pos, sl), pos.symbol, sl, tp)
            == Book(b.positions[pos.symbol := Stopped(pos, b.nextOrderID, sl, tp)],
                    b.orders[Paper(b.nextOrderID) := ProtectiveOrder(b.nextOrderID, pos, StopMarket, sl)],
                    b.nextOrderID + 1)
  {
  }

  lemma StopOnlyGuards(b: Book, pos: Position, sl: real, tp: real)
    requires SoundBook(b) && pos.symbol !in b.positions && pos.symbol != "" && pos.size > 0.0 && pos.tpOrderID == None
    requires StopOnLosingSide(pos.side, pos.entryPrice, sl)
    ensures SoundBook(Label(AddStop(b.(positions := b.positions[pos.symbol := pos]), pos, sl), pos.symbol, sl, tp))
  {
    StopShape(b, pos, sl, tp);
    AddStopSound(b.positions, b.orders, b.nextOrderID, pos, sl, Stopped(pos, b.nextOrderID, sl, tp));
  }

  lemma PairShape(b: Book, pos: Position, sl: real, tp: real)
    ensures Label(AddTarget(AddStop(b.(positions := b.positions[pos.symbol := pos]), pos, sl),
                            pos.(slOrderID := Some(b.nextOrderID)), tp), pos.symbol, sl, tp)
            == Book(b.positions[pos.symbol := Paired(pos, b.nextOrderID, sl, tp)],
                WithPair(b.orders, pos, b.nextOrderID, sl, tp), b.nextOrderID + 2)
  {
  }

  predicate Targeted(pos: Position, tp: real) {
    tp > 0.0 && TargetOnWinningSide(pos.side, pos.entryPrice, tp)
  }

  /** Whatever the position overwrites, its entry leaves it with a stop, and with a target when that is on its side. */
  lemma AddedShape(b: Book, pos: Position, sl: real, tp: real)
    requires sl > 0.0
    ensures Label(AddProtection(b, pos, sl, tp), pos.symbol, sl, tp)
            == var n := b.nextOrderID;
               if Targeted(pos, tp)
               then Book(b.positions[pos.symbol := Paired(pos, n, sl, tp)], WithPair(b.orders, pos, n, sl, tp), n + 2)
               else Book(b.positions[pos.symbol := Stopped(pos, n, sl, tp)],
                         b.orders[Paper(n) := ProtectiveOrder(n, pos, StopMarket, sl)], n + 1)
  {
    var b1 := AddStop(b, pos, sl);
    if Targeted(pos, tp) {
      assert b1.positions[pos.symbol := pos] == b.positions[pos.symbol := pos];
    }
  }

  lemma StopAndTargetGuard(b: Book, pos: Position, sl: real, tp: real)
    requires SoundBook(b) && pos.symbol !in b.positions && pos.symbol != "" && pos.size > 0.0
    requires StopOnLosingSide(pos.side, pos.entryPrice, sl) && TargetOnWinningSide(pos.side, pos.entryPrice, tp)
    ensures SoundBook(Label(AddTarget(AddStop(b.(positions := b.positions[pos.symbol := pos]), pos, sl),
                                      pos.(slOrderID := Some(b.nextOrderID)), tp), pos.symbol, sl, tp))
  {
    PairShape(b, pos, sl, tp);
    AddPairSound(b.positions, b.orders, b.nextOrderID, pos, sl, tp, Paired(pos, b.nextOrderID, sl, tp));
  }

  /** Entering a fresh position with its protection leaves a sound book exactly when there is a stop level. */
  lemma EntrySound(b: Book, pos: Position, sl: real, tp: real)
    requires SoundBook(b) && pos.symbol !in b.positions && pos.symbol != "" && pos.size > 0.0
    requires pos.slOrderID == None && pos.tpOrderID == None && !StopInvalid(pos, sl)
    ensures var entered := b.(positions := b.positions[pos.symbol := pos]);
            SoundBook(Label(AddProtection(entered, pos, sl, tp), pos.symbol, sl, tp)) <==> sl > 0.0
  {
    if sl <= 0.0 {
      var c := Label(AddProtection(b.(positions := b.positions[pos.symbol := pos]), pos, sl, tp), pos.symbol, sl, tp);
      assert !Guarded(c.positions, c.orders, pos.symbol);
    } else if tp > 0.0 && TargetOnWinningSide(pos.side, pos.entryPrice, tp) {
      StopAndTargetGuard(b, pos, sl, tp);
    } else {
      StopOnlyGuards(b, pos, sl, tp);
    }
  }

  /** The emergency branch undoes an entry: the book is the one before it. */
  lemma UndoneEntry(b: Book, pos: Position)
    requires SoundBook(b) && pos.symbol !in b.positions && pos.slOrderID == None && pos.tpOrderID == None
    ensures Remove(b.(positions := b.positions[pos.symbol := pos]), pos) == b
  {
  }

  lemma OpenAtKeeps(cfg: ValidConfig, s: BrokerState, pos: Position, fee: real, slip: real, sl: real, tp: real)
    requires Protected(s) && pos.symbol !in s.book.positions
    requires pos.symbol != "" && pos.size > 0.0 && pos.slOrderID == None && pos.tpOrderID == None
    ensures Protected(OpenAt(cfg, s, pos, fee, slip, sl, tp)) <==> sl > 0.0
  {
    if StopInvalid(pos, sl) {
      UndoneEntry(s.book, pos);
      MoreNumbers(s.book.positions, s.book.orders, s.book.nextOrderID, s.book.nextOrderID + 1);
    } else {
      EntrySound(s.book, pos, sl, tp);
    }
  }

  // ---------------------------------------------------------------- closing and reducing

  lemma CloseOutKeeps(cfg: ValidConfig, s: BrokerState, symbol: string, price: real, synthetic: bool)
    requires Protected(s) && symbol in s.book.positions
    ensures var t := CloseOut(cfg, s, s.book.positions[symbol], price, synthetic);
            Protected(t) && t.book.positions == s.book.positions - {symbol} && Bare(t.book.orders, symbol)
  {
    assert Guarded(s.book.positions, s.book.orders, symbol);
    CloseSound(s.book.positions, s.book.orders, s.book.nextOrderID, symbol);
    var t := CloseOut(cfg, s, s.book.positions[symbol], price, synthetic);
    MoreNumbers(t.book.positions, t.book.orders, s.book.nextOrderID, t.book.nextOrderID);
  }

  lemma ReduceKeeps(cfg: ValidConfig, s: BrokerState, symbol: string, qty: real, fill: real, fee: real, slip: real)
    requires Protected(s) && symbol in s.book.positions && qty > 0.0
    ensures Protected(Reduce(cfg, s, s.book.positions[symbol], qty, fill, fee, slip))
  {
    assert Guarded(s.book.positions, s.book.orders, symbol);
    if qty >= s.book.positions[symbol].size {
      CloseOutKeeps(cfg, s, symbol, fill, true);
    } else {
      var t := Reduce(cfg, s, s.book.positions[symbol], qty, fill, fee, slip);
      ShrinkSound(s.book.positions, s.book.orders, s.book.nextOrderID, symbol, t.book.positions[symbol]);
    }
  }

  // ---------------------------------------------------------------- placing and cancelling

  /** An accepted request that leaves something behind no stop will ever cover. */
  predicate Strays(cfg: ValidConfig, s: BrokerState, req: OrderRequest) {
    !EarlyRefusal(s, req) &&
    match req.orderType
    case Market => req.reduceOnly && req.symbol !in s.book.positions && req.stopLoss <= 0.0 && MarketFills(cfg, s, req)
    case Limit => req.reduceOnly && req.stopLoss <= 0.0 && req.price.Some? && req.price.value > 0.0
    case _ => req.stopPrice.Some? && req.stopPrice.value > 0.0
  }

  lemma VacateKeeps(cfg: ValidConfig, s: BrokerState, symbol: string, fill: real)
    requires Protected(s)
    ensures Protected(Vacate(cfg, s, symbol, fill)) && symbol !in Vacate(cfg, s, symbol, fill).book.positions
  {
    if symbol in s.book.positions {
      CloseOutKeeps(cfg, s, symbol, fill, true);
    }
  }

  lemma OpenNewKeeps(
    cfg: ValidConfig, s: BrokerState, req: OrderRequest, fill: real, margin: real, fee: real, slip: real)
    requires Protected(s) && req.qty > 0.0 && req.symbol != "" && req.symbol !in s.book.positions
    ensures Protected(OpenNew(cfg, s, req, fill, margin, fee, slip)) <==> req.stopLoss > 0.0
  {
    OpenAtKeeps(cfg, s, NewPosition(cfg, s, req.symbol, req.side, req.qty, fill, margin), fee, Times(slip, req.qty),
        req.stopLoss, req.takeProfit);
  }

  lemma FillMarketKeeps(
    cfg: ValidConfig, s: BrokerState, req: OrderRequest, fill: real, margin: real, fee: real, slip: real)
    requires Protected(s) && req.qty > 0.0 && req.symbol != ""
    ensures Protected(FillMarket(cfg, s, req, fill, margin, fee, slip)) <==>
            req.stopLoss > 0.0 || (req.symbol in s.book.positions && req.reduceOnly)
  {
    if req.symbol in s.book.positions && req.reduceOnly {
      ReduceKeeps(cfg, s, req.symbol, req.qty, fill, fee, slip);
    } else {
      VacateKeeps(cfg, s, req.symbol, fill);
      OpenNewKeeps(cfg, Vacate(cfg, s, req.symbol, fill), req, fill, margin, fee, slip);
    }
  }

  lemma PlaceMarketKeeps(cfg: ValidConfig, s: BrokerState, req: OrderRequest)
    requires Protected(s) && req.orderType == Market && !EarlyRefusal(s, req)
    ensures Protected(PlaceMarket(cfg, s, req).0) <==> !Strays(cfg, s, req)
  {
    MoreNumbers(s.book.positions, s.book.orders, s.book.nextOrderID, s.book.nextOrderID + 1);
    if MarketFills(cfg, s, req) {
      var fill := EntryFill(cfg, req.side, s.prices[req.symbol]);
      FillMarketKeeps(cfg, TakeNumber(s), req, fill, MarginFor(cfg, fill, req.qty), TakerFee(cfg, req, fill),
          Bps(s.prices[req.symbol], cfg.slippageBps));
    }
  }

  /** A freshly numbered resting order fits a sound book exactly when it is an armed LIMIT order. */
  lemma RestingSound(b: Book, o: Order)
    requires SoundBook(b) && o.id == b.nextOrderID && o.orderType != Market
    ensures Sound(b.positions, b.orders[Paper(o.id) := o], o.id + 1) <==> o.orderType == Limit && Armed(o)
  {
    if o.orderType == Limit && Armed(o) {
      AddLimitSound(b.positions, b.orders, b.nextOrderID, o);
    } else {
      assert o.symbol in b.positions ==> Guarded(b.positions, b.orders, o.symbol);
      assert b.orders[Paper(o.id) := o][Paper(o.id)] == o;
      assert !(Owned(b.positions, o) && Armed(o));
    }
  }

  function RestingLevel(req: OrderRequest): Option<real> {
    if req.orderType == Limit then req.price else req.stopPrice
  }

  predicate RestingAccepted(req: OrderRequest) {
    RestingLevel(req).Some? && RestingLevel(req).value > 0.0
  }

  lemma RestingStrays(cfg: ValidConfig, s: BrokerState, req: OrderRequest)
    requires req.orderType != Market && !EarlyRefusal(s, req)
    ensures var o := NewOrder(s.book.nextOrderID, req);
            Strays(cfg, s, req) <==> RestingAccepted(req) && !(o.orderType == Limit && Armed(o))
  {
  }

  lemma RestingBook(s: BrokerState, req: OrderRequest)
    ensures var b, o := s.book, NewOrder(s.book.nextOrderID, req);
            PlaceResting(s, req).0.book ==
            if RestingAccepted(req) then Book(b.positions, b.orders[Paper(o.id) := o], o.id + 1)
            else b.(nextOrderID := b.nextOrderID + 1)
  {
  }

  /** A stored order keeps a sound book exactly when it is an armed LIMIT order; a refused one only takes a number. */
  lemma RestingOutcome(s: BrokerState, req: OrderRequest, o: Order)
    requires Protected(s) && req.orderType != Market && o == NewOrder(s.book.nextOrderID, req)
    ensures Protected(PlaceResting(s, req).0) <==> !RestingAccepted(req) || (o.orderType == Limit && Armed(o))
  {
    RestingBook(s, req);
    if RestingAccepted(req) {
      RestingSound(s.book, o);
    } else {
      MoreNumbers(s.book.positions, s.book.orders, s.book.nextOrderID, s.book.nextOrderID + 1);
    }
  }

  lemma PlaceRestingKeeps(cfg: ValidConfig, s: BrokerState, req: OrderRequest)
    requires Protected(s) && req.orderType != Market && !EarlyRefusal(s, req)
    ensures Protected(PlaceResting(s, req).0) <==> !Strays(cfg, s, req)
  {
    RestingStrays(cfg, s, req);
    RestingOutcome(s, req, NewOrder(s.book.nextOrderID, req));
  }

  /** Exactly the stray requests break protection. */
  lemma PlaceKeeps(cfg: ValidConfig, s: BrokerState, req: OrderRequest)
    requires Protected(s)
    ensures Protected(Place(cfg, s, req).0) <==> !Strays(cfg, s, req)
  {
    if !EarlyRefusal(s, req) {
      if req.orderType == Market {
        PlaceMarketKeeps(cfg, s, req);
      } else {
        PlaceRestingKeeps(cfg, s, req);
      }
    }
  }

  // ---------------------------------------------------------------- replacing the protective orders

  lemma ReplacePairShape(b: Book, symbol: string, sl: real, tp: real)
    requires symbol in b.positions && sl > 0.0 && tp > 0.0 && LevelsValid(b.positions[symbol], sl, tp)
    requires b.positions[symbol].size > 0.0 && symbol != ""
    ensures var p, n := b.positions[symbol], b.nextOrderID;
            Replace(b, symbol, sl, tp) == Book((b.positions - {symbol})[symbol := Paired(p, n, sl, tp)],
                                               WithPair(CancelSiblings(b.orders, p), p, n, sl, tp), n + 2)
  {
  }

  lemma ReplaceStopShape(b: Book, symbol: string, sl: real, tp: real)
    requires symbol in b.positions && sl > 0.0 && tp <= 0.0 && LevelsValid(b.positions[symbol], sl, tp)
    requires b.positions[symbol].size > 0.0 && symbol != ""
    ensures var p, n := b.positions[symbol], b.nextOrderID;
            Replace(b, symbol, sl, tp)
            == Book((b.positions - {symbol})[symbol := p.(slOrderID := Some(n), stopLoss := sl)],
                    CancelSiblings(b.orders, p)[Paper(n) := ProtectiveOrder(n, p, StopMarket, sl)], n + 1)
  {
  }

  lemma ReplaceSound(b: Book, symbol: string, sl: real, tp: real)
    requires SoundBook(b) && symbol in b.positions && sl > 0.0 && LevelsValid(b.positions[symbol], sl, tp)
    ensures SoundBook(Replace(b, symbol, sl, tp))
  {
    assert Guarded(b.positions, b.orders, symbol);
    CloseSound(b.positions, b.orders, b.nextOrderID, symbol);
    var p := b.positions[symbol];
    if tp > 0.0 {
      ReplacePairShape(b, symbol, sl, tp);
      ReplacedPairSound(b.positions - {symbol}, CancelSiblings(b.orders, p), b.nextOrderID, p, sl, tp);
    } else {
      ReplaceStopShape(b, symbol, sl, tp);
      ReplacedStopSound(b.positions - {symbol}, CancelSiblings(b.orders, p), b.nextOrderID, p, sl);
    }
  }

  lemma ReplacedPairSound(ps: Positions, os: Orders, n: int, p: Position, sl: real, tp: real)
    requires Sound(ps, os, n) && p.symbol !in ps && p.symbol != "" && p.size > 0.0
    requires sl > 0.0 && tp > 0.0 && LevelsValid(p, sl, tp)
    ensures Sound(ps[p.symbol := Paired(p, n, sl, tp)], WithPair(os, p, n, sl, tp), n + 2)
  {
    AddPairSound(ps, os, n, p, sl, tp, Paired(p, n, sl, tp));
  }

  lemma ReplacedStopSound(ps: Positions, os: Orders, n: int, p: Position, sl: real)
    requires Sound(ps, os, n) && p.symbol !in ps && p.symbol != "" && p.size > 0.0 && Issued(n, p.tpOrderID)
    requires sl > 0.0 && LevelsValid(p, sl, 0.0)
    ensures Sound(ps[p.symbol := p.(slOrderID := Some(n), stopLoss := sl)],
                  os[Paper(n) := ProtectiveOrder(n, p, StopMarket, sl)], n + 1)
  {
    AddStopSound(ps, os, n, p, sl, p.(slOrderID := Some(n), stopLoss := sl));
  }

  /**
   Replacing breaks protection exactly when the levels are invalid for the open position: by then the old stop is
   gone.
   */
  lemma ReplaceKeeps(b: Book, symbol: string, sl: real, tp: real)
    requires SoundBook(b)
    ensures SoundBook(Replace(b, symbol, sl, tp)) <==>
              (sl > 0.0 && symbol in b.positions ==> LevelsValid(b.positions[symbol], sl, tp))
  {
    if sl > 0.0 && symbol in b.positions {
      if LevelsValid(b.positions[symbol], sl, tp) {
        ReplaceSound(b, symbol, sl, tp);
      } else {
        CancelledIsUnsound(b.positions, b.orders, b.nextOrderID, symbol);
      }
    }
  }

  // ---------------------------------------------------------------- limit fills

  /** A stored LIMIT order fills onto a free symbol, or is turned away, exactly when protection survives. */
  predicate LandsFree(cfg: ValidConfig, s: BrokerState, k: OrderKey)
    requires k in s.book.orders && s.book.orders[k].price.Some?
  {
    LimitAccepted(cfg, s, s.book.orders[k]) ==> s.book.orders[k].symbol !in s.book.positions
  }

  /** Entering on top of a position strands the stop of the position that was there. */
  lemma StrandedStop(b: Book, c: Book, symbol: string)
    requires SoundBook(b) && symbol in b.positions && symbol in c.positions
    requires c.positions[symbol].slOrderID != b.positions[symbol].slOrderID
    requires forall k :: k in b.orders && b.orders[k].orderType == StopMarket ==>
               k in c.orders && c.orders[k] == b.orders[k]
    ensures !SoundBook(c)
  {
  }

  lemma LimitOverPosition(cfg: ValidConfig, s: BrokerState, k: OrderKey)
    requires Protected(s) && k in s.book.orders && s.book.orders[k].orderType == Limit && s.book.orders[k].price.Some?
    requires LimitAccepted(cfg, s, s.book.orders[k]) && s.book.orders[k].symbol in s.book.positions
    ensures !Protected(LimitAct(cfg, s, k))
  {
    var o := s.book.orders[k];
    var pos := NewPosition(cfg, s, o.symbol, o.side, o.qty, o.price.value, MarginFor(cfg, o.price.value, o.qty));
    assert Armed(o) && Guarded(s.book.positions, s.book.orders, o.symbol);
    var entered := s.book.(positions := s.book.positions[o.symbol := pos]);
    var c := Label(AddProtection(entered, pos, o.intendedSL, o.intendedTP), o.symbol, o.intendedSL, o.intendedTP);
    OverEntry(s.book, pos, o.intendedSL, o.intendedTP);
    StrandedStop(s.book, c.(orders := c.orders - {k}), o.symbol);
  }

  lemma OverEntry(b: Book, pos: Position, sl: real, tp: real)
    requires SoundBook(b) && sl > 0.0 && pos.symbol in b.positions
    ensures var c := Label(AddProtection(b.(positions := b.positions[pos.symbol := pos]), pos, sl, tp), pos.symbol, sl,
              tp);
            pos.symbol in c.positions && c.positions[pos.symbol].slOrderID == Some(b.nextOrderID) &&
            b.positions[pos.symbol].slOrderID != Some(b.nextOrderID) &&
            (forall k :: k in b.orders ==> k in c.orders && c.orders[k] == b.orders[k])
  {
    AddedShape(b.(positions := b.positions[pos.symbol := pos]), pos, sl, tp);
    FreshNumbers(b);
  }

  /** The next two numbers are not taken, neither as keys nor as links. */
  lemma FreshNumbers(b: Book)
    requires SoundBook(b)
    ensures Paper(b.nextOrderID) !in b.orders && Paper(b.nextOrderID + 1) !in b.orders
    ensures forall y :: y in b.positions ==> b.positions[y].slOrderID != Some(b.nextOrderID)
  {
  }

  /** The orders an entry adds: its stop, perhaps its target, both linked, under the next two numbers. */
  ghost predicate AddedFor(before: Orders, after: Orders, q: Position, n: int) {
    q.slOrderID == Some(n) && (q.tpOrderID == None || q.tpOrderID == Some(n + 1)) &&
    (forall k :: k in before ==> k in after && after[k] == before[k]) &&
    (forall k :: k in after && k !in before ==> Protects(after[k], q))
  }

  lemma EntryAdds(b: Book, pos: Position, sl: real, tp: real)
    requires Paper(b.nextOrderID) !in b.orders && Paper(b.nextOrderID + 1) !in b.orders
    requires pos.slOrderID == None && pos.tpOrderID == None && sl > 0.0 && pos.symbol in b.positions
    ensures var c := Label(AddProtection(b, pos, sl, tp), pos.symbol, sl, tp);
            pos.symbol in c.positions && AddedFor(b.orders, c.orders, c.positions[pos.symbol], b.nextOrderID)
  {
    AddedShape(b, pos, sl, tp);
  }

  lemma PositionsTakenOver(ps: Positions, pos: Position, q: Position, r: Position)
    requires q.symbol == pos.symbol && r == q
    ensures ps[pos.symbol := pos][pos.symbol := q] == ps[pos.symbol := r]
  {
  }

  lemma AddedIsCancelled(b: Book, after: Orders, q: Position, n: int)
    requires SoundBook(b) && n >= b.nextOrderID && AddedFor(b.orders, after, q, n)
    ensures CancelSiblings(after, q) == b.orders
  {
  }

  /** Filling a stored LIMIT order keeps protection exactly when it does not land on an open position. */
  lemma LimitActKeeps(cfg: ValidConfig, s: BrokerState, k: OrderKey)
    requires Protected(s) && k in s.book.orders && s.book.orders[k].orderType == Limit && s.book.orders[k].price.Some?
    ensures Protected(LimitAct(cfg, s, k)) <==> LandsFree(cfg, s, k)
  {
    var o := s.book.orders[k];
    assert Armed(o);
    if !LimitAccepted(cfg, s, o) {
      DropSound(s.book.positions, s.book.orders, s.book.nextOrderID, k);
    } else if o.symbol in s.book.positions {
      LimitOverPosition(cfg, s, k);
    } else {
      var pos := NewPosition(cfg, s, o.symbol, o.side, o.qty, o.price.value, MarginFor(cfg, o.price.value, o.qty));
      var fee := MakerFee(cfg, o, o.price.value);
      OpenAtKeeps(cfg, s, pos, fee, 0.0, o.intendedSL, o.intendedTP);
      var t := OpenAt(cfg, s, pos, fee, 0.0, o.intendedSL, o.intendedTP);
      DropSound(t.book.positions, t.book.orders, t.book.nextOrderID, k);
      OpenAtOrders(cfg, s, pos, fee, 0.0, o.intendedSL, o.intendedTP);
    }
  }

  /** Protection adds orders under fresh numbers, none of them a LIMIT order. */
  lemma ProtectionOrders(b: Book, c: Book, pos: Position, sl: real, tp: real)
    requires SoundBook(b) && c.orders == b.orders && c.nextOrderID == b.nextOrderID
    ensures var d := AddProtection(c, pos, sl, tp);
            (forall k :: k in b.orders ==> k in d.orders && d.orders[k] == b.orders[k]) &&
            (forall k :: k in d.orders && k !in b.orders ==> d.orders[k].orderType != Limit)
  {
  }

  /** A position without order links has nothing to cancel. */
  lemma NothingToCancel(b: Book, pos: Position)
    requires SoundBook(b) && pos.slOrderID == None && pos.tpOrderID == None
    ensures CancelSiblings(b.orders, pos) == b.orders
  {
  }

  lemma OpenAtStored(cfg: ValidConfig, s: BrokerState, pos: Position, fee: real, slip: real, sl: real, tp: real)
    ensures OpenAt(cfg, s, pos, fee, slip, sl, tp).book.orders
            == if StopInvalid(pos, sl) then CancelSiblings(s.book.orders, pos)
               else AddProtection(s.book.(positions := s.book.positions[pos.symbol := pos]), pos, sl, tp).orders
  {
  }

  /** Opening adds protective orders and touches no stored order. */
  lemma OpenAtOrders(cfg: ValidConfig, s: BrokerState, pos: Position, fee: real, slip: real, sl: real, tp: real)
    requires Protected(s) && pos.slOrderID == None && pos.tpOrderID == None
    ensures var t := OpenAt(cfg, s, pos, fee, slip, sl, tp);
            (forall k :: k in s.book.orders ==> k in t.book.orders && t.book.orders[k] == s.book.orders[k]) &&
            (forall k :: k in t.book.orders && k !in s.book.orders ==> t.book.orders[k].orderType != Limit)
  {
    OpenAtStored(cfg, s, pos, fee, slip, sl, tp);
    NothingToCancel(s.book, pos);
    ProtectionOrders(s.book, s.book.(positions := s.book.positions[pos.symbol := pos]), pos, sl, tp);
  }
}
