/**
 Replacing protective orders as it really goes: the old pair is cancelled and the position copied under the lock, the
 new orders are placed by calls of their own, and the position is looked up again before it is linked. Other calls may
 come in between.
 */
module ProtectiveRace {
  import opened Domain
  import opened BrokerModel
  import opened BrokerProtection
  import opened BrokerRuns

  /** The copy made under the lock, the new levels, and the numbers the new orders got. */
  datatype Replacement = Replacement(copy: Position, sl: real, tp: real, slID: int, tpID: Option<int>)

  function Begun(b: Book, symbol: string): Book
    requires symbol in b.positions
  {
    b.(orders := CancelSiblings(b.orders, b.positions[symbol]))
  }

  function LevelRequest(symbol: string, copy: Position, orderType: OrderType, level: real): OrderRequest {
    OrderRequest(symbol, ClosingSide(copy.side), orderType, copy.size, None, Some(level), false, 0.0, 0.0)
  }

  /** The position is open under the number it had when it was copied. */
  predicate StillOpen(b: Book, symbol: string, r: Replacement) {
    symbol in b.positions && b.positions[symbol].id == r.copy.id
  }

  function Relabelled(p: Position, r: Replacement): Position {
    if r.tpID.Some? then p.(slOrderID := Some(r.slID), tpOrderID := r.tpID, stopLoss := r.sl, takeProfit := r.tp)
    else p.(slOrderID := Some(r.slID), stopLoss := r.sl)
  }

  function Linked(b: Book, symbol: string, r: Replacement): Book {
    if StillOpen(b, symbol, r) then b.(positions := b.positions[symbol := Relabelled(b.positions[symbol], r)]) else b
  }

  // ---------------------------------------------------------------- without interference

  lemma LevelIsPlaced(cfg: ValidConfig, s: BrokerState, copy: Position, orderType: OrderType, level: real)
    requires copy.size > 0.0 && copy.symbol != "" && level > 0.0
    requires orderType == StopMarket || orderType == TakeProfitMarket
    ensures var n := s.book.nextOrderID;
            Place(cfg, s, LevelRequest(copy.symbol, copy, orderType, level)).0
            == s.(book := s.book.(orders := s.book.orders[Paper(n) := ProtectiveOrder(n, copy, orderType, level)],
                                  nextOrderID := n + 1))
  {
  }

  /** The state after the new orders have been placed, nobody coming in between. */
  function Placed(cfg: ValidConfig, s: BrokerState, symbol: string, sl: real, tp: real): BrokerState
    requires symbol in s.book.positions
  {
    var copy := s.book.positions[symbol];
    var s1 := Place(cfg, s.(book := Begun(s.book, symbol)), LevelRequest(symbol, copy, StopMarket, sl)).0;
    if tp > 0.0 then Place(cfg, s1, LevelRequest(symbol, copy, TakeProfitMarket, tp)).0 else s1
  }

  function Numbered(b: Book, symbol: string, sl: real, tp: real): Replacement
    requires symbol in b.positions
  {
    Replacement(b.positions[symbol], sl, tp, b.nextOrderID, if tp > 0.0 then Some(b.nextOrderID + 1) else None)
  }

  predicate Replaceable(b: Book, symbol: string, sl: real, tp: real) {
    && symbol in b.positions && b.positions[symbol].symbol == symbol && symbol != "" && b.positions[symbol].size > 0.0
    && sl > 0.0 && LevelsValid(b.positions[symbol], sl, tp)
  }

  lemma PlacedShape(cfg: ValidConfig, s: BrokerState, symbol: string, sl: real, tp: real)
    requires Replaceable(s.book, symbol, sl, tp)
    ensures var p, n, os := s.book.positions[symbol], s.book.nextOrderID, Begun(s.book, symbol).orders;
            Placed(cfg, s, symbol, sl, tp).book
            == Book(s.book.positions,
                    if tp > 0.0 then WithPair(os, p, n, sl, tp)
                    else os[Paper(n) := ProtectiveOrder(n, p, StopMarket, sl)],
                    if tp > 0.0 then n + 2 else n + 1)
  {
    var p, s0 := s.book.positions[symbol], s.(book := Begun(s.book, symbol));
    LevelIsPlaced(cfg, s0, p, StopMarket, sl);
    if tp > 0.0 {
      LevelIsPlaced(cfg, Place(cfg, s0, LevelRequest(symbol, p, StopMarket, sl)).0, p, TakeProfitMarket, tp);
    }
  }

  /** When nobody comes in between, the calls make the one step of SetProtectiveOrders. */
  lemma UndisturbedIsOneStep(cfg: ValidConfig, s: BrokerState, symbol: string, sl: real, tp: real)
    requires Replaceable(s.book, symbol, sl, tp)
    ensures Linked(Placed(cfg, s, symbol, sl, tp).book, symbol, Numbered(s.book, symbol, sl, tp))
            == Replace(s.book, symbol, sl, tp)
  {
    PlacedShape(cfg, s, symbol, sl, tp);
  }

  // ---------------------------------------------------------------- with interference

  function OwnKeys(r: Replacement): set<OrderKey> {
    if r.tpID.Some? then {Paper(r.slID), Paper(r.tpID.value)} else {Paper(r.slID)}
  }

  /** The new orders are stored, not yet linked. */
  predicate Stored(b: Book, symbol: string, r: Replacement) {
    && r.copy.symbol == symbol && symbol != "" && r.sl > 0.0 && LevelsValid(r.copy, r.sl, r.tp)
    && (r.tpID.Some? <==> r.tp > 0.0)
    && 1 <= r.slID < b.nextOrderID && Paper(r.slID) in b.orders
    && b.orders[Paper(r.slID)] == ProtectiveOrder(r.slID, r.copy, StopMarket, r.sl)
    && (r.tpID.Some? ==>
          r.slID < r.tpID.value < b.nextOrderID && Paper(r.tpID.value) in b.orders &&
          b.orders[Paper(r.tpID.value)] == ProtectiveOrder(r.tpID.value, r.copy, TakeProfitMarket, r.tp))
  }

  /** A position that kept its number is the same trade, perhaps reduced. */
  predicate PerhapsReduced(p: Position, copy: Position) {
    p.symbol == copy.symbol && p.side == copy.side && p.entryPrice == copy.entryPrice && 0.0 < p.size <= copy.size
  }

  /**
   Whatever came in between left the rest of the book protected: all other positions and orders, and the symbol's own
   position if it is a new one.
   */
  ghost predicate Waiting(b: Book, symbol: string, r: Replacement) {
    && Stored(b, symbol, r)
    && (StillOpen(b, symbol, r) ==>
          PerhapsReduced(b.positions[symbol], r.copy) && Issued(b.nextOrderID, b.positions[symbol].tpOrderID))
    && Sound(if StillOpen(b, symbol, r) then b.positions - {symbol} else b.positions,
             b.orders - OwnKeys(r), b.nextOrderID)
  }

  lemma LinkGuards(b: Book, symbol: string, r: Replacement)
    requires Waiting(b, symbol, r) && StillOpen(b, symbol, r)
    ensures SoundBook(Linked(b, symbol, r))
  {
    var c := Linked(b, symbol, r);
    var rest, os := b.positions - {symbol}, b.orders - OwnKeys(r);
    forall y | y in c.positions
      ensures Guarded(c.positions, c.orders, y)
      ensures Issued(c.nextOrderID, c.positions[y].slOrderID) && Issued(c.nextOrderID, c.positions[y].tpOrderID)
    {
      if y != symbol {
        assert Guarded(rest, os, y) && c.positions[y] == rest[y];
      }
    }
    forall k | k in c.orders
      ensures k == Paper(c.orders[k].id) && 1 <= c.orders[k].id < c.nextOrderID
      ensures Owned(c.positions, c.orders[k]) && Armed(c.orders[k])
    {
      if k in os {
        assert Owned(rest, os[k]) && c.orders[k] == os[k];
      }
    }
  }

  lemma UnlinkedStopIsStray(b: Book, symbol: string, r: Replacement)
    requires Waiting(b, symbol, r) && !StillOpen(b, symbol, r)
    ensures !SoundBook(b)
  {
    if symbol in b.positions {
      assert Guarded(b.positions, b.orders - OwnKeys(r), symbol);
    }
    assert !Owned(b.positions, b.orders[Paper(r.slID)]);
  }

  /** After the link everything is protected exactly when the position copied at the start is still the open one. */
  lemma LinkKeepsExactly(b: Book, symbol: string, r: Replacement)
    requires Waiting(b, symbol, r)
    ensures SoundBook(Linked(b, symbol, r)) <==> StillOpen(b, symbol, r)
  {
    if StillOpen(b, symbol, r) {
      LinkGuards(b, symbol, r);
    } else {
      UnlinkedStopIsStray(b, symbol, r);
    }
  }

  /** From a protected state, the calls made so far leave the replacement waiting for its link. */
  lemma PlacedIsWaiting(cfg: ValidConfig, s: BrokerState, symbol: string, sl: real, tp: real)
    requires Protected(s) && Replaceable(s.book, symbol, sl, tp)
    ensures var b, r := Placed(cfg, s, symbol, sl, tp).book, Numbered(s.book, symbol, sl, tp);
            Waiting(b, symbol, r) && StillOpen(b, symbol, r)
  {
    var b, r := Placed(cfg, s, symbol, sl, tp).book, Numbered(s.book, symbol, sl, tp);
    var os := Begun(s.book, symbol).orders;
    assert Guarded(s.book.positions, s.book.orders, symbol);
    CloseSound(s.book.positions, s.book.orders, s.book.nextOrderID, symbol);
    FreshNumbers(s.book);
    PlacedIsStored(cfg, s, symbol, sl, tp);
    MoreNumbers(s.book.positions - {symbol}, os, s.book.nextOrderID, b.nextOrderID);
  }

  lemma PlacedIsStored(cfg: ValidConfig, s: BrokerState, symbol: string, sl: real, tp: real)
    requires Replaceable(s.book, symbol, sl, tp) && s.book.nextOrderID >= 1
    requires Paper(s.book.nextOrderID) !in s.book.orders && Paper(s.book.nextOrderID + 1) !in s.book.orders
    ensures var b, r := Placed(cfg, s, symbol, sl, tp).book, Numbered(s.book, symbol, sl, tp);
            Stored(b, symbol, r) && b.positions == s.book.positions && b.nextOrderID > s.book.nextOrderID &&
            b.orders - OwnKeys(r) == Begun(s.book, symbol).orders
  {
    PlacedShape(cfg, s, symbol, sl, tp);
  }

  /** The position is not linked to the new orders yet. */
  predicate Unlinked(b: Book, p: Position, r: Replacement) {
    forall k :: k in OwnKeys(r) && k in b.orders ==> !Protects(b.orders[k], p)
  }

  lemma OthersSurviveClose(ps: Positions, os: Orders, n: int, p: Position)
    requires Sound(ps, os, n) && p.symbol !in ps
    ensures Sound(ps, CancelSiblings(os, p), n)
  {
    forall y | y in ps
      ensures Guarded(ps, CancelSiblings(os, p), y)
    {
      assert Guarded(ps, os, y);
    }
  }

  /** A close in between leaves the new orders behind. */
  lemma ClosedMeanwhile(cfg: ValidConfig, t: BrokerState, symbol: string, r: Replacement, price: real)
    requires Waiting(t.book, symbol, r) && StillOpen(t.book, symbol, r)
    requires Unlinked(t.book, t.book.positions[symbol], r)
    ensures var u := CloseOut(cfg, t, t.book.positions[symbol], price, true);
            Waiting(u.book, symbol, r) && !StillOpen(u.book, symbol, r)
  {
    var p, os := t.book.positions[symbol], t.book.orders - OwnKeys(r);
    var u := CloseOut(cfg, t, p, price, true);
    OthersSurviveClose(t.book.positions - {symbol}, os, t.book.nextOrderID, p);
    assert u.book.orders - OwnKeys(r) == CancelSiblings(os, p);
    MoreNumbers(u.book.positions, CancelSiblings(os, p), t.book.nextOrderID, u.book.nextOrderID);
  }

  /**
   From any protected state: when the position is closed after its new orders are placed and before it is linked, the
   stop stays behind without a position, whatever the price.
   */
  lemma ClosedInBetweenStrands(cfg: ValidConfig, s: BrokerState, symbol: string, sl: real, tp: real, price: real)
    requires Protected(s) && Replaceable(s.book, symbol, sl, tp)
    ensures var t, r := Placed(cfg, s, symbol, sl, tp), Numbered(s.book, symbol, sl, tp);
            symbol in t.book.positions &&
            !SoundBook(Linked(CloseOut(cfg, t, t.book.positions[symbol], price, true).book, symbol, r))
  {
    var t, r := Placed(cfg, s, symbol, sl, tp), Numbered(s.book, symbol, sl, tp);
    PlacedIsWaiting(cfg, s, symbol, sl, tp);
    PlacedShape(cfg, s, symbol, sl, tp);
    assert Unlinked(t.book, t.book.positions[symbol], r);
    ClosedMeanwhile(cfg, t, symbol, r, price);
    LinkKeepsExactly(CloseOut(cfg, t, t.book.positions[symbol], price, true).book, symbol, r);
  }

  // ---------------------------------------------------------------- a new order that fires before the link

  lemma TriggerShape(cfg: ValidConfig, t: BrokerState, symbol: string, k: OrderKey, price: real)
    requires k in t.book.orders && t.book.orders[k].symbol == symbol
    requires symbol in t.book.positions && t.book.positions[symbol].symbol == symbol
    ensures Trigger(cfg, t, k, price).book
            == Book(t.book.positions - {symbol}, CancelSiblings(t.book.orders, t.book.positions[symbol]) - {k},
                    t.book.nextOrderID)
  {
  }

  /** Of the new orders, those that did not fire stay when the position is closed, and no others suffer. */
  lemma FiredOrders(b: Book, symbol: string, r: Replacement, k: OrderKey)
    requires Waiting(b, symbol, r) && StillOpen(b, symbol, r) && Unlinked(b, b.positions[symbol], r) && k in OwnKeys(r)
    ensures var os := CancelSiblings(b.orders, b.positions[symbol]) - {k};
            && Sound(b.positions - {symbol}, os - OwnKeys(r), b.nextOrderID)
            && forall j :: j in OwnKeys(r) && j != k ==> j in os && os[j] == b.orders[j]
  {
    var p, rest := b.positions[symbol], b.orders - OwnKeys(r);
    OthersSurviveClose(b.positions - {symbol}, rest, b.nextOrderID, p);
    assert CancelSiblings(b.orders, p) - {k} - OwnKeys(r) == CancelSiblings(rest, p);
  }

  /** The book when one of the new orders closes the position. */
  lemma FiredShape(cfg: ValidConfig, t: BrokerState, symbol: string, r: Replacement, k: OrderKey, price: real)
    requires Waiting(t.book, symbol, r) && StillOpen(t.book, symbol, r)
    requires Unlinked(t.book, t.book.positions[symbol], r) && k in OwnKeys(r)
    ensures var u := Trigger(cfg, t, k, price).book;
            && u.positions == t.book.positions - {symbol} && u.nextOrderID == t.book.nextOrderID
            && Sound(u.positions, u.orders - OwnKeys(r), u.nextOrderID) && k !in u.orders
            && forall j :: j in OwnKeys(r) && j != k ==> j in u.orders && u.orders[j] == t.book.orders[j]
  {
    TriggerShape(cfg, t, symbol, k, price);
    FiredOrders(t.book, symbol, r, k);
  }

  /**
   When a new order fires before the link, everything ends protected exactly when it is the stop and there is no new
   target: the close cancels the orders the position is linked to, and those are the old ones.
   */
  lemma NewOrderFiresFirst(cfg: ValidConfig, t: BrokerState, symbol: string, r: Replacement, k: OrderKey, price: real)
    requires Waiting(t.book, symbol, r) && StillOpen(t.book, symbol, r)
    requires Unlinked(t.book, t.book.positions[symbol], r) && k in OwnKeys(r)
    ensures SoundBook(Linked(Trigger(cfg, t, k, price).book, symbol, r)) <==> r.tpID.None?
  {
    var u := Trigger(cfg, t, k, price).book;
    FiredShape(cfg, t, symbol, r, k, price);
    if r.tpID.None? {
      assert u.orders - OwnKeys(r) == u.orders;
    } else {
      var j := if k == Paper(r.slID) then Paper(r.tpID.value) else Paper(r.slID);
      assert !Owned(u.positions, u.orders[j]);
    }
  }

  /** From any protected state: the new stop fires after the new orders are placed and before the link. */
  lemma StopFiresBeforeLink(cfg: ValidConfig, s: BrokerState, symbol: string, sl: real, tp: real, price: real)
    requires Protected(s) && Replaceable(s.book, symbol, sl, tp)
    ensures var t, r := Placed(cfg, s, symbol, sl, tp), Numbered(s.book, symbol, sl, tp);
            Paper(r.slID) in t.book.orders &&
            (SoundBook(Linked(Trigger(cfg, t, Paper(r.slID), price).book, symbol, r)) <==> tp <= 0.0)
  {
    var t, r := Placed(cfg, s, symbol, sl, tp), Numbered(s.book, symbol, sl, tp);
    PlacedIsWaiting(cfg, s, symbol, sl, tp);
    PlacedShape(cfg, s, symbol, sl, tp);
    assert Unlinked(t.book, t.book.positions[symbol], r);
    NewOrderFiresFirst(cfg, t, symbol, r, Paper(r.slID), price);
  }

  lemma StrayTarget(cfg: ValidConfig, u: BrokerState, symbol: string, r: Replacement)
    requires symbol !in u.book.positions && r.tp > 0.0
    requires r.copy.symbol == symbol && symbol != "" && r.copy.size > 0.0
    ensures !SoundBook(Linked(Place(cfg, u, LevelRequest(symbol, r.copy, TakeProfitMarket, r.tp)).0.book, symbol, r))
  {
    var v := Place(cfg, u, LevelRequest(symbol, r.copy, TakeProfitMarket, r.tp)).0.book;
    LevelIsPlaced(cfg, u, r.copy, TakeProfitMarket, r.tp);
    assert !Owned(v.positions, v.orders[Paper(u.book.nextOrderID)]);
  }

  /** From any protected state: the new stop fires before the new target is even placed, and the target is a stray. */
  lemma StopFiresBeforeTarget(cfg: ValidConfig, s: BrokerState, symbol: string, sl: real, tp: real, price: real)
    requires Protected(s) && Replaceable(s.book, symbol, sl, tp) && tp > 0.0
    ensures var t, r := Placed(cfg, s, symbol, sl, 0.0), Numbered(s.book, symbol, sl, tp);
            Paper(r.slID) in t.book.orders &&
            var u := Trigger(cfg, t, Paper(r.slID), price);
            SoundBook(u.book) &&
            !SoundBook(Linked(Place(cfg, u, LevelRequest(symbol, r.copy, TakeProfitMarket, tp)).0.book, symbol, r))
  {
    var t, r := Placed(cfg, s, symbol, sl, 0.0), Numbered(s.book, symbol, sl, tp);
    FiredAlone(cfg, s, symbol, sl, price);
    StrayTarget(cfg, Trigger(cfg, t, Paper(r.slID), price), symbol, r);
  }

  lemma FiredAlone(cfg: ValidConfig, s: BrokerState, symbol: string, sl: real, price: real)
    requires Protected(s) && Replaceable(s.book, symbol, sl, 0.0)
    ensures var t, stop := Placed(cfg, s, symbol, sl, 0.0), Paper(s.book.nextOrderID);
            stop in t.book.orders && SoundBook(Trigger(cfg, t, stop, price).book) &&
            symbol !in Trigger(cfg, t, stop, price).book.positions
  {
    var t, r := Placed(cfg, s, symbol, sl, 0.0), Numbered(s.book, symbol, sl, 0.0);
    StopFiresBeforeLink(cfg, s, symbol, sl, 0.0, price);
    PlacedShape(cfg, s, symbol, sl, 0.0);
    TriggerShape(cfg, t, symbol, Paper(r.slID), price);
  }
}
