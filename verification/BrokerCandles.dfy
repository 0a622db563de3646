/**
 What a candle does to a protected book, however many limit orders it fills and in whatever order its loops run: which
 orders the fills leave behind without a position, and which of those the protective loops clear away.
 */
module BrokerCandles {
  import opened Domain
  import opened BrokerModel
  import opened BrokerProtection
  import opened BrokerRuns
  import opened BrokerLoops
  import Folds

  // ---------------------------------------------------------------- one protective loop, on any state

  /** The entries of a schedule that fire. */
  function ComingUp(c: Candle, orderType: OrderType, s: BrokerState, sched: seq<OrderKey>): set<OrderKey> {
    set k | k in sched && CandleFires(c, orderType, s, k)
  }

  /** The first of them. */
  ghost function First(c: Candle, orderType: OrderType, s: BrokerState, sched: seq<OrderKey>): (k: OrderKey)
    requires ComingUp(c, orderType, s, sched) != {}
    ensures k in ComingUp(c, orderType, s, sched)
    decreases |sched|
  {
    if CandleFires(c, orderType, s, sched[0]) then sched[0]
    else
      assert forall k :: k in sched[1..] || k == sched[0] <==> k in sched;
      assert ComingUp(c, orderType, s, sched[1..]) == ComingUp(c, orderType, s, sched);
      First(c, orderType, s, sched[1..])
  }

  function Level(s: BrokerState, k: OrderKey): real
    requires k in s.book.orders && s.book.orders[k].stopPrice.Some?
  {
    s.book.orders[k].stopPrice.value
  }

  function Dropping(s: BrokerState, gone: set<OrderKey>): BrokerState {
    s.(book := s.book.(orders := s.book.orders - gone))
  }

  /** The symbol's position closed at a price, its own orders cancelled and others gone. */
  function Settled(
    cfg: ValidConfig, s: BrokerState, symbol: string, price: real, gone: set<OrderKey>): BrokerState
    requires symbol in s.book.positions
  {
    Dropping(CloseOut(cfg, s, s.book.positions[symbol], price, false), gone)
  }

  /** An order that fires without a position is dropped, and the others fire as before. */
  lemma FlatAct(cfg: ValidConfig, s: BrokerState, c: Candle, orderType: OrderType, k: OrderKey, rest: seq<OrderKey>)
    requires c.symbol !in s.book.positions && CandleFires(c, orderType, s, k)
    ensures CandleAct(cfg, s, k) == Dropping(s, {k})
    ensures ComingUp(c, orderType, s, [k] + rest) == {k} + ComingUp(c, orderType, Dropping(s, {k}), rest)
    ensures s.book.orders - {k} - ComingUp(c, orderType, Dropping(s, {k}), rest)
         == s.book.orders - ComingUp(c, orderType, s, [k] + rest)
  {
    assert ComingUp(c, orderType, s, [k] + rest) == {k} + ComingUp(c, orderType, Dropping(s, {k}), rest);
  }

  /** Without a position, whatever fires is dropped. */
  lemma {:induction false} FlatPass(
    cfg: ValidConfig, s: BrokerState, hit: bool, c: Candle, orderType: OrderType, sched: seq<OrderKey>)
    requires c.symbol !in s.book.positions
    ensures Folds.Sweep(PassState(s, hit), sched, CandleFiring(c, orderType), CandleActing(cfg))
            == PassState(Dropping(s, ComingUp(c, orderType, s, sched)), hit || ComingUp(c, orderType, s, sched) != {})
    decreases |sched|
  {
    if sched == [] {
      assert Dropping(s, {}) == s by {
        assert s.book.orders - {} == s.book.orders;
      }
    } else {
      var k, all, rest := sched[0], ComingUp(c, orderType, s, sched), sched[1..];
      if CandleFires(c, orderType, s, k) {
        assert [k] + rest == sched;
        FlatAct(cfg, s, c, orderType, k, rest);
        FlatPass(cfg, Dropping(s, {k}), true, c, orderType, rest);
      } else {
        FlatPass(cfg, s, hit, c, orderType, rest);
        assert all == ComingUp(c, orderType, s, rest);
      }
    }
  }

  /** The position closes at the level of the first order to fire, and all that fire are gone. */
  lemma {:induction false} PassSettles(
    cfg: ValidConfig, s: BrokerState, c: Candle, orderType: OrderType, sched: seq<OrderKey>)
    requires c.symbol in s.book.positions && s.book.positions[c.symbol].symbol == c.symbol
    requires ComingUp(c, orderType, s, sched) != {}
    ensures CandlePass(cfg, s, c, orderType, sched)
            == PassState(Settled(cfg, s, c.symbol, Level(s, First(c, orderType, s, sched)),
                                 ComingUp(c, orderType, s, sched)), true)
    decreases |sched|
  {
    var k, all, rest := sched[0], ComingUp(c, orderType, s, sched), sched[1..];
    if CandleFires(c, orderType, s, k) {
      var u := CloseOut(cfg, s, s.book.positions[c.symbol], Level(s, k), false);
      var t := Dropping(u, {k});
      FlatPass(cfg, t, true, c, orderType, rest);
      var later := ComingUp(c, orderType, t, rest);
      assert u.book.orders - {k} - later == u.book.orders - all;
    } else {
      assert all == ComingUp(c, orderType, s, rest);
      PassSettles(cfg, s, c, orderType, rest);
    }
  }

  lemma {:induction false} QuietPass(
    cfg: ValidConfig, s: BrokerState, c: Candle, orderType: OrderType, sched: seq<OrderKey>)
    requires ComingUp(c, orderType, s, sched) == {}
    ensures CandlePass(cfg, s, c, orderType, sched) == PassState(s, false)
    decreases |sched|
  {
    if sched != [] {
      assert sched[0] !in ComingUp(c, orderType, s, sched);
      assert forall k :: k in ComingUp(c, orderType, s, sched[1..]) ==> k in ComingUp(c, orderType, s, sched);
      QuietPass(cfg, s, c, orderType, sched[1..]);
    }
  }

  // ---------------------------------------------------------------- what limit fills leave behind

  /** A stop or target of the symbol that belongs to no position. */
  predicate Left(b: Book, symbol: string, k: OrderKey) {
    k in b.orders && b.orders[k].symbol == symbol && Protective(b.orders[k]) && !Owned(b.positions, b.orders[k])
  }

  /** Sound but for the orders left behind at one symbol; those have levels, and there is a stop among them. */
  ghost predicate Cluttered(b: Book, symbol: string) {
    && 1 <= b.nextOrderID
    && (forall y :: y in b.positions ==>
          Guarded(b.positions, b.orders, y) &&
          Issued(b.nextOrderID, b.positions[y].slOrderID) && Issued(b.nextOrderID, b.positions[y].tpOrderID))
    && (forall k :: k in b.orders ==>
          k == Paper(b.orders[k].id) && 1 <= b.orders[k].id < b.nextOrderID && Armed(b.orders[k]) &&
          (Owned(b.positions, b.orders[k]) || Left(b, symbol, k)))
    && (forall k :: Left(b, symbol, k) ==>
          symbol in b.positions && b.orders[k].stopPrice.Some? && !Protects(b.orders[k], b.positions[symbol]))
    && ((exists k :: Left(b, symbol, k)) ==> exists k :: Left(b, symbol, k) && b.orders[k].orderType == StopMarket)
  }

  lemma SoundExactly(b: Book, symbol: string)
    ensures SoundBook(b) <==> Cluttered(b, symbol) && forall k :: !Left(b, symbol, k)
  {
  }

  /** A fill, wherever it lands, clutters at most its own symbol. */
  lemma LimitActClutters(cfg: ValidConfig, s: BrokerState, c: Candle, k: OrderKey)
    requires Cluttered(s.book, c.symbol) && LimitFires(c, s, k)
    ensures Cluttered(LimitAct(cfg, s, k).book, c.symbol)
  {
    var o := s.book.orders[k];
    assert Armed(o);
    if LimitAccepted(cfg, s, o) {
      var pos := NewPosition(cfg, s, o.symbol, o.side, o.qty, o.price.value, MarginFor(cfg, o.price.value, o.qty));
      FillShape(cfg, s, k, pos);
      EntryClutters(s.book, k, pos, o.intendedSL, o.intendedTP);
    } else {
      DropClutters(s.book, c.symbol, k);
    }
  }

  /** The book without one of its limit orders. */
  ghost predicate Drops(b: Book, symbol: string, k: OrderKey, d: Book) {
    Cluttered(b, symbol) && k in b.orders && b.orders[k].orderType == Limit && d == b.(orders := b.orders - {k})
  }

  lemma DropGuard(b: Book, symbol: string, k: OrderKey, d: Book, y: string)
    requires Drops(b, symbol, k, d) && y in d.positions
    ensures Guarded(d.positions, d.orders, y)
  {
    assert Guarded(b.positions, b.orders, y);
  }

  lemma DropKeepsLeft(b: Book, symbol: string, k: OrderKey, j: OrderKey)
    requires k in b.orders && b.orders[k].orderType == Limit
    ensures var d := b.(orders := b.orders - {k});
            (Left(d, symbol, j) <==> Left(b, symbol, j)) && (Left(d, symbol, j) ==> d.orders[j] == b.orders[j])
  {
  }

  lemma DropLeft(b: Book, symbol: string, k: OrderKey, d: Book)
    requires Drops(b, symbol, k, d)
    ensures forall j :: Left(d, symbol, j) <==> Left(b, symbol, j)
    ensures (exists j :: Left(d, symbol, j)) ==>
              exists j :: Left(d, symbol, j) && d.orders[j].orderType == StopMarket
  {
    forall j
      ensures Left(d, symbol, j) <==> Left(b, symbol, j)
      ensures Left(d, symbol, j) ==> d.orders[j] == b.orders[j]
    {
      DropKeepsLeft(b, symbol, k, j);
    }
    if j :| Left(d, symbol, j) {
      var i :| Left(b, symbol, i) && b.orders[i].orderType == StopMarket;
    }
  }

  lemma DropClutters(b: Book, symbol: string, k: OrderKey)
    requires Cluttered(b, symbol) && k in b.orders && b.orders[k].orderType == Limit
    ensures Cluttered(b.(orders := b.orders - {k}), symbol)
  {
    var d := b.(orders := b.orders - {k});
    DropLeft(b, symbol, k, d);
    forall y | y in d.positions
      ensures Guarded(d.positions, d.orders, y)
    {
      DropGuard(b, symbol, k, d, y);
    }
  }

  /** The position a limit fill leaves, with its stop and perhaps its target. */
  function Filled(pos: Position, n: int, sl: real, tp: real): Position {
    if Targeted(pos, tp) then Paired(pos, n, sl, tp) else Stopped(pos, n, sl, tp)
  }

  function WithNew(os: Orders, pos: Position, n: int, sl: real, tp: real): Orders {
    if Targeted(pos, tp) then WithPair(os, pos, n, sl, tp) else os[Paper(n) := ProtectiveOrder(n, pos, StopMarket, sl)]
  }

  /** The book after an entry over whatever the symbol had, the filled order gone. */
  function Entered(b: Book, k: OrderKey, pos: Position, sl: real, tp: real): Book {
    var n := b.nextOrderID;
    Book(b.positions[pos.symbol := Filled(pos, n, sl, tp)], WithNew(b.orders, pos, n, sl, tp) - {k},
         if Targeted(pos, tp) then n + 2 else n + 1)
  }

  lemma FillShape(cfg: ValidConfig, s: BrokerState, k: OrderKey, pos: Position)
    requires k in s.book.orders && s.book.orders[k].price.Some? && LimitAccepted(cfg, s, s.book.orders[k])
    requires s.book.orders[k].intendedSL > 0.0
    requires var o := s.book.orders[k];
             pos == NewPosition(cfg, s, o.symbol, o.side, o.qty, o.price.value, MarginFor(cfg, o.price.value, o.qty))
    ensures var o := s.book.orders[k];
            LimitAct(cfg, s, k).book == Entered(s.book, k, pos, o.intendedSL, o.intendedTP)
  {
    var o, b := s.book.orders[k], s.book;
    var entered := b.(positions := b.positions[o.symbol := pos]);
    AddedShape(entered, pos, o.intendedSL, o.intendedTP);
    PositionsTakenOver(b.positions, pos, Filled(pos, b.nextOrderID, o.intendedSL, o.intendedTP),
                       Filled(pos, b.nextOrderID, o.intendedSL, o.intendedTP));
  }

  /** An entry of a fresh position with a stop on its losing side, for the LIMIT order `k`. */
  ghost predicate Enters(b: Book, k: OrderKey, pos: Position, sl: real) {
    && Cluttered(b, pos.symbol) && k in b.orders && b.orders[k].orderType == Limit
    && pos.symbol != "" && pos.size > 0.0 && pos.slOrderID == None && pos.tpOrderID == None
    && sl > 0.0 && StopOnLosingSide(pos.side, pos.entryPrice, sl)
  }

  /** The entry takes numbers that no order carries. */
  lemma EntryShape(b: Book, k: OrderKey, pos: Position, sl: real, tp: real, j: OrderKey)
    requires Enters(b, k, pos, sl) && j in b.orders
    ensures var d, q := Entered(b, k, pos, sl, tp), Filled(pos, b.nextOrderID, sl, tp);
            && (j in d.orders <==> j != k) && (j != k ==> d.orders[j] == b.orders[j])
            && d.positions == b.positions[pos.symbol := q] && q.slOrderID != Some(b.orders[j].id)
            && q.tpOrderID != Some(b.orders[j].id) && 1 <= b.orders[j].id
  {
  }

  /** Every order from before the entry stays, `k` apart, and the entry links none of them. */
  lemma OldOrder(b: Book, k: OrderKey, pos: Position, sl: real, tp: real, j: OrderKey)
    requires Enters(b, k, pos, sl) && j in b.orders
    ensures var d := Entered(b, k, pos, sl, tp);
            && (j in d.orders <==> j != k) && (j != k ==> d.orders[j] == b.orders[j])
            && !Protects(b.orders[j], d.positions[pos.symbol])
            && (b.orders[j].symbol != pos.symbol ==> Owned(d.positions, b.orders[j]))
            && (b.orders[j].symbol == pos.symbol && Protective(b.orders[j]) ==> !Owned(d.positions, b.orders[j]))
  {
    EntryShape(b, k, pos, sl, tp, j);
    assert b.orders[j].symbol != pos.symbol ==> Owned(b.positions, b.orders[j]);
  }

  /** The orders an entry adds are its own. */
  lemma NewOrders(b: Book, k: OrderKey, pos: Position, sl: real, tp: real, j: OrderKey)
    requires Enters(b, k, pos, sl)
    requires j in Entered(b, k, pos, sl, tp).orders && j !in b.orders
    ensures var d := Entered(b, k, pos, sl, tp);
            && j == Paper(d.orders[j].id) && 1 <= d.orders[j].id < d.nextOrderID && Armed(d.orders[j])
            && Owned(d.positions, d.orders[j])
  {
  }

  /** What an entry leaves behind: every stop and target the symbol had. */
  lemma EntryLeaves(b: Book, k: OrderKey, pos: Position, sl: real, tp: real, j: OrderKey)
    requires Enters(b, k, pos, sl)
    ensures Left(Entered(b, k, pos, sl, tp), pos.symbol, j) <==>
            j in b.orders && b.orders[j].symbol == pos.symbol && Protective(b.orders[j])
    ensures Left(Entered(b, k, pos, sl, tp), pos.symbol, j) ==> Entered(b, k, pos, sl, tp).orders[j] == b.orders[j]
  {
    if j in b.orders {
      OldOrder(b, k, pos, sl, tp, j);
    } else if j in Entered(b, k, pos, sl, tp).orders {
      NewOrders(b, k, pos, sl, tp, j);
    }
  }

  lemma EntryGuards(b: Book, k: OrderKey, pos: Position, sl: real, tp: real, y: string)
    requires Enters(b, k, pos, sl) && y in Entered(b, k, pos, sl, tp).positions
    ensures var d := Entered(b, k, pos, sl, tp);
            Guarded(d.positions, d.orders, y) && Issued(d.nextOrderID, d.positions[y].slOrderID) &&
            Issued(d.nextOrderID, d.positions[y].tpOrderID)
  {
    if y != pos.symbol {
      assert Guarded(b.positions, b.orders, y);
    }
  }

  lemma EntryClutters(b: Book, k: OrderKey, pos: Position, sl: real, tp: real)
    requires Enters(b, k, pos, sl)
    ensures Cluttered(Entered(b, k, pos, sl, tp), pos.symbol)
  {
    var d := Entered(b, k, pos, sl, tp);
    forall y | y in d.positions
      ensures Guarded(d.positions, d.orders, y)
      ensures Issued(d.nextOrderID, d.positions[y].slOrderID) && Issued(d.nextOrderID, d.positions[y].tpOrderID)
    {
      EntryGuards(b, k, pos, sl, tp, y);
    }
    forall j | j in d.orders
      ensures j == Paper(d.orders[j].id) && 1 <= d.orders[j].id < d.nextOrderID && Armed(d.orders[j])
      ensures Owned(d.positions, d.orders[j]) || Left(d, pos.symbol, j)
    {
      if j in b.orders {
        OldOrder(b, k, pos, sl, tp, j);
      } else {
        NewOrders(b, k, pos, sl, tp, j);
      }
    }
    EntryLeft(b, k, pos, sl, tp);
  }

  lemma EntryLeft(b: Book, k: OrderKey, pos: Position, sl: real, tp: real)
    requires Enters(b, k, pos, sl)
    ensures var d := Entered(b, k, pos, sl, tp);
            && (forall j :: Left(d, pos.symbol, j) ==>
                  d.orders[j].stopPrice.Some? && !Protects(d.orders[j], d.positions[pos.symbol]))
            && ((exists j :: Left(d, pos.symbol, j)) ==>
                  exists j :: Left(d, pos.symbol, j) && d.orders[j].orderType == StopMarket)
  {
    var d := Entered(b, k, pos, sl, tp);
    forall j | Left(d, pos.symbol, j)
      ensures d.orders[j].stopPrice.Some? && !Protects(d.orders[j], d.positions[pos.symbol])
      ensures exists i :: Left(d, pos.symbol, i) && d.orders[i].orderType == StopMarket
    {
      EntryLeaves(b, k, pos, sl, tp, j);
      OldOrder(b, k, pos, sl, tp, j);
      var i := StopBeside(b, pos.symbol, j);
      EntryLeaves(b, k, pos, sl, tp, i);
    }
  }

  /** Where a symbol has a stop or target, it has a stop with a level; both have levels. */
  lemma StopBeside(b: Book, symbol: string, j: OrderKey) returns (i: OrderKey)
    requires Cluttered(b, symbol) && j in b.orders && b.orders[j].symbol == symbol && Protective(b.orders[j])
    ensures b.orders[j].stopPrice.Some?
    ensures i in b.orders && b.orders[i].symbol == symbol && b.orders[i].orderType == StopMarket
  {
    if Left(b, symbol, j) {
      i :| Left(b, symbol, i) && b.orders[i].orderType == StopMarket;
    } else {
      assert Owned(b.positions, b.orders[j]) && Guarded(b.positions, b.orders, symbol);
      i := Paper(b.positions[symbol].slOrderID.value);
    }
  }

  lemma LimitPassClutters(cfg: ValidConfig, s: BrokerState, c: Candle, sched: seq<OrderKey>)
    requires Cluttered(s.book, c.symbol)
    ensures Cluttered(LimitPass(cfg, s, c, sched).book, c.symbol)
  {
    var inv := (t: BrokerState) => Cluttered(t.book, c.symbol);
    forall t, k | inv(t) && LimitFiring(c)(t, k)
      ensures inv(LimitActing(cfg)(t, k))
    {
      LimitActClutters(cfg, t, c, k);
    }
    Folds.SweepInvariant(s, sched, LimitFiring(c), LimitActing(cfg), inv);
  }

  // ---------------------------------------------------------------- what the protective loops clear

  /** The two protective loops after the limit loop. */
  function Finish(cfg: ValidConfig, t: BrokerState, c: Candle, sched: CandleSchedule): BrokerState {
    var p := CandlePass(cfg, t, c, StopMarket, sched.stops);
    if p.hit then p.s else CandlePass(cfg, p.s, c, TakeProfitMarket, sched.targets).s
  }

  /** Everything the limit fills left behind is a stop that the candle crosses. */
  ghost predicate Cleared(t: BrokerState, c: Candle) {
    forall k :: Left(t.book, c.symbol, k) ==> CandleFires(c, StopMarket, t, k)
  }

  /** Some of the symbol's orders. */
  ghost predicate OrdersOf(t: BrokerState, symbol: string, keys: set<OrderKey>) {
    forall k :: k in keys ==> k in t.book.orders && t.book.orders[k].symbol == symbol
  }

  /** The book once the position is settled. */
  lemma SettledShape(cfg: ValidConfig, t: BrokerState, symbol: string, price: real, gone: set<OrderKey>)
    requires symbol in t.book.positions && t.book.positions[symbol].symbol == symbol
    ensures Settled(cfg, t, symbol, price, gone).book
            == Book(t.book.positions - {symbol}, CancelSiblings(t.book.orders, t.book.positions[symbol]) - gone,
                    t.book.nextOrderID)
  {
  }

  /** A cluttered book whose position goes with its own orders and `gone`, which holds all that was left behind. */
  ghost predicate Clears(b: Book, symbol: string, gone: set<OrderKey>, d: Book) {
    && Cluttered(b, symbol) && symbol in b.positions
    && (forall k :: k in gone ==> k in b.orders && b.orders[k].symbol == symbol)
    && d == Book(b.positions - {symbol}, CancelSiblings(b.orders, b.positions[symbol]) - gone, b.nextOrderID)
    && forall k :: Left(b, symbol, k) ==> k in gone
  }

  lemma ClearedGuard(b: Book, symbol: string, gone: set<OrderKey>, d: Book, y: string)
    requires Clears(b, symbol, gone, d) && y in d.positions
    ensures Guarded(d.positions, d.orders, y) && Issued(d.nextOrderID, d.positions[y].slOrderID)
    ensures Issued(d.nextOrderID, d.positions[y].tpOrderID)
  {
    assert Guarded(b.positions, b.orders, y) && Guarded(b.positions, b.orders, symbol);
  }

  lemma ClearedOrder(b: Book, symbol: string, gone: set<OrderKey>, d: Book, k: OrderKey)
    requires Clears(b, symbol, gone, d) && k in d.orders
    ensures k == Paper(d.orders[k].id) && 1 <= d.orders[k].id < d.nextOrderID && Armed(d.orders[k])
    ensures Owned(d.positions, d.orders[k])
  {
    assert !Left(b, symbol, k);
    assert Owned(b.positions, b.orders[k]) && Guarded(b.positions, b.orders, symbol);
  }

  lemma ClearedBookIsSound(b: Book, symbol: string, gone: set<OrderKey>, d: Book)
    requires Clears(b, symbol, gone, d)
    ensures SoundBook(d)
  {
    forall y | y in d.positions
      ensures Guarded(d.positions, d.orders, y) && Issued(d.nextOrderID, d.positions[y].slOrderID)
      ensures Issued(d.nextOrderID, d.positions[y].tpOrderID)
    {
      ClearedGuard(b, symbol, gone, d, y);
    }
    forall k | k in d.orders
      ensures k == Paper(d.orders[k].id) && 1 <= d.orders[k].id < d.nextOrderID && Armed(d.orders[k])
      ensures Owned(d.positions, d.orders[k])
    {
      ClearedOrder(b, symbol, gone, d, k);
    }
  }

  /** Settled at whatever price, the book is sound exactly when all that was left behind is gone. */
  lemma SettledSound(cfg: ValidConfig, t: BrokerState, symbol: string, price: real, gone: set<OrderKey>)
    requires Cluttered(t.book, symbol) && symbol in t.book.positions && OrdersOf(t, symbol, gone)
    ensures SoundBook(Settled(cfg, t, symbol, price, gone).book) <==> forall k :: Left(t.book, symbol, k) ==> k in gone
  {
    var b, d := t.book, Settled(cfg, t, symbol, price, gone).book;
    assert Guarded(b.positions, b.orders, symbol);
    SettledShape(cfg, t, symbol, price, gone);
    if k :| Left(b, symbol, k) && k !in gone {
      assert k in d.orders && !Owned(d.positions, d.orders[k]);
    } else {
      ClearedBookIsSound(b, symbol, gone, d);
    }
  }

  /** A stop left behind that the candle does not cross stays behind. */
  lemma UncrossedStays(cfg: ValidConfig, t: BrokerState, c: Candle, k: OrderKey, sched: seq<OrderKey>)
    requires Cluttered(t.book, c.symbol) && Left(t.book, c.symbol, k) && t.book.orders[k].orderType == StopMarket
    ensures !SoundBook(CandlePass(cfg, t, c, TakeProfitMarket, sched).s.book)
  {
    var gone := ComingUp(c, TakeProfitMarket, t, sched);
    assert Guarded(t.book.positions, t.book.orders, c.symbol);
    if gone == {} {
      QuietPass(cfg, t, c, TakeProfitMarket, sched);
    } else {
      PassSettles(cfg, t, c, TakeProfitMarket, sched);
      SettledSound(cfg, t, c.symbol, Level(t, First(c, TakeProfitMarket, t, sched)), gone);
      assert k !in gone;
    }
  }

  /**
   After its limit loop, whatever that filled, a candle ends protected exactly when everything left behind is a stop it
   crosses.
   */
  lemma ClearedExactly(cfg: ValidConfig, t: BrokerState, c: Candle, sched: CandleSchedule)
    requires Cluttered(t.book, c.symbol) && Folds.Covers(sched.stops, t.book.orders.Keys)
    ensures Protected(Finish(cfg, t, c, sched)) <==> Cleared(t, c)
  {
    var gone := ComingUp(c, StopMarket, t, sched.stops);
    assert forall k :: CandleFires(c, StopMarket, t, k) ==> k in gone;
    if gone == {} {
      QuietPass(cfg, t, c, StopMarket, sched.stops);
      if k :| Left(t.book, c.symbol, k) && t.book.orders[k].orderType == StopMarket {
        UncrossedStays(cfg, t, c, k, sched.targets);
      } else {
        SoundExactly(t.book, c.symbol);
        CandlePassOutcome(cfg, t, c, TakeProfitMarket, sched.targets);
      }
    } else {
      FiredHasPosition(t, c, sched.stops);
      PassSettles(cfg, t, c, StopMarket, sched.stops);
      SettledSound(cfg, t, c.symbol, Level(t, First(c, StopMarket, t, sched.stops)), gone);
    }
  }

  lemma FiredHasPosition(t: BrokerState, c: Candle, sched: seq<OrderKey>)
    requires Cluttered(t.book, c.symbol) && ComingUp(c, StopMarket, t, sched) != {}
    ensures c.symbol in t.book.positions && t.book.positions[c.symbol].symbol == c.symbol
  {
    var k :| k in ComingUp(c, StopMarket, t, sched);
    assert Owned(t.book.positions, t.book.orders[k]) || Left(t.book, c.symbol, k);
    assert Guarded(t.book.positions, t.book.orders, c.symbol);
  }

  /** The exact guard for a candle, whatever fills and in whatever order. */
  lemma CandleKeepsExactly(cfg: ValidConfig, s: BrokerState, c: Candle, sched: CandleSchedule)
    requires Protected(s) && CandleCovered(cfg, s, c, sched)
    ensures Protected(AtCandle(cfg, s, c, sched)) <==>
            Cleared(LimitPass(cfg, Priced(s, c.symbol, c.close), c, sched.limits), c)
  {
    var s0 := Priced(s, c.symbol, c.close);
    SoundExactly(s0.book, c.symbol);
    LimitPassClutters(cfg, s0, c, sched.limits);
    ClearedExactly(cfg, LimitPass(cfg, s0, c, sched.limits), c, sched);
  }

  // ---------------------------------------------------------------- at most one limit fill

  /** The candle also crosses the stop of the position already there, and that position has no pending target. */
  predicate Repairs(s: BrokerState, c: Candle) {
    && c.symbol in s.book.positions && Crosses(c, s.book.positions[c.symbol].stopLoss)
    && NoTarget(s.book.orders, c.symbol)
  }

  /** What a caller checks before a candle on which at most one limit order fills. */
  ghost predicate CandleSafe(cfg: ValidConfig, s: BrokerState, c: Candle) {
    forall k :: LimitFires(c, s, k) ==> s.book.orders[k].price.Some? && (LandsFree(cfg, s, k) || Repairs(s, c))
  }

  /** The one limit order `k` fills on a position that is already there. */
  ghost predicate FillsOver(cfg: ValidConfig, s: BrokerState, c: Candle, k: OrderKey) {
    && Protected(s) && OneLimitFires(s, c) && LimitFires(c, s, k) && c.symbol in s.book.positions
    && s.book.orders[k].price.Some? && LimitAccepted(cfg, s, s.book.orders[k])
  }

  /** The position such a fill enters with. */
  function Entering(cfg: ValidConfig, s: BrokerState, k: OrderKey): Position
    requires k in s.book.orders && s.book.orders[k].price.Some?
  {
    var o := s.book.orders[k];
    NewPosition(cfg, s, o.symbol, o.side, o.qty, o.price.value, MarginFor(cfg, o.price.value, o.qty))
  }

  lemma FillOverShape(cfg: ValidConfig, s: BrokerState, c: Candle, k: OrderKey)
    requires FillsOver(cfg, s, c, k)
    ensures var o, pos := s.book.orders[k], Entering(cfg, s, k);
            && pos.symbol == c.symbol && Enters(s.book, k, pos, o.intendedSL)
            && LimitAct(cfg, s, k).book == Entered(s.book, k, pos, o.intendedSL, o.intendedTP)
  {
    assert Armed(s.book.orders[k]);
    SoundExactly(s.book, c.symbol);
    FillShape(cfg, s, k, Entering(cfg, s, k));
  }

  /** The stop of a protected position, the only one of its symbol. */
  lemma TheStop(b: Book, symbol: string) returns (stop: OrderKey)
    requires SoundBook(b) && symbol in b.positions
    ensures stop in b.orders && b.orders[stop].symbol == symbol && b.orders[stop].orderType == StopMarket
    ensures b.orders[stop].stopPrice == Some(b.positions[symbol].stopLoss)
    ensures forall j :: j in b.orders && b.orders[j].symbol == symbol && b.orders[j].orderType == StopMarket ==>
              j == stop
  {
    assert Guarded(b.positions, b.orders, symbol);
    stop := Paper(b.positions[symbol].slOrderID.value);
    forall j | j in b.orders && b.orders[j].symbol == symbol && b.orders[j].orderType == StopMarket
      ensures j == stop
    {
      OnePerKind(b.positions, b.orders, b.nextOrderID, j, stop);
    }
  }

  /** Such a fill is cleared exactly when the candle takes the old position's only order along. */
  lemma FillOverCleared(cfg: ValidConfig, s: BrokerState, c: Candle, k: OrderKey)
    requires FillsOver(cfg, s, c, k)
    ensures Cleared(LimitAct(cfg, s, k), c) <==> Repairs(s, c)
  {
    var o, pos, t := s.book.orders[k], Entering(cfg, s, k), LimitAct(cfg, s, k);
    FillOverShape(cfg, s, c, k);
    forall j
      ensures Left(t.book, c.symbol, j) <==>
              j in s.book.orders && s.book.orders[j].symbol == c.symbol && Protective(s.book.orders[j])
      ensures Left(t.book, c.symbol, j) ==> t.book.orders[j] == s.book.orders[j]
    {
      EntryLeaves(s.book, k, pos, o.intendedSL, o.intendedTP, j);
    }
    var stop := TheStop(s.book, c.symbol);
    assert Left(t.book, c.symbol, stop);
    var os := s.book.orders;
    if j :| j in os && os[j].symbol == c.symbol && os[j].orderType == TakeProfitMarket {
      assert Left(t.book, c.symbol, j);
    }
  }

  /**
   With at most one limit fill, a candle leaves every position protected exactly when the fill is refused, lands on a
   free symbol, or lands on a position whose only protective order the candle triggers as well.
   */
  lemma AtCandleKeeps(cfg: ValidConfig, s: BrokerState, c: Candle, sched: CandleSchedule)
    requires Protected(s) && OneLimitFires(Priced(s, c.symbol, c.close), c) && CandleCovered(cfg, s, c, sched)
    ensures Protected(AtCandle(cfg, s, c, sched)) <==> CandleSafe(cfg, Priced(s, c.symbol, c.close), c)
  {
    var s0 := Priced(s, c.symbol, c.close);
    if k :| LimitFires(c, s0, k) && !LandsFree(cfg, s0, k) {
      LimitPassOutcome(cfg, s0, c, sched.limits);
      assert k in sched.limits;
      CandleKeepsExactly(cfg, s, c, sched);
      FillOverCleared(cfg, s0, c, k);
    } else {
      FreeCandleKeeps(cfg, s, c, sched);
    }
  }
}
