/** No open position without a working stop, and no stop or target without its position. */
module BrokerProtection {
  import opened Domain
  import opened BrokerModel

  type Positions = map<string, Position>
  type Orders = map<OrderKey, Order>

  /**
   `o` is the live stop of `p`: right symbol, right direction, enough quantity, at the recorded level, on the losing
   side.
   */
  predicate StopsOut(o: Order, p: Position) {
    o.symbol == p.symbol && o.orderType == StopMarket && o.side == ClosingSide(p.side) && o.status == Pending &&
    o.qty >= p.size && o.stopPrice == Some(p.stopLoss) && StopOnLosingSide(p.side, p.entryPrice, p.stopLoss)
  }

  predicate Guarded(ps: Positions, os: Orders, symbol: string)
    requires symbol in ps
  {
    var p := ps[symbol];
    p.symbol == symbol && symbol != "" && p.size > 0.0 && p.slOrderID.Some? &&
    Paper(p.slOrderID.value) in os && StopsOut(os[Paper(p.slOrderID.value)], p)
  }

  /** A stop or target belongs to the open position of its symbol; a target is on the winning side. */
  predicate Owned(ps: Positions, o: Order) {
    (o.orderType == StopMarket ==> o.symbol in ps && ps[o.symbol].slOrderID == Some(o.id)) &&
    (o.orderType == TakeProfitMarket ==>
      o.symbol in ps && ps[o.symbol].tpOrderID == Some(o.id) && o.stopPrice.Some? &&
      TargetOnWinningSide(ps[o.symbol].side, ps[o.symbol].entryPrice, o.stopPrice.value))
  }

  /** A resting entry order carries the stop its fill will need. */
  predicate Armed(o: Order) {
    o.orderType == Limit ==> o.price.Some? && o.price.value > 0.0 && o.qty > 0.0 && o.symbol != "" && o.intendedSL > 0.0
  }

  predicate Issued(n: int, id: Option<int>) {
    id.Some? ==> 1 <= id.value < n
  }

  /** The book of positions and orders, with `n` the next order number to be issued. */
  ghost predicate Sound(ps: Positions, os: Orders, n: int) {
    (forall sym :: sym in ps ==>
       Guarded(ps, os, sym) && Issued(n, ps[sym].slOrderID) && Issued(n, ps[sym].tpOrderID)) &&
    (forall k :: k in os ==> k == Paper(os[k].id) && 1 <= os[k].id < n && Owned(ps, os[k]) && Armed(os[k])) &&
    1 <= n
  }

  ghost predicate Protected(s: BrokerState) {
    Sound(s.book.positions, s.book.orders, s.book.nextOrderID)
  }

  predicate Bare(os: Orders, symbol: string) {
    forall k :: k in os && os[k].symbol == symbol ==>
      os[k].orderType != StopMarket && os[k].orderType != TakeProfitMarket
  }

  lemma MoreNumbers(ps: Positions, os: Orders, n: int, m: int)
    requires Sound(ps, os, n) && n <= m
    ensures Sound(ps, os, m)
  {
  }

  /** Closing a position takes its stop and target with it and leaves every other position guarded. */
  lemma CloseSound(ps: Positions, os: Orders, n: int, symbol: string)
    requires Sound(ps, os, n) && symbol in ps
    ensures Sound(ps - {symbol}, CancelSiblings(os, ps[symbol]), n)
    ensures Bare(CancelSiblings(os, ps[symbol]), symbol)
  {
  }

  /** A symbol whose siblings are gone has lost its stop. */
  lemma CancelledIsUnsound(ps: Positions, os: Orders, n: int, symbol: string)
    requires Sound(ps, os, n) && symbol in ps
    ensures !Sound(ps, CancelSiblings(os, ps[symbol]), n)
  {
  }

  lemma ShrinkSound(ps: Positions, os: Orders, n: int, symbol: string, q: Position)
    requires Sound(ps, os, n) && symbol in ps
    requires var p := ps[symbol];
             0.0 < q.size <= p.size && q == p.(size := q.size, margin := q.margin, realizedPnL := q.realizedPnL)
    ensures Sound(ps[symbol := q], os, n)
  {
  }

  /** A new position and its stop, entered together. */
  lemma AddStopSound(ps: Positions, os: Orders, n: int, pos: Position, sl: real, q: Position)
    requires Sound(ps, os, n) && pos.symbol !in ps && pos.symbol != "" && pos.size > 0.0
    requires StopOnLosingSide(pos.side, pos.entryPrice, sl)
    requires q.slOrderID == Some(n) && q.stopLoss == sl && Issued(n, q.tpOrderID)
    requires q.symbol == pos.symbol && q.side == pos.side && q.entryPrice == pos.entryPrice && q.size == pos.size
    ensures Sound(ps[pos.symbol := q], os[Paper(n) := ProtectiveOrder(n, pos, StopMarket, sl)], n + 1)
    ensures NoTarget(os[Paper(n) := ProtectiveOrder(n, pos, StopMarket, sl)], pos.symbol)
  {
    var ps1, os1 := ps[pos.symbol := q], os[Paper(n) := ProtectiveOrder(n, pos, StopMarket, sl)];
    forall sym | sym in ps1
      ensures Guarded(ps1, os1, sym) && Issued(n + 1, ps1[sym].slOrderID) && Issued(n + 1, ps1[sym].tpOrderID)
    {
      assert sym != pos.symbol ==> Guarded(ps, os, sym);
    }
    forall k | k in os1
      ensures k == Paper(os1[k].id) && 1 <= os1[k].id < n + 1 && Owned(ps1, os1[k]) && Armed(os1[k])
    {
      assert k != Paper(n) ==> Owned(ps, os[k]);
    }
  }

  predicate NoTarget(os: Orders, symbol: string) {
    forall k :: k in os && os[k].symbol == symbol ==> os[k].orderType != TakeProfitMarket
  }

  lemma AddTargetSound(ps: Positions, os: Orders, n: int, pos: Position, tp: real, q: Position)
    requires Sound(ps, os, n) && pos.symbol in ps && NoTarget(os, pos.symbol)
    requires var p := ps[pos.symbol];
             q == p.(tpOrderID := Some(n), takeProfit := q.takeProfit) && TargetOnWinningSide(p.side, p.entryPrice, tp)
    ensures Sound(ps[pos.symbol := q], os[Paper(n) := ProtectiveOrder(n, pos, TakeProfitMarket, tp)], n + 1)
  {
  }

  /** A position with a stop numbered `n` and a target numbered `n + 1`. */
  function Paired(pos: Position, n: int, sl: real, tp: real): Position {
    pos.(slOrderID := Some(n), tpOrderID := Some(n + 1), stopLoss := sl, takeProfit := tp)
  }

  /** The orders of such a pair. */
  function WithPair(os: Orders, pos: Position, n: int, sl: real, tp: real): Orders {
    os[Paper(n) := ProtectiveOrder(n, pos, StopMarket, sl)][Paper(n + 1) := ProtectiveOrder(n + 1, pos,
        TakeProfitMarket, tp)]
  }

  /** A new position with its stop and its target. */
  lemma AddPairSound(ps: Positions, os: Orders, n: int, pos: Position, sl: real, tp: real, r: Position)
    requires Sound(ps, os, n) && pos.symbol !in ps && pos.symbol != "" && pos.size > 0.0
    requires StopOnLosingSide(pos.side, pos.entryPrice, sl) && TargetOnWinningSide(pos.side, pos.entryPrice, tp)
    requires r.slOrderID == Some(n) && r.tpOrderID == Some(n + 1) && r.stopLoss == sl
    requires r.symbol == pos.symbol && r.side == pos.side && r.entryPrice == pos.entryPrice && r.size == pos.size
    ensures Sound(ps[pos.symbol := r], WithPair(os, pos, n, sl, tp), n + 2)
  {
    var q := r.(tpOrderID := None);
    var ps1, os1 := ps[pos.symbol := q], os[Paper(n) := ProtectiveOrder(n, pos, StopMarket, sl)];
    assert ps1[pos.symbol := r] == ps[pos.symbol := r];
    AddStopSound(ps, os, n, pos, sl, q);
    AddTargetSound(ps1, os1, n + 1, pos, tp, r);
  }

  lemma AddLimitSound(ps: Positions, os: Orders, n: int, o: Order)
    requires Sound(ps, os, n) && o.id == n && o.orderType == Limit && Armed(o)
    ensures Sound(ps, os[Paper(n) := o], n + 1)
  {
  }

  /** Dropping an order keeps the book sound exactly when the order is not a stop. */
  lemma DropSound(ps: Positions, os: Orders, n: int, k: OrderKey)
    requires Sound(ps, os, n)
    ensures Sound(ps, os - {k}, n) <==> !(k in os && os[k].orderType == StopMarket)
  {
  }

  /** Two protective orders of one kind on one symbol are the same order. */
  lemma OnePerKind(ps: Positions, os: Orders, n: int, j: OrderKey, k: OrderKey)
    requires Sound(ps, os, n) && j in os && k in os && os[j].symbol == os[k].symbol &&
               os[j].orderType == os[k].orderType
    requires os[j].orderType == StopMarket || os[j].orderType == TakeProfitMarket
    ensures j == k
  {
  }
}
