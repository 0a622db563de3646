/** A protected broker that is persisted, stopped and restarted. */
module Restarts {
  import opened Domain
  import opened BrokerModel
  import opened BrokerProtection
  import opened BrokerRuns
  import opened BrokerSafety
  import opened Rehydration

  lemma {:induction false} LoadedIsResumed(os: seq<Order>)
    ensures OrdersResumed(os, LoadedOrders(os), NextNumber(os))
    decreases |os|
  {
    if os != [] {
      var i := |os| - 1;
      LoadedIsResumed(os[..i]);
      LoadedSnoc([], os, i);
      assert os[..i + 1] == os;
      OrdersResumedSnoc(os, i, LoadedOrders(os[..i]), NextNumber(os[..i]), NextNumber(os));
    }
  }

  /** Whatever was persisted under spent keys, a restarted broker is protected exactly when its book is recoverable. */
  lemma RestartProtectsExactly(ps: seq<Position>, os: seq<Order>, counter: int, s: BrokerState)
    requires Restarted(ps, os, counter, s) && 1 <= counter && KeysBehind(os, counter)
    ensures var b := Loaded(ps, os, counter);
            Protected(s) <==> Recoverable(b, b.positions.Keys)
  {
    LoadedIsResumed(os);
    BehindIsSpent(os, LoadedOrders(os), NextNumber(os), counter);
    assert Numbered(Loaded(ps, os, counter));
  }

  // ---------------------------------------------------------------- what a protected book leaves behind

  /** Every position and every order of the book is listed, and nothing else, each once. */
  ghost predicate Persisted(b: Book, ps: seq<Position>, os: seq<Order>) {
    && (forall i :: 0 <= i < |ps| ==> ps[i].symbol in b.positions && b.positions[ps[i].symbol] == ps[i])
    && (forall y :: y in b.positions ==> b.positions[y] in ps)
    && (forall i :: 0 <= i < |os| ==> os[i].key in b.orders && b.orders[os[i].key] == os[i])
    && (forall k :: k in b.orders ==> b.orders[k] in os && b.orders[k].key == k)
  }

  lemma {:induction false} LoadedFrom(ps: seq<Position>, b: Book)
    requires forall i :: 0 <= i < |ps| ==> ps[i].symbol in b.positions && b.positions[ps[i].symbol] == ps[i]
    ensures forall y :: y in LoadedPositions(ps) ==> y in b.positions && LoadedPositions(ps)[y] == b.positions[y]
    ensures forall i :: 0 <= i < |ps| ==> ps[i].symbol in LoadedPositions(ps)
    decreases |ps|
  {
    if ps != [] {
      LoadedFrom(ps[..|ps| - 1], b);
    }
  }

  lemma {:induction false} OrdersLoadedFrom(os: seq<Order>, b: Book)
    requires forall i :: 0 <= i < |os| ==>
               os[i].key in b.orders && b.orders[os[i].key] == os[i] && !Dropped(os[i]) && KeyOf(os[i]) == os[i].key
    ensures forall k :: k in LoadedOrders(os) ==> k in b.orders && LoadedOrders(os)[k] == b.orders[k]
    ensures forall i :: 0 <= i < |os| ==> os[i].key in LoadedOrders(os)
    decreases |os|
  {
    if os != [] {
      OrdersLoadedFrom(os[..|os| - 1], b);
    }
  }

  lemma {:induction false} NumbersBeyond(os: seq<Order>, i: nat)
    ensures NextNumber(os) >= 1 && (i < |os| ==> os[i].id < NextNumber(os))
    decreases |os|
  {
    if os != [] && i < |os| - 1 {
      NumbersBeyond(os[..|os| - 1], i);
    } else if os != [] {
      NumbersBeyond(os[..|os| - 1], 0);
    }
  }

  /** Persisted orders of a protected book come back under their own keys. */
  lemma PersistedOrder(b: Book, ps: seq<Position>, os: seq<Order>, i: nat)
    requires SoundBook(b) && Persisted(b, ps, os) && i < |os|
    ensures !Dropped(os[i]) && KeyOf(os[i]) == os[i].key == Paper(os[i].id)
  {
    assert Armed(b.orders[os[i].key]);
  }

  lemma PositionsComeBack(b: Book, ps: seq<Position>, os: seq<Order>)
    requires SoundBook(b) && Persisted(b, ps, os)
    ensures LoadedPositions(ps) == b.positions
  {
    LoadedFrom(ps, b);
    forall y | y in b.positions
      ensures y in LoadedPositions(ps)
    {
      assert Guarded(b.positions, b.orders, y) && b.positions[y] in ps;
    }
  }

  lemma OrdersComeBack(b: Book, ps: seq<Position>, os: seq<Order>)
    requires SoundBook(b) && Persisted(b, ps, os)
    ensures LoadedOrders(os) == b.orders
  {
    forall i | 0 <= i < |os|
      ensures !Dropped(os[i]) && KeyOf(os[i]) == os[i].key
    {
      PersistedOrder(b, ps, os, i);
    }
    OrdersLoadedFrom(os, b);
    assert forall k :: k in b.orders ==> b.orders[k] in os && b.orders[k].key == k;
  }

  /** The book is loaded as it was; only the order counter starts again behind the orders still pending. */
  lemma BookComesBack(b: Book, ps: seq<Position>, os: seq<Order>, counter: int)
    requires SoundBook(b) && Persisted(b, ps, os)
    ensures Loaded(ps, os, counter).positions == b.positions && Loaded(ps, os, counter).orders == b.orders
  {
    PositionsComeBack(b, ps, os);
    OrdersComeBack(b, ps, os);
  }

  lemma AllHaveStops(b: Book, c: Book)
    requires SoundBook(b) && c.positions == b.positions && c.orders == b.orders
    ensures AllStopped(c)
  {
    forall y | y in c.positions
      ensures HasOpenStop(c.orders, y)
    {
      assert Guarded(b.positions, b.orders, y);
    }
  }

  /** No position is linked to a number that the counter will hand out again. */
  predicate LinksSpent(ps: map<string, Position>, n: int) {
    forall y :: y in ps ==> Issued(n, ps[y].tpOrderID)
  }

  lemma SoundExceptLinks(b: Book, n: int)
    requires SoundBook(b) && 1 <= n && forall k :: k in b.orders ==> b.orders[k].id < n
    ensures Sound(b.positions, b.orders, n) <==> LinksSpent(b.positions, n)
  {
    forall y | y in b.positions
      ensures Guarded(b.positions, b.orders, y) && Issued(n, b.positions[y].slOrderID)
    {
      assert Guarded(b.positions, b.orders, y);
    }
  }

  /**
   A protected broker, persisted and restarted: it has the same positions and orders, and is protected again exactly
   when no position is linked to a target number at or beyond its new counter.
   */
  lemma ProtectedComesBack(
    b: Book, ps: seq<Position>, os: seq<Order>, counter: int, s: BrokerState)
    requires SoundBook(b) && Persisted(b, ps, os) && 1 <= counter && Restarted(ps, os, counter, s)
    ensures s.book.positions == b.positions && s.book.orders == b.orders
    ensures Protected(s) <==> LinksSpent(b.positions, s.book.nextOrderID)
  {
    BookComesBack(b, ps, os, counter);
    AllHaveStops(b, Loaded(ps, os, counter));
    forall k | k in b.orders
      ensures b.orders[k].id < s.book.nextOrderID
    {
      var i :| 0 <= i < |os| && os[i] == b.orders[k];
      NumbersBeyond(os, i);
    }
    SoundExceptLinks(b, s.book.nextOrderID);
  }

  /** From there guarded operations keep it protected, however many. */
  lemma RunGoesOn(
    cfg: ValidConfig, b: Book, ps: seq<Position>, os: seq<Order>, counter: int, s: BrokerState, ops: seq<Op>)
    requires SoundBook(b) && Persisted(b, ps, os) && 1 <= counter && Restarted(ps, os, counter, s)
    requires LinksSpent(b.positions, s.book.nextOrderID) && AdmissibleRun(cfg, s, ops)
    ensures Protected(Run(cfg, s, ops))
  {
    ProtectedComesBack(b, ps, os, counter, s);
    RunKeepsProtection(cfg, s, ops);
  }

  // ---------------------------------------------------------------- a link that outlives its target

  /** A position with its stop as order 1, still linked to order 2, a target that was cancelled. */
  predicate TargetCancelled(p: Position, stop: Order) {
    && p.symbol != "" && p.size > 0.0 && p.slOrderID == Some(1) && p.tpOrderID == Some(2)
    && StopsOut(stop, p) && stop.id == 1 && stop.key == Paper(1)
  }

  /** Protected when it was persisted; a fresh broker restarts at number 2, the one that is still linked. */
  lemma LinkOutlivesTarget(p: Position, stop: Order) returns (b: Book)
    requires TargetCancelled(p, stop)
    ensures b == Book(map[p.symbol := p], map[Paper(1) := stop], 3)
    ensures SoundBook(b) && Persisted(b, [p], [stop])
    ensures Loaded([p], [stop], 1).nextOrderID == 2 && !LinksSpent(b.positions, 2)
  {
    b := Book(map[p.symbol := p], map[Paper(1) := stop], 3);
    assert [p][0] == p && [stop][0] == stop;
    assert b.positions[p.symbol] == p;
    assert NextNumber([stop]) == 2 by {
      assert [stop][..0] == [];
    }
  }

  /** The next limit order for the symbol takes that number, and closing the position cancels it. */
  lemma LinkClaimsLimit(cfg: ValidConfig, s: BrokerState, req: OrderRequest, price: real)
    requires req.symbol in s.book.positions && s.book.positions[req.symbol].symbol == req.symbol
    requires s.book.positions[req.symbol].tpOrderID == Some(s.book.nextOrderID)
    requires Place(cfg, s, req).1.Accepted? && req.orderType == Limit
    ensures var t, k := Place(cfg, s, req).0, Paper(s.book.nextOrderID);
            k in t.book.orders && req.symbol in t.book.positions &&
            k !in CloseOut(cfg, t, t.book.positions[req.symbol], price, true).book.orders
  {
  }
}
