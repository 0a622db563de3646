/** What a restart has to establish from the persisted positions and orders. */
module Rehydration {
  import opened Domain
  import opened BrokerModel
  import opened BrokerMoney
  import opened BrokerProtection
  import opened BrokerRuns
  import Folds

  datatype AccountSnapshot = AccountSnapshot(balance: real, realizedPnL: real, totalFees: real, totalSlippage: real,
      dailyLoss: real)

  /** What a repository answers. */
  datatype Fetched<+T> = Fetched(value: T) | FetchFailed

  /** A persisted position worth resuming: it has a stop, on the losing side. */
  predicate Resumable(p: Position) {
    p.stopLoss > 0.0 && StopOnLosingSide(p.side, p.entryPrice, p.stopLoss)
  }

  /** A persisted LIMIT order without an intended stop is cancelled instead of resumed. */
  predicate Dropped(o: Order) {
    o.orderType == Limit && o.intendedSL <= 0.0
  }

  function KeyOf(o: Order): OrderKey {
    if o.key == Blank then PaperDb(o.id) else o.key
  }

  predicate NeedsUpdate(o: Order) {
    o.key == Blank || Dropped(o)
  }

  predicate AllResumable(ps: seq<Position>) {
    forall i :: 0 <= i < |ps| ==> Resumable(ps[i])
  }

  predicate AnyUpdate(os: seq<Order>) {
    exists i :: 0 <= i < |os| && NeedsUpdate(os[i])
  }

  lemma AnyUpdateSnoc(os: seq<Order>, i: nat)
    requires i < |os|
    ensures AnyUpdate(os[..i + 1]) <==> AnyUpdate(os[..i]) || NeedsUpdate(os[i])
  {
  }

  ghost predicate DistinctSymbols(ps: seq<Position>) {
    forall i, j :: 0 <= i < j < |ps| ==> ps[i].symbol != ps[j].symbol
  }

  predicate HasOpenStop(orders: map<OrderKey, Order>, symbol: string) {
    exists k :: k in orders && orders[k].symbol == symbol && orders[k].orderType == StopMarket &&
        orders[k].status == Pending
  }

  /** The counter has moved past every order key it could have made. */
  ghost predicate KeysSpent(orders: map<OrderKey, Order>, next: int) {
    forall n :: Paper(n) in orders ==> n < next
  }

  /** What the two lists load: of a symbol, or a key, that comes up twice the last entry stays. */
  function LoadedPositions(ps: seq<Position>): map<string, Position>
    decreases |ps|
  {
    if ps == [] then map[]
    else
      var p := ps[|ps| - 1];
      LoadedPositions(ps[..|ps| - 1])[p.symbol := p]
  }

  function LoadedOrders(os: seq<Order>): map<OrderKey, Order>
    decreases |os|
  {
    if os == [] then map[]
    else
      var o, front := os[|os| - 1], LoadedOrders(os[..|os| - 1]);
      if Dropped(o) then front else front[KeyOf(o) := o.(key := KeyOf(o))]
  }

  /** The first number beyond those of the listed orders. */
  function NextNumber(os: seq<Order>): int
    decreases |os|
  {
    if os == [] then 1
    else
      var o, next := os[|os| - 1], NextNumber(os[..|os| - 1]);
      if o.id >= next then o.id + 1 else next
  }

  /** The book as loaded, before any repair, by a broker whose order counter stands at `counter`. */
  function Loaded(ps: seq<Position>, os: seq<Order>, counter: int): Book {
    Book(LoadedPositions(ps), LoadedOrders(os), if NextNumber(os) > counter then NextNumber(os) else counter)
  }

  lemma LoadedSnoc(ps: seq<Position>, os: seq<Order>, i: nat)
    ensures i < |ps| ==> LoadedPositions(ps[..i + 1]) == LoadedPositions(ps[..i])[ps[i].symbol := ps[i]]
    ensures i < |os| ==>
              LoadedOrders(os[..i + 1]) == (if Dropped(os[i]) then LoadedOrders(os[..i])
                                            else LoadedOrders(os[..i])[KeyOf(os[i]) := os[i].(key := KeyOf(os[i]))])
    ensures i < |os| ==>
              NextNumber(os[..i + 1])
              == if os[i].id >= NextNumber(os[..i]) then os[i].id + 1 else NextNumber(os[..i])
  {
    if i < |ps| {
      assert ps[..i + 1][..i] == ps[..i];
    }
    if i < |os| {
      assert os[..i + 1][..i] == os[..i];
    }
  }

  // ---- the same in plain terms ----

  /** Every position has a stop, below its entry for a long and above it for a short. */
  lemma ResumesExactly(ps: seq<Position>)
    ensures AllResumable(ps) <==>
            forall p :: p in ps ==>
              0.0 < p.stopLoss && if p.side == Long then p.stopLoss < p.entryPrice else p.entryPrice < p.stopLoss
  {
    if AllResumable(ps) {
      forall p | p in ps
        ensures Resumable(p)
      {
        var i :| 0 <= i < |ps| && ps[i] == p;
      }
    }
  }

  /** Not a limit order without an intended stop. */
  predicate Stays(o: Order) {
    o.orderType == Limit ==> 0.0 < o.intendedSL
  }

  /** It has a key, its own or one made of its number. */
  predicate Under(o: Order, k: OrderKey) {
    if o.key == Blank then k == PaperDb(o.id) else k == o.key
  }

  /** An order is written back exactly when it had no key or does not stay. */
  lemma UpdatesExactly(os: seq<Order>)
    ensures AnyUpdate(os) <==> exists o :: o in os && (o.key == Blank || !Stays(o))
  {
    if o :| o in os && (o.key == Blank || !Stays(o)) {
      var i :| 0 <= i < |os| && os[i] == o;
      assert NeedsUpdate(os[i]);
    }
  }

  /** What is loaded under a key is the last order with that key that stays. */
  lemma {:induction false} LoadsTheLast(os: seq<Order>, k: OrderKey, i: nat)
    requires i < |os| && Stays(os[i]) && Under(os[i], k)
    requires forall j :: i < j < |os| ==> !(Stays(os[j]) && Under(os[j], k))
    ensures k in LoadedOrders(os) && LoadedOrders(os)[k] == os[i].(key := k)
    decreases |os|
  {
    if i < |os| - 1 {
      LoadsTheLast(os[..|os| - 1], k, i);
    }
  }

  /** And nothing else is loaded. */
  lemma {:induction false} LoadsNothingElse(os: seq<Order>, k: OrderKey)
    requires forall i :: 0 <= i < |os| ==> !(Stays(os[i]) && Under(os[i], k))
    ensures k !in LoadedOrders(os)
    decreases |os|
  {
    if os != [] {
      LoadsNothingElse(os[..|os| - 1], k);
    }
  }

  /** The next number is the least one from 1 that no order has reached. */
  lemma {:induction false} NumberedExactly(os: seq<Order>, n: int)
    ensures NextNumber(os) <= n <==> 1 <= n && forall i :: 0 <= i < |os| ==> os[i].id < n
    decreases |os|
  {
    if os != [] {
      NumberedExactly(os[..|os| - 1], n);
    }
  }

  function MarginSum(ps: seq<Position>): real
    decreases |ps|
  {
    if ps == [] then 0.0 else MarginSum(ps[..|ps| - 1]) + ps[|ps| - 1].margin
  }

  lemma MarginSumSnoc(ps: seq<Position>, i: nat)
    requires i < |ps|
    ensures MarginSum(ps[..i + 1]) == MarginSum(ps[..i]) + ps[i].margin
  {
    assert ps[..i + 1][..i] == ps[..i];
  }

  /** Where an open position comes from: the persisted list, up to its order links. */
  ghost predicate FromList(ps: seq<Position>, p: Position) {
    exists i :: 0 <= i < |ps| && SameButLinks(p, ps[i])
  }

  /** Every persisted symbol is open again, each position resumable and as persisted up to its order links. */
  ghost predicate PositionsBack(ps: seq<Position>, loaded: map<string, Position>) {
    (forall i :: 0 <= i < |ps| ==> ps[i].symbol in loaded) &&
    (forall sym :: sym in loaded ==> loaded[sym].symbol == sym && Resumable(loaded[sym]) && FromList(ps, loaded[sym]))
  }

  lemma PositionsBackSnoc(ps: seq<Position>, i: nat, loaded: map<string, Position>)
    requires i < |ps| && PositionsBack(ps[..i], loaded) && Resumable(ps[i])
    ensures PositionsBack(ps[..i + 1], loaded[ps[i].symbol := ps[i]])
  {
  }

  lemma NewSymbol(ps: seq<Position>, i: nat, loaded: map<string, Position>)
    requires i < |ps| && DistinctSymbols(ps) && PositionsBack(ps[..i], loaded)
    ensures ps[i].symbol !in loaded
  {
  }

  /** The margin total after one more position of a new symbol. */
  lemma MarginSnoc(ps: seq<Position>, i: nat, loaded: map<string, Position>)
    requires i < |ps| && MarginSum(ps[..i]) == Folds.SumBy(loaded, MarginOf()) && ps[i].symbol !in loaded
    ensures MarginSum(ps[..i + 1]) == Folds.SumBy(loaded[ps[i].symbol := ps[i]], MarginOf())
  {
    MarginSumSnoc(ps, i);
    Folds.SumPut(loaded, MarginOf(), ps[i].symbol, ps[i]);
    Folds.SumDrop(loaded, MarginOf(), ps[i].symbol);
  }

  /** Which orders the order list leaves behind. */
  ghost predicate OrdersResumed(os: seq<Order>, loaded: map<OrderKey, Order>, next: int) {
    (forall i :: 0 <= i < |os| ==> os[i].id < next && (Dropped(os[i]) || KeyOf(os[i]) in loaded)) &&
    (forall k :: k in loaded ==> !Dropped(loaded[k]) && loaded[k].id < next && loaded[k].key == k &&
                                 exists i :: 0 <= i < |os| && loaded[k] == os[i].(key := k) && k == KeyOf(os[i]))
  }

  lemma OrdersResumedSnoc(os: seq<Order>, i: nat, loaded: map<OrderKey, Order>, before: int, next: int)
    requires i < |os| && OrdersResumed(os[..i], loaded, before) && next >= before && os[i].id < next
    ensures OrdersResumed(os[..i + 1], if Dropped(os[i]) then loaded
              else loaded[KeyOf(os[i]) := os[i].(key := KeyOf(os[i]))], next)
  {
    var longer, o := os[..i + 1], os[i];
    assert longer[i] == o && forall j :: 0 <= j < i ==> longer[j] == os[..i][j];
    var after := if Dropped(o) then loaded else loaded[KeyOf(o) := o.(key := KeyOf(o))];
    forall k | k in after
      ensures exists j :: 0 <= j < |longer| && after[k] == longer[j].(key := k) && k == KeyOf(longer[j])
    {
      if !Dropped(o) && k == KeyOf(o) {
        assert after[k] == longer[i].(key := k);
      } else {
        var j :| 0 <= j < i && loaded[k] == os[..i][j].(key := k) && k == KeyOf(os[..i][j]);
        assert after[k] == longer[j].(key := k);
      }
    }
  }

  /** The persisted position up to its order links. */
  predicate SameButLinks(p: Position, q: Position) {
    p == q.(slOrderID := p.slOrderID, tpOrderID := p.tpOrderID)
  }

  /** What repairing does to a book: only order links change on the positions. */
  ghost predicate Relinked(b: Book, c: Book) {
    c.positions.Keys == b.positions.Keys && c.nextOrderID >= b.nextOrderID &&
    (forall sym :: sym in b.positions ==> SameButLinks(c.positions[sym], b.positions[sym])) &&
    Folds.SumBy(c.positions, MarginOf()) == Folds.SumBy(b.positions, MarginOf())
  }

  /** No order is lost, and only protective orders are added. */
  ghost predicate OrdersKept(b: Book, c: Book) {
    KeysSpent(c.orders, c.nextOrderID) && c.nextOrderID >= b.nextOrderID &&
    (forall k :: k in b.orders ==> k in c.orders && c.orders[k] == b.orders[k]) &&
    (forall k :: k in c.orders && k !in b.orders ==> c.orders[k].orderType != Limit && c.orders[k].id < c.nextOrderID)
  }

  lemma StopsKept(b: Book, c: Book, symbol: string)
    requires OrdersKept(b, c) && HasOpenStop(b.orders, symbol)
    ensures HasOpenStop(c.orders, symbol)
  {
  }

  /** A repair mints a key the counter has not used, so no order is displaced. */
  lemma RepairKeepsOrders(b: Book, c: Book, pos: Position)
    requires OrdersKept(b, c) && Resumable(pos)
    ensures var d := AddProtection(c, pos, pos.stopLoss, pos.takeProfit);
            OrdersKept(b, d) && OrdersKept(c, d) && HasOpenStop(d.orders, pos.symbol)
  {
    var d := AddProtection(c, pos, pos.stopLoss, pos.takeProfit);
    var n := c.nextOrderID;
    assert Paper(n) !in c.orders && Paper(n + 1) !in c.orders;
    assert d.orders[Paper(n)] == ProtectiveOrder(n, pos, StopMarket, pos.stopLoss);
  }

  predicate GetsTarget(pos: Position) {
    pos.takeProfit > 0.0 && TargetOnWinningSide(pos.side, pos.entryPrice, pos.takeProfit)
  }

  /** Whatever keys were persisted, a repair displaces no order exactly when the keys it mints are not taken. */
  lemma RepairDisplacesExactly(c: Book, pos: Position)
    requires Resumable(pos) && forall k :: k in c.orders ==> c.orders[k].id < c.nextOrderID
    ensures var d, n := AddProtection(c, pos, pos.stopLoss, pos.takeProfit), c.nextOrderID;
            (forall k :: k in c.orders ==> k in d.orders && d.orders[k] == c.orders[k]) <==>
            Paper(n) !in c.orders && (GetsTarget(pos) ==> Paper(n + 1) !in c.orders)
  {
    var d, n := AddProtection(c, pos, pos.stopLoss, pos.takeProfit), c.nextOrderID;
    assert d.orders[Paper(n)].id == n;
    assert GetsTarget(pos) ==> d.orders[Paper(n + 1)].id == n + 1;
  }

  /** Without that hypothesis a repair can take the place of another symbol's only stop. */
  lemma RepairCanClobber(b: Book, pos: Position, other: string)
    requires Resumable(pos) && other != pos.symbol
    requires Paper(b.nextOrderID) in b.orders && b.orders[Paper(b.nextOrderID)].symbol == other
    requires forall k :: k in b.orders && k != Paper(b.nextOrderID) ==> b.orders[k].symbol != other
    ensures !HasOpenStop(AddProtection(b, pos, pos.stopLoss, pos.takeProfit).orders, other)
  {
  }

  /**
   Such a restart: two resumable positions, and for the second of them a stop stored as order 1 under the key of order
   2. The broker finds that stop, repairs the first position under the next number, 2, and the stop is gone.
   */
  lemma RestartClobbersStop(p: Position, q: Position, o: Order) returns (b: Book)
    requires p.symbol != q.symbol && Resumable(p) && Resumable(q)
    requires o.id == 1 && o.key == Paper(2) && o.symbol == q.symbol && o.orderType == StopMarket && o.status == Pending
    ensures b == Book(map[p.symbol := p, q.symbol := q], map[Paper(2) := o], 2)
    ensures PositionsBack([p, q], b.positions) && OrdersResumed([o], b.orders, b.nextOrderID) && !KeysBehind([o], 1)
    ensures HasOpenStop(b.orders, q.symbol) && !HasOpenStop(b.orders, p.symbol)
    ensures !HasOpenStop(AddProtection(b, p, p.stopLoss, p.takeProfit).orders, q.symbol)
  {
    b := Book(map[p.symbol := p, q.symbol := q], map[Paper(2) := o], 2);
    assert SameButLinks(p, [p, q][0]) && SameButLinks(q, [p, q][1]);
    assert [o][0] == o && KeyOf([o][0]) == Paper(2);
    RepairCanClobber(b, p, q.symbol);
  }

  lemma RepairRelinks(b: Book, c: Book, pos: Position)
    requires Relinked(b, c) && pos.symbol in c.positions && c.positions[pos.symbol] == pos && Resumable(pos)
    ensures Relinked(b, AddProtection(c, pos, pos.stopLoss, pos.takeProfit))
  {
    var q := RepairShape(c, pos);
    ReplacedMargin(c.positions, pos.symbol, q);
  }

  lemma RepairShape(c: Book, pos: Position) returns (q: Position)
    requires pos.symbol in c.positions && c.positions[pos.symbol] == pos && Resumable(pos)
    ensures var d := AddProtection(c, pos, pos.stopLoss, pos.takeProfit);
            SameButLinks(q, pos) && d.positions == c.positions[pos.symbol := q] && d.nextOrderID >= c.nextOrderID
  {
    q := AddProtection(c, pos, pos.stopLoss, pos.takeProfit).positions[pos.symbol];
  }

  /** No LIMIT order without a stop, and no order number still to be issued. */
  ghost predicate Clean(b: Book) {
    forall k :: k in b.orders ==> !Dropped(b.orders[k]) && b.orders[k].id < b.nextOrderID
  }

  lemma RepairKeepsClean(c: Book, pos: Position)
    requires Clean(c) && Resumable(pos)
    ensures Clean(AddProtection(c, pos, pos.stopLoss, pos.takeProfit))
  {
  }

  /** What repairs make of the book `b`, as far as they have got. */
  ghost predicate Mended(b: Book, c: Book) {
    && Relinked(b, c) && (Clean(b) ==> Clean(c))
    && (KeysSpent(b.orders, b.nextOrderID) ==> OrdersKept(b, c))
  }

  /** With spent keys, every symbol whose turn has come has its stop. */
  ghost predicate StopsBack(b: Book, c: Book, todo: set<string>) {
    KeysSpent(b.orders, b.nextOrderID) ==>
      forall sym :: sym in c.positions && sym !in todo ==> HasOpenStop(c.orders, sym)
  }

  lemma MendedAtFirst(b: Book)
    ensures Mended(b, b) && StopsBack(b, b, b.positions.Keys)
  {
  }

  // ---------------------------------------------------------------- when a repaired book is protected

  predicate Unstopped(b: Book, symbol: string) {
    symbol in b.positions && !HasOpenStop(b.orders, symbol)
  }

  /** The symbols due for repair, and those among them that get a target as well. */
  function Due(b: Book, todo: set<string>): set<string> {
    set y | y in todo && Unstopped(b, y)
  }

  function DueTarget(b: Book, todo: set<string>): set<string> {
    set y | y in todo && Unstopped(b, y) && GetsTarget(b.positions[y])
  }

  /** How many numbers the repairs still due will take. */
  function Minting(b: Book, todo: set<string>): int {
    |Due(b, todo)| + |DueTarget(b, todo)|
  }

  /** A position due for repair can be traded and keeps no link beyond `n`; any other is guarded. */
  predicate Ready(b: Book, todo: set<string>, n: int, symbol: string)
    requires symbol in b.positions
  {
    var p := b.positions[symbol];
    if symbol in todo && Unstopped(b, symbol) then
      p.symbol == symbol && symbol != "" && p.size > 0.0 && (GetsTarget(p) || Issued(n, p.tpOrderID))
    else Guarded(b.positions, b.orders, symbol) && Issued(n, p.slOrderID) && Issued(n, p.tpOrderID)
  }

  /** An order of a position due for repair is no stop, and a target only if the repair brings none. */
  predicate Fits(b: Book, todo: set<string>, o: Order) {
    if o.symbol in todo && Unstopped(b, o.symbol) then
      o.orderType != StopMarket &&
      (o.orderType == TakeProfitMarket ==> Owned(b.positions, o) && !GetsTarget(b.positions[o.symbol]))
    else Owned(b.positions, o)
  }

  predicate InPlace(o: Order, k: OrderKey, n: int) {
    k == Paper(o.id) && 1 <= o.id < n && Armed(o)
  }

  ghost predicate AllReady(b: Book, todo: set<string>, n: int) {
    forall y :: y in b.positions ==> Ready(b, todo, n, y)
  }

  ghost predicate AllFit(b: Book, todo: set<string>, n: int) {
    forall k :: k in b.orders ==> InPlace(b.orders[k], k, n) && Fits(b, todo, b.orders[k])
  }

  /** What a loaded book must be like for the repairs still due to leave it protected. */
  ghost predicate Recoverable(b: Book, todo: set<string>) {
    Recovers(b, todo, b.nextOrderID + Minting(b, todo))
  }

  ghost predicate Recovers(b: Book, todo: set<string>, n: int) {
    1 <= n && AllReady(b, todo, n) && AllFit(b, todo, n)
  }

  lemma NothingDue(b: Book)
    ensures Recoverable(b, {}) <==> SoundBook(b)
  {
    assert Due(b, {}) == {} && DueTarget(b, {}) == {};
  }

  /** A repair under way: the position is stored, without a stop, and the next numbers are free. */
  ghost predicate Repairs(c: Book, pos: Position, todo: set<string>) {
    && pos.symbol in c.positions && c.positions[pos.symbol] == pos && Resumable(pos) && pos.symbol !in todo
    && !HasOpenStop(c.orders, pos.symbol)
    && KeysSpent(c.orders, c.nextOrderID) && (forall k :: k in c.orders ==> c.orders[k].id < c.nextOrderID)
    && 1 <= c.nextOrderID
  }

  function Repaired(c: Book, pos: Position): Book {
    AddProtection(c, pos, pos.stopLoss, pos.takeProfit)
  }

  /** The new links, and the new orders beside all old ones. */
  lemma RepairedShape(c: Book, pos: Position, todo: set<string>, k: OrderKey)
    requires Repairs(c, pos, todo)
    ensures var d, n := Repaired(c, pos), c.nextOrderID;
            var q := d.positions[pos.symbol];
            && d.nextOrderID == n + (if GetsTarget(pos) then 2 else 1)
            && q == (if GetsTarget(pos) then pos.(slOrderID := Some(n), tpOrderID := Some(n + 1))
                     else pos.(slOrderID := Some(n)))
            && d.positions == c.positions[pos.symbol := q]
            && Paper(n) in d.orders && d.orders[Paper(n)] == ProtectiveOrder(n, pos, StopMarket, pos.stopLoss)
            && (GetsTarget(pos) ==>
                  Paper(n + 1) in d.orders &&
                  d.orders[Paper(n + 1)] == ProtectiveOrder(n + 1, pos, TakeProfitMarket, pos.takeProfit))
            && (k in c.orders ==> k in d.orders && d.orders[k] == c.orders[k])
            && (k in d.orders && k !in c.orders ==> k == Paper(n) || (GetsTarget(pos) && k == Paper(n + 1)))
  {
  }

  lemma OthersUnstopped(c: Book, pos: Position, todo: set<string>, y: string)
    requires Repairs(c, pos, todo) && y != pos.symbol
    ensures Unstopped(Repaired(c, pos), y) <==> Unstopped(c, y)
  {
    var d := Repaired(c, pos);
    forall k
      ensures k in c.orders ==> k in d.orders && d.orders[k] == c.orders[k]
      ensures k in d.orders && k !in c.orders ==> d.orders[k].symbol == pos.symbol
    {
      RepairedShape(c, pos, todo, k);
    }
  }

  lemma DueAfterRepair(c: Book, pos: Position, todo: set<string>)
    requires Repairs(c, pos, todo)
    ensures Due(Repaired(c, pos), todo) == Due(c, todo) && DueTarget(Repaired(c, pos), todo) == DueTarget(c, todo)
  {
    var d := Repaired(c, pos);
    RepairedShape(c, pos, todo, Blank);
    forall y | y in todo
      ensures Unstopped(d, y) <==> Unstopped(c, y)
    {
      OthersUnstopped(c, pos, todo, y);
    }
  }

  lemma RepairMints(c: Book, pos: Position, todo: set<string>)
    requires Repairs(c, pos, todo)
    ensures var d := Repaired(c, pos);
            d.nextOrderID <= d.nextOrderID + Minting(d, todo) == c.nextOrderID + Minting(c, todo + {pos.symbol})
  {
    DueAfterRepair(c, pos, todo);
    RepairedShape(c, pos, todo, Blank);
    assert Due(c, todo + {pos.symbol}) == Due(c, todo) + {pos.symbol};
    assert DueTarget(c, todo + {pos.symbol})
        == if GetsTarget(pos) then DueTarget(c, todo) + {pos.symbol} else DueTarget(c, todo);
  }

  lemma RepairReadies(c: Book, pos: Position, todo: set<string>, n: int, y: string)
    requires Repairs(c, pos, todo) && y in c.positions && n >= Repaired(c, pos).nextOrderID
    ensures y in Repaired(c, pos).positions
    ensures Ready(Repaired(c, pos), todo, n, y) <==> Ready(c, todo + {pos.symbol}, n, y)
  {
    var d := Repaired(c, pos);
    RepairedShape(c, pos, todo, Blank);
    if y != pos.symbol {
      OthersUnstopped(c, pos, todo, y);
      var id := c.positions[y].slOrderID;
      if id.Some? {
        RepairedShape(c, pos, todo, Paper(id.value));
      }
    }
  }

  lemma RepairFits(c: Book, pos: Position, todo: set<string>, k: OrderKey)
    requires Repairs(c, pos, todo) && k in c.orders
    ensures Fits(Repaired(c, pos), todo, c.orders[k]) <==> Fits(c, todo + {pos.symbol}, c.orders[k])
  {
    var o := c.orders[k];
    RepairedShape(c, pos, todo, k);
    if o.symbol != pos.symbol {
      OthersUnstopped(c, pos, todo, o.symbol);
    }
  }

  lemma RepairReadiesAll(c: Book, pos: Position, todo: set<string>, n: int)
    requires Repairs(c, pos, todo) && n >= Repaired(c, pos).nextOrderID
    ensures AllReady(Repaired(c, pos), todo, n) <==> AllReady(c, todo + {pos.symbol}, n)
  {
    var d := Repaired(c, pos);
    RepairedShape(c, pos, todo, Blank);
    assert d.positions.Keys == c.positions.Keys;
    forall y | y in c.positions
      ensures Ready(d, todo, n, y) <==> Ready(c, todo + {pos.symbol}, n, y)
    {
      RepairReadies(c, pos, todo, n, y);
    }
  }

  /** The orders a repair adds are in place and belong to the repaired position. */
  lemma NewOrdersFit(c: Book, pos: Position, todo: set<string>, n: int, k: OrderKey)
    requires Repairs(c, pos, todo) && n >= Repaired(c, pos).nextOrderID
    requires k in Repaired(c, pos).orders && k !in c.orders
    ensures var o := Repaired(c, pos).orders[k]; InPlace(o, k, n) && Fits(Repaired(c, pos), todo, o)
  {
    RepairedShape(c, pos, todo, k);
  }

  lemma RepairFitsAll(c: Book, pos: Position, todo: set<string>, n: int)
    requires Repairs(c, pos, todo) && n >= Repaired(c, pos).nextOrderID
    ensures AllFit(Repaired(c, pos), todo, n) <==> AllFit(c, todo + {pos.symbol}, n)
  {
    var d := Repaired(c, pos);
    forall k
      ensures k in c.orders ==>
                k in d.orders && d.orders[k] == c.orders[k] &&
                (Fits(d, todo, c.orders[k]) <==> Fits(c, todo + {pos.symbol}, c.orders[k]))
      ensures k in d.orders && k !in c.orders ==> InPlace(d.orders[k], k, n) && Fits(d, todo, d.orders[k])
    {
      if k in c.orders {
        RepairedShape(c, pos, todo, k);
        RepairFits(c, pos, todo, k);
      } else if k in d.orders {
        NewOrdersFit(c, pos, todo, n, k);
      }
    }
  }

  lemma RepairRecoversUpTo(c: Book, pos: Position, todo: set<string>, n: int)
    requires Repairs(c, pos, todo) && n >= Repaired(c, pos).nextOrderID
    ensures Recovers(Repaired(c, pos), todo, n) <==> Recovers(c, todo + {pos.symbol}, n)
  {
    RepairReadiesAll(c, pos, todo, n);
    RepairFitsAll(c, pos, todo, n);
  }

  /** Whether the repairs will end with a protected book, and the counter they will reach. */
  ghost predicate Prospect(good: bool, n: int, c: Book, todo: set<string>) {
    n == c.nextOrderID + Minting(c, todo) && (good <==> Recovers(c, todo, n))
  }

  /** A symbol that has its stop needs no repair. */
  lemma StoppedKeepsProspect(good: bool, n: int, c: Book, symbol: string, todo: set<string>)
    requires HasOpenStop(c.orders, symbol) && Prospect(good, n, c, todo + {symbol})
    ensures Prospect(good, n, c, todo)
  {
    var more := todo + {symbol};
    assert Due(c, more) == Due(c, todo) && DueTarget(c, more) == DueTarget(c, todo);
    assert AllReady(c, more, n) <==> AllReady(c, todo, n);
    assert AllFit(c, more, n) <==> AllFit(c, todo, n);
  }

  /** A repair changes neither. */
  lemma RepairKeepsProspect(good: bool, n: int, c: Book, pos: Position, todo: set<string>)
    requires Repairs(c, pos, todo) && Prospect(good, n, c, todo + {pos.symbol})
    ensures Prospect(good, n, Repaired(c, pos), todo)
  {
    RepairMints(c, pos, todo);
    RepairRecoversUpTo(c, pos, todo, n);
  }

  /** Every order key is spent, every order number issued, and the counter has started. */
  ghost predicate Numbered(b: Book) {
    KeysSpent(b.orders, b.nextOrderID) && Clean(b) && 1 <= b.nextOrderID
  }

  /** The prospect of a numbered book `b`, as far as its repairs have got. */
  ghost predicate Outlook(b: Book, c: Book, todo: set<string>, good: bool, n: int) {
    Numbered(b) ==> Prospect(good, n, c, todo)
  }

  lemma RepairKeepsOutlook(b: Book, c: Book, pos: Position, todo: set<string>, good: bool, n: int)
    requires Mended(b, c) && pos.symbol in c.positions && c.positions[pos.symbol] == pos && Resumable(pos)
    requires !HasOpenStop(c.orders, pos.symbol) && pos.symbol !in todo && Outlook(b, c, todo + {pos.symbol}, good, n)
    ensures Outlook(b, Repaired(c, pos), todo, good, n)
  {
    if Numbered(b) {
      RepairKeepsProspect(good, n, c, pos, todo);
    }
  }

  lemma StoppedKeepsOutlook(b: Book, c: Book, symbol: string, todo: set<string>, good: bool, n: int)
    requires HasOpenStop(c.orders, symbol) && Outlook(b, c, todo + {symbol}, good, n)
    ensures Outlook(b, c, todo, good, n)
  {
    if Numbered(b) {
      StoppedKeepsProspect(good, n, c, symbol, todo);
    }
  }

  ghost predicate AllStopped(b: Book) {
    forall y :: y in b.positions ==> HasOpenStop(b.orders, y)
  }

  /** What repairs have made of `b` with `todo` still due. */
  ghost predicate Mending(b: Book, c: Book, todo: set<string>, good: bool, n: int) {
    Mended(b, c) && StopsBack(b, c, todo) && Outlook(b, c, todo, good, n) && (AllStopped(b) ==> c == b)
  }

  lemma RepairContinues(b: Book, c: Book, symbol: string, todo: set<string>, good: bool, n: int)
    requires symbol in b.positions && b.positions[symbol].symbol == symbol && Resumable(b.positions[symbol])
    requires symbol !in todo && Mending(b, c, todo + {symbol}, good, n)
    ensures symbol in c.positions && c.positions[symbol].symbol == symbol && Resumable(c.positions[symbol])
    ensures Mending(b, if HasOpenStop(c.orders, symbol) then c else Repaired(c, c.positions[symbol]), todo, good, n)
  {
    MendedPosition(b, c, symbol);
    if HasOpenStop(c.orders, symbol) {
      StoppedKeepsOutlook(b, c, symbol, todo, good, n);
    } else {
      RepairMends(b, c, c.positions[symbol]);
      RepairBringsStop(b, c, c.positions[symbol], todo);
      RepairKeepsOutlook(b, c, c.positions[symbol], todo, good, n);
    }
  }

  /** One turn of the repair loop. */
  function Turned(c: Book, symbol: string): Book {
    if symbol !in c.positions || HasOpenStop(c.orders, symbol) then c else Repaired(c, c.positions[symbol])
  }

  /** The loop's turns so far, in the order in which the symbols came up. */
  function InTurn(b: Book, done: seq<string>): Book
    decreases |done|
  {
    if done == [] then b else Turned(InTurn(b, done[..|done| - 1]), done[|done| - 1])
  }

  /** Each symbol comes up once, and its position is one to be resumed. */
  ghost predicate Turns(b: Book, done: seq<string>) {
    && (forall i :: 0 <= i < |done| ==> done[i] in b.positions && done[i] !in done[..i])
    && (forall sym :: sym in b.positions ==> b.positions[sym].symbol == sym && Resumable(b.positions[sym]))
  }

  ghost function Rest(b: Book, done: seq<string>): set<string> {
    set sym | sym in b.positions && sym !in done
  }

  lemma TurnContinues(b: Book, c: Book, symbol: string, todo: set<string>, good: bool, n: int)
    requires symbol in b.positions && b.positions[symbol].symbol == symbol && Resumable(b.positions[symbol])
    requires symbol !in todo && Mending(b, c, todo + {symbol}, good, n)
    ensures Mending(b, Turned(c, symbol), todo, good, n)
  {
    RepairContinues(b, c, symbol, todo, good, n);
  }

  lemma FewerTurns(b: Book, done: seq<string>)
    requires Turns(b, done) && done != []
    ensures var front, symbol := done[..|done| - 1], done[|done| - 1];
            Turns(b, front) && Rest(b, front) == Rest(b, done) + {symbol} && symbol !in Rest(b, done)
  {
    var front := done[..|done| - 1];
    assert forall i :: 0 <= i < |front| ==> front[..i] == done[..i];
  }

  lemma {:induction false} TurnsMend(b: Book, done: seq<string>, todo: set<string>, good: bool, n: int)
    requires Turns(b, done) && todo == Rest(b, done) && Mending(b, b, b.positions.Keys, good, n)
    ensures Mending(b, InTurn(b, done), todo, good, n)
    decreases |done|
  {
    if done == [] {
      assert Rest(b, done) == b.positions.Keys;
    } else {
      var front, symbol := done[..|done| - 1], done[|done| - 1];
      FewerTurns(b, done);
      TurnsMend(b, front, todo + {symbol}, good, n);
      TurnContinues(b, InTurn(b, front), symbol, todo, good, n);
    }
  }

  lemma MendingKeeps(b: Book, c: Book, symbol: string, todo: set<string>, good: bool, n: int)
    requires symbol in b.positions && b.positions[symbol].symbol == symbol && Resumable(b.positions[symbol])
    requires Mending(b, c, todo, good, n)
    ensures symbol in c.positions && c.positions[symbol].symbol == symbol && Resumable(c.positions[symbol])
  {
    MendedPosition(b, c, symbol);
  }

  /** What the repairs are to come to. */
  ghost predicate Expected(b: Book, good: bool, n: int) {
    good == Recoverable(b, b.positions.Keys) && n == b.nextOrderID + Minting(b, b.positions.Keys)
  }

  lemma MendingStarts(b: Book, good: bool, n: int)
    requires Expected(b, good, n)
    ensures Mending(b, b, b.positions.Keys, good, n)
  {
    MendedAtFirst(b);
  }

  lemma ExpectedKeep(b: Book, done: seq<string>, symbol: string, good: bool, n: int)
    requires Turns(b, done) && symbol in b.positions && Expected(b, good, n)
    ensures var c := InTurn(b, done);
            symbol in c.positions && c.positions[symbol].symbol == symbol && Resumable(c.positions[symbol])
  {
    MendingStarts(b, good, n);
    TurnsMend(b, done, Rest(b, done), good, n);
    MendingKeeps(b, InTurn(b, done), symbol, Rest(b, done), good, n);
  }

  /** Between turns every position is still one to be resumed. */
  lemma TurnsKeep(b: Book, done: seq<string>, symbol: string)
    requires Turns(b, done) && symbol in b.positions
    ensures symbol in InTurn(b, done).positions && Resumable(InTurn(b, done).positions[symbol])
  {
    ExpectedKeep(b, done, symbol, Recoverable(b, b.positions.Keys), b.nextOrderID + Minting(b, b.positions.Keys));
  }

  lemma TurnsSnoc(b: Book, done: seq<string>, symbol: string)
    requires Turns(b, done) && symbol in b.positions && symbol !in done
    ensures Turns(b, done + [symbol]) && InTurn(b, done + [symbol]) == Turned(InTurn(b, done), symbol)
    ensures Rest(b, done + [symbol]) == Rest(b, done) - {symbol}
  {
    var longer := done + [symbol];
    assert longer[..|done|] == done;
    assert forall i :: 0 <= i < |done| ==> longer[..i] == done[..i];
  }

  /** What repairing the loaded book `b` came to: nothing if it had all stops, and protection if it could be had. */
  ghost predicate RecoveredFrom(b: Book, c: Book) {
    (AllStopped(b) ==> c == b) && (Numbered(b) ==> (SoundBook(c) <==> Recoverable(b, b.positions.Keys)))
  }

  lemma OutlookIsExact(b: Book, c: Book, good: bool, n: int)
    requires Outlook(b, c, {}, good, n) && Numbered(b)
    ensures good <==> SoundBook(c)
  {
    NothingDue(c);
  }

  lemma MendingRecovers(b: Book, c: Book, good: bool, n: int)
    requires Mending(b, c, {}, good, n) && Expected(b, good, n)
    ensures Mended(b, c) && StopsBack(b, c, {}) && RecoveredFrom(b, c)
  {
    if Numbered(b) {
      OutlookIsExact(b, c, good, n);
    }
  }

  /** Once every symbol has come up, every position has a stop again, and the book is what was to be expected. */
  lemma TurnsRecover(b: Book, done: seq<string>, good: bool, n: int)
    requires Turns(b, done) && Rest(b, done) == {} && Expected(b, good, n)
    ensures Mended(b, InTurn(b, done)) && StopsBack(b, InTurn(b, done), {}) && RecoveredFrom(b, InTurn(b, done))
  {
    MendingStarts(b, good, n);
    TurnsMend(b, done, {}, good, n);
    MendingRecovers(b, InTurn(b, done), good, n);
  }

  lemma RepairMends(b: Book, c: Book, pos: Position)
    requires Mended(b, c) && pos.symbol in c.positions && c.positions[pos.symbol] == pos && Resumable(pos)
    ensures Mended(b, AddProtection(c, pos, pos.stopLoss, pos.takeProfit))
  {
    RepairRelinks(b, c, pos);
    if Clean(b) {
      RepairKeepsClean(c, pos);
    }
    if KeysSpent(b.orders, b.nextOrderID) {
      RepairKeepsOrders(b, c, pos);
    }
  }

  lemma RepairBringsStop(b: Book, c: Book, pos: Position, todo: set<string>)
    requires Mended(b, c) && pos.symbol in c.positions && c.positions[pos.symbol] == pos && Resumable(pos)
    requires StopsBack(b, c, todo + {pos.symbol})
    ensures StopsBack(b, AddProtection(c, pos, pos.stopLoss, pos.takeProfit), todo)
  {
    var d := AddProtection(c, pos, pos.stopLoss, pos.takeProfit);
    if KeysSpent(b.orders, b.nextOrderID) {
      RepairKeepsOrders(b, c, pos);
      forall sym | sym in d.positions && sym !in todo
        ensures HasOpenStop(d.orders, sym)
      {
        if sym != pos.symbol {
          StopsKept(c, d, sym);
        }
      }
    }
  }

  /** The orders of a restarted broker: pending stops everywhere, none lost, every key still to be minted free. */
  ghost predicate OrdersBack(os: seq<Order>, b: Book) {
    (forall sym :: sym in b.positions ==> HasOpenStop(b.orders, sym)) &&
    (forall k :: k in b.orders ==> b.orders[k].id < b.nextOrderID) &&
    (forall i :: 0 <= i < |os| && !Dropped(os[i]) ==> KeyOf(os[i]) in b.orders) &&
    KeysSpent(b.orders, b.nextOrderID)
  }

  /** A book that came back from persisted positions and orders, the order counter having stood at `counter`. */
  ghost predicate Restored(ps: seq<Position>, os: seq<Order>, counter: int, c: Book) {
    PositionsBack(ps, c.positions) && Clean(c) && (KeysBehind(os, counter) ==> OrdersBack(os, c)) &&
    c.nextOrderID >= counter && RecoveredFrom(Loaded(ps, os, counter), c)
  }

  /** A broker that came back with such a book. */
  ghost predicate Restarted(ps: seq<Position>, os: seq<Order>, counter: int, s: BrokerState) {
    Restored(ps, os, counter, s.book) && s.wallet.usedMargin == MarginSum(ps) &&
    (DistinctSymbols(ps) ==> s.wallet.usedMargin == Folds.SumBy(s.book.positions, MarginOf()))
  }

  /** The persisted account is in force again; without one the account is as it was. Margin comes from the positions. */
  predicate FundsBack(before: Wallet, after: Wallet, snapshot: Option<AccountSnapshot>) {
    if snapshot.None? then after == before.(usedMargin := after.usedMargin)
    else
      var a := snapshot.value;
      after == Wallet(a.balance, after.usedMargin, a.realizedPnL, a.totalFees, a.totalSlippage, a.dailyLoss)
  }

  /** The next position number is beyond every loaded one, and no farther than that or than it was. */
  predicate NumberedBeyond(ps: seq<Position>, before: int, after: int) {
    && before <= after && (forall i :: 0 <= i < |ps| ==> ps[i].id < after)
    && (after == before || after == 1 || exists i :: 0 <= i < |ps| && after == ps[i].id + 1)
  }

  /** All that a restart leaves besides the book: the persisted account and fresh position numbers. */
  ghost predicate AccountBack(
    before: BrokerState, after: BrokerState, ps: seq<Position>, snapshot: Option<AccountSnapshot>) {
    && after == before.(book := after.book, wallet := after.wallet, nextPositionID := after.nextPositionID)
    && FundsBack(before.wallet, after.wallet, snapshot)
    && NumberedBeyond(ps, before.nextPositionID, after.nextPositionID)
  }

  lemma AccountStaysBack(
    before: BrokerState, restored: BrokerState, after: BrokerState, ps: seq<Position>,
    snapshot: Option<AccountSnapshot>)
    requires AccountBack(before, restored, ps, snapshot) && after == restored.(book := after.book)
    ensures AccountBack(before, after, ps, snapshot)
  {
  }

  lemma NumberedFrom(ps: seq<Position>, next: int, before: int)
    requires NumberedBeyond(ps, 1, next)
    ensures NumberedBeyond(ps, before, if next > before then next else before)
  {
  }

  lemma NumberedSnoc(ps: seq<Position>, i: nat, next: int)
    requires i < |ps| && NumberedBeyond(ps[..i], 1, next)
    ensures NumberedBeyond(ps[..i + 1], 1, if ps[i].id >= next then ps[i].id + 1 else next)
  {
    var longer := ps[..i + 1];
    assert longer[i] == ps[i] && forall j :: 0 <= j < i ==> longer[j] == ps[..i][j];
    if j :| 0 <= j < i && next == ps[..i][j].id + 1 {
      assert next == longer[j].id + 1;
    }
  }

  /** What the loop over the persisted positions has gathered. */
  ghost predicate PositionsLoaded(ps: seq<Position>, loaded: map<string, Position>, margin: real, next: int) {
    && NumberedBeyond(ps, 1, next) && PositionsBack(ps, loaded) && margin == MarginSum(ps)
    && (DistinctSymbols(ps) ==> margin == Folds.SumBy(loaded, MarginOf())) && loaded == LoadedPositions(ps)
  }

  /** The first position number beyond those of the listed positions. */
  function NextPosition(ps: seq<Position>): int
    decreases |ps|
  {
    if ps == [] then 1
    else
      var p, next := ps[|ps| - 1], NextPosition(ps[..|ps| - 1]);
      if p.id >= next then p.id + 1 else next
  }

  lemma NextPositionSnoc(ps: seq<Position>, i: nat)
    requires i < |ps|
    ensures NextPosition(ps[..i + 1])
         == if ps[i].id >= NextPosition(ps[..i]) then ps[i].id + 1 else NextPosition(ps[..i])
  {
    assert ps[..i + 1][..i] == ps[..i];
  }

  lemma {:induction false} NumbersAreBeyond(ps: seq<Position>)
    ensures NumberedBeyond(ps, 1, NextPosition(ps))
    decreases |ps|
  {
    if ps != [] {
      var n := |ps| - 1;
      NumbersAreBeyond(ps[..n]);
      NumberedSnoc(ps, n, NextPosition(ps[..n]));
      assert ps[..n + 1] == ps;
    }
  }

  lemma {:induction false} LoadedAreBack(ps: seq<Position>)
    requires AllResumable(ps)
    ensures PositionsBack(ps, LoadedPositions(ps))
    decreases |ps|
  {
    if ps != [] {
      var n := |ps| - 1;
      LoadedAreBack(ps[..n]);
      PositionsBackSnoc(ps, n, LoadedPositions(ps[..n]));
      assert ps[..n + 1] == ps;
    }
  }

  lemma MarginIsSummed(ps: seq<Position>, n: nat, loaded: map<string, Position>)
    requires n == |ps| - 1 && MarginSum(ps[..n]) == Folds.SumBy(loaded, MarginOf()) && ps[n].symbol !in loaded
    ensures MarginSum(ps) == Folds.SumBy(loaded[ps[n].symbol := ps[n]], MarginOf())
  {
    assert ps[..n + 1] == ps;
    MarginSnoc(ps, n, loaded);
  }

  lemma {:induction false} MarginsAreSummed(ps: seq<Position>)
    requires AllResumable(ps) && DistinctSymbols(ps)
    ensures MarginSum(ps) == Folds.SumBy(LoadedPositions(ps), MarginOf())
    decreases |ps|
  {
    if ps != [] {
      var n := |ps| - 1;
      var loaded := LoadedPositions(ps[..n]);
      MarginsAreSummed(ps[..n]);
      LoadedAreBack(ps[..n]);
      NewSymbol(ps, n, loaded);
      MarginIsSummed(ps, n, loaded);
    }
  }

  /** The loop's totals are what the contract speaks of. */
  lemma TotalsAreLoaded(ps: seq<Position>)
    requires AllResumable(ps)
    ensures PositionsLoaded(ps, LoadedPositions(ps), MarginSum(ps), NextPosition(ps))
  {
    NumbersAreBeyond(ps);
    LoadedAreBack(ps);
    if DistinctSymbols(ps) {
      MarginsAreSummed(ps);
    }
  }

  /** The persisted keys of the broker's own form carry no number beyond the persisted order numbers or the counter. */
  ghost predicate KeysBehind(os: seq<Order>, next: int) {
    forall i :: 0 <= i < |os| && KeyOf(os[i]).Paper? ==>
      KeyOf(os[i]).n < next || exists j :: 0 <= j < |os| && KeyOf(os[i]).n <= os[j].id
  }

  lemma BehindIsSpent(os: seq<Order>, loaded: map<OrderKey, Order>, next: int, counter: int)
    requires OrdersResumed(os, loaded, next) && KeysBehind(os, counter)
    ensures KeysSpent(loaded, if next > counter then next else counter)
  {
  }

  lemma OrdersAreBack(os: seq<Order>, loaded: map<OrderKey, Order>, next: int, b: Book, c: Book)
    requires OrdersResumed(os, loaded, next) && b.orders == loaded && b.nextOrderID >= next
    requires OrdersKept(b, c) && forall sym :: sym in c.positions ==> HasOpenStop(c.orders, sym)
    ensures OrdersBack(os, c)
  {
  }

  lemma PositionsStayBack(ps: seq<Position>, b: Book, c: Book)
    requires PositionsBack(ps, b.positions) && Relinked(b, c)
    ensures PositionsBack(ps, c.positions)
  {
  }

  /** A position that is up for repair is still the persisted one up to its links. */
  lemma MendedPosition(b: Book, c: Book, symbol: string)
    requires Mended(b, c) && symbol in b.positions && b.positions[symbol].symbol == symbol &&
               Resumable(b.positions[symbol])
    ensures symbol in c.positions && c.positions[symbol].symbol == symbol && Resumable(c.positions[symbol])
  {
  }

  lemma MendedIsBack(os: seq<Order>, pending: map<OrderKey, Order>, next: int, counter: int, b: Book, c: Book)
    requires OrdersResumed(os, pending, next) && KeysBehind(os, counter)
    requires b.orders == pending && b.nextOrderID == if next > counter then next else counter
    requires Mended(b, c) && StopsBack(b, c, {})
    ensures OrdersBack(os, c)
  {
    BehindIsSpent(os, pending, next, counter);
    OrdersAreBack(os, pending, next, b, c);
  }

  lemma RepairedIsBack(ps: seq<Position>, os: seq<Order>, counter: int, c: Book)
    requires PositionsBack(ps, LoadedPositions(ps)) && OrdersResumed(os, LoadedOrders(os), NextNumber(os))
    requires Mended(Loaded(ps, os, counter), c) && StopsBack(Loaded(ps, os, counter), c, {})
    ensures PositionsBack(ps, c.positions) && Clean(c) && (KeysBehind(os, counter) ==> OrdersBack(os, c))
    ensures c.nextOrderID >= counter
  {
    var b := Loaded(ps, os, counter);
    PositionsStayBack(ps, b, c);
    if KeysBehind(os, counter) {
      MendedIsBack(os, b.orders, NextNumber(os), counter, b, c);
    }
  }

  lemma RepairedIsRestored(ps: seq<Position>, os: seq<Order>, counter: int, b: Book, c: Book)
    requires PositionsBack(ps, LoadedPositions(ps)) && OrdersResumed(os, LoadedOrders(os), NextNumber(os))
    requires b == Loaded(ps, os, counter) && Mended(b, c) && StopsBack(b, c, {}) && RecoveredFrom(b, c)
    ensures Restored(ps, os, counter, c)
  {
    RepairedIsBack(ps, os, counter, c);
  }
}
