/**
 The paper simulator as interleaved threads. A fill updates the account and, later, inserts its trade;
 a check takes the check lock, reads the open trades, and for each one it closes updates the account and,
 later, the repository. Any number of threads do either, in any order.
 */
module SimulatorModel {
  import opened Domain
  import opened Rounding

  datatype Trade = Trade(id: nat, symbol: string, side: Side, qty: real, entryPrice: real, stopLoss: real,
      takeProfit: real, openedAt: int)

  datatype SimConfig = SimConfig(slippageBps: real, feeTakerBps: real)

  datatype Account = Account(equity: real, realized: real, total: int, wins: int, losses: int, streak: int)

  // ---------------------------------------------------------------- one trade

  function FloorZero(x: real): real {
    if x < 0.0 then 0.0 else x
  }

  /** A price moved against a trade that leaves at it. */
  function Against(side: Side, level: real, slip: real): real {
    if side == Long then level * (1.0 - slip) else level * (1.0 + slip)
  }

  /** Where a trade leaves at this price, if it does: the stop is looked at first, and slippage is against the trade. */
  function ExitPrice(cfg: SimConfig, t: Trade, price: real): Option<real> {
    var slip := cfg.slippageBps / 10000.0;
    if t.side == Long then
      if price <= t.stopLoss then Some(Against(Long, t.stopLoss, slip))
      else if price >= t.takeProfit then Some(Against(Long, t.takeProfit, slip))
      else None
    else
      if price >= t.stopLoss then Some(Against(Short, t.stopLoss, slip))
      else if price <= t.takeProfit then Some(Against(Short, t.takeProfit, slip))
      else None
  }

  /** Slippage against the trade, five basis points when none is configured. */
  function FillPrice(cfg: SimConfig, side: Side, quote: real): real {
    var bps := if cfg.slippageBps <= 0.0 then 5.0 else cfg.slippageBps;
    Round8(Against(if side == Long then Short else Long, quote, bps / 10000.0))
  }

  lemma FeeIsOnGrid(cfg: SimConfig, qty: real, price: real)
    ensures OnGrid(TakerFee8(cfg, qty, price)) && TakerFee8(cfg, qty, price) >= 0.0
  {
    RoundedIsOnGrid(qty * price * (cfg.feeTakerBps / 10000.0));
    GridPoint(0);
  }

  function Fee8(qty: real, price: real, rate: real): real {
    FloorZero(Round8(qty * price * rate))
  }

  function TakerFee8(cfg: SimConfig, qty: real, price: real): real {
    Fee8(qty, price, cfg.feeTakerBps / 10000.0)
  }

  function GrossPnL(t: Trade, exit: real): real {
    Round8(if t.side == Long then (exit - t.entryPrice) * t.qty else (t.entryPrice - exit) * t.qty)
  }

  function NetPnL(cfg: SimConfig, t: Trade, exit: real): real {
    Round8(GrossPnL(t, exit) - TakerFee8(cfg, t.qty, exit))
  }

  function RecordFill(a: Account, fee: real): Account {
    a.(equity := Round8(a.equity - fee), total := a.total + 1)
  }

  /** A close always moves money; only a trade of this session moves the win and loss counters. */
  function RecordClose(a: Account, net: real, session: bool): Account {
    var b := a.(equity := Round8(a.equity + net), realized := Round8(a.realized + net));
    if !session then b
    else if net > 0.0 then b.(wins := a.wins + 1, streak := 0)
    else b.(losses := a.losses + 1, streak := a.streak + 1)
  }

  // ---------------------------------------------------------------- the threads

  datatype Pc =
    | Idle
    | Inserting(trade: Trade)
    | Locked
    | Sweeping(todo: seq<Trade>)
    | Recording(trade: Trade, todo: seq<Trade>)

  /** What really happened, in order; the last two are writes the repository refused. */
  datatype Event =
    | Filled(id: nat, fee: real)
    | Closed(id: nat, net: real, session: bool)
    | NotInserted(id: nat)
    | NotRecorded(id: nat, session: bool)

  type Thread = nat

  datatype Sim = Sim(
    account: Account,
    repo: map<nat, Trade>,
    lock: Option<Thread>,
    pcs: map<Thread, Pc>,
    initializedAt: int,
    log: seq<Event>)

  /** `LoseInsert` and `LoseRecord`: the repository write failed. */
  datatype Action =
    | BeginFill(t: Thread, trade: Trade, fee: real)
    | Insert(t: Thread)
    | LoseInsert(t: Thread)
    | Acquire(t: Thread)
    | ReadOpen(t: Thread, listing: seq<Trade>)
    | Skip(t: Thread)
    | Close(t: Thread, price: real)
    | Record(t: Thread)
    | LoseRecord(t: Thread)
    | Release(t: Thread)

  function At(s: Sim, t: Thread): Pc {
    if t in s.pcs then s.pcs[t] else Idle
  }

  /** Every trade the log mentions. */
  function Mentioned(log: seq<Event>): set<nat>
    decreases |log|
  {
    if log == [] then {} else Mentioned(log[..|log| - 1]) + {log[|log| - 1].id}
  }

  function FilledIds(log: seq<Event>): set<nat>
    decreases |log|
  {
    if log == [] then {}
    else FilledIds(log[..|log| - 1]) + if log[|log| - 1].Filled? then {log[|log| - 1].id} else {}
  }

  /** Trades counted as filled that the repository never got. */
  function Missing(log: seq<Event>): set<nat>
    decreases |log|
  {
    if log == [] then {}
    else Missing(log[..|log| - 1]) + if log[|log| - 1].NotInserted? then {log[|log| - 1].id} else {}
  }

  /** Closed trades, but for those whose latest close the repository did not record. */
  function Gone(log: seq<Event>): set<nat>
    decreases |log|
  {
    if log == [] then {}
    else
      var e, front := log[|log| - 1], Gone(log[..|log| - 1]);
      if e.Closed? then front + {e.id} else if e.NotRecorded? then front - {e.id} else front
  }

  predicate Listing(repo: map<nat, Trade>, listing: seq<Trade>) {
    (forall i :: 0 <= i < |listing| ==> listing[i].id in repo && repo[listing[i].id] == listing[i]) &&
    (forall i, j :: 0 <= i < j < |listing| ==> listing[i].id != listing[j].id) &&
    (forall id :: id in repo ==> repo[id] in listing)
  }

  /** An identifier no trade has carried yet. */
  predicate Unused(s: Sim, id: nat) {
    id !in s.repo && id !in Mentioned(s.log)
  }

  predicate OfSession(s: Sim, t: Trade) {
    !(t.openedAt < s.initializedAt)
  }

  function BookClose(s: Sim, t: Thread, trade: Trade, rest: seq<Trade>, net: real): Sim {
    s.(account := RecordClose(s.account, net, OfSession(s, trade)), pcs := s.pcs[t := Recording(trade, rest)],
       log := s.log + [Closed(trade.id, net, OfSession(s, trade))])
  }

  predicate Enabled(cfg: SimConfig, s: Sim, a: Action) {
    match a
    case BeginFill(t, trade, fee) => At(s, t) == Idle && Unused(s, trade.id) && OfSession(s, trade) && OnGrid(fee) &&
        fee >= 0.0
    case Insert(t) => At(s, t).Inserting?
    case LoseInsert(t) => At(s, t).Inserting?
    case Acquire(t) => At(s, t) == Idle && s.lock == None
    case ReadOpen(t, listing) => At(s, t) == Locked && Listing(s.repo, listing)
    case Skip(t) => At(s, t).Sweeping? && At(s, t).todo != []
    case Close(t, price) => At(s, t).Sweeping? && At(s, t).todo != [] && ExitPrice(cfg, At(s, t).todo[0], price).Some?
    case Record(t) => At(s, t).Recording?
    case LoseRecord(t) => At(s, t).Recording?
    case Release(t) => At(s, t).Sweeping? && At(s, t).todo == []
  }

  function Next(cfg: SimConfig, s: Sim, a: Action): Sim
    requires Enabled(cfg, s, a)
  {
    match a
    case BeginFill(t, trade, fee) =>
      s.(account := RecordFill(s.account, fee), pcs := s.pcs[t := Inserting(trade)],
          log := s.log + [Event.Filled(trade.id, fee)])
    case Insert(t) => s.(repo := s.repo[At(s, t).trade.id := At(s, t).trade], pcs := s.pcs[t := Idle])
    case LoseInsert(t) => s.(pcs := s.pcs[t := Idle], log := s.log + [NotInserted(At(s, t).trade.id)])
    case Acquire(t) => s.(lock := Some(t), pcs := s.pcs[t := Locked])
    case ReadOpen(t, listing) => s.(pcs := s.pcs[t := Sweeping(listing)])
    case Skip(t) => s.(pcs := s.pcs[t := Sweeping(At(s, t).todo[1..])])
    case Close(t, price) =>
      var trade := At(s, t).todo[0];
      BookClose(s, t, trade, At(s, t).todo[1..], NetPnL(cfg, trade, ExitPrice(cfg, trade, price).value))
    case Record(t) => s.(repo := s.repo - {At(s, t).trade.id}, pcs := s.pcs[t := Sweeping(At(s, t).todo)])
    case LoseRecord(t) =>
      var trade := At(s, t).trade;
      s.(pcs := s.pcs[t := Sweeping(At(s, t).todo)], log := s.log + [NotRecorded(trade.id, OfSession(s, trade))])
    case Release(t) => s.(lock := None, pcs := s.pcs[t := Idle])
  }

  predicate ValidRun(cfg: SimConfig, s: Sim, run: seq<Action>)
    decreases |run|
  {
    run == [] || (Enabled(cfg, s, run[0]) && ValidRun(cfg, Next(cfg, s, run[0]), run[1..]))
  }

  function Exec(cfg: SimConfig, s: Sim, run: seq<Action>): Sim
    requires ValidRun(cfg, s, run)
    decreases |run|
  {
    if run == [] then s else Exec(cfg, Next(cfg, s, run[0]), run[1..])
  }

  lemma {:induction false} ExecSnoc(cfg: SimConfig, s: Sim, run: seq<Action>, a: Action)
    requires ValidRun(cfg, s, run) && Enabled(cfg, Exec(cfg, s, run), a)
    ensures ValidRun(cfg, s, run + [a]) && Exec(cfg, s, run + [a]) == Next(cfg, Exec(cfg, s, run), a)
    decreases |run|
  {
    if run == [] {
      assert run + [a] == [a];
      assert [a][1..] == [];
    } else {
      assert (run + [a])[1..] == run[1..] + [a];
      ExecSnoc(cfg, Next(cfg, s, run[0]), run[1..], a);
    }
  }
}
