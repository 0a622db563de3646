/** The simulator as one thread runs it: each call is a valid run of the interleaved machine. */
module Simulators {
  import opened Numbers
  import opened Domain
  import opened Rounding
  import opened FillLevels
  import opened SimulatorModel
  import opened TradeExits

  /** The thread the methods below run on. */
  const ME: Thread := 0

  predicate Usable(quote: Option<real>) {
    quote.Some? && quote.value > 0.0
  }

  /** What the repository holds once it was asked to insert a trade. */
  function Storing(repo: map<nat, Trade>, t: Trade, stored: bool): map<nat, Trade> {
    if stored then repo[t.id := t] else repo
  }

  /** What a fill and a close add to the log; a write that fails is an entry of its own. */
  ghost function FillEvents(t: Trade, fee: real, stored: bool): seq<Event> {
    [Event.Filled(t.id, fee)] + if stored then [] else [NotInserted(t.id)]
  }

  ghost function CloseEvents(t: Trade, net: real, session: bool, recorded: bool): seq<Event> {
    [Closed(t.id, net, session)] + if recorded then [] else [NotRecorded(t.id, session)]
  }

  /** The step in which this thread's close reaches the repository, or does not. */
  function Writing(recorded: bool): Action {
    if recorded then Record(ME) else LoseRecord(ME)
  }

  class Simulator {
    const cfg: SimConfig
    const initializedAt: int
    var currentEquity: real
    var realizedPnL: real
    var totalTrades: int
    var wins: int
    var losses: int
    var consecutiveLosses: int
    var openTrades: map<nat, Trade>
    ghost var log: seq<Event>

    ghost function Ledger(): Account
      reads this
    {
      Account(currentEquity, realizedPnL, totalTrades, wins, losses, consecutiveLosses)
    }

    /** At rest: the lock is free and this thread is idle. */
    ghost function Snapshot(): Sim
      reads this
    {
      Sim(Ledger(), openTrades, None, map[ME := Idle], initializedAt, log)
    }

    /** Start from a persisted account; a starting equity of zero or less means there was none. */
    constructor (
      cfg: SimConfig, startingBalance: real, startingEquity: real, loaded: Account, open: map<nat, Trade>,
      now: int)
      ensures this.cfg == cfg && initializedAt == now && openTrades == open && log == []
      ensures Ledger() == if startingEquity <= 0.0 then loaded.(equity := startingBalance) else loaded
    {
      this.cfg, initializedAt, openTrades, log := cfg, now, open, [];
      currentEquity := if startingEquity <= 0.0 then startingBalance else loaded.equity;
      realizedPnL, totalTrades, wins, losses, consecutiveLosses := loaded.realized, loaded.total, loaded.wins,
          loaded.losses, loaded.streak;
    }

    /** The levels of a fill, worked out as the plan and the price paid come. */
    static method PlaceLevels(plan: FillPlan, price: real) returns (sl: real, tp: real)
      ensures sl == StopLevel(plan, price) && tp == TargetLevel(plan, price)
    {
      tp := 0.0;
      if plan.takeProfits != [] {
        tp := plan.takeProfits[0];
      }
      if tp <= 0.0 && plan.stopLoss > 0.0 {
        var risk := Abs(plan.entryPrice - plan.stopLoss);
        tp := if plan.side.Long? then plan.entryPrice + risk * 2.0 else plan.entryPrice - risk * 2.0;
      }
      sl := plan.stopLoss;
      if plan.entryPrice > 0.0 && plan.stopLoss > 0.0 && tp > 0.0 {
        var slippagePct := Abs(price - plan.entryPrice) / plan.entryPrice;
        if slippagePct > 0.005 {
          var riskDist, tpDist := Abs(plan.entryPrice - plan.stopLoss), Abs(tp - plan.entryPrice);
          if plan.side.Long? {
            sl, tp := Round8(price - riskDist), Round8(price + tpDist);
          } else {
            sl, tp := Round8(price + riskDist), Round8(price - tpDist);
          }
        }
      }
    }

    /**
     Filling at the quoted price with slippage against the trade; no usable quote means no fill. When the repository
     does not store the trade, its fee is paid and it is counted all the same.
     */
    method SimulateFill(id: nat, plan: FillPlan, quote: Option<real>, now: int, stored: bool)
      returns (trade: Option<Trade>, ghost run: seq<Action>)
      requires Unused(Snapshot(), id) && initializedAt <= now
      modifies this
      ensures trade.Some? <==> Usable(quote) && stored
      ensures ValidRun(cfg, old(Snapshot()), run) && Snapshot() == Exec(cfg, old(Snapshot()), run)
      ensures !Usable(quote) ==> Snapshot() == old(Snapshot())
      ensures Usable(quote) ==>
                var price := FillPrice(cfg, plan.side, quote.value);
                var t := Trade(id, plan.symbol, plan.side, plan.qty, price, StopLevel(plan, price),
                               TargetLevel(plan, price), now);
                Ledger() == RecordFill(old(Ledger()), TakerFee8(cfg, plan.qty, price)) &&
                (stored ==> trade == Some(t)) && openTrades == Storing(old(openTrades), t, stored) &&
                log == old(log) + FillEvents(t, TakerFee8(cfg, plan.qty, price), stored)
    {
      if !Usable(quote) {
        return None, [];
      }
      var price := FillPrice(cfg, plan.side, quote.value);
      var fee := TakerFee8(cfg, plan.qty, price);
      FeeIsOnGrid(cfg, plan.qty, price);
      var sl, tp := PlaceLevels(plan, price);
      var t := Trade(id, plan.symbol, plan.side, plan.qty, price, sl, tp, now);
      run := OpenTrade(t, fee, stored);
      trade := if stored then Some(t) else None;
    }

    method OpenTrade(t: Trade, fee: real, stored: bool) returns (ghost run: seq<Action>)
      requires Unused(Snapshot(), t.id) && initializedAt <= t.openedAt && OnGrid(fee) && fee >= 0.0
      modifies this
      ensures ValidRun(cfg, old(Snapshot()), run) && Snapshot() == Exec(cfg, old(Snapshot()), run)
      ensures Ledger() == RecordFill(old(Ledger()), fee)
      ensures openTrades == Storing(old(openTrades), t, stored) && log == old(log) + FillEvents(t, fee, stored)
    {
      run := FillRun(Snapshot(), t, fee, stored);
      currentEquity := Round8(currentEquity - fee);
      totalTrades := totalTrades + 1;
      log := log + FillEvents(t, fee, stored);
      if stored {
        openTrades := openTrades[t.id := t];
      }
    }

    ghost method FillRun(s0: Sim, t: Trade, fee: real, stored: bool) returns (run: seq<Action>)
      requires s0.pcs == map[ME := Idle] && Enabled(cfg, s0, BeginFill(ME, t, fee))
      ensures ValidRun(cfg, s0, run)
      ensures Exec(cfg, s0, run) == s0.(account := RecordFill(s0.account, fee), repo := Storing(s0.repo, t, stored),
                log := s0.log + FillEvents(t, fee, stored))
    {
      var s1, s2: Sim;
      s1, run := Extend(s0, s0, [], BeginFill(ME, t, fee));
      s2, run := Extend(s0, s1, run, if stored then Insert(ME) else LoseInsert(ME));
      assert s2.pcs == s0.pcs;
    }

    method GetOpen() returns (listing: seq<Trade>)
      requires forall id :: id in openTrades ==> openTrades[id].id == id
      ensures Listing(openTrades, listing)
    {
      listing := [];
      var todo := openTrades.Keys;
      while todo != {}
        invariant todo <= openTrades.Keys
        invariant forall i :: 0 <= i < |listing| ==>
                    listing[i].id in openTrades && listing[i].id !in todo && openTrades[listing[i].id] == listing[i]
        invariant forall i, j :: 0 <= i < j < |listing| ==> listing[i].id != listing[j].id
        invariant forall id :: id in openTrades ==> id in todo || openTrades[id] in listing
        decreases |todo|
      {
        var id :| id in todo;
        todo := todo - {id};
        listing := listing + [openTrades[id]];
      }
    }

    method CloseTrade(trade: Trade, exitPrice: real, recorded: bool)
      modifies this
      ensures Ledger() == RecordClose(old(Ledger()), NetPnL(cfg, trade, exitPrice), OfSession(old(Snapshot()), trade))
      ensures openTrades == if recorded then old(openTrades) - {trade.id} else old(openTrades)
      ensures log == old(log) + CloseEvents(trade, NetPnL(cfg, trade, exitPrice), OfSession(old(Snapshot()), trade),
                                            recorded)
    {
      var pnlGross := GrossPnL(trade, exitPrice);
      var exitFee := TakerFee8(cfg, trade.qty, exitPrice);
      var pnlNet := Round8(pnlGross - exitFee);
      SettleClose(trade, pnlNet, recorded);
    }

    method SettleClose(trade: Trade, pnlNet: real, recorded: bool)
      modifies this
      ensures Ledger() == RecordClose(old(Ledger()), pnlNet, OfSession(old(Snapshot()), trade))
      ensures openTrades == if recorded then old(openTrades) - {trade.id} else old(openTrades)
      ensures log == old(log) + CloseEvents(trade, pnlNet, OfSession(old(Snapshot()), trade), recorded)
    {
      var isRehydrated := trade.openedAt < initializedAt;
      currentEquity := Round8(currentEquity + pnlNet);
      realizedPnL := Round8(realizedPnL + pnlNet);
      if !isRehydrated {
        if pnlNet > 0.0 {
          wins := wins + 1;
          consecutiveLosses := 0;
        } else {
          losses := losses + 1;
          consecutiveLosses := consecutiveLosses + 1;
        }
      }
      log := log + CloseEvents(trade, pnlNet, !isRehydrated, recorded);
      if recorded {
        openTrades := openTrades - {trade.id};
      }
    }

    /** The machine state in the middle of a check that still has `todo` to look at. */
    ghost function Checking(todo: seq<Trade>): Sim
      reads this
    {
      Sim(Ledger(), openTrades, Some(ME), map[ME := Sweeping(todo)], initializedAt, log)
    }

    method CheckTrade(
      trade: Trade, prices: map<string, real>, failing: set<nat>, ghost s0: Sim, ghost run: seq<Action>,
      ghost rest: seq<Trade>)
      returns (ghost longer: seq<Action>)
      requires ValidRun(cfg, s0, run) && Exec(cfg, s0, run) == Checking([trade] + rest)
      modifies this
      ensures ValidRun(cfg, s0, longer) && Exec(cfg, s0, longer) == Checking(rest)
      ensures openTrades == if Leaves(trade, prices) && trade.id !in failing then old(openTrades) - {trade.id}
                            else old(openTrades)
      ensures Ledger() == if Leaves(trade, prices)
                          then RecordClose(old(Ledger()), GainAt(cfg, prices)(trade), initializedAt <= trade.openedAt)
                          else old(Ledger())
    {
      assert ([trade] + rest)[1..] == rest;
      ClosesAtItsLevel(cfg, trade, prices);
      if trade.symbol in prices && prices[trade.symbol] > 0.0 {
        var exit := ExitPrice(cfg, trade, prices[trade.symbol]);
        if exit.Some? {
          longer := CloseAndRecord(trade, prices[trade.symbol], exit.value, trade.id !in failing, s0, run, rest);
          return;
        }
      }
      ghost var m: Sim;
      m, longer := Extend(s0, Checking([trade] + rest), run, Skip(ME));
    }

    method CloseAndRecord(
      trade: Trade, ghost price: real, exit: real, recorded: bool, ghost s0: Sim, ghost run: seq<Action>,
      ghost rest: seq<Trade>)
      returns (ghost longer: seq<Action>)
      requires ValidRun(cfg, s0, run) && Exec(cfg, s0, run) == Checking([trade] + rest)
      requires ExitPrice(cfg, trade, price) == Some(exit)
      modifies this
      ensures ValidRun(cfg, s0, longer) && Exec(cfg, s0, longer) == Checking(rest)
      ensures openTrades == if recorded then old(openTrades) - {trade.id} else old(openTrades)
      ensures Ledger() == RecordClose(old(Ledger()), NetPnL(cfg, trade, exit), initializedAt <= trade.openedAt)
    {
      ghost var before := Checking([trade] + rest);
      ClosingSteps(before, trade, rest, price, exit, recorded);
      ghost var closing, closed: Sim;
      closing, longer := Extend(s0, before, run, Close(ME, price));
      closed, longer := Extend(s0, closing, longer, Writing(recorded));
      CloseTrade(trade, exit, recorded);
    }

    /** The two steps in which a check closes the trade it looks at. */
    lemma ClosingSteps(s: Sim, trade: Trade, rest: seq<Trade>, price: real, exit: real, recorded: bool)
      requires s.pcs == map[ME := Sweeping([trade] + rest)] && ExitPrice(cfg, trade, price) == Some(exit)
      ensures Enabled(cfg, s, Close(ME, price)) && Enabled(cfg, Next(cfg, s, Close(ME, price)), Writing(recorded))
      ensures var net, session := NetPnL(cfg, trade, exit), OfSession(s, trade);
              Next(cfg, Next(cfg, s, Close(ME, price)), Writing(recorded)) ==
              Sim(RecordClose(s.account, net, session), if recorded then s.repo - {trade.id} else s.repo, s.lock,
                  map[ME := Sweeping(rest)], s.initializedAt, s.log + CloseEvents(trade, net, session, recorded))
    {
      assert ([trade] + rest)[1..] == rest;
    }

    /**
     One check of all open trades: exactly those whose level is reached are closed, and those of them whose update the
     repository refuses stay open.
     */
    method CheckOpenPositions(prices: map<string, real>, failing: set<nat>) returns (ghost run: seq<Action>)
      requires forall id :: id in openTrades ==> openTrades[id].id == id
      modifies this
      ensures ValidRun(cfg, old(Snapshot()), run) && Snapshot() == Exec(cfg, old(Snapshot()), run)
      ensures openTrades == old(openTrades) - (Departing(old(openTrades), prices).Keys - failing)
      ensures Booked(cfg, old(Ledger()), Ledger(), Departing(old(openTrades), prices), prices, initializedAt)
    {
      ghost var s0 := Snapshot();
      var listing := GetOpen();
      run := Enter(s0, listing);
      run := CheckAll(listing, prices, failing, s0, run);
      run := Leave(s0, Checking([]), run);
    }

    /** Take the check lock and read the open trades. */
    ghost method Enter(s0: Sim, listing: seq<Trade>) returns (run: seq<Action>)
      requires s0.pcs == map[ME := Idle] && s0.lock == None && Listing(s0.repo, listing)
      ensures ValidRun(cfg, s0, run)
      ensures Exec(cfg, s0, run) == s0.(lock := Some(ME), pcs := map[ME := Sweeping(listing)])
    {
      var locked, reading: Sim;
      locked, run := Extend(s0, s0, [], Acquire(ME));
      reading, run := Extend(s0, locked, run, ReadOpen(ME, listing));
    }

    /** Let the check lock go. */
    ghost method Leave(s0: Sim, m: Sim, run: seq<Action>) returns (longer: seq<Action>)
      requires ValidRun(cfg, s0, run) && Exec(cfg, s0, run) == m && m.pcs == map[ME := Sweeping([])]
      ensures ValidRun(cfg, s0, longer)
      ensures Exec(cfg, s0, longer) == m.(lock := None, pcs := map[ME := Idle])
    {
      var done: Sim;
      done, longer := Extend(s0, m, run, Release(ME));
    }

    method CheckAll(
      listing: seq<Trade>, prices: map<string, real>, failing: set<nat>, ghost s0: Sim, ghost run: seq<Action>)
      returns (ghost longer: seq<Action>)
      requires Listing(openTrades, listing) && forall id :: id in openTrades ==> openTrades[id].id == id
      requires ValidRun(cfg, s0, run) && Exec(cfg, s0, run) == Checking(listing)
      modifies this
      ensures ValidRun(cfg, s0, longer) && Exec(cfg, s0, longer) == Checking([])
      ensures openTrades == old(openTrades) - (Departing(old(openTrades), prices).Keys - failing)
      ensures Booked(cfg, old(Ledger()), Ledger(), Departing(old(openTrades), prices), prices, initializedAt)
    {
      AllLeaving(openTrades, listing, prices);
      SettledIsBooked(cfg, Ledger(), listing, |listing|, prices, initializedAt);
      longer := CheckEach(listing, prices, failing, s0, run);
    }

    method CheckEach(
      listing: seq<Trade>, prices: map<string, real>, failing: set<nat>, ghost s0: Sim, ghost run: seq<Action>)
      returns (ghost longer: seq<Action>)
      requires ValidRun(cfg, s0, run) && Exec(cfg, s0, run) == Checking(listing)
      modifies this
      ensures ValidRun(cfg, s0, longer) && Exec(cfg, s0, longer) == Checking([])
      ensures openTrades == old(openTrades) - (Leaving(listing, |listing|, prices).Keys - failing)
      ensures Ledger() == Settled(cfg, old(Ledger()), listing, |listing|, prices, initializedAt)
    {
      longer := run;
      assert listing[0..] == listing;
      for i := 0 to |listing|
        invariant ValidRun(cfg, s0, longer) && Exec(cfg, s0, longer) == Checking(listing[i..])
        invariant openTrades == old(openTrades) - (Leaving(listing, i, prices).Keys - failing)
        invariant Ledger() == Settled(cfg, old(Ledger()), listing, i, prices, initializedAt)
      {
        longer := CheckNext(listing, i, prices, failing, s0, longer, old(Ledger()), old(openTrades));
      }
      assert listing[|listing|..] == [];
    }

    method CheckNext(
      listing: seq<Trade>, i: nat, prices: map<string, real>, failing: set<nat>, ghost s0: Sim, ghost run: seq<Action>,
      ghost before: Account, ghost was: map<nat, Trade>)
      returns (ghost longer: seq<Action>)
      requires i < |listing| && ValidRun(cfg, s0, run) && Exec(cfg, s0, run) == Checking(listing[i..])
      requires openTrades == was - (Leaving(listing, i, prices).Keys - failing)
      requires Ledger() == Settled(cfg, before, listing, i, prices, initializedAt)
      modifies this
      ensures ValidRun(cfg, s0, longer) && Exec(cfg, s0, longer) == Checking(listing[i + 1..])
      ensures openTrades == was - (Leaving(listing, i + 1, prices).Keys - failing)
      ensures Ledger() == Settled(cfg, before, listing, i + 1, prices, initializedAt)
    {
      assert listing[i..] == [listing[i]] + listing[i + 1..];
      longer := CheckTrade(listing[i], prices, failing, s0, run, listing[i + 1..]);
    }

    ghost method Extend(s0: Sim, m: Sim, run: seq<Action>, a: Action) returns (n: Sim, longer: seq<Action>)
      requires ValidRun(cfg, s0, run) && Exec(cfg, s0, run) == m && Enabled(cfg, m, a)
      ensures ValidRun(cfg, s0, longer) && Exec(cfg, s0, longer) == n && n == Next(cfg, m, a)
    {
      ExecSnoc(cfg, s0, run, a);
      n, longer := Next(cfg, m, a), run + [a];
    }
  }
}
