/** When a simulated trade leaves, at which price, and what the account makes of it, in quotes, levels and costs. */
module TradeExits {
  import opened Domain
  import opened Rounding
  import opened SimulatorModel
  import Folds

  // ---------------------------------------------------------------- one trade

  /** The quote is at the trade's stop or beyond it. */
  predicate StoppedOut(t: Trade, quote: real) {
    if t.side == Long then quote <= t.stopLoss else t.stopLoss <= quote
  }

  /** The quote is at its target or beyond it. */
  predicate TargetMet(t: Trade, quote: real) {
    if t.side == Long then t.takeProfit <= quote else quote <= t.takeProfit
  }

  /** The stop comes first. */
  function LevelMet(t: Trade, quote: real): real {
    if StoppedOut(t, quote) then t.stopLoss else t.takeProfit
  }

  /** A level moved against the trade by the slippage: down for a long, which sells there, up for a short. */
  function PaidAt(side: Side, level: real, slip: real): real {
    if side == Long then level - level * slip else level + level * slip
  }

  /** The distance from the entry in the trade's favour, times the quantity. */
  function Distance(t: Trade, price: real): real {
    if t.side == Long then (price - t.entryPrice) * t.qty else (t.entryPrice - price) * t.qty
  }

  function FeeOn(qty: real, paid: real, rate: real): (fee: real)
    ensures fee >= 0.0
  {
    var fee := Round8(qty * paid * rate);
    if 0.0 < fee then fee else 0.0
  }

  /** What a trade earns at the price paid: the distance less the fee, each to eight decimals. */
  function Earned(cfg: SimConfig, t: Trade, paid: real): real {
    Round8(Round8(Distance(t, paid)) - FeeOn(t.qty, paid, cfg.feeTakerBps / 10000.0))
  }

  /** What leaving at a level earns. */
  function Gain(cfg: SimConfig, t: Trade, level: real): real {
    Earned(cfg, t, PaidAt(t.side, level, cfg.slippageBps / 10000.0))
  }

  lemma GrossIsDistance(t: Trade, paid: real)
    ensures GrossPnL(t, paid) == Round8(Distance(t, paid))
  {
  }

  lemma FeeIsCut(qty: real, paid: real, rate: real)
    ensures Fee8(qty, paid, rate) == FeeOn(qty, paid, rate)
  {
  }

  lemma EarnedIsNet(cfg: SimConfig, t: Trade, paid: real)
    ensures NetPnL(cfg, t, paid) == Earned(cfg, t, paid)
  {
    GrossIsDistance(t, paid);
    FeeIsCut(t.qty, paid, cfg.feeTakerBps / 10000.0);
  }

  lemma PaidIsAgainst(side: Side, level: real, slip: real)
    ensures Against(side, level, slip) == PaidAt(side, level, slip)
  {
  }

  /** A trade leaves exactly at a quote that meets one of its levels: at that level, moved by the slippage. */
  lemma LeavesAtItsLevel(cfg: SimConfig, t: Trade, quote: real)
    ensures ExitPrice(cfg, t, quote)
         == if StoppedOut(t, quote) || TargetMet(t, quote)
            then Some(PaidAt(t.side, LevelMet(t, quote), cfg.slippageBps / 10000.0)) else None
  {
    PaidIsAgainst(t.side, LevelMet(t, quote), cfg.slippageBps / 10000.0);
  }

  lemma RoundKeepsSign(x: real)
    ensures x <= 0.0 ==> Round8(x) <= 0.0
    ensures x >= 0.0 ==> Round8(x) >= 0.0
  {
  }

  lemma SignOfProduct(a: real, b: real)
    requires b >= 0.0
    ensures a <= 0.0 ==> a * b <= 0.0
    ensures a >= 0.0 ==> a * b >= 0.0
  {
  }

  /** The level is a price on the losing side of the entry, or on it. */
  predicate Losing(t: Trade, level: real) {
    0.0 <= level && if t.side == Long then level <= t.entryPrice else t.entryPrice <= level
  }

  lemma PaidIsNoBetter(side: Side, level: real, slip: real)
    requires 0.0 <= level && 0.0 <= slip
    ensures if side == Long then PaidAt(side, level, slip) <= level else level <= PaidAt(side, level, slip)
  {
    SignOfProduct(slip, level);
  }

  lemma DistanceIsNegative(t: Trade, paid: real)
    requires t.qty >= 0.0 && if t.side == Long then paid <= t.entryPrice else t.entryPrice <= paid
    ensures Distance(t, paid) <= 0.0
  {
    SignOfProduct(if t.side == Long then paid - t.entryPrice else t.entryPrice - paid, t.qty);
  }

  lemma LossIsNegative(distance: real, fee: real)
    requires distance <= 0.0 <= fee
    ensures Round8(Round8(distance) - fee) <= 0.0
  {
    RoundKeepsSign(distance);
    RoundKeepsSign(Round8(distance) - fee);
  }

  lemma EarnsNothing(cfg: SimConfig, t: Trade, paid: real)
    requires t.qty >= 0.0 && if t.side == Long then paid <= t.entryPrice else t.entryPrice <= paid
    ensures Earned(cfg, t, paid) <= 0.0
  {
    DistanceIsNegative(t, paid);
    LossIsNegative(Distance(t, paid), FeeOn(t.qty, paid, cfg.feeTakerBps / 10000.0));
  }

  /** Slippage and fee only make it worse: leaving at a level behind the entry never earns anything. */
  lemma StopNeverEarns(cfg: SimConfig, t: Trade, level: real)
    requires Losing(t, level) && t.qty >= 0.0 && cfg.slippageBps >= 0.0
    ensures Gain(cfg, t, level) <= 0.0
  {
    PaidIsNoBetter(t.side, level, cfg.slippageBps / 10000.0);
    EarnsNothing(cfg, t, PaidAt(t.side, level, cfg.slippageBps / 10000.0));
  }

  lemma CostlessPrice(side: Side, level: real, qty: real)
    ensures PaidAt(side, level, 0.0) == level && FeeOn(qty, level, 0.0) == 0.0
  {
    assert qty * level * 0.0 == 0.0;
    assert Round8(0.0) == 0.0;
  }

  /** So a trade of the session that is stopped out behind its entry counts as lost. */
  lemma StoppedOutIsLost(cfg: SimConfig, ts: map<nat, Trade>, id: nat, quotes: map<string, real>, start: int)
    requires id in ts && start <= ts[id].openedAt && ts[id].symbol in quotes && ts[id].qty >= 0.0
    requires StoppedOut(ts[id], quotes[ts[id].symbol]) && Losing(ts[id], ts[id].stopLoss) && cfg.slippageBps >= 0.0
    ensures id in Lost(cfg, ts, quotes, start)
  {
    StopNeverEarns(cfg, ts[id], ts[id].stopLoss);
  }

  /** Without costs a trade earns the distance to its level times its quantity, to eight decimals. */
  lemma CostlessGain(cfg: SimConfig, t: Trade, level: real)
    requires cfg.slippageBps == 0.0 && cfg.feeTakerBps == 0.0
    ensures Gain(cfg, t, level) == Round8(Distance(t, level))
  {
    CostlessPrice(t.side, level, t.qty);
    RoundedIsOnGrid(Distance(t, level));
    RoundIsIdentity(Round8(Distance(t, level)));
  }

  /** A fill is slipped the other way round, by five basis points when no slippage is set, and pays its fee. */
  lemma FillPaysMore(cfg: SimConfig, side: Side, qty: real, quote: real, paid: real)
    requires paid == FillPrice(cfg, side, quote)
    ensures var slip := (if cfg.slippageBps > 0.0 then cfg.slippageBps else 5.0) / 10000.0;
            paid == Round8(PaidAt(if side == Long then Short else Long, quote, slip))
    ensures TakerFee8(cfg, qty, paid) == FeeOn(qty, paid, cfg.feeTakerBps / 10000.0)
  {
    var slip := (if cfg.slippageBps > 0.0 then cfg.slippageBps else 5.0) / 10000.0;
    PaidIsAgainst(if side == Long then Short else Long, quote, slip);
    FeeIsCut(qty, paid, cfg.feeTakerBps / 10000.0);
  }

  // ---------------------------------------------------------------- a check of all open trades

  /** The trade's quote is usable and meets one of its levels. */
  predicate Leaves(t: Trade, quotes: map<string, real>) {
    t.symbol in quotes && 0.0 < quotes[t.symbol] &&
    (StoppedOut(t, quotes[t.symbol]) || TargetMet(t, quotes[t.symbol]))
  }

  function GainAt(cfg: SimConfig, quotes: map<string, real>): Trade -> real {
    (t: Trade) => if t.symbol in quotes then Gain(cfg, t, LevelMet(t, quotes[t.symbol])) else 0.0
  }

  /** Trades of the session among these, winning or not. */
  function Won(cfg: SimConfig, ts: map<nat, Trade>, quotes: map<string, real>, start: int): set<nat> {
    set id | id in ts && start <= ts[id].openedAt && 0.0 < GainAt(cfg, quotes)(ts[id])
  }

  function Lost(cfg: SimConfig, ts: map<nat, Trade>, quotes: map<string, real>, start: int): set<nat> {
    set id | id in ts && start <= ts[id].openedAt && !(0.0 < GainAt(cfg, quotes)(ts[id]))
  }

  /**
   Gains booked onto the account: exactly when a balance starts as a multiple of 0.00000001, each trade counted once,
   and no win leaves a streak longer than the losses.
   */
  predicate Moved(before: Account, after: Account, gains: real, won: nat, lost: nat) {
    && (OnGrid(before.equity) ==> after.equity == before.equity + gains && OnGrid(after.equity))
    && (OnGrid(before.realized) ==> after.realized == before.realized + gains && OnGrid(after.realized))
    && after.total == before.total && after.wins == before.wins + won && after.losses == before.losses + lost
    && if won == 0 then after.streak == before.streak + lost else 0 <= after.streak <= lost
  }

  /** What trades that leave at these quotes do to the account, in whatever order they are booked. */
  ghost predicate Booked(
    cfg: SimConfig, before: Account, after: Account, ts: map<nat, Trade>, quotes: map<string, real>, start: int)
  {
    Moved(before, after, Folds.SumBy(ts, GainAt(cfg, quotes)), |Won(cfg, ts, quotes, start)|,
          |Lost(cfg, ts, quotes, start)|)
  }

  lemma NothingBooked(cfg: SimConfig, a: Account, quotes: map<string, real>, start: int)
    ensures Booked(cfg, a, a, map[], quotes, start)
  {
    assert Won(cfg, map[], quotes, start) == {} && Lost(cfg, map[], quotes, start) == {};
  }

  lemma GainIsOnGrid(cfg: SimConfig, t: Trade, quotes: map<string, real>)
    ensures t.symbol in quotes ==> OnGrid(GainAt(cfg, quotes)(t))
  {
    if t.symbol in quotes {
      var paid := PaidAt(t.side, LevelMet(t, quotes[t.symbol]), cfg.slippageBps / 10000.0);
      RoundedIsOnGrid(Round8(Distance(t, paid)) - FeeOn(t.qty, paid, cfg.feeTakerBps / 10000.0));
    }
  }

  lemma OneMoreCounted(cfg: SimConfig, ts: map<nat, Trade>, t: Trade, quotes: map<string, real>, start: int)
    requires t.id !in ts
    ensures Won(cfg, ts[t.id := t], quotes, start)
         == Won(cfg, ts, quotes, start)
            + if start <= t.openedAt && 0.0 < GainAt(cfg, quotes)(t) then {t.id} else {}
    ensures Lost(cfg, ts[t.id := t], quotes, start)
         == Lost(cfg, ts, quotes, start)
            + if start <= t.openedAt && !(0.0 < GainAt(cfg, quotes)(t)) then {t.id} else {}
    ensures t.id !in Won(cfg, ts, quotes, start) && t.id !in Lost(cfg, ts, quotes, start)
  {
  }

  /** A balance on the grid takes an amount on the grid exactly. */
  lemma OneMorePaid(before: real, after: real, sum: real, gain: real)
    requires OnGrid(gain) && (OnGrid(before) ==> after == before + sum && OnGrid(after))
    ensures OnGrid(before) ==> Round8(after + gain) == before + (sum + gain) && OnGrid(Round8(after + gain))
  {
    BookingIsExact(after, gain);
    RoundedIsOnGrid(after + gain);
  }

  lemma OneMoreMoved(before: Account, after: Account, gains: real, won: nat, lost: nat, gain: real, session: bool)
    requires Moved(before, after, gains, won, lost) && OnGrid(gain)
    ensures Moved(before, RecordClose(after, gain, session), gains + gain,
                  won + if session && 0.0 < gain then 1 else 0, lost + if session && !(0.0 < gain) then 1 else 0)
  {
    OneMorePaid(before.equity, after.equity, gains, gain);
    OneMorePaid(before.realized, after.realized, gains, gain);
  }

  lemma OneMoreBooked(
    cfg: SimConfig, before: Account, after: Account, ts: map<nat, Trade>, t: Trade, quotes: map<string, real>,
    start: int)
    requires Booked(cfg, before, after, ts, quotes, start) && t.id !in ts && t.symbol in quotes
    ensures Booked(cfg, before, RecordClose(after, GainAt(cfg, quotes)(t), start <= t.openedAt), ts[t.id := t],
                   quotes, start)
  {
    var f := GainAt(cfg, quotes);
    Folds.SumPut(ts, f, t.id, t);
    Folds.SumDrop(ts, f, t.id);
    GainIsOnGrid(cfg, t, quotes);
    OneMoreCounted(cfg, ts, t, quotes, start);
    OneMoreMoved(before, after, Folds.SumBy(ts, f), |Won(cfg, ts, quotes, start)|, |Lost(cfg, ts, quotes, start)|, f(t),
                 start <= t.openedAt);
  }

  /** Among the first `n` listed trades, those that leave. */
  function Leaving(listing: seq<Trade>, n: nat, quotes: map<string, real>): map<nat, Trade>
    requires n <= |listing|
  {
    if n == 0 then map[]
    else
      var t, rest := listing[n - 1], Leaving(listing, n - 1, quotes);
      if Leaves(t, quotes) then rest[t.id := t] else rest
  }

  predicate Distinct(listing: seq<Trade>) {
    forall i, j :: 0 <= i < j < |listing| ==> listing[i].id != listing[j].id
  }

  lemma {:induction false} LeavingIs(listing: seq<Trade>, n: nat, quotes: map<string, real>)
    requires n <= |listing| && Distinct(listing)
    ensures forall id :: id in Leaving(listing, n, quotes) ==>
              exists i :: 0 <= i < n && listing[i].id == id && Leaving(listing, n, quotes)[id] == listing[i]
    ensures forall i :: 0 <= i < n ==> (listing[i].id in Leaving(listing, n, quotes) <==> Leaves(listing[i], quotes))
    decreases n
  {
    if n > 0 {
      LeavingIs(listing, n - 1, quotes);
    }
  }

  /** The trades a check closes. */
  function Departing(repo: map<nat, Trade>, quotes: map<string, real>): map<nat, Trade> {
    map id | id in repo && Leaves(repo[id], quotes) :: repo[id]
  }

  /** A full list brings up exactly these. */
  lemma AllLeaving(repo: map<nat, Trade>, listing: seq<Trade>, quotes: map<string, real>)
    requires Listing(repo, listing) && forall id :: id in repo ==> repo[id].id == id
    ensures Leaving(listing, |listing|, quotes) == Departing(repo, quotes)
  {
    LeavingIs(listing, |listing|, quotes);
    forall id | id in Departing(repo, quotes)
      ensures id in Leaving(listing, |listing|, quotes)
    {
      var i :| 0 <= i < |listing| && listing[i] == repo[id];
    }
  }

  /** The account once the first `n` listed trades have been looked at. */
  function Settled(
    cfg: SimConfig, a: Account, listing: seq<Trade>, n: nat, quotes: map<string, real>, start: int): Account
    requires n <= |listing|
  {
    if n == 0 then a
    else
      var t, b := listing[n - 1], Settled(cfg, a, listing, n - 1, quotes, start);
      if Leaves(t, quotes) then RecordClose(b, GainAt(cfg, quotes)(t), start <= t.openedAt) else b
  }

  lemma {:induction false} SettledIsBooked(
    cfg: SimConfig, a: Account, listing: seq<Trade>, n: nat, quotes: map<string, real>, start: int)
    requires n <= |listing| && Distinct(listing)
    ensures Booked(cfg, a, Settled(cfg, a, listing, n, quotes, start), Leaving(listing, n, quotes), quotes, start)
    decreases n
  {
    if n == 0 {
      NothingBooked(cfg, a, quotes, start);
    } else {
      SettledIsBooked(cfg, a, listing, n - 1, quotes, start);
      LeavingIs(listing, n - 1, quotes);
      if Leaves(listing[n - 1], quotes) {
        OneMoreBooked(cfg, a, Settled(cfg, a, listing, n - 1, quotes, start), Leaving(listing, n - 1, quotes),
                      listing[n - 1], quotes, start);
      }
    }
  }

  /** Seen from the check: it closes a trade that leaves, and books its gain. */
  lemma ClosesAtItsLevel(cfg: SimConfig, t: Trade, quotes: map<string, real>)
    ensures Leaves(t, quotes)
       <==> t.symbol in quotes && 0.0 < quotes[t.symbol] && ExitPrice(cfg, t, quotes[t.symbol]).Some?
    ensures Leaves(t, quotes) ==>
              NetPnL(cfg, t, ExitPrice(cfg, t, quotes[t.symbol]).value) == GainAt(cfg, quotes)(t)
  {
    if Leaves(t, quotes) {
      LeavesAtItsLevel(cfg, t, quotes[t.symbol]);
      EarnedIsNet(cfg, t, PaidAt(t.side, LevelMet(t, quotes[t.symbol]), cfg.slippageBps / 10000.0));
    }
  }
}
