/** Rolling trade windows over a pruned list, against the complete history of trades. */
module TradeFlows {
  import opened Domain
  import Folds

  /** Instants and durations in nanoseconds. */
  const SECOND: int := 1000000000

  datatype PublicTrade = PublicTrade(symbol: string, size: real, side: string, timestamp: int)

  datatype Ratio = Unbounded | Of(value: real)

  datatype Window = Window(seconds: int, buyVolume: real, sellVolume: real, ratio: Ratio, count: nat)

  /** A window with the instant of the newest kept trade, `None` for the zero time. */
  datatype TradeFlow = TradeFlow(window: Window, lastUpdate: Option<int>, stale: bool)

  /** The longest duration; subtracting the zero time from any clock reading gives this. */
  const LONGEST: int := 0x7fff_ffff_ffff_ffff

  function Age(lastUpdate: Option<int>, now: int): int {
    if lastUpdate.None? then LONGEST else now - lastUpdate.value
  }

  function Newest(list: seq<PublicTrade>): Option<int> {
    if list == [] then None else Some(list[|list| - 1].timestamp)
  }

  // ---------------------------------------------------------------- the reference

  function BuyVolume(trades: seq<PublicTrade>, cutoff: int): real
    decreases |trades|
  {
    if trades == [] then 0.0
    else
      var t, rest := trades[|trades| - 1], BuyVolume(trades[..|trades| - 1], cutoff);
      if t.timestamp >= cutoff && t.side == "Buy" then rest + t.size else rest
  }

  function SellVolume(trades: seq<PublicTrade>, cutoff: int): real
    decreases |trades|
  {
    if trades == [] then 0.0
    else
      var t, rest := trades[|trades| - 1], SellVolume(trades[..|trades| - 1], cutoff);
      if t.timestamp >= cutoff && t.side != "Buy" then rest + t.size else rest
  }

  function Count(trades: seq<PublicTrade>, cutoff: int): nat
    decreases |trades|
  {
    if trades == [] then 0
    else Count(trades[..|trades| - 1], cutoff) + if trades[|trades| - 1].timestamp >= cutoff then 1 else 0
  }

  /** Buys against sells; without sells it is unbounded as soon as anything was bought. */
  function RatioOf(buy: real, sell: real): Ratio {
    if sell > 0.0 then Of(buy / sell) else if buy > 0.0 then Unbounded else Of(0.0)
  }

  /** A window of `seconds` up to `now`, over a list of trades. */
  function Summary(trades: seq<PublicTrade>, seconds: int, now: int): Window {
    var cutoff := now - seconds * SECOND;
    var buy, sell := BuyVolume(trades, cutoff), SellVolume(trades, cutoff);
    Window(seconds, buy, sell, RatioOf(buy, sell), Count(trades, cutoff))
  }

  /** The trades of the last `seconds`, by their places in the list. */
  ghost function InWindow(trades: seq<PublicTrade>, seconds: int, now: int): set<nat> {
    set i | 0 <= i < |trades| && now <= trades[i].timestamp + seconds * 1000000000
  }

  /** Of those the buys, or the others. */
  ghost function Picked(trades: seq<PublicTrade>, seconds: int, now: int, buys: bool): map<nat, PublicTrade> {
    map i | i in InWindow(trades, seconds, now) && (trades[i].side == "Buy") == buys :: trades[i]
  }

  function SizeOf(): PublicTrade -> real {
    (t: PublicTrade) => t.size
  }

  /** One more trade is picked exactly when it is in the window and on the side. */
  lemma PickedSnoc(trades: seq<PublicTrade>, seconds: int, now: int, buys: bool)
    requires trades != []
    ensures var n, t := |trades| - 1, trades[|trades| - 1];
            var before := Picked(trades[..n], seconds, now, buys);
            n !in before &&
            Picked(trades, seconds, now, buys)
            == if now - seconds * SECOND <= t.timestamp && (t.side == "Buy") == buys then before[n := t] else before
  {
  }

  /** A summary counts the trades of its window and adds up the sizes on either side. */
  lemma {:induction false} SummaryIsOfWindow(trades: seq<PublicTrade>, seconds: int, now: int)
    ensures var w := Summary(trades, seconds, now);
            && w.count == |InWindow(trades, seconds, now)|
            && w.buyVolume == Folds.SumBy(Picked(trades, seconds, now, true), SizeOf())
            && w.sellVolume == Folds.SumBy(Picked(trades, seconds, now, false), SizeOf())
    decreases |trades|
  {
    if trades == [] {
      assert InWindow(trades, seconds, now) == {};
      assert Picked(trades, seconds, now, true) == map[] && Picked(trades, seconds, now, false) == map[];
    } else {
      var n := |trades| - 1;
      SummaryIsOfWindow(trades[..n], seconds, now);
      CountedSnoc(trades, seconds, now);
      OneMorePicked(trades, seconds, now, true);
      OneMorePicked(trades, seconds, now, false);
    }
  }

  lemma CountedSnoc(trades: seq<PublicTrade>, seconds: int, now: int)
    requires trades != []
    ensures var n := |trades| - 1;
            |InWindow(trades, seconds, now)|
            == |InWindow(trades[..n], seconds, now)| + if now - seconds * SECOND <= trades[n].timestamp then 1 else 0
  {
    var n := |trades| - 1;
    assert InWindow(trades, seconds, now)
        == InWindow(trades[..n], seconds, now)
           + if now - seconds * SECOND <= trades[n].timestamp then {n} else {};
  }

  lemma OneMorePicked(trades: seq<PublicTrade>, seconds: int, now: int, buys: bool)
    requires trades != []
    ensures var n, t := |trades| - 1, trades[|trades| - 1];
            Folds.SumBy(Picked(trades, seconds, now, buys), SizeOf())
            == Folds.SumBy(Picked(trades[..n], seconds, now, buys), SizeOf())
               + if now - seconds * SECOND <= t.timestamp && (t.side == "Buy") == buys then t.size else 0.0
  {
    var n: nat, t := |trades| - 1, trades[|trades| - 1];
    var before := Picked(trades[..n], seconds, now, buys);
    PickedSnoc(trades, seconds, now, buys);
    Folds.SumPut(before, SizeOf(), n, t);
    Folds.SumDrop(before, SizeOf(), n);
  }

  /** The ratio times what was sold is what was bought; with nothing sold it is unbounded, or zero if nothing moved. */
  lemma RatioBalances(trades: seq<PublicTrade>, seconds: int, now: int)
    ensures var w := Summary(trades, seconds, now);
            if w.sellVolume > 0.0 then w.ratio.Of? && w.ratio.value * w.sellVolume == w.buyVolume
            else if w.buyVolume > 0.0 then w.ratio == Unbounded else w.ratio == Of(0.0)
  {
  }

  predicate AllBefore(trades: seq<PublicTrade>, cutoff: int) {
    forall i :: 0 <= i < |trades| ==> trades[i].timestamp < cutoff
  }

  /** Trades before the cutoff in front of a list contribute nothing. */
  lemma {:induction false} OldPrefixCountsNothing(stale: seq<PublicTrade>, list: seq<PublicTrade>, cutoff: int)
    requires AllBefore(stale, cutoff)
    ensures BuyVolume(stale + list, cutoff) == BuyVolume(list, cutoff)
    ensures SellVolume(stale + list, cutoff) == SellVolume(list, cutoff)
    ensures Count(stale + list, cutoff) == Count(list, cutoff)
    decreases |stale|, |list|
  {
    if list != [] {
      assert (stale + list)[..|stale + list| - 1] == stale + list[..|list| - 1];
      OldPrefixCountsNothing(stale, list[..|list| - 1], cutoff);
    } else if stale != [] {
      var shorter := stale[..|stale| - 1];
      assert stale + list == stale && shorter + list == shorter;
      OldPrefixCountsNothing(shorter, list, cutoff);
    }
  }

  lemma SumsSnoc(trades: seq<PublicTrade>, i: nat, cutoff: int)
    requires i < |trades|
    ensures var t := trades[i];
            BuyVolume(trades[..i + 1], cutoff)
                == BuyVolume(trades[..i], cutoff) + (if t.timestamp >= cutoff && t.side == "Buy" then t.size
                else 0.0) &&
            SellVolume(trades[..i + 1], cutoff)
                == SellVolume(trades[..i], cutoff) + (if t.timestamp >= cutoff && t.side != "Buy" then t.size
                else 0.0) &&
            Count(trades[..i + 1], cutoff) == Count(trades[..i], cutoff) + if t.timestamp >= cutoff then 1 else 0
  {
    assert trades[..i + 1][..i] == trades[..i];
  }

  /** A symbol's history is what was pruned, all of it before the cutoff, followed by what is kept. */
  predicate Covered(history: seq<PublicTrade>, pruned: seq<PublicTrade>, kept: seq<PublicTrade>, cutoff: int) {
    history == pruned + kept && AllBefore(pruned, cutoff)
  }

  lemma CoveredLater(
    history: seq<PublicTrade>, pruned: seq<PublicTrade>, kept: seq<PublicTrade>, before: int, cutoff: int)
    requires Covered(history, pruned, kept, before) && before <= cutoff
    ensures Covered(history, pruned, kept, cutoff)
  {
  }

  lemma CoveredPruned(
    history: seq<PublicTrade>, pruned: seq<PublicTrade>, kept: seq<PublicTrade>, t: PublicTrade, idx: nat,
    cutoff: int)
    requires Covered(history, pruned, kept, cutoff) && idx <= |kept| + 1 && AllBefore((kept + [t])[..idx], cutoff)
    ensures Covered(history + [t], pruned + (kept + [t])[..idx], (kept + [t])[idx..], cutoff)
  {
  }

  type Lists = map<string, seq<PublicTrade>>

  function ListOf(m: Lists, symbol: string): seq<PublicTrade> {
    if symbol in m then m[symbol] else []
  }

  ghost predicate AllCovered(history: Lists, pruned: Lists, kept: Lists, cutoff: int) {
    kept.Keys == history.Keys && pruned.Keys == history.Keys &&
    forall s :: s in history ==> Covered(history[s], pruned[s], kept[s], cutoff)
  }

  /** A trade added and `idx` old ones pruned leave every symbol's history covered. */
  lemma AddedCovers(
    history: Lists, pruned: Lists, kept: Lists, t: PublicTrade, idx: nat, before: int, cutoff: int)
    requires AllCovered(history, pruned, kept, before) && before <= cutoff
    requires idx <= |ListOf(kept, t.symbol)| + 1 && AllBefore((ListOf(kept, t.symbol) + [t])[..idx], cutoff)
    ensures var s, list := t.symbol, ListOf(kept, t.symbol) + [t];
            AllCovered(history[s := ListOf(history, s) + [t]], pruned[s := ListOf(pruned, s) + list[..idx]],
                       kept[s := list[idx..]], cutoff)
  {
    forall y | y in history
      ensures Covered(history[y], pruned[y], kept[y], cutoff)
    {
      CoveredLater(history[y], pruned[y], kept[y], before, cutoff);
    }
    CoveredPruned(ListOf(history, t.symbol), ListOf(pruned, t.symbol), ListOf(kept, t.symbol), t, idx, cutoff);
  }

  /** With a threshold no longer than the retention, pruning never hides a trade that is recent enough to count. */
  lemma StalenessSurvivesPruning(
    history: seq<PublicTrade>, pruned: seq<PublicTrade>, kept: seq<PublicTrade>, cutoff: int, now: int, threshold: int)
    requires Covered(history, pruned, kept, cutoff) && cutoff <= now - threshold && threshold < LONGEST
    ensures Age(Newest(kept), now) > threshold <==> Age(Newest(history), now) > threshold
  {
    if kept == [] {
      assert history == pruned;
    } else {
      assert history[|history| - 1] == kept[|kept| - 1];
    }
  }

  // ---------------------------------------------------------------- the store

  class TradeFlowStore {
    const windows: seq<int>
    const maxWindow: int
    const staleThreshold: int
    var trades: Lists
    /** Pruned trades and the complete history, symbol by symbol, and the latest clock reading. */
    ghost var pruned: Lists
    ghost var history: Lists
    ghost var clock: int

    ghost predicate Valid()
      reads this
    {
      (forall i :: 0 <= i < |windows| ==> windows[i] * SECOND <= maxWindow) &&
      AllCovered(history, pruned, trades, clock - maxWindow)
    }

    ghost function HistoryOf(symbol: string): seq<PublicTrade>
      reads this
    {
      ListOf(history, symbol)
    }

    constructor (windows: seq<int>, staleThreshold: int, now: int)
      ensures Valid() && history == map[] && clock == now
      ensures this.windows == windows && this.staleThreshold == staleThreshold
    {
      var maxSec := 0;
      for i := 0 to |windows|
        invariant maxSec >= 0 && forall j :: 0 <= j < i ==> windows[j] <= maxSec
      {
        if windows[i] > maxSec {
          maxSec := windows[i];
        }
      }
      this.windows, this.staleThreshold := windows, staleThreshold;
      maxWindow := maxSec * SECOND;
      trades := map[];
      pruned, history, clock := map[], map[], now;
    }

    /** The list from its first trade that is not before the cutoff; later stale trades stay. */
    static method Prune(list: seq<PublicTrade>, cutoff: int) returns (idx: nat)
      ensures idx <= |list| && AllBefore(list[..idx], cutoff)
      ensures idx < |list| ==> list[idx].timestamp >= cutoff
    {
      idx := 0;
      while idx < |list|
        invariant idx <= |list| && AllBefore(list[..idx], cutoff)
      {
        if list[idx].timestamp >= cutoff {
          return;
        }
        idx := idx + 1;
      }
    }

    method Add(trade: PublicTrade, now: int)
      requires Valid() && now >= clock
      modifies this
      ensures Valid() && clock == now
      ensures history == old(history)[trade.symbol := old(HistoryOf(trade.symbol)) + [trade]]
    {
      var s := trade.symbol;
      var before := if s in trades then trades[s] else [];
      var list := before + [trade];
      var cutoff := now - maxWindow;
      var idx := Prune(list, cutoff);
      AddedCovers(history, pruned, trades, trade, idx, clock - maxWindow, cutoff);
      history := history[s := HistoryOf(s) + [trade]];
      pruned := pruned[s := ListOf(pruned, s) + list[..idx]];
      trades := trades[s := list[idx..]];
      clock := now;
    }

    /**
      * Every configured window reports what the complete history would have given, and with a threshold no longer than
      * the retention so does the staleness.
      */
    method Flow(symbol: string, now: int) returns (flows: seq<TradeFlow>)
      requires Valid() && now >= clock
      ensures |flows| == |windows|
      ensures forall i :: 0 <= i < |windows| ==> flows[i].window == Summary(HistoryOf(symbol), windows[i], now)
      ensures staleThreshold <= maxWindow && staleThreshold < LONGEST ==>
                forall i :: 0 <= i < |windows| ==>
                    (flows[i].stale <==>
                       HistoryOf(symbol) == [] ||
                       now - HistoryOf(symbol)[|HistoryOf(symbol)| - 1].timestamp > staleThreshold)
      ensures forall i :: 0 <= i < |windows| ==>
                flows[i].lastUpdate == Newest(HistoryOf(symbol)) ||
                (flows[i].lastUpdate.None? && AllBefore(HistoryOf(symbol), now - maxWindow))
    {
      var list := if symbol in trades then trades[symbol] else [];
      ghost var gone := if symbol in pruned then pruned[symbol] else [];
      var lastUpdate := if |list| > 0 then Some(list[|list| - 1].timestamp) else None;
      var stale := Age(lastUpdate, now) > staleThreshold;
      assert HistoryOf(symbol) == gone + list && AllBefore(gone, now - maxWindow);
      if staleThreshold <= maxWindow && staleThreshold < LONGEST {
        StalenessSurvivesPruning(HistoryOf(symbol), gone, list, now - maxWindow, now, staleThreshold);
      }
      flows := Report(list, lastUpdate, stale, now, gone);
    }

    method Report(list: seq<PublicTrade>, lastUpdate: Option<int>, stale: bool, now: int, ghost gone: seq<PublicTrade>)
      returns (flows: seq<TradeFlow>)
      requires AllBefore(gone, now - maxWindow)
      requires forall i :: 0 <= i < |windows| ==> windows[i] * SECOND <= maxWindow
      ensures |flows| == |windows|
      ensures forall i :: 0 <= i < |windows| ==>
                flows[i] == TradeFlow(Summary(gone + list, windows[i], now), lastUpdate, stale)
    {
      flows := [];
      for i := 0 to |windows|
        invariant |flows| == i
        invariant forall j :: 0 <= j < i ==>
                    flows[j] == TradeFlow(Summary(gone + list, windows[j], now), lastUpdate, stale)
      {
        var w := SumWindow(list, windows[i], now);
        OldPrefixCountsNothing(gone, list, now - windows[i] * SECOND);
        flows := flows + [TradeFlow(w, lastUpdate, stale)];
      }
    }

    static method SumWindow(list: seq<PublicTrade>, seconds: int, now: int) returns (w: Window)
      ensures w == Summary(list, seconds, now)
    {
      var cutoff := now - seconds * SECOND;
      var buyVol, sellVol, count: nat := 0.0, 0.0, 0;
      for i := 0 to |list|
        invariant buyVol == BuyVolume(list[..i], cutoff) && sellVol == SellVolume(list[..i], cutoff) &&
                    count == Count(list[..i], cutoff)
      {
        SumsSnoc(list, i, cutoff);
        if list[i].timestamp < cutoff {
          continue;
        }
        if list[i].side == "Buy" {
          buyVol := buyVol + list[i].size;
        } else {
          sellVol := sellVol + list[i].size;
        }
        count := count + 1;
      }
      assert list[..|list|] == list;
      w := Window(seconds, buyVol, sellVol, if sellVol > 0.0 then Of(buyVol / sellVol) else if buyVol > 0.0
          then Unbounded else Of(0.0), count);
    }
  }
}
