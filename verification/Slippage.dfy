/** Walking the book to fill a target notional. */
module Slippages {
  import opened Numbers
  import opened OrderBooks

  // ---------------------------------------------------------------- sorted levels

  /** `ascending` for asks, descending for bids. */
  predicate Before(p: real, q: real, ascending: bool) {
    if ascending then p < q else p > q
  }

  predicate Sorted(levels: seq<Level>, ascending: bool) {
    forall i, j :: 0 <= i < j < |levels| ==> Before(levels[i].price, levels[j].price, ascending)
  }

  predicate Positive(levels: seq<Level>) {
    forall i :: 0 <= i < |levels| ==> levels[i].price > 0.0 && levels[i].size > 0.0
  }

  /** The levels are the entries of the side, one each. */
  ghost predicate Lists(levels: seq<Level>, side: map<real, real>) {
    (forall i :: 0 <= i < |levels| ==> levels[i].price in side && side[levels[i].price] == levels[i].size) &&
    (forall p :: p in side ==> Level(p, side[p]) in levels)
  }

  function Insert(levels: seq<Level>, l: Level, ascending: bool): seq<Level>
    decreases |levels|
  {
    if levels == [] then [l]
    else if Before(l.price, levels[0].price, ascending) then [l] + levels
    else [levels[0]] + Insert(levels[1..], l, ascending)
  }

  lemma {:induction false} InsertSorted(levels: seq<Level>, l: Level, ascending: bool)
    requires Sorted(levels, ascending) && forall i :: 0 <= i < |levels| ==> levels[i].price != l.price
    ensures Sorted(Insert(levels, l, ascending), ascending)
    ensures forall x :: x in Insert(levels, l, ascending) <==> x == l || x in levels
    decreases |levels|
  {
    if levels != [] && !Before(l.price, levels[0].price, ascending) {
      InsertSorted(levels[1..], l, ascending);
      var rest := Insert(levels[1..], l, ascending);
      assert forall x :: x in levels <==> x == levels[0] || x in levels[1..];
      forall j | 0 <= j < |rest|
        ensures Before(levels[0].price, rest[j].price, ascending)
      {
        assert rest[j] in rest;
      }
    } else {
      assert forall x :: x in [l] + levels <==> x == l || x in levels;
    }
  }

  /** A book side as sorted levels, whatever order its entries come up in. */
  method FlattenAndSort(side: map<real, real>, ascending: bool) returns (levels: seq<Level>)
    ensures Sorted(levels, ascending) && Lists(levels, side)
    ensures (forall p :: p in side ==> p > 0.0 && side[p] > 0.0) ==> Positive(levels)
  {
    levels := [];
    var todo := set p | p in side :: Level(p, side[p]);
    while todo != {}
      invariant forall x :: x in todo ==> x.price in side && side[x.price] == x.size
      invariant Sorted(levels, ascending)
      invariant forall x :: x in levels ==> x.price in side && side[x.price] == x.size && x !in todo
      invariant forall p :: p in side ==> Level(p, side[p]) in todo || Level(p, side[p]) in levels
      decreases |todo|
    {
      var l :| l in todo;
      todo := todo - {l};
      assert forall x :: x in levels ==> x.price != l.price;
      InsertSorted(levels, l, ascending);
      levels := Insert(levels, l, ascending);
    }
    assert forall i :: 0 <= i < |levels| ==> levels[i] in levels;
  }

  // ---------------------------------------------------------------- the walk

  function Depth(levels: seq<Level>): real
    decreases |levels|
  {
    if levels == [] then 0.0 else Notional(levels[0]) + Depth(levels[1..])
  }

  function Notional(l: Level): real {
    l.price * l.size
  }

  /** The size that spending `target` buys, level by level from the best. */
  function Filled(levels: seq<Level>, target: real): real
    requires Positive(levels)
    decreases |levels|
  {
    if levels == [] then 0.0
    else if Notional(levels[0]) >= target then target / levels[0].price
    else levels[0].size + Filled(levels[1..], target - Notional(levels[0]))
  }

  /** The level at which the target is met. */
  function LastTouched(levels: seq<Level>, target: real): nat
    requires Positive(levels) && 0.0 < target <= Depth(levels)
    ensures LastTouched(levels, target) < |levels|
    decreases |levels|
  {
    if Notional(levels[0]) >= target then 0
    else 1 + LastTouched(levels[1..], target - Notional(levels[0]))
  }

  lemma TailPositive(levels: seq<Level>, ascending: bool)
    requires Positive(levels) && Sorted(levels, ascending) && levels != []
    ensures Positive(levels[1..]) && Sorted(levels[1..], ascending) && Notional(levels[0]) > 0.0
  {
    MulPos(levels[0].price, levels[0].size);
  }

  /** `size` bought for `spent` at prices from `first` to `last`. */
  predicate Between(first: real, last: real, size: real, spent: real, ascending: bool) {
    if ascending then first * size <= spent <= last * size else last * size <= spent <= first * size
  }

  lemma AtOnePrice(p: real, target: real, ascending: bool)
    requires p > 0.0 && target > 0.0
    ensures target / p > 0.0 && Between(p, p, target / p, target, ascending)
  {
    DivMulCancel(target, p);
  }

  lemma BoundsStep(l: Level, target: real, f: real, q: real, last: real, ascending: bool)
    requires f > 0.0 && l.size > 0.0 && Between(q, last, f, target - Notional(l), ascending)
    requires Before(l.price, q, ascending) && Before(l.price, last, ascending)
    ensures Between(l.price, last, l.size + f, target, ascending)
  {
    if ascending {
      MulMono(l.price, q, f);
      MulMono(l.price, last, l.size);
    } else {
      MulMono(q, l.price, f);
      MulMono(last, l.price, l.size);
    }
    assert l.price * (l.size + f) == l.price * l.size + l.price * f && last * (l.size + f) == last * l.size + last * f;
  }

  /** The price paid on average lies between the best and the last touched price. */
  lemma {:induction false} FilledBounds(levels: seq<Level>, ascending: bool, target: real)
    requires Positive(levels) && Sorted(levels, ascending) && 0.0 < target <= Depth(levels)
    ensures Filled(levels, target) > 0.0
    ensures Between(levels[0].price, levels[LastTouched(levels, target)].price, Filled(levels, target), target,
              ascending)
    decreases |levels|
  {
    TailPositive(levels, ascending);
    if Notional(levels[0]) < target {
      var rest, left := levels[1..], target - Notional(levels[0]);
      FilledBounds(rest, ascending, left);
      var k := LastTouched(rest, left);
      assert levels[1 + k] == rest[k] && Before(levels[0].price, rest[k].price, ascending);
      BoundsStep(levels[0], target, Filled(rest, left), rest[0].price, rest[k].price, ascending);
    } else {
      AtOnePrice(levels[0].price, target, ascending);
    }
  }

  /** Buying `extra` more for `spend` more, no better than at price `p`. */
  predicate NoBetter(p: real, extra: real, spend: real, ascending: bool) {
    if ascending then p * extra <= spend else p * extra >= spend
  }

  lemma GrowthWithin(p: real, small: real, large: real, ascending: bool)
    requires p > 0.0
    ensures NoBetter(p, large / p - small / p, large - small, ascending)
  {
    DivMulCancel(large, p);
    DivMulCancel(small, p);
  }

  lemma GrowthBeyond(l: Level, small: real, large: real, f: real, q: real, last: real, ascending: bool)
    requires l.price > 0.0 && f > 0.0 && Before(l.price, q, ascending) &&
               Between(q, last, f, large - Notional(l), ascending)
    ensures NoBetter(l.price, l.size + f - small / l.price, large - small, ascending)
  {
    var p := l.price;
    if ascending {
      MulMono(p, q, f);
    } else {
      MulMono(q, p, f);
    }
    DivMulCancel(small, p);
    assert p * (l.size + f - small / p) == p * l.size + p * f - small / p * p;
  }

  /** What the walk buys grows by at most the extra spend at the price where the smaller target was met. */
  lemma {:induction false} FilledGrowth(levels: seq<Level>, ascending: bool, small: real, large: real)
    requires Positive(levels) && Sorted(levels, ascending) && 0.0 < small <= large <= Depth(levels)
    ensures NoBetter(levels[LastTouched(levels, small)].price, Filled(levels, large) - Filled(levels, small),
              large - small, ascending)
    decreases |levels|
  {
    TailPositive(levels, ascending);
    var n := Notional(levels[0]);
    if large <= n {
      GrowthWithin(levels[0].price, small, large, ascending);
    } else if small > n {
      FilledGrowth(levels[1..], ascending, small - n, large - n);
      SharedLevelCancels(levels, small, large);
    } else {
      var rest := levels[1..];
      FilledBounds(rest, ascending, large - n);
      GrowthBeyond(levels[0], small, large, Filled(rest, large - n), rest[0].price,
          rest[LastTouched(rest, large - n)].price, ascending);
    }
  }

  lemma SharedLevelCancels(levels: seq<Level>, small: real, large: real)
    requires Positive(levels) && levels != [] && Positive(levels[1..]) &&
               Notional(levels[0]) < small <= large <= Depth(levels) && 0.0 < small
    ensures var n, rest := Notional(levels[0]), levels[1..];
            Filled(levels, large) - Filled(levels, small) == Filled(rest, large - n) - Filled(rest, small - n) &&
            levels[LastTouched(levels, small)] == rest[LastTouched(rest, small - n)]
  {
  }

  function Ratio(a: real, b: real): real
    requires b != 0.0
  {
    a / b
  }

  /** The average price of a fill. */
  function Average(levels: seq<Level>, target: real): real
    requires Positive(levels) && Filled(levels, target) != 0.0
  {
    Ratio(target, Filled(levels, target))
  }

  predicate NotCloser(a: real, b: real, ascending: bool) {
    if ascending then a <= b else a >= b
  }

  /** The average price moves away from the best as the target grows. */
  lemma AverageMonotone(levels: seq<Level>, ascending: bool, small: real, large: real)
    requires Positive(levels) && Sorted(levels, ascending) && 0.0 < small <= large <= Depth(levels)
    ensures Filled(levels, small) > 0.0 && Filled(levels, large) > 0.0
    ensures NotCloser(Average(levels, small), Average(levels, large), ascending)
  {
    FilledBounds(levels, ascending, small);
    FilledBounds(levels, ascending, large);
    FilledGrowth(levels, ascending, small, large);
    Cross(small, large, Filled(levels, small), Filled(levels, large), levels[LastTouched(levels, small)].price,
        levels[0].price, ascending);
  }

  lemma Cross(small: real, large: real, f: real, g: real, p: real, first: real, ascending: bool)
    requires 0.0 < small <= large && f > 0.0 && g > 0.0 && p > 0.0
    requires NoBetter(p, g - f, large - small, ascending) && Between(first, p, f, small, ascending)
    ensures NotCloser(Ratio(small, f), Ratio(large, g), ascending)
  {
    if ascending {
      CrossAscending(small, large, f, g, p);
    } else {
      CrossDescending(small, large, f, g, p);
    }
  }

  /** A size bought between two prices has its average between them. */
  lemma AverageBetween(first: real, last: real, size: real, spent: real, ascending: bool)
    requires size > 0.0 && Between(first, last, size, spent, ascending)
    ensures NotCloser(first, Ratio(spent, size), ascending) && NotCloser(Ratio(spent, size), last, ascending)
  {
    DivMulCancel(spent, size);
  }

  lemma CrossAscending(small: real, large: real, f: real, g: real, p: real)
    requires 0.0 < small <= large && f > 0.0 && g > 0.0 && p > 0.0 && small <= p * f && p * (g - f) <= large - small
    ensures small / f <= large / g
  {
    calc {
      small * (p * g);
      == small * (p * f) + small * (p * (g - f));
      <= { MulMono(p * (g - f), large - small, small); }
      small * (p * f) + small * (large - small);
      <= { MulMono(small, p * f, large - small); }
      small * (p * f) + (p * f) * (large - small);
      == large * (p * f);
    }
    CancelFactor(small, large, f, g, p);
  }

  lemma CancelFactor(small: real, large: real, f: real, g: real, p: real)
    requires f > 0.0 && g > 0.0 && p > 0.0 && small * (p * g) <= large * (p * f)
    ensures small / f <= large / g
  {
    assert p * (small * g) <= p * (large * f);
    assert small * g <= large * f;
    DivMulCancel(small, f);
    DivMulCancel(large, g);
    assert small / f * (f * g) <= large / g * (f * g);
    MulPos(f, g);
  }

  lemma CrossDescending(small: real, large: real, f: real, g: real, p: real)
    requires 0.0 < small <= large && f > 0.0 && g > 0.0 && p > 0.0 && p * f <= small && p * (g - f) >= large - small
    ensures small / f >= large / g
  {
    calc {
      large * (p * f);
      == small * (p * f) + (large - small) * (p * f);
      <= { MulMono(p * f, small, large - small); }
      small * (p * f) + (large - small) * small;
      <= { MulMono(large - small, p * (g - f), small); }
      small * (p * f) + p * (g - f) * small;
      == small * (p * g);
    }
    CancelFactor(large, small, g, f, p);
  }

  // ---------------------------------------------------------------- the estimate

  datatype Estimate = Infinite | Finite(bps: real)

  function Best(levels: seq<Level>): real {
    if levels == [] then 0.0 else levels[0].price
  }

  function Mid(bestBid: real, bestAsk: real): real {
    if bestBid > 0.0 && bestAsk > 0.0 then (bestBid + bestAsk) / 2.0
    else if bestBid > 0.0 then bestBid
    else if bestAsk > 0.0 then bestAsk
    else 0.0
  }

  function Sells(side: string): bool {
    side == "Sell" || side == "SHORT"
  }

  /** Both sides as the store hands them over: positive and sorted outward from the spread. */
  predicate Ladders(bids: seq<Level>, asks: seq<Level>) {
    Positive(bids) && Positive(asks) && Sorted(bids, false) && Sorted(asks, true)
  }

  /** A book whose best bid lies above its best ask. */
  predicate Crossed(bids: seq<Level>, asks: seq<Level>) {
    bids != [] && asks != [] && bids[0].price > asks[0].price
  }

  function Away(average: real, mid: real): real
    requires mid != 0.0
  {
    Abs(average - mid) / mid * 10000.0
  }

  /** The estimate as the book defines it. */
  function Slippage(bids: seq<Level>, asks: seq<Level>, target: real, side: string): Estimate
    requires Positive(bids) && Positive(asks)
  {
    var mid, levels := Mid(Best(bids), Best(asks)), if Sells(side) then bids else asks;
    if target <= 0.0 || mid == 0.0 then Finite(0.0)
    else if target > Depth(levels) || Filled(levels, target) == 0.0 then Infinite
    else Finite(Away(Average(levels, target), mid))
  }

  lemma DepthSplit(levels: seq<Level>, target: real)
    requires Positive(levels) && levels != [] && Positive(levels[1..]) && Notional(levels[0]) < target
    ensures Depth(levels) - Notional(levels[0]) == Depth(levels[1..])
    ensures Filled(levels, target) == levels[0].size + Filled(levels[1..], target - Notional(levels[0]))
  {
  }

  lemma {:induction false} DepthNonNegative(levels: seq<Level>)
    requires Positive(levels)
    ensures Depth(levels) >= 0.0 && (levels != [] ==> Depth(levels) >= Notional(levels[0]) > 0.0)
    decreases |levels|
  {
    if levels != [] {
      MulPos(levels[0].price, levels[0].size);
      DepthNonNegative(levels[1..]);
    }
  }

  /** The loop: whether the target is met, and the size bought by then. */
  method Walk(levels: seq<Level>, target: real) returns (met: bool, totalSize: real)
    requires Positive(levels) && target > 0.0
    ensures met <==> target <= Depth(levels)
    ensures met ==> totalSize == Filled(levels, target)
  {
    var remaining := target;
    totalSize := 0.0;
    var i := 0;
    assert levels[0..] == levels;
    while i < |levels|
      invariant 0 <= i <= |levels| && remaining > 0.0 && Positive(levels[i..])
      invariant Filled(levels, target) == totalSize + Filled(levels[i..], remaining)
      invariant target - Depth(levels) == remaining - Depth(levels[i..])
    {
      var l := levels[i];
      assert levels[i..][0] == l && levels[i..][1..] == levels[i + 1..];
      DepthNonNegative(levels[i..]);
      var levelNotional := Notional(l);
      if levelNotional >= remaining {
        totalSize := totalSize + remaining / l.price;
        return true, totalSize;
      }
      DepthSplit(levels[i..], remaining);
      totalSize := totalSize + l.size;
      remaining := remaining - levelNotional;
      i := i + 1;
    }
    met := false;
  }

  method EstimateSlippage(bids: seq<Level>, asks: seq<Level>, target: real, side: string) returns (r: Estimate)
    requires Ladders(bids, asks)
    ensures r == Slippage(bids, asks, target, side)
  {
    if target <= 0.0 {
      return Finite(0.0);
    }
    var mid := Mid(Best(bids), Best(asks));
    if mid == 0.0 {
      return Finite(0.0);
    }
    var levels := if Sells(side) then bids else asks;
    var met, totalSize := Walk(levels, target);
    if !met {
      return Infinite;
    }
    FilledBounds(levels, !Sells(side), target);
    var avgPrice := target / totalSize;
    return Finite(Abs(avgPrice - mid) / mid * 10000.0);
  }

  // ---------------------------------------------------------------- what the estimate promises

  /**
   Infinite exactly when the side's whole notional falls short, unless the book has no level at all on either side.
   */
  lemma InfiniteExactly(bids: seq<Level>, asks: seq<Level>, target: real, side: string)
    requires Ladders(bids, asks) && target > 0.0
    ensures Slippage(bids, asks, target, side) == Infinite <==>
            target > Depth(if Sells(side) then bids else asks) && (bids != [] || asks != [])
  {
    var levels := if Sells(side) then bids else asks;
    if target <= Depth(levels) {
      FilledBounds(levels, !Sells(side), target);
    }
  }

  /** The share of a size's cost at the mid price by which what was paid differs from it, in ten-thousandths. */
  predicate Prices(bps: real, size: real, mid: real, paid: real) {
    bps * (size * mid) == 10000.0 * Abs(paid - size * mid)
  }

  /** A share of what a size costs at the mid price, in basis points, is how far the price paid is from it. */
  lemma AwayInMoney(size: real, mid: real, target: real)
    requires size > 0.0 && mid > 0.0
    ensures Prices(Away(target / size, mid), size, mid, target)
  {
    var average := target / size;
    DivMulCancel(target, size);
    DivMulCancel(Abs(average - mid), mid);
    AbsScaled(average - mid, size);
    assert (average - mid) * size == target - size * mid;
  }

  lemma AbsScaled(x: real, size: real)
    requires size > 0.0
    ensures Abs(x) * size == Abs(x * size)
  {
  }

  /** Halfway between the best prices, or at the one best price there is. */
  lemma MidOfBests(bids: seq<Level>, asks: seq<Level>)
    requires Positive(bids) && Positive(asks) && (bids != [] || asks != [])
    ensures Mid(Best(bids), Best(asks)) > 0.0
    ensures var mid := Mid(Best(bids), Best(asks));
            if bids == [] then mid == asks[0].price
            else if asks == [] then mid == bids[0].price
            else mid + mid == bids[0].price + asks[0].price
  {
  }

  lemma BuysSomething(levels: seq<Level>, ascending: bool, target: real, size: real)
    requires Positive(levels) && Sorted(levels, ascending) && 0.0 < target <= Depth(levels)
    requires size == Filled(levels, target)
    ensures size > 0.0 && levels != []
  {
    FilledBounds(levels, ascending, target);
  }

  lemma EstimateOf(bids: seq<Level>, asks: seq<Level>, target: real, side: string, size: real, mid: real)
    requires Positive(bids) && Positive(asks) && mid == Mid(Best(bids), Best(asks)) > 0.0
    requires var levels := if side in {"Sell", "SHORT"} then bids else asks;
             0.0 < target <= Depth(levels) && size == Filled(levels, target) > 0.0
    ensures Slippage(bids, asks, target, side) == Finite(Away(target / size, mid))
  {
  }

  /**
   The estimate in money: for what the target buys, it costs that many ten-thousandths more, or yields that many less,
   than the same size does at the middle of the best prices.
   */
  lemma EstimatePricesTheFill(bids: seq<Level>, asks: seq<Level>, target: real, side: string, size: real, mid: real)
    requires Ladders(bids, asks) && mid == Mid(Best(bids), Best(asks))
    requires var levels := if side in {"Sell", "SHORT"} then bids else asks;
             0.0 < target <= Depth(levels) && size == Filled(levels, target)
    ensures size > 0.0 && Slippage(bids, asks, target, side).Finite?
    ensures Prices(Slippage(bids, asks, target, side).bps, size, mid, target)
  {
    BuysSomething(if side in {"Sell", "SHORT"} then bids else asks, side !in {"Sell", "SHORT"}, target, size);
    MidOfBests(bids, asks);
    EstimateOf(bids, asks, target, side, size, mid);
    AwayInMoney(size, mid, target);
  }

  /** A finite fill averages between the best and the last touched level, both on the far side of the mid price. */
  lemma AverageOutsideMid(bids: seq<Level>, asks: seq<Level>, target: real, sell: bool)
    requires Ladders(bids, asks) && !Crossed(bids, asks) && 0.0 < target <= Depth(if sell then bids else asks)
    ensures var levels, mid := if sell then bids else asks, Mid(Best(bids), Best(asks));
            Filled(levels, target) > 0.0 && mid > 0.0 &&
            NotCloser(mid, levels[0].price, !sell) && NotCloser(levels[0].price, Average(levels, target), !sell) &&
            NotCloser(Average(levels, target), levels[LastTouched(levels, target)].price, !sell)
  {
    var levels := if sell then bids else asks;
    FilledBounds(levels, !sell, target);
    AverageBetween(levels[0].price, levels[LastTouched(levels, target)].price, Filled(levels, target), target, !sell);
  }

  predicate AtMost(a: Estimate, b: Estimate) {
    b.Infinite? || (a.Finite? && a.bps <= b.bps)
  }

  lemma AwayGrows(mid: real, a: real, b: real, ascending: bool)
    requires mid > 0.0 && NotCloser(mid, a, ascending) && NotCloser(a, b, ascending)
    ensures 0.0 <= Away(a, mid) <= Away(b, mid)
  {
    var x, y := Abs(a - mid), Abs(b - mid);
    assert 0.0 <= x <= y;
    DivMulCancel(x, mid);
    DivMulCancel(y, mid);
    assert (x / mid) * mid <= (y / mid) * mid;
  }

  /** A larger target never estimates less slippage. */
  ghost predicate NeverCheaper(bids: seq<Level>, asks: seq<Level>, side: string)
    requires Ladders(bids, asks)
  {
    forall small: real, large: real :: small <= large ==>
      AtMost(Slippage(bids, asks, small, side), Slippage(bids, asks, large, side))
  }

  /** On a book that is not crossed a larger target never estimates less slippage, for buys and for sells. */
  lemma SlippageMonotone(bids: seq<Level>, asks: seq<Level>, small: real, large: real, side: string)
    requires Ladders(bids, asks) && !Crossed(bids, asks) && small <= large
    ensures AtMost(Slippage(bids, asks, small, side), Slippage(bids, asks, large, side))
  {
    var sell := Sells(side);
    var levels, mid := if sell then bids else asks, Mid(Best(bids), Best(asks));
    if large > 0.0 && mid != 0.0 && large <= Depth(levels) {
      AverageOutsideMid(bids, asks, large, sell);
      AwayGrows(mid, levels[0].price, Average(levels, large), !sell);
      if small > 0.0 {
        AverageOutsideMid(bids, asks, small, sell);
        AverageMonotone(levels, !sell, small, large);
        AwayGrows(mid, Average(levels, small), Average(levels, large), !sell);
      }
    }
  }

  /** One level has one price, whatever the target. */
  lemma OneLevelOnePrice(levels: seq<Level>, target: real)
    requires Positive(levels) && |levels| == 1 && 0.0 < target <= Depth(levels)
    ensures Filled(levels, target) > 0.0 && Average(levels, target) == levels[0].price
  {
    var p := levels[0].price;
    DepthNonNegative(levels[1..]);
    AtOnePrice(p, target, true);
    DivMulCancel(target, target / p);
    RatioBack(target, p);
  }

  lemma RatioBack(target: real, p: real)
    requires target > 0.0 && p > 0.0 && target / p > 0.0
    ensures target / (target / p) == p
  {
    DivMulCancel(target, p);
    DivMulCancel(target, target / p);
    var q, r := target / p, target / (target / p);
    assert r * q == p * q;
    assert (r - p) * q == 0.0;
  }

  lemma SingleLevelMonotone(bids: seq<Level>, asks: seq<Level>, small: real, large: real, side: string)
    requires Ladders(bids, asks) && |if Sells(side) then bids else asks| == 1 && small <= large
    ensures AtMost(Slippage(bids, asks, small, side), Slippage(bids, asks, large, side))
  {
    var levels, mid := if Sells(side) then bids else asks, Mid(Best(bids), Best(asks));
    if 0.0 < large <= Depth(levels) {
      OneLevelOnePrice(levels, large);
      if small > 0.0 {
        OneLevelOnePrice(levels, small);
      } else {
        AwayNonNegative(Average(levels, large), mid);
      }
    }
  }

  lemma AwayNonNegative(average: real, mid: real)
    requires mid > 0.0
    ensures Away(average, mid) >= 0.0
  {
    DivMulCancel(Abs(average - mid), mid);
  }

  /** Bought at `p` and `q`, `s` and `x` average to `a`. */
  predicate Weighted(p: real, q: real, s: real, x: real, a: real) {
    a * (s + x) == p * s + q * x
  }

  /** `x` at `q` does not carry the average of `s` at `p` past the mid. */
  predicate NotPast(p: real, q: real, s: real, x: real, mid: real) {
    Abs(q - mid) * x <= Abs(mid - p) * s
  }

  /** Some of the second level can be bought without carrying the average past the mid. */
  lemma SomeFits(p: real, q: real, s: real, size: real, mid: real) returns (x: real)
    requires s > 0.0 && size > 0.0 && mid != p
    ensures 0.0 < x <= size && NotPast(p, q, s, x, mid)
  {
    var near, far := Abs(mid - p) * s, Abs(q - mid);
    MulPos(Abs(mid - p), s);
    x := ShareFits(near, far, size);
    assert far * x == x * far;
  }

  lemma ShareFits(near: real, far: real, size: real) returns (x: real)
    requires near > 0.0 && far >= 0.0 && size > 0.0
    ensures 0.0 < x <= size && x * far <= near
  {
    x := near / (far + 1.0);
    DivMulCancel(near, far + 1.0);
    if x > size {
      MulMono(size, x, far);
      x := size;
    }
  }

  /** Size and average of buying the whole first level and `extra` of the second. */
  lemma TwoLevels(levels: seq<Level>, extra: real)
    requires Positive(levels) && |levels| >= 2 && 0.0 < extra <= levels[1].size
    ensures var whole, more := Notional(levels[0]), Notional(levels[0]) + levels[1].price * extra;
            0.0 < whole < more <= Depth(levels) &&
            Filled(levels, whole) == levels[0].size && Filled(levels, more) == levels[0].size + extra
  {
    var rest := levels[1..];
    var p, q := levels[0].price, levels[1].price;
    var spend := q * extra;
    MulPos(p, levels[0].size);
    MulPos(q, extra);
    MulMono(extra, levels[1].size, q);
    DepthNonNegative(rest);
    DivMulCancel(p * levels[0].size, p);
    DivMulCancel(spend, q);
    SameFactor(Notional(levels[0]) / p, levels[0].size, p);
    SameFactor(spend / q, extra, q);
    assert rest[0] == levels[1] && Notional(rest[0]) >= spend;
    assert Filled(rest, spend) == spend / q;
    assert Filled(levels, Notional(levels[0]) + spend)
             == levels[0].size + Filled(rest, Notional(levels[0]) + spend - Notional(levels[0]));
  }

  lemma SameFactor(a: real, b: real, p: real)
    requires p > 0.0 && a * p == p * b
    ensures a == b
  {
    assert (a - b) * p == 0.0;
  }

  lemma WeightedAverage(p: real, q: real, s: real, x: real, mid: real, a: real)
    requires Weighted(p, q, s, x, a)
    ensures (a - p) * (s + x) == (q - p) * x && (mid - a) * (s + x) == (mid - p) * s - (q - mid) * x
  {
  }

  lemma PulledTowards(p: real, q: real, s: real, x: real, mid: real, a: real)
    requires s > 0.0 && x > 0.0 && p < q && Weighted(p, q, s, x, a) && (q - mid) * x <= (mid - p) * s
    ensures p < a <= mid
  {
    WeightedAverage(p, q, s, x, mid, a);
    MulPos(q - p, x);
    PositiveFactor(a - p, s + x, (q - p) * x);
    NonNegativeFactor(mid - a, s + x, (mid - p) * s - (q - mid) * x);
  }

  lemma PullFits(p: real, q: real, s: real, x: real, mid: real, ascending: bool)
    requires x > 0.0 && Before(p, mid, ascending) && NotPast(p, q, s, x, mid)
    ensures if ascending then (q - mid) * x <= (mid - p) * s else (mid - q) * x <= (p - mid) * s
  {
    if ascending {
      MulMono(q - mid, Abs(q - mid), x);
      assert Abs(p - mid) == mid - p;
    } else {
      MulMono(mid - q, Abs(q - mid), x);
      assert Abs(p - mid) == p - mid;
    }
  }

  /**
   The average of two levels is strictly nearer to the mid than the first, when the second pulls that way but not past
   it.
   */
  lemma AverageNearer(p: real, q: real, s: real, x: real, mid: real, a: real, ascending: bool)
    requires s > 0.0 && x > 0.0 && Before(p, mid, ascending) && Before(p, q, ascending)
    requires NotPast(p, q, s, x, mid) && Weighted(p, q, s, x, a)
    ensures Abs(a - mid) < Abs(p - mid)
  {
    PullFits(p, q, s, x, mid, ascending);
    if ascending {
      PulledTowards(p, q, s, x, mid, a);
    } else {
      Mirrored(p, q, s, x, mid, a);
      PulledTowards(-p, -q, s, x, -mid, -a);
    }
  }

  lemma Mirrored(p: real, q: real, s: real, x: real, mid: real, a: real)
    requires Weighted(p, q, s, x, a) && (mid - q) * x <= (p - mid) * s
    ensures Weighted(-p, -q, s, x, -a) && (-q - -mid) * x <= (-mid - -p) * s
  {
  }

  lemma PositiveFactor(a: real, b: real, product: real)
    requires b > 0.0 && a * b == product && product > 0.0
    ensures a > 0.0
  {
  }

  lemma NonNegativeFactor(a: real, b: real, product: real)
    requires b > 0.0 && a * b == product && product >= 0.0
    ensures a >= 0.0
  {
  }

  lemma AwayShrinks(a: real, b: real, mid: real)
    requires mid > 0.0 && Abs(a - mid) < Abs(b - mid)
    ensures Away(a, mid) < Away(b, mid)
  {
    var x, y := Abs(a - mid), Abs(b - mid);
    DivMulCancel(x, mid);
    DivMulCancel(y, mid);
    assert (y / mid - x / mid) * mid == y / mid * mid - x / mid * mid;
    PositiveFactor(y / mid - x / mid, mid, y - x);
  }

  lemma LooksCheaper(p: real, q: real, s: real, x: real, mid: real, a: real, ascending: bool)
    requires s > 0.0 && x > 0.0 && Before(p, mid, ascending) && Before(p, q, ascending)
    requires mid > 0.0 && NotPast(p, q, s, x, mid) && Weighted(p, q, s, x, a)
    ensures Away(a, mid) < Away(p, mid)
  {
    AverageNearer(p, q, s, x, mid, a, ascending);
    AwayShrinks(a, p, mid);
  }

  /** The averages of buying the whole first level, and `extra` of the second with it. */
  lemma TwoAverages(levels: seq<Level>, extra: real)
    requires Positive(levels) && |levels| >= 2 && 0.0 < extra <= levels[1].size
    ensures var whole, more := Notional(levels[0]), Notional(levels[0]) + levels[1].price * extra;
            0.0 < whole < more <= Depth(levels) && Filled(levels, whole) > 0.0 && Filled(levels, more) > 0.0 &&
            Average(levels, whole) == levels[0].price &&
            Weighted(levels[0].price, levels[1].price, levels[0].size, extra, Average(levels, more))
  {
    TwoLevels(levels, extra);
    FirstAverage(levels[0]);
    BothAverage(levels[0], levels[1], extra);
  }

  lemma FirstAverage(l: Level)
    requires l.size > 0.0
    ensures Ratio(Notional(l), l.size) == l.price
  {
    PriceBack(l.price, l.size);
  }

  lemma BothAverage(l: Level, m: Level, extra: real)
    requires l.size + extra > 0.0
    ensures Weighted(l.price, m.price, l.size, extra, Ratio(Notional(l) + m.price * extra, l.size + extra))
  {
    DivMulCancel(Notional(l) + m.price * extra, l.size + extra);
  }

  lemma PriceBack(p: real, size: real)
    requires size != 0.0
    ensures Ratio(p * size, size) == p
  {
  }

  /** On a ladder that starts before the mid, some of the second level makes the whole fill look cheaper. */
  lemma SecondLevelLooksCheaper(levels: seq<Level>, ascending: bool, mid: real) returns (whole: real, more: real)
    requires Positive(levels) && |levels| >= 2 && Before(levels[0].price, levels[1].price, ascending)
    requires mid > 0.0 && Before(levels[0].price, mid, ascending)
    ensures 0.0 < whole < more <= Depth(levels) && Filled(levels, whole) > 0.0 && Filled(levels, more) > 0.0
    ensures Away(Average(levels, more), mid) < Away(Average(levels, whole), mid)
  {
    var p, q := levels[0].price, levels[1].price;
    var x := SomeFits(p, q, levels[0].size, levels[1].size, mid);
    TwoAverages(levels, x);
    whole, more := Notional(levels[0]), Notional(levels[0]) + q * x;
    LooksCheaper(p, q, levels[0].size, x, mid, Average(levels, more), ascending);
  }

  /** On a crossed book with two levels to walk, filling a little of the second looks cheaper than the first alone. */
  lemma CrossedLooksCheaper(bids: seq<Level>, asks: seq<Level>, side: string)
    requires Ladders(bids, asks) && Crossed(bids, asks) && |if Sells(side) then bids else asks| >= 2
    ensures !NeverCheaper(bids, asks, side)
  {
    var levels := if Sells(side) then bids else asks;
    var whole, more := SecondLevelLooksCheaper(levels, !Sells(side), Mid(Best(bids), Best(asks)));
    assert !AtMost(Slippage(bids, asks, whole, side), Slippage(bids, asks, more, side));
  }

  /** Slippage is monotone in the target exactly when the book is not crossed or has at most one level to walk. */
  lemma MonotoneExactly(bids: seq<Level>, asks: seq<Level>, side: string)
    requires Ladders(bids, asks)
    ensures NeverCheaper(bids, asks, side) <==> !Crossed(bids, asks) || |if Sells(side) then bids else asks| == 1
  {
    var levels := if Sells(side) then bids else asks;
    if Crossed(bids, asks) && |levels| >= 2 {
      CrossedLooksCheaper(bids, asks, side);
    } else {
      forall small: real, large: real | small <= large
        ensures AtMost(Slippage(bids, asks, small, side), Slippage(bids, asks, large, side))
      {
        if Crossed(bids, asks) {
          SingleLevelMonotone(bids, asks, small, large, side);
        } else {
          SlippageMonotone(bids, asks, small, large, side);
        }
      }
    }
  }
}
