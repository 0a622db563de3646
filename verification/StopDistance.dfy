/** How far a candidate's stop is put from its entry. */
module StopDistance {
  import opened Domain
  import opened Numbers

  /** The stop's distance in ATRs grows as the signal gets worse, up to three. */
  function QualityStopMultiplier(base: real, tradeCount: int, atrPct: real, volRatio: real): (m: real)
    ensures 0.0 < base <= 3.0 ==> base <= m <= 3.0
    ensures base > 3.0 ==> m == 3.0
    ensures base <= 0.0 ==> m == base
  {
    var activity := if tradeCount < 20 then 1.5 else 1.0;
    var volatility := if atrPct > 3.0 then activity * 1.5 else activity;
    var scale := if volRatio < 0.8 then volatility * 1.3 else volatility;
    Scaled(base, scale);
    Min(Max(base * scale, base), 3.0)
  }

  lemma Scaled(base: real, scale: real)
    requires scale >= 1.0
    ensures base > 0.0 ==> base * scale >= base
  {
    if base > 0.0 {
      MulMono(1.0, scale, base);
    }
  }

  /** A worse signal in any respect never brings the stop closer. */
  lemma WorseSignalWiderStop(
    base: real, tradeCount: int, atrPct: real, volRatio: real, worseCount: int, worseAtrPct: real, worseRatio: real)
    requires base > 0.0 && worseCount <= tradeCount && worseAtrPct >= atrPct && worseRatio <= volRatio
    ensures QualityStopMultiplier(base, tradeCount, atrPct, volRatio)
         <= QualityStopMultiplier(base, worseCount, worseAtrPct, worseRatio)
  {
    var activity, worseActivity := if tradeCount < 20 then 1.5 else 1.0, if worseCount < 20 then 1.5 else 1.0;
    var volatility := if atrPct > 3.0 then activity * 1.5 else activity;
    var worseVolatility := if worseAtrPct > 3.0 then worseActivity * 1.5 else worseActivity;
    var scale := if volRatio < 0.8 then volatility * 1.3 else volatility;
    var worse := if worseRatio < 0.8 then worseVolatility * 1.3 else worseVolatility;
    assert scale <= worse;
    MulMono(scale, worse, base);
  }

  /** Few trades, a wild price and thin volume each widen the stop by their own factor, on top of one another. */
  lemma EachSignWidens(base: real, tradeCount: int, atrPct: real, volRatio: real)
    requires base > 0.0
    ensures var m := QualityStopMultiplier(base, tradeCount, atrPct, volRatio);
            && (tradeCount < 20 ==> m == Min(1.5 * QualityStopMultiplier(base, 20, atrPct, volRatio), 3.0))
            && (atrPct > 3.0 ==> m == Min(1.5 * QualityStopMultiplier(base, tradeCount, 3.0, volRatio), 3.0))
            && (volRatio < 0.8 ==> m == Min(1.3 * QualityStopMultiplier(base, tradeCount, atrPct, 0.8), 3.0))
            && (tradeCount >= 20 && atrPct <= 3.0 && volRatio >= 0.8 ==> m == Min(base, 3.0))
  {
  }

  /** A percentage that is no less than the configured one nor than any a price this low asks for. */
  predicate MeetsTiers(entry: real, minPct: real, q: real) {
    minPct <= q && (entry < 100.0 ==> 0.5 <= q) && (entry < 10.0 ==> 1.0 <= q) && (entry < 1.0 ==> 1.5 <= q)
  }

  /** The least stop distance in percent: by price tier, never below the configured one; zero switches it off. */
  function PriceAwareMinSLPct(entry: real, minPct: real): (pct: real)
    ensures entry > 0.0 && minPct > 0.0 ==>
              forall q :: pct <= q <==> MeetsTiers(entry, minPct, q)
    ensures entry > 0.0 && minPct <= 0.0 ==> pct == 0.0
    ensures entry <= 0.0 ==> pct == minPct
  {
    if entry <= 0.0 then minPct
    else if minPct <= 0.0 then 0.0
    else
      Max(minPct, if entry < 1.0 then 1.5 else if entry < 10.0 then 1.0 else if entry < 100.0 then 0.5 else minPct)
  }

  function Times(x: real, y: real): real {
    x * y
  }

  /** The distance the stop must keep; zero when neither threshold is set or the entry is not a price. */
  function Floor(entry: real, atr: real, minATRMultiplier: real, minPct: real): (d: real)
    ensures d >= 0.0
  {
    if entry <= 0.0 then 0.0
    else Max(0.0, Max(Times(minATRMultiplier, Max(atr, 0.0)), Times(entry, PriceAwareMinSLPct(entry, minPct)) / 100.0))
  }

  /** The least distance that is a share of the price and a multiple of the ATR at once. */
  lemma FloorIsLeast(entry: real, atr: real, minATRMultiplier: real, minPct: real, d: real)
    requires entry > 0.0
    ensures Floor(entry, atr, minATRMultiplier, minPct) <= d <==>
            0.0 <= d && (atr > 0.0 ==> minATRMultiplier * atr <= d) &&
            entry * PriceAwareMinSLPct(entry, minPct) <= 100.0 * d
  {
    if atr <= 0.0 {
      assert Times(minATRMultiplier, Max(atr, 0.0)) == minATRMultiplier * 0.0 == 0.0;
    }
  }

  predicate LosingSide(side: Side, entry: real, stop: real) {
    if side.Long? then stop < entry else stop > entry
  }

  datatype Enforced = Enforced(stop: real, minDistance: real)

  /** The stop is left alone when far enough, and otherwise put at the least distance, always on the losing side. */
  function EnforceMinSLDistance(
    entry: real, stop: real, atr: real, side: Side, minATRMultiplier: real, minPct: real): (e: Enforced)
    ensures e.minDistance == Floor(entry, atr, minATRMultiplier, minPct)
    ensures Abs(entry - e.stop) >= e.minDistance && Abs(entry - e.stop) >= Abs(entry - stop)
    ensures Abs(entry - stop) >= e.minDistance ==> e.stop == stop
    ensures LosingSide(side, entry, stop) ==> LosingSide(side, entry, e.stop)
    ensures LosingSide(side, entry, stop) ==> Abs(entry - e.stop) == Max(Abs(entry - stop), e.minDistance)
  {
    if entry <= 0.0 then Enforced(stop, 0.0)
    else
      var byATR := Times(minATRMultiplier, if atr < 0.0 then 0.0 else atr);
      var byPct := Times(entry, PriceAwareMinSLPct(entry, minPct)) / 100.0;
      var minDistance := Max(byATR, byPct);
      if minDistance <= 0.0 then Enforced(stop, 0.0)
      else if Abs(entry - stop) >= minDistance then Enforced(stop, minDistance)
      else Enforced(if side.Long? then entry - minDistance else entry + minDistance, minDistance)
  }

  /** A pullback's stop: behind the last swing, at least `reach` away. */
  function PullbackStop(side: Side, entry: real, swing: real, reach: real): (stop: real)
    ensures reach > 0.0 ==> LosingSide(side, entry, stop) && Abs(entry - stop) >= reach
    ensures side.Long? ==>
              stop == if 0.0 < swing < entry && swing <= entry - reach then swing else entry - reach
    ensures side.Short? ==>
              stop == if entry < swing && entry + reach <= swing then swing else entry + reach
  {
    if side.Long? then
      var s := Min(swing, entry - reach);
      if s <= 0.0 || s >= entry then entry - reach else s
    else
      var s := Max(swing, entry + reach);
      if s <= entry then entry + reach else s
  }

  /** A breakout's stop: behind the retest and the broken level. */
  function BreakoutStop(side: Side, entry: real, extreme: real, level: real, reach: real): (stop: real)
    ensures reach > 0.0 ==> LosingSide(side, entry, stop)
    ensures side.Long? ==>
              if extreme < entry || level - reach < entry
              then stop in {extreme, level - reach} && stop <= extreme && stop <= level - reach
              else stop == entry - reach
    ensures side.Short? ==>
              if extreme > entry || level + reach > entry
              then stop in {extreme, level + reach} && stop >= extreme && stop >= level + reach
              else stop == entry + reach
  {
    if side.Long? then
      var s := Min(extreme, level - reach);
      if s >= entry then entry - reach else s
    else
      var s := Max(extreme, level + reach);
      if s <= entry then entry + reach else s
  }

  /** A long pullback's stop is a price exactly when the entry is worth more than the reach and the least distance. */
  lemma PullbackStopIsAPrice(entry: real, swing: real, reach: real, atr: real, minATRMultiplier: real, minPct: real)
    requires reach > 0.0
    ensures EnforceMinSLDistance(entry, PullbackStop(Long, entry, swing, reach), atr, Long, minATRMultiplier,
              minPct).stop > 0.0
            <==> entry > reach && entry > Floor(entry, atr, minATRMultiplier, minPct)
  {
    var first := PullbackStop(Long, entry, swing, reach);
    assert first > 0.0 <==> entry > reach;
    var e := EnforceMinSLDistance(entry, first, atr, Long, minATRMultiplier, minPct);
    assert e.stop == entry - Max(entry - first, e.minDistance);
  }
}
