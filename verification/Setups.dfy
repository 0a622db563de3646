/** Entry, stop and targets of the candidates the two strategies generate. */
module Setups {
  import opened Domain
  import opened Numbers
  import opened Selections
  import opened StopDistance

  datatype EntryType = AtMarket | AtRetest

  datatype SwingKind = Low | High

  datatype Swing = Swing(kind: SwingKind, price: real)

  datatype Refusal =
    | MarketRejected | EntryStopTooClose | InvalidRiskDistance | StopWrongSide | TargetWrongSide | RRBelowMin

  datatype Setup =
    | NoSetup(why: Refusal)
    | Setup(entryType: EntryType, entry: real, stop: real, tp1: real, tp2: real, rr: real)

  /** What both generators take: `marketOK` is the verdict of the trend, reaction, momentum and volume filters. */
  datatype Conditions = Conditions(
    marketOK: bool,
    atr: real,
    tradeCount: int,
    atrPct: real,
    volumeRatio: real,
    tickSize: real,
    resistance: seq<real>,
    support: seq<real>,
    minATRMultiplier: real,
    minStopPct: real,
    minRR: real)

  /** Stop, entry and targets in order, away from the stop. */
  predicate InOrder(side: Side, stop: real, entry: real, tp1: real, tp2: real) {
    if side.Long? then stop < entry < tp1 < tp2 else stop > entry > tp1 > tp2
  }

  function RewardRatio(entry: real, target: real, risk: real): real
    requires risk > 0.0
  {
    Abs(target - entry) / risk
  }

  function MinRR(minRR: real): real {
    if minRR <= 0.0 then 1.4 else minRR
  }

  function Tick(tickSize: real): real {
    if tickSize > 0.0 then tickSize else 0.0001
  }

  /** `multiple` risks beyond the entry. */
  function RiskTarget(side: Side, entry: real, risk: real, multiple: real): real {
    if side.Long? then entry + multiple * risk else entry - multiple * risk
  }

  lemma FallbackRatio(side: Side, entry: real, risk: real)
    requires risk > 0.0
    ensures RewardRatio(entry, RiskTarget(side, entry, risk, 1.5), risk) == 1.5
  {
    assert Abs(RiskTarget(side, entry, risk, 1.5) - entry) == 1.5 * risk;
    assert 1.5 * risk / risk == 1.5;
  }

  /** A target within 1.5 risks pays at most 1.5. */
  lemma RatioAtMost(entry: real, target: real, risk: real)
    requires risk > 0.0 && Abs(target - entry) <= 1.5 * risk
    ensures RewardRatio(entry, target, risk) <= 1.5
  {
  }

  // ---- levels ----

  /** The price of the last swing of a kind; 0 stands for none. */
  function LastSwing(swings: seq<Swing>, kind: SwingKind): real {
    if swings == [] then 0.0
    else if swings[|swings| - 1].kind == kind then swings[|swings| - 1].price
    else LastSwing(swings[..|swings| - 1], kind)
  }

  method LatestSwing(swings: seq<Swing>, side: Side) returns (price: real)
    ensures price == LastSwing(swings, if side.Long? then Low else High)
  {
    var want := if side.Long? then Low else High;
    var i := |swings|;
    assert swings[..i] == swings;
    while i > 0
      invariant 0 <= i <= |swings|
      invariant LastSwing(swings, want) == LastSwing(swings[..i], want)
    {
      assert swings[..i][..i - 1] == swings[..i - 1];
      if swings[i - 1].kind == want {
        return swings[i - 1].price;
      }
      i := i - 1;
    }
    price := 0.0;
  }

  /** The nearest level above; 0 stands for none, which a level of 0 would blur for a negative price. */
  method NearestAbove(price: real, levels: seq<real>) returns (best: real)
    ensures best == 0.0 || (best in levels && best > price)
    ensures 0.0 !in levels || price >= 0.0 ==>
              if exists l :: l in levels && l > price
              then best in levels && best > price && forall l :: l in levels && l > price ==> best <= l
              else best == 0.0
  {
    best := 0.0;
    for i := 0 to |levels|
      invariant best == 0.0 || (best in levels[..i] && best > price)
      invariant 0.0 !in levels || price >= 0.0 ==>
                  forall l :: l in levels[..i] && l > price ==> best != 0.0 && best <= l
    {
      assert levels[..i + 1] == levels[..i] + [levels[i]] && levels[i] in levels;
      if levels[i] > price && (best == 0.0 || levels[i] < best) {
        best := levels[i];
      }
    }
    assert levels[..|levels|] == levels;
  }

  /** The nearest level below; 0 stands for none. */
  method NearestBelow(price: real, levels: seq<real>) returns (best: real)
    ensures best == 0.0 || (best in levels && best < price)
    ensures 0.0 !in levels ==>
              if exists l :: l in levels && l < price
              then best in levels && forall l :: l in levels && l < price ==> best >= l
              else best == 0.0
  {
    best := 0.0;
    for i := 0 to |levels|
      invariant best == 0.0 || (best in levels[..i] && best < price)
      invariant 0.0 !in levels ==> forall l :: l in levels[..i] && l < price ==> best != 0.0 && best >= l
    {
      assert levels[..i + 1] == levels[..i] + [levels[i]] && levels[i] in levels;
      if levels[i] < price && (best == 0.0 || levels[i] > best) {
        best := levels[i];
      }
    }
    assert levels[..|levels|] == levels;
  }

  predicate Beyond(side: Side, entry: real, level: real) {
    if side.Long? then level > entry else level < entry
  }

  /** A level beyond the entry with none nearer. */
  ghost predicate IsNearest(side: Side, entry: real, levels: seq<real>, level: real) {
    && level in levels && Beyond(side, entry, level)
    && forall l :: l in levels && Beyond(side, entry, l) ==> Abs(level - entry) <= Abs(l - entry)
  }

  function Levels(side: Side, c: Conditions): seq<real> {
    if side.Long? then c.resistance else c.support
  }

  function Negated(): real -> real {
    (x: real) => -x
  }

  function Itself(): real -> real {
    (x: real) => x
  }

  /** The least level beyond the anchor, by collecting and sorting; 0 stands for none. */
  method NextAbove(anchor: real, levels: seq<real>) returns (next: real)
    ensures if exists l :: l in levels && l > anchor
            then next in levels && next > anchor && forall l :: l in levels && l > anchor ==> next <= l
            else next == 0.0
  {
    var found: seq<real> := [];
    for i := 0 to |levels|
      invariant forall l :: l in found <==> l in levels[..i] && l > anchor
    {
      if levels[i] > anchor {
        found := found + [levels[i]];
      }
    }
    assert levels[..|levels|] == levels;
    if found == [] {
      return 0.0;
    }
    var sorted := SortedCopy(found, Negated());
    next := FirstOf(found, sorted, Negated());
  }

  /** The greatest level beyond the anchor. */
  method NextBelow(anchor: real, levels: seq<real>) returns (next: real)
    ensures if exists l :: l in levels && l < anchor
            then next in levels && next < anchor && forall l :: l in levels && l < anchor ==> next >= l
            else next == 0.0
  {
    var found: seq<real> := [];
    for i := 0 to |levels|
      invariant forall l :: l in found <==> l in levels[..i] && l < anchor
    {
      if levels[i] < anchor {
        found := found + [levels[i]];
      }
    }
    assert levels[..|levels|] == levels;
    if found == [] {
      return 0.0;
    }
    var sorted := SortedCopy(found, Itself());
    next := FirstOf(found, sorted, Itself());
  }

  method FirstOf(found: seq<real>, sorted: seq<real>, score: real -> real) returns (first: real)
    requires found != [] && Ranked(sorted, score) && multiset(sorted) == multiset(found) && |sorted| == |found|
    ensures first in found && forall l :: l in found ==> score(first) >= score(l)
  {
    first := sorted[0];
    assert first in multiset(sorted);
    forall l | l in found ensures score(first) >= score(l) {
      assert l in multiset(found);
      assert l in sorted;
    }
  }

  /** A level beyond the entry and nearer than the fallback target, or else the fallback. */
  function CloserTarget(side: Side, entry: real, fallback: real, level: real): (tp: real)
    ensures tp == fallback || (tp == level && Abs(level - entry) < Abs(fallback - entry))
    ensures tp == level && tp != fallback ==> if side.Long? then level > entry else level < entry
  {
    if side.Long? then
      if level <= entry then fallback
      else if Abs(level - entry) < Abs(fallback - entry) then level
      else fallback
    else
      if level >= entry || level == 0.0 then fallback
      else if Abs(entry - level) < Abs(entry - fallback) then level
      else fallback
  }

  /** The nearest level beyond the entry on the side's own list; 0 stands for none. */
  method NearestLevel(side: Side, entry: real, c: Conditions) returns (near: real)
    ensures near == 0.0 || (near in Levels(side, c) && Beyond(side, entry, near))
    ensures 0.0 !in Levels(side, c) ==> forall l :: IsNearest(side, entry, Levels(side, c), l) ==> near == l
  {
    if side.Long? {
      near := NearestAbove(entry, c.resistance);
    } else {
      near := NearestBelow(entry, c.support);
    }
    if 0.0 !in Levels(side, c) {
      forall l | IsNearest(side, entry, Levels(side, c), l) ensures near == l {
        assert l in Levels(side, c) && Beyond(side, entry, l);
        assert near in Levels(side, c) && Beyond(side, entry, near);
      }
    }
  }

  /** The next level beyond a target; 0 stands for none. */
  method NextLevel(side: Side, anchor: real, c: Conditions) returns (next: real)
    ensures next == 0.0 || Beyond(side, anchor, next)
    ensures forall l :: IsNearest(side, anchor, Levels(side, c), l) ==> next == l
  {
    if side.Long? {
      next := NextAbove(anchor, c.resistance);
    } else {
      next := NextBelow(anchor, c.support);
    }
    forall l | IsNearest(side, anchor, Levels(side, c), l) ensures next == l {
      assert l in Levels(side, c) && Beyond(side, anchor, l);
      assert next in Levels(side, c) && Beyond(side, anchor, next);
    }
  }

  /** The first targets of a pullback: a level no farther than 1.5 risks, and the next level or 2.5 risks. */
  method PullbackTargets(side: Side, entry: real, risk: real, c: Conditions) returns (tp1: real, tp2: real)
    requires risk > 0.0
    ensures if side.Long? then entry < tp1 < tp2 else entry > tp1 > tp2
    ensures Abs(tp1 - entry) <= 1.5 * risk
    ensures entry >= 0.0 ==> tp1 == RiskTarget(side, entry, risk, 1.5) || tp1 in Levels(side, c)
    ensures 0.0 !in Levels(side, c) ==> forall l :: IsNearest(side, entry, Levels(side, c), l) ==>
              tp1 == if Abs(l - entry) < 1.5 * risk then l else RiskTarget(side, entry, risk, 1.5)
    ensures forall l :: IsNearest(side, tp1, Levels(side, c), l) && l > 0.0 ==> tp2 == l
  {
    var fallback1, fallback2 := RiskTarget(side, entry, risk, 1.5), RiskTarget(side, entry, risk, 2.5);
    var near := NearestLevel(side, entry, c);
    tp1, tp2 := CloserTarget(side, entry, fallback1, near), fallback2;
    var next := NextLevel(side, tp1, c);
    if next > 0.0 {
      tp2 := next;
    }
    if (side.Long? && tp2 <= tp1) || (side.Short? && tp2 >= tp1) {
      tp2 := fallback2;
    }
  }

  /**
   A setup's distances: the targets in order, the stop no nearer than the floor and a tick, the reward no less than
   asked.
   */
  predicate WellFormed(s: Setup, side: Side, c: Conditions) {
    && s.Setup?
    && InOrder(side, s.stop, s.entry, s.tp1, s.tp2)
    && s.rr == RewardRatio(s.entry, s.tp1, Abs(s.entry - s.stop)) && s.rr >= MinRR(c.minRR)
    && Abs(s.entry - s.stop) >= Floor(s.entry, c.atr, c.minATRMultiplier, c.minStopPct)
    && Abs(s.entry - s.stop) >= c.tickSize
  }

  datatype Pullback = Pullback(lastClose: real, freshReaction: bool, pullbackLow: real, pullbackHigh: real,
      swings: seq<Swing>)

  function PullbackEntry(side: Side, p: Pullback, c: Conditions): real {
    if p.freshReaction then p.lastClose
    else if side.Long? then p.pullbackLow + Tick(c.tickSize)
    else p.pullbackHigh - Tick(c.tickSize)
  }

  function Reach(base: real, c: Conditions): real {
    Times(QualityStopMultiplier(base, c.tradeCount, c.atrPct, c.volumeRatio), c.atr)
  }

  lemma ReachIsPositive(base: real, c: Conditions)
    requires 0.0 < base <= 3.0 && c.atr > 0.0
    ensures Reach(base, c) > 0.0
  {
  }

  /** The stop a pullback candidate gets. */
  function EnforcedPullbackStop(side: Side, p: Pullback, c: Conditions): real {
    var entry := PullbackEntry(side, p, c);
    EnforceMinSLDistance(
      entry, PullbackStop(side, entry, LastSwing(p.swings, if side.Long? then Low else High), Reach(1.5, c)),
      c.atr, side, c.minATRMultiplier, c.minStopPct).stop
  }

  /** Few signs of trouble, and no floor configured: the stop is as close as the strategy puts it. */
  predicate Calm(c: Conditions) {
    c.atr > 0.0 && c.tradeCount >= 20 && c.atrPct <= 3.0 && c.volumeRatio >= 0.8 && c.minATRMultiplier <= 0.0 &&
    c.minStopPct <= 0.0
  }

  lemma CalmStop(entry: real, stop: real, side: Side, c: Conditions)
    requires Calm(c)
    ensures EnforceMinSLDistance(entry, stop, c.atr, side, c.minATRMultiplier, c.minStopPct).stop == stop
    ensures Reach(1.5, c) == 1.5 * c.atr && Reach(0.5, c) == 0.5 * c.atr
  {
  }

  /**
   A pullback enters at the close of a fresh reaction, or else a tick off the extreme; its stop is at the last swing if
   that is one and a half ATRs away or more, and otherwise just that far.
   */
  lemma PullbackLevels(side: Side, p: Pullback, c: Conditions, entry: real, swing: real, tick: real)
    requires entry == PullbackEntry(side, p, c) && swing == LastSwing(p.swings, if side == Long then Low else High)
    requires tick == if c.tickSize > 0.0 then c.tickSize else 0.0001
    ensures entry == if p.freshReaction then p.lastClose
                     else if side == Long then p.pullbackLow + tick else p.pullbackHigh - tick
    ensures Calm(c) && side == Long ==>
              EnforcedPullbackStop(side, p, c) == if 0.0 < swing <= entry - 1.5 * c.atr then swing
                                                  else entry - 1.5 * c.atr
    ensures Calm(c) && side == Short ==>
              EnforcedPullbackStop(side, p, c) == if entry + 1.5 * c.atr <= swing then swing else entry + 1.5 * c.atr
  {
    if Calm(c) {
      CalmStop(entry, PullbackStop(side, entry, swing, Reach(1.5, c)), side, c);
    }
  }

  /** A first target that pays too little gives way to 1.5 risks; then only a demand above 1.5 fails. */
  method MeetRatio(side: Side, entry: real, risk: real, first: real, second: real, minRR: real)
    returns (ok: bool, tp1: real, tp2: real, rr: real)
    requires risk > 0.0 && Abs(first - entry) <= 1.5 * risk
    requires if side.Long? then entry < first < second else entry > first > second
    ensures if side.Long? then entry < tp1 < tp2 else entry > tp1 > tp2
    ensures rr == RewardRatio(entry, tp1, risk) && (ok <==> rr >= minRR)
    ensures tp1 == if RewardRatio(entry, first, risk) >= minRR then first else RiskTarget(side, entry, risk, 1.5)
    ensures Beyond(side, tp1, second) ==> tp2 == second
    ensures ok <==> minRR <= 1.5
  {
    RatioAtMost(entry, first, risk);
    FallbackRatio(side, entry, risk);
    tp1, tp2 := first, second;
    rr := RewardRatio(entry, tp1, risk);
    if rr < minRR {
      tp1 := RiskTarget(side, entry, risk, 1.5);
      if (side.Long? && tp2 <= tp1) || (side.Short? && tp2 >= tp1) {
        tp2 := RiskTarget(side, entry, risk, 2.5);
      }
      rr := RewardRatio(entry, tp1, risk);
    }
    ok := rr >= minRR;
  }

  /** The first target taken: the nearest level if it lies within 1.5 risks and pays enough, or else 1.5 risks. */
  ghost predicate TakesNearest(side: Side, entry: real, risk: real, c: Conditions, tp1: real)
    requires risk > 0.0
  {
    forall l :: IsNearest(side, entry, Levels(side, c), l) ==>
      tp1 == if Abs(l - entry) < 1.5 * risk && RewardRatio(entry, l, risk) >= MinRR(c.minRR) then l
             else RiskTarget(side, entry, risk, 1.5)
  }

  /** A long on a price of one with an ATR of one: the stop is half a unit below zero, and nothing refuses the setup. */
  lemma PullbackStopBelowZero(p: Pullback, c: Conditions)
    requires p.freshReaction && p.lastClose == 1.0 && p.swings == []
    requires c.marketOK && c.atr == 1.0 && c.tradeCount >= 20 && c.atrPct <= 3.0 && c.volumeRatio >= 0.8
    requires c.tickSize <= 1.5 && c.minATRMultiplier <= 0.0 && c.minStopPct <= 0.0 && c.minRR <= 1.5
    ensures EnforcedPullbackStop(Long, p, c) == -0.5
    ensures Abs(PullbackEntry(Long, p, c) - EnforcedPullbackStop(Long, p, c)) >= c.tickSize && MinRR(c.minRR) <= 1.5
  {
    assert Reach(1.5, c) == 1.5;
    assert Floor(1.0, 1.0, c.minATRMultiplier, c.minStopPct) == 0.0;
  }

  /** Both targets of a pullback and the ratio they give. */
  method PullbackPlan(side: Side, entry: real, risk: real, c: Conditions)
    returns (ok: bool, tp1: real, tp2: real, rr: real)
    requires risk > 0.0
    ensures if side.Long? then entry < tp1 < tp2 else entry > tp1 > tp2
    ensures rr == RewardRatio(entry, tp1, risk) && (ok <==> rr >= MinRR(c.minRR))
    ensures Abs(tp1 - entry) <= 1.5 * risk
    ensures 0.0 !in Levels(side, c) ==> TakesNearest(side, entry, risk, c, tp1)
    ensures ok <==> MinRR(c.minRR) <= 1.5
  {
    var first, second := PullbackTargets(side, entry, risk, c);
    ok, tp1, tp2, rr := MeetRatio(side, entry, risk, first, second, MinRR(c.minRR));
  }

  /**
    * With the market filters passed, a pullback is generated exactly when its stop is a tick away or more and the
    * ratio asked for is at most 1.5: asked for more, the generator never answers.
    */
  method GenerateTrendPullback(side: Side, p: Pullback, c: Conditions) returns (s: Setup)
    ensures s.Setup? ==> WellFormed(s, side, c)
    ensures s.Setup? ==>
              && s.entry == PullbackEntry(side, p, c) && s.stop == EnforcedPullbackStop(side, p, c)
              && s.entryType == (if p.freshReaction then AtMarket else AtRetest)
              && Abs(s.tp1 - s.entry) <= 1.5 * Abs(s.entry - s.stop)
    ensures s.Setup? && 0.0 !in Levels(side, c) ==> TakesNearest(side, s.entry, Abs(s.entry - s.stop), c, s.tp1)
    ensures s == NoSetup(MarketRejected) <==> !c.marketOK || c.atr <= 0.0
    ensures c.marketOK && c.atr > 0.0 ==>
              var tooClose := Abs(PullbackEntry(side, p, c) - EnforcedPullbackStop(side, p, c)) < c.tickSize;
              && (s == NoSetup(EntryStopTooClose) <==> tooClose)
              && (s == NoSetup(RRBelowMin) <==> !tooClose && MinRR(c.minRR) > 1.5)
              && (s.Setup? <==> !tooClose && MinRR(c.minRR) <= 1.5)
  {
    if !c.marketOK || c.atr <= 0.0 {
      return NoSetup(MarketRejected);
    }
    var entry := p.lastClose;
    var entryType := AtMarket;
    if !p.freshReaction {
      entryType := AtRetest;
      entry := if side.Long? then p.pullbackLow + Tick(c.tickSize) else p.pullbackHigh - Tick(c.tickSize);
    }
    var swing := LatestSwing(p.swings, side);
    ReachIsPositive(1.5, c);
    var stop := PullbackStop(side, entry, swing, Reach(1.5, c));
    stop := EnforceMinSLDistance(entry, stop, c.atr, side, c.minATRMultiplier, c.minStopPct).stop;
    if Abs(entry - stop) < c.tickSize {
      return NoSetup(EntryStopTooClose);
    }
    var risk := Abs(entry - stop);
    if risk <= 0.0 {
      return NoSetup(InvalidRiskDistance);
    }
    var ok, tp1, tp2, rr := PullbackPlan(side, entry, risk, c);
    if !LosingSide(side, entry, stop) {
      return NoSetup(StopWrongSide);
    }
    if LosingSide(side, entry, tp1) || tp1 == entry {
      return NoSetup(TargetWrongSide);
    }
    if !ok {
      return NoSetup(RRBelowMin);
    }
    s := Setup(entryType, entry, stop, tp1, tp2, rr);
  }

  datatype Breakout = Breakout(lastClose: real, level: real, priorLevel: real, retestExtreme: real)

  function BreakoutEntry(side: Side, b: Breakout, c: Conditions): real {
    if Abs(b.lastClose - b.level) <= 0.4 * c.atr then b.lastClose
    else if side.Long? then b.level + Tick(c.tickSize)
    else b.level - Tick(c.tickSize)
  }

  function EnforcedBreakoutStop(side: Side, b: Breakout, c: Conditions): real {
    var entry := BreakoutEntry(side, b, c);
    EnforceMinSLDistance(entry, BreakoutStop(side, entry, b.retestExtreme, b.level, Reach(0.5, c)),
                         c.atr, side, c.minATRMultiplier, c.minStopPct).stop
  }

  /**
   A breakout enters at the close within 0.4 ATRs of the level, or else a tick beyond it; its stop is behind the retest
   and half an ATR behind the level, or half an ATR behind the entry when neither is behind that.
   */
  lemma BreakoutLevels(side: Side, b: Breakout, c: Conditions, entry: real, tick: real)
    requires entry == BreakoutEntry(side, b, c) && tick == if c.tickSize > 0.0 then c.tickSize else 0.0001
    ensures entry == if b.level - 0.4 * c.atr <= b.lastClose <= b.level + 0.4 * c.atr then b.lastClose
                     else if side == Long then b.level + tick else b.level - tick
    ensures Calm(c) && side == Long ==>
              var stop := EnforcedBreakoutStop(side, b, c);
              if b.retestExtreme < entry || b.level - 0.5 * c.atr < entry
              then stop == b.retestExtreme <= b.level - 0.5 * c.atr || stop == b.level - 0.5 * c.atr <= b.retestExtreme
              else stop == entry - 0.5 * c.atr
    ensures Calm(c) && side == Short ==>
              var stop := EnforcedBreakoutStop(side, b, c);
              if b.retestExtreme > entry || b.level + 0.5 * c.atr > entry
              then stop == b.retestExtreme >= b.level + 0.5 * c.atr || stop == b.level + 0.5 * c.atr >= b.retestExtreme
              else stop == entry + 0.5 * c.atr
  {
    if Calm(c) {
      CalmStop(entry, BreakoutStop(side, entry, b.retestExtreme, b.level, Reach(0.5, c)), side, c);
    }
  }

  /**
   A breakout's first target: the nearest level, or with none the move projected from the prior level, or 1.5 risks.
   */
  ghost predicate TakesLevelOrProjection(side: Side, entry: real, risk: real, b: Breakout, c: Conditions, tp1: real) {
    && (forall l :: IsNearest(side, entry, Levels(side, c), l) && l > 0.0 ==> tp1 == l)
    && ((forall l :: l in Levels(side, c) ==> !Beyond(side, entry, l)) ==>
          var projected := b.level + (b.level - b.priorLevel);
          tp1 == if Beyond(side, entry, projected) && projected != 0.0 then projected
                 else RiskTarget(side, entry, risk, 1.5))
  }

  /** The next level, or the breakout projected from the prior level, or 1.5 risks. */
  method BreakoutTarget(side: Side, entry: real, risk: real, b: Breakout, c: Conditions) returns (tp1: real)
    requires risk > 0.0
    ensures if side.Long? then entry < tp1 else entry > tp1
    ensures entry >= 0.0 && 0.0 !in Levels(side, c) ==> TakesLevelOrProjection(side, entry, risk, b, c, tp1)
  {
    var projected := b.level + (b.level - b.priorLevel);
    if side.Long? {
      var next := NearestAbove(entry, c.resistance);
      tp1 := if next > entry then next else projected;
      if tp1 <= entry {
        tp1 := entry + 1.5 * risk;
      }
    } else {
      var next := NearestBelow(entry, c.support);
      tp1 := if next > 0.0 && next < entry then next else projected;
      if tp1 >= entry || tp1 == 0.0 {
        tp1 := entry - 1.5 * risk;
      }
    }
  }

  /** Where a breakout is entered and where its stop goes. */
  method PlaceBreakout(side: Side, b: Breakout, c: Conditions) returns (entry: real, entryType: EntryType, stop: real)
    requires c.atr > 0.0
    ensures entry == BreakoutEntry(side, b, c) && stop == EnforcedBreakoutStop(side, b, c)
    ensures LosingSide(side, entry, stop)
    ensures entryType == if Abs(b.lastClose - b.level) <= 0.4 * c.atr then AtMarket else AtRetest
  {
    entry, entryType := b.lastClose, AtMarket;
    if Abs(b.lastClose - b.level) > 0.4 * c.atr {
      entryType := AtRetest;
      entry := if side.Long? then b.level + Tick(c.tickSize) else b.level - Tick(c.tickSize);
    }
    ReachIsPositive(0.5, c);
    stop := BreakoutStop(side, entry, b.retestExtreme, b.level, Reach(0.5, c));
    stop := EnforceMinSLDistance(entry, stop, c.atr, side, c.minATRMultiplier, c.minStopPct).stop;
  }

  /**
   With the market filters passed, a breakout is refused for a stop within a tick, a long's stop at zero or below, or
   its ratio.
   */
  method GenerateBreakoutRetest(side: Side, b: Breakout, c: Conditions) returns (s: Setup)
    ensures s.Setup? ==> WellFormed(s, side, c)
    ensures s.Setup? ==>
              && s.entry == BreakoutEntry(side, b, c) && s.stop == EnforcedBreakoutStop(side, b, c)
              && (side.Long? ==> s.stop > 0.0)
              && s.tp2 == s.entry + 1.5 * (s.tp1 - s.entry)
              && s.entryType == (if Abs(b.lastClose - b.level) <= 0.4 * c.atr then AtMarket else AtRetest)
    ensures s.Setup? && s.entry >= 0.0 && 0.0 !in Levels(side, c) ==>
              TakesLevelOrProjection(side, s.entry, Abs(s.entry - s.stop), b, c, s.tp1)
    ensures s == NoSetup(MarketRejected) <==> !c.marketOK || c.atr <= 0.0
    ensures c.marketOK && c.atr > 0.0 ==>
              var tooClose := Abs(BreakoutEntry(side, b, c) - EnforcedBreakoutStop(side, b, c)) < c.tickSize;
              && (s == NoSetup(EntryStopTooClose) <==> tooClose)
              && (s == NoSetup(StopWrongSide) <==> !tooClose && side.Long? && EnforcedBreakoutStop(side, b, c) <= 0.0)
    ensures s != NoSetup(InvalidRiskDistance) && s != NoSetup(TargetWrongSide)
  {
    if !c.marketOK || c.atr <= 0.0 {
      return NoSetup(MarketRejected);
    }
    var entry, entryType, stop := PlaceBreakout(side, b, c);
    if Abs(entry - stop) < c.tickSize {
      return NoSetup(EntryStopTooClose);
    }
    var risk := Abs(entry - stop);
    if risk <= 0.0 {
      return NoSetup(InvalidRiskDistance);
    }
    var tp1 := BreakoutTarget(side, entry, risk, b, c);
    var tp2 := if side.Long? then entry + 1.5 * (tp1 - entry) else entry - 1.5 * (entry - tp1);
    if (side.Long? && tp2 <= tp1) || (side.Short? && tp2 >= tp1) {
      tp2 := if side.Long? then entry + 2.0 * (tp1 - entry) else entry - 2.0 * (entry - tp1);
    }
    if (side.Long? && stop <= 0.0) || !LosingSide(side, entry, stop) {
      return NoSetup(StopWrongSide);
    }
    if LosingSide(side, entry, tp1) || tp1 == entry {
      return NoSetup(TargetWrongSide);
    }
    var rr := RewardRatio(entry, tp1, risk);
    if rr < MinRR(c.minRR) {
      return NoSetup(RRBelowMin);
    }
    s := Setup(entryType, entry, stop, tp1, tp2, rr);
  }
}
