/** The stop and target a simulated fill is given, from the plan and from where it really filled. */
module FillLevels {
  import opened Numbers
  import opened Domain
  import opened Rounding

  datatype FillPlan = FillPlan(
    symbol: string, side: Side, qty: real, entryPrice: real, stopLoss: real, takeProfits: seq<real>)

  /** The share of the planned entry a fill may be off before its levels move with it. */
  const DRIFT := 0.005

  function Risk(p: FillPlan): real {
    Abs(p.entryPrice - p.stopLoss)
  }

  /** `distance` from a price, to the winning side of a long when positive. */
  function Beyond(side: Side, price: real, distance: real): real {
    if side.Long? then price + distance else price - distance
  }

  /** The plan's first target, or twice the risk from the entry when it has none but has a stop. */
  function PlannedTarget(p: FillPlan): real {
    var first := if p.takeProfits != [] then p.takeProfits[0] else 0.0;
    if first <= 0.0 && p.stopLoss > 0.0 then Beyond(p.side, p.entryPrice, Risk(p) * 2.0) else first
  }

  /** The fill is so far from the plan that its levels are placed again. */
  predicate Drifted(p: FillPlan, fill: real) {
    p.entryPrice > 0.0 && p.stopLoss > 0.0 && PlannedTarget(p) > 0.0 &&
    Abs(fill - p.entryPrice) / p.entryPrice > DRIFT
  }

  function StopLevel(p: FillPlan, fill: real): real {
    if Drifted(p, fill) then Round8(Beyond(p.side, fill, -Risk(p))) else p.stopLoss
  }

  function TargetLevel(p: FillPlan, fill: real): real {
    if Drifted(p, fill) then Round8(Beyond(p.side, fill, Abs(PlannedTarget(p) - p.entryPrice))) else PlannedTarget(p)
  }

  // ---------------------------------------------------------------- what the levels promise

  /** A level on the losing side of a price; `Ahead` is the winning side. */
  predicate Behind(side: Side, level: real, price: real) {
    if side.Long? then level < price else level > price
  }

  predicate Ahead(side: Side, level: real, price: real) {
    Behind(side, price, level)
  }

  /** A plan as the risk engine approves it: positive prices, the stop behind the entry, the first target ahead. */
  predicate WellPlaced(p: FillPlan) {
    p.entryPrice > 0.0 && p.stopLoss > 0.0 && Behind(p.side, p.stopLoss, p.entryPrice) &&
    (p.takeProfits != [] && p.takeProfits[0] > 0.0 ==> Ahead(p.side, p.takeProfits[0], p.entryPrice))
  }

  lemma RoundIsNear(x: real)
    ensures Abs(Round8(x) - x) <= 0.5 / SCALE
  {
    var n := RoundHalfAway(x * SCALE);
    assert Round8(x) == n as real / SCALE;
    assert (Round8(x) - x) * SCALE == n as real - x * SCALE;
  }

  lemma QuotientAbove(d: real, q: real, e: real, k: real)
    requires e > 0.0 && q * e == d
    ensures q > k <==> d > k * e
  {
    if q <= k {
      MulMono(q, k, e);
    } else {
      MulPos(q - k, e);
      assert (q - k) * e == q * e - k * e;
    }
  }

  lemma DriftInPrice(p: FillPlan, fill: real)
    requires p.entryPrice > 0.0
    ensures Abs(fill - p.entryPrice) / p.entryPrice > DRIFT <==> Abs(fill - p.entryPrice) > DRIFT * p.entryPrice
  {
    var d := Abs(fill - p.entryPrice);
    DivMulCancel(d, p.entryPrice);
    QuotientAbove(d, d / p.entryPrice, p.entryPrice, DRIFT);
  }

  /**
   Wherever the fill, its levels keep the planned distances from it or stay put, to half a unit of the eighth decimal.
   */
  lemma LevelsKeepDistances(p: FillPlan, fill: real)
    requires WellPlaced(p)
    ensures if Drifted(p, fill)
            then Abs(StopLevel(p, fill) - Beyond(p.side, fill, -Risk(p))) <= 0.5 / SCALE &&
                 Abs(TargetLevel(p, fill) - Beyond(p.side, fill, Abs(PlannedTarget(p) - p.entryPrice))) <= 0.5 / SCALE
            else StopLevel(p, fill) == p.stopLoss && TargetLevel(p, fill) == PlannedTarget(p)
    ensures Ahead(p.side, PlannedTarget(p), p.entryPrice)
  {
    RoundIsNear(Beyond(p.side, fill, -Risk(p)));
    RoundIsNear(Beyond(p.side, fill, Abs(PlannedTarget(p) - p.entryPrice)));
  }

  /** The plan's first target when that is a price; or, given a stop, the entry plus twice the way from it. */
  lemma PlannedTargetIs(p: FillPlan)
    ensures p.takeProfits != [] && p.takeProfits[0] > 0.0 ==> PlannedTarget(p) == p.takeProfits[0]
    ensures (p.takeProfits == [] || p.takeProfits[0] <= 0.0) && p.stopLoss > 0.0 ==>
              var way := Abs(p.entryPrice - p.stopLoss);
              PlannedTarget(p) == if p.side == Long then p.entryPrice + (way + way) else p.entryPrice - (way + way)
    ensures (p.takeProfits == [] || p.takeProfits[0] <= 0.0) && p.stopLoss <= 0.0 ==> PlannedTarget(p) <= 0.0
  {
  }

  /** A fill more than half a percent off its plan takes both levels along; a nearer one leaves them where they are. */
  lemma LevelsFollowFill(p: FillPlan, fill: real)
    requires WellPlaced(p) && PlannedTarget(p) > 0.0
    ensures if fill > 1.005 * p.entryPrice || fill < 0.995 * p.entryPrice
            then StopLevel(p, fill) == Round8(fill + (p.stopLoss - p.entryPrice)) &&
                 TargetLevel(p, fill) == Round8(fill + (PlannedTarget(p) - p.entryPrice))
            else StopLevel(p, fill) == p.stopLoss && TargetLevel(p, fill) == PlannedTarget(p)
  {
    DriftInPrice(p, fill);
    FollowedFrom(p, fill);
  }

  lemma FollowedFrom(p: FillPlan, fill: real)
    requires WellPlaced(p)
    ensures Beyond(p.side, fill, -Risk(p)) == fill + (p.stopLoss - p.entryPrice)
    ensures Beyond(p.side, fill, Abs(PlannedTarget(p) - p.entryPrice)) == fill + (PlannedTarget(p) - p.entryPrice)
  {
  }

  /** Without a planned price, stop and target the levels stay where they are. */
  lemma NothingToFollow(p: FillPlan, fill: real)
    requires p.entryPrice <= 0.0 || p.stopLoss <= 0.0 || PlannedTarget(p) <= 0.0
    ensures StopLevel(p, fill) == p.stopLoss && TargetLevel(p, fill) == PlannedTarget(p)
  {
  }

  ghost predicate StopAlwaysBehind(p: FillPlan) {
    forall fill: real :: fill > 0.0 ==> Behind(p.side, StopLevel(p, fill), fill)
  }

  /**
    * A fill's stop is behind it wherever it fills exactly when the planned stop is farther off than the drift that
    * leaves the levels alone. A closer stop is behind the planned entry but not behind every fill near it.
    */
  lemma StopBehindExactly(p: FillPlan)
    requires WellPlaced(p) && PlannedTarget(p) > 0.0 && Risk(p) > 0.5 / SCALE
    ensures StopAlwaysBehind(p) <==> Risk(p) > DRIFT * p.entryPrice
  {
    if Risk(p) > DRIFT * p.entryPrice {
      forall fill: real | fill > 0.0
        ensures Behind(p.side, StopLevel(p, fill), fill)
      {
        DriftInPrice(p, fill);
        LevelsKeepDistances(p, fill);
      }
    } else {
      DriftInPrice(p, p.stopLoss);
      assert !Behind(p.side, StopLevel(p, p.stopLoss), p.stopLoss);
    }
  }

  /**
   A long planned at 100 with its stop at 99.8, filled at 99.7: the stop is above the fill, and the next check hits
   it.
   */
  lemma FilledBeyondItsStop(p: FillPlan)
    requires p.side.Long? && p.entryPrice == 100.0 && p.stopLoss == 99.8 && p.takeProfits == [101.0]
    ensures WellPlaced(p) && StopLevel(p, 99.7) == 99.8
  {
  }
}
