/** The position monitor: every price tick is followed by the daily-loss kill switch. */
module Monitors {
  import opened Domain
  import opened BrokerModel
  import opened BrokerSafety
  import opened PaperBrokers
  import Folds

  /**
   The daily loss, realized and open, has reached the configured share of equity; a share of zero or less turns the
   switch off.
   */
  predicate KillDue(maxDailyLossPct: real, w: Wallet, unrealized: real) {
    maxDailyLossPct > 0.0 &&
    w.dailyLoss + (if unrealized < 0.0 then -unrealized else 0.0) >= (w.balance + unrealized) * maxDailyLossPct / 100.0
  }

  /** Either the realized loss of the day alone is that much of the equity, or it is with the open loss on top. */
  lemma KillDueExactly(maxDailyLossPct: real, w: Wallet, unrealized: real)
    ensures KillDue(maxDailyLossPct, w, unrealized) <==>
            var equity := w.balance + unrealized;
            maxDailyLossPct > 0.0 &&
            (maxDailyLossPct * equity <= 100.0 * w.dailyLoss ||
             maxDailyLossPct * equity <= 100.0 * (w.dailyLoss - unrealized))
  {
  }

  class Monitor {
    const broker: PaperBroker
    const maxDailyLossPct: real

    constructor (broker: PaperBroker, maxDailyLossPct: real)
      ensures this.broker == broker && this.maxDailyLossPct == maxDailyLossPct
    {
      this.broker, this.maxDailyLossPct := broker, maxDailyLossPct;
    }

    /** `unrealized` is the broker's open profit after the tick, whatever it is. */
    method Update(symbol: string, price: real, unrealized: real) returns (killed: bool, ghost visits: seq<OrderKey>)
      modifies broker
      ensures Folds.Covers(visits, old(broker.openOrders).Keys)
      ensures var ticked := Step(broker.cfg, old(broker.Snapshot()), UpdatePrice(symbol, price, visits));
              (killed <==> KillDue(maxDailyLossPct, ticked.wallet, unrealized)) &&
              (!killed ==> broker.Snapshot() == ticked) &&
              (killed && Keyed(ticked.book.positions) ==>
                 Dead(broker.Snapshot()) && broker.Snapshot().book.orders == map[])
    {
      visits := broker.UpdatePrice(symbol, price);
      killed := CheckKillSwitch(unrealized);
    }

    method CheckKillSwitch(unrealized: real) returns (killed: bool)
      modifies broker
      ensures killed <==> KillDue(maxDailyLossPct, old(broker.Snapshot()).wallet, unrealized)
      ensures !killed ==> broker.Snapshot() == old(broker.Snapshot())
      ensures killed && Keyed(old(broker.openPositions)) ==> Dead(broker.Snapshot()) && broker.openOrders == map[]
    {
      if maxDailyLossPct <= 0.0 {
        return false;
      }
      var totalDailyLoss := broker.dailyLoss;
      if unrealized < 0.0 {
        totalDailyLoss := totalDailyLoss + -unrealized;
      }
      var maxDailyLoss := (broker.balance + unrealized) * maxDailyLossPct / 100.0;
      if totalDailyLoss < maxDailyLoss {
        return false;
      }
      Kill();
      return true;
    }

    /** Halt, then close everything. */
    method Kill()
      modifies broker
      ensures Keyed(old(broker.openPositions)) ==> Dead(broker.Snapshot()) && broker.openOrders == map[]
    {
      broker.SetHalted();
      ghost var s := broker.Snapshot();
      ghost var order := broker.EmergencyCloseAll();
      if Keyed(s.book.positions) {
        EmergencyFlattens(broker.cfg, s, order);
      }
    }
  }
}
