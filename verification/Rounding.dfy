/** Eight-decimal rounding: the grid all simulator money lives on. */
module Rounding {
  import opened Numbers

  const SCALE: real := 100000000.0

  /** Rounding to eight decimals, halves away from zero. */
  function Round8(x: real): real {
    RoundHalfAway(x * SCALE) as real / SCALE
  }

  predicate Whole(p: real) {
    p.Floor as real == p
  }

  /** A whole multiple of 0.00000001. */
  predicate OnGrid(x: real) {
    Whole(x * SCALE)
  }

  lemma GridPoint(n: int)
    ensures OnGrid(n as real / SCALE)
  {
    assert n as real / SCALE * SCALE == n as real;
  }

  lemma RoundedIsOnGrid(x: real)
    ensures OnGrid(Round8(x))
  {
    GridPoint(RoundHalfAway(x * SCALE));
  }

  /** Rounding is the identity exactly on the grid. */
  lemma RoundIsIdentity(x: real)
    ensures Round8(x) == x <==> OnGrid(x)
  {
    if OnGrid(x) {
      RoundOfInteger((x * SCALE).Floor);
      assert x * SCALE / SCALE == x;
    } else {
      RoundedIsOnGrid(x);
    }
  }

  lemma IntegersAreWhole(n: int)
    ensures Whole(n as real)
  {
  }

  lemma GridSum(x: real, y: real)
    requires OnGrid(x) && OnGrid(y)
    ensures OnGrid(x + y) && OnGrid(x - y)
  {
    var a, b := (x * SCALE).Floor, (y * SCALE).Floor;
    IntegersAreWhole(a + b);
    IntegersAreWhole(a - b);
    assert (x + y) * SCALE == (a + b) as real;
    assert (x - y) * SCALE == (a - b) as real;
  }

  /** Booking a rounded amount onto a balance is exact precisely when the balance started on the grid. */
  lemma BookingIsExact(balance: real, amount: real)
    requires OnGrid(amount)
    ensures Round8(balance + amount) == balance + amount <==> OnGrid(balance)
    ensures Round8(balance - amount) == balance - amount <==> OnGrid(balance)
  {
    RoundIsIdentity(balance + amount);
    RoundIsIdentity(balance - amount);
    if OnGrid(balance) {
      GridSum(balance, amount);
    }
    if OnGrid(balance + amount) {
      GridSum(balance + amount, amount);
      assert balance + amount - amount == balance;
    }
    if OnGrid(balance - amount) {
      GridSum(balance - amount, amount);
      assert balance - amount + amount == balance;
    }
  }
}
