/** Exact real arithmetic shared by the ledgers, the sizing engine and the order book. */
module Numbers {

  function Abs(x: real): real {
    if x < 0.0 then -x else x
  }

  function Max(x: real, y: real): real {
    if x < y then y else x
  }

  function Min(x: real, y: real): real {
    if y < x then y else x
  }

  /** Rounding to the nearest integer, halves away from zero. */
  function RoundHalfAway(x: real): (n: int)
    ensures Abs(x - n as real) <= 0.5
  {
    if x >= 0.0 then (x + 0.5).Floor else -((0.5 - x).Floor)
  }

  /** A half goes away from zero, whichever side of it. */
  lemma HalvesGoAway(x: real, n: int)
    ensures RoundHalfAway(x) == n <==>
            if x >= 0.0 then n as real - 0.5 <= x < n as real + 0.5 else n as real - 0.5 < x <= n as real + 0.5
  {
    var m := RoundHalfAway(x);
    if x >= 0.0 {
      assert m as real <= x + 0.5 < (m + 1) as real;
    } else {
      assert -m as real <= 0.5 - x < (1 - m) as real;
    }
  }

  lemma RoundOfInteger(n: int)
    ensures RoundHalfAway(n as real) == n
  {
  }

  /** A share of an amount given in basis points. */
  function Bps(amount: real, bps: real): real {
    amount * bps / 10000.0
  }

  lemma MulMono(a: real, b: real, c: real)
    requires a <= b && 0.0 <= c
    ensures a * c <= b * c
  {
  }

  lemma MulPos(a: real, b: real)
    requires 0.0 < a && 0.0 < b
    ensures 0.0 < a * b
  {
  }

  lemma DivMulCancel(a: real, b: real)
    requires b != 0.0
    ensures a / b * b == a
  {
  }
}
