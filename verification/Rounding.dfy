/**
  Python's `round(x, k)` on reals: the nearest multiple of 10^-k, ties to the even multiple.
  Floats are modelled as `real`, so the only rounding in the project is the rounding the source asks for.
 */
module Rounding {

  function Nearest(x: real): (n: int)
    ensures -0.5 <= n as real - x <= 0.5
    ensures (n as real - x == 0.5 || n as real - x == -0.5) ==> n % 2 == 0
  {
    var below := x.Floor;
    var excess := x - below as real;
    if excess < 0.5 then below
    else if excess > 0.5 then below + 1
    else if below % 2 == 0 then below else below + 1
  }

  function Round2(x: real): (r: real)
    ensures -0.005 <= r - x <= 0.005
  {
    Nearest(x * 100.0) as real / 100.0
  }

  function Round4(x: real): (r: real)
    ensures -0.00005 <= r - x <= 0.00005
  {
    Nearest(x * 10000.0) as real / 10000.0
  }

  function Round6(x: real): (r: real)
    ensures -0.0000005 <= r - x <= 0.0000005
  {
    Nearest(x * 1000000.0) as real / 1000000.0
  }

  /** Python's `int(x)`: truncation toward zero. */
  function Truncate(x: real): (n: int)
    ensures x >= 0.0 ==> n as real <= x < n as real + 1.0
    ensures x <= 0.0 ==> n as real - 1.0 < x <= n as real
  {
    if x >= 0.0 then x.Floor else -((-x).Floor)
  }

  /** Rounding lands on the grid: on the multiple whose number is nearest, the even one of two. */
  lemma RoundsToTheGrid(x: real, n: int)
    ensures Round2(x) == n as real / 100.0 <==> n == Nearest(x * 100.0)
    ensures Round4(x) == n as real / 10000.0 <==> n == Nearest(x * 10000.0)
    ensures Round6(x) == n as real / 1000000.0 <==> n == Nearest(x * 1000000.0)
  {
  }

  /** The two clauses of `Nearest` pin its value down. */
  lemma NearestIsUnique(x: real, m: int)
    requires -0.5 <= m as real - x <= 0.5
    requires (m as real - x == 0.5 || m as real - x == -0.5) ==> m % 2 == 0
    ensures m == Nearest(x)
  {
  }

  lemma NearestIsMonotone(x: real, y: real)
    requires x <= y
    ensures Nearest(x) <= Nearest(y)
  {
  }

  lemma NearestIsOdd(x: real)
    ensures Nearest(-x) == -Nearest(x)
  {
    NearestIsUnique(-x, -Nearest(x));
  }

  lemma NearestOfInteger(n: int)
    ensures Nearest(n as real) == n
  {
    NearestIsUnique(n as real, n);
  }
}
