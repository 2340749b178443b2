/** The two Python built-ins the handler applies to engine output:
    `int(x)` on a float and `round(x, 3)`, both over exact reals. */
module PyNumeric {

  /** `int(r)` on a float: truncation toward zero. */
  function PyInt(r: real): (n: int)
    ensures 0.0 <= r ==> n as real <= r < n as real + 1.0
    ensures r < 0.0 ==> n as real - 1.0 < r <= n as real
  {
    if 0.0 <= r then r.Floor else -((-r).Floor)
  }

  /** The integer nearest to `k`, ties going to the even neighbour
      (the rounding mode of Python's `round`). */
  function RoundHalfEven(k: real): (n: int)
    ensures k - 0.5 <= n as real <= k + 0.5
    ensures n as real == k - 0.5 || n as real == k + 0.5 ==> n % 2 == 0
  {
    var f := k.Floor;
    var frac := k - f as real;
    if frac < 0.5 then f
    else if frac > 0.5 then f + 1
    else if f % 2 == 0 then f
    else f + 1
  }

  /** A real with at most three decimal places. */
  predicate ThreeDecimals(r: real) {
    (r * 1000.0).Floor as real == r * 1000.0
  }

  /** `round(x, 3)`: the nearest three-decimal value, ties to even. */
  function Round3(x: real): (r: real)
    ensures ThreeDecimals(r)
    ensures x - 0.0005 <= r <= x + 0.0005
    ensures r == x - 0.0005 || r == x + 0.0005 ==> (r * 1000.0).Floor % 2 == 0
  {
    RoundHalfEven(x * 1000.0) as real / 1000.0
  }

  /** Rounding a value that already has three decimals leaves it alone, so
      rounding twice is rounding once. */
  lemma Round3Idempotent(x: real)
    ensures ThreeDecimals(x) ==> Round3(x) == x
    ensures Round3(Round3(x)) == Round3(x)
  {
  }

  /** A score in [0, 1] stays in [0, 1] after rounding. */
  lemma Round3UnitInterval(x: real)
    requires 0.0 <= x <= 1.0
    ensures 0.0 <= Round3(x) <= 1.0
  {
  }

  /** Rounding keeps the order of scores. */
  lemma Round3Monotone(x: real, y: real)
    requires x <= y
    ensures Round3(x) <= Round3(y)
  {
    var nx, ny := RoundHalfEven(x * 1000.0), RoundHalfEven(y * 1000.0);
    if nx > ny {
      assert nx == ny + 1;
      assert x * 1000.0 == y * 1000.0;
    }
  }
}
