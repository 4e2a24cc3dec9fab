// The fixed-point arithmetic of the contracts and the constant-product quotes of the pool.

module DikeMath {
  import opened DikeTypes

  /** Machine division: the quotient is truncated toward zero. */
  function TruncDiv(a: int, b: int): int
    requires b != 0
  {
    if a >= 0 then
      if b > 0 then a / b else -(a / -b)
    else
      if b > 0 then -(-a / b) else -a / -b
  }

  function Bps(amount: int, rate: nat): int {
    TruncDiv(amount * rate, BPS_DENOMINATOR)
  }

  function Proportional(amount: int, shares: int, total: int): Result<int> {
    if total == 0 then Err(InvalidAmount) else Ok(TruncDiv(amount * shares, total))
  }

  function SplitFee(amount: int, feeBps: nat): (int, int) {
    var fee := Bps(amount, feeBps);
    (fee, amount - fee)
  }

  function CollateralLimit(amount: int): Result<int> {
    if amount < 0 then Err(InvalidAmount) else Ok(Bps(amount, CHILD_COLLATERAL_BPS))
  }

  function InvalidRefund(amount: int): int {
    TruncDiv(amount, 2)
  }

  /** A share of a non-negative amount lies between zero and the amount. */
  lemma BpsBounds(amount: int, rate: nat)
    requires 0 <= amount && rate <= BPS_DENOMINATOR
    ensures 0 <= Bps(amount, rate) <= amount
    ensures Bps(amount, rate) * BPS_DENOMINATOR <= amount * rate < (Bps(amount, rate) + 1) * BPS_DENOMINATOR
  {
    assert 0 <= amount * rate <= amount * BPS_DENOMINATOR;
  }

  // ---------------------------------------------------------------- division

  lemma Euclid(n: int, t: int)
    requires t > 0
    ensures n / t * t <= n < n / t * t + t
  {
    assert n == t * (n / t) + n % t;
  }

  lemma AtLeastOnce(d: int, t: int)
    requires t > 0
    ensures d >= 1 ==> d * t >= t
  {
  }

  lemma QuotientAtMost(n: int, t: int, x: int)
    requires t > 0 && n <= x * t
    ensures n / t <= x
  {
    var k := n / t;
    Euclid(n, t);
    AtLeastOnce(k - x, t);
    assert (k - x) * t == k * t - x * t;
  }

  lemma QuotientAtLeast(n: int, t: int, x: int)
    requires t > 0 && x * t <= n
    ensures x <= n / t
  {
    var k := n / t;
    Euclid(n, t);
    AtLeastOnce(x - k, t);
    assert (x - k) * t == x * t - k * t;
  }

  lemma ProductNonNegative(x: int, y: int)
    requires x >= 0 && y >= 0
    ensures x * y >= 0
  {
  }

  /** Dividing by a factor undoes the multiplication. */
  lemma DivideBack(x: int, y: int)
    requires y > 0 && x >= 0
    ensures TruncDiv(x * y, y) == x
  {
    ProductNonNegative(x, y);
    QuotientAtMost(x * y, y, x);
    QuotientAtLeast(x * y, y, x);
  }

  lemma ProductMonotone(x: int, b: int, t: int)
    requires x >= 0 && 0 <= b <= t
    ensures 0 <= x * b <= x * t
  {
  }

  /** Truncated division of a non-negative number is the floor. */
  lemma FloorBounds(n: int, t: int)
    requires t > 0 && n >= 0
    ensures 0 <= TruncDiv(n, t)
    ensures TruncDiv(n, t) * t <= n < (TruncDiv(n, t) + 1) * t
  {
    Euclid(n, t);
    QuotientAtLeast(n, t, 0);
    Successor(n / t, t);
  }

  lemma Successor(q: int, t: int)
    ensures (q + 1) * t == q * t + t
  {
  }

  // ---------------------------------------------------------------- square root

  /** The integer square root, as a specification. */
  function Isqrt(n: nat): (r: nat)
    ensures r * r <= n < (r + 1) * (r + 1)
  {
    if n == 0 then 0
    else
      var r := Isqrt(n - 1);
      if (r + 1) * (r + 1) <= n then r + 1 else r
  }

  lemma SquareMonotone(a: nat, b: nat)
    requires a <= b
    ensures a * a <= b * b
  {
    assert b * b - a * a == (b - a) * (b + a);
  }

  lemma IsqrtUnique(n: nat, r: nat)
    requires r * r <= n < (r + 1) * (r + 1)
    ensures r == Isqrt(n)
  {
    var q := Isqrt(n);
    if r < q {
      SquareMonotone(r + 1, q);
    } else if q < r {
      SquareMonotone(q + 1, r);
    }
  }

  lemma SumSquared(a: int, b: int)
    ensures (a + b) * (a + b) == 4 * (a * b) + (a - b) * (a - b)
    ensures (a - b) * (a - b) >= 0
  {
  }

  lemma DoubleSquared(m: int)
    ensures (2 * m) * (2 * m) == 4 * (m * m)
  {
  }

  /** The arithmetic mean dominates the geometric mean, in integers. */
  lemma MeanSquared(a: nat, b: nat, m: nat)
    requires a + b <= 2 * m
    ensures a * b <= m * m
  {
    SquareMonotone(a + b, 2 * m);
    SumSquared(a, b);
    DoubleSquared(m);
  }

  /** One Newton step from x never falls below the root. */
  lemma NewtonStaysAbove(n: nat, x: nat, y: nat)
    requires x > 0 && y == (x + n / x) / 2
    ensures n < (y + 1) * (y + 1)
  {
    var q := n / x;
    assert n < x * (q + 1) by {
      assert n == x * q + n % x;
      assert x * (q + 1) == x * q + x;
    }
    MeanSquared(x, q + 1, y + 1);
  }

  /** When the next Newton step would not descend, x is at most the root. */
  lemma NewtonStopsBelow(n: nat, x: nat)
    requires x > 0 && x <= (x + n / x) / 2
    ensures x * x <= n
  {
    var q := n / x;
    assert x <= q;
    assert n == x * q + n % x;
    assert x * x <= x * q;
  }

  lemma NewtonStaysPositive(n: nat, x: nat)
    requires n >= 2 && 0 < x && n < (x + 1) * (x + 1)
    ensures 0 < (x + n / x) / 2
  {
    if x == 1 {
      assert n / x == n;
    }
  }

  lemma FirstStep(n: nat)
    requires n >= 2
    ensures (n + 1) / 2 == (n + n / n) / 2
    ensures n < (n + 1) * (n + 1)
  {
    assert n / n == 1;
    assert (n + 1) * (n + 1) == n * n + 2 * n + 1;
  }

  /** The Babylonian loop computes the integer square root of every non-negative number. */
  method BabylonianSqrt(n: int) returns (r: Result<int>)
    ensures n < 0 ==> r == Err(InvalidAmount)
    ensures n >= 0 ==> r == Ok(Isqrt(n))
  {
    if n < 0 {
      return Err(InvalidAmount);
    }
    if n < 2 {
      IsqrtUnique(n, n);
      return Ok(n);
    }
    var x := n;
    var y := (x + 1) / 2;
    FirstStep(n);
    while y < x
      invariant 0 < x && 0 < y
      invariant y == (x + n / x) / 2
      invariant n < (x + 1) * (x + 1)
      decreases x
    {
      NewtonStaysAbove(n, x, y);
      x := y;
      y := (x + n / x) / 2;
      NewtonStaysPositive(n, x);
    }
    NewtonStopsBelow(n, x);
    IsqrtUnique(n, x);
    return Ok(x);
  }
}
