// The quotes of the pool against its constant product. Rounding is exact here: each law the
// repository states for the real-valued curve is proved up to the condition under which the
// integer quote meets it.

module PoolQuotes {
  import opened DikeTypes
  import opened DikeMath

  function QuoteBuy(outcomeReserve: int, oppositeReserve: int, netIn: int): Result<int> {
    if outcomeReserve <= 0 || oppositeReserve <= 0 || netIn <= 0 then Err(InvalidAmount)
    else
      var newOutcome := TruncDiv(outcomeReserve * oppositeReserve, oppositeReserve + netIn);
      Ok(outcomeReserve + netIn - newOutcome)
  }

  function QuoteSell(outcomeReserve: int, oppositeReserve: int, amountIn: int): Result<int> {
    if outcomeReserve <= 0 || oppositeReserve <= 0 || amountIn <= 0 then Err(InvalidAmount)
    else
      var sum := outcomeReserve + amountIn + oppositeReserve;
      var discriminant := sum * sum - 4 * (amountIn * oppositeReserve);
      if discriminant < 0 then Err(ArithmeticError)
      else Ok(TruncDiv(sum - Isqrt(discriminant), 2))
  }

  /** The sell quote with the root taken by the Babylonian loop. */
  method ComputeQuoteSell(outcomeReserve: int, oppositeReserve: int, amountIn: int) returns (r: Result<int>)
    ensures r == QuoteSell(outcomeReserve, oppositeReserve, amountIn)
  {
    if outcomeReserve <= 0 || oppositeReserve <= 0 || amountIn <= 0 {
      return Err(InvalidAmount);
    }
    var sum := outcomeReserve + amountIn + oppositeReserve;
    var discriminant := sum * sum - 4 * (amountIn * oppositeReserve);
    if discriminant < 0 {
      return Err(ArithmeticError);
    }
    var root := BabylonianSqrt(discriminant);
    return Ok(TruncDiv(sum - root.value, 2));
  }

  // ---------------------------------------------------------------- buying

  lemma Quotient(a: nat, b: nat, q: nat)
    requires b > 0 && q == a / b
    ensures q * b + a % b == a && 0 <= a % b < b
  {
  }

  lemma ProductPositive(a: nat, b: nat)
    requires a > 0 && b > 0
    ensures a * b >= a && a * b >= b
  {
  }

  lemma CancelMultiplier(q: int, o: int, b: nat)
    requires q * b < o * b
    ensures q < o
  {
    assert (q - o) * b == q * b - o * b;
    if q >= o {
      ProductNonNegative(q - o, b);
    }
  }

  lemma FloorOfFraction(o: nat, p: nat, n: nat)
    requires o > 0 && p > 0 && n > 0
    ensures 0 <= o * p / (p + n) < o
  {
    var k, b := o * p, p + n;
    var q := k / b;
    Quotient(k, b, q);
    assert o * b == k + o * n;
    ProductPositive(o, n);
    CancelMultiplier(q, o, b);
  }

  /** A multiple of b is zero exactly when the multiplier is, and otherwise at least b. */
  lemma Multiple(q: nat, b: nat)
    requires b > 0
    ensures q == 0 ==> q * b == 0
    ensures q > 0 ==> q * b >= b
  {
  }

  /** A buyer always gets more tokens than the collateral that went in, and the reserves the pool
      keeps multiply to at most the old product. The product is kept exactly when the division is
      exact, and the bought side runs dry exactly when the product is below the new opposite reserve. */
  lemma BuyAgainstProduct(o: int, p: int, n: int)
    requires o > 0 && p > 0 && n > 0
    ensures QuoteBuy(o, p, n).Ok?
    ensures var out := QuoteBuy(o, p, n).value;
            && n < out <= o + n
            && (o + n - out) * (p + n) <= o * p < (o + n - out + 1) * (p + n)
            && ((o + n - out) * (p + n) == o * p <==> o * p % (p + n) == 0)
            && (out == o + n <==> o * p < p + n)
  {
    ProductPositive(o, p);
    FloorOfFraction(o, p, n);
    var k, b := o * p, p + n;
    var q := k / b;
    var out := QuoteBuy(o, p, n).value;
    assert o + n - out == q;
    Quotient(k, b, q);
    Successor(q, b);
    Multiple(q, b);
  }

  // ---------------------------------------------------------------- selling

  lemma Discriminant(o: int, p: int, a: int)
    ensures (o + a + p) * (o + a + p) - 4 * (a * p) == (o + a - p) * (o + a - p) + 4 * (o * p)
  {
  }

  /** The product after paying out c, written around the discriminant. */
  lemma ProductAfterSell(o: int, p: int, a: int, c: int)
    ensures var sum := o + a + p;
            4 * ((o + a - c) * (p - c) - o * p) == (sum - 2 * c) * (sum - 2 * c) - (sum * sum - 4 * (a * p))
  {
    assert (o + a - c) * (p - c) == (o + a) * p - c * (o + a + p) + c * c;
    assert (o + a) * p == o * p + a * p;
    var sum := o + a + p;
    assert (sum - 2 * c) * (sum - 2 * c) == sum * sum - 4 * (c * sum) + 4 * (c * c);
  }

  /** Where the root of x^2 + e lies relative to x. */
  lemma RootAgainst(x: nat, s: nat, e: int)
    requires s * s <= x * x + e < (s + 1) * (s + 1)
    ensures s <= x <==> e < 2 * x + 1
    ensures s >= x <==> e >= 0
  {
    NextSquare(x);
    if s <= x {
      SquareMonotone(s + 1, x + 1);
    } else {
      SquareMonotone(x + 1, s);
    }
    if s >= x {
      SquareMonotone(x, s);
    } else {
      SquareMonotone(s + 1, x);
    }
  }

  /** The root of the discriminant is at least two and at most the sum. */
  lemma RootBounds(sum: nat, x: int, op: nat, ap: nat, d: int)
    requires d == sum * sum - 4 * ap && d == x * x + 4 * op && op >= 1
    ensures d >= 4
    ensures 2 <= Isqrt(d) <= sum
  {
    assert 0 <= x * x;
    var s := Isqrt(d);
    if s < 2 {
      SquareMonotone(s + 1, 2);
    }
    if s > sum {
      SquareMonotone(sum + 1, s);
      NextSquare(sum);
    }
  }

  lemma NextSquare(x: int)
    ensures (x + 1) * (x + 1) == x * x + 2 * x + 1
  {
  }

  /** What the floor leaves: twice the quote plus the root is the sum, up to one unit. */
  lemma SellQuote(o: int, p: int, a: int) returns (c: int, s: nat, d: nat)
    requires o > 0 && p > 0 && a > 0
    ensures d == (o + a + p) * (o + a + p) - 4 * (a * p)
    ensures d == (o + a - p) * (o + a - p) + 4 * (o * p)
    ensures s == Isqrt(d)
    ensures s * s <= d < (s + 1) * (s + 1)
    ensures QuoteSell(o, p, a) == Ok(c)
    ensures c >= 0 && s >= 2
    ensures o + a + p - 2 * c == s || o + a + p - 2 * c == s + 1
  {
    var sum := o + a + p;
    var e := sum * sum - 4 * (a * p);
    Discriminant(o, p, a);
    ProductPositive(o, p);
    ProductPositive(a, p);
    RootBounds(sum, o + a - p, o * p, a * p, e);
    d := e;
    s := Isqrt(d);
    c := (sum - s) / 2;
  }

  /** The same comparison against an integer of either sign, with a positive excess. */
  lemma RootAgainstInt(x: int, s: nat, e: nat)
    requires s * s <= x * x + e < (s + 1) * (s + 1)
    ensures s >= x && s >= -x
    ensures s <= x <==> e < 2 * x + 1
    ensures s <= -x <==> e < -2 * x + 1
  {
    var y: nat := if x >= 0 then x else -x;
    assert y * y == x * x;
    RootAgainst(y, s, e);
  }

  /** A sale never pays more than either reserve holds. It takes the whole opposite reserve exactly
      when the tokens sold swamp the pool. */
  lemma SellWithinReserves(o: int, p: int, a: int)
    requires o > 0 && p > 0 && a > 0
    ensures QuoteSell(o, p, a).Ok?
    ensures var c := QuoteSell(o, p, a).value;
            && 0 <= c <= p
            && c < o + a
            && (c == p <==> 2 * (o * p) + p <= o + a)
  {
    var c, s, d := SellQuote(o, p, a);
    ProductPositive(o, p);
    RootAgainstInt(o + a - p, s, 4 * (o * p));
  }

  /** Squares around the root, in the linear form the next lemma needs. */
  lemma SquaresAround(s: nat, t: nat, d: nat)
    requires s >= 2 && s * s <= d < (s + 1) * (s + 1)
    requires t == s || t == s + 1
    ensures (t - 2) * (t - 2) < d
    ensures t * t >= d <==> t == s + 1 || s * s == d
    ensures d - t * t <= 2 * s
  {
    NextSquare(s);
    SquareMonotone(t - 2, s - 1);
    NextSquare(s - 1);
  }

  /** The sell quote is the largest fair one up to rounding, and the product is kept exactly when the
      rounding is down or the root is exact. When it is not kept, it falls by at most half the root. */
  lemma SellAgainstProduct(o: int, p: int, a: int)
    requires o > 0 && p > 0 && a > 0
    ensures QuoteSell(o, p, a).Ok?
    ensures var c := QuoteSell(o, p, a).value;
            var sum := o + a + p;
            var d: int := sum * sum - 4 * (a * p);
            && d >= 0
            && (o + a - (c + 1)) * (p - (c + 1)) < o * p
            && ((o + a - c) * (p - c) >= o * p <==> (sum - Isqrt(d)) % 2 == 1 || Isqrt(d) * Isqrt(d) == d)
            && 2 * (o * p - (o + a - c) * (p - c)) <= Isqrt(d)
  {
    var c, s, d := SellQuote(o, p, a);
    var sum := o + a + p;
    var t: nat := sum - 2 * c;
    var kept, over := (o + a - c) * (p - c), (o + a - (c + 1)) * (p - (c + 1));
    ProductAfterSell(o, p, a, c);
    ProductAfterSell(o, p, a, c + 1);
    assert sum - 2 * (c + 1) == t - 2;
    assert 4 * (kept - o * p) == t * t - d;
    assert 4 * (over - o * p) == (t - 2) * (t - 2) - d;
    SquaresAround(s, t, d);
    assert sum - s == 2 * c + (t - s);
  }

  // ---------------------------------------------------------------- buy, then sell back

  /** The discriminant of the way back is a square less four times the rounding. */
  lemma WayBack(o: int, p: int, n: int, q: int, out: int, rem: int)
    requires q + out == o + n
    requires q * (p + n) == o * p - rem
    ensures (q + out - (p + n)) * (q + out - (p + n)) + 4 * (q * (p + n)) == (o + p) * (o + p) - 4 * rem
  {
    assert q + out - (p + n) == o - p;
    assert (o - p) * (o - p) + 4 * (o * p) == (o + p) * (o + p);
  }

  /** Selling back what was just bought never returns less than what went in, and returns more exactly
      when the rounding of the purchase left at least half the old reserves' sum unpaid. */
  lemma RoundTripProfit(o: int, p: int, n: int)
    requires o > 0 && p > 0 && n > 0
    requires p + n <= o * p  // the purchase left tokens of the bought side in the pool
    ensures QuoteBuy(o, p, n).Ok?
    ensures var out := QuoteBuy(o, p, n).value;
            var back := QuoteSell(o + n - out, p + n, out);
            && back.Ok?
            && back.value >= n
            && (back.value > n <==> 2 * (o * p % (p + n)) >= o + p)
  {
    BuyAgainstProduct(o, p, n);
    var out := QuoteBuy(o, p, n).value;
    var q := o + n - out;
    var rem := o * p % (p + n);
    assert q * (p + n) == o * p - rem by {
      FloorOfFraction(o, p, n);
      Quotient(o * p, p + n, o * p / (p + n));
    }
    var c, s, d := SellQuote(q, p + n, out);
    WayBack(o, p, n, q, out, rem);
    RootAgainst(o + p, s, -4 * rem);
    NextSquare(o + p - 1);
    RootAgainst(o + p - 1, s, 2 * (o + p) - 1 - 4 * rem);
  }

  lemma ThirdsRemainder(n: nat, o: nat, q: nat)
    requires n > 0 && o == 2 * n && 3 * q == 4 * n - 2
    ensures o * o == q * (o + n) + o
    ensures o * o % (o + n) == o
    ensures o + n <= o * o
  {
    assert q * (3 * n) == (3 * q) * n;
    assert o * o == (4 * n) * n;
    RemainderUnique(o * o, o + n, q, o);
    Multiple(q, o + n);
  }

  lemma RemainderUnique(a: nat, b: nat, q: nat, r: nat)
    requires b > 0 && a == q * b + r && r < b
    ensures a % b == r
  {
    Quotient(a, b, a / b);
    assert (a / b - q) * b == r - a % b;
    if a / b > q {
      Multiple(a / b - q, b);
    } else if a / b < q {
      Multiple(q - a / b, b);
    }
  }

  /** A whole family of pools where the round trip gains: 2n tokens a side, buying with n, whenever n
      leaves remainder two modulo three. The smallest is the pool of 4 and 4. */
  lemma RoundTripCanProfit(n: nat)
    requires n % 3 == 2
    ensures QuoteBuy(2 * n, 2 * n, n).Ok?
    ensures var out := QuoteBuy(2 * n, 2 * n, n).value;
            QuoteSell(2 * n + n - out, 2 * n + n, out).Ok? && QuoteSell(2 * n + n - out, 2 * n + n, out).value > n
  {
    ThirdsRemainder(n, 2 * n, (4 * n - 2) / 3);
    RoundTripProfit(2 * n, 2 * n, n);
  }
}
