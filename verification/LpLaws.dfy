// Liquidity providers: the fee accumulator never promises more than was collected, and nobody's share of
// the reserves is diluted.

module LpLaws {
  import opened DikeTypes
  import opened DikeMath
  import opened MapSums
  import opened VaultLedger
  import opened AmmPools

  function SharesOf(p: LpPosition): int {
    p.shares
  }

  /** What a position has earned since its checkpoint, in units of 1 / FEE_SCALE. */
  function Earned(feePerShare: int): LpPosition -> int {
    (p: LpPosition) => p.shares * (feePerShare - p.checkpoint)
  }

  ghost function TotalEarned(book: LpBook): int {
    SumBy(book.positions, Earned(book.feePerShare))
  }

  predicate SaneLp(book: LpBook, p: LpPosition) {
    p.shares >= 0 && p.checkpoint <= book.feePerShare
  }

  /** Shares add up to the total, and no checkpoint lies ahead of the accumulator. */
  ghost predicate ValidBook(book: LpBook) {
    && (forall lp :: lp in book.positions ==> SaneLp(book, book.positions[lp]))
    && SumBy(book.positions, SharesOf) == book.total
    && book.feePerShare >= 0
  }

  /** The fees set aside for providers cover everything they have earned. */
  ghost predicate FeesCovered(book: LpBook, lpFees: int) {
    TotalEarned(book) <= FEE_SCALE * lpFees
  }

  lemma EmptyBook(lpFees: int)
    requires lpFees >= 0
    ensures var book := LpBook(0, 0, map[]);
            ValidBook(book) && FeesCovered(book, lpFees)
  {
  }

  // ---------------------------------------------------------------- the accumulator

  /** Collected fees are promised to providers rounded down, never up. */
  lemma AccrueKeeps(book: LpBook, lpFees: int, lpFee: int)
    requires ValidBook(book) && FeesCovered(book, lpFees) && lpFee >= 0
    ensures ValidBook(AccrueFees(book, lpFee))
    ensures FeesCovered(AccrueFees(book, lpFee), lpFees + lpFee)
  {
    if book.total > 0 && lpFee > 0 {
      var delta := TruncDiv(lpFee * FEE_SCALE, book.total);
      var book' := AccrueFees(book, lpFee);
      FloorBounds(lpFee * FEE_SCALE, book.total);
      var f, h := Earned(book.feePerShare), Earned(book'.feePerShare);
      forall k | k in book.positions
        ensures h(book.positions[k]) == f(book.positions[k]) + delta * SharesOf(book.positions[k])
      {
        EarnedMore(book.positions[k], book.feePerShare, delta);
      }
      SumByLinear(book.positions, f, SharesOf, h, delta);
      forall lp | lp in book'.positions ensures SaneLp(book', book'.positions[lp]) {
        assert SaneLp(book, book.positions[lp]);
      }
    }
  }

  /** And not by more than the rounding: what is not promised of a fee is less than one unit of 1 / FEE_SCALE a share.
      */
  lemma AccrueReaches(book: LpBook, lpFee: int)
    requires ValidBook(book) && book.total > 0 && lpFee >= 0
    ensures var (before, after) := (TotalEarned(book), TotalEarned(AccrueFees(book, lpFee)));
            1_000_000_000_000_000_000 * lpFee - book.total < after - before <= 1_000_000_000_000_000_000 * lpFee
  {
    if lpFee > 0 {
      var book' := AccrueFees(book, lpFee);
      var delta := book'.feePerShare - book.feePerShare;
      FloorBounds(lpFee * FEE_SCALE, book.total);
      Successor(delta, book.total);
      var f, h := Earned(book.feePerShare), Earned(book'.feePerShare);
      forall k | k in book.positions
        ensures h(book.positions[k]) == f(book.positions[k]) + delta * SharesOf(book.positions[k])
      {
        EarnedMore(book.positions[k], book.feePerShare, delta);
      }
      SumByLinear(book.positions, f, SharesOf, h, delta);
    }
  }

  lemma EarnedMore(p: LpPosition, feePerShare: int, delta: int)
    ensures Earned(feePerShare + delta)(p) == Earned(feePerShare)(p) + delta * p.shares
  {
    assert p.shares * (feePerShare + delta - p.checkpoint)
        == p.shares * (feePerShare - p.checkpoint) + p.shares * delta;
  }

  lemma EarnedNonNegative(book: LpBook, lp: Address)
    requires ValidBook(book)
    ensures Earned(book.feePerShare)(LpOf(book, lp)) >= 0
    ensures lp !in book.positions ==> Earned(book.feePerShare)(LpOf(book, lp)) == 0
  {
    if lp in book.positions {
      assert SaneLp(book, book.positions[lp]);
      ProductNonNegative(book.positions[lp].shares, book.feePerShare - book.positions[lp].checkpoint);
    }
  }

  /** What a provider is owed is the earned amount, rounded down. */
  lemma OwedIsEarned(book: LpBook, lp: Address)
    requires ValidBook(book)
    ensures 0 <= FeesOwed(book, lp)
    ensures FeesOwed(book, lp) * FEE_SCALE <= Earned(book.feePerShare)(LpOf(book, lp))
            < (FeesOwed(book, lp) + 1) * FEE_SCALE
  {
    var p := LpOf(book, lp);
    var delta := book.feePerShare - p.checkpoint;
    EarnedNonNegative(book, lp);
    if delta > 0 && p.shares > 0 {
      ProductNonNegative(p.shares, delta);
      FloorBounds(p.shares * delta, FEE_SCALE);
    }
  }

  /** Every fee claim the pool computes can be paid out of the fees set aside. */
  lemma OwedIsPayable(book: LpBook, lpFees: int, lp: Address)
    requires ValidBook(book) && FeesCovered(book, lpFees)
    ensures 0 <= FeesOwed(book, lp) <= lpFees
  {
    OwedIsEarned(book, lp);
    var f := Earned(book.feePerShare);
    forall k | k in book.positions ensures f(book.positions[k]) >= 0 {
      EarnedNonNegative(book, k);
      assert LpOf(book, k) == book.positions[k];
    }
    SumByNonNegative(book.positions, f);
    if lp in book.positions {
      SumByMember(book.positions, f, lp);
    } else {
      EarnedNonNegative(book, lp);
    }
  }

  /** Paying a provider off and resetting the checkpoint keeps the cover, whatever the new shares. */
  lemma SetLpKeeps(book: LpBook, lpFees: int, lp: Address, shares: int, total: int)
    requires ValidBook(book) && FeesCovered(book, lpFees)
    requires shares >= 0 && total == book.total + shares - LpOf(book, lp).shares
    ensures ValidBook(SetLp(book, lp, shares, total))
    ensures FeesCovered(SetLp(book, lp, shares, total), lpFees - FeesOwed(book, lp))
  {
    var p := LpPosition(shares, book.feePerShare);
    var book' := SetLp(book, lp, shares, total);
    var f := Earned(book.feePerShare);
    SumByUpdate(book.positions, f, lp, p);
    SumByUpdate(book.positions, SharesOf, lp, p);
    OwedIsEarned(book, lp);
    EarnedNonNegative(book, lp);
    assert f(p) == shares * 0;
    forall k | k in book'.positions ensures SaneLp(book', book'.positions[k]) {
      assert k != lp ==> SaneLp(book, book.positions[k]);
    }
  }

  lemma SharesWithinTotal(book: LpBook, lp: Address)
    requires ValidBook(book)
    ensures 0 <= LpOf(book, lp).shares <= book.total
  {
    forall k | k in book.positions ensures SharesOf(book.positions[k]) >= 0 {
      assert SaneLp(book, book.positions[k]);
    }
    SumByNonNegative(book.positions, SharesOf);
    if lp in book.positions {
      SumByMember(book.positions, SharesOf, lp);
    }
  }

  // ---------------------------------------------------------------- dilution

  /** No share of a reserve is worth less after than before: both sides scaled to the two share totals. */
  predicate NotDiluted(before: int, sharesBefore: int, after: int, sharesAfter: int) {
    before * sharesAfter <= after * sharesBefore
  }

  predicate NobodyDiluted(pool: Pool, pool': Pool) {
    && NotDiluted(pool.reserves.yes, pool.lp.total, pool'.reserves.yes, pool'.lp.total)
    && NotDiluted(pool.reserves.no, pool.lp.total, pool'.reserves.no, pool'.lp.total)
  }

  predicate Funded(pool: Pool) {
    pool.reserves.yes > 0 && pool.reserves.no > 0 && pool.lp.total > 0
  }

  /** What the shares minted for `amount` are worth, against a reserve. */
  lemma MintedShares(total: int, amount: int, reserve: int, shares: int)
    requires total > 0 && amount > 0 && reserve > 0
    requires shares <= TruncDiv(total * amount, reserve)
    ensures shares * reserve <= total * amount
  {
    ProductNonNegative(total, amount);
    FloorBounds(total * amount, reserve);
    Scaled(shares, TruncDiv(total * amount, reserve), reserve);
  }

  lemma Scaled(x: int, y: int, t: int)
    requires x <= y && t >= 0
    ensures x * t <= y * t
  {
  }

  /** Shares are minted at the worse of the two ratios, rounded down. */
  lemma SharesForBounds(pool: Pool, amount: int)
    requires Funded(pool) && amount > 0 && SharesFor(pool, amount).Ok?
    ensures var shares := SharesFor(pool, amount).value;
            && shares > 0
            && shares * pool.reserves.yes <= pool.lp.total * amount
            && shares * pool.reserves.no <= pool.lp.total * amount
  {
    MintedShares(pool.lp.total, amount, pool.reserves.yes, SharesFor(pool, amount).value);
    MintedShares(pool.lp.total, amount, pool.reserves.no, SharesFor(pool, amount).value);
  }

  lemma AddDilutesNobody(pool: Pool, lp: Address, amount: int)
    requires Funded(pool) && amount > 0 && SharesFor(pool, amount).Ok?
    ensures NobodyDiluted(pool, Added(pool, lp, amount, SharesFor(pool, amount).value))
  {
    var shares := SharesFor(pool, amount).value;
    SharesForBounds(pool, amount);
    CrossAdd(pool.reserves.yes, pool.lp.total, amount, shares);
    CrossAdd(pool.reserves.no, pool.lp.total, amount, shares);
  }

  lemma CrossAdd(reserve: int, total: int, amount: int, shares: int)
    requires shares * reserve <= total * amount
    ensures reserve * (total + shares) <= (reserve + amount) * total
  {
    assert reserve * (total + shares) == reserve * total + shares * reserve;
    assert (reserve + amount) * total == reserve * total + total * amount;
  }

  /** A withdrawal takes at most its proportion of either reserve. */
  lemma WithdrawalBounds(pool: Pool, shares: int)
    requires pool.reserves.yes >= 0 && pool.reserves.no >= 0 && 0 < shares <= pool.lp.total
    ensures Withdrawal(pool, shares).Ok?
    ensures var out := Withdrawal(pool, shares).value;
            && 0 <= out.yes <= pool.reserves.yes && 0 <= out.no <= pool.reserves.no
            && out.yes * pool.lp.total <= pool.reserves.yes * shares < (out.yes + 1) * pool.lp.total
            && out.no * pool.lp.total <= pool.reserves.no * shares < (out.no + 1) * pool.lp.total
  {
    Slice(pool.reserves.yes, shares, pool.lp.total);
    Slice(pool.reserves.no, shares, pool.lp.total);
  }

  lemma Slice(reserve: int, shares: int, total: int)
    requires reserve >= 0 && 0 < shares <= total
    ensures var out := TruncDiv(reserve * shares, total);
            0 <= out <= reserve && out * total <= reserve * shares < (out + 1) * total
  {
    ProductMonotone(reserve, shares, total);
    FloorBounds(reserve * shares, total);
    QuotientAtMost(reserve * shares, total, reserve);
  }

  lemma RemoveDilutesNobody(pool: Pool, lp: Address, shares: int)
    requires pool.reserves.yes >= 0 && pool.reserves.no >= 0 && 0 < shares <= pool.lp.total
    ensures Withdrawal(pool, shares).Ok?
    ensures NobodyDiluted(pool, Removed(pool, lp, shares, Withdrawal(pool, shares).value))
  {
    WithdrawalBounds(pool, shares);
    var out := Withdrawal(pool, shares).value;
    CrossAdd(pool.reserves.yes, pool.lp.total, -out.yes, -shares) by {
      Negate(pool.reserves.yes, pool.lp.total, out.yes, shares);
    }
    CrossAdd(pool.reserves.no, pool.lp.total, -out.no, -shares) by {
      Negate(pool.reserves.no, pool.lp.total, out.no, shares);
    }
  }

  lemma Negate(reserve: int, total: int, out: int, shares: int)
    requires out * total <= reserve * shares
    ensures -shares * reserve <= total * -out
  {
    assert -shares * reserve == -(reserve * shares);
    assert total * -out == -(out * total);
  }

  /** Putting liquidity in and taking it straight out returns at most what went in, of either outcome. */
  lemma AddThenRemove(pool: Pool, lp: Address, amount: int)
    requires Funded(pool) && amount > 0 && SharesFor(pool, amount).Ok?
    ensures var shares := SharesFor(pool, amount).value;
            var out := Withdrawal(Added(pool, lp, amount, shares), shares);
            out.Ok? && out.value.yes <= amount && out.value.no <= amount
  {
    var shares := SharesFor(pool, amount).value;
    var pool' := Added(pool, lp, amount, shares);
    SharesForBounds(pool, amount);
    WithdrawalBounds(pool', shares);
    RoundTrip(pool.reserves.yes, pool.lp.total, amount, shares);
    RoundTrip(pool.reserves.no, pool.lp.total, amount, shares);
  }

  lemma RoundTrip(reserve: int, total: int, amount: int, shares: int)
    requires shares * reserve <= total * amount && total + shares > 0 && (reserve + amount) * shares >= 0
    ensures TruncDiv((reserve + amount) * shares, total + shares) <= amount
  {
    assert (reserve + amount) * shares == shares * reserve + amount * shares;
    assert amount * (total + shares) == total * amount + amount * shares;
    QuotientAtMost((reserve + amount) * shares, total + shares, amount);
  }

  /** Withdrawing every share empties both reserves. */
  lemma RemoveAllEmpties(pool: Pool, lp: Address)
    requires pool.reserves.yes >= 0 && pool.reserves.no >= 0 && pool.lp.total > 0
    ensures Withdrawal(pool, pool.lp.total) == Ok(pool.reserves)
    ensures Removed(pool, lp, pool.lp.total, pool.reserves).reserves == Reserves(0, 0)
  {
    DivideBack(pool.reserves.yes, pool.lp.total);
    DivideBack(pool.reserves.no, pool.lp.total);
  }

  /** A leg of a withdrawal is empty, which the token ledger refuses, exactly when the shares are worth
      less than one token of that outcome. */
  lemma EmptyLeg(pool: Pool, shares: int)
    requires pool.reserves.yes >= 0 && pool.reserves.no >= 0 && 0 < shares <= pool.lp.total
    ensures Withdrawal(pool, shares).Ok?
    ensures Withdrawal(pool, shares).value.yes > 0 <==> pool.reserves.yes * shares >= pool.lp.total
    ensures Withdrawal(pool, shares).value.no > 0 <==> pool.reserves.no * shares >= pool.lp.total
  {
    WithdrawalBounds(pool, shares);
    var out := Withdrawal(pool, shares).value;
    WholeUnits(out.yes, pool.lp.total);
    WholeUnits(out.no, pool.lp.total);
  }

  lemma WholeUnits(x: int, t: int)
    requires t > 0 && x >= 0
    ensures x > 0 ==> x * t >= t
    ensures x == 0 ==> (x + 1) * t == t
  {
  }
}
