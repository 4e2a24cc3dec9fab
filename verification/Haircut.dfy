// The pro-rata haircut: what a sequence of claims against one market's book is paid.

module Haircut {
  import opened Basics
  import opened DikeMath
  import opened VaultLedger

  /** Redemptions one after the other against a book whose backing and shortfall do not change. */
  function PayAll(a: Accounting, claims: seq<int>): (Accounting, seq<int>)
    decreases |claims|
  {
    if claims == [] then (a, [])
    else
      var payout := CappedPayout(a, claims[0]);
      var (a', rest) := PayAll(a.Redeem(payout), claims[1..]);
      (a', [payout] + rest)
  }

  /** The proportional share of a claim: the book's backing over all that the book answers for. */
  function Share(a: Accounting, claim: int): int
    requires a.cash.backing > 0 && a.cash.shortfall >= 0
  {
    if claim <= 0 then 0 else TruncDiv(claim * a.cash.backing, a.cash.backing + a.cash.shortfall)
  }

  function Shares(a: Accounting, claims: seq<int>): int
    requires a.cash.backing > 0 && a.cash.shortfall >= 0
  {
    if claims == [] then 0 else Share(a, claims[0]) + Shares(a, claims[1..])
  }

  function Total(xs: seq<int>): int {
    if xs == [] then 0 else xs[0] + Total(xs[1..])
  }

  /** A book with something to pay that has not paid more than it had. */
  predicate Solvent(a: Accounting) {
    a.cash.backing > 0 && a.cash.shortfall >= 0 && 0 <= a.cash.redeemed <= a.cash.backing
  }

  function Remaining(a: Accounting): int {
    a.cash.backing - a.cash.redeemed
  }

  lemma ShareBounds(a: Accounting, claim: int)
    requires Solvent(a) && claim >= 0
    ensures 0 <= Share(a, claim) <= claim
    ensures Share(a, claim) * (a.cash.backing + a.cash.shortfall) <= claim * a.cash.backing
    ensures claim * a.cash.backing < (Share(a, claim) + 1) * (a.cash.backing + a.cash.shortfall)
  {
    if claim > 0 {
      var b, t := a.cash.backing, a.cash.backing + a.cash.shortfall;
      ProductMonotone(claim, b, t);
      FloorBounds(claim * b, t);
      QuotientAtMost(claim * b, t, claim);
    }
  }

  /** A claim is paid its share, or what is left if that is less. */
  lemma PayoutIsShare(a: Accounting, claim: int)
    requires Solvent(a)
    ensures CappedPayout(a, claim) == Min(Share(a, claim), Remaining(a))
    ensures Solvent(a.Redeem(CappedPayout(a, claim)))
  {
    if claim > 0 {
      ShareBounds(a, claim);
      if a.cash.shortfall == 0 {
        assert claim * a.cash.backing == a.cash.backing * claim;
        DivideBack(claim, a.cash.backing);
      }
    }
  }

  lemma {:induction false} SharesNonNegative(a: Accounting, claims: seq<int>)
    requires Solvent(a)
    ensures Shares(a, claims) >= 0
  {
    if claims != [] {
      if claims[0] > 0 {
        ShareBounds(a, claims[0]);
      }
      SharesNonNegative(a, claims[1..]);
    }
  }

  lemma {:induction false} SharesAfter(a: Accounting, x: int, claims: seq<int>)
    requires Solvent(a) && Solvent(a.Redeem(x))
    ensures Shares(a.Redeem(x), claims) == Shares(a, claims)
  {
    if claims != [] {
      assert Share(a.Redeem(x), claims[0]) == Share(a, claims[0]);
      SharesAfter(a, x, claims[1..]);
    }
  }

  /** Whatever the order, the sequence is paid its shares in total, or all that is left if that is less;
      the book never pays more than its backing. */
  lemma {:induction false} PaidInTotal(a: Accounting, claims: seq<int>)
    requires Solvent(a)
    ensures var (a', paid) := PayAll(a, claims);
            && |paid| == |claims|
            && Total(paid) == Min(Shares(a, claims), Remaining(a))
            && a' == a.Redeem(Total(paid)) && Solvent(a')
    decreases |claims|
  {
    if claims != [] {
      var payout := CappedPayout(a, claims[0]);
      var a1 := a.Redeem(payout);
      PayoutIsShare(a, claims[0]);
      SharesAfter(a, payout, claims[1..]);
      SharesNonNegative(a, claims[1..]);
      if claims[0] > 0 {
        ShareBounds(a, claims[0]);
      }
      PaidInTotal(a1, claims[1..]);
      var (a', rest) := PayAll(a1, claims[1..]);
      assert ([payout] + rest)[1..] == rest;
    }
  }

  /** Every claimant gets exactly the proportional share, whatever the order, if and only if the shares of
      all of them fit into what is left. */
  lemma {:induction false} PaidExactly(a: Accounting, claims: seq<int>)
    requires Solvent(a)
    ensures |PayAll(a, claims).1| == |claims|
    ensures (forall i :: 0 <= i < |claims| ==> PayAll(a, claims).1[i] == Share(a, claims[i]))
            <==> Shares(a, claims) <= Remaining(a)
    decreases |claims|
  {
    PaidInTotal(a, claims);
    if claims != [] {
      var payout := CappedPayout(a, claims[0]);
      var a1 := a.Redeem(payout);
      var rest := PayAll(a1, claims[1..]).1;
      var paid := PayAll(a, claims).1;
      assert paid == [payout] + rest;
      PayoutIsShare(a, claims[0]);
      SharesAfter(a, payout, claims[1..]);
      SharesNonNegative(a, claims[1..]);
      PaidExactly(a1, claims[1..]);
      assert forall i :: 0 <= i < |rest| ==> paid[i + 1] == rest[i] && claims[i + 1] == claims[1..][i];
      assert Share(a, claims[0]) == paid[0] ==> Remaining(a1) == Remaining(a) - Share(a, claims[0]);
      if forall i :: 0 <= i < |claims| ==> paid[i] == Share(a, claims[i]) {
        assert forall i :: 0 <= i < |rest| ==> rest[i] == paid[i + 1] == Share(a1, claims[1..][i]);
      }
      if Shares(a, claims) <= Remaining(a) {
        assert paid[0] == Share(a, claims[0]);
        forall i | 0 <= i < |claims| ensures paid[i] == Share(a, claims[i]) {
          if i > 0 {
            assert rest[i - 1] == Share(a1, claims[1..][i - 1]);
          }
        }
      }
    }
  }

  /** With nothing redeemed yet, claims that do not exceed backing plus shortfall always fit. */
  lemma {:induction false} SharesFit(a: Accounting, claims: seq<int>)
    requires Solvent(a) && forall i :: 0 <= i < |claims| ==> claims[i] >= 0
    ensures Shares(a, claims) * (a.cash.backing + a.cash.shortfall) <= Total(claims) * a.cash.backing
  {
    if claims != [] {
      ShareBounds(a, claims[0]);
      SharesFit(a, claims[1..]);
      var t := a.cash.backing + a.cash.shortfall;
      Distribute(Share(a, claims[0]), Shares(a, claims[1..]), t);
      Distribute(claims[0], Total(claims[1..]), a.cash.backing);
    }
  }

  lemma Distribute(x: int, y: int, t: int)
    ensures (x + y) * t == x * t + y * t
  {
  }

  /** The documented haircut: claims within backing plus shortfall, none redeemed before, are each scaled by
      the same ratio, first redeemer and last alike. */
  lemma HaircutIsProRata(a: Accounting, claims: seq<int>)
    requires Solvent(a) && a.cash.redeemed == 0
    requires forall i :: 0 <= i < |claims| ==> claims[i] >= 0
    requires Total(claims) <= a.cash.backing + a.cash.shortfall
    ensures forall i :: 0 <= i < |claims| ==>
              |PayAll(a, claims).1| == |claims| && PayAll(a, claims).1[i] == Share(a, claims[i])
    ensures Total(PayAll(a, claims).1) <= a.cash.backing
  {
    var b, t := a.cash.backing, a.cash.backing + a.cash.shortfall;
    SharesFit(a, claims);
    if Shares(a, claims) > b {
      Distribute(Shares(a, claims) - b, b, t);
      AtLeastOnce(Shares(a, claims) - b, t);
      ScaleDown(Total(claims), t, b);
    }
    PaidExactly(a, claims);
    PaidInTotal(a, claims);
  }

  lemma ScaleDown(x: int, t: int, b: int)
    requires x <= t && b > 0
    ensures x * b <= b * t
  {
    assert x * b <= t * b;
  }

  /** Splitting a claim never pays more than claiming the whole. */
  lemma SplittingNeverGains(a: Accounting, g: int, h: int)
    requires Solvent(a) && g >= 0 && h >= 0
    ensures Share(a, g) + Share(a, h) <= Share(a, g + h)
  {
    if g > 0 && h > 0 {
      var b, t := a.cash.backing, a.cash.backing + a.cash.shortfall;
      ShareBounds(a, g);
      ShareBounds(a, h);
      Distribute(Share(a, g), Share(a, h), t);
      Distribute(g, h, b);
      QuotientAtLeast((g + h) * b, t, Share(a, g) + Share(a, h));
      ProductMonotone(g + h, 0, b);
    }
  }

  /** Claiming in two parts, one after the other, is never paid more than claiming at once. */
  lemma SplittingPaysNoMore(a: Accounting, g: int, h: int)
    requires Solvent(a) && g >= 0 && h >= 0
    ensures Total(PayAll(a, [g, h]).1) <= Total(PayAll(a, [g + h]).1)
  {
    hide PayAll, Share;
    PaidInTotal(a, [g, h]);
    PaidInTotal(a, [g + h]);
    SplittingNeverGains(a, g, h);
    SharesOfTwo(a, g, h);
  }

  lemma SharesOfTwo(a: Accounting, g: int, h: int)
    requires Solvent(a)
    ensures Shares(a, [g, h]) == Share(a, g) + Share(a, h) && Shares(a, [g + h]) == Share(a, g + h)
  {
    hide Share;
    assert [g, h][1..] == [h] && [h][1..] == [] && [g + h][1..] == [];
    assert Shares(a, [g, h]) == Share(a, g) + Shares(a, [h]);
  }

  /** Claims beyond backing plus shortfall: whoever comes first is paid, whoever comes last is not. */
  lemma OrderMattersWhenOverclaimed(m: nat)
    ensures var a := NewAccount(m).Fund(1);
            PayAll(a, [1, 1]).1 == [1, 0] && Shares(a, [1, 1]) > Remaining(a)
  {
    var a := NewAccount(m).Fund(1);
    assert CappedPayout(a, 1) == 1;
    assert CappedPayout(a.Redeem(1), 1) == 0;
    assert PayAll(a.Redeem(1).Redeem(0), []).1 == [];
    assert [1, 1][1..] == [1] && [1][1..] == [];
    assert PayAll(a.Redeem(1), [1]).1 == [0] + [];
    DivideBack(1, 1);
    assert Shares(a, [1]) == Share(a, 1) + Shares(a, []);
  }

  /** A redeemer without debts is one such claim: paid the capped amount, charged to the book. */
  lemma DebtFreeClaim(v: VaultState, q: Position, gross: int)
    requires ChildDebt(v, Leg(q.market, q.user)) == 0 && ParentDebt(v, q) == 0 && gross >= 0
    requires SettleClaim(v, q, gross).Ok?
    ensures var (v', payout) := SettleClaim(v, q, gross).value;
            && payout == CappedPayout(AccountOf(v, q.market), gross)
            && (payout >= 0 ==> AccountOf(v', q.market) == AccountOf(v, q.market).Redeem(payout))
  {
    assert PayUpstream(v, Leg(q.market, q.user), gross) == (v, 0);
    assert Withhold(v, q, gross) == (v, 0);
    var v1 := RetireStake(v, q, gross);
    assert AccountOf(v1, q.market) == AccountOf(v, q.market);
  }
}
