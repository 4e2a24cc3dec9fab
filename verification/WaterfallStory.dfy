// A run in which the promise of the waterfall fails. Market 2 is where credit drawn in market 1 is spent.

module WaterfallStory {
  import opened DikeTypes
  import opened DikeMath
  import opened MarketRegistry
  import opened PoolQuotes
  import opened TokenLedger
  import opened VaultLedger
  import opened VaultDebts
  import opened VaultClaims
  import opened AmmPools
  import opened LedgerLaws
  import opened LedgerEffects
  import opened Stage
  import J = JointRuns

  function First(u: Address): Position {
    Position(1, u, Yes)
  }

  function Second(u: Address): Position {
    Position(1, u, No)
  }

  /** A user with stakes on both sides of market 1 who drew on both into market 2, on YES first. */
  ghost predicate TwoSided(v: VaultState, u: Address, s1: int, d1: int, s2: int, d2: int) {
    && Stake(v, First(u)) == s1 && Used(v, First(u)) == d1 && ParentDebt(v, First(u)) == d1
    && Stake(v, Second(u)) == s2 && Used(v, Second(u)) == d2 && ParentDebt(v, Second(u)) == d2
    && !HasParent(v, Leg(1, u)) && ChildDebt(v, Leg(2, u)) == d1 + d2
    && (if d1 > 0 then LendsTo(v, First(u), Leg(2, u)) else !HasParent(v, Leg(2, u)))
    && ChildrenOf(v, Second(u)) == (if d2 > 0 then [2] else [])
  }

  lemma NothingDrawn(v: VaultState, u: Address)
    requires v.debts == EMPTY_VAULT.debts && v.credit == EMPTY_VAULT.credit
    ensures TwoSided(v, u, 0, 0, 0, 0)
  {
  }

  lemma StakeOn(v: VaultState, v': VaultState, u: Address, q: Position, amount: int, s1: int, d1: int, s2: int, d2: int)
    requires TwoSided(v, u, s1, d1, s2, d2) && v'.debts == v.debts
    requires v'.credit == v.credit.(stake := v.credit.stake[q := Stake(v, q) + amount])
    ensures TwoSided(v', u, if q == First(u) then s1 + amount else s1, d1,
                     if q == Second(u) then s2 + amount else s2, d2)
  {
  }

  lemma DrawOnFirst(v: VaultState, v': VaultState, u: Address, s1: int, amount: int)
    requires TwoSided(v, u, s1, 0, 0, 0) && amount > 0
    requires v'.debts == RecordCredit(v, First(u), 2, amount).debts
    requires v'.credit == RecordCredit(v, First(u), 2, amount).credit
    ensures TwoSided(v', u, s1, amount, 0, 0)
  {
  }

  lemma DrawOnSecond(v: VaultState, v': VaultState, u: Address, s1: int, d1: int, s2: int, amount: int)
    requires TwoSided(v, u, s1, d1, s2, 0) && amount > 0 && d1 > 0
    requires v'.debts == RecordCredit(v, Second(u), 2, amount).debts
    requires v'.credit == RecordCredit(v, Second(u), 2, amount).credit
    ensures TwoSided(v', u, s1, d1, s2, amount)
  {
  }

  lemma QuotesOfTheRun()
    ensures QuoteBuy(100, 100, 25) == Ok(45) && QuoteBuy(125, 80, 45) == Ok(90) && QuoteBuy(125, 80, 80) == Ok(143)
    ensures QuoteBuy(100, 100, 10) == Ok(20) && QuoteBuy(90, 110, 20) == Ok(34)
  {
  }

  /** The user stakes 25 on YES, draws 10 on it, stakes 45 on NO, draws 20 on that; someone buys YES for 80. */
  function TwoSidedRun(c: Address, u: Address, w: Address, t1: Terms, t2: Terms): seq<J.Entry> {
    Opening(c, [t1, t2]) + [BuyIn(u, 1, 25, true)] + [Draw(First(u), 2, 10, true)]
    + [BuyIn(u, 1, 45, false)] + [Draw(Second(u), 2, 20, true)] + [BuyIn(w, 1, 80, true)]
  }

  /** Both stakes and both draws. */
  lemma FirstHalf(c: Address, u: Address, t1: Terms, t2: Terms) returns (s: J.Joint, b: map<nat, Stall>)
    requires Fine(t1) && Fine(t2) && c.Account? && u.Account?
    ensures J.Reaches(Opening(c, [t1, t2]) + [BuyIn(u, 1, 25, true)] + [Draw(First(u), 2, 10, true)], s)
    ensures Scene(s, c, b, 225) && 1 in b && 2 in b
    ensures b[1] == Stall(t1, Reserves(80, 125), 115, 10) && b[2] == Stall(t2, Reserves(90, 110), 110, 0)
    ensures TwoSided(s.ledger.vault, u, 25, 10, 0, 0) && Balance(s.ledger.tokens, u, Side(1, No)) == 0
  {
    hide J.Reaches, Scene, TwoSided, CreditAllowed, QuoteBuy, Fine;
    QuotesOfTheRun();
    TwoStalls(t1, t2);
    var e0 := Opening(c, [t1, t2]);
    var b0 := Board([t1, t2]);
    var s0 := Opens(c, [t1, t2]);
    NothingDrawn(s0.ledger.vault, u);
    var s1 := Buys(e0, s0, c, b0, 200, u, 1, 25, true, 45);
    StakeOn(s0.ledger.vault, s1.ledger.vault, u, First(u), 25, 0, 0, 0, 0);
    var b1 := b0[1 := b0[1].Sold(Yes, 25, 45)];
    DrawsOnFirst(s1, c, b1, 225, u, 25, 0, 0, 0, First(u), 10);
    s := Draws(e0 + [BuyIn(u, 1, 25, true)], s1, c, b1, 225, First(u), 2, 10, true, 20);
    DrawOnFirst(s1.ledger.vault, s.ledger.vault, u, 25, 10);
    b := b1[1 := b1[1].Lends(10)][2 := b1[2].Sold(Yes, 10, 20)];
    assert Balance(s.ledger.tokens, u, Side(1, No)) == 0;
  }

  lemma DrawsOnFirst(s: J.Joint, c: Address, b: map<nat, Stall>, held: int, u: Address, s1: int, d1: int, s2: int,
                     d2: int, q: Position, amount: int)
    requires Scene(s, c, b, held) && 1 in b && TwoSided(s.ledger.vault, u, s1, d1, s2, d2)
    requires q == First(u) || q == Second(u)
    requires 0 < amount <= b[1].funds
    requires var (stake, drawn) := if q == First(u) then (s1, d1) else (s2, d2);
             stake >= 0 && (drawn + amount) * BPS_DENOMINATOR <= stake * CHILD_COLLATERAL_BPS
    ensures CreditAllowed(s.ledger.vault, s.ledger.reg, q, 2, amount).Ok?
  {
    hide CreditAllowed;
    MayDraw(s.ledger, c, b[1], q, 2, amount);
  }

  /** Where the run ends: selling the 90 NO now brings 19, at most five per cent above the 20 drawn on them. */
  lemma TwoSidedRunEnds(c: Address, u: Address, w: Address, t1: Terms, t2: Terms)
    returns (s: J.Joint, b: map<nat, Stall>)
    requires Fine(t1) && Fine(t2) && c.Account? && u.Account? && w.Account? && u != w
    ensures J.Reaches(TwoSidedRun(c, u, w, t1, t2), s)
    ensures Scene(s, c, b, 350) && 1 in b && b[1] == Stall(t1, Reserves(62, 160), 220, 30)
    ensures TwoSided(s.ledger.vault, u, 25, 10, 45, 20) && Balance(s.ledger.tokens, u, Side(1, No)) == 90
  {
    hide J.Reaches, Scene, TwoSided, CreditAllowed, QuoteBuy, Fine;
    QuotesOfTheRun();
    var s2, b2 := FirstHalf(c, u, t1, t2);
    var e2 := Opening(c, [t1, t2]) + [BuyIn(u, 1, 25, true)] + [Draw(First(u), 2, 10, true)];
    var s3 := Buys(e2, s2, c, b2, 225, u, 1, 45, false, 90);
    var b3 := b2[1 := b2[1].Sold(No, 45, 90)];
    StakeOn(s2.ledger.vault, s3.ledger.vault, u, Second(u), 45, 25, 10, 0, 0);
    DrawsOnFirst(s3, c, b3, 270, u, 25, 10, 45, 0, Second(u), 20);
    var e3 := e2 + [BuyIn(u, 1, 45, false)];
    var s4 := Draws(e3, s3, c, b3, 270, Second(u), 2, 20, true, 34);
    var b4 := b3[1 := b3[1].Lends(20)][2 := b3[2].Sold(Yes, 20, 34)];
    DrawOnSecond(s3.ledger.vault, s4.ledger.vault, u, 25, 10, 45, 20);
    var e4 := e3 + [Draw(Second(u), 2, 20, true)];
    s := Buys(e4, s4, c, b4, 270, w, 1, 80, true, 143);
    b := b4[1 := b4[1].Sold(Yes, 80, 143)];
    StakeOn(s4.ledger.vault, s.ledger.vault, u, Position(1, w, Yes), 80, 25, 10, 45, 20);
    assert Balance(s.ledger.tokens, u, Side(1, No)) == 90;
  }

  /** The failure of the waterfall in a run that the contracts accept: a user drew on both sides of a market into the
      same child market. The liquidation of the NO side pays the debt of the YES side, hands the rest of the
      proceeds to the user, and books the whole NO debt as a loss. */
  lemma TwoLendersBreakTheWaterfall(c: Address, u: Address, w: Address, liquidator: Address, t1: Terms, t2: Terms)
    requires Fine(t1) && Fine(t2) && c.Account? && u.Account? && w.Account? && liquidator.Account? && u != w
    ensures J.Accepted(J.BIRTH, TwoSidedRun(c, u, w, t1, t2))
    ensures var s := J.Run(J.BIRTH, TwoSidedRun(c, u, w, t1, t2));
            var l := s.ledger;
            var r := Liquidate(l, s.clock, liquidator, u, 1, No);
            && r.Ok?
            && var (l', receipt) := r.value;
            && ParentDebt(l.vault, First(u)) == 10 && ParentDebt(l.vault, Second(u)) == 20
            && receipt.debtRepaid == 10 && receipt.remainder == 9
            && ParentDebt(l'.vault, First(u)) == 0
            && AccountOf(l'.vault, 1).loans.defaulted == AccountOf(l.vault, 1).loans.defaulted + 20
  {
    hide J.Run, J.Accepted, Lawful, Liquidate, Scene, TwoSidedRun;
    var s, b := TwoSidedRunEnds(c, u, w, t1, t2);
    Reached(TwoSidedRun(c, u, w, t1, t2), s);
    LiquidateSecond(s, c, b, t1, u, liquidator);
  }

  lemma SaleOfTheRun()
    ensures QuoteSell(160, 62, 90) == Ok(19)
  {
    assert 312 * 312 - 4 * (90 * 62) == 75024;
    IsqrtUnique(75024, 273);
  }

  lemma LiquidateSecond(s: J.Joint, c: Address, b: map<nat, Stall>, t1: Terms, u: Address, liquidator: Address)
    requires Scene(s, c, b, 350) && 1 in b && b[1] == Stall(t1, Reserves(62, 160), 220, 30) && Lawful(s.ledger)
    requires u.Account? && liquidator.Account?
    requires TwoSided(s.ledger.vault, u, 25, 10, 45, 20) && Balance(s.ledger.tokens, u, Side(1, No)) == 90
    ensures var l := s.ledger;
            var r := Liquidate(l, s.clock, liquidator, u, 1, No);
            && r.Ok?
            && var (l', receipt) := r.value;
            && receipt.debtRepaid == 10 && receipt.remainder == 9
            && ParentDebt(l'.vault, First(u)) == 0
            && AccountOf(l'.vault, 1).loans.defaulted == AccountOf(l.vault, 1).loans.defaulted + 20
  {
    hide Lawful, QuoteSell, ForceSell, PriceSell, LiquidateRelease, RouteProceeds;
    var l := s.ledger;
    SaleOfTheRun();
    OpenTrades(l, 0, c, 1, b[1], 350);
    var pool := l.amm.pools[1];
    FreeSale(pool, 90, No);
    ForcedSale(l, 0, u, 1, Reserves(62, 160), No, 90, 19);
    var trade := Trade(No, 90, 19, 0);
    assert Bps(20, LIQUIDATION_THRESHOLD_BPS) == 21;
    assert PriceLiquidation(l, 0, liquidator, u, 1, No, false) == Ok((pool, trade));
    ReleaseSecond(l.vault, l.reg, u);
  }

  lemma ReleaseSecond(v: VaultState, reg: RegistryState, u: Address)
    requires TwoSided(v, u, 25, 10, 45, 20) && 1 in reg.markets && v.purse == Purse(350, 0, false)
    requires AccountOf(v, 1).cash == Cash(220, 220, 0, 0)
    ensures var r := LiquidateRelease(v, reg, Second(u), 90, 19);
            && r.Ok?
            && var (v', receipt) := r.value;
            && receipt.debtRepaid == 10 && receipt.remainder == 9
            && ParentDebt(v', First(u)) == 0
            && AccountOf(v', 1).loans.defaulted == AccountOf(v, 1).loans.defaulted + 20
  {
    hide RouteProceeds;
    assert Bps(19, LIQUIDATION_BONUS_BPS) == 0;
    var v1 := ExtractProceeds(v, Second(u), 90, 19).value;
    LiquidateTheOther(v1, First(u), Second(u), 2, 10, 20, 19);
    RoutePurse(v1, Second(u), 19);
  }

  lemma RoutePurse(v: VaultState, q: Position, pool: int)
    ensures RouteProceeds(v, q, pool).0.purse.balance == v.purse.balance
  {
    hide SettleChildren, ResolveParentDefault;
    SettleChildrenLosesNothing(v, q.user, ChildrenOf(v, q), pool);
    var v1 := SettleChildren(v, q.user, ChildrenOf(v, q), pool).0;
    DefaultPurse(v1, q, Used(v1, q));
  }

  lemma DefaultPurse(v: VaultState, q: Position, total: int)
    ensures ResolveParentDefault(v, q, total).purse.balance == v.purse.balance
  {
    if total > 0 {
      ClearChildrenBooks(WrittenOff(v, q, total), q, ChildrenOf(v, q), total);
    }
  }
}
