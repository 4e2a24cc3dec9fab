// A run in which closing a leg books more as lost than was owed: the parent market was decided, and its debt partly
// repaid out of a claim, while the market of the leg still trades.

module LegStories {
  import opened DikeTypes
  import opened DikeMath
  import opened MarketRegistry
  import opened PoolQuotes
  import opened TokenLedger
  import opened VaultLedger
  import opened VaultDebts
  import opened VaultClaims
  import opened AmmPools
  import opened LedgerLaws
  import opened LedgerEffects
  import opened Stage
  import opened CoverStories
  import W = WaterfallStory
  import J = JointRuns

  /** A borrower stakes 100 on YES and draws 60 into YES of market 2; market 1 is decided YES while market 2 still
      trades, and the borrower redeems 20, all of which is kept back against the 60. */
  function LeftoverRun(c: Address, a: Address, t1: Terms, t2: Terms): seq<J.Entry> {
    Opening(c, [t1, t2]) + [BuyIn(a, 1, 100, true)] + [Draw(First(a), 2, 60, true)]
    + Decision(c, 1, t1, Yes, 1) + [Redeem(a, 1, Yes, 20)]
  }

  lemma LegDrawn(c: Address, a: Address, t1: Terms, t2: Terms) returns (s: J.Joint, b: map<nat, Stall>)
    requires Fine(t1) && Fine(t2) && c.Account? && a.Account? && a != c
    ensures J.Reaches(Opening(c, [t1, t2]) + [BuyIn(a, 1, 100, true)] + [Draw(First(a), 2, 60, true)], s)
    ensures Scene(s, c, b, 300) && 1 in b && 2 in b
    ensures b[1] == Stall(t1, Reserves(50, 200), 140, 60) && b[2] == Stall(t2, Reserves(62, 160), 160, 0)
    ensures Owes(s.ledger.vault, First(a), 2, 60)
    ensures Balance(s.ledger.tokens, a, Side(1, Yes)) == 150 && Balance(s.ledger.tokens, a, Side(2, Yes)) == 98
  {
    hide J.Reaches, Scene, Owes, DebtFree, QuoteBuy, Fine, CreditAllowed;
    QuotesOfTheBorrowers();
    TwoStalls(t1, t2);
    var e0 := Opening(c, [t1, t2]);
    var b0 := Board([t1, t2]);
    var s0 := Opens(c, [t1, t2]);
    NobodyOwes(s0.ledger.vault, First(a), 2, c);
    var s1 := Buys(e0, s0, c, b0, 200, a, 1, 100, true, 150);
    var b1 := b0[1 := b0[1].Sold(Yes, 100, 150)];
    SameOwes(s0.ledger.vault, s1.ledger.vault, First(a), 2, 0);
    OwesDraws(s1, c, b1, 300, First(a), 2, 100, 60);
    s := Draws(e0 + [BuyIn(a, 1, 100, true)], s1, c, b1, 300, First(a), 2, 60, true, 98);
    b := b1[1 := b1[1].Lends(60)][2 := b1[2].Sold(Yes, 60, 98)];
    DrawnOwes(s1.ledger.vault, s.ledger.vault, First(a), 2, 60);
  }

  /** The vault when the leg, with 60 on record, outlives the 40 its parent position still owes. */
  ghost predicate LegOutlives(v: VaultState, a: Address) {
    && AccountOf(v, 2).cash == Cash(160, 160, 0, 0) && AccountOf(v, 1).cash == Cash(160, 160, 0, 0)
    && AccountOf(v, 1).loans == Loans(60, 20, 0) && v.purse == Purse(300, 0, false)
    && ParentDebt(v, First(a)) == 40 && ChildDebt(v, Leg(2, a)) == 60 && LendsTo(v, First(a), Leg(2, a))
  }

  lemma LeftoverRunEnds(c: Address, a: Address, t1: Terms, t2: Terms) returns (s: J.Joint)
    requires Fine(t1) && Fine(t2) && c.Account? && a.Account? && a != c
    ensures J.Reaches(LeftoverRun(c, a, t1, t2), s)
    ensures s.clock == t1.expiry + t1.disputeWindow + 1
    ensures Holding(s.ledger, 300) && Open(s.ledger, c, 2, Stall(t2, Reserves(62, 160), 160, 0))
    ensures LegOutlives(s.ledger.vault, a) && Balance(s.ledger.tokens, a, Side(2, Yes)) == 98
  {
    hide J.Reaches, Owes, Fine, Decision, Settled;
    var e0 := Opening(c, [t1, t2]) + [BuyIn(a, 1, 100, true)] + [Draw(First(a), 2, 60, true)];
    var s0, b := LegDrawn(c, a, t1, t2);
    assert Open(s0.ledger, c, 1, b[1]) && Open(s0.ledger, c, 2, b[2]);
    var s1 := Decides(e0, s0, 1, t1, 1, {}, c, Yes);
    BookDecided(s0.ledger, s1.ledger, 1, Decided(t1, Yes, 1), 1, LiveMarket(t1), Cash(140, 140, 0, 0), Loans(60, 0, 0));
    OpenElsewhere(s0.ledger, s1.ledger, 1, Decided(t1, Yes, 1), c, 2, b[2]);
    SameOwes(s0.ledger.vault, s1.ledger.vault, First(a), 2, 60);
    OwesReads(s1.ledger.vault, First(a), 2, 60);
    s := Redeems(e0 + Decision(c, 1, t1, Yes, 1), s1, a, 1, Yes, 20);
    BookSettled(s1.ledger, s.ledger, First(a), 20, 1, Decided(t1, Yes, 1), Cash(140, 140, 0, 0), Loans(60, 0, 0));
    OpenSettled(s1.ledger, s.ledger, First(a), 20, c, 2, b[2]);
    SettledPurse(s1.ledger.vault, s.ledger.vault, First(a), 20);
    LegLeft(s1.ledger.vault, s.ledger.vault, a);
  }

  lemma LegLeft(v: VaultState, v': VaultState, a: Address)
    requires Settled(v, v', First(a), 20)
    requires ParentDebt(v, First(a)) == 60 && ChildDebt(v, Leg(2, a)) == 60
    requires HasParent(v, Leg(2, a)) && Lender(v, Leg(2, a)) == First(a)
    ensures ParentDebt(v', First(a)) == 40 && ChildDebt(v', Leg(2, a)) == 60 && LendsTo(v', First(a), Leg(2, a))
  {
  }

  // ---------------------------------------------------------------- closing it

  lemma SaleOfTheLeg()
    ensures QuoteSell(62, 160, 98) == Ok(60)
  {
    assert 320 * 320 - 4 * (98 * 160) == 39680;
    IsqrtUnique(39680, 199);
  }

  lemma CloseOutlived(v: VaultState, reg: RegistryState, a: Address)
    requires LegOutlives(v, a) && 2 in reg.markets
    ensures var r := LiquidateChildRelease(v, reg, Position(2, a, Yes), 98, 60);
            && r.Ok?
            && var (v', receipt) := r.value;
            && receipt.debtRepaid == 40 && receipt.remainder == 19
            && AccountOf(v', 1).loans == Loans(60, 60, 20) && AccountOf(v', 1).cash.shortfall == 20
  {
    hide SettleChildDebt, ResolveParentDefault;
    assert Bps(60, LIQUIDATION_BONUS_BPS) == 1;
    var v1 := ExtractProceeds(v, Position(2, a, Yes), 98, 60).value;
    SettleOutlived(v1, a);
    var v2 := SettleChildDebt(v1, Leg(2, a), 59).0;
    LossBooked(v2, First(a), 20);
    W.DefaultPurse(v2, First(a), 20);
  }

  lemma SettleOutlived(v: VaultState, a: Address)
    requires ParentDebt(v, First(a)) == 40 && ChildDebt(v, Leg(2, a)) == 60 && LendsTo(v, First(a), Leg(2, a))
    ensures var (v', applied) := SettleChildDebt(v, Leg(2, a), 59);
            && applied == 40 && ChildDebt(v', Leg(2, a)) == 20 && LendsTo(v', First(a), Leg(2, a))
            && v'.purse == v.purse && AccountOf(v', 1) == AccountOf(v, 1).RepaidBy(40)
  {
  }

  lemma LossBooked(v: VaultState, q: Position, total: int)
    requires total > 0 && v.purse.reserve == 0
    ensures AccountOf(ResolveParentDefault(v, q, total), q.market) == AccountOf(v, q.market).Defaulted(total, 0)
  {
    ClearChildrenBooks(WrittenOff(v, q, total), q, ChildrenOf(v, q), total);
  }

  /** The overcharge in a run that the contracts accept, with market 1 decided before market 2 expires: closing the leg
      repays the 40 that its parent position still owed, and then books 20 more as a loss of market 1, though nothing
      was owed any more: 60 were lent, 60 came back, and the book shows a shortfall of 20. */
  lemma ClosingOvercharges(c: Address, a: Address, liquidator: Address, t1: Terms, t2: Terms)
    requires Fine(t1) && Fine(t2) && c.Account? && a.Account? && liquidator.Account? && a != c
    requires t1.expiry + t1.disputeWindow + 1 < t2.expiry
    ensures J.Accepted(J.BIRTH, LeftoverRun(c, a, t1, t2))
    ensures var s := J.Run(J.BIRTH, LeftoverRun(c, a, t1, t2));
            var r := LiquidateChild(s.ledger, s.clock, liquidator, a, 2, Yes);
            && 0 < ParentDebt(s.ledger.vault, First(a)) < ChildDebt(s.ledger.vault, Leg(2, a))
            && r.Ok?
            && var (l', receipt) := r.value;
            && receipt.debtRepaid == ParentDebt(s.ledger.vault, First(a)) == 40
            && AccountOf(l'.vault, 1).loans == Loans(60, 60, 20) && AccountOf(l'.vault, 1).cash.shortfall == 20
  {
    hide J.Run, J.Accepted, Lawful, LeftoverRun, LiquidateChild, Open;
    var s := LeftoverRunEnds(c, a, t1, t2);
    Reached(LeftoverRun(c, a, t1, t2), s);
    LiquidateLeg(s.ledger, s.clock, c, t2, a, liquidator);
  }

  lemma LiquidateLeg(l: Ledger, now: nat, c: Address, t2: Terms, a: Address, liquidator: Address)
    requires Lawful(l) && Holding(l, 300) && Open(l, c, 2, Stall(t2, Reserves(62, 160), 160, 0)) && now < t2.expiry
    requires a.Account? && liquidator.Account?
    requires LegOutlives(l.vault, a) && Balance(l.tokens, a, Side(2, Yes)) == 98
    ensures var r := LiquidateChild(l, now, liquidator, a, 2, Yes);
            && r.Ok?
            && var (l', receipt) := r.value;
            && receipt.debtRepaid == 40
            && AccountOf(l'.vault, 1).loans == Loans(60, 60, 20) && AccountOf(l'.vault, 1).cash.shortfall == 20
  {
    hide Lawful, QuoteSell, ForceSell, PriceSell, LiquidateChildRelease;
    SaleOfTheLeg();
    OpenTrades(l, now, c, 2, Stall(t2, Reserves(62, 160), 160, 0), 300);
    var pool := l.amm.pools[2];
    FreeSale(pool, 98, Yes);
    ForcedSale(l, now, a, 2, Reserves(62, 160), Yes, 98, 60);
    var trade := Trade(Yes, 98, 60, 0);
    assert Bps(60, LIQUIDATION_THRESHOLD_BPS) == 63;
    assert PriceLiquidation(l, now, liquidator, a, 2, Yes, true) == Ok((pool, trade));
    CloseOutlived(l.vault, l.reg, a);
  }
}
