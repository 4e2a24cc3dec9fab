// Runs in which the credit limit breaks. A user draws on market 1 first and then from market 2 into market 1, which is
// then both parent and child; closing the leg there, or redeeming with it in debt, takes stake from under the credit.

module ChainStories {
  import opened DikeTypes
  import opened DikeMath
  import opened MarketRegistry
  import opened PoolQuotes
  import opened TokenLedger
  import opened VaultLedger
  import opened VaultDebts
  import opened AmmPools
  import opened LedgerLaws
  import opened LedgerParties
  import opened LedgerEffects
  import opened LedgerLimit
  import opened LedgerChains
  import opened Stage
  import W = WaterfallStory
  import J = JointRuns

  function Middle(u: Address): Position {
    Position(1, u, Yes)
  }

  function Outer(u: Address): Position {
    Position(2, u, Yes)
  }

  /** The user stakes 100 on YES of market 1 and draws 60 on it into market 3; then the user stakes 100 on YES of
      market 2 and draws 60 on it into NO of market 1. */
  function ChainRun(c: Address, u: Address, t1: Terms, t2: Terms, t3: Terms): seq<J.Entry> {
    Opening(c, [t1, t2, t3]) + [BuyIn(u, 1, 100, true)] + [Draw(Middle(u), 3, 60, true)]
    + [BuyIn(u, 2, 100, true)] + [Draw(Outer(u), 1, 60, false)]
  }

  /** What the user drew from market 1 into market 3, and from market 2 into market 1. */
  ghost predicate Chained(v: VaultState, u: Address, first: int, second: int) {
    && Used(v, Middle(u)) == first && ParentDebt(v, Middle(u)) == first && ChildDebt(v, Leg(3, u)) == first
    && Used(v, Outer(u)) == second && ParentDebt(v, Outer(u)) == second && ChildDebt(v, Leg(1, u)) == second
    && !HasParent(v, Leg(2, u))
    && (HasParent(v, Leg(1, u)) <==> second > 0) && (second > 0 ==> Lender(v, Leg(1, u)) == Outer(u))
    && (HasParent(v, Leg(3, u)) <==> first > 0) && (first > 0 ==> ChildrenOf(v, Middle(u)) != [])
  }

  lemma NothingChained(v: VaultState, u: Address)
    requires v.debts == EMPTY_VAULT.debts && v.credit == EMPTY_VAULT.credit
    ensures Chained(v, u, 0, 0) && Stake(v, Middle(u)) == 0 && Stake(v, Outer(u)) == 0
  {
  }

  lemma StakeChained(v: VaultState, v': VaultState, u: Address, q: Position, amount: int, first: int, second: int)
    requires Chained(v, u, first, second) && v'.debts == v.debts
    requires v'.credit == v.credit.(stake := v.credit.stake[q := Stake(v, q) + amount])
    ensures Chained(v', u, first, second)
    ensures forall p :: Stake(v', p) == Stake(v, p) + (if p == q then amount else 0)
  {
  }

  lemma DrawFirst(v: VaultState, v': VaultState, u: Address, amount: int)
    requires Chained(v, u, 0, 0) && amount > 0
    requires v'.debts == RecordCredit(v, Middle(u), 3, amount).debts
    requires v'.credit == RecordCredit(v, Middle(u), 3, amount).credit
    ensures Chained(v', u, amount, 0) && v'.credit.stake == v.credit.stake
  {
  }

  lemma DrawSecond(v: VaultState, v': VaultState, u: Address, first: int, amount: int)
    requires Chained(v, u, first, 0) && first > 0 && amount > 0
    requires v'.debts == RecordCredit(v, Outer(u), 1, amount).debts
    requires v'.credit == RecordCredit(v, Outer(u), 1, amount).credit
    ensures Chained(v', u, first, amount) && v'.credit.stake == v.credit.stake
  {
  }

  lemma QuotesOfTheChain()
    ensures QuoteBuy(100, 100, 100) == Ok(150) && QuoteBuy(100, 100, 60) == Ok(98) && QuoteBuy(200, 50, 60) == Ok(170)
  {
  }

  lemma ChainBegins(c: Address, u: Address, t1: Terms, t2: Terms, t3: Terms) returns (s: J.Joint, b: map<nat, Stall>)
    requires Fine(t1) && Fine(t2) && Fine(t3) && c.Account? && u.Account? && u != c
    ensures J.Reaches(Opening(c, [t1, t2, t3]) + [BuyIn(u, 1, 100, true)] + [Draw(Middle(u), 3, 60, true)], s)
    ensures Scene(s, c, b, 400) && 1 in b && 2 in b && b[2] == Stall(t2, Reserves(100, 100), 100, 0)
    ensures b[1] == Stall(t1, Reserves(50, 200), 140, 60)
    ensures Chained(s.ledger.vault, u, 60, 0)
    ensures Stake(s.ledger.vault, Middle(u)) == 100 && Stake(s.ledger.vault, Outer(u)) == 0
    ensures Balance(s.ledger.tokens, u, Side(1, Yes)) == 150
  {
    hide J.Reaches, Scene, Chained, QuoteBuy, Fine, CreditAllowed;
    QuotesOfTheChain();
    ThreeStalls(t1, t2, t3);
    var e0 := Opening(c, [t1, t2, t3]);
    var b0 := Board([t1, t2, t3]);
    var s0 := Opens(c, [t1, t2, t3]);
    NothingChained(s0.ledger.vault, u);
    var s1 := Buys(e0, s0, c, b0, 300, u, 1, 100, true, 150);
    var b1 := b0[1 := b0[1].Sold(Yes, 100, 150)];
    StakeChained(s0.ledger.vault, s1.ledger.vault, u, Middle(u), 100, 0, 0);
    ChainDraws(s1, c, b1, 400, u, 0, 0, Middle(u), 3, 60);
    s := Draws(e0 + [BuyIn(u, 1, 100, true)], s1, c, b1, 400, Middle(u), 3, 60, true, 98);
    b := b1[1 := b1[1].Lends(60)][3 := b1[3].Sold(Yes, 60, 98)];
    DrawFirst(s1.ledger.vault, s.ledger.vault, u, 60);
  }

  lemma ChainDraws(s: J.Joint, c: Address, b: map<nat, Stall>, held: int, u: Address, first: int, second: int,
                   q: Position, m: nat, amount: int)
    requires Scene(s, c, b, held) && q.market in b && Chained(s.ledger.vault, u, first, second)
    requires (q == Middle(u) && m == 3 && first == second == 0) || (q == Outer(u) && m == 1 && second == 0)
    requires Stake(s.ledger.vault, q) == 100 && 0 < amount <= 60 && amount <= b[q.market].funds
    ensures CreditAllowed(s.ledger.vault, s.ledger.reg, q, m, amount).Ok?
  {
    hide CreditAllowed;
    MayDraw(s.ledger, c, b[q.market], q, m, amount);
  }

  /** Market 1 is the middle of the user's chain. */
  lemma ChainRunEnds(c: Address, u: Address, t1: Terms, t2: Terms, t3: Terms) returns (s: J.Joint)
    requires Fine(t1) && Fine(t2) && Fine(t3) && c.Account? && u.Account? && u != c
    ensures J.Reaches(ChainRun(c, u, t1, t2, t3), s)
    ensures s.clock == 0 && Holding(s.ledger, 500) && Asked(s, 1, {})
    ensures Open(s.ledger, c, 1, Stall(t1, Reserves(110, 90), 200, 60))
    ensures Chained(s.ledger.vault, u, 60, 60) && Stake(s.ledger.vault, Middle(u)) == 100
    ensures Balance(s.ledger.tokens, u, Side(1, Yes)) == 150
  {
    hide J.Reaches, Chained, QuoteBuy, Fine, CreditAllowed, Open;
    QuotesOfTheChain();
    var s2, b2 := ChainBegins(c, u, t1, t2, t3);
    var e2 := Opening(c, [t1, t2, t3]) + [BuyIn(u, 1, 100, true)] + [Draw(Middle(u), 3, 60, true)];
    var s3 := Buys(e2, s2, c, b2, 400, u, 2, 100, true, 150);
    var b3 := b2[2 := b2[2].Sold(Yes, 100, 150)];
    StakeChained(s2.ledger.vault, s3.ledger.vault, u, Outer(u), 100, 60, 0);
    ChainDraws(s3, c, b3, 500, u, 60, 0, Outer(u), 1, 60);
    s := Draws(e2 + [BuyIn(u, 2, 100, true)], s3, c, b3, 500, Outer(u), 1, 60, false, 170);
    var b := b3[2 := b3[2].Lends(60)][1 := b3[1].Sold(No, 60, 170)];
    DrawSecond(s3.ledger.vault, s.ledger.vault, u, 60, 60);
    assert b[1] == Stall(t1, Reserves(110, 90), 200, 60);
    assert Balance(s.ledger.tokens, u, Side(1, Yes)) == 150;
  }

  /** The rule that no market is both parent and child of one user fails in a run that the contracts accept. */
  lemma ChainStands(c: Address, u: Address, t1: Terms, t2: Terms, t3: Terms)
    requires Fine(t1) && Fine(t2) && Fine(t3) && c.Account? && u.Account? && u != c
    ensures J.Accepted(J.BIRTH, ChainRun(c, u, t1, t2, t3))
    ensures var v := J.Run(J.BIRTH, ChainRun(c, u, t1, t2, t3)).ledger.vault;
            InChain(v, 1, u) && ParentDebt(v, Middle(u)) == 60 && ChildDebt(v, Leg(1, u)) == 60
  {
    hide J.Run, J.Accepted, ChainRun, Fine;
    var s := ChainRunEnds(c, u, t1, t2, t3);
    assert ChildrenOf(s.ledger.vault, Position(1, u, Yes)) != [];
  }

  // ---------------------------------------------------------------- redeeming with the leg in debt

  /** Market 1 is decided YES, and the user, whose leg there owes 60, redeems 60 of its tokens: all of it goes upstream,
      60 of the stake of 100 are gone, and the 60 used on it are still used. */
  lemma RedemptionBreaksLimit(c: Address, u: Address, t1: Terms, t2: Terms, t3: Terms)
    requires Fine(t1) && Fine(t2) && Fine(t3) && c.Account? && u.Account? && u != c
    ensures var run := ChainRun(c, u, t1, t2, t3) + Decision(c, 1, t1, Yes, 1);
            && J.Accepted(J.BIRTH, run + [Redeem(u, 1, Yes, 60)])
            && WithinAt(J.Run(J.BIRTH, run).ledger.vault, Middle(u))
            && !WithinAt(J.Run(J.BIRTH, run + [Redeem(u, 1, Yes, 60)]).ledger.vault, Middle(u))
  {
    hide J.Run, J.Accepted, ChainRun, Decision, Fine, Limit;
    var e0 := ChainRun(c, u, t1, t2, t3);
    var s0 := ChainRunEnds(c, u, t1, t2, t3);
    var s1 := Decides(e0, s0, 1, t1, 1, {}, c, Yes);
    BookDecided(s0.ledger, s1.ledger, 1, Decided(t1, Yes, 1), 1, LiveMarket(t1), Cash(200, 200, 0, 0), Loans(60, 0, 0));
    SameChained(s0.ledger.vault, s1.ledger.vault, u);
    var s2 := RedeemsUpstream(e0 + Decision(c, 1, t1, Yes, 1), s1, Middle(u), Outer(u), 60, 60);
    StakeUsed(s1.ledger.vault, s2.ledger.vault, u);
    BpsBounds(100, CHILD_COLLATERAL_BPS);
    BpsBounds(40, CHILD_COLLATERAL_BPS);
    LimitsOfTheRun();
  }

  lemma LimitsOfTheRun()
    ensures Limit(100) == 60 && Limit(40) == 24 && Limit(0) == 0
  {
  }

  lemma SameChained(v: VaultState, v': VaultState, u: Address)
    requires Chained(v, u, 60, 60) && v'.debts == v.debts && v'.credit == v.credit
    ensures Chained(v', u, 60, 60) && Stake(v', Middle(u)) == Stake(v, Middle(u))
  {
  }

  lemma StakeUsed(v: VaultState, v': VaultState, u: Address)
    requires PaidUp(v, v', Middle(u), Outer(u), 60, 60) && Stake(v, Middle(u)) == 100 && Chained(v, u, 60, 60)
    ensures Stake(v', Middle(u)) == 40 && Used(v', Middle(u)) == 60
  {
  }

  // ---------------------------------------------------------------- closing the leg

  lemma SaleOfTheChain()
    ensures QuoteSell(110, 90, 150) == Ok(44)
  {
    assert 350 * 350 - 4 * (150 * 90) == 68500;
    IsqrtUnique(68500, 261);
  }

  /** Anyone may close the user's leg in market 1 by selling the YES tokens, which bring 44 against a debt of 60: the
      whole stake of 100 is gone, and the 60 used on it are still used. */
  lemma ClosingBreaksLimit(c: Address, u: Address, liquidator: Address, t1: Terms, t2: Terms, t3: Terms)
    requires Fine(t1) && Fine(t2) && Fine(t3) && c.Account? && u.Account? && u != c && liquidator.Account?
    ensures J.Accepted(J.BIRTH, ChainRun(c, u, t1, t2, t3))
    ensures var s := J.Run(J.BIRTH, ChainRun(c, u, t1, t2, t3));
            var r := LiquidateChild(s.ledger, s.clock, liquidator, u, 1, Yes);
            && r.Ok? && WithinAt(s.ledger.vault, Middle(u)) && !WithinAt(r.value.0.vault, Middle(u))
  {
    hide J.Run, J.Accepted, ChainRun, LiquidateChild, Lawful, OwnLegs, Limit, Open;
    var s := ChainRunEnds(c, u, t1, t2, t3);
    Reached(ChainRun(c, u, t1, t2, t3), s);
    LimitsOfTheRun();
    LiquidateMiddle(s.ledger, c, t1, u, liquidator);
  }

  lemma LiquidateMiddle(l: Ledger, c: Address, t1: Terms, u: Address, liquidator: Address)
    requires Lawful(l) && OwnLegs(l.vault) && Holding(l, 500)
    requires Open(l, c, 1, Stall(t1, Reserves(110, 90), 200, 60)) && u.Account? && liquidator.Account?
    requires Chained(l.vault, u, 60, 60) && Stake(l.vault, Middle(u)) == 100
    requires Balance(l.tokens, u, Side(1, Yes)) == 150
    ensures var r := LiquidateChild(l, 0, liquidator, u, 1, Yes);
            && r.Ok? && Stake(r.value.0.vault, Middle(u)) == 0 && Used(r.value.0.vault, Middle(u)) == 60
  {
    hide Lawful, OwnLegs, SoundDebts, QuoteSell, ForceSell, PriceSell, LiquidateChildRelease;
    SaleOfTheChain();
    OpenTrades(l, 0, c, 1, Stall(t1, Reserves(110, 90), 200, 60), 500);
    var pool := l.amm.pools[1];
    FreeSale(pool, 150, Yes);
    ForcedSale(l, 0, u, 1, Reserves(110, 90), Yes, 150, 44);
    var trade := Trade(Yes, 150, 44, 0);
    assert Bps(60, LIQUIDATION_THRESHOLD_BPS) == 63;
    assert PriceLiquidation(l, 0, liquidator, u, 1, Yes, true) == Ok((pool, trade));
    MiddleCloses(l.vault, l.reg, u);
    SoundOf(l);
    ClosedReads(l.vault, l.reg, Middle(u), 150, 44, Middle(u));
  }

  lemma SoundOf(l: Ledger)
    requires Lawful(l)
    ensures SoundDebts(l.vault)
  {
    hide SoundDebts;
  }

  lemma MiddleCloses(v: VaultState, reg: RegistryState, u: Address)
    requires Chained(v, u, 60, 60) && 1 in reg.markets && v.purse == Purse(500, 0, false)
    requires AccountOf(v, 1).cash == Cash(200, 200, 0, 0)
    ensures LiquidateChildRelease(v, reg, Middle(u), 150, 44).Ok?
  {
    hide SettleChildDebt, ResolveParentDefault;
    assert Bps(44, LIQUIDATION_BONUS_BPS) == 1;
    var v1 := ExtractProceeds(v, Middle(u), 150, 44).value;
    MiddleSettles(v1, u);
    var v2 := SettleChildDebt(v1, Leg(1, u), 43).0;
    W.DefaultPurse(v2, Outer(u), 17);
  }

  lemma MiddleSettles(v: VaultState, u: Address)
    requires HasParent(v, Leg(1, u)) && Lender(v, Leg(1, u)) == Outer(u)
    requires ChildDebt(v, Leg(1, u)) == 60 && ParentDebt(v, Outer(u)) == 60
    ensures var (v', applied) := SettleChildDebt(v, Leg(1, u), 43);
            && applied == 43 && ChildDebt(v', Leg(1, u)) == 17 && v'.purse == v.purse
            && HasParent(v', Leg(1, u)) && Lender(v', Leg(1, u)) == Outer(u)
  {
  }
}
