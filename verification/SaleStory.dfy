// A run in which a sale breaks the credit limit. A leg closed at a loss writes off all that its parent position owes,
// but only its own part of the credit in use; the position then counts as free of debt, and may be sold.

module SaleStory {
  import opened DikeTypes
  import opened DikeMath
  import opened MarketRegistry
  import opened PoolQuotes
  import opened TokenLedger
  import opened VaultLedger
  import opened VaultDebts
  import opened AmmPools
  import opened LedgerCalls
  import opened LedgerLaws
  import opened LedgerEffects
  import opened LedgerLimit
  import opened Stage
  import J = JointRuns

  function Root(u: Address): Position {
    Position(1, u, Yes)
  }

  /** The user stakes 100 on YES of market 1 and draws 30 into market 2 and 30 into market 3; someone buys NO of market
      2 for 100. */
  function TwoLegsRun(c: Address, u: Address, w: Address, t1: Terms, t2: Terms, t3: Terms): seq<J.Entry> {
    Opening(c, [t1, t2, t3]) + [BuyIn(u, 1, 100, true)] + [Draw(Root(u), 2, 30, true)] + [Draw(Root(u), 3, 30, true)]
    + [BuyIn(w, 2, 100, false)]
  }

  function CloseLegs(liquidator: Address, u: Address): J.Entry {
    J.After(0, J.Trade(LegLiquidation(liquidator, u, 2, Yes)))
  }

  function Sell(u: Address): J.Entry {
    J.After(0, J.Trade(Sale(u, 1, 150, 0, 0, true)))
  }

  /** A position of market 1 that lends to legs in markets 2 and 3. */
  ghost predicate Lent(v: VaultState, u: Address, second: int, third: int) {
    && Used(v, Root(u)) == second + third && ParentDebt(v, Root(u)) == second + third
    && ChildDebt(v, Leg(1, u)) == 0 && !HasParent(v, Leg(1, u))
    && ChildDebt(v, Leg(2, u)) == second && (HasParent(v, Leg(2, u)) <==> second > 0)
    && (second > 0 ==> Lender(v, Leg(2, u)) == Root(u))
    && (HasParent(v, Leg(3, u)) <==> third > 0)
    && ChildrenOf(v, Root(u)) == (if second > 0 then [2] else []) + (if third > 0 then [3] else [])
  }

  lemma NothingLent(v: VaultState, u: Address)
    requires v.debts == EMPTY_VAULT.debts && v.credit == EMPTY_VAULT.credit
    ensures Lent(v, u, 0, 0) && Stake(v, Root(u)) == 0
  {
  }

  lemma StakeLent(v: VaultState, v': VaultState, u: Address, q: Position, amount: int, second: int, third: int)
    requires Lent(v, u, second, third) && v'.debts == v.debts
    requires v'.credit == v.credit.(stake := v.credit.stake[q := Stake(v, q) + amount])
    ensures Lent(v', u, second, third)
    ensures Stake(v', Root(u)) == Stake(v, Root(u)) + (if q == Root(u) then amount else 0)
  {
  }

  lemma LendSecond(v: VaultState, v': VaultState, u: Address, amount: int)
    requires Lent(v, u, 0, 0) && amount > 0
    requires v'.debts == RecordCredit(v, Root(u), 2, amount).debts
    requires v'.credit == RecordCredit(v, Root(u), 2, amount).credit
    ensures Lent(v', u, amount, 0) && Stake(v', Root(u)) == Stake(v, Root(u))
  {
  }

  lemma LendThird(v: VaultState, v': VaultState, u: Address, second: int, amount: int)
    requires Lent(v, u, second, 0) && second > 0 && amount > 0
    requires v'.debts == RecordCredit(v, Root(u), 3, amount).debts
    requires v'.credit == RecordCredit(v, Root(u), 3, amount).credit
    ensures Lent(v', u, second, amount) && Stake(v', Root(u)) == Stake(v, Root(u))
  {
  }

  lemma LendDraws(s: J.Joint, c: Address, b: map<nat, Stall>, held: int, u: Address, second: int, m: nat, amount: int)
    requires Scene(s, c, b, held) && 1 in b && Lent(s.ledger.vault, u, second, 0)
    requires m == (if second > 0 then 3 else 2) && 0 <= second <= 30
    requires Stake(s.ledger.vault, Root(u)) == 100 && 0 < amount <= 30 && amount <= b[1].funds
    ensures CreditAllowed(s.ledger.vault, s.ledger.reg, Root(u), m, amount).Ok?
  {
    hide CreditAllowed;
    MayDraw(s.ledger, c, b[1], Root(u), m, amount);
  }

  lemma QuotesOfTheLegs()
    ensures QuoteBuy(100, 100, 100) == Ok(150) && QuoteBuy(100, 100, 30) == Ok(54) && QuoteBuy(130, 76, 100) == Ok(174)
  {
  }

  lemma BothLent(c: Address, u: Address, t1: Terms, t2: Terms, t3: Terms) returns (s: J.Joint, b: map<nat, Stall>)
    requires Fine(t1) && Fine(t2) && Fine(t3) && c.Account? && u.Account?
    ensures J.Reaches(Opening(c, [t1, t2, t3]) + [BuyIn(u, 1, 100, true)] + [Draw(Root(u), 2, 30, true)]
                      + [Draw(Root(u), 3, 30, true)], s)
    ensures Scene(s, c, b, 400) && 1 in b && 2 in b
    ensures b[1] == Stall(t1, Reserves(50, 200), 140, 60) && b[2] == Stall(t2, Reserves(76, 130), 130, 0)
    ensures Lent(s.ledger.vault, u, 30, 30) && Stake(s.ledger.vault, Root(u)) == 100
    ensures Balance(s.ledger.tokens, u, Side(1, Yes)) == 150 && Balance(s.ledger.tokens, u, Side(2, Yes)) == 54
  {
    hide J.Reaches, Scene, Lent, QuoteBuy, Fine, CreditAllowed;
    QuotesOfTheLegs();
    ThreeStalls(t1, t2, t3);
    var e0 := Opening(c, [t1, t2, t3]);
    var b0 := Board([t1, t2, t3]);
    var s0 := Opens(c, [t1, t2, t3]);
    NothingLent(s0.ledger.vault, u);
    var s1 := Buys(e0, s0, c, b0, 300, u, 1, 100, true, 150);
    var b1 := b0[1 := b0[1].Sold(Yes, 100, 150)];
    StakeLent(s0.ledger.vault, s1.ledger.vault, u, Root(u), 100, 0, 0);
    LendDraws(s1, c, b1, 400, u, 0, 2, 30);
    var e1 := e0 + [BuyIn(u, 1, 100, true)];
    var s2 := Draws(e1, s1, c, b1, 400, Root(u), 2, 30, true, 54);
    var b2 := b1[1 := b1[1].Lends(30)][2 := b1[2].Sold(Yes, 30, 54)];
    LendSecond(s1.ledger.vault, s2.ledger.vault, u, 30);
    LendDraws(s2, c, b2, 400, u, 30, 3, 30);
    s := Draws(e1 + [Draw(Root(u), 2, 30, true)], s2, c, b2, 400, Root(u), 3, 30, true, 54);
    b := b2[1 := b2[1].Lends(30)][3 := b2[3].Sold(Yes, 30, 54)];
    LendThird(s2.ledger.vault, s.ledger.vault, u, 30, 30);
    assert Balance(s.ledger.tokens, u, Side(1, Yes)) == 150 && Balance(s.ledger.tokens, u, Side(2, Yes)) == 54;
  }

  lemma TwoLegsRunEnds(c: Address, u: Address, w: Address, t1: Terms, t2: Terms, t3: Terms)
    returns (s: J.Joint, b: map<nat, Stall>)
    requires Fine(t1) && Fine(t2) && Fine(t3) && c.Account? && u.Account? && w.Account? && u != w
    ensures J.Reaches(TwoLegsRun(c, u, w, t1, t2, t3), s)
    ensures Scene(s, c, b, 500) && 1 in b && 2 in b
    ensures b[1] == Stall(t1, Reserves(50, 200), 140, 60) && b[2] == Stall(t2, Reserves(176, 56), 230, 0)
    ensures Lent(s.ledger.vault, u, 30, 30) && Stake(s.ledger.vault, Root(u)) == 100
    ensures Balance(s.ledger.tokens, u, Side(1, Yes)) == 150 && Balance(s.ledger.tokens, u, Side(2, Yes)) == 54
  {
    hide J.Reaches, Scene, Lent, QuoteBuy, Fine;
    QuotesOfTheLegs();
    var s0, b0 := BothLent(c, u, t1, t2, t3);
    var e0 := Opening(c, [t1, t2, t3]) + [BuyIn(u, 1, 100, true)] + [Draw(Root(u), 2, 30, true)]
              + [Draw(Root(u), 3, 30, true)];
    s := Buys(e0, s0, c, b0, 400, w, 2, 100, false, 174);
    b := b0[2 := b0[2].Sold(No, 100, 174)];
    StakeLent(s0.ledger.vault, s.ledger.vault, u, Position(2, w, No), 100, 30, 30);
    assert Balance(s.ledger.tokens, u, Side(1, Yes)) == 150 && Balance(s.ledger.tokens, u, Side(2, Yes)) == 54;
  }

  // ---------------------------------------------------------------- closing a leg at a loss

  lemma SaleOfTheLeg()
    ensures QuoteSell(176, 56, 54) == Ok(11)
  {
    assert 286 * 286 - 4 * (54 * 56) == 69700;
    IsqrtUnique(69700, 264);
  }

  /** The position is free of debt and still uses 30, with the whole stake behind it. */
  ghost predicate Stale(v: VaultState, u: Address) {
    && ParentDebt(v, Root(u)) == 0 && Used(v, Root(u)) == 30 && Stake(v, Root(u)) == 100
    && ChildDebt(v, Leg(1, u)) == 0
    && AccountOf(v, 1).cash.backing >= 100 && AccountOf(v, 1).cash.refundable >= 100
    && 1 in v.books.accounts && v.purse == Purse(500, 0, false)
  }

  lemma SettleShort(v: VaultState, u: Address)
    requires Lent(v, u, 30, 30)
    ensures var (v', applied) := SettleChildDebt(v, Leg(2, u), 11);
            && applied == 11 && v'.credit == v.credit && v'.purse == v.purse
            && ParentDebt(v', Root(u)) == 49 && Used(v', Root(u)) == 49
            && ChildDebt(v', Leg(2, u)) == 19 && ChildDebt(v', Leg(1, u)) == 0
            && AccountOf(v', 1) == AccountOf(v, 1).RepaidBy(11) && 1 in v'.books.accounts
  {
  }

  lemma DefaultShort(v: VaultState, u: Address)
    requires ParentDebt(v, Root(u)) == 49 && Used(v, Root(u)) == 49 && ChildrenOf(v, Root(u)) == [2, 3]
    requires ChildDebt(v, Leg(2, u)) == 19 && ChildDebt(v, Leg(1, u)) == 0 && v.purse.reserve == 0
    requires 1 in v.books.accounts
    ensures var v' := ResolveParentDefault(v, Root(u), 19);
            && ParentDebt(v', Root(u)) == 0 && Used(v', Root(u)) == 30 && ChildDebt(v', Leg(1, u)) == 0
            && v'.credit == v.credit && v'.purse == v.purse && 1 in v'.books.accounts
            && AccountOf(v', 1).cash.backing == AccountOf(v, 1).cash.backing
            && AccountOf(v', 1).cash.refundable == AccountOf(v, 1).cash.refundable
  {
    var v1 := WrittenOff(v, Root(u), 19);
    var v2 := ClearOne(v1, Root(u), Leg(2, u), 19);
    assert [2, 3][1..] == [3];
    assert ClearChildren(v1, Root(u), [2, 3], 19) == ClearChildren(v2, Root(u), [3], 0) == v2;
  }

  lemma CloseShort(v: VaultState, reg: RegistryState, u: Address)
    requires Lent(v, u, 30, 30) && Stake(v, Root(u)) == 100 && 2 in reg.markets && v.purse == Purse(500, 0, false)
    requires AccountOf(v, 1).cash == Cash(140, 140, 0, 0) && AccountOf(v, 2).cash == Cash(230, 230, 0, 0)
    requires 1 in v.books.accounts
    ensures var r := LiquidateChildRelease(v, reg, Position(2, u, Yes), 54, 11);
            r.Ok? && Stale(r.value.0, u)
  {
    hide SettleChildDebt, ResolveParentDefault, Lent;
    assert Bps(11, LIQUIDATION_BONUS_BPS) == 0;
    ShortDebt(v, u);
    var v1 := ExtractProceeds(v, Position(2, u, Yes), 54, 11).value;
    ExtractLent(v, v1, u);
    SettleShort(v1, u);
    var v2 := SettleChildDebt(v1, Leg(2, u), 11).0;
    LentLinks(v1, u);
    assert HasParent(v2, Leg(2, u)) && Lender(v2, Leg(2, u)) == Root(u) && ChildrenOf(v2, Root(u)) == [2, 3];
    DefaultShort(v2, u);
  }

  lemma ShortDebt(v: VaultState, u: Address)
    requires Lent(v, u, 30, 30)
    ensures ChildDebt(v, Leg(2, u)) == 30
  {
  }

  lemma LentLinks(v: VaultState, u: Address)
    requires Lent(v, u, 30, 30)
    ensures HasParent(v, Leg(2, u)) && Lender(v, Leg(2, u)) == Root(u) && ChildrenOf(v, Root(u)) == [2, 3]
  {
  }

  lemma ExtractLent(v: VaultState, v1: VaultState, u: Address)
    requires Lent(v, u, 30, 30) && ExtractProceeds(v, Position(2, u, Yes), 54, 11) == Ok(v1)
    ensures Lent(v1, u, 30, 30) && Stake(v1, Root(u)) == Stake(v, Root(u)) && v1.purse == v.purse
    ensures AccountOf(v1, 1) == AccountOf(v, 1) && (1 in v.books.accounts ==> 1 in v1.books.accounts)
  {
  }

  /** The ledger once the leg in market 2 is closed. */
  ghost predicate Freed(l: Ledger, c: Address, u: Address, t1: Terms) {
    && Stale(l.vault, u) && !l.reg.paused && !l.amm.paused
    && 1 in l.reg.markets && l.reg.markets[1] == LiveMarket(t1) && Fine(t1)
    && 1 in l.amm.pools && l.amm.pools[1] == FirstPool(1, c, 100).(reserves := Reserves(50, 200))
    && Balance(l.tokens, u, Side(1, Yes)) == 150
  }

  lemma ClosesLeg(s: J.Joint, c: Address, b: map<nat, Stall>, u: Address, liquidator: Address, t1: Terms, t2: Terms)
    requires Scene(s, c, b, 500) && 1 in b && 2 in b && Lawful(s.ledger) && u.Account? && liquidator.Account?
    requires b[1] == Stall(t1, Reserves(50, 200), 140, 60) && b[2] == Stall(t2, Reserves(176, 56), 230, 0)
    requires Lent(s.ledger.vault, u, 30, 30) && Stake(s.ledger.vault, Root(u)) == 100
    requires Balance(s.ledger.tokens, u, Side(1, Yes)) == 150 && Balance(s.ledger.tokens, u, Side(2, Yes)) == 54
    ensures var r := Apply(s.ledger, 0, LegLiquidation(liquidator, u, 2, Yes));
            r.Ok? && Freed(r.value, c, u, t1)
  {
    hide Lawful, QuoteSell, PriceSell, LiquidateChildRelease, ForceTokens, CollectFee, Lent, Stale, SplitTradingFee,
         AfterSell;
    var l := s.ledger;
    SaleOfTheLeg();
    OpenTrades(l, 0, c, 2, b[2], 500);
    assert Open(l, c, 1, b[1]);
    var pool := l.amm.pools[2];
    FreeSale(pool, 54, Yes);
    ForcedSale(l, 0, u, 2, Reserves(176, 56), Yes, 54, 11);
    var trade := Trade(Yes, 54, 11, 0);
    assert Bps(30, LIQUIDATION_THRESHOLD_BPS) == 31;
    ShortDebt(l.vault, u);
    assert PriceLiquidation(l, 0, liquidator, u, 2, Yes, true) == Ok((pool, trade));
    CloseShort(l.vault, l.reg, u);
    ForcedElsewhere(l.tokens, u, 2, trade, Side(1, Yes));
  }

  lemma ForcedElsewhere(t: TokenState, user: Address, m: nat, trade: Trade, s: Side)
    requires ForceTokens(t, user, m, trade).Ok? && s.market != m
    ensures Balance(ForceTokens(t, user, m, trade).value, user, s) == Balance(t, user, s)
  {
  }

  // ---------------------------------------------------------------- and selling the position

  lemma SaleOfTheRoot()
    ensures QuoteSell(50, 200, 150) == Ok(100)
  {
    assert 400 * 400 - 4 * (150 * 200) == 40000;
    IsqrtUnique(40000, 200);
  }

  lemma RootSold(l: Ledger, c: Address, u: Address, t1: Terms)
    requires Lawful(l) && Freed(l, c, u, t1) && u.Account?
    ensures var r := Apply(l, 0, Sale(u, 1, 150, 0, 0, true));
            r.Ok? && Stake(r.value.vault, Root(u)) == 0 && Used(r.value.vault, Root(u)) == 30
  {
    hide Lawful, QuoteSell, PriceSell, SellTokens, SellVault, SplitTradingFee, AfterSell, Fine;
    SaleOfTheRoot();
    var pool := l.amm.pools[1];
    FreeSale(pool, 150, Yes);
    NoParts(pool.fee);
    var trade := Trade(Yes, 150, 100, 0);
    Expires(t1);
    RootTokens(l, u);
    RootPaid(l.vault, l.reg, u, trade);
  }

  lemma Expires(t1: Terms)
    requires Fine(t1)
    ensures t1.expiry > 0
  {
  }

  lemma RootTokens(l: Ledger, u: Address)
    requires Lawful(l) && u.Account? && Stale(l.vault, u) && Balance(l.tokens, u, Side(1, Yes)) == 150
    requires 1 in l.amm.pools && l.amm.pools[1].reserves == Reserves(50, 200)
    ensures SellTokens(l.vault, l.tokens, u, 1, Trade(Yes, 150, 100, 0)).Ok?
  {
    hide Lawful, MergePositions, MovePosition;
    PoolHolds(l, 1);
    TokensSound(l);
    ForcedTokensMove(l.tokens, u, 1, Yes, 150, 100);
  }

  lemma RootPaid(v: VaultState, reg: RegistryState, u: Address, trade: Trade)
    requires Stale(v, u) && 1 in reg.markets && trade == Trade(Yes, 150, 100, 0)
    ensures var r := SellVault(v, reg, Root(u), trade, FeeSplit(0, 0, 0));
            r.Ok? && Stake(r.value, Root(u)) == 0 && Used(r.value, Root(u)) == 30
  {
  }

  /** Closing the leg brings 11 against its debt of 30. What is missing is booked as a loss, the debt of the position
      is written off, but 30 of its credit stay in use; the sale of all its tokens is then accepted, and the 30 stand
      against no stake. */
  lemma SaleBreaksLimit(c: Address, u: Address, w: Address, liquidator: Address, t1: Terms, t2: Terms, t3: Terms)
    requires Fine(t1) && Fine(t2) && Fine(t3) && c.Account? && u.Account? && w.Account? && liquidator.Account? && u != w
    ensures var run := TwoLegsRun(c, u, w, t1, t2, t3) + [CloseLegs(liquidator, u)];
            && J.Accepted(J.BIRTH, run + [Sell(u)])
            && WithinAt(J.Run(J.BIRTH, run).ledger.vault, Root(u))
            && !WithinAt(J.Run(J.BIRTH, run + [Sell(u)]).ledger.vault, Root(u))
  {
    hide J.Run, J.Accepted, J.Apply, Apply, TwoLegsRun, Lawful, Fine, Limit, Scene, Lent;
    var e0 := TwoLegsRun(c, u, w, t1, t2, t3);
    var s0, b := TwoLegsRunEnds(c, u, w, t1, t2, t3);
    Reached(e0, s0);
    SceneNow(s0, c, b);
    ClosesLeg(s0, c, b, u, liquidator, t1, t2);
    var call := LegLiquidation(liquidator, u, 2, Yes);
    var l1 := Apply(s0.ledger, 0, call).value;
    TradeAccepted(s0, call, l1);
    var s1 := s0.(ledger := l1);
    J.Onward(e0, s0, 0, J.Trade(call), s1);
    Reached(e0 + [CloseLegs(liquidator, u)], s1);
    RootSold(l1, c, u, t1);
    var sale := Sale(u, 1, 150, 0, 0, true);
    var l2 := Apply(l1, 0, sale).value;
    TradeAccepted(s1, sale, l2);
    J.Onward(e0 + [CloseLegs(liquidator, u)], s1, 0, J.Trade(sale), s1.(ledger := l2));
    LimitsHere();
  }

  lemma SceneNow(s: J.Joint, c: Address, b: map<nat, Stall>)
    requires Scene(s, c, b, 500)
    ensures s.clock == 0
  {
  }

  lemma LimitsHere()
    ensures Limit(100) == 60 && Limit(0) == 0
  {
  }
}
