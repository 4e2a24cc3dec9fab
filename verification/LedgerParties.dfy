// Whom a call can touch: a user's tokens, stakes, debts and pool shares change only through calls that name the
// user. The debt paths loop over child lists and follow the links from legs to parents, so this needs that a
// user's legs are only ever linked to the user's own positions.

module LedgerParties {
  import opened Basics
  import opened DikeTypes
  import opened DikeMath
  import opened MarketRegistry
  import opened TokenLedger
  import opened VaultLedger
  import opened VaultDebts
  import opened AmmPools
  import opened LedgerCalls
  import opened LedgerMoney
  import opened LedgerPools
  import opened LedgerLaws

  /** A user's legs owe to the user's own positions in other markets, and no position lists a leg twice. */
  ghost predicate OwnLegs(v: VaultState) {
    && (forall leg :: leg in v.credit.lender ==>
                        v.credit.lender[leg].user == leg.user && v.credit.lender[leg].market != leg.market)
    && (forall q :: q in v.credit.children ==> Distinct(v.credit.children[q]))
  }

  /** The records of a position and of its user's leg in market c. */
  predicate SameRecords(v: VaultState, v': VaultState, q: Position, c: nat) {
    && Stake(v', q) == Stake(v, q)
    && Used(v', q) == Used(v, q)
    && ParentDebt(v', q) == ParentDebt(v, q)
    && ChildrenOf(v', q) == ChildrenOf(v, q)
    && ChildDebt(v', Leg(c, q.user)) == ChildDebt(v, Leg(c, q.user))
    && HasParent(v', Leg(c, q.user)) == HasParent(v, Leg(c, q.user))
    && (HasParent(v, Leg(c, q.user)) ==> Lender(v', Leg(c, q.user)) == Lender(v, Leg(c, q.user)))
  }

  /** A step on behalf of one user. */
  ghost predicate OnlyFor(v: VaultState, v': VaultState, user: Address) {
    OwnLegs(v') && forall q: Position, c: nat :: q.user != user ==> SameRecords(v, v', q, c)
  }

  lemma OnlyTwice(v: VaultState, v1: VaultState, v2: VaultState, user: Address)
    requires OnlyFor(v, v1, user) && OnlyFor(v1, v2, user)
    ensures OnlyFor(v, v2, user)
  {
    forall q: Position, c: nat | q.user != user
      ensures SameRecords(v, v2, q, c)
    {
      assert SameRecords(v, v1, q, c) && SameRecords(v1, v2, q, c);
    }
  }

  /** Books, escrow and purse are nobody's records. */
  lemma SameDebtRecords(v: VaultState, v': VaultState, user: Address)
    requires OwnLegs(v) && v'.debts == v.debts && v'.credit == v.credit
    ensures OnlyFor(v, v', user)
  {
    hide Distinct;
  }

  // ---------------------------------------------------------------- the vault

  lemma SettleOnly(v: VaultState, leg: Leg, repayment: int)
    requires OwnLegs(v)
    ensures OnlyFor(v, SettleChildDebt(v, leg, repayment).0, leg.user)
  {
    hide Distinct;
  }

  lemma {:induction false} SettleChildrenOnly(v: VaultState, user: Address, list: seq<nat>, pool: int)
    requires OwnLegs(v)
    ensures OnlyFor(v, SettleChildren(v, user, list, pool).0, user)
    decreases |list|
  {
    hide SettleChildDebt, OnlyFor, OwnLegs;
    if list == [] || pool == 0 {
      SameDebtRecords(v, v, user);
    } else {
      SettleOnly(v, Leg(list[0], user), pool);
      var (v1, applied) := SettleChildDebt(v, Leg(list[0], user), pool);
      OnlyOwns(v, v1, user);
      SettleChildrenOnly(v1, user, list[1..], pool - applied);
      OnlyTwice(v, v1, SettleChildren(v1, user, list[1..], pool - applied).0, user);
    }
  }

  lemma OnlyOwns(v: VaultState, v': VaultState, user: Address)
    requires OnlyFor(v, v', user)
    ensures OwnLegs(v')
  {
  }

  lemma ClearOneOnly(v: VaultState, q: Position, leg: Leg, cleared: int)
    requires OwnLegs(v) && leg.user == q.user
    ensures OnlyFor(v, ClearOne(v, q, leg, cleared), q.user)
  {
    hide Distinct;
  }

  lemma {:induction false} ClearChildrenOnly(v: VaultState, q: Position, list: seq<nat>, remaining: int)
    requires OwnLegs(v)
    ensures OnlyFor(v, ClearChildren(v, q, list, remaining), q.user)
    decreases |list|
  {
    hide ClearOne, OnlyFor, OwnLegs;
    if list == [] || remaining == 0 {
      SameDebtRecords(v, v, q.user);
    } else {
      var leg := Leg(list[0], q.user);
      var owed := ChildDebt(v, leg);
      if owed == 0 {
        ClearChildrenOnly(v, q, list[1..], remaining);
      } else {
        var cleared := Min(owed, remaining);
        var v1 := ClearOne(v, q, leg, cleared);
        ClearOneOnly(v, q, leg, cleared);
        OnlyOwns(v, v1, q.user);
        ClearChildrenOnly(v1, q, list[1..], remaining - cleared);
        OnlyTwice(v, v1, ClearChildren(v1, q, list[1..], remaining - cleared), q.user);
      }
    }
  }

  lemma DefaultOnly(v: VaultState, q: Position, total: int)
    requires OwnLegs(v)
    ensures OnlyFor(v, ResolveParentDefault(v, q, total), q.user)
  {
    hide Distinct;
    if total > 0 {
      var v1 := SetParentDebt(AbsorbDefault(v, q.market, total), q, 0);
      assert OnlyFor(v, v1, q.user);
      ClearChildrenOnly(v1, q, ChildrenOf(v, q), total);
      OnlyTwice(v, v1, ClearChildren(v1, q, ChildrenOf(v, q), total), q.user);
    }
  }

  lemma ExtractOnly(v: VaultState, q: Position, tokensSold: int, proceeds: int)
    requires OwnLegs(v) && ExtractProceeds(v, q, tokensSold, proceeds).Ok?
    ensures OnlyFor(v, ExtractProceeds(v, q, tokensSold, proceeds).value, q.user)
  {
    hide Distinct;
  }

  lemma RouteOnly(v: VaultState, q: Position, pool: int)
    requires OwnLegs(v)
    ensures OnlyFor(v, RouteProceeds(v, q, pool).0, q.user)
  {
    hide SettleChildren, ResolveParentDefault, OnlyFor, OwnLegs;
    SettleChildrenOnly(v, q.user, ChildrenOf(v, q), pool);
    var v1 := SettleChildren(v, q.user, ChildrenOf(v, q), pool).0;
    OnlyOwns(v, v1, q.user);
    DefaultOnly(v1, q, Used(v1, q));
    OnlyTwice(v, v1, ResolveParentDefault(v1, q, Used(v1, q)), q.user);
  }

  lemma CloseOnly(v: VaultState, leg: Leg, pool: int)
    requires OwnLegs(v)
    ensures OnlyFor(v, CloseLeg(v, leg, pool).0, leg.user)
  {
    hide SettleChildDebt, ResolveParentDefault, OnlyFor;
    SettleOnly(v, leg, pool);
    var v1 := SettleChildDebt(v, leg, pool).0;
    OnlyOwns(v, v1, leg.user);
    if ChildDebt(v1, leg) > 0 && HasParent(v1, leg) {
      DefaultOnly(v1, Lender(v1, leg), ChildDebt(v1, leg));
      OnlyTwice(v, v1, CloseLeg(v, leg, pool).0, leg.user);
    }
  }

  lemma PayOutOnly(v: VaultState, routed: (VaultState, int), proceeds: int, bonus: int, user: Address)
    requires OnlyFor(v, routed.0, user) && PayOut(routed, proceeds, bonus).Ok?
    ensures OnlyFor(v, PayOut(routed, proceeds, bonus).value.0, user)
  {
    hide OnlyFor;
    OnlyOwns(v, routed.0, user);
    var v' := PayOut(routed, proceeds, bonus).value.0;
    SameDebtRecords(routed.0, v', user);
    OnlyTwice(v, routed.0, v', user);
  }

  lemma LiquidateReleaseOnly(v: VaultState, reg: RegistryState, q: Position, tokensSold: int, proceeds: int)
    requires OwnLegs(v) && LiquidateRelease(v, reg, q, tokensSold, proceeds).Ok?
    ensures OnlyFor(v, LiquidateRelease(v, reg, q, tokensSold, proceeds).value.0, q.user)
  {
    hide ExtractProceeds, RouteProceeds, PayOut, OnlyFor, OwnLegs;
    var bonus := Bps(proceeds, LIQUIDATION_BONUS_BPS);
    ExtractOnly(v, q, tokensSold, proceeds);
    var v1 := ExtractProceeds(v, q, tokensSold, proceeds).value;
    OnlyOwns(v, v1, q.user);
    RouteOnly(v1, q, proceeds - bonus);
    PayOutOnly(v1, RouteProceeds(v1, q, proceeds - bonus), proceeds, bonus, q.user);
    OnlyTwice(v, v1, LiquidateRelease(v, reg, q, tokensSold, proceeds).value.0, q.user);
  }

  lemma LiquidateChildReleaseOnly(v: VaultState, reg: RegistryState, q: Position, tokensSold: int, proceeds: int)
    requires OwnLegs(v) && LiquidateChildRelease(v, reg, q, tokensSold, proceeds).Ok?
    ensures OnlyFor(v, LiquidateChildRelease(v, reg, q, tokensSold, proceeds).value.0, q.user)
  {
    hide ExtractProceeds, CloseLeg, PayOut, OnlyFor, OwnLegs;
    var bonus, leg := Bps(proceeds, LIQUIDATION_BONUS_BPS), Leg(q.market, q.user);
    ExtractOnly(v, q, tokensSold, proceeds);
    var v1 := ExtractProceeds(v, q, tokensSold, proceeds).value;
    OnlyOwns(v, v1, q.user);
    CloseOnly(v1, leg, proceeds - bonus);
    PayOutOnly(v1, CloseLeg(v1, leg, proceeds - bonus), proceeds, bonus, q.user);
    OnlyTwice(v, v1, LiquidateChildRelease(v, reg, q, tokensSold, proceeds).value.0, q.user);
  }

  lemma RepaymentOnly(v: VaultState, reg: RegistryState, leg: Leg, amount: int)
    requires OwnLegs(v) && RepayChildCollateral(v, reg, leg, amount).Ok?
    ensures OnlyFor(v, RepayChildCollateral(v, reg, leg, amount).value.0, leg.user)
  {
    hide SettleChildDebt, OnlyFor;
    var v1 := Receive(v, amount);
    SameDebtRecords(v, v1, leg.user);
    SettleOnly(v1, leg, amount);
    var v2 := SettleChildDebt(v1, leg, amount).0;
    OnlyOwns(v1, v2, leg.user);
    var v3 := RepayChildCollateral(v, reg, leg, amount).value.0;
    SameDebtRecords(v2, v3, leg.user);
    OnlyTwice(v, v1, v2, leg.user);
    OnlyTwice(v, v2, v3, leg.user);
  }

  lemma WithholdOnly(v: VaultState, q: Position, claim: int)
    requires OwnLegs(v)
    ensures OnlyFor(v, Withhold(v, q, claim).0, q.user)
  {
    hide Distinct;
  }

  lemma OwnDebtOnly(v: VaultState, q: Position, claim: int, gross: int)
    requires OwnLegs(v)
    ensures OnlyFor(v, DefaultIfWorthless(Withhold(v, q, claim).0, q, gross), q.user)
  {
    hide Withhold, ResolveParentDefault, OnlyFor, OwnLegs;
    WithholdOnly(v, q, claim);
    var v1 := Withhold(v, q, claim).0;
    OnlyOwns(v, v1, q.user);
    DefaultOnly(v1, q, ParentDebt(v1, q));
    if gross == 0 && ParentDebt(v1, q) > 0 {
      OnlyTwice(v, v1, ResolveParentDefault(v1, q, ParentDebt(v1, q)), q.user);
    }
  }

  lemma PayUpstreamOnly(v: VaultState, leg: Leg, claim: int)
    requires OwnLegs(v)
    ensures OnlyFor(v, PayUpstream(v, leg, claim).0, leg.user)
  {
    hide SettleChildDebt, OnlyFor;
    SettleOnly(v, leg, claim);
    var (v1, paid) := SettleChildDebt(v, leg, claim);
    OnlyOwns(v, v1, leg.user);
    SameDebtRecords(v1, PayUpstream(v, leg, claim).0, leg.user);
    OnlyTwice(v, v1, PayUpstream(v, leg, claim).0, leg.user);
  }

  lemma PaidOnly(v: VaultState, v1: VaultState, q: Position, gross: int, payout: int)
    requires OnlyFor(v, v1, q.user) && PayClaim(RetireStake(v1, q, gross), q.market, payout).Ok?
    ensures OnlyFor(v, PayClaim(RetireStake(v1, q, gross), q.market, payout).value, q.user)
  {
    hide Distinct;
    var v2 := PayClaim(RetireStake(v1, q, gross), q.market, payout).value;
    assert OnlyFor(v1, v2, q.user);
    hide OnlyFor;
    OnlyTwice(v, v1, v2, q.user);
  }

  lemma SettleClaimOnly(v: VaultState, q: Position, gross: int)
    requires OwnLegs(v) && SettleClaim(v, q, gross).Ok?
    ensures OnlyFor(v, SettleClaim(v, q, gross).value.0, q.user)
  {
    hide PayUpstream, Withhold, DefaultIfWorthless, RetireStake, PayClaim, CappedPayout, OnlyFor, OwnLegs;
    PayUpstreamOnly(v, Leg(q.market, q.user), gross);
    var (v1, upstream) := PayUpstream(v, Leg(q.market, q.user), gross);
    OnlyOwns(v, v1, q.user);
    OwnDebtOnly(v1, q, gross - upstream, gross);
    var (v2, rest) := ClaimAfterDebt(v, q, gross);
    OnlyTwice(v, v1, v2, q.user);
    PaidOnly(v, v2, q, gross, CappedPayout(AccountOf(v2, q.market), rest));
  }

  lemma SettleRefundOnly(v: VaultState, q: Position, gross: int)
    requires OwnLegs(v) && SettleRefund(v, q, gross).Ok?
    ensures OnlyFor(v, SettleRefund(v, q, gross).value.0, q.user)
  {
    hide Withhold, DefaultIfWorthless, PayClaim, CappedPayout, OnlyFor, OwnLegs;
    OwnDebtOnly(v, q, gross, gross);
    var (v1, kept) := Withhold(v, q, gross);
    var v2 := DefaultIfWorthless(v1, q, gross);
    assert RetireStake(v2, q, 0) == v2;
    PaidOnly(v, v2, q, 0, CappedPayout(AccountOf(v2, q.market), gross - kept));
  }

  lemma OpenClaimSame(v: VaultState, m: nat, final: Outcome, redeemed: Outcome, amount: int)
    ensures var v' := OpenClaim(v, m, final, redeemed, amount).0;
            v'.debts == v.debts && v'.credit == v.credit
  {
  }

  lemma DrawnElsewhere(v: VaultState, reg: RegistryState, q: Position, c: nat, amount: int)
    requires CreditAllowed(v, reg, q, c, amount).Ok?
    ensures q.market != c
  {
  }

  lemma RecordCreditOnly(v: VaultState, q: Position, c: nat, amount: int)
    requires OwnLegs(v) && q.market != c
    ensures OnlyFor(v, RecordCredit(v, q, c, amount), q.user)
  {
  }

  lemma PayInOnly(v: VaultState, reg: RegistryState, trader: Address, m: nat, parent: Parent, trade: Trade)
    requires OwnLegs(v) && PayIn(v, reg, trader, m, parent, trade).Ok?
    ensures OnlyFor(v, PayIn(v, reg, trader, m, parent, trade).value, trader)
  {
    hide Distinct;
    match parent
    case NoParent =>
    case FromParent(p) =>
      hide RecordCredit, OnlyFor, OwnLegs, CreditAllowed;
      var q := Position(p.market, trader, p.outcome);
      DrawnElsewhere(v, reg, q, m, trade.amountIn);
      RecordCreditOnly(v, q, m, trade.amountIn);
      var v1 := RecordCredit(v, q, m, trade.amountIn);
      OnlyOwns(v, v1, trader);
      SameDebtRecords(v1, MoveBacking(v1, q.market, m, trade.amountIn), trader);
      OnlyTwice(v, v1, MoveBacking(v1, q.market, m, trade.amountIn), trader);
  }

  // ---------------------------------------------------------------- every call on the vault

  /** On whose behalf a call changes the vault's records; bonds, sweeps and administration concern nobody's. */
  function Actor(call: Call): Address {
    match call
    case Creation(creator, _, _, _) => creator
    case Purchase(trader, _, _, _, _, _, _) => trader
    case Sale(trader, _, _, _, _, _) => trader
    case Liquidation(_, user, _, _) => user
    case LegLiquidation(_, user, _, _) => user
    case Seeding(lp, _, _) => lp
    case Addition(lp, _, _) => lp
    case Removal(lp, _, _) => lp
    case FeeClaim(lp, _) => lp
    case Transfer(from, _, _, _) => from
    case LosingBurn(owner, _, _) => owner
    case Repayment(user, _, _) => user
    case Redemption(user, _, _, _) => user
    case Refund(user, _, _, _) => user
    case _ => AmmContract
  }

  lemma BuyOnly(v: VaultState, reg: RegistryState, trader: Address, m: nat, parent: Parent, trade: Trade,
                split: FeeSplit)
    requires OwnLegs(v) && BuyVault(v, reg, trader, m, parent, trade, split).Ok?
    ensures OnlyFor(v, BuyVault(v, reg, trader, m, parent, trade, split).value, trader)
  {
    hide PayIn, OnlyFor, OwnLegs;
    PayInOnly(v, reg, trader, m, parent, trade);
    var v1 := PayIn(v, reg, trader, m, parent, trade).value;
    OnlyOwns(v, v1, trader);
    SameDebtRecords(v1, BuyVault(v, reg, trader, m, parent, trade, split).value, trader);
    OnlyTwice(v, v1, BuyVault(v, reg, trader, m, parent, trade, split).value, trader);
  }

  lemma SellOnly(v: VaultState, reg: RegistryState, q: Position, trade: Trade, split: FeeSplit)
    requires OwnLegs(v) && SellVault(v, reg, q, trade, split).Ok?
    ensures OnlyFor(v, SellVault(v, reg, q, trade, split).value, q.user)
  {
    hide ExtractProceeds, OnlyFor, OwnLegs;
    ExtractOnly(v, q, trade.amountIn, trade.gross - trade.fee);
    var v1 := ExtractProceeds(v, q, trade.amountIn, trade.gross - trade.fee).value;
    OnlyOwns(v, v1, q.user);
    SameDebtRecords(v1, SellVault(v, reg, q, trade, split).value, q.user);
    OnlyTwice(v, v1, SellVault(v, reg, q, trade, split).value, q.user);
  }

  lemma ForceSellSame(l: Ledger, user: Address, id: nat, pool: Pool, trade: Trade)
    requires ForceSell(l, user, id, pool, trade).Ok?
    ensures var v' := ForceSell(l, user, id, pool, trade).value.vault;
            v'.debts == l.vault.debts && v'.credit == l.vault.credit
  {
  }

  lemma TradeOnly(l: Ledger, now: nat, call: Call)
    requires call.Purchase? || call.Sale? || call.Liquidation? || call.LegLiquidation?
    requires ApplyTrade(l, now, call).Ok? && OwnLegs(l.vault)
    ensures OnlyFor(l.vault, ApplyTrade(l, now, call).value.vault, Actor(call))
  {
    hide BuyVault, SellVault, LiquidateRelease, LiquidateChildRelease, RequireLive, PriceBuy, PriceSell,
         PriceLiquidation, BuyTokens, SellTokens, ForceSell, SplitTradingFee, AfterBuy, AfterSell, OnlyFor, OwnLegs;
    match call
    case Purchase(trader, id, amountIn, _, _, yes, parent) =>
      var pool := l.amm.pools[id];
      var trade := PriceBuy(pool, amountIn, SideOf(yes)).value;
      BuyOnly(l.vault, l.reg, trader, pool.market, parent, trade, SplitTradingFee(trade.fee, pool.fee));
    case Sale(trader, id, amountIn, _, _, yes) =>
      var pool := l.amm.pools[id];
      var trade := PriceSell(pool, amountIn, SideOf(yes)).value;
      SellOnly(l.vault, l.reg, Position(pool.market, trader, trade.outcome), trade,
               SplitTradingFee(trade.fee, pool.fee));
    case Liquidation(liquidator, user, id, outcome) =>
      var (pool, trade) := PriceLiquidation(l, now, liquidator, user, id, outcome, false).value;
      var l1 := ForceSell(l, user, id, pool, trade).value;
      var q := Position(pool.market, user, outcome);
      ForceSellSame(l, user, id, pool, trade);
      SameDebtRecords(l.vault, l1.vault, user);
      OnlyOwns(l.vault, l1.vault, user);
      LiquidateReleaseOnly(l1.vault, l1.reg, q, trade.amountIn, trade.gross - trade.fee);
      OnlyTwice(l.vault, l1.vault, ApplyTrade(l, now, call).value.vault, user);
    case LegLiquidation(liquidator, user, id, outcome) =>
      var (pool, trade) := PriceLiquidation(l, now, liquidator, user, id, outcome, true).value;
      var l1 := ForceSell(l, user, id, pool, trade).value;
      var q := Position(pool.market, user, outcome);
      ForceSellSame(l, user, id, pool, trade);
      SameDebtRecords(l.vault, l1.vault, user);
      OnlyOwns(l.vault, l1.vault, user);
      LiquidateChildReleaseOnly(l1.vault, l1.reg, q, trade.amountIn, trade.gross - trade.fee);
      OnlyTwice(l.vault, l1.vault, ApplyTrade(l, now, call).value.vault, user);
  }

  lemma LiquiditySame(l: Ledger, now: nat, call: Call)
    requires call.Creation? || call.Seeding? || call.Addition? || call.Removal? || call.FeeClaim?
    requires ApplyLiquidity(l, now, call).Ok?
    ensures var v' := ApplyLiquidity(l, now, call).value.vault;
            v'.debts == l.vault.debts && v'.credit == l.vault.credit
  {
    hide MintCompleteSet, RequireSeedable, RequireTradeable, RequireRemovable, SharesFor, Withdrawal, HandOut,
         FeesOwed, RegisterMarket, CreatePool, Transition, Seeded, Added, Removed, SetLp;
  }

  lemma RedeemOnly(l: Ledger, call: Call)
    requires (call.Redemption? || call.Refund?) && ApplyRedeem(l, call).Ok? && OwnLegs(l.vault)
    ensures OnlyFor(l.vault, ApplyRedeem(l, call).value.vault, call.user)
  {
    hide OpenClaim, SettleClaim, SettleRefund, Burn, OnlyFor, OwnLegs;
    var q := Position(call.market, call.user, call.outcome);
    var final := if call.Redemption? then l.reg.markets[q.market].final else Invalid;
    OpenClaimSame(l.vault, q.market, final, q.outcome, call.amount);
    var (v1, gross) := OpenClaim(l.vault, q.market, final, q.outcome, call.amount);
    SameDebtRecords(l.vault, v1, call.user);
    OnlyOwns(l.vault, v1, call.user);
    if call.Redemption? {
      SettleClaimOnly(v1, q, gross);
    } else {
      SettleRefundOnly(v1, q, gross);
    }
    OnlyTwice(l.vault, v1, ApplyRedeem(l, call).value.vault, call.user);
  }

  /** Every successful call changes the debt and stake records of its actor only. */
  lemma ApplyOnly(l: Ledger, now: nat, call: Call)
    requires Apply(l, now, call).Ok? && OwnLegs(l.vault)
    ensures OnlyFor(l.vault, Apply(l, now, call).value.vault, Actor(call))
  {
    hide ApplyTrade, ApplyLiquidity, ApplyRedeem, ApplyTokens, ApplyRegistry, RepayChildCollateral, OnlyFor, OwnLegs;
    var v' := Apply(l, now, call).value.vault;
    if call.Purchase? || call.Sale? || call.Liquidation? || call.LegLiquidation? {
      TradeOnly(l, now, call);
    } else if call.Redemption? || call.Refund? {
      RedeemOnly(l, call);
    } else if call.Repayment? {
      RepaymentOnly(l.vault, l.reg, Leg(call.market, call.user), call.amount);
    } else {
      if call.Creation? || call.Seeding? || call.Addition? || call.Removal? || call.FeeClaim? {
        LiquiditySame(l, now, call);
      }
      SameDebtRecords(l.vault, v', Actor(call));
    }
  }

  // ---------------------------------------------------------------- tokens and shares

  /** Whose tokens a call can move, the pool contract's apart. */
  predicate Moves(call: Call, owner: Address) {
    owner == Actor(call) || (call.Transfer? && owner == call.to)
  }

  predicate SameBalance(t: TokenState, t': TokenState, owner: Address, s: Side) {
    Balance(t', owner, s) == Balance(t, owner, s)
  }

  lemma BuyTokensOthers(v: VaultState, t: TokenState, trader: Address, m: nat, trade: Trade, owner: Address, s: Side)
    requires BuyTokens(v, t, trader, m, trade).Ok? && owner != trader && owner != AmmContract
    ensures SameBalance(t, BuyTokens(v, t, trader, m, trade).value, owner, s)
  {
    hide MintCompleteSet, TransferPosition;
    var net := trade.amountIn - trade.fee;
    MintExactly(t, AmmContract, m, net, owner, s);
    var t1 := MintCompleteSet(t, AmmContract, m, net).value;
    TransferExactly(v, t1, AmmContract, trader, Side(m, trade.outcome), trade.gross, owner, s);
  }

  lemma SellTokensOthers(v: VaultState, t: TokenState, trader: Address, m: nat, trade: Trade, owner: Address, s: Side)
    requires SellTokens(v, t, trader, m, trade).Ok? && owner != trader && owner != AmmContract
    ensures SameBalance(t, SellTokens(v, t, trader, m, trade).value, owner, s)
  {
    hide MergePositions, TransferPosition;
    TransferExactly(v, t, trader, AmmContract, Side(m, trade.outcome), trade.amountIn, owner, s);
    var t1 := TransferPosition(v, t, trader, AmmContract, Side(m, trade.outcome), trade.amountIn).value;
    MergeExactly(t1, AmmContract, m, trade.gross, owner, s);
  }

  lemma ForceTokensOthers(t: TokenState, user: Address, m: nat, trade: Trade, owner: Address, s: Side)
    requires ForceTokens(t, user, m, trade).Ok? && owner != user && owner != AmmContract
    ensures SameBalance(t, ForceTokens(t, user, m, trade).value, owner, s)
  {
    hide MergePositions, MovePosition;
    MoveExactly(t, user, AmmContract, Side(m, trade.outcome), trade.amountIn);
    var t1 := MovePosition(t, user, AmmContract, Side(m, trade.outcome), trade.amountIn).value;
    assert SameBalance(t, t1, owner, s);
    MergeExactly(t1, AmmContract, m, trade.gross, owner, s);
  }

  lemma HandOutOthers(v: VaultState, t: TokenState, lp: Address, m: nat, out: Reserves, owner: Address, s: Side)
    requires HandOut(v, t, lp, m, out).Ok? && owner != lp && owner != AmmContract
    ensures SameBalance(t, HandOut(v, t, lp, m, out).value, owner, s)
  {
    hide TransferPosition;
    TransferExactly(v, t, AmmContract, lp, Side(m, Yes), out.yes, owner, s);
    var t1 := TransferPosition(v, t, AmmContract, lp, Side(m, Yes), out.yes).value;
    TransferExactly(v, t1, AmmContract, lp, Side(m, No), out.no, owner, s);
  }

  lemma FundPoolOthers(l: Ledger, m: nat, amount: int, owner: Address, s: Side)
    requires FundPool(l, m, amount).Ok? && owner != AmmContract
    ensures SameBalance(l.tokens, FundPool(l, m, amount).value.tokens, owner, s)
  {
    hide MintCompleteSet, Deposit;
    MintExactly(l.tokens, AmmContract, m, amount, owner, s);
  }

  lemma TradeOthers(l: Ledger, now: nat, call: Call, owner: Address, s: Side)
    requires call.Purchase? || call.Sale? || call.Liquidation? || call.LegLiquidation?
    requires ApplyTrade(l, now, call).Ok? && owner != Actor(call) && owner != AmmContract
    ensures SameBalance(l.tokens, ApplyTrade(l, now, call).value.tokens, owner, s)
  {
    hide BuyVault, SellVault, LiquidateRelease, LiquidateChildRelease, RequireLive, PriceBuy, PriceSell, CollectFee,
         PriceLiquidation, BuyTokens, SellTokens, ForceTokens, SplitTradingFee, AfterBuy, AfterSell, SameBalance;
    match call
    case Purchase(trader, id, amountIn, _, _, yes, parent) =>
      var pool := l.amm.pools[id];
      var trade := PriceBuy(pool, amountIn, SideOf(yes)).value;
      var v := BuyVault(l.vault, l.reg, trader, pool.market, parent, trade, SplitTradingFee(trade.fee, pool.fee)).value;
      BuyTokensOthers(v, l.tokens, trader, pool.market, trade, owner, s);
    case Sale(trader, id, amountIn, _, _, yes) =>
      var pool := l.amm.pools[id];
      SellTokensOthers(l.vault, l.tokens, trader, pool.market, PriceSell(pool, amountIn, SideOf(yes)).value, owner, s);
    case Liquidation(liquidator, user, id, outcome) =>
      var (pool, trade) := PriceLiquidation(l, now, liquidator, user, id, outcome, false).value;
      ForceTokensOthers(l.tokens, user, pool.market, trade, owner, s);
    case LegLiquidation(liquidator, user, id, outcome) =>
      var (pool, trade) := PriceLiquidation(l, now, liquidator, user, id, outcome, true).value;
      ForceTokensOthers(l.tokens, user, pool.market, trade, owner, s);
  }

  lemma LiquidityOthers(l: Ledger, now: nat, call: Call, owner: Address, s: Side)
    requires call.Creation? || call.Seeding? || call.Addition? || call.Removal? || call.FeeClaim?
    requires ApplyLiquidity(l, now, call).Ok? && owner != Actor(call) && owner != AmmContract
    ensures SameBalance(l.tokens, ApplyLiquidity(l, now, call).value.tokens, owner, s)
  {
    hide FundPool, RequireSeedable, RequireTradeable, RequireRemovable, SharesFor, Withdrawal, HandOut, PayPending,
         PayLpFees, FeesOwed, RegisterMarket, CreatePool, Transition, Seeded, Added, Removed, SetLp;
    match call
    case Creation(creator, terms, fee, liquidity) =>
      var (reg, m) := RegisterMarket(l.reg, now, terms).value;
      var (amm, id) := CreatePool(l.amm, m, fee).value;
      var l1 := l.(reg := reg, amm := amm);
      FundPoolOthers(l1, l1.amm.pools[id].market, liquidity, owner, s);
    case Seeding(_, id, amount) => FundPoolOthers(l, l.amm.pools[id].market, amount, owner, s);
    case Addition(_, id, amount) => FundPoolOthers(l, l.amm.pools[id].market, amount, owner, s);
    case Removal(lp, id, shares) =>
      var pool := l.amm.pools[id];
      var v := PayPending(l.vault, l.reg, pool.market, FeesOwed(pool.lp, lp)).value;
      HandOutOthers(v, l.tokens, lp, pool.market, Withdrawal(pool, shares).value, owner, s);
    case FeeClaim(_, _) =>
  }

  lemma BurnOthers(t: TokenState, from: Address, side: Side, amount: int, owner: Address, s: Side)
    requires Burn(t, from, side, amount).Ok? && owner != from
    ensures SameBalance(t, Burn(t, from, side, amount).value, owner, s)
  {
  }

  /** Every successful call moves the tokens of its actor, of the receiver of a transfer and of the pools only. */
  lemma ApplyOthers(l: Ledger, now: nat, call: Call, owner: Address, s: Side)
    requires Apply(l, now, call).Ok? && !Moves(call, owner) && owner != AmmContract
    ensures SameBalance(l.tokens, Apply(l, now, call).value.tokens, owner, s)
  {
    hide ApplyTrade, ApplyLiquidity, ApplyVault, ApplyRegistry, Burn, TransferPosition, SettleClaim, SettleRefund,
         OpenClaim;
    match call
    case Purchase(_, _, _, _, _, _, _) => TradeOthers(l, now, call, owner, s);
    case Sale(_, _, _, _, _, _) => TradeOthers(l, now, call, owner, s);
    case Liquidation(_, _, _, _) => TradeOthers(l, now, call, owner, s);
    case LegLiquidation(_, _, _, _) => TradeOthers(l, now, call, owner, s);
    case Creation(_, _, _, _) => LiquidityOthers(l, now, call, owner, s);
    case Seeding(_, _, _) => LiquidityOthers(l, now, call, owner, s);
    case Addition(_, _, _) => LiquidityOthers(l, now, call, owner, s);
    case Removal(_, _, _) => LiquidityOthers(l, now, call, owner, s);
    case FeeClaim(_, _) => LiquidityOthers(l, now, call, owner, s);
    case Redemption(user, m, outcome, amount) => BurnOthers(l.tokens, user, Side(m, outcome), amount, owner, s);
    case Refund(user, m, outcome, amount) => BurnOthers(l.tokens, user, Side(m, outcome), amount, owner, s);
    case Transfer(from, to, side, amount) => TransferExactly(l.vault, l.tokens, from, to, side, amount, owner, s);
    case LosingBurn(from, side, amount) => BurnOthers(l.tokens, from, side, amount, owner, s);
    case _ =>
  }

  predicate SameShares(amm: AmmState, amm': AmmState, lp: Address, id: nat)
    requires id in amm.pools
  {
    id in amm'.pools && LpOf(amm'.pools[id].lp, lp) == LpOf(amm.pools[id].lp, lp)
  }

  lemma TradeShares(l: Ledger, now: nat, call: Call, lp: Address, id: nat)
    requires call.Purchase? || call.Sale? || call.Liquidation? || call.LegLiquidation?
    requires ApplyTrade(l, now, call).Ok? && id in l.amm.pools
    ensures SameShares(l.amm, ApplyTrade(l, now, call).value.amm, lp, id)
  {
    hide BuyVault, SellVault, LiquidateRelease, LiquidateChildRelease, RequireLive, PriceBuy, PriceSell, CollectFee,
         BuyTokens, SellTokens, ForceTokens, SplitTradingFee, Bps;
  }

  lemma LiquidityShares(l: Ledger, now: nat, call: Call, lp: Address, id: nat)
    requires call.Creation? || call.Seeding? || call.Addition? || call.Removal? || call.FeeClaim?
    requires ApplyLiquidity(l, now, call).Ok? && lp != Actor(call)
    requires id in l.amm.pools && l.amm.nextPoolId !in l.amm.pools
    ensures SameShares(l.amm, ApplyLiquidity(l, now, call).value.amm, lp, id)
  {
    hide Deposit, MintCompleteSet, RequireSeedable, RequireTradeable, RequireRemovable, SharesFor, Withdrawal, HandOut,
         PayPending, PayLpFees, FeesOwed, RegisterMarket, Transition;
  }

  /** Every successful call leaves the pool shares of everyone but its actor alone. */
  lemma ApplyShares(l: Ledger, now: nat, call: Call, lp: Address, id: nat)
    requires Apply(l, now, call).Ok? && lp != Actor(call)
    requires id in l.amm.pools && l.amm.nextPoolId !in l.amm.pools
    ensures SameShares(l.amm, Apply(l, now, call).value.amm, lp, id)
  {
    hide ApplyTrade, ApplyLiquidity, ApplyVault, ApplyTokens, ApplyRegistry, RedeemResolved, RedeemCancelled;
    if call.Purchase? || call.Sale? || call.Liquidation? || call.LegLiquidation? {
      TradeShares(l, now, call, lp, id);
    } else if call.Creation? || call.Seeding? || call.Addition? || call.Removal? || call.FeeClaim? {
      LiquidityShares(l, now, call, lp, id);
    }
  }

  // ---------------------------------------------------------------- runs

  lemma {:induction false} RunOwnLegs(l: Ledger, events: seq<Event>)
    requires OwnLegs(l.vault)
    ensures OwnLegs(Run(l, events).vault)
    decreases |events|
  {
    hide Apply, OwnLegs;
    if events != [] {
      var now, call := events[0].now, events[0].call;
      if Apply(l, now, call).Ok? {
        ApplyOnly(l, now, call);
        OnlyOwns(l.vault, Apply(l, now, call).value.vault, Actor(call));
      }
      RunOwnLegs(Step(l, now, call), events[1..]);
    }
  }

  /** What a user has: tokens, the records of a position and a leg, shares of a pool. */
  predicate Untouched(l: Ledger, l': Ledger, user: Address, s: Side, outcome: Outcome, c: nat, id: nat) {
    && SameBalance(l.tokens, l'.tokens, user, s)
    && SameRecords(l.vault, l'.vault, Position(s.market, user, outcome), c)
    && (id in l.amm.pools ==> SameShares(l.amm, l'.amm, user, id))
  }

  lemma NextPoolIsNew(l: Ledger)
    requires Lawful(l)
    ensures l.amm.nextPoolId !in l.amm.pools
  {
  }

  lemma StepUntouched(l: Ledger, now: nat, call: Call, user: Address, s: Side, outcome: Outcome, c: nat, id: nat)
    requires Lawful(l) && OwnLegs(l.vault) && user.Account? && !Moves(call, user)
    ensures Untouched(l, Step(l, now, call), user, s, outcome, c, id)
  {
    hide Apply, Lawful, OwnLegs;
    if Apply(l, now, call).Ok? {
      var l' := Apply(l, now, call).value;
      ApplyOnly(l, now, call);
      assert SameRecords(l.vault, l'.vault, Position(s.market, user, outcome), c);
      ApplyOthers(l, now, call, user, s);
      if id in l.amm.pools {
        NextPoolIsNew(l);
        ApplyShares(l, now, call, user, id);
      }
    }
  }

  lemma {:induction false} RunUntouched(l: Ledger, events: seq<Event>, user: Address, s: Side, outcome: Outcome, c: nat,
                                        id: nat)
    requires Lawful(l) && OwnLegs(l.vault) && user.Account?
    requires forall e :: e in events ==> !Moves(e.call, user)
    ensures Untouched(l, Run(l, events), user, s, outcome, c, id)
    decreases |events|
  {
    hide Step, Lawful, OwnLegs, Moves;
    if events != [] {
      var now, call := events[0].now, events[0].call;
      assert events[0] in events;
      var l1 := Step(l, now, call);
      StepUntouched(l, now, call, user, s, outcome, c, id);
      StepLawful(l, now, call);
      RunOwnLegs(l, [events[0]]);
      OneStepRun(l, events[0]);
      RunUntouched(l1, events[1..], user, s, outcome, c, id);
    }
  }

  lemma OneStepRun(l: Ledger, e: Event)
    ensures Run(l, [e]) == Step(l, e.now, e.call)
  {
    hide Step;
    assert [e][1..] == [];
  }

  /** A user who signs nothing, is not liquidated and is sent nothing keeps every token, every stake and debt
      record and every pool share, whatever everyone else does after any run whatever. */
  lemma BystandersKeepAll(before: seq<Event>, later: seq<Event>, user: Address, s: Side, outcome: Outcome, c: nat,
                          id: nat)
    requires user.Account? && forall e :: e in later ==> !Moves(e.call, user)
    ensures var l := Run(GENESIS, before);
            Untouched(l, Run(l, later), user, s, outcome, c, id)
  {
    hide Run, Lawful, Moves, Untouched;
    var l := Reachable(before);
    RunOwnLegs(GENESIS, before);
    RunUntouched(l, later, user, s, outcome, c, id);
  }
}
