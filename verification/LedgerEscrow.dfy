// Bonds and links on the collateral side. No trade, credit, liquidation, redemption or fee call touches a bond, which
// is what CodOracle relies on when it leaves those calls to `Elsewhere`; and no call but a draw changes which leg owes
// to which position.

module LedgerEscrow {
  import opened Basics
  import opened DikeTypes
  import opened DikeMath
  import opened MarketRegistry
  import opened TokenLedger
  import opened VaultLedger
  import opened AmmPools
  import opened LedgerCalls

  /** The same bonds, and every leg owes to the position it owed to. */
  predicate SameLinks(v: VaultState, v': VaultState) {
    v'.escrow == v.escrow && v'.credit.lender == v.credit.lender && v'.credit.children == v.credit.children
  }

  lemma SettleEscrow(v: VaultState, leg: Leg, repayment: int)
    ensures SameLinks(v, SettleChildDebt(v, leg, repayment).0)
  {
  }

  lemma {:induction false} SettleChildrenEscrow(v: VaultState, user: Address, list: seq<nat>, pool: int)
    ensures SameLinks(v, SettleChildren(v, user, list, pool).0)
    decreases |list|
  {
    hide SettleChildDebt;
    if list != [] && pool != 0 {
      SettleEscrow(v, Leg(list[0], user), pool);
      var (v1, applied) := SettleChildDebt(v, Leg(list[0], user), pool);
      SettleChildrenEscrow(v1, user, list[1..], pool - applied);
    }
  }

  lemma {:induction false} ClearChildrenEscrow(v: VaultState, q: Position, list: seq<nat>, remaining: int)
    ensures SameLinks(v, ClearChildren(v, q, list, remaining))
    decreases |list|
  {
    if list != [] && remaining != 0 {
      var leg := Leg(list[0], q.user);
      var owed := ChildDebt(v, leg);
      if owed == 0 {
        ClearChildrenEscrow(v, q, list[1..], remaining);
      } else {
        var cleared := Min(owed, remaining);
        ClearChildrenEscrow(ClearOne(v, q, leg, cleared), q, list[1..], remaining - cleared);
      }
    }
  }

  lemma DefaultEscrow(v: VaultState, q: Position, total: int)
    ensures SameLinks(v, ResolveParentDefault(v, q, total))
  {
    if total > 0 {
      ClearChildrenEscrow(SetParentDebt(AbsorbDefault(v, q.market, total), q, 0), q, ChildrenOf(v, q), total);
    }
  }

  lemma LiquidateEscrow(v: VaultState, reg: RegistryState, q: Position, tokensSold: int, proceeds: int)
    ensures var r := LiquidateRelease(v, reg, q, tokensSold, proceeds);
            r.Ok? ==> SameLinks(v, r.value.0)
    ensures var r := LiquidateChildRelease(v, reg, q, tokensSold, proceeds);
            r.Ok? ==> SameLinks(v, r.value.0)
  {
    hide SettleChildren, SettleChildDebt, ResolveParentDefault;
    if ExtractProceeds(v, q, tokensSold, proceeds).Ok? {
      var v1 := ExtractProceeds(v, q, tokensSold, proceeds).value;
      var pool := proceeds - Bps(proceeds, LIQUIDATION_BONUS_BPS);
      var leg := Leg(q.market, q.user);
      SettleChildrenEscrow(v1, q.user, ChildrenOf(v1, q), pool);
      var v2 := SettleChildren(v1, q.user, ChildrenOf(v1, q), pool).0;
      DefaultEscrow(v2, q, Used(v2, q));
      SettleEscrow(v1, leg, pool);
      var v3 := SettleChildDebt(v1, leg, pool).0;
      if HasParent(v3, leg) {
        DefaultEscrow(v3, Lender(v3, leg), ChildDebt(v3, leg));
      }
    }
  }

  lemma WithholdEscrow(v: VaultState, q: Position, claim: int)
    ensures SameLinks(v, Withhold(v, q, claim).0)
  {
  }

  lemma OwnDebtEscrow(v: VaultState, q: Position, claim: int, gross: int)
    ensures SameLinks(v, DefaultIfWorthless(Withhold(v, q, claim).0, q, gross))
  {
    hide Withhold, ResolveParentDefault;
    WithholdEscrow(v, q, claim);
    var v1 := Withhold(v, q, claim).0;
    DefaultEscrow(v1, q, ParentDebt(v1, q));
  }

  lemma OpenClaimEscrow(v: VaultState, m: nat, final: Outcome, redeemed: Outcome, amount: int)
    ensures SameLinks(v, OpenClaim(v, m, final, redeemed, amount).0)
  {
  }

  lemma SettleClaimEscrow(v: VaultState, q: Position, gross: int)
    ensures SettleClaim(v, q, gross).Ok? ==> SameLinks(v, SettleClaim(v, q, gross).value.0)
    ensures SettleRefund(v, q, gross).Ok? ==> SameLinks(v, SettleRefund(v, q, gross).value.0)
  {
    hide SettleChildDebt, Withhold, DefaultIfWorthless, CappedPayout;
    var leg := Leg(q.market, q.user);
    SettleEscrow(v, leg, gross);
    var (v1, upstream) := PayUpstream(v, leg, gross);
    OwnDebtEscrow(v1, q, gross - upstream, gross);
    OwnDebtEscrow(v, q, gross, gross);
  }

  lemma RedeemEscrow(l: Ledger, call: Call)
    requires (call.Redemption? || call.Refund?) && ApplyRedeem(l, call).Ok?
    ensures SameLinks(l.vault, ApplyRedeem(l, call).value.vault)
  {
    hide OpenClaim, SettleClaim, SettleRefund, Burn;
    var q := Position(call.market, call.user, call.outcome);
    var final := if call.Redemption? then l.reg.markets[q.market].final else Invalid;
    OpenClaimEscrow(l.vault, q.market, final, q.outcome, call.amount);
    var (v1, gross) := OpenClaim(l.vault, q.market, final, q.outcome, call.amount);
    SettleClaimEscrow(v1, q, gross);
  }

  lemma PayInEscrow(v: VaultState, reg: RegistryState, trader: Address, m: nat, parent: Parent, trade: Trade)
    requires PayIn(v, reg, trader, m, parent, trade).Ok?
    ensures PayIn(v, reg, trader, m, parent, trade).value.escrow == v.escrow
    ensures parent == NoParent ==> SameLinks(v, PayIn(v, reg, trader, m, parent, trade).value)
  {
  }

  predicate Draws(call: Call) {
    call.Purchase? && call.parent != NoParent
  }

  lemma TradeEscrow(l: Ledger, now: nat, call: Call)
    requires call.Purchase? || call.Sale? || call.Liquidation? || call.LegLiquidation?
    requires ApplyTrade(l, now, call).Ok?
    ensures ApplyTrade(l, now, call).value.vault.escrow == l.vault.escrow
    ensures !Draws(call) ==> SameLinks(l.vault, ApplyTrade(l, now, call).value.vault)
  {
    hide PayIn, LiquidateRelease, LiquidateChildRelease, RequireLive, PriceBuy, PriceSell, PriceLiquidation,
         BuyTokens, SellTokens, ForceTokens, SplitTradingFee, AfterBuy, AfterSell;
    match call
    case Purchase(trader, id, amountIn, _, _, yes, parent) =>
      var pool := l.amm.pools[id];
      PayInEscrow(l.vault, l.reg, trader, pool.market, parent, PriceBuy(pool, amountIn, SideOf(yes)).value);
    case Sale(_, _, _, _, _, _) =>
    case Liquidation(liquidator, user, id, outcome) =>
      var (pool, trade) := PriceLiquidation(l, now, liquidator, user, id, outcome, false).value;
      var l1 := ForceSell(l, user, id, pool, trade).value;
      LiquidateEscrow(l1.vault, l1.reg, Position(pool.market, user, outcome), trade.amountIn, trade.gross - trade.fee);
    case LegLiquidation(liquidator, user, id, outcome) =>
      var (pool, trade) := PriceLiquidation(l, now, liquidator, user, id, outcome, true).value;
      var l1 := ForceSell(l, user, id, pool, trade).value;
      LiquidateEscrow(l1.vault, l1.reg, Position(pool.market, user, outcome), trade.amountIn, trade.gross - trade.fee);
  }

  lemma LiquidityEscrow(l: Ledger, now: nat, call: Call)
    requires call.Creation? || call.Seeding? || call.Addition? || call.Removal? || call.FeeClaim?
    requires ApplyLiquidity(l, now, call).Ok?
    ensures SameLinks(l.vault, ApplyLiquidity(l, now, call).value.vault)
  {
    hide MintCompleteSet, RequireSeedable, RequireTradeable, RequireRemovable, SharesFor, Withdrawal, HandOut,
         FeesOwed, RegisterMarket, CreatePool, Transition, Seeded, Added, Removed, SetLp;
  }

  lemma RepaymentEscrow(v: VaultState, reg: RegistryState, leg: Leg, amount: int)
    requires RepayChildCollateral(v, reg, leg, amount).Ok?
    ensures SameLinks(v, RepayChildCollateral(v, reg, leg, amount).value.0)
  {
    hide SettleChildDebt;
    SettleEscrow(Receive(v, amount), leg, amount);
  }

  /** Only the bond calls touch bonds. */
  lemma ApplyEscrow(l: Ledger, now: nat, call: Call)
    requires Apply(l, now, call).Ok? && !call.BondLock? && !call.BondUnlock?
    ensures Apply(l, now, call).value.vault.escrow == l.vault.escrow
    ensures !Draws(call) ==> SameLinks(l.vault, Apply(l, now, call).value.vault)
  {
    hide ApplyTrade, ApplyLiquidity, ApplyRedeem, ApplyTokens, ApplyRegistry, RepayChildCollateral;
    match call
    case Purchase(_, _, _, _, _, _, _) => TradeEscrow(l, now, call);
    case Sale(_, _, _, _, _, _) => TradeEscrow(l, now, call);
    case Liquidation(_, _, _, _) => TradeEscrow(l, now, call);
    case LegLiquidation(_, _, _, _) => TradeEscrow(l, now, call);
    case Creation(_, _, _, _) => LiquidityEscrow(l, now, call);
    case Seeding(_, _, _) => LiquidityEscrow(l, now, call);
    case Addition(_, _, _) => LiquidityEscrow(l, now, call);
    case Removal(_, _, _) => LiquidityEscrow(l, now, call);
    case FeeClaim(_, _) => LiquidityEscrow(l, now, call);
    case Redemption(_, _, _, _) => RedeemEscrow(l, call);
    case Refund(_, _, _, _) => RedeemEscrow(l, call);
    case Repayment(user, m, amount) => RepaymentEscrow(l.vault, l.reg, Leg(m, user), amount);
    case FeeSweep(_) =>
    case Transfer(_, _, _, _) =>
    case LosingBurn(_, _, _) =>
    case RegistryMove(_) =>
    case Pause(_, _) =>
  }
}
