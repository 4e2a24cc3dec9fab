// Custody across every call: the books of the vault add up to the collateral it holds, and the debt records
// stay sound.

module LedgerCustody {
  import opened DikeTypes
  import opened MarketRegistry
  import opened TokenLedger
  import opened VaultLedger
  import opened VaultBooks
  import opened VaultDebts
  import opened AmmPools
  import opened LedgerCalls
  import opened LedgerMoney

  /** Sound debt records, and books that add up. */
  ghost predicate Solid(v: VaultState) {
    SoundDebts(v) && Custody(v) == 0
  }

  lemma SameDebtsSound(v: VaultState, v': VaultState)
    requires SoundDebts(v) && SameDebts(v, v')
    ensures SoundDebts(v')
  {
    SameDebtsKeeps(v, v');
  }

  // ---------------------------------------------------------------- trades

  lemma PayInSolid(v: VaultState, reg: RegistryState, trader: Address, m: nat, parent: Parent, trade: Trade)
    requires Solid(v) && trader.Account? && PayIn(v, reg, trader, m, parent, trade).Ok?
    ensures Solid(PayIn(v, reg, trader, m, parent, trade).value)
  {
    match parent
    case FromParent(q) =>
      OpenCreditSolid(v, reg, Position(q.market, trader, q.outcome), m, trade.amountIn);
    case NoParent =>
      DepositSolid(v, reg, m, trade.amountIn);
      var v1 := Deposit(v, reg, m, trade.amountIn).value;
      RecordStakeSolid(v1, Position(m, trader, trade.outcome), trade.amountIn, trade.gross);
  }

  lemma OpenCreditSolid(v: VaultState, reg: RegistryState, q: Position, c: nat, amount: int)
    requires Solid(v) && q.user.Account? && OpenCredit(v, reg, q, c, amount).Ok?
    ensures Solid(OpenCredit(v, reg, q, c, amount).value)
  {
    hide Custody, OpenCredit, SoundDebts, Keeps;
    OpenCreditKeeps(v, reg, q, c, amount);
    OpenCreditCustody(v, reg, q, c, amount);
  }

  lemma DepositSolid(v: VaultState, reg: RegistryState, m: nat, amount: int)
    requires Solid(v) && Deposit(v, reg, m, amount).Ok?
    ensures Solid(Deposit(v, reg, m, amount).value)
  {
    hide Custody, SoundDebts;
    DepositCustody(v, reg, m, amount);
    SameDebtsSound(v, Deposit(v, reg, m, amount).value);
  }

  lemma RecordStakeSolid(v: VaultState, q: Position, collateralIn: int, tokensOut: int)
    requires Solid(v) && RecordCashStake(v, q, collateralIn, tokensOut).Ok?
    ensures Solid(RecordCashStake(v, q, collateralIn, tokensOut).value)
  {
    hide SoundDebts;
    SameDebtsSound(v, RecordCashStake(v, q, collateralIn, tokensOut).value);
  }

  lemma CollectFeeSolid(v: VaultState, m: nat, split: FeeSplit)
    requires Solid(v) && CollectFee(v, m, split.lp, split.protocol, split.cod).Ok?
    ensures Solid(CollectFee(v, m, split.lp, split.protocol, split.cod).value)
  {
    hide Custody, SoundDebts;
    CollectFeeCustody(v, m, split.lp, split.protocol, split.cod);
    SameDebtsSound(v, CollectFee(v, m, split.lp, split.protocol, split.cod).value);
  }

  lemma ReleaseSolid(v: VaultState, reg: RegistryState, q: Position, tokensSold: int, payout: int)
    requires Solid(v) && ReleaseTradePayout(v, reg, q, tokensSold, payout).Ok?
    ensures Solid(ReleaseTradePayout(v, reg, q, tokensSold, payout).value)
  {
    hide Custody, SoundDebts, ReleaseTradePayout, Keeps;
    ReleaseTradePayoutCustody(v, reg, q, tokensSold, payout);
    ReleaseKeeps(v, reg, q, tokensSold, payout);
    KeepsSound(v, ReleaseTradePayout(v, reg, q, tokensSold, payout).value);
  }

  lemma BuyVaultSolid(v: VaultState, reg: RegistryState, trader: Address, m: nat, parent: Parent, trade: Trade,
                      split: FeeSplit)
    requires Solid(v) && trader.Account? && BuyVault(v, reg, trader, m, parent, trade, split).Ok?
    ensures Solid(BuyVault(v, reg, trader, m, parent, trade, split).value)
  {
    hide Solid, PayIn, CollectFee;
    PayInSolid(v, reg, trader, m, parent, trade);
    CollectFeeSolid(PayIn(v, reg, trader, m, parent, trade).value, m, split);
  }

  lemma SellVaultSolid(v: VaultState, reg: RegistryState, q: Position, trade: Trade, split: FeeSplit)
    requires Solid(v) && SellVault(v, reg, q, trade, split).Ok?
    ensures Solid(SellVault(v, reg, q, trade, split).value)
  {
    hide Solid, ReleaseTradePayout, CollectFee;
    ReleaseSolid(v, reg, q, trade.amountIn, trade.gross - trade.fee);
    CollectFeeSolid(ReleaseTradePayout(v, reg, q, trade.amountIn, trade.gross - trade.fee).value, q.market, split);
  }

  lemma ReleaseLiquidatedSolid(v: VaultState, reg: RegistryState, q: Position, tokensSold: int, proceeds: int)
    requires Solid(v)
    ensures var r := LiquidateRelease(v, reg, q, tokensSold, proceeds);
            r.Ok? ==> Solid(r.value.0)
    ensures var r := LiquidateChildRelease(v, reg, q, tokensSold, proceeds);
            r.Ok? ==> Solid(r.value.0)
  {
    hide Custody, SoundDebts, LiquidateRelease, LiquidateChildRelease, Keeps;
    assert LegsHaveParents(v) by { SoundParts(v); }
    if LiquidateRelease(v, reg, q, tokensSold, proceeds).Ok? {
      LiquidateReleaseCustody(v, reg, q, tokensSold, proceeds);
      LiquidateReleaseKeeps(v, reg, q, tokensSold, proceeds);
      KeepsSound(v, LiquidateRelease(v, reg, q, tokensSold, proceeds).value.0);
    }
    if LiquidateChildRelease(v, reg, q, tokensSold, proceeds).Ok? {
      LiquidateChildReleaseCustody(v, reg, q, tokensSold, proceeds);
      LiquidateChildReleaseSound(v, reg, q, tokensSold, proceeds);
    }
  }

  lemma SoundParts(v: VaultState)
    requires SoundDebts(v)
    ensures LegsHaveParents(v)
  {
  }

  lemma ForceSellSolid(l: Ledger, user: Address, id: nat, pool: Pool, trade: Trade)
    requires Solid(l.vault) && ForceSell(l, user, id, pool, trade).Ok?
    ensures Solid(ForceSell(l, user, id, pool, trade).value.vault)
  {
    hide Solid, CollectFee, ForceTokens;
    CollectFeeSolid(l.vault, pool.market, SplitTradingFee(trade.fee, pool.fee));
  }

  lemma LiquidationSolid(l: Ledger, user: Address, id: nat, pool: Pool, trade: Trade, q: Position)
    requires Solid(l.vault)
    ensures var r := SettleLiquidation(l, user, id, pool, trade, q);
            r.Ok? ==> Solid(r.value.0.vault)
    ensures var r := SettleLegLiquidation(l, user, id, pool, trade, q);
            r.Ok? ==> Solid(r.value.0.vault)
  {
    hide Solid, ForceSell, LiquidateRelease, LiquidateChildRelease;
    if ForceSell(l, user, id, pool, trade).Ok? {
      var l1 := ForceSell(l, user, id, pool, trade).value;
      ForceSellSolid(l, user, id, pool, trade);
      ReleaseLiquidatedSolid(l1.vault, l1.reg, q, trade.amountIn, trade.gross - trade.fee);
    }
  }

  lemma TradeSolid(l: Ledger, now: nat, call: Call)
    requires call.Purchase? || call.Sale? || call.Liquidation? || call.LegLiquidation?
    requires ApplyTrade(l, now, call).Ok? && Solid(l.vault)
    ensures Solid(ApplyTrade(l, now, call).value.vault)
  {
    hide Solid, BuyVault, BuyTokens, SellVault, SellTokens, SettleLiquidation, SettleLegLiquidation, RequireLive,
         PriceBuy, PriceSell, PriceLiquidation;
    match call
    case Purchase(trader, id, amountIn, _, _, yes, parent) =>
      var pool := l.amm.pools[id];
      var trade := PriceBuy(pool, amountIn, SideOf(yes)).value;
      BuyVaultSolid(l.vault, l.reg, trader, pool.market, parent, trade, SplitTradingFee(trade.fee, pool.fee));
    case Sale(trader, id, amountIn, _, _, yes) =>
      var pool := l.amm.pools[id];
      var trade := PriceSell(pool, amountIn, SideOf(yes)).value;
      SellVaultSolid(l.vault, l.reg, Position(pool.market, trader, trade.outcome), trade,
                     SplitTradingFee(trade.fee, pool.fee));
    case Liquidation(liquidator, user, id, outcome) =>
      var (pool, trade) := PriceLiquidation(l, now, liquidator, user, id, outcome, false).value;
      LiquidationSolid(l, user, id, pool, trade, Position(pool.market, user, outcome));
    case LegLiquidation(liquidator, user, id, outcome) =>
      var (pool, trade) := PriceLiquidation(l, now, liquidator, user, id, outcome, true).value;
      LiquidationSolid(l, user, id, pool, trade, Position(pool.market, user, outcome));
  }

  // ---------------------------------------------------------------- liquidity

  lemma FundPoolSolid(l: Ledger, m: nat, amount: int)
    requires FundPool(l, m, amount).Ok? && Solid(l.vault)
    ensures Solid(FundPool(l, m, amount).value.vault)
  {
    hide Solid, Deposit, MintCompleteSet;
    DepositSolid(l.vault, l.reg, m, amount);
  }

  lemma PayFeesSolid(v: VaultState, reg: RegistryState, m: nat, amount: int)
    requires PayLpFees(v, reg, m, amount).Ok? && Solid(v)
    ensures Solid(PayLpFees(v, reg, m, amount).value)
  {
    hide Custody, SoundDebts;
    PayLpFeesCustody(v, reg, m, amount);
    SameDebtsSound(v, PayLpFees(v, reg, m, amount).value);
  }

  lemma LiquiditySolid(l: Ledger, now: nat, call: Call)
    requires call.Creation? || call.Seeding? || call.Addition? || call.Removal? || call.FeeClaim?
    requires ApplyLiquidity(l, now, call).Ok? && Solid(l.vault)
    ensures Solid(ApplyLiquidity(l, now, call).value.vault)
  {
    hide Solid, FundPool, PayLpFees, RequireSeedable, RequireTradeable, RequireRemovable, SharesFor, Withdrawal,
         HandOut, FeesOwed, RegisterMarket, CreatePool, Transition;
    match call
    case Creation(creator, terms, fee, liquidity) =>
      var (reg, m) := RegisterMarket(l.reg, now, terms).value;
      var (amm, id) := CreatePool(l.amm, m, fee).value;
      FundPoolSolid(l.(reg := reg, amm := amm), amm.pools[id].market, liquidity);
    case Seeding(lp, id, amount) => FundPoolSolid(l, l.amm.pools[id].market, amount);
    case Addition(lp, id, amount) =>
      var pool := l.amm.pools[id];
      FundPoolSolid(l, pool.market, amount);
      var l1 := FundPool(l, pool.market, amount).value;
      if FeesOwed(pool.lp, lp) > 0 {
        PayFeesSolid(l1.vault, l1.reg, pool.market, FeesOwed(pool.lp, lp));
      }
    case Removal(lp, id, shares) =>
      var pool := l.amm.pools[id];
      if FeesOwed(pool.lp, lp) > 0 {
        PayFeesSolid(l.vault, l.reg, pool.market, FeesOwed(pool.lp, lp));
      }
    case FeeClaim(lp, id) =>
      var pool := l.amm.pools[id];
      if FeesOwed(pool.lp, lp) > 0 {
        PayFeesSolid(l.vault, l.reg, pool.market, FeesOwed(pool.lp, lp));
      }
  }

  // ---------------------------------------------------------------- the vault's own calls

  lemma VaultCallSolid(v: VaultState, reg: RegistryState, call: Call)
    requires call.Repayment? || call.BondLock? || call.BondUnlock? || call.FeeSweep?
    requires ApplyVault(v, reg, call).Ok? && Solid(v)
    requires call.FeeSweep? ==> FeesNonNegative(v, call.market)
    ensures Solid(ApplyVault(v, reg, call).value)
  {
    hide RepayChildCollateral, Custody, SoundDebts, Keeps;
    match call
    case Repayment(user, m, amount) =>
      assert LegsHaveParents(v) by { SoundParts(v); }
      RepayChildCollateralCustody(v, reg, Leg(m, user), amount);
      RepayChildCollateralKeeps(v, reg, Leg(m, user), amount);
      KeepsSound(v, RepayChildCollateral(v, reg, Leg(m, user), amount).value.0);
    case BondLock(key, m, amount) =>
      LockBondCustody(v, reg, key, m, amount);
      SameDebtsSound(v, LockBond(v, reg, key, m, amount).value);
    case BondUnlock(key, to, amount) =>
      UnlockBondCustody(v, key, to, amount);
      SameDebtsSound(v, UnlockBond(v, key, to, amount).value);
    case FeeSweep(m) =>
      SweepCustody(v, reg, m);
      SameDebtsSound(v, SweepProtocolFees(v, reg, m).value.0);
  }

  lemma RedeemSolid(l: Ledger, call: Call)
    requires (call.Redemption? || call.Refund?) && ApplyRedeem(l, call).Ok? && Solid(l.vault)
    requires Balanced(l.vault, l.tokens, call.market)
    ensures Solid(ApplyRedeem(l, call).value.vault)
  {
    hide Custody, SoundDebts, RedeemResolved, RedeemCancelled, Balanced, Keeps;
    var q := Position(call.market, call.user, call.outcome);
    SoundDebtsAt(l.vault, q);
    assert LegsHaveParents(l.vault) by { SoundParts(l.vault); }
    if call.Redemption? {
      RedeemResolvedCustody(l.vault, l.reg, l.tokens, q, call.amount);
      RedeemResolvedSound(l.vault, l.reg, l.tokens, q, call.amount);
    } else {
      RedeemCancelledCustody(l.vault, l.reg, l.tokens, q, call.amount);
      RedeemCancelledSound(l.vault, l.reg, l.tokens, q, call.amount);
    }
  }

  lemma RedeemResolvedSound(v: VaultState, reg: RegistryState, t: TokenState, q: Position, amount: int)
    requires RedeemResolved(v, reg, t, q, amount).Ok? && SoundDebts(v) && Balanced(v, t, q.market)
    ensures Keeps(v, RedeemResolved(v, reg, t, q, amount).value.0)
    ensures SoundDebts(RedeemResolved(v, reg, t, q, amount).value.0)
  {
    hide OpenClaim, SettleClaim, Burn, SoundDebts, Balanced, OneLender, Matched;
    var final := reg.markets[q.market].final;
    OpenClaimBalanced(v, t, q, final, amount, q.market);
    OpenClaimSound(v, q.market, final, q.outcome, amount);
    var (v1, gross) := OpenClaim(v, q.market, final, q.outcome, amount);
    SettleClaimKeeps(v1, q, gross);
  }

  lemma RedeemCancelledSound(v: VaultState, reg: RegistryState, t: TokenState, q: Position, amount: int)
    requires RedeemCancelled(v, reg, t, q, amount).Ok? && SoundDebts(v) && Balanced(v, t, q.market)
    ensures Keeps(v, RedeemCancelled(v, reg, t, q, amount).value.0)
    ensures SoundDebts(RedeemCancelled(v, reg, t, q, amount).value.0)
  {
    hide OpenClaim, SettleRefund, Burn, SoundDebts, Balanced, OneLender, Matched;
    OpenClaimBalanced(v, t, q, Invalid, amount, q.market);
    OpenClaimSound(v, q.market, Invalid, q.outcome, amount);
    var (v1, gross) := OpenClaim(v, q.market, Invalid, q.outcome, amount);
    SettleRefundKeeps(v1, q, gross);
  }

  /** Every successful call keeps the vault solid. */
  lemma ApplySolid(l: Ledger, now: nat, call: Call)
    requires Apply(l, now, call).Ok? && Solid(l.vault)
    requires forall m: nat :: Balanced(l.vault, l.tokens, m)
    ensures Solid(Apply(l, now, call).value.vault)
  {
    hide ApplyTrade, ApplyLiquidity, ApplyRedeem, ApplyVault, ApplyTokens, ApplyRegistry, Balanced, Solid;
    match call
    case Purchase(_, _, _, _, _, _, _) => TradeSolid(l, now, call);
    case Sale(_, _, _, _, _, _) => TradeSolid(l, now, call);
    case Liquidation(_, _, _, _) => TradeSolid(l, now, call);
    case LegLiquidation(_, _, _, _) => TradeSolid(l, now, call);
    case Creation(_, _, _, _) => LiquiditySolid(l, now, call);
    case Seeding(_, _, _) => LiquiditySolid(l, now, call);
    case Addition(_, _, _) => LiquiditySolid(l, now, call);
    case Removal(_, _, _) => LiquiditySolid(l, now, call);
    case FeeClaim(_, _) => LiquiditySolid(l, now, call);
    case Redemption(_, _, _, _) => RedeemSolid(l, call);
    case Refund(_, _, _, _) => RedeemSolid(l, call);
    case Transfer(_, _, _, _) =>
    case LosingBurn(_, _, _) =>
    case RegistryMove(_) =>
    case Pause(contract, paused) => PauseSolid(l, contract, paused);
    case FeeSweep(m) =>
      BalancedFees(l, m);
      VaultCallSolid(l.vault, l.reg, call);
    case Repayment(_, _, _) => VaultCallSolid(l.vault, l.reg, call);
    case BondLock(_, _, _) => VaultCallSolid(l.vault, l.reg, call);
    case BondUnlock(_, _, _) => VaultCallSolid(l.vault, l.reg, call);
  }

  lemma BalancedFees(l: Ledger, m: nat)
    requires Balanced(l.vault, l.tokens, m)
    ensures FeesNonNegative(l.vault, m)
  {
  }

  lemma PauseSolid(l: Ledger, contract: Pausable, paused: bool)
    requires Solid(l.vault)
    ensures Solid(ApplyPause(l, contract, paused).vault)
  {
    hide SoundDebts;
    SameDebtsSound(l.vault, ApplyPause(l, contract, paused).vault);
  }
}
