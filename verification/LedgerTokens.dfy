// Tokens across every call: complete sets stay complete, and what is burned stays burned.

module LedgerTokens {
  import opened DikeTypes
  import opened MarketRegistry
  import opened TokenLedger
  import opened VaultLedger
  import opened AmmPools
  import opened LedgerCalls

  /** Both laws of a step of the token ledger that is not a burn for redemption. */
  ghost predicate TokensKept(t: TokenState, t': TokenState) {
    && ValidTokens(t')
    && forall s :: Read(t'.burned, s) >= Read(t.burned, s)
  }

  lemma MintKept(t: TokenState, to: Address, m: nat, amount: int)
    requires ValidTokens(t) && MintCompleteSet(t, to, m, amount).Ok?
    ensures TokensKept(t, MintCompleteSet(t, to, m, amount).value)
  {
    hide ValidTokens;
    MintKeeps(t, to, m, amount);
  }

  lemma MergeKept(t: TokenState, user: Address, m: nat, amount: int)
    requires ValidTokens(t) && MergePositions(t, user, m, amount).Ok?
    ensures TokensKept(t, MergePositions(t, user, m, amount).value)
  {
    hide ValidTokens;
    MergeKeeps(t, user, m, amount);
  }

  lemma MoveKept(t: TokenState, from: Address, to: Address, s: Side, amount: int)
    requires ValidTokens(t) && MovePosition(t, from, to, s, amount).Ok?
    ensures TokensKept(t, MovePosition(t, from, to, s, amount).value)
  {
    hide ValidTokens;
    MoveKeeps(t, from, to, s, amount);
  }

  lemma TransferKept(v: VaultState, t: TokenState, from: Address, to: Address, s: Side, amount: int)
    requires ValidTokens(t) && TransferPosition(v, t, from, to, s, amount).Ok?
    ensures TokensKept(t, TransferPosition(v, t, from, to, s, amount).value)
  {
    hide ValidTokens, MovePosition, TokensKept;
    MoveKept(t, from, to, s, amount);
  }

  lemma BurnKept(t: TokenState, owner: Address, s: Side, amount: int)
    requires ValidTokens(t) && Burn(t, owner, s, amount).Ok?
    ensures TokensKept(t, Burn(t, owner, s, amount).value)
    ensures s.outcome != Invalid && amount > 0
    ensures Read(Burn(t, owner, s, amount).value.burned, s) == Read(t.burned, s) + amount
  {
    hide ValidTokens;
    BurnKeeps(t, owner, s, amount);
  }

  lemma TradeTokens(l: Ledger, now: nat, call: Call)
    requires call.Purchase? || call.Sale? || call.Liquidation? || call.LegLiquidation?
    requires ApplyTrade(l, now, call).Ok? && ValidTokens(l.tokens)
    ensures TokensKept(l.tokens, ApplyTrade(l, now, call).value.tokens)
  {
    hide ValidTokens, TokensKept, BuyVault, SellVault, CollectFee, LiquidateRelease, LiquidateChildRelease,
         RequireLive, PriceBuy, PriceSell, PriceLiquidation, BuyTokens, SellTokens, ForceTokens;
    match call
    case Purchase(trader, id, amountIn, _, _, yes, parent) =>
      var pool := l.amm.pools[id];
      BuyTokensKept(ApplyTrade(l, now, call).value.vault, l.tokens, trader, pool.market,
                    PriceBuy(pool, amountIn, SideOf(yes)).value);
    case Sale(trader, id, amountIn, _, _, yes) =>
      var pool := l.amm.pools[id];
      SellTokensKept(l.vault, l.tokens, trader, pool.market, PriceSell(pool, amountIn, SideOf(yes)).value);
    case Liquidation(liquidator, user, id, outcome) =>
      var (pool, trade) := PriceLiquidation(l, now, liquidator, user, id, outcome, false).value;
      ForceTokensKept(l.tokens, user, pool.market, trade);
    case LegLiquidation(liquidator, user, id, outcome) =>
      var (pool, trade) := PriceLiquidation(l, now, liquidator, user, id, outcome, true).value;
      ForceTokensKept(l.tokens, user, pool.market, trade);
  }

  lemma BuyTokensKept(v: VaultState, t: TokenState, trader: Address, m: nat, trade: Trade)
    requires BuyTokens(v, t, trader, m, trade).Ok? && ValidTokens(t)
    ensures TokensKept(t, BuyTokens(v, t, trader, m, trade).value)
  {
    hide MintCompleteSet, TransferPosition, ValidTokens;
    MintKept(t, AmmContract, m, trade.amountIn - trade.fee);
    var t1 := MintCompleteSet(t, AmmContract, m, trade.amountIn - trade.fee).value;
    TransferKept(v, t1, AmmContract, trader, Side(m, trade.outcome), trade.gross);
  }

  lemma SellTokensKept(v: VaultState, t: TokenState, trader: Address, m: nat, trade: Trade)
    requires SellTokens(v, t, trader, m, trade).Ok? && ValidTokens(t)
    ensures TokensKept(t, SellTokens(v, t, trader, m, trade).value)
  {
    hide MergePositions, TransferPosition, ValidTokens;
    TransferKept(v, t, trader, AmmContract, Side(m, trade.outcome), trade.amountIn);
    MergeKept(TransferPosition(v, t, trader, AmmContract, Side(m, trade.outcome), trade.amountIn).value,
              AmmContract, m, trade.gross);
  }

  lemma ForceTokensKept(t: TokenState, user: Address, m: nat, trade: Trade)
    requires ForceTokens(t, user, m, trade).Ok? && ValidTokens(t)
    ensures TokensKept(t, ForceTokens(t, user, m, trade).value)
  {
    hide MergePositions, MovePosition, ValidTokens;
    MoveKept(t, user, AmmContract, Side(m, trade.outcome), trade.amountIn);
    MergeKept(MovePosition(t, user, AmmContract, Side(m, trade.outcome), trade.amountIn).value,
              AmmContract, m, trade.gross);
  }

  lemma FundPoolTokens(l: Ledger, m: nat, amount: int)
    requires FundPool(l, m, amount).Ok? && ValidTokens(l.tokens)
    ensures TokensKept(l.tokens, FundPool(l, m, amount).value.tokens)
  {
    hide Deposit, MintCompleteSet, ValidTokens, TokensKept;
    MintKept(l.tokens, AmmContract, m, amount);
  }

  lemma HandOutTokens(v: VaultState, t: TokenState, lp: Address, m: nat, out: Reserves)
    requires HandOut(v, t, lp, m, out).Ok? && ValidTokens(t)
    ensures TokensKept(t, HandOut(v, t, lp, m, out).value)
  {
    hide TransferPosition, ValidTokens;
    TransferKept(v, t, AmmContract, lp, Side(m, Yes), out.yes);
    TransferKept(v, TransferPosition(v, t, AmmContract, lp, Side(m, Yes), out.yes).value,
                 AmmContract, lp, Side(m, No), out.no);
  }

  lemma LiquidityTokens(l: Ledger, now: nat, call: Call)
    requires call.Creation? || call.Seeding? || call.Addition? || call.Removal? || call.FeeClaim?
    requires ApplyLiquidity(l, now, call).Ok? && ValidTokens(l.tokens)
    ensures TokensKept(l.tokens, ApplyLiquidity(l, now, call).value.tokens)
  {
    hide ValidTokens, FundPool, PayLpFees, PayPending, RequireSeedable, RequireTradeable, RequireRemovable, SharesFor,
         Withdrawal, HandOut, FeesOwed, RegisterMarket, CreatePool, Transition;
    match call
    case Creation(creator, terms, fee, liquidity) =>
      var (reg, m) := RegisterMarket(l.reg, now, terms).value;
      var (amm, id) := CreatePool(l.amm, m, fee).value;
      FundPoolTokens(l.(reg := reg, amm := amm), amm.pools[id].market, liquidity);
    case Seeding(lp, id, amount) => FundPoolTokens(l, l.amm.pools[id].market, amount);
    case Addition(lp, id, amount) => FundPoolTokens(l, l.amm.pools[id].market, amount);
    case Removal(lp, id, shares) =>
      var pool := l.amm.pools[id];
      HandOutTokens(ApplyLiquidity(l, now, call).value.vault, l.tokens, lp, pool.market,
                    Withdrawal(pool, shares).value);
    case FeeClaim(lp, id) =>
  }

  /** Every successful call keeps complete sets complete, and un-burns nothing. */
  lemma ApplyTokensKept(l: Ledger, now: nat, call: Call)
    requires Apply(l, now, call).Ok? && ValidTokens(l.tokens)
    ensures TokensKept(l.tokens, Apply(l, now, call).value.tokens)
  {
    hide ApplyTrade, ApplyLiquidity, ApplyVault, ApplyRegistry, ValidTokens, TransferPosition, Burn, RedeemResolved,
         RedeemCancelled;
    match call
    case Purchase(_, _, _, _, _, _, _) => TradeTokens(l, now, call);
    case Sale(_, _, _, _, _, _) => TradeTokens(l, now, call);
    case Liquidation(_, _, _, _) => TradeTokens(l, now, call);
    case LegLiquidation(_, _, _, _) => TradeTokens(l, now, call);
    case Creation(_, _, _, _) => LiquidityTokens(l, now, call);
    case Seeding(_, _, _) => LiquidityTokens(l, now, call);
    case Addition(_, _, _) => LiquidityTokens(l, now, call);
    case Removal(_, _, _) => LiquidityTokens(l, now, call);
    case FeeClaim(_, _) => LiquidityTokens(l, now, call);
    case Redemption(_, _, _, _) => RedeemTokens(l, call);
    case Refund(_, _, _, _) => RedeemTokens(l, call);
    case Transfer(from, to, side, amount) => TransferKept(l.vault, l.tokens, from, to, side, amount);
    case LosingBurn(owner, side, amount) => BurnKept(l.tokens, owner, side, amount);
    case _ =>
  }

  lemma RedeemTokens(l: Ledger, call: Call)
    requires (call.Redemption? || call.Refund?) && ApplyRedeem(l, call).Ok? && ValidTokens(l.tokens)
    ensures TokensKept(l.tokens, ApplyRedeem(l, call).value.tokens)
    ensures call.outcome != Invalid && call.amount > 0
    ensures var side := Side(call.market, call.outcome);
            Read(ApplyRedeem(l, call).value.tokens.burned, side) == Read(l.tokens.burned, side) + call.amount
  {
    hide ValidTokens, TokensKept, Burn, OpenClaim, SettleClaim, SettleRefund;
    BurnKept(l.tokens, call.user, Side(call.market, call.outcome), call.amount);
  }
}
