// Conservation across the contracts: what the vault answers for in a market is what the token ledger
// records as its backing, and the money in the vault is what its books say.

module LedgerMoney {
  import opened DikeTypes
  import opened MarketRegistry
  import opened TokenLedger
  import opened VaultLedger
  import opened VaultBooks
  import opened VaultClaims
  import opened VaultDebts
  import opened AmmPools
  import opened LedgerCalls

  function Backing(t: TokenState, k: nat): int {
    Read(t.backing, k)
  }

  predicate FeesNonNegative(v: VaultState, k: nat) {
    var fees := AccountOf(v, k).fees;
    fees.lp >= 0 && fees.protocol >= 0 && fees.cod >= 0
  }

  /** The identity between the two ledgers, and the state of market k's cash. */
  ghost predicate Balanced(v: VaultState, t: TokenState, k: nat) {
    && ClaimSide(v, k) == Backing(t, k)
    && CashGap(v, k) == 0
    && AccountOf(v, k).cash.shortfall >= 0
    && FeesNonNegative(v, k)
    && 0 <= AccountOf(v, k).dustCarry <= 1
  }

  /** From v to v', market k answers for `delta` more sets, its fees stay non-negative and nothing is redeemed. */
  ghost predicate Moves(v: VaultState, v': VaultState, k: nat, delta: int) {
    && Answers(v, v', k, delta)
    && (FeesNonNegative(v, k) ==> FeesNonNegative(v', k))
    && SameTrail(v, v', k)
  }

  lemma MovesBalance(v: VaultState, t: TokenState, v': VaultState, t': TokenState, k: nat, delta: int)
    requires Balanced(v, t, k) && Moves(v, v', k, delta)
    requires Backing(t', k) == Backing(t, k) + delta
    ensures Balanced(v', t', k)
  {
  }

  // ---------------------------------------------------------------- what tokens do to the backing

  lemma MintBacking(t: TokenState, to: Address, m: nat, amount: int, k: nat)
    requires MintCompleteSet(t, to, m, amount).Ok?
    ensures Backing(MintCompleteSet(t, to, m, amount).value, k) == Backing(t, k) + (if k == m then amount else 0)
  {
  }

  lemma MergeBacking(t: TokenState, user: Address, m: nat, amount: int, k: nat)
    requires MergePositions(t, user, m, amount).Ok?
    ensures Backing(MergePositions(t, user, m, amount).value, k) == Backing(t, k) - (if k == m then amount else 0)
  {
  }

  lemma MoveBackingSame(t: TokenState, from: Address, to: Address, s: Side, amount: int)
    requires MovePosition(t, from, to, s, amount).Ok?
    ensures MovePosition(t, from, to, s, amount).value.backing == t.backing
  {
  }

  lemma TransferBackingSame(v: VaultState, t: TokenState, from: Address, to: Address, s: Side, amount: int)
    requires TransferPosition(v, t, from, to, s, amount).Ok?
    ensures TransferPosition(v, t, from, to, s, amount).value.backing == t.backing
    ensures TransferPosition(v, t, from, to, s, amount) == MovePosition(t, from, to, s, amount)
  {
    MoveBackingSame(t, from, to, s, amount);
  }

  // ---------------------------------------------------------------- trades

  lemma PayInMoves(v: VaultState, reg: RegistryState, trader: Address, m: nat, parent: Parent, trade: Trade, k: nat)
    requires PayIn(v, reg, trader, m, parent, trade).Ok?
    ensures Moves(v, PayIn(v, reg, trader, m, parent, trade).value, k, if k == m then trade.amountIn else 0)
  {
    match parent
    case FromParent(q) =>
      OpenCreditClaims(v, reg, Position(q.market, trader, q.outcome), m, trade.amountIn, k);
    case NoParent =>
      DepositClaims(v, reg, m, trade.amountIn, k);
  }

  lemma CollectFeeMoves(v: VaultState, m: nat, split: FeeSplit, k: nat)
    requires CollectFee(v, m, split.lp, split.protocol, split.cod).Ok?
    ensures Moves(v, CollectFee(v, m, split.lp, split.protocol, split.cod).value, k,
                  if k == m then -(split.lp + split.protocol + split.cod) else 0)
  {
    CollectFeeClaims(v, m, split.lp, split.protocol, split.cod, k);
  }

  lemma BuyVaultMoves(v: VaultState, reg: RegistryState, trader: Address, m: nat, parent: Parent, trade: Trade,
                      split: FeeSplit, k: nat)
    requires BuyVault(v, reg, trader, m, parent, trade, split).Ok?
    ensures Moves(v, BuyVault(v, reg, trader, m, parent, trade, split).value, k,
                  if k == m then trade.amountIn - (split.lp + split.protocol + split.cod) else 0)
  {
    PayInMoves(v, reg, trader, m, parent, trade, k);
    CollectFeeMoves(PayIn(v, reg, trader, m, parent, trade).value, m, split, k);
  }

  lemma BuyTokensBacking(v: VaultState, t: TokenState, trader: Address, m: nat, trade: Trade, k: nat)
    requires BuyTokens(v, t, trader, m, trade).Ok?
    ensures Backing(BuyTokens(v, t, trader, m, trade).value, k) ==
            Backing(t, k) + (if k == m then trade.amountIn - trade.fee else 0)
  {
    hide MintCompleteSet, TransferPosition;
    MintBacking(t, AmmContract, m, trade.amountIn - trade.fee, k);
    var t1 := MintCompleteSet(t, AmmContract, m, trade.amountIn - trade.fee).value;
    TransferBackingSame(v, t1, AmmContract, trader, Side(m, trade.outcome), trade.gross);
  }

  lemma SettleBuyBalanced(
    l: Ledger, trader: Address, id: nat, pool: Pool, trade: Trade, parent: Parent, k: nat)
    requires SettleBuy(l, trader, id, pool, trade, parent).Ok? && Balanced(l.vault, l.tokens, k)
    ensures var l' := SettleBuy(l, trader, id, pool, trade, parent).value.0;
            Balanced(l'.vault, l'.tokens, k) && SameTrail(l.vault, l'.vault, k)
  {
    var l' := SettleBuy(l, trader, id, pool, trade, parent).value.0;
    BuyVaultMoves(l.vault, l.reg, trader, pool.market, parent, trade, SplitTradingFee(trade.fee, pool.fee), k);
    BuyTokensBacking(l'.vault, l.tokens, trader, pool.market, trade, k);
    MovesBalance(l.vault, l.tokens, l'.vault, l'.tokens, k, if k == pool.market then trade.amountIn - trade.fee else 0);
  }

  lemma SellVaultMoves(v: VaultState, reg: RegistryState, q: Position, trade: Trade, split: FeeSplit, k: nat)
    requires SellVault(v, reg, q, trade, split).Ok?
    ensures Moves(v, SellVault(v, reg, q, trade, split).value, k,
                  if k == q.market then -(trade.gross - trade.fee) - (split.lp + split.protocol + split.cod) else 0)
  {
    ReleaseTradePayoutClaims(v, reg, q, trade.amountIn, trade.gross - trade.fee, k);
    CollectFeeMoves(ReleaseTradePayout(v, reg, q, trade.amountIn, trade.gross - trade.fee).value, q.market, split, k);
  }

  lemma SellTokensBacking(v: VaultState, t: TokenState, trader: Address, m: nat, trade: Trade, k: nat)
    requires SellTokens(v, t, trader, m, trade).Ok?
    ensures Backing(SellTokens(v, t, trader, m, trade).value, k) == Backing(t, k) - (if k == m then trade.gross else 0)
  {
    TransferBackingSame(v, t, trader, AmmContract, Side(m, trade.outcome), trade.amountIn);
    var t1 := TransferPosition(v, t, trader, AmmContract, Side(m, trade.outcome), trade.amountIn).value;
    MergeBacking(t1, AmmContract, m, trade.gross, k);
  }

  lemma SettleSellBalanced(l: Ledger, trader: Address, id: nat, pool: Pool, trade: Trade, k: nat)
    requires SettleSell(l, trader, id, pool, trade).Ok? && Balanced(l.vault, l.tokens, k)
    ensures var l' := SettleSell(l, trader, id, pool, trade).value.0;
            Balanced(l'.vault, l'.tokens, k) && SameTrail(l.vault, l'.vault, k)
  {
    var l' := SettleSell(l, trader, id, pool, trade).value.0;
    var q := Position(pool.market, trader, trade.outcome);
    SellVaultMoves(l.vault, l.reg, q, trade, SplitTradingFee(trade.fee, pool.fee), k);
    SellTokensBacking(l.vault, l.tokens, trader, pool.market, trade, k);
    MovesBalance(l.vault, l.tokens, l'.vault, l'.tokens, k, if k == pool.market then -trade.gross else 0);
  }

  // ---------------------------------------------------------------- liquidation

  lemma ForceTokensBacking(t: TokenState, user: Address, m: nat, trade: Trade, k: nat)
    requires ForceTokens(t, user, m, trade).Ok?
    ensures Backing(ForceTokens(t, user, m, trade).value, k) == Backing(t, k) - (if k == m then trade.gross else 0)
  {
    MoveBackingSame(t, user, AmmContract, Side(m, trade.outcome), trade.amountIn);
    var t1 := MovePosition(t, user, AmmContract, Side(m, trade.outcome), trade.amountIn).value;
    MergeBacking(t1, AmmContract, m, trade.gross, k);
  }

  /** After the forced sale the vault still answers for the proceeds. */
  lemma ForceSellMoves(l: Ledger, user: Address, id: nat, pool: Pool, trade: Trade, k: nat)
    requires ForceSell(l, user, id, pool, trade).Ok?
    ensures var l' := ForceSell(l, user, id, pool, trade).value;
            && Moves(l.vault, l'.vault, k, if k == pool.market then -trade.fee else 0)
            && Backing(l'.tokens, k) == Backing(l.tokens, k) - (if k == pool.market then trade.gross else 0)
  {
    CollectFeeMoves(l.vault, pool.market, SplitTradingFee(trade.fee, pool.fee), k);
    ForceTokensBacking(l.tokens, user, pool.market, trade, k);
  }

  lemma ForceThenReleaseBalanced(l: Ledger, l1: Ledger, v: VaultState, m: nat, trade: Trade, k: nat)
    requires Balanced(l.vault, l.tokens, k)
    requires Moves(l.vault, l1.vault, k, if k == m then -trade.fee else 0)
    requires Backing(l1.tokens, k) == Backing(l.tokens, k) - (if k == m then trade.gross else 0)
    requires Claims(l1.vault, v, k, if k == m then -(trade.gross - trade.fee) else 0)
    ensures Balanced(v, l1.tokens, k) && SameTrail(l.vault, v, k)
  {
  }

  lemma SettleLiquidationBalanced(l: Ledger, user: Address, id: nat, pool: Pool, trade: Trade, q: Position, k: nat)
    requires SettleLiquidation(l, user, id, pool, trade, q).Ok? && q.market == pool.market
    requires Balanced(l.vault, l.tokens, k)
    ensures var l' := SettleLiquidation(l, user, id, pool, trade, q).value.0;
            Balanced(l'.vault, l'.tokens, k) && SameTrail(l.vault, l'.vault, k)
  {
    hide LiquidateRelease, ForceSell, Moves, Claims;
    var l1 := ForceSell(l, user, id, pool, trade).value;
    ForceSellMoves(l, user, id, pool, trade, k);
    LiquidateReleaseClaims(l1.vault, l1.reg, q, trade.amountIn, trade.gross - trade.fee, k);
    var v := LiquidateRelease(l1.vault, l1.reg, q, trade.amountIn, trade.gross - trade.fee).value.0;
    ForceThenReleaseBalanced(l, l1, v, pool.market, trade, k);
  }

  lemma SettleLegLiquidationBalanced(l: Ledger, user: Address, id: nat, pool: Pool, trade: Trade, q: Position, k: nat)
    requires SettleLegLiquidation(l, user, id, pool, trade, q).Ok? && q.market == pool.market
    requires Balanced(l.vault, l.tokens, k)
    ensures var l' := SettleLegLiquidation(l, user, id, pool, trade, q).value.0;
            Balanced(l'.vault, l'.tokens, k) && SameTrail(l.vault, l'.vault, k)
  {
    hide LiquidateChildRelease, ForceSell, Moves, Claims;
    var l1 := ForceSell(l, user, id, pool, trade).value;
    ForceSellMoves(l, user, id, pool, trade, k);
    LiquidateChildReleaseClaims(l1.vault, l1.reg, q, trade.amountIn, trade.gross - trade.fee, k);
    var v := LiquidateChildRelease(l1.vault, l1.reg, q, trade.amountIn, trade.gross - trade.fee).value.0;
    ForceThenReleaseBalanced(l, l1, v, pool.market, trade, k);
  }

  // ---------------------------------------------------------------- liquidity

  lemma FundPoolBalanced(l: Ledger, m: nat, amount: int, k: nat)
    requires FundPool(l, m, amount).Ok? && Balanced(l.vault, l.tokens, k)
    ensures var l' := FundPool(l, m, amount).value;
            Balanced(l'.vault, l'.tokens, k) && SameTrail(l.vault, l'.vault, k)
  {
    hide Deposit, MintCompleteSet;
    DepositClaims(l.vault, l.reg, m, amount, k);
    MintBacking(l.tokens, AmmContract, m, amount, k);
  }

  lemma PayPendingBalanced(v: VaultState, t: TokenState, reg: RegistryState, m: nat, pending: int, k: nat)
    requires PayPending(v, reg, m, pending).Ok? && Balanced(v, t, k)
    ensures Balanced(PayPending(v, reg, m, pending).value, t, k)
    ensures SameTrail(v, PayPending(v, reg, m, pending).value, k)
  {
    if pending > 0 {
      PayLpFeesWithin(v, reg, m, pending);
      PayLpFeesClaims(v, reg, m, pending, k);
    }
  }

  lemma HandOutBacking(v: VaultState, t: TokenState, lp: Address, m: nat, out: Reserves)
    requires HandOut(v, t, lp, m, out).Ok?
    ensures HandOut(v, t, lp, m, out).value.backing == t.backing
  {
    hide TransferPosition;
    TransferBackingSame(v, t, AmmContract, lp, Side(m, Yes), out.yes);
    var t1 := TransferPosition(v, t, AmmContract, lp, Side(m, Yes), out.yes).value;
    TransferBackingSame(v, t1, AmmContract, lp, Side(m, No), out.no);
  }

  lemma SeedBalanced(l: Ledger, now: nat, lp: Address, id: nat, amount: int, k: nat)
    requires Seed(l, now, lp, id, amount).Ok? && Balanced(l.vault, l.tokens, k)
    ensures var l' := Seed(l, now, lp, id, amount).value;
            Balanced(l'.vault, l'.tokens, k) && SameTrail(l.vault, l'.vault, k)
  {
    hide FundPool, Balanced, SameTrail;
    FundPoolBalanced(l, l.amm.pools[id].market, amount, k);
  }

  lemma AddBalanced(l: Ledger, now: nat, lp: Address, id: nat, amount: int, k: nat)
    requires Add(l, now, lp, id, amount).Ok? && Balanced(l.vault, l.tokens, k)
    ensures var l' := Add(l, now, lp, id, amount).value.0;
            Balanced(l'.vault, l'.tokens, k) && SameTrail(l.vault, l'.vault, k)
  {
    hide FundPool, SharesFor, FeesOwed, PayPending, Balanced;
    var pool := l.amm.pools[id];
    FundPoolBalanced(l, pool.market, amount, k);
    var l1 := FundPool(l, pool.market, amount).value;
    PayPendingBalanced(l1.vault, l1.tokens, l1.reg, pool.market, FeesOwed(pool.lp, lp), k);
  }

  lemma RemoveBalanced(l: Ledger, now: nat, lp: Address, id: nat, shares: int, k: nat)
    requires Remove(l, now, lp, id, shares).Ok? && Balanced(l.vault, l.tokens, k)
    ensures var l' := Remove(l, now, lp, id, shares).value.0;
            Balanced(l'.vault, l'.tokens, k) && SameTrail(l.vault, l'.vault, k)
  {
    hide Withdrawal, FeesOwed, PayPending, HandOut;
    var pool := l.amm.pools[id];
    var pending := FeesOwed(pool.lp, lp);
    var v := PayPending(l.vault, l.reg, pool.market, pending).value;
    PayPendingBalanced(l.vault, l.tokens, l.reg, pool.market, pending, k);
    HandOutBacking(v, l.tokens, lp, pool.market, Withdrawal(pool, shares).value);
  }

  lemma ClaimFeesBalanced(l: Ledger, lp: Address, id: nat, k: nat)
    requires ClaimFees(l, lp, id).Ok? && Balanced(l.vault, l.tokens, k)
    ensures var l' := ClaimFees(l, lp, id).value.0;
            Balanced(l'.vault, l'.tokens, k) && SameTrail(l.vault, l'.vault, k)
  {
    hide FeesOwed, PayLpFees;
    var pool := l.amm.pools[id];
    if FeesOwed(pool.lp, lp) > 0 {
      PayLpFeesWithin(l.vault, l.reg, pool.market, FeesOwed(pool.lp, lp));
      PayLpFeesClaims(l.vault, l.reg, pool.market, FeesOwed(pool.lp, lp), k);
    }
  }

  lemma PayLpFeesWithin(v: VaultState, reg: RegistryState, m: nat, amount: int)
    requires PayLpFees(v, reg, m, amount).Ok?
    ensures amount <= AccountOf(v, m).fees.lp
  {
  }

  lemma CreateMarketBalanced(l: Ledger, now: nat, creator: Address, terms: Terms, fee: FeeConfig, liquidity: int,
                             k: nat)
    requires CreateMarket(l, now, creator, terms, fee, liquidity).Ok? && Balanced(l.vault, l.tokens, k)
    ensures var l' := CreateMarket(l, now, creator, terms, fee, liquidity).value.0;
            Balanced(l'.vault, l'.tokens, k) && SameTrail(l.vault, l'.vault, k)
  {
    hide Seed, Balanced, SameTrail, RegisterMarket, CreatePool, Transition;
    var (reg, m) := RegisterMarket(l.reg, now, terms).value;
    var (amm, id) := CreatePool(l.amm, m, fee).value;
    SeedBalanced(l.(reg := reg, amm := amm), now, creator, id, liquidity, k);
  }

  // ---------------------------------------------------------------- redemption

  lemma BurnBacking(t: TokenState, owner: Address, s: Side, amount: int)
    requires Burn(t, owner, s, amount).Ok?
    ensures Burn(t, owner, s, amount).value.backing == t.backing
  {
  }

  lemma EntitlementSane(final: Outcome, redeemed: Outcome, amount: int, carry: int)
    requires amount > 0 && 0 <= carry <= 1
    ensures var (gross, carry') := Entitlement(final, redeemed, amount, carry);
            && 0 <= gross <= amount && 0 <= carry' <= 1
            && (final == Invalid ==> 2 * gross + carry' == amount + carry)
            && (final != Invalid ==> carry' == carry && gross == if redeemed == final then amount else 0)
  {
  }

  lemma OpenClaimBalanced(v: VaultState, t: TokenState, q: Position, final: Outcome, amount: int, k: nat)
    requires Balanced(v, t, k) && Balanced(v, t, q.market) && amount > 0
    ensures var (v', gross) := OpenClaim(v, q.market, final, q.outcome, amount);
            Balanced(v', t, k) && 0 <= gross <= amount
  {
    hide OpenClaim, Entitlement;
    OpenClaimClaims(v, q.market, final, q.outcome, amount, k);
    EntitlementSane(final, q.outcome, amount, AccountOf(v, q.market).dustCarry);
  }

  /** Opening a claim touches no debt. */
  lemma OpenClaimSound(v: VaultState, m: nat, final: Outcome, redeemed: Outcome, amount: int)
    requires SoundDebts(v)
    ensures Keeps(v, OpenClaim(v, m, final, redeemed, amount).0)
  {
    SameDebtsKeeps(v, OpenClaim(v, m, final, redeemed, amount).0);
  }

  lemma SettledBalanced(v: VaultState, t: TokenState, v': VaultState, k: nat, bound: int)
    requires Balanced(v, t, k) && SatisfiesWithin(v, v', k, bound)
    ensures Balanced(v', t, k)
  {
  }

  lemma SoundDebtsAt(v: VaultState, q: Position)
    requires SoundDebts(v)
    ensures SoundAt(v, q) && DebtsNonNegative(v)
  {
    forall leg | leg in v.debts.childDebt ensures v.debts.childDebt[leg] >= 0 {
      assert ChildDebt(v, leg) >= 0;
    }
    forall p | p in v.debts.parentDebt ensures v.debts.parentDebt[p] >= 0 {
      assert ParentDebt(v, p) >= 0;
    }
  }

  lemma RedeemResolvedBalanced(v: VaultState, reg: RegistryState, t: TokenState, q: Position, amount: int, k: nat)
    requires RedeemResolved(v, reg, t, q, amount).Ok? && SoundDebts(v)
    requires Balanced(v, t, k) && Balanced(v, t, q.market)
    ensures var (v', t', _) := RedeemResolved(v, reg, t, q, amount).value;
            Balanced(v', t', k)
  {
    hide OpenClaim, SettleClaim, Burn, SoundDebts, Keeps, SatisfiesWithin;
    var final := reg.markets[q.market].final;
    BurnBacking(t, q.user, Side(q.market, q.outcome), amount);
    OpenClaimBalanced(v, t, q, final, amount, k);
    OpenClaimBalanced(v, t, q, final, amount, q.market);
    OpenClaimSound(v, q.market, final, q.outcome, amount);
    var (v1, gross) := OpenClaim(v, q.market, final, q.outcome, amount);
    assert SoundDebts(v1) by { KeepsSound(v, v1); }
    SoundDebtsAt(v1, q);
    SettleClaimClaims(v1, q, gross, k);
    SettledBalanced(v1, t, SettleClaim(v1, q, gross).value.0, k, if k == q.market then gross else 0);
  }

  lemma KeepsSound(v: VaultState, v': VaultState)
    requires Keeps(v, v')
    ensures SoundDebts(v')
  {
  }

  lemma RedeemCancelledBalanced(v: VaultState, reg: RegistryState, t: TokenState, q: Position, amount: int, k: nat)
    requires RedeemCancelled(v, reg, t, q, amount).Ok? && SoundDebts(v)
    requires Balanced(v, t, k) && Balanced(v, t, q.market)
    ensures var (v', t', _) := RedeemCancelled(v, reg, t, q, amount).value;
            Balanced(v', t', k)
  {
    hide OpenClaim, SettleRefund, Burn, SoundDebts, Keeps, SatisfiesWithin;
    BurnBacking(t, q.user, Side(q.market, q.outcome), amount);
    OpenClaimBalanced(v, t, q, Invalid, amount, k);
    OpenClaimBalanced(v, t, q, Invalid, amount, q.market);
    OpenClaimSound(v, q.market, Invalid, q.outcome, amount);
    var (v1, gross) := OpenClaim(v, q.market, Invalid, q.outcome, amount);
    assert SoundDebts(v1) by { KeepsSound(v, v1); }
    SoundDebtsAt(v1, q);
    SettleRefundClaims(v1, q, gross, k);
    SettledBalanced(v1, t, SettleRefund(v1, q, gross).value.0, k, if k == q.market then gross else 0);
  }

  // ---------------------------------------------------------------- the other calls

  lemma VaultCallBalanced(v: VaultState, t: TokenState, reg: RegistryState, call: Call, k: nat)
    requires call.Repayment? || call.BondLock? || call.BondUnlock? || call.FeeSweep?
    requires ApplyVault(v, reg, call).Ok? && Balanced(v, t, k)
    requires call.FeeSweep? ==> Balanced(v, t, call.market)
    ensures Balanced(ApplyVault(v, reg, call).value, t, k)
    ensures SameTrail(v, ApplyVault(v, reg, call).value, k)
  {
    hide RepayChildCollateral, LockBond, UnlockBond, SweepProtocolFees;
    match call
    case Repayment(user, m, amount) => RepayChildCollateralClaims(v, reg, Leg(m, user), amount, k);
    case BondLock(key, m, amount) => LockBondClaims(v, reg, key, m, amount, k);
    case BondUnlock(key, to, amount) => UnlockBondClaims(v, key, to, amount, k);
    case FeeSweep(m) => SweepClaims(v, reg, m, k);
  }

  lemma TokenCallBacking(l: Ledger, call: Call)
    requires call.Transfer? || call.LosingBurn?
    requires ApplyTokens(l, call).Ok?
    ensures ApplyTokens(l, call).value.backing == l.tokens.backing
  {
    hide TransferPosition, Burn;
    match call
    case Transfer(from, to, side, amount) => TransferBackingSame(l.vault, l.tokens, from, to, side, amount);
    case LosingBurn(owner, side, amount) => BurnBacking(l.tokens, owner, side, amount);
  }

  /** Every successful call keeps every market balanced. */
  lemma ApplyBalanced(l: Ledger, now: nat, call: Call, k: nat)
    requires Apply(l, now, call).Ok? && SoundDebts(l.vault)
    requires forall m: nat :: Balanced(l.vault, l.tokens, m)
    ensures var l' := Apply(l, now, call).value;
            && Balanced(l'.vault, l'.tokens, k)
            && (!call.Redemption? && !call.Refund? ==> SameTrail(l.vault, l'.vault, k))
  {
    hide ApplyTrade, ApplyLiquidity, ApplyRedeem, ApplyVault, ApplyTokens, ApplyRegistry, Balanced, SameTrail,
         SoundDebts;
    match call
    case Purchase(_, _, _, _, _, _, _) => TradeBalanced(l, now, call, k);
    case Sale(_, _, _, _, _, _) => TradeBalanced(l, now, call, k);
    case Liquidation(_, _, _, _) => TradeBalanced(l, now, call, k);
    case LegLiquidation(_, _, _, _) => TradeBalanced(l, now, call, k);
    case Creation(_, _, _, _) => LiquidityBalanced(l, now, call, k);
    case Seeding(_, _, _) => LiquidityBalanced(l, now, call, k);
    case Addition(_, _, _) => LiquidityBalanced(l, now, call, k);
    case Removal(_, _, _) => LiquidityBalanced(l, now, call, k);
    case FeeClaim(_, _) => LiquidityBalanced(l, now, call, k);
    case Redemption(_, _, _, _) => RedeemBalanced(l, call, k);
    case Refund(_, _, _, _) => RedeemBalanced(l, call, k);
    case Transfer(_, _, _, _) =>
      TokenCallBacking(l, call);
      SameBacking(l.vault, l.tokens, l.vault, ApplyTokens(l, call).value, k);
    case LosingBurn(_, _, _) =>
      TokenCallBacking(l, call);
      SameBacking(l.vault, l.tokens, l.vault, ApplyTokens(l, call).value, k);
    case RegistryMove(_) => SameBacking(l.vault, l.tokens, l.vault, l.tokens, k);
    case Pause(contract, paused) => SameBacking(l.vault, l.tokens, ApplyPause(l, contract, paused).vault, l.tokens, k);
    case _ => VaultCallBalanced(l.vault, l.tokens, l.reg, call, k);
  }

  lemma SameBacking(v: VaultState, t: TokenState, v': VaultState, t': TokenState, k: nat)
    requires Balanced(v, t, k) && t'.backing == t.backing && v'.books == v.books
    ensures Balanced(v', t', k) && SameTrail(v, v', k)
  {
  }

  lemma RedeemBalanced(l: Ledger, call: Call, k: nat)
    requires (call.Redemption? || call.Refund?) && ApplyRedeem(l, call).Ok? && SoundDebts(l.vault)
    requires forall m: nat :: Balanced(l.vault, l.tokens, m)
    ensures var l' := ApplyRedeem(l, call).value;
            Balanced(l'.vault, l'.tokens, k)
  {
    hide RedeemResolved, RedeemCancelled, Balanced, SoundDebts;
    var q := Position(call.market, call.user, call.outcome);
    if call.Redemption? {
      RedeemResolvedBalanced(l.vault, l.reg, l.tokens, q, call.amount, k);
    } else {
      RedeemCancelledBalanced(l.vault, l.reg, l.tokens, q, call.amount, k);
    }
  }

  lemma TradeBalanced(l: Ledger, now: nat, call: Call, k: nat)
    requires call.Purchase? || call.Sale? || call.Liquidation? || call.LegLiquidation?
    requires ApplyTrade(l, now, call).Ok? && Balanced(l.vault, l.tokens, k)
    ensures var l' := ApplyTrade(l, now, call).value;
            Balanced(l'.vault, l'.tokens, k) && SameTrail(l.vault, l'.vault, k)
  {
    hide Balanced, SameTrail, SettleBuy, SettleSell, SettleLiquidation, SettleLegLiquidation, RequireLive, PriceBuy,
         PriceSell, PriceLiquidation;
    match call
    case Purchase(trader, id, amountIn, _, _, yes, parent) =>
      var pool := l.amm.pools[id];
      SettleBuyBalanced(l, trader, id, pool, PriceBuy(pool, amountIn, SideOf(yes)).value, parent, k);
    case Sale(trader, id, amountIn, _, _, yes) =>
      var pool := l.amm.pools[id];
      SettleSellBalanced(l, trader, id, pool, PriceSell(pool, amountIn, SideOf(yes)).value, k);
    case Liquidation(liquidator, user, id, outcome) =>
      var (pool, trade) := PriceLiquidation(l, now, liquidator, user, id, outcome, false).value;
      SettleLiquidationBalanced(l, user, id, pool, trade, Position(pool.market, user, outcome), k);
    case LegLiquidation(liquidator, user, id, outcome) =>
      var (pool, trade) := PriceLiquidation(l, now, liquidator, user, id, outcome, true).value;
      SettleLegLiquidationBalanced(l, user, id, pool, trade, Position(pool.market, user, outcome), k);
  }

  lemma LiquidityBalanced(l: Ledger, now: nat, call: Call, k: nat)
    requires call.Creation? || call.Seeding? || call.Addition? || call.Removal? || call.FeeClaim?
    requires ApplyLiquidity(l, now, call).Ok? && Balanced(l.vault, l.tokens, k)
    ensures var l' := ApplyLiquidity(l, now, call).value;
            Balanced(l'.vault, l'.tokens, k) && SameTrail(l.vault, l'.vault, k)
  {
    hide Balanced, SameTrail, CreateMarket, Seed, Add, Remove, ClaimFees;
    match call
    case Creation(creator, terms, fee, liquidity) => CreateMarketBalanced(l, now, creator, terms, fee, liquidity, k);
    case Seeding(lp, id, amount) => SeedBalanced(l, now, lp, id, amount, k);
    case Addition(lp, id, amount) => AddBalanced(l, now, lp, id, amount, k);
    case Removal(lp, id, shares) => RemoveBalanced(l, now, lp, id, shares, k);
    case FeeClaim(lp, id) => ClaimFeesBalanced(l, lp, id, k);
  }
}
