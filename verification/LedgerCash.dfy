// Cash: when the money for every claim is there. Without child credit every winner and every refund is paid
// in full; with it, the books can promise more than the vault holds.

module LedgerCash {
  import opened DikeTypes
  import opened DikeMath
  import opened MapSums
  import opened MarketRegistry
  import opened TokenLedger
  import opened VaultLedger
  import opened VaultBooks
  import opened VaultDebts
  import opened AmmPools
  import opened LedgerCalls
  import opened LedgerMoney
  import opened LedgerCustody
  import opened LedgerPools
  import opened LedgerRecord
  import opened LedgerLaws

  // ---------------------------------------------------------------- a vault that never lent

  predicate OwesNothing(v: VaultState, q: Position, leg: Leg) {
    ParentDebt(v, q) == 0 && Used(v, q) == 0 && ChildDebt(v, leg) == 0
  }

  /** Nothing was lent, lost, paid upstream or kept back in market k. */
  predicate Unlent(v: VaultState, k: nat) {
    && AccountOf(v, k).loans == Loans(0, 0, 0)
    && AccountOf(v, k).cash.shortfall == 0
    && HistoryOf(v, k).upstream == 0 && HistoryOf(v, k).withheld == 0
  }

  function AmountIn(m: nat): Bond -> int {
    (b: Bond) => if b.market == m then b.amount else 0
  }

  function BondsOf(a: Accounting): int {
    a.bonds.proposal + a.bonds.dispute
  }

  /** A market's bond totals are the sum of its locked bonds. */
  ghost predicate BondsAgree(v: VaultState, k: nat) {
    BondsOf(AccountOf(v, k)) == SumBy(v.escrow.bonds, AmountIn(k))
  }

  ghost predicate BondsNonNegative(v: VaultState) {
    forall key :: key in v.escrow.bonds ==> v.escrow.bonds[key].amount >= 0
  }

  ghost predicate Escrowed(v: VaultState) {
    (forall k: nat :: BondsAgree(v, k)) && BondsNonNegative(v)
  }

  ghost predicate Plain(v: VaultState) {
    && (forall q, leg :: OwesNothing(v, q, leg))
    && (forall k: nat :: Unlent(v, k))
    && Escrowed(v)
    && v.purse.reserve >= 0
  }

  /** A step that lends nothing and locks nothing. */
  predicate Quiet(v: VaultState, v': VaultState, k: nat) {
    && v'.debts == v.debts && v'.escrow == v.escrow
    && AccountOf(v', k).loans == AccountOf(v, k).loans
    && AccountOf(v', k).bonds == AccountOf(v, k).bonds
    && AccountOf(v', k).cash.shortfall == AccountOf(v, k).cash.shortfall
    && HistoryOf(v', k).upstream == HistoryOf(v, k).upstream
    && HistoryOf(v', k).withheld == HistoryOf(v, k).withheld
    && v'.purse.reserve >= v.purse.reserve
  }

  lemma QuietPlain(v: VaultState, v': VaultState)
    requires Plain(v) && forall k: nat :: Quiet(v, v', k)
    ensures Plain(v')
  {
    forall q, leg ensures OwesNothing(v', q, leg) {
      assert OwesNothing(v, q, leg);
      assert Quiet(v, v', 0);
    }
    forall k: nat ensures Unlent(v', k) && BondsAgree(v', k) {
      assert Quiet(v, v', k) && Unlent(v, k) && BondsAgree(v, k);
    }
    assert Quiet(v, v', 0);
  }

  lemma QuietTwice(v: VaultState, v1: VaultState, v2: VaultState, k: nat)
    requires Quiet(v, v1, k) && Quiet(v1, v2, k)
    ensures Quiet(v, v2, k)
  {
  }

  // ---------------------------------------------------------------- the calls

  lemma DepositQuiet(v: VaultState, reg: RegistryState, m: nat, amount: int, k: nat)
    requires Deposit(v, reg, m, amount).Ok?
    ensures Quiet(v, Deposit(v, reg, m, amount).value, k)
  {
  }

  lemma CollectFeeQuiet(v: VaultState, m: nat, split: FeeSplit, k: nat)
    requires CollectFee(v, m, split.lp, split.protocol, split.cod).Ok?
    ensures Quiet(v, CollectFee(v, m, split.lp, split.protocol, split.cod).value, k)
  {
  }

  lemma BuyQuiet(v: VaultState, reg: RegistryState, trader: Address, m: nat, trade: Trade, split: FeeSplit, k: nat)
    requires BuyVault(v, reg, trader, m, NoParent, trade, split).Ok?
    ensures Quiet(v, BuyVault(v, reg, trader, m, NoParent, trade, split).value, k)
  {
    hide Deposit, CollectFee, OpenCredit;
    DepositQuiet(v, reg, m, trade.amountIn, k);
    CollectFeeQuiet(PayIn(v, reg, trader, m, NoParent, trade).value, m, split, k);
  }

  lemma ReleaseQuiet(v: VaultState, reg: RegistryState, q: Position, tokensSold: int, payout: int, k: nat)
    requires ReleaseTradePayout(v, reg, q, tokensSold, payout).Ok?
    ensures Quiet(v, ReleaseTradePayout(v, reg, q, tokensSold, payout).value, k)
  {
  }

  lemma SellQuiet(v: VaultState, reg: RegistryState, q: Position, trade: Trade, split: FeeSplit, k: nat)
    requires SellVault(v, reg, q, trade, split).Ok?
    ensures Quiet(v, SellVault(v, reg, q, trade, split).value, k)
  {
    hide ReleaseTradePayout, CollectFee;
    ReleaseQuiet(v, reg, q, trade.amountIn, trade.gross - trade.fee, k);
    CollectFeeQuiet(ReleaseTradePayout(v, reg, q, trade.amountIn, trade.gross - trade.fee).value, q.market, split, k);
  }

  lemma PayFeesQuiet(v: VaultState, reg: RegistryState, m: nat, amount: int, k: nat)
    requires PayLpFees(v, reg, m, amount).Ok?
    ensures Quiet(v, PayLpFees(v, reg, m, amount).value, k)
  {
  }

  lemma SweepQuiet(v: VaultState, reg: RegistryState, m: nat, k: nat)
    requires SweepProtocolFees(v, reg, m).Ok? && FeesNonNegative(v, m)
    ensures Quiet(v, SweepProtocolFees(v, reg, m).value.0, k)
  {
    var amount := AccountOf(v, m).fees.protocol + AccountOf(v, m).fees.cod;
    if amount > 0 {
      BpsBounds(amount, INSURANCE_RESERVE_BPS);
    }
  }

  lemma RepaymentQuiet(v: VaultState, reg: RegistryState, leg: Leg, amount: int, k: nat)
    requires ChildDebt(v, leg) == 0 && RepayChildCollateral(v, reg, leg, amount).Ok?
    ensures Quiet(v, RepayChildCollateral(v, reg, leg, amount).value.0, k)
  {
    assert SettleChildDebt(Receive(v, amount), leg, amount) == (Receive(v, amount), 0);
  }

  /** One bond is written, and the totals of its market move with it. */
  lemma BondWritten(v: VaultState, v': VaultState, key: BondKey, bond: Bond)
    requires Escrowed(v) && bond.amount >= 0
    requires v'.escrow.bonds == v.escrow.bonds[key := bond]
    requires key in v.escrow.bonds ==> v.escrow.bonds[key].market == bond.market
    requires forall k: nat ::
               BondsOf(AccountOf(v', k)) == BondsOf(AccountOf(v, k)) + (if k == bond.market then
                 bond.amount - (if key in v.escrow.bonds then v.escrow.bonds[key].amount else 0) else 0)
    ensures Escrowed(v')
  {
    forall k: nat ensures BondsAgree(v', k) {
      assert BondsAgree(v, k);
      SumByUpdate(v.escrow.bonds, AmountIn(k), key, bond);
    }
  }

  lemma LockBondEscrowed(v: VaultState, reg: RegistryState, key: BondKey, m: nat, amount: int)
    requires Escrowed(v) && LockBond(v, reg, key, m, amount).Ok?
    ensures Escrowed(LockBond(v, reg, key, m, amount).value)
  {
    BondWritten(v, LockBond(v, reg, key, m, amount).value, key, Bond(amount, m));
  }

  lemma UnlockBondEscrowed(v: VaultState, key: BondKey, to: Address, amount: int)
    requires Escrowed(v) && UnlockBond(v, key, to, amount).Ok?
    ensures Escrowed(UnlockBond(v, key, to, amount).value)
  {
    var bond := v.escrow.bonds[key];
    BondWritten(v, UnlockBond(v, key, to, amount).value, key, Bond(bond.amount - amount, bond.market));
  }

  /** Bonds concern neither loans nor debts. */
  lemma BondsOnly(v: VaultState, v': VaultState)
    requires Plain(v) && Escrowed(v')
    requires v'.debts == v.debts && v'.purse.reserve == v.purse.reserve && v'.books.history == v.books.history
    requires forall k: nat ::
               AccountOf(v', k).loans == AccountOf(v, k).loans && AccountOf(v', k).cash == AccountOf(v, k).cash
    ensures Plain(v')
  {
    hide Escrowed;
    forall q, leg ensures OwesNothing(v', q, leg) {
      assert OwesNothing(v, q, leg);
    }
    forall k: nat ensures Unlent(v', k) {
      assert Unlent(v, k);
    }
  }

  lemma LockBondPlain(v: VaultState, reg: RegistryState, key: BondKey, m: nat, amount: int)
    requires Plain(v) && LockBond(v, reg, key, m, amount).Ok?
    ensures Plain(LockBond(v, reg, key, m, amount).value)
  {
    hide Escrowed;
    LockBondEscrowed(v, reg, key, m, amount);
    BondsOnly(v, LockBond(v, reg, key, m, amount).value);
  }

  lemma UnlockBondPlain(v: VaultState, key: BondKey, to: Address, amount: int)
    requires Plain(v) && UnlockBond(v, key, to, amount).Ok?
    ensures Plain(UnlockBond(v, key, to, amount).value)
  {
    hide Escrowed;
    UnlockBondEscrowed(v, key, to, amount);
    BondsOnly(v, UnlockBond(v, key, to, amount).value);
  }

  // ---------------------------------------------------------------- redemption without debt

  lemma OpenClaimQuiet(v: VaultState, m: nat, final: Outcome, redeemed: Outcome, amount: int, k: nat)
    ensures Quiet(v, OpenClaim(v, m, final, redeemed, amount).0, k)
  {
    hide Entitlement;
  }

  /** Without debts a claim is simply capped and paid. */
  lemma SettleClaimPlain(v: VaultState, q: Position, gross: int)
    requires OwesNothing(v, q, Leg(q.market, q.user)) && gross >= 0
    ensures SettleClaim(v, q, gross).Ok? ==>
              SettleClaim(v, q, gross).value.1 == CappedPayout(AccountOf(v, q.market), gross)
    ensures SettleClaim(v, q, gross).Ok? <==> CappedPayout(AccountOf(v, q.market), gross) <= 0
                                              || CappedPayout(AccountOf(v, q.market), gross) <= v.purse.balance
    ensures SettleClaim(v, q, gross).Err? ==> SettleClaim(v, q, gross).error == TransferTrapped
  {
    hide CappedPayout;
    assert PayUpstream(v, Leg(q.market, q.user), gross) == (v, 0);
    assert Withhold(v, q, gross) == (v, 0);
    var v1 := RetireStake(v, q, gross);
    assert AccountOf(v1, q.market) == AccountOf(v, q.market);
  }

  lemma SettleClaimQuiet(v: VaultState, q: Position, gross: int, k: nat)
    requires OwesNothing(v, q, Leg(q.market, q.user)) && gross >= 0 && SettleClaim(v, q, gross).Ok?
    ensures Quiet(v, SettleClaim(v, q, gross).value.0, k)
  {
    hide CappedPayout;
    assert PayUpstream(v, Leg(q.market, q.user), gross) == (v, 0);
    assert Withhold(v, q, gross) == (v, 0);
  }

  lemma SettleRefundPlain(v: VaultState, q: Position, gross: int)
    requires OwesNothing(v, q, Leg(q.market, q.user)) && gross >= 0
    ensures SettleRefund(v, q, gross).Ok? ==>
              SettleRefund(v, q, gross).value.1 == CappedPayout(AccountOf(v, q.market), gross)
    ensures SettleRefund(v, q, gross).Ok? <==> CappedPayout(AccountOf(v, q.market), gross) <= 0
                                               || CappedPayout(AccountOf(v, q.market), gross) <= v.purse.balance
  {
    hide CappedPayout;
    assert Withhold(v, q, gross) == (v, 0);
  }

  lemma SettleRefundQuiet(v: VaultState, q: Position, gross: int, k: nat)
    requires OwesNothing(v, q, Leg(q.market, q.user)) && gross >= 0 && SettleRefund(v, q, gross).Ok?
    ensures Quiet(v, SettleRefund(v, q, gross).value.0, k)
  {
    hide CappedPayout;
    assert Withhold(v, q, gross) == (v, 0);
  }

  lemma OpenClaimOwes(v: VaultState, m: nat, final: Outcome, redeemed: Outcome, amount: int, q: Position, leg: Leg)
    requires OwesNothing(v, q, leg)
    ensures OwesNothing(OpenClaim(v, m, final, redeemed, amount).0, q, leg)
  {
  }

  lemma RedeemPlain(l: Ledger, call: Call)
    requires (call.Redemption? || call.Refund?) && ApplyRedeem(l, call).Ok? && Plain(l.vault)
    requires Balanced(l.vault, l.tokens, call.market)
    ensures Plain(ApplyRedeem(l, call).value.vault)
  {
    hide OpenClaim, SettleClaim, SettleRefund, Burn, Balanced, OwesNothing, Unlent, BondsAgree, Quiet;
    var q := Position(call.market, call.user, call.outcome);
    var leg := Leg(q.market, q.user);
    var final := if call.Redemption? then l.reg.markets[q.market].final else Invalid;
    assert OwesNothing(l.vault, q, leg);
    OpenClaimBalanced(l.vault, l.tokens, q, final, call.amount, q.market);
    OpenClaimOwes(l.vault, q.market, final, q.outcome, call.amount, q, leg);
    var (v1, gross) := OpenClaim(l.vault, q.market, final, q.outcome, call.amount);
    var v' := ApplyRedeem(l, call).value.vault;
    forall k: nat ensures Quiet(l.vault, v', k) {
      OpenClaimQuiet(l.vault, q.market, final, q.outcome, call.amount, k);
      if call.Redemption? {
        SettleClaimQuiet(v1, q, gross, k);
      } else {
        SettleRefundQuiet(v1, q, gross, k);
      }
      QuietTwice(l.vault, v1, v', k);
    }
    QuietPlain(l.vault, v');
  }

  // ---------------------------------------------------------------- every call without credit

  predicate NoCredit(call: Call) {
    call.Purchase? ==> call.parent == NoParent
  }

  lemma NothingToLiquidate(l: Ledger, now: nat, liquidator: Address, user: Address, id: nat, outcome: Outcome,
                           isChild: bool)
    requires Plain(l.vault)
    ensures PriceLiquidation(l, now, liquidator, user, id, outcome, isChild).Err?
  {
    hide PriceSell, RequireLive;
    if id in l.amm.pools {
      var m := l.amm.pools[id].market;
      assert OwesNothing(l.vault, Position(m, user, outcome), Leg(m, user));
    }
  }

  lemma TradePlain(l: Ledger, now: nat, call: Call)
    requires call.Purchase? || call.Sale? || call.Liquidation? || call.LegLiquidation?
    requires ApplyTrade(l, now, call).Ok? && Plain(l.vault) && NoCredit(call)
    ensures Plain(ApplyTrade(l, now, call).value.vault)
  {
    hide Plain, BuyVault, BuyTokens, SellVault, SellTokens, SettleLiquidation, SettleLegLiquidation, RequireLive,
         PriceBuy, PriceSell, PriceLiquidation, Quiet;
    var v' := ApplyTrade(l, now, call).value.vault;
    match call
    case Purchase(trader, id, amountIn, _, _, yes, parent) =>
      var pool := l.amm.pools[id];
      var trade := PriceBuy(pool, amountIn, SideOf(yes)).value;
      forall k: nat ensures Quiet(l.vault, v', k) {
        BuyQuiet(l.vault, l.reg, trader, pool.market, trade, SplitTradingFee(trade.fee, pool.fee), k);
      }
      QuietPlain(l.vault, v');
    case Sale(trader, id, amountIn, _, _, yes) =>
      var pool := l.amm.pools[id];
      var trade := PriceSell(pool, amountIn, SideOf(yes)).value;
      forall k: nat ensures Quiet(l.vault, v', k) {
        SellQuiet(l.vault, l.reg, Position(pool.market, trader, trade.outcome), trade,
                  SplitTradingFee(trade.fee, pool.fee), k);
      }
      QuietPlain(l.vault, v');
    case Liquidation(liquidator, user, id, outcome) =>
      NothingToLiquidate(l, now, liquidator, user, id, outcome, false);
    case LegLiquidation(liquidator, user, id, outcome) =>
      NothingToLiquidate(l, now, liquidator, user, id, outcome, true);
  }

  lemma LiquidityPlain(l: Ledger, now: nat, call: Call)
    requires call.Creation? || call.Seeding? || call.Addition? || call.Removal? || call.FeeClaim?
    requires ApplyLiquidity(l, now, call).Ok? && Plain(l.vault)
    ensures Plain(ApplyLiquidity(l, now, call).value.vault)
  {
    hide Plain, Quiet, Deposit, PayLpFees, MintCompleteSet, RequireSeedable, RequireTradeable, RequireRemovable,
         SharesFor, Withdrawal, HandOut, FeesOwed, RegisterMarket, CreatePool, Transition;
    var v' := ApplyLiquidity(l, now, call).value.vault;
    forall k: nat ensures Quiet(l.vault, v', k) {
      QuietSelf(l.vault, k);
      match call
      case Creation(_, terms, fee, liquidity) =>
        var (reg, m) := RegisterMarket(l.reg, now, terms).value;
        var (amm, id) := CreatePool(l.amm, m, fee).value;
        DepositQuiet(l.vault, reg, amm.pools[id].market, liquidity, k);
      case Seeding(_, id, amount) => DepositQuiet(l.vault, l.reg, l.amm.pools[id].market, amount, k);
      case Addition(lp, id, amount) =>
        var pool := l.amm.pools[id];
        DepositQuiet(l.vault, l.reg, pool.market, amount, k);
        var v1 := Deposit(l.vault, l.reg, pool.market, amount).value;
        if FeesOwed(pool.lp, lp) > 0 {
          PayFeesQuiet(v1, l.reg, pool.market, FeesOwed(pool.lp, lp), k);
          QuietTwice(l.vault, v1, v', k);
        }
      case Removal(lp, id, _) =>
        var pool := l.amm.pools[id];
        if FeesOwed(pool.lp, lp) > 0 {
          PayFeesQuiet(l.vault, l.reg, pool.market, FeesOwed(pool.lp, lp), k);
        }
      case FeeClaim(lp, id) =>
        var pool := l.amm.pools[id];
        if FeesOwed(pool.lp, lp) > 0 {
          PayFeesQuiet(l.vault, l.reg, pool.market, FeesOwed(pool.lp, lp), k);
        }
    }
    QuietPlain(l.vault, v');
  }

  lemma QuietSelf(v: VaultState, k: nat)
    ensures Quiet(v, v, k)
  {
  }

  lemma VaultCallPlain(v: VaultState, reg: RegistryState, call: Call)
    requires call.Repayment? || call.BondLock? || call.BondUnlock? || call.FeeSweep?
    requires ApplyVault(v, reg, call).Ok? && Plain(v)
    requires call.FeeSweep? ==> FeesNonNegative(v, call.market)
    ensures Plain(ApplyVault(v, reg, call).value)
  {
    hide RepayChildCollateral, LockBond, UnlockBond, SweepProtocolFees, Quiet, Unlent, BondsAgree;
    match call
    case Repayment(user, m, amount) =>
      assert OwesNothing(v, Position(m, user, Yes), Leg(m, user));
      var v' := RepayChildCollateral(v, reg, Leg(m, user), amount).value.0;
      forall k: nat ensures Quiet(v, v', k) {
        RepaymentQuiet(v, reg, Leg(m, user), amount, k);
      }
      QuietPlain(v, v');
    case BondLock(key, m, amount) => LockBondPlain(v, reg, key, m, amount);
    case BondUnlock(key, to, amount) => UnlockBondPlain(v, key, to, amount);
    case FeeSweep(m) =>
      var v' := SweepProtocolFees(v, reg, m).value.0;
      forall k: nat ensures Quiet(v, v', k) {
        SweepQuiet(v, reg, m, k);
      }
      QuietPlain(v, v');
  }

  lemma PausePlain(l: Ledger, contract: Pausable, paused: bool)
    requires Plain(l.vault)
    ensures Plain(ApplyPause(l, contract, paused).vault)
  {
    hide Plain;
    QuietPlain(l.vault, ApplyPause(l, contract, paused).vault);
  }

  lemma ApplyPlain(l: Ledger, now: nat, call: Call)
    requires Apply(l, now, call).Ok? && Plain(l.vault) && NoCredit(call)
    requires forall m: nat :: Balanced(l.vault, l.tokens, m)
    ensures Plain(Apply(l, now, call).value.vault)
  {
    hide ApplyTrade, ApplyLiquidity, ApplyRedeem, ApplyVault, ApplyTokens, ApplyRegistry, Balanced, Plain;
    match call
    case Purchase(_, _, _, _, _, _, _) => TradePlain(l, now, call);
    case Sale(_, _, _, _, _, _) => TradePlain(l, now, call);
    case Liquidation(_, _, _, _) => TradePlain(l, now, call);
    case LegLiquidation(_, _, _, _) => TradePlain(l, now, call);
    case Creation(_, _, _, _) => LiquidityPlain(l, now, call);
    case Seeding(_, _, _) => LiquidityPlain(l, now, call);
    case Addition(_, _, _) => LiquidityPlain(l, now, call);
    case Removal(_, _, _) => LiquidityPlain(l, now, call);
    case FeeClaim(_, _) => LiquidityPlain(l, now, call);
    case Redemption(_, m, _, _) => RedeemPlain(l, call);
    case Refund(_, m, _, _) => RedeemPlain(l, call);
    case Repayment(_, _, _) => VaultCallPlain(l.vault, l.reg, call);
    case BondLock(_, _, _) => VaultCallPlain(l.vault, l.reg, call);
    case BondUnlock(_, _, _) => VaultCallPlain(l.vault, l.reg, call);
    case FeeSweep(m) =>
      BalancedFees(l, m);
      VaultCallPlain(l.vault, l.reg, call);
    case Transfer(_, _, _, _) =>
    case LosingBurn(_, _, _) =>
    case RegistryMove(_) =>
    case Pause(contract, paused) => PausePlain(l, contract, paused);
  }

  predicate NoCredits(events: seq<Event>) {
    forall i :: 0 <= i < |events| ==> NoCredit(events[i].call)
  }

  lemma {:induction false} RunPlain(l: Ledger, events: seq<Event>)
    requires Lawful(l) && Plain(l.vault) && NoCredits(events)
    ensures Plain(Run(l, events).vault)
    decreases |events|
  {
    hide Apply, Plain, RegistrySane, Solid, ValidTokens, PoolsSound, Balanced, Recorded;
    if events != [] {
      var now, call := events[0].now, events[0].call;
      assert NoCredit(call);
      StepLawful(l, now, call);
      if Apply(l, now, call).Ok? {
        ApplyPlain(l, now, call);
      }
      RunPlain(Step(l, now, call), events[1..]);
    }
  }

  // ---------------------------------------------------------------- the money is there

  lemma SupplyNonNegative(t: TokenState, s: Side)
    requires ValidTokens(t)
    ensures Supply(t, s) >= 0
  {
    BalanceWithinSupply(t, AmmContract, s);
  }

  /** Without loans a market's refundable money is what is left of its backing, and covers its winners. */
  lemma RefundableCovers(l: Ledger, k: nat)
    requires Lawful(l) && Unlent(l.vault, k)
    ensures var a := AccountOf(l.vault, k);
            && a.cash.refundable >= 0 && a.cash.refundable == a.cash.backing - a.cash.redeemed
            && a.cash.redeemed >= 0 && a.cash.shortfall == 0 && 0 <= a.dustCarry <= 1
    ensures forall o :: o != Invalid && EndingOf(l.reg, k) == Decided(o) ==>
              AccountOf(l.vault, k).cash.refundable >= Supply(l.tokens, Side(k, o))
    ensures EndingOf(l.reg, k) == Decided(Invalid) ==>
              2 * AccountOf(l.vault, k).cash.refundable >=
              Supply(l.tokens, Side(k, Yes)) + Supply(l.tokens, Side(k, No)) + AccountOf(l.vault, k).dustCarry
  {
    hide RegistrySane, Solid, PoolsSound, Supply, EndingOf, NonNegative;
    assert Balanced(l.vault, l.tokens, k) && Recorded(l.reg, l.vault, l.tokens, k);
    assert CompleteSets(l.tokens, k);
    SupplyNonNegative(l.tokens, Side(k, Yes));
    SupplyNonNegative(l.tokens, Side(k, No));
    BurnedNonNegative(l.tokens, k);
  }

  lemma BondsCovered(v: VaultState, k: nat)
    requires Plain(v)
    ensures BondsOf(AccountOf(v, k)) >= 0
  {
    assert BondsAgree(v, k);
    SumByNonNegative(v.escrow.bonds, AmountIn(k));
  }

  /** Without loans the vault holds at least what any one market may still refund. */
  lemma VaultHolds(l: Ledger, k: nat)
    requires Lawful(l) && Plain(l.vault)
    ensures l.vault.purse.balance >= AccountOf(l.vault, k).cash.refundable
  {
    hide Lawful, Plain, Unlent;
    var v := l.vault;
    forall j | j in v.books.accounts ensures Buckets(v.books.accounts[j]) >= AccountOf(v, j).cash.refundable >= 0 {
      PlainMarket(l, j);
      RefundableCovers(l, j);
      BondsCovered(v, j);
    }
    PlainTotals(l);
    SumByNonNegative(v.books.accounts, Buckets);
    if k in v.books.accounts {
      SumByMember(v.books.accounts, Buckets, k);
    }
  }

  lemma PlainMarket(l: Ledger, k: nat)
    requires Lawful(l) && Plain(l.vault)
    ensures Unlent(l.vault, k) && FeesNonNegative(l.vault, k)
  {
    hide RegistrySane, Solid, PoolsSound, ValidTokens, Recorded;
    assert Unlent(l.vault, k);
    assert Balanced(l.vault, l.tokens, k);
  }

  lemma PlainTotals(l: Ledger)
    requires Lawful(l) && Plain(l.vault)
    ensures l.vault.purse.balance == SumBy(l.vault.books.accounts, Buckets) + l.vault.purse.reserve
    ensures l.vault.purse.reserve >= 0
  {
    hide RegistrySane, SoundDebts, PoolsSound, ValidTokens, Recorded, Balanced;
    var h := l.vault.books.history;
    forall j | j in h ensures WithheldOf(h[j]) == 0 {
      assert Unlent(l.vault, j);
    }
    SumByZero(h, WithheldOf);
  }

  lemma EmptyPlain()
    ensures Plain(EMPTY_VAULT)
  {
  }

  lemma ReachablePlain(events: seq<Event>) returns (l: Ledger)
    requires NoCredits(events)
    ensures l == Run(GENESIS, events) && Lawful(l) && Plain(l.vault)
  {
    hide Lawful, Run, Plain;
    GenesisLawful();
    EmptyPlain();
    l := Run(GENESIS, events);
    RunLawful(GENESIS, events);
    RunPlain(GENESIS, events);
  }

  // ---------------------------------------------------------------- paid in full

  lemma FullPayout(a: Accounting, gross: int)
    requires a.cash.shortfall == 0 && a.cash.redeemed >= 0 && 0 <= gross <= a.cash.backing - a.cash.redeemed
    ensures CappedPayout(a, gross) == gross
  {
  }

  /** Without child credit every holder of winning tokens can redeem them at any time, whatever happened
      before and whoever came first, for exactly one unit of collateral each. */
  lemma WinnersPaidInFull(events: seq<Event>, user: Address, k: nat, amount: int)
    requires NoCredits(events)
    requires var l := Run(GENESIS, events);
             && k in l.reg.markets && l.reg.markets[k].hasFinal && l.reg.markets[k].final != Invalid
             && 0 < amount <= Balance(l.tokens, user, Side(k, l.reg.markets[k].final))
    ensures var l := Run(GENESIS, events);
            var r := RedeemResolved(l.vault, l.reg, l.tokens, Position(k, user, l.reg.markets[k].final), amount);
            r.Ok? && r.value.2 == amount
  {
    hide Run, Lawful, Plain, SettleClaim, Supply, CappedPayout, OwesNothing, ValidTokens;
    var l := ReachablePlain(events);
    var final := l.reg.markets[k].final;
    var q := Position(k, user, final);
    PlainMarket(l, k);
    RefundableCovers(l, k);
    VaultHolds(l, k);
    LawfulTokens(l);
    BalanceWithinSupply(l.tokens, user, Side(k, final));
    PlainUser(l.vault, q, Leg(k, user));
    OpenClaimOwes(l.vault, k, final, final, amount, q, Leg(k, user));
    var (v1, gross) := OpenClaim(l.vault, k, final, final, amount);
    assert gross == amount && AccountOf(v1, k) == AccountOf(l.vault, k) && v1.purse == l.vault.purse;
    FullPayout(AccountOf(v1, k), amount);
    SettleClaimPlain(v1, q, amount);
  }

  lemma LawfulTokens(l: Ledger)
    requires Lawful(l)
    ensures ValidTokens(l.tokens) && NonNegative(l.tokens)
  {
    hide RegistrySane, Solid, PoolsSound, Balanced, Recorded;
  }

  lemma PlainUser(v: VaultState, q: Position, leg: Leg)
    requires Plain(v)
    ensures OwesNothing(v, q, leg)
  {
  }

  /** Without child credit every holder in a cancelled market gets half of every token, the odd unit carried
      to the next refund. */
  lemma RefundsPaidInFull(events: seq<Event>, user: Address, k: nat, outcome: Outcome, amount: int)
    requires NoCredits(events) && outcome != Invalid
    requires var l := Run(GENESIS, events);
             && k in l.reg.markets && l.reg.markets[k].status == Cancelled
             && 0 < amount <= Balance(l.tokens, user, Side(k, outcome))
    ensures var l := Run(GENESIS, events);
            var r := RedeemCancelled(l.vault, l.reg, l.tokens, Position(k, user, outcome), amount);
            r.Ok? && r.value.2 == (amount + AccountOf(l.vault, k).dustCarry) / 2
  {
    hide Run, Lawful, Plain, SettleRefund, Supply, CappedPayout, OwesNothing, ValidTokens, Entitlement;
    var l := ReachablePlain(events);
    var q := Position(k, user, outcome);
    CancelledEnding(l, k);
    PlainMarket(l, k);
    RefundableCovers(l, k);
    VaultHolds(l, k);
    LawfulTokens(l);
    BalanceWithinSupply(l.tokens, user, Side(k, outcome));
    SupplyNonNegative(l.tokens, Side(k, Yes));
    SupplyNonNegative(l.tokens, Side(k, No));
    PlainUser(l.vault, q, Leg(k, user));
    OpenClaimOwes(l.vault, k, Invalid, outcome, amount, q, Leg(k, user));
    HalfWorth(l.vault, k, outcome, amount);
    var (v1, gross) := OpenClaim(l.vault, k, Invalid, outcome, amount);
    FullPayout(AccountOf(v1, k), gross);
    SettleRefundPlain(v1, q, gross);
  }

  lemma CancelledEnding(l: Ledger, k: nat)
    requires Lawful(l) && k in l.reg.markets && l.reg.markets[k].status == Cancelled
    ensures EndingOf(l.reg, k) == Decided(Invalid)
  {
    hide Solid, PoolsSound, Balanced, Recorded, ValidTokens;
  }

  /** Opening a refund moves only the dust and the record. */
  lemma HalfWorth(v: VaultState, k: nat, outcome: Outcome, amount: int)
    requires amount > 0 && 0 <= AccountOf(v, k).dustCarry <= 1
    ensures var (v1, gross) := OpenClaim(v, k, Invalid, outcome, amount);
            && gross == (amount + AccountOf(v, k).dustCarry) / 2
            && AccountOf(v1, k).cash == AccountOf(v, k).cash && v1.purse == v.purse
  {
  }

  /** Without child credit every holder in a market resolved Invalid gets the same half. */
  lemma InvalidPaidInFull(events: seq<Event>, user: Address, k: nat, outcome: Outcome, amount: int)
    requires NoCredits(events) && outcome != Invalid
    requires var l := Run(GENESIS, events);
             && k in l.reg.markets && l.reg.markets[k].hasFinal && l.reg.markets[k].final == Invalid
             && 0 < amount <= Balance(l.tokens, user, Side(k, outcome))
    ensures var l := Run(GENESIS, events);
            var r := RedeemResolved(l.vault, l.reg, l.tokens, Position(k, user, outcome), amount);
            r.Ok? && r.value.2 == (amount + AccountOf(l.vault, k).dustCarry) / 2
  {
    hide Run, Lawful, Plain, SettleClaim, Supply, CappedPayout, OwesNothing, ValidTokens, Entitlement;
    var l := ReachablePlain(events);
    var q := Position(k, user, outcome);
    PlainMarket(l, k);
    RefundableCovers(l, k);
    VaultHolds(l, k);
    LawfulTokens(l);
    BalanceWithinSupply(l.tokens, user, Side(k, outcome));
    SupplyNonNegative(l.tokens, Side(k, Yes));
    SupplyNonNegative(l.tokens, Side(k, No));
    PlainUser(l.vault, q, Leg(k, user));
    OpenClaimOwes(l.vault, k, Invalid, outcome, amount, q, Leg(k, user));
    HalfWorth(l.vault, k, outcome, amount);
    var (v1, gross) := OpenClaim(l.vault, k, Invalid, outcome, amount);
    FullPayout(AccountOf(v1, k), gross);
    SettleClaimPlain(v1, q, gross);
  }

  // ---------------------------------------------------------------- with credit

  /** A claim without debts is refused exactly when the vault does not hold what the book would pay. */
  lemma SettleClaimPlainDebts(v: VaultState, q: Position, gross: int)
    requires ChildDebt(v, Leg(q.market, q.user)) == 0 && ParentDebt(v, q) == 0 && gross >= 0
    ensures SettleClaim(v, q, gross) == Err(TransferTrapped) <==>
            CappedPayout(AccountOf(v, q.market), gross) > 0
            && CappedPayout(AccountOf(v, q.market), gross) > v.purse.balance
  {
    hide CappedPayout;
    assert PayUpstream(v, Leg(q.market, q.user), gross) == (v, 0);
    assert Withhold(v, q, gross) == (v, 0);
    var v1 := RetireStake(v, q, gross);
    assert AccountOf(v1, q.market) == AccountOf(v, q.market);
  }
}
