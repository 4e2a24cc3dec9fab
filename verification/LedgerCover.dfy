// Cover: when the collateral held is enough for all that the markets may still pay, over every run, and which calls
// put an end to that.

module LedgerCover {
  import opened Basics
  import opened DikeTypes
  import opened DikeMath
  import opened MapSums
  import opened MarketRegistry
  import opened TokenLedger
  import opened VaultLedger
  import opened VaultBooks
  import opened VaultClaims
  import opened VaultDebts
  import opened AmmPools
  import opened LedgerCalls
  import opened LedgerMoney
  import opened LedgerCustody
  import opened LedgerPools
  import opened LedgerRecord
  import opened LedgerLaws
  import opened LedgerParties

  /** What a market paid upstream beyond the money it had. */
  function Overdraft(a: Accounting): int {
    if a.cash.refundable < 0 then -a.cash.refundable else 0
  }

  /** What a market may still pay: claims up to its refundable money, if there is any, its fees and its bonds. */
  function Promised(a: Accounting): int {
    (if a.cash.refundable > 0 then a.cash.refundable else 0)
    + a.fees.lp + a.fees.protocol + a.fees.cod + a.bonds.proposal + a.bonds.dispute
  }

  /** The collateral held is enough for what all markets may still pay and for the insurance reserve. */
  ghost predicate Covered(v: VaultState) {
    v.purse.balance >= SumBy(v.books.accounts, Promised) + v.purse.reserve
  }

  /** No redeemer ever had a claim kept back against a debt of his own. */
  ghost predicate NothingKept(v: VaultState) {
    forall k: nat :: HistoryOf(v, k).withheld == 0
  }

  ghost predicate NoneOverdrawn(v: VaultState) {
    forall k: nat :: AccountOf(v, k).cash.refundable >= 0
  }

  /** What the vault lacks is what was kept back and what markets overdrew. */
  lemma CoverAt(l: Ledger)
    requires Lawful(l)
    ensures var v := l.vault;
            SumBy(v.books.accounts, Promised) + v.purse.reserve - v.purse.balance ==
            SumBy(v.books.history, WithheldOf) + SumBy(v.books.accounts, Overdraft)
    ensures Covered(l.vault) <==> NothingKept(l.vault) && NoneOverdrawn(l.vault)
  {
    hide Lawful;
    LawfulCustody(l);
    SumByLinear(l.vault.books.accounts, Buckets, Overdraft, Promised, 1);
    KeptSum(l);
    OverdraftSum(l.vault);
  }

  lemma LawfulCustody(l: Ledger)
    requires Lawful(l)
    ensures Custody(l.vault) == 0
  {
    hide RegistrySane, SoundDebts, ValidTokens, PoolsSound, Balanced, Recorded, Custody;
  }

  lemma WithheldSound(l: Ledger, k: nat)
    requires Lawful(l)
    ensures HistoryOf(l.vault, k).withheld >= 0
  {
    hide RegistrySane, Solid, ValidTokens, PoolsSound, Balanced;
    assert Recorded(l.reg, l.vault, l.tokens, k);
  }

  lemma KeptSum(l: Ledger)
    requires Lawful(l)
    ensures SumBy(l.vault.books.history, WithheldOf) >= 0
    ensures SumBy(l.vault.books.history, WithheldOf) == 0 <==> NothingKept(l.vault)
  {
    hide Lawful;
    var h := l.vault.books.history;
    forall k | k in h ensures WithheldOf(h[k]) >= 0 {
      WithheldSound(l, k);
    }
    SumByNonNegative(h, WithheldOf);
    if k: nat :| HistoryOf(l.vault, k).withheld != 0 {
      SumByMember(h, WithheldOf, k);
    } else {
      forall k | k in h ensures WithheldOf(h[k]) == 0 {
        assert HistoryOf(l.vault, k).withheld == 0;
      }
      SumByZero(h, WithheldOf);
    }
  }

  lemma OverdraftSum(v: VaultState)
    ensures SumBy(v.books.accounts, Overdraft) >= 0
    ensures SumBy(v.books.accounts, Overdraft) == 0 <==> NoneOverdrawn(v)
  {
    var a := v.books.accounts;
    SumByNonNegative(a, Overdraft);
    if k: nat :| AccountOf(v, k).cash.refundable < 0 {
      SumByMember(a, Overdraft, k);
    } else {
      forall k | k in a ensures Overdraft(a[k]) == 0 {
        assert AccountOf(v, k).cash.refundable >= 0;
      }
      SumByZero(a, Overdraft);
    }
  }

  // ---------------------------------------------------------------- calls that pay no debt out of a claim

  /** A step that moves no bond total and does not take market k below zero. */
  predicate Sustains(v: VaultState, v': VaultState, k: nat) {
    && AccountOf(v', k).bonds == AccountOf(v, k).bonds
    && (v.purse.reserve >= 0 ==> v'.purse.reserve >= 0)
    && (v.purse.reserve >= 0 && AccountOf(v, k).cash.refundable >= 0 ==> AccountOf(v', k).cash.refundable >= 0)
  }

  lemma SustainsTwice(v: VaultState, v1: VaultState, v2: VaultState, k: nat)
    requires Sustains(v, v1, k) && Sustains(v1, v2, k)
    ensures Sustains(v, v2, k)
  {
  }

  lemma DepositSustains(v: VaultState, reg: RegistryState, m: nat, amount: int, k: nat)
    requires Deposit(v, reg, m, amount).Ok?
    ensures Sustains(v, Deposit(v, reg, m, amount).value, k)
  {
  }

  lemma OpenCreditSustains(v: VaultState, reg: RegistryState, q: Position, c: nat, amount: int, k: nat)
    requires OpenCredit(v, reg, q, c, amount).Ok?
    ensures Sustains(v, OpenCredit(v, reg, q, c, amount).value, k)
  {
    var v1 := RecordCredit(v, q, c, amount);
    assert AccountOf(v1, k) == AccountOf(v, k) && AccountOf(v1, q.market) == AccountOf(v, q.market);
  }

  lemma CollectFeeSustains(v: VaultState, m: nat, lp: int, protocol: int, cod: int, k: nat)
    requires CollectFee(v, m, lp, protocol, cod).Ok?
    ensures Sustains(v, CollectFee(v, m, lp, protocol, cod).value, k)
  {
  }

  lemma ExtractSustains(v: VaultState, q: Position, tokensSold: int, proceeds: int, k: nat)
    requires ExtractProceeds(v, q, tokensSold, proceeds).Ok?
    ensures Sustains(v, ExtractProceeds(v, q, tokensSold, proceeds).value, k)
  {
  }

  lemma PaySustains(v: VaultState, amount: int, k: nat)
    requires Pay(v, amount).Ok?
    ensures Sustains(v, Pay(v, amount).value, k)
  {
  }

  lemma PayLpFeesSustains(v: VaultState, reg: RegistryState, m: nat, amount: int, k: nat)
    requires PayLpFees(v, reg, m, amount).Ok?
    ensures Sustains(v, PayLpFees(v, reg, m, amount).value, k)
  {
  }

  lemma SweepSustains(v: VaultState, reg: RegistryState, m: nat, k: nat)
    requires SweepProtocolFees(v, reg, m).Ok?
    ensures Sustains(v, SweepProtocolFees(v, reg, m).value.0, k)
  {
    var amount := AccountOf(v, m).fees.protocol + AccountOf(v, m).fees.cod;
    if amount > 0 {
      BpsBounds(amount, INSURANCE_RESERVE_BPS);
    }
  }

  lemma BuyVaultSustains(v: VaultState, reg: RegistryState, trader: Address, m: nat, parent: Parent, trade: Trade,
                         split: FeeSplit, k: nat)
    requires BuyVault(v, reg, trader, m, parent, trade, split).Ok?
    ensures Sustains(v, BuyVault(v, reg, trader, m, parent, trade, split).value, k)
  {
    hide OpenCredit, Deposit, CollectFee;
    var v1 := PayIn(v, reg, trader, m, parent, trade).value;
    match parent {
      case FromParent(q) => OpenCreditSustains(v, reg, Position(q.market, trader, q.outcome), m, trade.amountIn, k);
      case NoParent => DepositSustains(v, reg, m, trade.amountIn, k);
    }
    CollectFeeSustains(v1, m, split.lp, split.protocol, split.cod, k);
  }

  lemma SellVaultSustains(v: VaultState, reg: RegistryState, q: Position, trade: Trade, split: FeeSplit, k: nat)
    requires SellVault(v, reg, q, trade, split).Ok?
    ensures Sustains(v, SellVault(v, reg, q, trade, split).value, k)
  {
    hide ExtractProceeds, Pay, CollectFee;
    var payout := trade.gross - trade.fee;
    ExtractSustains(v, q, trade.amountIn, payout, k);
    PaySustains(ExtractProceeds(v, q, trade.amountIn, payout).value, payout, k);
    CollectFeeSustains(ReleaseTradePayout(v, reg, q, trade.amountIn, payout).value, q.market,
                       split.lp, split.protocol, split.cod, k);
  }

  // ---------------------------------------------------------------- settling debts

  lemma RepaySustains(v: VaultState, q: Position, amount: int, k: nat)
    requires amount >= 0
    ensures Sustains(v, RepayLender(v, q, amount), k)
  {
  }

  lemma SettleSustains(v: VaultState, leg: Leg, repayment: int, k: nat)
    requires SoundDebts(v)
    ensures Sustains(v, SettleChildDebt(v, leg, repayment).0, k)
  {
    hide SoundDebts, RepayLender;
    SettleReads(v, leg, repayment, Position(k, leg.user, Yes));
    var (_, applied) := SettleChildDebt(v, leg, repayment);
    if HasParent(v, leg) {
      RepaySustains(SetChildDebt(v, leg, ChildDebt(v, leg) - applied), Lender(v, leg), applied, k);
    }
  }

  lemma {:induction false} SettleChildrenSustains(v: VaultState, user: Address, list: seq<nat>, pool: int, k: nat)
    requires SoundDebts(v) && pool >= 0
    ensures Sustains(v, SettleChildren(v, user, list, pool).0, k)
    decreases |list|
  {
    hide SettleChildDebt, SoundDebts;
    if list != [] && pool != 0 {
      var leg := Leg(list[0], user);
      SettleSustains(v, leg, pool, k);
      SettleStep(v, leg, pool);
      var (v1, applied) := SettleChildDebt(v, leg, pool);
      SettleChildrenSustains(v1, user, list[1..], pool - applied, k);
    }
  }

  lemma DefaultSustains(v: VaultState, q: Position, total: int, k: nat)
    ensures Sustains(v, ResolveParentDefault(v, q, total), k)
  {
    if total > 0 {
      var v1 := SetParentDebt(AbsorbDefault(v, q.market, total), q, 0);
      ClearChildrenBooks(v1, q, ChildrenOf(v, q), total);
      assert Sustains(v, v1, k);
    }
  }

  lemma RouteProceedsSustains(v: VaultState, q: Position, pool: int, k: nat)
    requires SoundDebts(v) && pool >= 0
    ensures Sustains(v, RouteProceeds(v, q, pool).0, k)
  {
    hide SettleChildren, ResolveParentDefault, SoundDebts;
    SettleChildrenSustains(v, q.user, ChildrenOf(v, q), pool, k);
    var v1 := SettleChildren(v, q.user, ChildrenOf(v, q), pool).0;
    DefaultSustains(v1, q, Used(v1, q), k);
  }

  lemma CloseLegSustains(v: VaultState, leg: Leg, pool: int, k: nat)
    requires SoundDebts(v)
    ensures Sustains(v, CloseLeg(v, leg, pool).0, k)
  {
    hide SettleChildDebt, ResolveParentDefault, SoundDebts;
    SettleSustains(v, leg, pool, k);
    var v1 := SettleChildDebt(v, leg, pool).0;
    if HasParent(v1, leg) {
      DefaultSustains(v1, Lender(v1, leg), ChildDebt(v1, leg), k);
    }
  }

  lemma PayOutSustains(routed: (VaultState, int), proceeds: int, bonus: int, k: nat)
    requires PayOut(routed, proceeds, bonus).Ok?
    ensures Sustains(routed.0, PayOut(routed, proceeds, bonus).value.0, k)
  {
    hide Pay;
    PaySustains(routed.0, bonus, k);
    PaySustains(Pay(routed.0, bonus).value, proceeds - bonus - routed.1, k);
  }

  lemma ExtractSound(v: VaultState, q: Position, tokensSold: int, proceeds: int)
    requires SoundDebts(v) && ExtractProceeds(v, q, tokensSold, proceeds).Ok?
    ensures SoundDebts(ExtractProceeds(v, q, tokensSold, proceeds).value)
  {
    hide SoundDebts;
    SameDebtsSound(v, ExtractProceeds(v, q, tokensSold, proceeds).value);
  }

  lemma LiquidateReleaseSustains(v: VaultState, reg: RegistryState, q: Position, tokensSold: int, proceeds: int, k: nat)
    requires SoundDebts(v)
    ensures var r := LiquidateRelease(v, reg, q, tokensSold, proceeds);
            r.Ok? ==> Sustains(v, r.value.0, k)
    ensures var r := LiquidateChildRelease(v, reg, q, tokensSold, proceeds);
            r.Ok? ==> Sustains(v, r.value.0, k)
  {
    hide ExtractProceeds, RouteProceeds, CloseLeg, PayOut, SoundDebts, Sustains;
    if proceeds > 0 && ExtractProceeds(v, q, tokensSold, proceeds).Ok? {
      var v1 := ExtractProceeds(v, q, tokensSold, proceeds).value;
      var bonus := Bps(proceeds, LIQUIDATION_BONUS_BPS);
      BpsBounds(proceeds, LIQUIDATION_BONUS_BPS);
      ExtractSustains(v, q, tokensSold, proceeds, k);
      ExtractSound(v, q, tokensSold, proceeds);
      RoutedSustains(v1, RouteProceeds(v1, q, proceeds - bonus), proceeds, bonus, k) by {
        RouteProceedsSustains(v1, q, proceeds - bonus, k);
      }
      var leg := Leg(q.market, q.user);
      RoutedSustains(v1, CloseLeg(v1, leg, proceeds - bonus), proceeds, bonus, k) by {
        CloseLegSustains(v1, leg, proceeds - bonus, k);
      }
      forall v2 | Sustains(v1, v2, k) ensures Sustains(v, v2, k) {
        SustainsTwice(v, v1, v2, k);
      }
    }
  }

  lemma RoutedSustains(v: VaultState, routed: (VaultState, int), proceeds: int, bonus: int, k: nat)
    requires Sustains(v, routed.0, k)
    ensures PayOut(routed, proceeds, bonus).Ok? ==> Sustains(v, PayOut(routed, proceeds, bonus).value.0, k)
  {
    hide PayOut;
    if PayOut(routed, proceeds, bonus).Ok? {
      PayOutSustains(routed, proceeds, bonus, k);
    }
  }

  lemma RepaymentSustains(v: VaultState, reg: RegistryState, leg: Leg, amount: int, k: nat)
    requires SoundDebts(v) && RepayChildCollateral(v, reg, leg, amount).Ok?
    ensures Sustains(v, RepayChildCollateral(v, reg, leg, amount).value.0, k)
  {
    hide SettleChildDebt, SoundDebts, Pay;
    var v0 := Receive(v, amount);
    SameDebtsSound(v, v0);
    SettleSustains(v0, leg, amount, k);
    var (v1, applied) := SettleChildDebt(v0, leg, amount);
    PaySustains(v1, amount - applied, k);
  }

  // ---------------------------------------------------------------- calls

  lemma TradeSustains(l: Ledger, now: nat, call: Call, k: nat)
    requires call.Purchase? || call.Sale? || call.Liquidation? || call.LegLiquidation?
    requires ApplyTrade(l, now, call).Ok? && SoundDebts(l.vault)
    ensures Sustains(l.vault, ApplyTrade(l, now, call).value.vault, k)
  {
    hide BuyVault, SellVault, LiquidateRelease, LiquidateChildRelease, RequireLive, PriceBuy, PriceSell,
         PriceLiquidation, BuyTokens, SellTokens, ForceTokens, SplitTradingFee, AfterBuy, AfterSell, CollectFee,
         SoundDebts;
    match call
    case Purchase(trader, id, amountIn, _, _, yes, parent) =>
      var pool := l.amm.pools[id];
      var trade := PriceBuy(pool, amountIn, SideOf(yes)).value;
      BuyVaultSustains(l.vault, l.reg, trader, pool.market, parent, trade, SplitTradingFee(trade.fee, pool.fee), k);
    case Sale(trader, id, amountIn, _, _, yes) =>
      var pool := l.amm.pools[id];
      var trade := PriceSell(pool, amountIn, SideOf(yes)).value;
      SellVaultSustains(l.vault, l.reg, Position(pool.market, trader, trade.outcome), trade,
                        SplitTradingFee(trade.fee, pool.fee), k);
    case Liquidation(liquidator, user, id, outcome) =>
      var (pool, trade) := PriceLiquidation(l, now, liquidator, user, id, outcome, false).value;
      ForcedSustains(l, user, id, pool, trade, Position(pool.market, user, outcome), k);
    case LegLiquidation(liquidator, user, id, outcome) =>
      var (pool, trade) := PriceLiquidation(l, now, liquidator, user, id, outcome, true).value;
      ForcedSustains(l, user, id, pool, trade, Position(pool.market, user, outcome), k);
  }

  lemma ForcedSustains(l: Ledger, user: Address, id: nat, pool: Pool, trade: Trade, q: Position, k: nat)
    requires ForceSell(l, user, id, pool, trade).Ok? && SoundDebts(l.vault)
    ensures var l1 := ForceSell(l, user, id, pool, trade).value;
            var r := LiquidateRelease(l1.vault, l1.reg, q, trade.amountIn, trade.gross - trade.fee);
            r.Ok? ==> Sustains(l.vault, r.value.0, k)
    ensures var l1 := ForceSell(l, user, id, pool, trade).value;
            var r := LiquidateChildRelease(l1.vault, l1.reg, q, trade.amountIn, trade.gross - trade.fee);
            r.Ok? ==> Sustains(l.vault, r.value.0, k)
  {
    hide ForceTokens, CollectFee, LiquidateRelease, LiquidateChildRelease, SoundDebts, SplitTradingFee, AfterSell;
    var split := SplitTradingFee(trade.fee, pool.fee);
    var l1 := ForceSell(l, user, id, pool, trade).value;
    CollectFeeSustains(l.vault, pool.market, split.lp, split.protocol, split.cod, k);
    FeeSound(l.vault, pool.market, split.lp, split.protocol, split.cod);
    LiquidateReleaseSustains(l1.vault, l1.reg, q, trade.amountIn, trade.gross - trade.fee, k);
  }

  lemma FeeSound(v: VaultState, m: nat, lp: int, protocol: int, cod: int)
    requires SoundDebts(v) && CollectFee(v, m, lp, protocol, cod).Ok?
    ensures SoundDebts(CollectFee(v, m, lp, protocol, cod).value)
  {
    hide SoundDebts;
    SameDebtsSound(v, CollectFee(v, m, lp, protocol, cod).value);
  }

  lemma LiquiditySustains(l: Ledger, now: nat, call: Call, k: nat)
    requires call.Creation? || call.Seeding? || call.Addition? || call.Removal? || call.FeeClaim?
    requires ApplyLiquidity(l, now, call).Ok?
    ensures Sustains(l.vault, ApplyLiquidity(l, now, call).value.vault, k)
  {
    hide Deposit, PayLpFees, MintCompleteSet, RequireSeedable, RequireTradeable, RequireRemovable, SharesFor,
         Withdrawal, HandOut, FeesOwed, RegisterMarket, CreatePool, Transition;
    match call
    case Creation(_, terms, fee, liquidity) =>
      var (reg, m) := RegisterMarket(l.reg, now, terms).value;
      var (amm, id) := CreatePool(l.amm, m, fee).value;
      DepositSustains(l.vault, reg, amm.pools[id].market, liquidity, k);
    case Seeding(_, id, amount) => DepositSustains(l.vault, l.reg, l.amm.pools[id].market, amount, k);
    case Addition(lp, id, amount) =>
      var pool := l.amm.pools[id];
      DepositSustains(l.vault, l.reg, pool.market, amount, k);
      if FeesOwed(pool.lp, lp) > 0 {
        PayLpFeesSustains(Deposit(l.vault, l.reg, pool.market, amount).value, l.reg, pool.market,
                          FeesOwed(pool.lp, lp), k);
      }
    case Removal(lp, id, _) =>
      var pool := l.amm.pools[id];
      if FeesOwed(pool.lp, lp) > 0 {
        PayLpFeesSustains(l.vault, l.reg, pool.market, FeesOwed(pool.lp, lp), k);
      }
    case FeeClaim(lp, id) =>
      var pool := l.amm.pools[id];
      if FeesOwed(pool.lp, lp) > 0 {
        PayLpFeesSustains(l.vault, l.reg, pool.market, FeesOwed(pool.lp, lp), k);
      }
  }

  /** Whether a call pays for tokens out of a market that ended. */
  predicate Redeems(call: Call) {
    call.Redemption? || call.Refund?
  }

  /** Every call but a redemption leaves a market with refundable money at or above zero, and only bond calls move
      its bonds. */
  lemma ApplySustains(l: Ledger, now: nat, call: Call, k: nat)
    requires Apply(l, now, call).Ok? && !Redeems(call) && SoundDebts(l.vault)
    ensures var v' := Apply(l, now, call).value.vault;
            && (v'.purse.reserve >= 0 <== l.vault.purse.reserve >= 0)
            && (l.vault.purse.reserve >= 0 && AccountOf(l.vault, k).cash.refundable >= 0 ==>
                  AccountOf(v', k).cash.refundable >= 0)
            && (!call.BondLock? && !call.BondUnlock? ==> AccountOf(v', k).bonds == AccountOf(l.vault, k).bonds)
  {
    hide ApplyTrade, ApplyLiquidity, ApplyRedeem, ApplyTokens, ApplyRegistry, RepayChildCollateral, SweepProtocolFees,
         SoundDebts;
    match call
    case Purchase(_, _, _, _, _, _, _) => TradeSustains(l, now, call, k);
    case Sale(_, _, _, _, _, _) => TradeSustains(l, now, call, k);
    case Liquidation(_, _, _, _) => TradeSustains(l, now, call, k);
    case LegLiquidation(_, _, _, _) => TradeSustains(l, now, call, k);
    case Creation(_, _, _, _) => LiquiditySustains(l, now, call, k);
    case Seeding(_, _, _) => LiquiditySustains(l, now, call, k);
    case Addition(_, _, _) => LiquiditySustains(l, now, call, k);
    case Removal(_, _, _) => LiquiditySustains(l, now, call, k);
    case FeeClaim(_, _) => LiquiditySustains(l, now, call, k);
    case Repayment(user, m, amount) => RepaymentSustains(l.vault, l.reg, Leg(m, user), amount, k);
    case BondLock(_, _, _) =>
    case BondUnlock(_, _, _) =>
    case FeeSweep(m) => SweepSustains(l.vault, l.reg, m, k);
    case Transfer(_, _, _, _) =>
    case LosingBurn(_, _, _) =>
    case RegistryMove(_) =>
    case Pause(_, _) =>
  }

  // ---------------------------------------------------------------- redemptions

  /** The outcome a redemption is paid under. */
  function FinalOf(l: Ledger, call: Call): Outcome
    requires Redeems(call)
  {
    if call.Redemption? && call.market in l.reg.markets then l.reg.markets[call.market].final else Invalid
  }

  /** What the tokens handed in are worth. */
  function ClaimOf(l: Ledger, call: Call): int
    requires Redeems(call)
  {
    Entitlement(FinalOf(l, call), call.outcome, call.amount, AccountOf(l.vault, call.market).dustCarry).0
  }

  /** What a redeemer whose leg in the market owes pays upstream first; a refund pays nothing upstream. */
  function UpstreamOf(l: Ledger, call: Call): int
    requires Redeems(call)
  {
    if call.Redemption? then Applicable(l.vault, Leg(call.market, call.user), ClaimOf(l, call)) else 0
  }

  /** What is kept back then against the debt of the redeemed position. */
  function KeptOf(l: Ledger, call: Call): int
    requires Redeems(call)
  {
    Min(ClaimOf(l, call) - UpstreamOf(l, call), ParentDebt(l.vault, Position(call.market, call.user, call.outcome)))
  }

  /** What such a claim does to market k, with `up` paid upstream and `kept` kept back in market m. */
  ghost predicate Drains(v: VaultState, v': VaultState, m: nat, up: int, kept: int, k: nat) {
    && AccountOf(v', k).bonds == AccountOf(v, k).bonds
    && v'.purse.reserve >= 0
    && HistoryOf(v', k).withheld == HistoryOf(v, k).withheld + (if k == m then kept else 0)
    && (AccountOf(v, k).cash.refundable >= 0 ==>
          (AccountOf(v', k).cash.refundable < 0 <==> k == m && up > AccountOf(v, k).cash.refundable + kept))
  }

  lemma UpstreamDrains(v: VaultState, q: Position, gross: int, k: nat)
    requires SoundDebts(v) && OwnLegs(v) && gross >= 0
    ensures var (v1, up) := PayUpstream(v, Leg(q.market, q.user), gross);
            && up == Applicable(v, Leg(q.market, q.user), gross) && 0 <= up <= gross
            && AccountOf(v1, k).bonds == AccountOf(v, k).bonds && v1.purse == v.purse
            && HistoryOf(v1, k).withheld == HistoryOf(v, k).withheld
            && ParentDebt(v1, q) == ParentDebt(v, q)
            && (if k == q.market then AccountOf(v1, k).cash.refundable == AccountOf(v, k).cash.refundable - up
                else AccountOf(v1, k).cash.refundable >= AccountOf(v, k).cash.refundable)
            && AccountOf(v1, k).cash.shortfall == AccountOf(v, k).cash.shortfall
            && (AccountOf(v1, k).cash.refundable - AccountOf(v1, k).cash.backing ==
                AccountOf(v, k).cash.refundable - AccountOf(v, k).cash.backing)
            && AccountOf(v1, k).cash.redeemed == AccountOf(v, k).cash.redeemed
  {
    hide SoundDebts;
    SettleReads(v, Leg(q.market, q.user), gross, q);
    SoundDebtsAt(v, q);
    PayUpstreamBounds(v, q, gross);
  }

  lemma WithholdDrains(v: VaultState, q: Position, claim: int, k: nat)
    requires claim >= 0 && ParentDebt(v, q) >= 0
    ensures var ((v', kept), owed) := (Withhold(v, q, claim), ParentDebt(v, q));
            && kept == Min(claim, owed) && v'.purse == v.purse
            && AccountOf(v', k).bonds == AccountOf(v, k).bonds
            && HistoryOf(v', k).withheld == HistoryOf(v, k).withheld + (if k == q.market then kept else 0)
            && AccountOf(v', k).cash.refundable == AccountOf(v, k).cash.refundable + (if k == q.market then kept else 0)
            && AccountOf(v', k).cash.backing == AccountOf(v, k).cash.backing + (if k == q.market then kept else 0)
            && AccountOf(v', k).cash.redeemed == AccountOf(v, k).cash.redeemed
  {
  }

  lemma WorthlessDrains(v: VaultState, q: Position, gross: int, k: nat)
    requires v.purse.reserve >= 0
    ensures var v' := DefaultIfWorthless(v, q, gross);
            && (gross > 0 ==> v' == v) && v'.purse.reserve >= 0
            && AccountOf(v', k).bonds == AccountOf(v, k).bonds
            && HistoryOf(v', k).withheld == HistoryOf(v, k).withheld
            && AccountOf(v', k).cash.refundable >= AccountOf(v, k).cash.refundable
            && AccountOf(v', k).cash.redeemed == AccountOf(v, k).cash.redeemed
            && (AccountOf(v', k).cash.refundable - AccountOf(v', k).cash.backing ==
                AccountOf(v, k).cash.refundable - AccountOf(v, k).cash.backing)
  {
    hide ClearChildren;
    var total := ParentDebt(v, q);
    if gross == 0 && total > 0 {
      ClearChildrenBooks(SetParentDebt(AbsorbDefault(v, q.market, total), q, 0), q, ChildrenOf(v, q), total);
    }
  }

  /** A payout is never more than what is left of the market, whatever the shortfall. */
  lemma PayClaimDrains(v: VaultState, m: nat, claim: int, k: nat)
    requires AccountOf(v, m).cash.refundable == AccountOf(v, m).cash.backing - AccountOf(v, m).cash.redeemed
    requires PayClaim(v, m, CappedPayout(AccountOf(v, m), claim)).Ok?
    ensures var v' := PayClaim(v, m, CappedPayout(AccountOf(v, m), claim)).value;
            && v'.purse.reserve == v.purse.reserve
            && AccountOf(v', k).bonds == AccountOf(v, k).bonds
            && HistoryOf(v', k).withheld == HistoryOf(v, k).withheld
            && (AccountOf(v', k).cash.refundable < 0 <==> AccountOf(v, k).cash.refundable < 0)
  {
    PayoutCapped(AccountOf(v, m), claim);
  }

  lemma PayoutCapped(a: Accounting, claim: int)
    ensures CappedPayout(a, claim) > 0 ==> CappedPayout(a, claim) <= a.cash.backing - a.cash.redeemed
  {
  }

  lemma RetireSame(v: VaultState, q: Position, gross: int)
    ensures var v' := RetireStake(v, q, gross); v'.books == v.books && v'.purse == v.purse
  {
  }

  lemma ClaimDrains(v: VaultState, q: Position, gross: int, k: nat)
    requires SoundDebts(v) && OwnLegs(v) && gross >= 0 && v.purse.reserve >= 0
    requires CashGap(v, q.market) == 0 && SettleClaim(v, q, gross).Ok?
    ensures var up := Applicable(v, Leg(q.market, q.user), gross);
            var kept := Min(gross - up, ParentDebt(v, q));
            kept >= 0 && Drains(v, SettleClaim(v, q, gross).value.0, q.market, up, kept, k)
  {
    hide SoundDebts, OwnLegs, PayUpstream, Withhold, DefaultIfWorthless, CappedPayout, PayClaim, RetireStake,
         Applicable;
    SoundDebtsAt(v, q);
    var (v1, up) := PayUpstream(v, Leg(q.market, q.user), gross);
    UpstreamDrains(v, q, gross, k);
    UpstreamDrains(v, q, gross, q.market);
    var (v2, kept) := Withhold(v1, q, gross - up);
    WithholdDrains(v1, q, gross - up, k);
    WithholdDrains(v1, q, gross - up, q.market);
    var v3 := DefaultIfWorthless(v2, q, gross);
    WorthlessDrains(v2, q, gross, k);
    WorthlessDrains(v2, q, gross, q.market);
    var v4 := RetireStake(v3, q, gross);
    RetireSame(v3, q, gross);
    assert AccountOf(v4, q.market) == AccountOf(v3, q.market) && AccountOf(v4, k) == AccountOf(v3, k);
    assert HistoryOf(v4, k) == HistoryOf(v3, k);
    PayClaimDrains(v4, q.market, gross - up - kept, k);
  }

  lemma RefundDrains(v: VaultState, q: Position, gross: int, k: nat)
    requires SoundDebts(v) && gross >= 0 && v.purse.reserve >= 0
    requires CashGap(v, q.market) == 0 && SettleRefund(v, q, gross).Ok?
    ensures var kept := Min(gross, ParentDebt(v, q));
            kept >= 0 && Drains(v, SettleRefund(v, q, gross).value.0, q.market, 0, kept, k)
  {
    hide SoundDebts, Withhold, DefaultIfWorthless, CappedPayout, PayClaim;
    SoundDebtsAt(v, q);
    var (v2, kept) := Withhold(v, q, gross);
    WithholdDrains(v, q, gross, k);
    WithholdDrains(v, q, gross, q.market);
    var v3 := DefaultIfWorthless(v2, q, gross);
    WorthlessDrains(v2, q, gross, k);
    WorthlessDrains(v2, q, gross, q.market);
    PayClaimDrains(v3, q.market, gross - kept, k);
  }

  lemma OpenClaimReads(v: VaultState, m: nat, final: Outcome, redeemed: Outcome, amount: int, k: nat)
    ensures var v' := OpenClaim(v, m, final, redeemed, amount).0;
            && v'.debts == v.debts && v'.credit == v.credit && v'.purse == v.purse
            && AccountOf(v', k).cash == AccountOf(v, k).cash && AccountOf(v', k).bonds == AccountOf(v, k).bonds
            && HistoryOf(v', k).withheld == HistoryOf(v, k).withheld
  {
    hide Entitlement;
  }

  /** What a redemption does to market k, read before the call. */
  lemma RedeemDrains(l: Ledger, call: Call, k: nat)
    requires Redeems(call) && ApplyRedeem(l, call).Ok? && SoundDebts(l.vault) && OwnLegs(l.vault)
    requires l.vault.purse.reserve >= 0 && Balanced(l.vault, l.tokens, call.market)
    ensures KeptOf(l, call) >= 0
    ensures Drains(l.vault, ApplyRedeem(l, call).value.vault, call.market, UpstreamOf(l, call), KeptOf(l, call), k)
  {
    hide OpenClaim, SettleClaim, SettleRefund, Burn, Balanced, SoundDebts, OwnLegs, Entitlement, Applicable;
    var q := Position(call.market, call.user, call.outcome);
    var final := FinalOf(l, call);
    OpenClaimBalanced(l.vault, l.tokens, q, final, call.amount, q.market);
    OpenClaimReads(l.vault, q.market, final, q.outcome, call.amount, k);
    OpenClaimReads(l.vault, q.market, final, q.outcome, call.amount, q.market);
    var (v1, gross) := OpenClaim(l.vault, q.market, final, q.outcome, call.amount);
    OpenClaimClaims(l.vault, q.market, final, q.outcome, call.amount, q.market);
    SameDebtsSound(l.vault, v1);
    SameOwn(l.vault, v1);
    SameApplicable(l.vault, v1, Leg(q.market, q.user), gross);
    NoGap(v1, l.tokens, q.market);
    if call.Redemption? {
      ClaimDrains(v1, q, gross, k);
    } else {
      RefundDrains(v1, q, gross, k);
    }
  }

  lemma NoGap(v: VaultState, t: TokenState, k: nat)
    requires Balanced(v, t, k)
    ensures CashGap(v, k) == 0
  {
  }

  lemma SameOwn(v: VaultState, v': VaultState)
    requires OwnLegs(v) && v'.credit == v.credit
    ensures OwnLegs(v')
  {
    hide Distinct;
  }

  lemma SameApplicable(v: VaultState, v': VaultState, leg: Leg, gross: int)
    requires v'.debts == v.debts && v'.credit == v.credit
    ensures Applicable(v', leg, gross) == Applicable(v, leg, gross)
  {
  }

  // ---------------------------------------------------------------- every call

  /** The guard, read before the call: part of the claim is kept back against the redeemer's own debt, or more goes
      upstream than the market has. */
  predicate Uncovers(l: Ledger, call: Call) {
    Redeems(call)
    && (KeptOf(l, call) > 0 || UpstreamOf(l, call) > AccountOf(l.vault, call.market).cash.refundable)
  }

  /** What the cover laws need of a state; it holds in every run. */
  ghost predicate Sturdy(l: Ledger) {
    Lawful(l) && OwnLegs(l.vault) && l.vault.purse.reserve >= 0
  }

  lemma LawfulParts(l: Ledger)
    requires Lawful(l)
    ensures SoundDebts(l.vault) && forall k: nat :: Balanced(l.vault, l.tokens, k)
  {
    hide RegistrySane, ValidTokens, PoolsSound, Recorded, Balanced, SoundDebts;
  }

  /** A market that has refundable money is overdrawn by one kind of call only: a redemption whose upstream payment
      exceeds that money and what the claim leaves behind. */
  lemma OverdrawnExactly(l: Ledger, now: nat, call: Call, k: nat)
    requires Sturdy(l) && Apply(l, now, call).Ok? && AccountOf(l.vault, k).cash.refundable >= 0
    ensures AccountOf(Apply(l, now, call).value.vault, k).cash.refundable < 0 <==>
            Redeems(call) && call.market == k
            && UpstreamOf(l, call) > AccountOf(l.vault, k).cash.refundable + KeptOf(l, call)
  {
    hide Lawful, OwnLegs, Apply, SoundDebts, Balanced, UpstreamOf, KeptOf;
    LawfulParts(l);
    if Redeems(call) {
      RedeemCall(l, now, call);
      RedeemDrains(l, call, k);
    } else {
      ApplySustains(l, now, call, k);
    }
  }

  lemma RedeemCall(l: Ledger, now: nat, call: Call)
    requires Redeems(call) && Apply(l, now, call).Ok?
    ensures ApplyRedeem(l, call) == Apply(l, now, call)
  {
    hide ApplyRedeem;
  }

  /** One call and one market: what was kept back there grows by exactly what this call keeps back. */
  lemma KeptExactly(l: Ledger, now: nat, call: Call, k: nat)
    requires Sturdy(l) && Apply(l, now, call).Ok?
    ensures HistoryOf(Apply(l, now, call).value.vault, k).withheld ==
            HistoryOf(l.vault, k).withheld + (if Redeems(call) && call.market == k then KeptOf(l, call) else 0)
    ensures Redeems(call) ==> KeptOf(l, call) >= 0
    ensures Apply(l, now, call).value.vault.purse.reserve >= 0
  {
    hide Lawful, OwnLegs, Apply, SoundDebts, Balanced, UpstreamOf, KeptOf;
    LawfulParts(l);
    if Redeems(call) {
      RedeemCall(l, now, call);
      RedeemDrains(l, call, k);
    } else {
      ApplySustains(l, now, call, k);
      ApplyBalanced(l, now, call, k);
    }
  }

  /** Cover is lost by exactly the calls that meet the guard. */
  lemma StepCovered(l: Ledger, now: nat, call: Call)
    requires Sturdy(l) && Covered(l.vault) && Apply(l, now, call).Ok?
    ensures Covered(Apply(l, now, call).value.vault) <==> !Uncovers(l, call)
  {
    hide Sturdy, Covered, Apply, UpstreamOf, KeptOf;
    var l' := Apply(l, now, call).value;
    SturdyLawful(l);
    CoverAt(l);
    StepSturdy(l, now, call);
    SturdyLawful(l');
    CoverAt(l');
    forall k: nat
      ensures HistoryOf(l'.vault, k).withheld == (if Redeems(call) && call.market == k then KeptOf(l, call) else 0)
      ensures AccountOf(l'.vault, k).cash.refundable < 0 <==>
              Redeems(call) && call.market == k
              && UpstreamOf(l, call) > AccountOf(l.vault, k).cash.refundable + KeptOf(l, call)
    {
      assert HistoryOf(l.vault, k).withheld == 0 && AccountOf(l.vault, k).cash.refundable >= 0;
      KeptExactly(l, now, call, k);
      OverdrawnExactly(l, now, call, k);
    }
    KeptExactly(l, now, call, 0);
    if Redeems(call) {
      assert HistoryOf(l'.vault, call.market).withheld == KeptOf(l, call);
      assert AccountOf(l'.vault, call.market).cash.refundable < 0 <==>
             UpstreamOf(l, call) > AccountOf(l.vault, call.market).cash.refundable + KeptOf(l, call);
    }
  }

  lemma SturdyLawful(l: Ledger)
    requires Sturdy(l)
    ensures Lawful(l)
  {
    hide Lawful, OwnLegs;
  }

  lemma StepSturdy(l: Ledger, now: nat, call: Call)
    requires Sturdy(l)
    ensures Sturdy(Step(l, now, call))
    ensures Apply(l, now, call).Ok? ==> Sturdy(Apply(l, now, call).value)
  {
    hide Lawful, OwnLegs, Apply, OnlyFor;
    StepLawful(l, now, call);
    if Apply(l, now, call).Ok? {
      ApplyOnly(l, now, call);
      OnlyOwns(l.vault, Apply(l, now, call).value.vault, Actor(call));
      KeptExactly(l, now, call, 0);
    }
  }

  // ---------------------------------------------------------------- runs

  lemma {:induction false} RunSturdy(l: Ledger, events: seq<Event>)
    requires Sturdy(l)
    ensures Sturdy(Run(l, events))
    decreases |events|
  {
    hide Sturdy, Step;
    if events != [] {
      StepSturdy(l, events[0].now, events[0].call);
      RunSturdy(Step(l, events[0].now, events[0].call), events[1..]);
    }
  }

  lemma GenesisSturdy()
    ensures Sturdy(GENESIS) && Covered(GENESIS.vault)
  {
    hide Lawful;
    GenesisLawful();
    assert GENESIS.vault == EMPTY_VAULT && SumBy(EMPTY_VAULT.books.accounts, Promised) == 0;
  }

  /** In every run the vault lacks exactly what was kept back and what markets overdrew. So it can pay everything that
      the markets may still pay if and only if nothing was kept back and no market is overdrawn. */
  lemma CoverExactly(events: seq<Event>)
    ensures var v := Run(GENESIS, events).vault;
            SumBy(v.books.accounts, Promised) + v.purse.reserve - v.purse.balance ==
            SumBy(v.books.history, WithheldOf) + SumBy(v.books.accounts, Overdraft)
    ensures var v := Run(GENESIS, events).vault;
            Covered(v) <==> NothingKept(v) && NoneOverdrawn(v)
  {
    hide Run, Lawful, Covered, NothingKept, NoneOverdrawn;
    var l := Reachable(events);
    CoverAt(l);
  }

  /** No call of the run that is accepted meets the guard. */
  predicate NeverUncovers(l: Ledger, events: seq<Event>)
    decreases |events|
  {
    events != [] ==>
      && (Apply(l, events[0].now, events[0].call).Ok? ==> !Uncovers(l, events[0].call))
      && NeverUncovers(Step(l, events[0].now, events[0].call), events[1..])
  }

  ghost predicate CoveredThroughout(l: Ledger, events: seq<Event>)
    decreases |events|
  {
    Covered(l.vault) && (events != [] ==> CoveredThroughout(Step(l, events[0].now, events[0].call), events[1..]))
  }

  lemma {:induction false} RunCovered(l: Ledger, events: seq<Event>)
    requires Sturdy(l) && Covered(l.vault)
    ensures CoveredThroughout(l, events) <==> NeverUncovers(l, events)
    decreases |events|
  {
    hide Sturdy, Covered, Apply, Uncovers;
    if events != [] {
      var now, call := events[0].now, events[0].call;
      StepSturdy(l, now, call);
      if Apply(l, now, call).Ok? {
        StepCovered(l, now, call);
      }
      if Covered(Step(l, now, call).vault) {
        RunCovered(Step(l, now, call), events[1..]);
      }
    }
  }

  /** The promise over whole runs: the vault holds enough at every moment if and only if no accepted redemption met the
      guard when it was called. */
  lemma CoverThroughoutExactly(events: seq<Event>)
    ensures CoveredThroughout(GENESIS, events) <==> NeverUncovers(GENESIS, events)
  {
    hide Sturdy, Covered;
    GenesisSturdy();
    RunCovered(GENESIS, events);
  }
}
