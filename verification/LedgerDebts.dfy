// Credit across runs in which every leg is drawn against one parent position.

module LedgerDebts {
  import opened DikeTypes
  import opened DikeMath
  import opened MarketRegistry
  import opened TokenLedger
  import opened VaultLedger
  import opened VaultDebts
  import opened AmmPools
  import opened LedgerCalls
  import opened LedgerMoney
  import opened LedgerCustody
  import opened LedgerPools
  import opened LedgerRecord
  import opened LedgerLaws

  lemma KeepsTwice(v: VaultState, v1: VaultState, v2: VaultState)
    requires Keeps(v, v1) && Keeps(v1, v2)
    ensures Keeps(v, v2)
  {
    hide SoundDebts, OneLender, Matched;
  }

  // ---------------------------------------------------------------- trades

  lemma CollectFeeKeeps(v: VaultState, m: nat, split: FeeSplit)
    requires SoundDebts(v) && CollectFee(v, m, split.lp, split.protocol, split.cod).Ok?
    ensures Keeps(v, CollectFee(v, m, split.lp, split.protocol, split.cod).value)
  {
    hide SoundDebts, Keeps;
    SameDebtsKeeps(v, CollectFee(v, m, split.lp, split.protocol, split.cod).value);
  }

  /** The purchase draws on one position only for that child market. */
  predicate DrawsOnce(v: VaultState, trader: Address, m: nat, parent: Parent) {
    match parent
    case NoParent => true
    case FromParent(q) => DrawsFrom(v, Position(q.market, trader, q.outcome), m)
  }

  lemma PayInKeeps(v: VaultState, reg: RegistryState, trader: Address, m: nat, parent: Parent, trade: Trade)
    requires SoundDebts(v) && trader.Account? && DrawsOnce(v, trader, m, parent)
    requires PayIn(v, reg, trader, m, parent, trade).Ok?
    ensures Keeps(v, PayIn(v, reg, trader, m, parent, trade).value)
  {
    hide SoundDebts, Keeps, OpenCredit;
    match parent
    case FromParent(q) =>
      OpenCreditKeeps(v, reg, Position(q.market, trader, q.outcome), m, trade.amountIn);
    case NoParent =>
      SameDebtsKeeps(v, PayIn(v, reg, trader, m, parent, trade).value);
  }

  lemma BuyVaultKeeps(v: VaultState, reg: RegistryState, trader: Address, m: nat, parent: Parent, trade: Trade,
                      split: FeeSplit)
    requires SoundDebts(v) && trader.Account? && DrawsOnce(v, trader, m, parent)
    requires BuyVault(v, reg, trader, m, parent, trade, split).Ok?
    ensures Keeps(v, BuyVault(v, reg, trader, m, parent, trade, split).value)
  {
    hide SoundDebts, Keeps, PayIn, CollectFee, DrawsOnce;
    PayInKeeps(v, reg, trader, m, parent, trade);
    var v1 := PayIn(v, reg, trader, m, parent, trade).value;
    KeepsSound(v, v1);
    CollectFeeKeeps(v1, m, split);
    KeepsTwice(v, v1, BuyVault(v, reg, trader, m, parent, trade, split).value);
  }

  lemma SellVaultKeeps(v: VaultState, reg: RegistryState, q: Position, trade: Trade, split: FeeSplit)
    requires SoundDebts(v) && SellVault(v, reg, q, trade, split).Ok?
    ensures Keeps(v, SellVault(v, reg, q, trade, split).value)
  {
    hide SoundDebts, Keeps, ReleaseTradePayout, CollectFee;
    ReleaseKeeps(v, reg, q, trade.amountIn, trade.gross - trade.fee);
    var v1 := ReleaseTradePayout(v, reg, q, trade.amountIn, trade.gross - trade.fee).value;
    KeepsSound(v, v1);
    CollectFeeKeeps(v1, q.market, split);
    KeepsTwice(v, v1, SellVault(v, reg, q, trade, split).value);
  }

  lemma SettleLiquidationKeeps(l: Ledger, user: Address, id: nat, pool: Pool, trade: Trade, q: Position)
    requires SoundDebts(l.vault) && SettleLiquidation(l, user, id, pool, trade, q).Ok?
    ensures Keeps(l.vault, SettleLiquidation(l, user, id, pool, trade, q).value.0.vault)
  {
    hide SoundDebts, Keeps, CollectFee, ForceTokens, LiquidateRelease, SplitTradingFee;
    var l1 := ForceSell(l, user, id, pool, trade).value;
    CollectFeeKeeps(l.vault, pool.market, SplitTradingFee(trade.fee, pool.fee));
    KeepsSound(l.vault, l1.vault);
    LiquidateReleaseKeeps(l1.vault, l1.reg, q, trade.amountIn, trade.gross - trade.fee);
    KeepsTwice(l.vault, l1.vault, SettleLiquidation(l, user, id, pool, trade, q).value.0.vault);
  }

  lemma SettleLegLiquidationOneLender(l: Ledger, user: Address, id: nat, pool: Pool, trade: Trade, q: Position)
    requires OneLender(l.vault) && SettleLegLiquidation(l, user, id, pool, trade, q).Ok?
    ensures OneLender(SettleLegLiquidation(l, user, id, pool, trade, q).value.0.vault)
  {
    hide ListsAreLenders, Backed, Matched, SoundDebts, CollectFee, ForceTokens, LiquidateChildRelease, SplitTradingFee;
    var l1 := ForceSell(l, user, id, pool, trade).value;
    CollectFeeKeeps(l.vault, pool.market, SplitTradingFee(trade.fee, pool.fee));
    LiquidateChildReleaseSound(l1.vault, l1.reg, q, trade.amountIn, trade.gross - trade.fee);
  }

  /** The call draws on one position only for each child market. */
  predicate OneDraw(l: Ledger, call: Call) {
    call.Purchase? && call.pool in l.amm.pools ==>
      DrawsOnce(l.vault, call.trader, l.amm.pools[call.pool].market, call.parent)
  }

  lemma TradeKeeps(l: Ledger, now: nat, call: Call)
    requires call.Purchase? || call.Sale? || call.Liquidation?
    requires ApplyTrade(l, now, call).Ok? && SoundDebts(l.vault) && OneDraw(l, call)
    ensures Keeps(l.vault, ApplyTrade(l, now, call).value.vault)
  {
    hide SoundDebts, Keeps, BuyVault, BuyTokens, SellVault, SellTokens, SettleLiquidation, SettleLegLiquidation,
         RequireLive, PriceBuy, PriceSell, PriceLiquidation, DrawsOnce;
    match call
    case Purchase(trader, id, amountIn, _, _, yes, parent) =>
      var pool := l.amm.pools[id];
      var trade := PriceBuy(pool, amountIn, SideOf(yes)).value;
      BuyVaultKeeps(l.vault, l.reg, trader, pool.market, parent, trade, SplitTradingFee(trade.fee, pool.fee));
    case Sale(trader, id, amountIn, _, _, yes) =>
      var pool := l.amm.pools[id];
      var trade := PriceSell(pool, amountIn, SideOf(yes)).value;
      SellVaultKeeps(l.vault, l.reg, Position(pool.market, trader, trade.outcome), trade,
                     SplitTradingFee(trade.fee, pool.fee));
    case Liquidation(liquidator, user, id, outcome) =>
      var (pool, trade) := PriceLiquidation(l, now, liquidator, user, id, outcome, false).value;
      SettleLiquidationKeeps(l, user, id, pool, trade, Position(pool.market, user, outcome));
  }

  // ---------------------------------------------------------------- the other calls

  lemma LiquidityKeeps(l: Ledger, now: nat, call: Call)
    requires call.Creation? || call.Seeding? || call.Addition? || call.Removal? || call.FeeClaim?
    requires ApplyLiquidity(l, now, call).Ok? && SoundDebts(l.vault)
    ensures Keeps(l.vault, ApplyLiquidity(l, now, call).value.vault)
  {
    hide SoundDebts, Keeps, MintCompleteSet, RequireSeedable, RequireTradeable, RequireRemovable, SharesFor,
         Withdrawal, HandOut, FeesOwed, RegisterMarket, CreatePool, Transition;
    SameDebtsKeeps(l.vault, ApplyLiquidity(l, now, call).value.vault);
  }

  lemma VaultCallKeeps(v: VaultState, reg: RegistryState, call: Call)
    requires call.Repayment? || call.BondLock? || call.BondUnlock? || call.FeeSweep?
    requires ApplyVault(v, reg, call).Ok? && SoundDebts(v)
    ensures Keeps(v, ApplyVault(v, reg, call).value)
  {
    hide SoundDebts, Keeps, RepayChildCollateral;
    match call
    case Repayment(user, m, amount) => RepayChildCollateralKeeps(v, reg, Leg(m, user), amount);
    case BondLock(_, _, _) => SameDebtsKeeps(v, ApplyVault(v, reg, call).value);
    case BondUnlock(_, _, _) => SameDebtsKeeps(v, ApplyVault(v, reg, call).value);
    case FeeSweep(_) => SameDebtsKeeps(v, ApplyVault(v, reg, call).value);
  }

  lemma RedeemKeeps(l: Ledger, call: Call)
    requires (call.Redemption? || call.Refund?) && ApplyRedeem(l, call).Ok? && SoundDebts(l.vault)
    requires Balanced(l.vault, l.tokens, call.market)
    ensures Keeps(l.vault, ApplyRedeem(l, call).value.vault)
  {
    hide SoundDebts, Keeps, RedeemResolved, RedeemCancelled, Balanced;
    var q := Position(call.market, call.user, call.outcome);
    if call.Redemption? {
      RedeemResolvedSound(l.vault, l.reg, l.tokens, q, call.amount);
    } else {
      RedeemCancelledSound(l.vault, l.reg, l.tokens, q, call.amount);
    }
  }

  /** Every call except the liquidation of a leg keeps debts linked to one lender and equal to what is used. */
  lemma ApplyKeeps(l: Ledger, now: nat, call: Call)
    requires Apply(l, now, call).Ok? && !call.LegLiquidation? && OneDraw(l, call) && SoundDebts(l.vault)
    requires forall m: nat :: Balanced(l.vault, l.tokens, m)
    ensures Keeps(l.vault, Apply(l, now, call).value.vault)
  {
    hide ApplyTrade, ApplyLiquidity, ApplyRedeem, ApplyVault, ApplyTokens, ApplyRegistry, Balanced, SoundDebts, Keeps,
         OneDraw;
    match call
    case Purchase(_, _, _, _, _, _, _) => TradeKeeps(l, now, call);
    case Sale(_, _, _, _, _, _) => TradeKeeps(l, now, call);
    case Liquidation(_, _, _, _) => TradeKeeps(l, now, call);
    case Creation(_, _, _, _) => LiquidityKeeps(l, now, call);
    case Seeding(_, _, _) => LiquidityKeeps(l, now, call);
    case Addition(_, _, _) => LiquidityKeeps(l, now, call);
    case Removal(_, _, _) => LiquidityKeeps(l, now, call);
    case FeeClaim(_, _) => LiquidityKeeps(l, now, call);
    case Redemption(_, m, _, _) => RedeemKeeps(l, call);
    case Refund(_, m, _, _) => RedeemKeeps(l, call);
    case Repayment(_, _, _) => VaultCallKeeps(l.vault, l.reg, call);
    case BondLock(_, _, _) => VaultCallKeeps(l.vault, l.reg, call);
    case BondUnlock(_, _, _) => VaultCallKeeps(l.vault, l.reg, call);
    case FeeSweep(_) => VaultCallKeeps(l.vault, l.reg, call);
    case Transfer(_, _, _, _) => SameDebtsKeeps(l.vault, l.vault);
    case LosingBurn(_, _, _) => SameDebtsKeeps(l.vault, l.vault);
    case RegistryMove(_) => SameDebtsKeeps(l.vault, l.vault);
    case Pause(contract, paused) => SameDebtsKeeps(l.vault, ApplyPause(l, contract, paused).vault);
  }

  lemma LegLiquidationOneLender(l: Ledger, now: nat, call: Call)
    requires call.LegLiquidation? && ApplyTrade(l, now, call).Ok? && OneLender(l.vault)
    ensures OneLender(ApplyTrade(l, now, call).value.vault)
  {
    hide OneLender, SettleLegLiquidation, PriceLiquidation;
    var LegLiquidation(liquidator, user, id, outcome) := call;
    var (pool, trade) := PriceLiquidation(l, now, liquidator, user, id, outcome, true).value;
    SettleLegLiquidationOneLender(l, user, id, pool, trade, Position(pool.market, user, outcome));
  }

  // ---------------------------------------------------------------- runs

  /** Every purchase on credit draws on one position only for each child market. */
  predicate OneLenderRun(l: Ledger, events: seq<Event>)
    decreases |events|
  {
    events == [] ||
    (OneDraw(l, events[0].call) && OneLenderRun(Step(l, events[0].now, events[0].call), events[1..]))
  }

  predicate NoLegLiquidation(events: seq<Event>) {
    forall i :: 0 <= i < |events| ==> !events[i].call.LegLiquidation?
  }

  lemma StepOneLender(l: Ledger, now: nat, call: Call)
    requires Lawful(l) && OneLender(l.vault) && OneDraw(l, call)
    ensures OneLender(Step(l, now, call).vault)
    ensures Matched(l.vault) && !call.LegLiquidation? ==> Matched(Step(l, now, call).vault)
  {
    hide Apply, OneLender, Matched, OneDraw, RegistrySane, Solid, SoundDebts, ValidTokens, PoolsSound, Balanced,
         Recorded;
    SolidSound(l.vault);
    if Apply(l, now, call).Ok? {
      if call.LegLiquidation? {
        LegCall(l, now, call);
        LegLiquidationOneLender(l, now, call);
      } else {
        ApplyKeeps(l, now, call);
      }
    }
  }

  lemma LegCall(l: Ledger, now: nat, call: Call)
    requires call.LegLiquidation?
    ensures Apply(l, now, call) == ApplyTrade(l, now, call)
  {
    hide ApplyTrade;
  }

  lemma {:induction false} RunOneLender(l: Ledger, events: seq<Event>)
    requires Lawful(l) && OneLender(l.vault) && OneLenderRun(l, events)
    ensures OneLender(Run(l, events).vault)
    ensures Matched(l.vault) && NoLegLiquidation(events) ==> Matched(Run(l, events).vault)
    decreases |events|
  {
    hide Lawful, Step, OneLender, Matched, OneDraw;
    if events != [] {
      var l1 := Step(l, events[0].now, events[0].call);
      StepLawful(l, events[0].now, events[0].call);
      StepOneLender(l, events[0].now, events[0].call);
      RunOneLender(l1, events[1..]);
    }
  }

  lemma EmptyOneLender()
    ensures OneLender(EMPTY_VAULT) && Matched(EMPTY_VAULT)
  {
  }

  /** With every leg drawn against one parent position, the legs a position lists are exactly those it lends
      to, none twice, and together they owe at least what the position owes; and as long as no leg was
      liquidated, the position owes exactly what it has in use. */
  lemma DebtsAgree(events: seq<Event>, q: Position)
    requires OneLenderRun(GENESIS, events)
    ensures var v := Run(GENESIS, events).vault;
            && Distinct(ChildrenOf(v, q))
            && (forall c: nat :: c in ChildrenOf(v, q) <==> LendsTo(v, q, Leg(c, q.user)))
            && ParentDebt(v, q) <= Owed(v, q.user, ChildrenOf(v, q))
            && (NoLegLiquidation(events) ==> Used(v, q) == ParentDebt(v, q))
  {
    hide Run, OneLenderRun, Lawful, SoundDebts;
    GenesisLawful();
    EmptyOneLender();
    RunOneLender(GENESIS, events);
  }

  /** Liquidation at the end of such a run: the position is left without debt and without credit in use, the
      proceeds split exactly, and the user is paid a remainder only if the whole debt was repaid and nothing
      was booked as lost. */
  lemma LiquidationClears(events: seq<Event>, now: nat, liquidator: Address, user: Address, id: nat, outcome: Outcome)
    requires OneLenderRun(GENESIS, events) && NoLegLiquidation(events)
    requires Liquidate(Run(GENESIS, events), now, liquidator, user, id, outcome).Ok?
    ensures var l := Run(GENESIS, events);
            var (l', r) := Liquidate(l, now, liquidator, user, id, outcome).value;
            var q := Position(l.amm.pools[id].market, user, outcome);
            && ParentDebt(l'.vault, q) == 0 && Used(l'.vault, q) == 0
            && r.proceeds == r.bonus + r.debtRepaid + r.remainder
            && (r.remainder > 0 ==> r.debtRepaid == ParentDebt(l.vault, q)
                                    && l'.vault.purse.reserve == l.vault.purse.reserve
                                    && forall m: nat :: AccountOf(l'.vault, m).loans.defaulted ==
                                                        AccountOf(l.vault, m).loans.defaulted)
  {
    hide Run, OneLenderRun, Lawful, OneLender, Matched, ForceSell, LiquidateRelease, PriceSell, RequireLive;
    GenesisLawful();
    EmptyOneLender();
    RunOneLender(GENESIS, events);
    var l := Run(GENESIS, events);
    var (pool, trade) := PriceLiquidation(l, now, liquidator, user, id, outcome, false).value;
    var q := Position(pool.market, user, outcome);
    ForcedSaleFrame(l, user, id, pool, trade, q);
    var l1 := ForceSell(l, user, id, pool, trade).value;
    ReleaseClears(l1.vault, l1.reg, q, trade.amountIn, trade.gross - trade.fee);
  }

  /** A forced sale changes no debt, no reserve and no loss. */
  lemma ForcedSaleFrame(l: Ledger, user: Address, id: nat, pool: Pool, trade: Trade, q: Position)
    requires OneLender(l.vault) && Matched(l.vault) && ForceSell(l, user, id, pool, trade).Ok?
    ensures var v := ForceSell(l, user, id, pool, trade).value.vault;
            && OneLender(v) && Matched(v) && ParentDebt(v, q) == ParentDebt(l.vault, q)
            && v.purse == l.vault.purse
            && forall m: nat :: AccountOf(v, m).loans.defaulted == AccountOf(l.vault, m).loans.defaulted
  {
    hide OneLender, Matched, SoundDebts, ForceTokens, SplitTradingFee;
    OneLenderSound(l.vault);
    SameDebtsKeeps(l.vault, ForceSell(l, user, id, pool, trade).value.vault);
  }

  lemma OneLenderSound(v: VaultState)
    requires OneLender(v)
    ensures SoundDebts(v)
  {
    hide SoundDebts;
  }

  lemma ReleaseClears(v: VaultState, reg: RegistryState, q: Position, tokensSold: int, proceeds: int)
    requires OneLender(v) && Matched(v) && LiquidateRelease(v, reg, q, tokensSold, proceeds).Ok?
    ensures var (v', r) := LiquidateRelease(v, reg, q, tokensSold, proceeds).value;
            && ParentDebt(v', q) == 0 && Used(v', q) == 0
            && r.proceeds == r.bonus + r.debtRepaid + r.remainder
            && (r.remainder > 0 ==> r.debtRepaid == ParentDebt(v, q)
                                    && v'.purse.reserve == v.purse.reserve
                                    && forall m: nat :: AccountOf(v', m).loans.defaulted ==
                                                        AccountOf(v, m).loans.defaulted)
  {
    hide OneLender, Matched, RouteProceeds;
    var v1 := ExtractProceeds(v, q, tokensSold, proceeds).value;
    ExtractFrame(v, q, tokensSold, proceeds);
    BpsBounds(proceeds, LIQUIDATION_BONUS_BPS);
    var bonus := Bps(proceeds, LIQUIDATION_BONUS_BPS);
    RouteProceedsClears(v1, q, proceeds - bonus);
    RemainderMeansRepaid(v1, q, proceeds - bonus);
    PayOutFrame(RouteProceeds(v1, q, proceeds - bonus), proceeds, bonus);
  }

  lemma ExtractFrame(v: VaultState, q: Position, tokensSold: int, proceeds: int)
    requires OneLender(v) && Matched(v) && ExtractProceeds(v, q, tokensSold, proceeds).Ok?
    ensures var v1 := ExtractProceeds(v, q, tokensSold, proceeds).value;
            && OneLender(v1) && Matched(v1) && ParentDebt(v1, q) == ParentDebt(v, q) && v1.purse == v.purse
            && forall m: nat :: AccountOf(v1, m).loans == AccountOf(v, m).loans
  {
    hide OneLender, Matched, SoundDebts;
    OneLenderSound(v);
    SameDebtsKeeps(v, ExtractProceeds(v, q, tokensSold, proceeds).value);
  }

  lemma PayOutFrame(routed: (VaultState, int), proceeds: int, bonus: int)
    requires PayOut(routed, proceeds, bonus).Ok?
    ensures var (v', r) := PayOut(routed, proceeds, bonus).value;
            && r == Receipt(proceeds, bonus, routed.1, proceeds - bonus - routed.1)
            && v'.debts == routed.0.debts && v'.books == routed.0.books
            && v'.purse.reserve == routed.0.purse.reserve
  {
  }
}
