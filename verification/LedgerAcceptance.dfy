// When a purchase and a sale are accepted, after any run: exactly under guards that the caller can read before the
// call.

module LedgerAcceptance {
  import opened DikeTypes
  import opened DikeMath
  import opened MarketRegistry
  import opened PoolQuotes
  import opened TokenLedger
  import opened VaultLedger
  import opened VaultDebts
  import opened VaultTerms
  import opened AmmPools
  import opened LpLaws
  import opened LedgerCalls
  import opened LedgerPools
  import opened LedgerLaws
  import opened LedgerFlows
  import opened LedgerLiquidations
  import opened LiquidityTerms
  import opened LedgerCash
  import opened LedgerTerms

  /** The market's book can give so much for fees and proceeds. */
  predicate BookHas(v: VaultState, m: nat, x: int) {
    x <= AccountOf(v, m).cash.backing && x <= AccountOf(v, m).cash.refundable
  }

  lemma FeePartsFit(fee: int, config: FeeConfig)
    requires fee >= 0 && config.Valid()
    ensures var split := SplitTradingFee(fee, config);
            split.lp >= 0 && split.protocol >= 0 && split.cod >= 0 && split.lp + split.protocol + split.cod == fee
  {
    BpsIs(fee, config.lpShareBps);
    BpsIs(fee, config.treasuryShareBps);
    SharesOfFee(fee, config.lpShareBps, config.treasuryShareBps);
  }

  lemma SharesOfFee(fee: int, x: nat, y: nat)
    requires fee >= 0 && x + y <= BPS_DENOMINATOR
    ensures fee * x + fee * y <= fee * BPS_DENOMINATOR
  {
    assert fee * x + fee * y == fee * (x + y);
    Scaled(x + y, BPS_DENOMINATOR, fee);
  }

  lemma QuotesExactly(pool: Pool, amountIn: int, o: Outcome)
    requires amountIn > 0 && o != Invalid && pool.fee.Valid()
    ensures PriceBuy(pool, amountIn, o).Ok? <==> pool.reserves.yes > 0 && pool.reserves.no > 0
    ensures PriceBuy(pool, amountIn, o).Ok? ==>
              PriceBuy(pool, amountIn, o).value.fee == SplitFee(amountIn, pool.fee.tradingFeeBps).0
  {
    hide QuoteBuy;
    BpsIs(amountIn, pool.fee.tradingFeeBps);
    LessThanAll(amountIn, pool.fee.tradingFeeBps);
    var net := SplitFee(amountIn, pool.fee.tradingFeeBps).1;
    if pool.reserves.yes > 0 && pool.reserves.no > 0 {
      BuyAgainstProduct(pool.reserves.Of(o), pool.reserves.Of(Opposite(o)), net);
    } else {
      NoQuote(pool.reserves.Of(o), pool.reserves.Of(Opposite(o)), net);
    }
  }

  lemma NoQuote(own: int, other: int, net: int)
    requires own <= 0 || other <= 0
    ensures QuoteBuy(own, other, net).Err? && QuoteSell(own, other, net).Err?
  {
  }

  lemma LessThanAll(amountIn: int, rate: nat)
    requires amountIn > 0 && rate <= 1_000
    ensures Bps(amountIn, rate) < amountIn
  {
    BpsIs(amountIn, rate);
    Scaled(rate, 1_000, amountIn);
  }

  /** Every pool keeps the valid fee configuration it was created with. */
  ghost predicate Configured(amm: AmmState) {
    forall id :: id in amm.pools ==> amm.pools[id].fee.Valid()
  }

  lemma TradesConfigured(l: Ledger, now: nat, call: Call)
    requires call.Purchase? || call.Sale? || call.Liquidation? || call.LegLiquidation?
    requires Configured(l.amm) && ApplyTrade(l, now, call).Ok?
    ensures Configured(ApplyTrade(l, now, call).value.amm)
  {
    hide BuyVault, BuyTokens, SellVault, SellTokens, RequireLive, PriceBuy, PriceSell, SplitTradingFee, AccrueFees,
         ForceTokens, CollectFee, LiquidateRelease, LiquidateChildRelease, PriceLiquidation;
    match call
    case Liquidation(liquidator, user, id, outcome) => ForcedTrade(l, now, liquidator, user, id, outcome, false);
    case LegLiquidation(liquidator, user, id, outcome) => ForcedTrade(l, now, liquidator, user, id, outcome, true);
    case _ =>
  }

  lemma SeededConfigured(l: Ledger, now: nat, lp: Address, id: nat, amount: int)
    requires Configured(l.amm) && Seed(l, now, lp, id, amount).Ok?
    ensures Configured(Seed(l, now, lp, id, amount).value.amm)
  {
    hide FundPool, RequireSeedable, SetLp;
    Funding(l, l.amm.pools[id].market, amount);
  }

  lemma LiquidityConfigured(l: Ledger, now: nat, call: Call)
    requires call.Creation? || call.Seeding? || call.Addition? || call.Removal? || call.FeeClaim?
    requires Configured(l.amm) && ApplyLiquidity(l, now, call).Ok?
    ensures Configured(ApplyLiquidity(l, now, call).value.amm)
  {
    hide FundPool, SharesFor, PayPending, HandOut, Withdrawal, Seed, RequireTradeable, RequireRemovable, RegisterMarket,
         Transition, PayLpFees, FeesOwed, SetLp;
    match call
    case Creation(creator, terms, fee, liquidity) =>
      var (reg, m) := RegisterMarket(l.reg, now, terms).value;
      var (amm, id) := CreatePool(l.amm, m, fee).value;
      SeededConfigured(l.(reg := reg, amm := amm), now, creator, id, liquidity);
    case Seeding(lp, id, amount) => SeededConfigured(l, now, lp, id, amount);
    case Addition(lp, id, amount) => Funding(l, l.amm.pools[id].market, amount);
    case _ =>
  }

  lemma ApplyConfigured(l: Ledger, now: nat, call: Call)
    requires Configured(l.amm) && Apply(l, now, call).Ok?
    ensures Configured(Apply(l, now, call).value.amm)
  {
    hide ApplyTrade, ApplyLiquidity, RedeemResolved, RedeemCancelled, ApplyVault, ApplyTokens, ApplyRegistry,
         Configured;
    if call.Purchase? || call.Sale? || call.Liquidation? || call.LegLiquidation? {
      TradesConfigured(l, now, call);
    } else if call.Creation? || call.Seeding? || call.Addition? || call.Removal? || call.FeeClaim? {
      LiquidityConfigured(l, now, call);
    } else if call.Pause? {
      PausedConfigured(l, call.contract, call.paused);
    }
  }

  lemma PausedConfigured(l: Ledger, contract: Pausable, paused: bool)
    requires Configured(l.amm)
    ensures Configured(ApplyPause(l, contract, paused).amm)
  {
  }

  lemma {:induction false} RunConfigured(l: Ledger, events: seq<Event>)
    requires Configured(l.amm)
    ensures Configured(Run(l, events).amm)
    decreases |events|
  {
    hide Apply, Configured;
    if events != [] {
      if Apply(l, events[0].now, events[0].call).Ok? {
        ApplyConfigured(l, events[0].now, events[0].call);
      }
      RunConfigured(Step(l, events[0].now, events[0].call), events[1..]);
    }
  }

  lemma ReachableConfigured(events: seq<Event>, id: nat) returns (l: Ledger)
    requires id in Run(GENESIS, events).amm.pools
    ensures l == Run(GENESIS, events) && Lawful(l) && l.amm.pools[id].fee.Valid()
  {
    hide Run, Lawful;
    RunConfigured(GENESIS, events);
    l := Reachable(events);
  }

  /** A purchase in cash is accepted exactly from someone who signs, in time, while the pool trades and has both
      reserves, when the quote reaches the minimum and the vault takes the money and can set the fee aside. */
  lemma BuysExactly(events: seq<Event>, now: nat, trader: Address, id: nat, amountIn: int, minOut: int, deadline: nat,
                    yes: bool)
    requires id in Run(GENESIS, events).amm.pools && amountIn > 0
    ensures var l := Run(GENESIS, events);
            var pool := l.amm.pools[id];
            Buy(l, now, trader, id, amountIn, minOut, deadline, yes, NoParent).Ok? <==>
            && trader.Account? && Trading(l, now, id) && now <= deadline && !l.vault.purse.paused
            && pool.reserves.yes > 0 && pool.reserves.no > 0
            && PriceBuy(pool, amountIn, SideOf(yes)).Ok? && PriceBuy(pool, amountIn, SideOf(yes)).value.gross >= minOut
            && BookHas(l.vault, id, SplitFee(amountIn, pool.fee.tradingFeeBps).0 - amountIn)
  {
    hide Run, RequireLive, PriceBuy, SplitTradingFee, Lawful, PoolsSound, SoundDebts, BuyVault, BuyTokens, SplitFee;
    var l := ReachableConfigured(events, id);
    FlowParts(l);
    SoundPool(l, id);
    HeldReserves(l, id);
    var (pool, o) := (l.amm.pools[id], SideOf(yes));
    LiveMeansTrading(l, now, deadline, id);
    QuotesExactly(pool, amountIn, o);
    if && trader.Account? && Trading(l, now, id) && PriceBuy(pool, amountIn, o).Ok? {
      var trade := PriceBuy(pool, amountIn, o).value;
      QuoteFacts(pool, amountIn, o);
      FeePartsFit(trade.fee, pool.fee);
      var split := SplitTradingFee(trade.fee, pool.fee);
      PaysInExactly(l.vault, l.reg, trader, id, trade, split);
      if BuyVault(l.vault, l.reg, trader, id, NoParent, trade, split).Ok? {
        var v := BuyVault(l.vault, l.reg, trader, id, NoParent, trade, split).value;
        BoughtDebts(l.vault, l.reg, trader, id, trade, split);
        PoolOwesNothing(l.vault, v, id);
        BuyTokensExactly(v, l.tokens, trader, id, trade);
      }
    }
  }

  /** A purchase on credit is accepted exactly under the same guards when the draw may be made; the vault takes no new
      money for it, so a pause of its deposits does not stop it. */
  lemma CreditBuysExactly(events: seq<Event>, now: nat, trader: Address, id: nat, amountIn: int, minOut: int,
                          deadline: nat, yes: bool, from: Position)
    requires id in Run(GENESIS, events).amm.pools && amountIn > 0
    ensures var l := Run(GENESIS, events);
            var pool := l.amm.pools[id];
            Buy(l, now, trader, id, amountIn, minOut, deadline, yes, FromParent(from)).Ok? <==>
            && trader.Account? && Trading(l, now, id) && now <= deadline
            && pool.reserves.yes > 0 && pool.reserves.no > 0
            && PriceBuy(pool, amountIn, SideOf(yes)).Ok? && PriceBuy(pool, amountIn, SideOf(yes)).value.gross >= minOut
            && MayDraw(l.vault, l.reg, Position(from.market, trader, from.outcome), id, amountIn)
            && BookHas(l.vault, id, SplitFee(amountIn, pool.fee.tradingFeeBps).0 - amountIn)
  {
    hide Run, RequireLive, PriceBuy, SplitTradingFee, Lawful, PoolsSound, SoundDebts, BuyVault, BuyTokens, SplitFee,
         MayDraw;
    var l := ReachableConfigured(events, id);
    FlowParts(l);
    SoundPool(l, id);
    HeldReserves(l, id);
    var (pool, o) := (l.amm.pools[id], SideOf(yes));
    LiveMeansTrading(l, now, deadline, id);
    QuotesExactly(pool, amountIn, o);
    if && trader.Account? && Trading(l, now, id) && PriceBuy(pool, amountIn, o).Ok? {
      var trade := PriceBuy(pool, amountIn, o).value;
      QuoteFacts(pool, amountIn, o);
      FeePartsFit(trade.fee, pool.fee);
      var split := SplitTradingFee(trade.fee, pool.fee);
      DrawsInExactly(l.vault, l.reg, trader, id, from, trade, split);
      if BuyVault(l.vault, l.reg, trader, id, FromParent(from), trade, split).Ok? {
        var v := BuyVault(l.vault, l.reg, trader, id, FromParent(from), trade, split).value;
        DrawnByTrader(l.vault, l.reg, trader, id, from, trade, split);
        BuyTokensExactly(v, l.tokens, trader, id, trade);
      }
    }
  }

  lemma DrawsInExactly(v: VaultState, reg: RegistryState, trader: Address, m: nat, from: Position, trade: Trade,
                       split: FeeSplit)
    requires split.lp >= 0 && split.protocol >= 0 && split.cod >= 0
    requires split.lp + split.protocol + split.cod == trade.fee
    ensures BuyVault(v, reg, trader, m, FromParent(from), trade, split).Ok? <==>
            && MayDraw(v, reg, Position(from.market, trader, from.outcome), m, trade.amountIn)
            && BookHas(v, m, trade.fee - trade.amountIn)
  {
    hide CreditAllowed, MayDraw, RecordCredit;
    var q := Position(from.market, trader, from.outcome);
    DrawsExactly(v, reg, q, m, trade.amountIn);
    if OpenCredit(v, reg, q, m, trade.amountIn).Ok? {
      ParentElsewhere(v, reg, q, m, trade.amountIn);
      DrawRecorded(v, q, m, trade.amountIn);
    }
  }

  lemma DrawnByTrader(v: VaultState, reg: RegistryState, trader: Address, m: nat, from: Position, trade: Trade,
                      split: FeeSplit)
    requires BuyVault(v, reg, trader, m, FromParent(from), trade, split).Ok? && SoundDebts(v) && trader.Account?
    ensures var v' := BuyVault(v, reg, trader, m, FromParent(from), trade, split).value;
            ChildDebt(v', Leg(m, AmmContract)) == 0 && forall o :: ParentDebt(v', Position(m, AmmContract, o)) == 0
  {
    hide SoundDebts, CreditAllowed, RecordCredit;
    var q := Position(from.market, trader, from.outcome);
    DrawRecorded(v, q, m, trade.amountIn);
    PoolOwesNothing(v, v, m);
    var v1 := RecordCredit(v, q, m, trade.amountIn);
    forall o ensures ParentDebt(BuyVault(v, reg, trader, m, FromParent(from), trade, split).value,
                                Position(m, AmmContract, o)) == 0
    {
      assert ParentDebt(v1, Position(m, AmmContract, o)) == ParentDebt(v, Position(m, AmmContract, o));
    }
    assert ChildDebt(v1, Leg(m, AmmContract)) == ChildDebt(v, Leg(m, AmmContract));
  }

  lemma QuoteFacts(pool: Pool, amountIn: int, o: Outcome)
    requires PriceBuy(pool, amountIn, o).Ok? && amountIn > 0 && o != Invalid
    ensures var trade := PriceBuy(pool, amountIn, o).value;
            && trade.outcome == o && trade.amountIn == amountIn && trade.fee >= 0
            && 0 < trade.amountIn - trade.fee < trade.gross <= pool.reserves.Of(o) + trade.amountIn - trade.fee
  {
    hide QuoteBuy, Bps;
    BpsIs(amountIn, pool.fee.tradingFeeBps);
    var trade := PriceBuy(pool, amountIn, o).value;
    BuyPositive(pool.reserves.Of(o), pool.reserves.Of(Opposite(o)), amountIn - trade.fee);
    BuyAgainstProduct(pool.reserves.Of(o), pool.reserves.Of(Opposite(o)), amountIn - trade.fee);
  }

  lemma PaysInExactly(v: VaultState, reg: RegistryState, trader: Address, m: nat, trade: Trade, split: FeeSplit)
    requires trade.amountIn > 0 && trade.gross > 0 && m in reg.markets
    requires split.lp >= 0 && split.protocol >= 0 && split.cod >= 0
    requires split.lp + split.protocol + split.cod == trade.fee
    ensures BuyVault(v, reg, trader, m, NoParent, trade, split).Ok? <==>
            !v.purse.paused && BookHas(v, m, trade.fee - trade.amountIn)
  {
  }

  lemma BoughtDebts(v: VaultState, reg: RegistryState, trader: Address, m: nat, trade: Trade, split: FeeSplit)
    requires BuyVault(v, reg, trader, m, NoParent, trade, split).Ok?
    ensures BuyVault(v, reg, trader, m, NoParent, trade, split).value.debts == v.debts
  {
  }

  lemma BuyTokensExactly(v: VaultState, t: TokenState, trader: Address, m: nat, trade: Trade)
    requires trade.amountIn - trade.fee > 0 && trade.gross > 0 && trade.outcome != Invalid
    requires trade.gross <= Balance(t, AmmContract, Side(m, trade.outcome)) + trade.amountIn - trade.fee
    requires ChildDebt(v, Leg(m, AmmContract)) == 0 && ParentDebt(v, Position(m, AmmContract, trade.outcome)) == 0
    ensures BuyTokens(v, t, trader, m, trade).Ok?
  {
    hide MintCompleteSet, MovePosition;
    Minted(t, m, trade.amountIn - trade.fee);
    var t1 := MintCompleteSet(t, AmmContract, m, trade.amountIn - trade.fee).value;
    MintExactly(t, AmmContract, m, trade.amountIn - trade.fee, AmmContract, Side(m, trade.outcome));
    MovesExactly(t1, AmmContract, trader, Side(m, trade.outcome), trade.gross);
  }

  lemma Minted(t: TokenState, m: nat, amount: int)
    ensures MintCompleteSet(t, AmmContract, m, amount).Ok? <==> amount > 0
  {
  }

  /** A sale is accepted exactly from someone who signs, in time, while the pool trades and has both reserves, for
      tokens that he has and that owe nothing, when what is left after the fee is positive and reaches the minimum and
      the book and the vault have it. */
  lemma SellsExactly(events: seq<Event>, now: nat, trader: Address, id: nat, amountIn: int, minOut: int, deadline: nat,
                     yes: bool)
    requires id in Run(GENESIS, events).amm.pools && amountIn > 0
    ensures var l := Run(GENESIS, events);
            var (pool, o) := (l.amm.pools[id], SideOf(yes));
            var gross := SaleGross(pool, amountIn, o);
            var paid := gross - SplitFee(gross, pool.fee.tradingFeeBps).0;
            Sell(l, now, trader, id, amountIn, minOut, deadline, yes).Ok? <==>
            && trader.Account? && Trading(l, now, id) && now <= deadline
            && pool.reserves.yes > 0 && pool.reserves.no > 0
            && amountIn <= Balance(l.tokens, trader, Side(id, o))
            && ChildDebt(l.vault, Leg(id, trader)) == 0 && ParentDebt(l.vault, Position(id, trader, o)) == 0
            && paid > 0 && paid >= minOut && BookHas(l.vault, id, gross) && paid <= l.vault.purse.balance
  {
    hide Run, RequireLive, PriceSell, SplitTradingFee, Lawful, PoolsSound, SoundDebts, SellVault, SellTokens, SplitFee,
         SaleGross, ValidTokens;
    var l := ReachableConfigured(events, id);
    FlowParts(l);
    SoundPool(l, id);
    HeldReserves(l, id);
    LawfulTokens(l);
    var (pool, o) := (l.amm.pools[id], SideOf(yes));
    LiveMeansTrading(l, now, deadline, id);
    if pool.reserves.yes > 0 && pool.reserves.no > 0 {
      SaleIsQuoted(pool, amountIn, o);
    }
    if trader.Account? && Trading(l, now, id) && PriceSell(pool, amountIn, o).Ok? {
      var trade := PriceSell(pool, amountIn, o).value;
      SaleNeedsReserves(pool, amountIn, o);
      SaleFacts(pool, amountIn, o);
      FeePartsFit(trade.fee, pool.fee);
      var split := SplitTradingFee(trade.fee, pool.fee);
      SoldTokensExactly(l, trader, id, trade);
      DebtsAtLeastNothing(l.vault, Position(id, trader, o));
      SoldVaultExactly(l.vault, l.reg, Position(id, trader, o), trade, split);
    }
  }

  lemma SaleFacts(pool: Pool, amountIn: int, o: Outcome)
    requires PriceSell(pool, amountIn, o).Ok? && o != Invalid
    ensures var trade := PriceSell(pool, amountIn, o).value;
            && trade.outcome == o && trade.amountIn == amountIn > 0 && 0 <= trade.fee
            && 0 <= trade.gross <= pool.reserves.Of(Opposite(o)) && trade.gross <= pool.reserves.Of(o) + amountIn
            && trade.fee == SplitFee(trade.gross, pool.fee.tradingFeeBps).0
  {
    hide QuoteSell, Bps;
    SalePositive(pool.reserves.Of(o), pool.reserves.Of(Opposite(o)), amountIn);
    SellWithinReserves(pool.reserves.Of(o), pool.reserves.Of(Opposite(o)), amountIn);
    BpsIs(PriceSell(pool, amountIn, o).value.gross, pool.fee.tradingFeeBps);
  }

  lemma DebtsAtLeastNothing(v: VaultState, q: Position)
    requires SoundDebts(v)
    ensures ChildDebt(v, Leg(q.market, q.user)) >= 0 && ParentDebt(v, q) >= 0
  {
  }

  lemma SoldTokensExactly(l: Ledger, trader: Address, m: nat, trade: Trade)
    requires ValidTokens(l.tokens) && trader != AmmContract && trade.amountIn > 0 && trade.outcome != Invalid
    requires trade.gross <= Balance(l.tokens, AmmContract, Side(m, trade.outcome)) + trade.amountIn
    requires trade.gross <= Balance(l.tokens, AmmContract, Side(m, Opposite(trade.outcome)))
    ensures SellTokens(l.vault, l.tokens, trader, m, trade).Ok? <==>
            && trade.gross > 0 && trade.amountIn <= Balance(l.tokens, trader, Side(m, trade.outcome))
            && ChildDebt(l.vault, Leg(m, trader)) <= 0
            && ParentDebt(l.vault, Position(m, trader, trade.outcome)) <= 0
  {
    hide MergePositions, TransferPosition, ValidTokens;
    var s := Side(m, trade.outcome);
    TransfersExactly(l.vault, l.tokens, trader, AmmContract, s, trade.amountIn);
    if TransferPosition(l.vault, l.tokens, trader, AmmContract, s, trade.amountIn).Ok? {
      var t1 := TransferPosition(l.vault, l.tokens, trader, AmmContract, s, trade.amountIn).value;
      TransferKeeps(l.vault, l.tokens, trader, AmmContract, s, trade.amountIn);
      MergesExactly(t1, m, trade.gross);
    }
  }

  lemma TransferKeeps(v: VaultState, t: TokenState, from: Address, to: Address, s: Side, amount: int)
    requires ValidTokens(t) && TransferPosition(v, t, from, to, s, amount).Ok?
    ensures ValidTokens(TransferPosition(v, t, from, to, s, amount).value)
  {
    hide ValidTokens;
    MoveKeeps(t, from, to, s, amount);
  }

  lemma MergesExactly(t: TokenState, m: nat, amount: int)
    requires ValidTokens(t)
    ensures MergePositions(t, AmmContract, m, amount).Ok? <==>
            && amount > 0
            && amount <= Balance(t, AmmContract, Side(m, Yes)) && amount <= Balance(t, AmmContract, Side(m, No))
  {
    hide ValidTokens;
    if amount > 0 {
      MergeNeverLacksBacking(t, AmmContract, m, amount);
    }
  }

  lemma SoldVaultExactly(v: VaultState, reg: RegistryState, q: Position, trade: Trade, split: FeeSplit)
    requires trade.amountIn > 0 && q.market in reg.markets
    requires split.lp >= 0 && split.protocol >= 0 && split.cod >= 0
    requires split.lp + split.protocol + split.cod == trade.fee
    ensures SellVault(v, reg, q, trade, split).Ok? <==>
            && trade.gross - trade.fee > 0
            && ChildDebt(v, Leg(q.market, q.user)) <= 0 && ParentDebt(v, q) <= 0
            && BookHas(v, q.market, trade.gross) && trade.gross - trade.fee <= v.purse.balance
  {
  }
}
