// What a trade does to the trader: the tokens and the collateral that change hands across the three contracts.

module LedgerTrades {
  import opened DikeTypes
  import opened DikeMath
  import opened MarketRegistry
  import opened PoolQuotes
  import opened TokenLedger
  import opened VaultLedger
  import opened AmmPools
  import opened LedgerPools

  function Product(r: Reserves): int {
    r.yes * r.no
  }

  /** A purchase pays exactly the quoted tokens, at least the minimum asked for and more than the collateral that
      backs them; cash enters the vault, credit moves none; the product of the reserves does not grow. */
  lemma BuyDelivers(l: Ledger, now: nat, trader: Address, id: nat, amountIn: int, minOut: int, deadline: nat,
                    yes: bool, parent: Parent, s: Side)
    requires Buy(l, now, trader, id, amountIn, minOut, deadline, yes, parent).Ok?
    ensures var (l', out) := Buy(l, now, trader, id, amountIn, minOut, deadline, yes, parent).value;
            && id in l.amm.pools && id in l'.amm.pools
            && var pool := l.amm.pools[id];
            && trader.Account? && now <= deadline
            && out >= minOut && out > SplitFee(amountIn, pool.fee.tradingFeeBps).1 > 0
            && Balance(l'.tokens, trader, s) ==
               Balance(l.tokens, trader, s) + (if s == Side(pool.market, SideOf(yes)) then out else 0)
            && l'.vault.purse.balance == l.vault.purse.balance + (if parent.NoParent? then amountIn else 0)
            && Product(l'.amm.pools[id].reserves) <= Product(pool.reserves)
  {
    hide RequireLive, PriceBuy, BuyVault, BuyTokens, SplitTradingFee, AfterBuy, Product, QuoteBuy;
    var pool := l.amm.pools[id];
    var trade := PriceBuy(pool, amountIn, SideOf(yes)).value;
    var split := SplitTradingFee(trade.fee, pool.fee);
    var v := BuyVault(l.vault, l.reg, trader, pool.market, parent, trade, split).value;
    PricedBuy(pool, amountIn, SideOf(yes));
    LiveBeforeDeadline(l, pool, now, deadline);
    BuyTokensGot(v, l.tokens, trader, pool.market, trade, s);
    BuyVaultPaid(l.vault, l.reg, trader, pool.market, parent, trade, split);
    AfterBuyProduct(pool, trade, split);
  }

  lemma PricedBuy(pool: Pool, amountIn: int, outcome: Outcome)
    requires PriceBuy(pool, amountIn, outcome).Ok?
    ensures var trade := PriceBuy(pool, amountIn, outcome).value;
            var net := trade.amountIn - trade.fee;
            var (own, other) := (pool.reserves.Of(outcome), pool.reserves.Of(Opposite(outcome)));
            && trade.outcome == outcome && trade.amountIn == amountIn
            && net == SplitFee(amountIn, pool.fee.tradingFeeBps).1
            && 0 < net < trade.gross
            && (own + net - trade.gross) * (other + net) <= own * other
  {
    var net := SplitFee(amountIn, pool.fee.tradingFeeBps).1;
    var own, other := pool.reserves.Of(outcome), pool.reserves.Of(Opposite(outcome));
    assert own > 0 && other > 0 && net > 0;
    hide QuoteBuy;
    BuyAgainstProduct(own, other, net);
  }

  lemma LiveBeforeDeadline(l: Ledger, pool: Pool, now: nat, deadline: nat)
    requires RequireLive(l, pool, now, deadline).Ok?
    ensures now <= deadline && !l.amm.paused && pool.live
  {
  }

  lemma BuyTokensGot(v: VaultState, t: TokenState, trader: Address, m: nat, trade: Trade, s: Side)
    requires BuyTokens(v, t, trader, m, trade).Ok? && trader != AmmContract
    ensures Balance(BuyTokens(v, t, trader, m, trade).value, trader, s) ==
            Balance(t, trader, s) + (if s == Side(m, trade.outcome) then trade.gross else 0)
  {
    hide MintCompleteSet, TransferPosition;
    var net := trade.amountIn - trade.fee;
    MintExactly(t, AmmContract, m, net, trader, s);
    var t1 := MintCompleteSet(t, AmmContract, m, net).value;
    TransferExactly(v, t1, AmmContract, trader, Side(m, trade.outcome), trade.gross, trader, s);
  }

  lemma BuyVaultPaid(v: VaultState, reg: RegistryState, trader: Address, m: nat, parent: Parent, trade: Trade,
                     split: FeeSplit)
    requires BuyVault(v, reg, trader, m, parent, trade, split).Ok?
    ensures BuyVault(v, reg, trader, m, parent, trade, split).value.purse.balance ==
            v.purse.balance + (if parent.NoParent? then trade.amountIn else 0)
  {
  }

  lemma AfterBuyProduct(pool: Pool, trade: Trade, split: FeeSplit)
    requires var net := trade.amountIn - trade.fee;
             var (own, other) := (pool.reserves.Of(trade.outcome), pool.reserves.Of(Opposite(trade.outcome)));
             (own + net - trade.gross) * (other + net) <= own * other
    requires trade.outcome != Invalid
    ensures Product(AfterBuy(pool, trade, split).reserves) <= Product(pool.reserves)
  {
  }

  /** A sale takes exactly the tokens offered and pays at least the minimum, out of the vault; it is refused while
      the position or its market owes anything. */
  lemma SellDelivers(l: Ledger, now: nat, trader: Address, id: nat, amountIn: int, minOut: int, deadline: nat,
                     yes: bool, s: Side)
    requires Sell(l, now, trader, id, amountIn, minOut, deadline, yes).Ok?
    ensures var (l', paid) := Sell(l, now, trader, id, amountIn, minOut, deadline, yes).value;
            && id in l.amm.pools
            && var pool := l.amm.pools[id];
            && trader.Account? && now <= deadline
            && paid >= minOut && paid > 0
            && Balance(l'.tokens, trader, s) ==
               Balance(l.tokens, trader, s) - (if s == Side(pool.market, SideOf(yes)) then amountIn else 0)
            && l'.vault.purse.balance == l.vault.purse.balance - paid
            && ChildDebt(l.vault, Leg(pool.market, trader)) <= 0
            && ParentDebt(l.vault, Position(pool.market, trader, SideOf(yes))) <= 0
  {
    hide RequireLive, PriceSell, SellVault, SellTokens, SplitTradingFee, AfterSell;
    var pool := l.amm.pools[id];
    var trade := PriceSell(pool, amountIn, SideOf(yes)).value;
    var split := SplitTradingFee(trade.fee, pool.fee);
    PricedSell(pool, amountIn, SideOf(yes));
    LiveBeforeDeadline(l, pool, now, deadline);
    SellTokensGone(l.vault, l.tokens, trader, pool.market, trade, s);
    SellVaultPaid(l.vault, l.reg, Position(pool.market, trader, trade.outcome), trade, split);
  }

  lemma PricedSell(pool: Pool, amountIn: int, outcome: Outcome)
    requires PriceSell(pool, amountIn, outcome).Ok?
    ensures var trade := PriceSell(pool, amountIn, outcome).value;
            && trade.outcome == outcome && trade.amountIn == amountIn && amountIn > 0
  {
  }

  lemma SellTokensGone(v: VaultState, t: TokenState, trader: Address, m: nat, trade: Trade, s: Side)
    requires SellTokens(v, t, trader, m, trade).Ok? && trader != AmmContract
    ensures Balance(SellTokens(v, t, trader, m, trade).value, trader, s) ==
            Balance(t, trader, s) - (if s == Side(m, trade.outcome) then trade.amountIn else 0)
  {
    hide MergePositions, TransferPosition;
    TransferExactly(v, t, trader, AmmContract, Side(m, trade.outcome), trade.amountIn, trader, s);
    var t1 := TransferPosition(v, t, trader, AmmContract, Side(m, trade.outcome), trade.amountIn).value;
    MergeExactly(t1, AmmContract, m, trade.gross, trader, s);
  }

  lemma SellVaultPaid(v: VaultState, reg: RegistryState, q: Position, trade: Trade, split: FeeSplit)
    requires SellVault(v, reg, q, trade, split).Ok?
    ensures var paid := trade.gross - trade.fee;
            && paid > 0
            && SellVault(v, reg, q, trade, split).value.purse.balance == v.purse.balance - paid
            && ChildDebt(v, Leg(q.market, q.user)) <= 0 && ParentDebt(v, q) <= 0
  {
    hide ExtractProceeds;
    ExtractBalance(v, q, trade.amountIn, trade.gross - trade.fee);
  }

  lemma ExtractBalance(v: VaultState, q: Position, tokensSold: int, proceeds: int)
    requires ExtractProceeds(v, q, tokensSold, proceeds).Ok?
    ensures ExtractProceeds(v, q, tokensSold, proceeds).value.purse.balance == v.purse.balance
  {
  }

  /** Only a position in debt whose sale would no longer clear that debt by five per cent can be liquidated, and
      then all of its tokens are sold. */
  lemma LiquidatesUnderwater(l: Ledger, now: nat, liquidator: Address, user: Address, id: nat, outcome: Outcome)
    requires Liquidate(l, now, liquidator, user, id, outcome).Ok? && user != AmmContract && outcome != Invalid
    ensures var (l', r) := Liquidate(l, now, liquidator, user, id, outcome).value;
            && id in l.amm.pools
            && var q := Position(l.amm.pools[id].market, user, outcome);
            && Used(l.vault, q) != 0
            && r.proceeds <= Bps(Used(l.vault, q), LIQUIDATION_THRESHOLD_BPS)
            && Balance(l.tokens, user, Side(q.market, outcome)) > 0
            && Balance(l'.tokens, user, Side(q.market, outcome)) == 0
            && r.proceeds == r.bonus + r.debtRepaid + r.remainder
  {
    hide PriceLiquidation, ForceSell, LiquidateRelease;
    var (pool, trade) := PriceLiquidation(l, now, liquidator, user, id, outcome, false).value;
    var q := Position(pool.market, user, outcome);
    PricedLiquidation(l, now, liquidator, user, id, outcome);
    var l1 := ForceSell(l, user, id, pool, trade).value;
    ForcedTokens(l, user, id, pool, trade);
    ReceiptProceeds(l1.vault, l1.reg, q, trade.amountIn, trade.gross - trade.fee);
  }

  lemma PricedLiquidation(l: Ledger, now: nat, liquidator: Address, user: Address, id: nat, outcome: Outcome)
    requires PriceLiquidation(l, now, liquidator, user, id, outcome, false).Ok? && outcome != Invalid
    ensures var (pool, trade) := PriceLiquidation(l, now, liquidator, user, id, outcome, false).value;
            var debt := Used(l.vault, Position(pool.market, user, outcome));
            && id in l.amm.pools && pool == l.amm.pools[id]
            && debt != 0 && trade.gross - trade.fee <= Bps(debt, LIQUIDATION_THRESHOLD_BPS)
            && trade.outcome == outcome
            && trade.amountIn == Balance(l.tokens, user, Side(pool.market, outcome)) > 0
  {
    hide RequireLive, QuoteSell, SplitFee, Bps, Balance;
  }

  lemma ForcedTokens(l: Ledger, user: Address, id: nat, pool: Pool, trade: Trade)
    requires ForceSell(l, user, id, pool, trade).Ok? && user != AmmContract
    ensures Balance(ForceSell(l, user, id, pool, trade).value.tokens, user, Side(pool.market, trade.outcome)) ==
            Balance(l.tokens, user, Side(pool.market, trade.outcome)) - trade.amountIn
  {
    hide MergePositions, MovePosition, CollectFee, AfterSell, SplitTradingFee;
    var s := Side(pool.market, trade.outcome);
    MoveExactly(l.tokens, user, AmmContract, s, trade.amountIn);
    var t1 := MovePosition(l.tokens, user, AmmContract, s, trade.amountIn).value;
    assert Balance(t1, user, s) == Balance(l.tokens, user, s) - trade.amountIn;
    MergeExactly(t1, AmmContract, pool.market, trade.gross, user, s);
  }

  lemma ReceiptProceeds(v: VaultState, reg: RegistryState, q: Position, tokensSold: int, proceeds: int)
    requires LiquidateRelease(v, reg, q, tokensSold, proceeds).Ok?
    ensures var r := LiquidateRelease(v, reg, q, tokensSold, proceeds).value.1;
            r.proceeds == proceeds == r.bonus + r.debtRepaid + r.remainder
  {
    hide ExtractProceeds, RouteProceeds, Bps;
  }
}
