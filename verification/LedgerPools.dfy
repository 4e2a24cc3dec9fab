// Pools across every call: the token ledger keeps its complete sets, the pool owns what its reserves say,
// and the fees set aside in the vault cover what the providers of each pool have earned.

module LedgerPools {
  import opened DikeTypes
  import opened DikeMath
  import opened MarketRegistry
  import opened PoolQuotes
  import opened TokenLedger
  import opened VaultLedger
  import opened VaultClaims
  import opened VaultDebts
  import opened AmmPools
  import opened LpLaws
  import opened LedgerCalls
  import opened LedgerMoney
  import opened LedgerCustody

  function LpFees(v: VaultState, k: nat): int {
    AccountOf(v, k).fees.lp
  }

  /** What the pool contract holds of an outcome of market m. */
  function Held(t: TokenState, m: nat, outcome: Outcome): int {
    Balance(t, AmmContract, Side(m, outcome))
  }

  /** The providers are covered, and the reserves are there. */
  ghost predicate PoolSound(pool: Pool, lpFees: int, heldYes: int, heldNo: int) {
    && ValidBook(pool.lp) && FeesCovered(pool.lp, lpFees)
    && 0 <= pool.reserves.yes <= heldYes
    && 0 <= pool.reserves.no <= heldNo
  }

  ghost predicate PoolSoundIn(l: Ledger, id: nat)
    requires id in l.amm.pools
  {
    PoolSound(l.amm.pools[id], LpFees(l.vault, id), Held(l.tokens, id, Yes), Held(l.tokens, id, No))
  }

  /** One pool per market, under the market's own number. */
  ghost predicate PoolsNumbered(amm: AmmState) {
    forall id :: id in amm.pools ==> id < amm.nextPoolId && amm.pools[id].market == id
  }

  ghost predicate PoolsSound(l: Ledger) {
    && PoolsNumbered(l.amm)
    && forall id :: id in l.amm.pools ==> PoolSoundIn(l, id)
  }

  // ---------------------------------------------------------------- balances

  lemma MintExactly(t: TokenState, to: Address, m: nat, amount: int, owner: Address, s: Side)
    requires MintCompleteSet(t, to, m, amount).Ok?
    ensures Balance(MintCompleteSet(t, to, m, amount).value, owner, s) == Balance(t, owner, s)
              + (if owner == to && s.market == m && s.outcome != Invalid then amount else 0)
  {
  }

  lemma MergeExactly(t: TokenState, user: Address, m: nat, amount: int, owner: Address, s: Side)
    requires MergePositions(t, user, m, amount).Ok?
    ensures Balance(MergePositions(t, user, m, amount).value, owner, s) == Balance(t, owner, s)
              - (if owner == user && s.market == m && s.outcome != Invalid then amount else 0)
  {
  }

  lemma TransferExactly(v: VaultState, t: TokenState, from: Address, to: Address, side: Side, amount: int,
                        owner: Address, s: Side)
    requires TransferPosition(v, t, from, to, side, amount).Ok?
    ensures Balance(TransferPosition(v, t, from, to, side, amount).value, owner, s) == Balance(t, owner, s)
              - (if owner == from && s == side then amount else 0)
              + (if owner == to && s == side then amount else 0)
  {
    MoveExactly(t, from, to, side, amount);
  }

  lemma BuyTokensHeld(v: VaultState, t: TokenState, trader: Address, m: nat, trade: Trade, k: nat, o: Outcome)
    requires BuyTokens(v, t, trader, m, trade).Ok? && trader != AmmContract && o != Invalid
    ensures Held(BuyTokens(v, t, trader, m, trade).value, k, o) == Held(t, k, o)
              + (if k == m then trade.amountIn - trade.fee else 0)
              - (if k == m && o == trade.outcome then trade.gross else 0)
  {
    hide MintCompleteSet, TransferPosition;
    var net := trade.amountIn - trade.fee;
    MintExactly(t, AmmContract, m, net, AmmContract, Side(k, o));
    var t1 := MintCompleteSet(t, AmmContract, m, net).value;
    TransferExactly(v, t1, AmmContract, trader, Side(m, trade.outcome), trade.gross, AmmContract, Side(k, o));
  }

  lemma SellTokensHeld(v: VaultState, t: TokenState, trader: Address, m: nat, trade: Trade, k: nat, o: Outcome)
    requires SellTokens(v, t, trader, m, trade).Ok? && trader != AmmContract && o != Invalid
    ensures Held(SellTokens(v, t, trader, m, trade).value, k, o) == Held(t, k, o)
              - (if k == m then trade.gross else 0)
              + (if k == m && o == trade.outcome then trade.amountIn else 0)
  {
    hide MergePositions, TransferPosition;
    TransferExactly(v, t, trader, AmmContract, Side(m, trade.outcome), trade.amountIn, AmmContract, Side(k, o));
    var t1 := TransferPosition(v, t, trader, AmmContract, Side(m, trade.outcome), trade.amountIn).value;
    MergeExactly(t1, AmmContract, m, trade.gross, AmmContract, Side(k, o));
  }

  lemma ForceTokensHeld(t: TokenState, user: Address, m: nat, trade: Trade, k: nat, o: Outcome)
    requires ForceTokens(t, user, m, trade).Ok? && user != AmmContract && o != Invalid
    ensures Held(ForceTokens(t, user, m, trade).value, k, o) == Held(t, k, o)
              - (if k == m then trade.gross else 0)
              + (if k == m && o == trade.outcome then trade.amountIn else 0)
  {
    hide MergePositions, MovePosition;
    MoveExactly(t, user, AmmContract, Side(m, trade.outcome), trade.amountIn);
    var t1 := MovePosition(t, user, AmmContract, Side(m, trade.outcome), trade.amountIn).value;
    assert Held(t1, k, o) == Balance(t1, AmmContract, Side(k, o));
    MergeExactly(t1, AmmContract, m, trade.gross, AmmContract, Side(k, o));
  }

  // ---------------------------------------------------------------- prices

  /** A priced trade leaves both reserves non-negative. */
  predicate FitsBuy(pool: Pool, trade: Trade) {
    trade.outcome != Invalid && trade.gross <= pool.reserves.Of(trade.outcome) + trade.amountIn - trade.fee
    && trade.amountIn >= trade.fee
  }

  predicate FitsSell(pool: Pool, trade: Trade) {
    && trade.outcome != Invalid
    && trade.gross <= pool.reserves.Of(trade.outcome) + trade.amountIn
    && trade.gross <= pool.reserves.Of(Opposite(trade.outcome))
  }

  lemma PriceBuyFits(pool: Pool, amountIn: int, outcome: Outcome)
    requires outcome != Invalid && PriceBuy(pool, amountIn, outcome).Ok?
    ensures FitsBuy(pool, PriceBuy(pool, amountIn, outcome).value)
    ensures PriceBuy(pool, amountIn, outcome).value.outcome == outcome
  {
    hide QuoteBuy;
    var net := SplitFee(amountIn, pool.fee.tradingFeeBps).1;
    QuoteBuyWithin(pool.reserves.Of(outcome), pool.reserves.Of(Opposite(outcome)), net);
  }

  lemma QuoteBuyWithin(o: int, p: int, n: int)
    requires QuoteBuy(o, p, n).Ok?
    ensures o > 0 && p > 0 && n > 0 && QuoteBuy(o, p, n).value <= o + n
  {
    BuyAgainstProduct(o, p, n);
  }

  lemma PriceSellFits(pool: Pool, amountIn: int, outcome: Outcome)
    requires outcome != Invalid && PriceSell(pool, amountIn, outcome).Ok?
    ensures FitsSell(pool, PriceSell(pool, amountIn, outcome).value)
    ensures PriceSell(pool, amountIn, outcome).value.outcome == outcome
  {
    hide QuoteSell;
    QuoteSellWithin(pool.reserves.Of(outcome), pool.reserves.Of(Opposite(outcome)), amountIn);
  }

  lemma QuoteSellWithin(o: int, p: int, a: int)
    requires QuoteSell(o, p, a).Ok?
    ensures o > 0 && p > 0 && a > 0
    ensures QuoteSell(o, p, a).value <= o + a && QuoteSell(o, p, a).value <= p
  {
    SellWithinReserves(o, p, a);
  }

  // ---------------------------------------------------------------- fees

  lemma CollectLpFees(v: VaultState, m: nat, split: FeeSplit, k: nat)
    requires CollectFee(v, m, split.lp, split.protocol, split.cod).Ok?
    ensures LpFees(CollectFee(v, m, split.lp, split.protocol, split.cod).value, k) ==
            LpFees(v, k) + (if k == m then split.lp else 0)
    ensures split.lp >= 0
  {
    CollectFeeClaims(v, m, split.lp, split.protocol, split.cod, k);
  }

  lemma BuyVaultFees(v: VaultState, reg: RegistryState, trader: Address, m: nat, parent: Parent, trade: Trade,
                     split: FeeSplit, k: nat)
    requires BuyVault(v, reg, trader, m, parent, trade, split).Ok?
    ensures LpFees(BuyVault(v, reg, trader, m, parent, trade, split).value, k) ==
            LpFees(v, k) + (if k == m then split.lp else 0)
    ensures split.lp >= 0
  {
    hide PayIn, CollectFee;
    PayInFees(v, reg, trader, m, parent, trade, k);
    CollectLpFees(PayIn(v, reg, trader, m, parent, trade).value, m, split, k);
  }

  lemma PayInFees(v: VaultState, reg: RegistryState, trader: Address, m: nat, parent: Parent, trade: Trade, k: nat)
    requires PayIn(v, reg, trader, m, parent, trade).Ok?
    ensures LpFees(PayIn(v, reg, trader, m, parent, trade).value, k) == LpFees(v, k)
  {
    hide OpenCredit, Deposit;
    match parent
    case FromParent(q) => OpenCreditClaims(v, reg, Position(q.market, trader, q.outcome), m, trade.amountIn, k);
    case NoParent => DepositClaims(v, reg, m, trade.amountIn, k);
  }

  lemma SellVaultFees(v: VaultState, reg: RegistryState, q: Position, trade: Trade, split: FeeSplit, k: nat)
    requires SellVault(v, reg, q, trade, split).Ok?
    ensures LpFees(SellVault(v, reg, q, trade, split).value, k) ==
            LpFees(v, k) + (if k == q.market then split.lp else 0)
    ensures split.lp >= 0
  {
    hide ReleaseTradePayout, CollectFee;
    ReleaseTradePayoutClaims(v, reg, q, trade.amountIn, trade.gross - trade.fee, k);
    CollectLpFees(ReleaseTradePayout(v, reg, q, trade.amountIn, trade.gross - trade.fee).value, q.market, split, k);
  }

  // ---------------------------------------------------------------- trades

  /** The pool after a trade, given what the other two ledgers did. */
  lemma AfterBuySound(pool: Pool, trade: Trade, split: FeeSplit, lpFees: int, heldYes: int, heldNo: int)
    requires PoolSound(pool, lpFees, heldYes, heldNo) && FitsBuy(pool, trade) && split.lp >= 0
    ensures var net := trade.amountIn - trade.fee;
            PoolSound(AfterBuy(pool, trade, split), lpFees + split.lp,
                      heldYes + net - (if trade.outcome == Yes then trade.gross else 0),
                      heldNo + net - (if trade.outcome == No then trade.gross else 0))
  {
    hide ValidBook, FeesCovered, AccrueFees;
    AccrueKeeps(pool.lp, lpFees, split.lp);
  }

  lemma AfterSellSound(pool: Pool, trade: Trade, split: FeeSplit, lpFees: int, heldYes: int, heldNo: int)
    requires PoolSound(pool, lpFees, heldYes, heldNo) && FitsSell(pool, trade) && split.lp >= 0
    ensures PoolSound(AfterSell(pool, trade, split), lpFees + split.lp,
                      heldYes - trade.gross + (if trade.outcome == Yes then trade.amountIn else 0),
                      heldNo - trade.gross + (if trade.outcome == No then trade.amountIn else 0))
  {
    hide ValidBook, FeesCovered, AccrueFees;
    AccrueKeeps(pool.lp, lpFees, split.lp);
  }

  lemma SettleBuyPools(l: Ledger, trader: Address, id: nat, pool: Pool, trade: Trade, parent: Parent)
    requires id in l.amm.pools && pool == l.amm.pools[id] && trader != AmmContract && FitsBuy(pool, trade)
    requires SettleBuy(l, trader, id, pool, trade, parent).Ok? && PoolsSound(l)
    ensures PoolsSound(SettleBuy(l, trader, id, pool, trade, parent).value.0)
  {
    hide BuyVault, BuyTokens, AfterBuy, PoolSound, LpFees, Held, FitsBuy, SplitTradingFee;
    var split := SplitTradingFee(trade.fee, pool.fee);
    var l' := SettleBuy(l, trader, id, pool, trade, parent).value.0;
    assert PoolSoundIn(l, id);
    forall j | j in l'.amm.pools ensures j < l'.amm.nextPoolId && l'.amm.pools[j].market == j && PoolSoundIn(l', j) {
      BuyVaultFees(l.vault, l.reg, trader, id, parent, trade, split, j);
      BuyTokensHeld(l'.vault, l.tokens, trader, id, trade, j, Yes);
      BuyTokensHeld(l'.vault, l.tokens, trader, id, trade, j, No);
      AfterBuyFrame(pool, trade, split);
      if j == id {
        AfterBuySound(pool, trade, split, LpFees(l.vault, id), Held(l.tokens, id, Yes), Held(l.tokens, id, No));
      } else {
        assert PoolSoundIn(l, j);
      }
    }
  }

  lemma AfterBuyFrame(pool: Pool, trade: Trade, split: FeeSplit)
    ensures AfterBuy(pool, trade, split).market == pool.market
    ensures AfterSell(pool, trade, split).market == pool.market
  {
  }

  lemma SettleSellPools(l: Ledger, trader: Address, id: nat, pool: Pool, trade: Trade)
    requires id in l.amm.pools && pool == l.amm.pools[id] && trader != AmmContract && FitsSell(pool, trade)
    requires SettleSell(l, trader, id, pool, trade).Ok? && PoolsSound(l)
    ensures PoolsSound(SettleSell(l, trader, id, pool, trade).value.0)
  {
    hide SellVault, SellTokens, AfterSell, PoolSound, LpFees, Held, FitsSell, SplitTradingFee;
    var split := SplitTradingFee(trade.fee, pool.fee);
    var q := Position(id, trader, trade.outcome);
    var l' := SettleSell(l, trader, id, pool, trade).value.0;
    assert PoolSoundIn(l, id);
    forall j | j in l'.amm.pools ensures j < l'.amm.nextPoolId && l'.amm.pools[j].market == j && PoolSoundIn(l', j) {
      SellVaultFees(l.vault, l.reg, q, trade, split, j);
      SellTokensHeld(l.vault, l.tokens, trader, id, trade, j, Yes);
      SellTokensHeld(l.vault, l.tokens, trader, id, trade, j, No);
      AfterBuyFrame(pool, trade, split);
      if j == id {
        AfterSellSound(pool, trade, split, LpFees(l.vault, id), Held(l.tokens, id, Yes), Held(l.tokens, id, No));
      } else {
        assert PoolSoundIn(l, j);
      }
    }
  }

  lemma ForceSellPools(l: Ledger, user: Address, id: nat, pool: Pool, trade: Trade)
    requires id in l.amm.pools && pool == l.amm.pools[id] && user != AmmContract && FitsSell(pool, trade)
    requires ForceSell(l, user, id, pool, trade).Ok? && PoolsSound(l)
    ensures PoolsSound(ForceSell(l, user, id, pool, trade).value)
  {
    hide CollectFee, ForceTokens, AfterSell, PoolSound, LpFees, Held, FitsSell, SplitTradingFee;
    var split := SplitTradingFee(trade.fee, pool.fee);
    var l' := ForceSell(l, user, id, pool, trade).value;
    assert PoolSoundIn(l, id);
    forall j | j in l'.amm.pools ensures j < l'.amm.nextPoolId && l'.amm.pools[j].market == j && PoolSoundIn(l', j) {
      CollectLpFees(l.vault, id, split, j);
      ForceTokensHeld(l.tokens, user, id, trade, j, Yes);
      ForceTokensHeld(l.tokens, user, id, trade, j, No);
      AfterBuyFrame(pool, trade, split);
      if j == id {
        AfterSellSound(pool, trade, split, LpFees(l.vault, id), Held(l.tokens, id, Yes), Held(l.tokens, id, No));
      } else {
        assert PoolSoundIn(l, j);
      }
    }
  }

  /** The vault changes nothing a pool relies on. */
  lemma SameFeesPools(l: Ledger, l': Ledger)
    requires PoolsSound(l) && l'.amm.pools == l.amm.pools && l'.amm.nextPoolId == l.amm.nextPoolId
    requires forall k: nat :: LpFees(l'.vault, k) == LpFees(l.vault, k)
    requires forall k: nat :: Held(l'.tokens, k, Yes) >= Held(l.tokens, k, Yes)
    requires forall k: nat :: Held(l'.tokens, k, No) >= Held(l.tokens, k, No)
    ensures PoolsSound(l')
  {
    forall j | j in l'.amm.pools ensures PoolSoundIn(l', j) {
      assert PoolSoundIn(l, j);
    }
  }

  lemma LiquidationPools(l: Ledger, user: Address, id: nat, pool: Pool, trade: Trade, q: Position)
    requires id in l.amm.pools && pool == l.amm.pools[id] && user != AmmContract && FitsSell(pool, trade)
    requires PoolsSound(l)
    ensures var r := SettleLiquidation(l, user, id, pool, trade, q);
            r.Ok? ==> PoolsSound(r.value.0)
    ensures var r := SettleLegLiquidation(l, user, id, pool, trade, q);
            r.Ok? ==> PoolsSound(r.value.0)
  {
    hide ForceSell, LiquidateRelease, LiquidateChildRelease, PoolsSound, FitsSell;
    if ForceSell(l, user, id, pool, trade).Ok? {
      ForceSellPools(l, user, id, pool, trade);
      var l1 := ForceSell(l, user, id, pool, trade).value;
      var sold, net := trade.amountIn, trade.gross - trade.fee;
      if LiquidateRelease(l1.vault, l1.reg, q, sold, net).Ok? {
        var v := LiquidateRelease(l1.vault, l1.reg, q, sold, net).value.0;
        forall k: nat ensures LpFees(v, k) == LpFees(l1.vault, k) {
          LiquidateReleaseClaims(l1.vault, l1.reg, q, sold, net, k);
        }
        SameFeesPools(l1, l1.(vault := v));
      }
      if LiquidateChildRelease(l1.vault, l1.reg, q, sold, net).Ok? {
        var v := LiquidateChildRelease(l1.vault, l1.reg, q, sold, net).value.0;
        forall k: nat ensures LpFees(v, k) == LpFees(l1.vault, k) {
          LiquidateChildReleaseClaims(l1.vault, l1.reg, q, sold, net, k);
        }
        SameFeesPools(l1, l1.(vault := v));
      }
    }
  }

  /** Whoever is liquidated owes something, so it is not the pool contract. */
  lemma LiquidatedUser(l: Ledger, now: nat, liquidator: Address, user: Address, id: nat, outcome: Outcome,
                       isChild: bool)
    requires SoundDebts(l.vault) && PriceLiquidation(l, now, liquidator, user, id, outcome, isChild).Ok?
    ensures user != AmmContract
    ensures var (pool, trade) := PriceLiquidation(l, now, liquidator, user, id, outcome, isChild).value;
            id in l.amm.pools && pool == l.amm.pools[id] && FitsSell(pool, trade)
  {
    hide SoundDebts, PriceSell, RequireLive;
    var pool := l.amm.pools[id];
    ContractsOweNothing(l.vault, Position(pool.market, user, outcome), Leg(pool.market, user));
    PriceSellFits(pool, Balance(l.tokens, user, Side(pool.market, outcome)), SideOf(outcome == Yes));
  }

  lemma TradePools(l: Ledger, now: nat, call: Call)
    requires call.Purchase? || call.Sale? || call.Liquidation? || call.LegLiquidation?
    requires ApplyTrade(l, now, call).Ok? && PoolsSound(l) && SoundDebts(l.vault)
    ensures PoolsSound(ApplyTrade(l, now, call).value)
  {
    hide PoolsSound, SoundDebts, SettleBuy, SettleSell, SettleLiquidation, SettleLegLiquidation, RequireLive,
         PriceBuy, PriceSell, PriceLiquidation, FitsBuy, FitsSell;
    match call
    case Purchase(trader, id, amountIn, _, _, yes, parent) =>
      var pool := l.amm.pools[id];
      PriceBuyFits(pool, amountIn, SideOf(yes));
      SettleBuyPools(l, trader, id, pool, PriceBuy(pool, amountIn, SideOf(yes)).value, parent);
    case Sale(trader, id, amountIn, _, _, yes) =>
      var pool := l.amm.pools[id];
      PriceSellFits(pool, amountIn, SideOf(yes));
      SettleSellPools(l, trader, id, pool, PriceSell(pool, amountIn, SideOf(yes)).value);
    case Liquidation(liquidator, user, id, outcome) =>
      var (pool, trade) := PriceLiquidation(l, now, liquidator, user, id, outcome, false).value;
      LiquidatedUser(l, now, liquidator, user, id, outcome, false);
      LiquidationPools(l, user, id, pool, trade, Position(pool.market, user, outcome));
    case LegLiquidation(liquidator, user, id, outcome) =>
      var (pool, trade) := PriceLiquidation(l, now, liquidator, user, id, outcome, true).value;
      LiquidatedUser(l, now, liquidator, user, id, outcome, true);
      LiquidationPools(l, user, id, pool, trade, Position(pool.market, user, outcome));
  }

  // ---------------------------------------------------------------- liquidity

  lemma FundPoolEffects(l: Ledger, m: nat, amount: int, k: nat, o: Outcome)
    requires FundPool(l, m, amount).Ok? && o != Invalid
    ensures var l' := FundPool(l, m, amount).value;
            && LpFees(l'.vault, k) == LpFees(l.vault, k)
            && Held(l'.tokens, k, o) == Held(l.tokens, k, o) + (if k == m then amount else 0)
            && l'.amm == l.amm && l'.reg == l.reg && amount > 0
  {
    hide Deposit, MintCompleteSet;
    DepositClaims(l.vault, l.reg, m, amount, k);
    MintExactly(l.tokens, AmmContract, m, amount, AmmContract, Side(k, o));
    MintPositive(l.tokens, AmmContract, m, amount);
  }

  lemma MintPositive(t: TokenState, to: Address, m: nat, amount: int)
    requires MintCompleteSet(t, to, m, amount).Ok?
    ensures amount > 0
  {
  }

  lemma PayPendingFees(v: VaultState, reg: RegistryState, m: nat, pending: int, k: nat)
    requires PayPending(v, reg, m, pending).Ok? && pending >= 0
    ensures LpFees(PayPending(v, reg, m, pending).value, k) == LpFees(v, k) - (if k == m then pending else 0)
  {
    hide PayLpFees;
    if pending > 0 {
      PayLpFeesClaims(v, reg, m, pending, k);
    }
  }

  lemma HandOutHeld(v: VaultState, t: TokenState, lp: Address, m: nat, out: Reserves, k: nat, o: Outcome)
    requires HandOut(v, t, lp, m, out).Ok? && lp != AmmContract && o != Invalid
    ensures Held(HandOut(v, t, lp, m, out).value, k, o) == Held(t, k, o) - (if k == m then out.Of(o) else 0)
  {
    hide TransferPosition;
    TransferExactly(v, t, AmmContract, lp, Side(m, Yes), out.yes, AmmContract, Side(k, o));
    var t1 := TransferPosition(v, t, AmmContract, lp, Side(m, Yes), out.yes).value;
    TransferExactly(v, t1, AmmContract, lp, Side(m, No), out.no, AmmContract, Side(k, o));
  }

  /** One pool is replaced; the others see no change that matters to them. */
  lemma ReplacePool(l: Ledger, l': Ledger, id: nat, pool': Pool)
    requires PoolsSound(l) && id in l.amm.pools && l'.amm == SetPool(l.amm, id, pool')
    requires pool'.market == id
    requires PoolSound(pool', LpFees(l'.vault, id), Held(l'.tokens, id, Yes), Held(l'.tokens, id, No))
    requires forall k: nat :: k != id ==> LpFees(l'.vault, k) == LpFees(l.vault, k)
    requires forall k: nat :: k != id ==> Held(l'.tokens, k, Yes) == Held(l.tokens, k, Yes)
    requires forall k: nat :: k != id ==> Held(l'.tokens, k, No) == Held(l.tokens, k, No)
    ensures PoolsSound(l')
  {
    hide PoolSound, LpFees, Held;
    forall j | j in l'.amm.pools ensures PoolSoundIn(l', j) {
      if j != id {
        assert PoolSoundIn(l, j);
      }
    }
  }

  lemma SeedPools(l: Ledger, now: nat, lp: Address, id: nat, amount: int)
    requires Seed(l, now, lp, id, amount).Ok? && PoolsSound(l)
    ensures PoolsSound(Seed(l, now, lp, id, amount).value)
  {
    hide FundPool, RequireSeedable, LpFees, Held, SetLp, ValidBook, FeesCovered;
    var pool := l.amm.pools[id];
    assert PoolSoundIn(l, id);
    var l' := Seed(l, now, lp, id, amount).value;
    forall k: nat ensures LpFees(l'.vault, k) == LpFees(l.vault, k)
                  ensures Held(l'.tokens, k, Yes) == Held(l.tokens, k, Yes) + (if k == id then amount else 0)
                  ensures Held(l'.tokens, k, No) == Held(l.tokens, k, No) + (if k == id then amount else 0)
    {
      FundPoolEffects(l, id, amount, k, Yes);
      FundPoolEffects(l, id, amount, k, No);
    }
    FundPoolEffects(l, id, amount, id, Yes);
    SharesWithinTotal(pool.lp, lp);
    OwedIsPayable(pool.lp, LpFees(l.vault, id), lp);
    NothingOwedWithoutShares(pool.lp, lp);
    SetLpKeeps(pool.lp, LpFees(l.vault, id), lp, amount, amount);
    ReplacePool(l, l', id, Seeded(pool, lp, amount));
  }

  lemma NothingOwedWithoutShares(book: LpBook, lp: Address)
    ensures LpOf(book, lp).shares <= 0 ==> FeesOwed(book, lp) == 0
  {
  }

  lemma AddPools(l: Ledger, now: nat, lp: Address, id: nat, amount: int)
    requires Add(l, now, lp, id, amount).Ok? && PoolsSound(l)
    ensures PoolsSound(Add(l, now, lp, id, amount).value.0)
  {
    hide FundPool, RequireTradeable, SharesFor, PayPending, FeesOwed, LpFees, Held, SetLp, ValidBook, FeesCovered;
    var pool := l.amm.pools[id];
    assert PoolSoundIn(l, id);
    var (l', shares) := Add(l, now, lp, id, amount).value;
    var l1 := FundPool(l, id, amount).value;
    var pending := FeesOwed(pool.lp, lp);
    OwedIsPayable(pool.lp, LpFees(l.vault, id), lp);
    forall k: nat ensures LpFees(l'.vault, k) == LpFees(l.vault, k) - (if k == id then pending else 0)
                  ensures Held(l'.tokens, k, Yes) == Held(l.tokens, k, Yes) + (if k == id then amount else 0)
                  ensures Held(l'.tokens, k, No) == Held(l.tokens, k, No) + (if k == id then amount else 0)
    {
      FundPoolEffects(l, id, amount, k, Yes);
      FundPoolEffects(l, id, amount, k, No);
      PayPendingFees(l1.vault, l1.reg, id, pending, k);
    }
    FundPoolEffects(l, id, amount, id, Yes);
    SharesPositive(pool, amount);
    SharesWithinTotal(pool.lp, lp);
    SetLpKeeps(pool.lp, LpFees(l.vault, id), lp, LpOf(pool.lp, lp).shares + shares, pool.lp.total + shares);
    ReplacePool(l, l', id, Added(pool, lp, amount, shares));
  }

  lemma SharesPositive(pool: Pool, amount: int)
    requires SharesFor(pool, amount).Ok?
    ensures SharesFor(pool, amount).value > 0
  {
  }

  lemma RemovePools(l: Ledger, now: nat, lp: Address, id: nat, shares: int)
    requires Remove(l, now, lp, id, shares).Ok? && PoolsSound(l)
    ensures PoolsSound(Remove(l, now, lp, id, shares).value.0)
  {
    hide RequireRemovable, Withdrawal, HandOut, PayPending, FeesOwed, LpFees, Held, SetLp, ValidBook, FeesCovered;
    var pool := l.amm.pools[id];
    assert PoolSoundIn(l, id);
    var (l', out) := Remove(l, now, lp, id, shares).value;
    var pending := FeesOwed(pool.lp, lp);
    OwedIsPayable(pool.lp, LpFees(l.vault, id), lp);
    forall k: nat ensures LpFees(l'.vault, k) == LpFees(l.vault, k) - (if k == id then pending else 0)
                  ensures Held(l'.tokens, k, Yes) == Held(l.tokens, k, Yes) - (if k == id then out.yes else 0)
                  ensures Held(l'.tokens, k, No) == Held(l.tokens, k, No) - (if k == id then out.no else 0)
    {
      HandOutHeld(l'.vault, l.tokens, lp, id, out, k, Yes);
      HandOutHeld(l'.vault, l.tokens, lp, id, out, k, No);
      PayPendingFees(l.vault, l.reg, id, pending, k);
    }
    WithdrawalBounds(pool, shares);
    SharesWithinTotal(pool.lp, lp);
    SetLpKeeps(pool.lp, LpFees(l.vault, id), lp, LpOf(pool.lp, lp).shares - shares, pool.lp.total - shares);
    ReplacePool(l, l', id, Removed(pool, lp, shares, out));
  }

  lemma ClaimFeesPools(l: Ledger, lp: Address, id: nat)
    requires ClaimFees(l, lp, id).Ok? && PoolsSound(l)
    ensures PoolsSound(ClaimFees(l, lp, id).value.0)
  {
    hide PayLpFees, FeesOwed, LpFees, Held, SetLp, ValidBook, FeesCovered;
    var pool := l.amm.pools[id];
    assert PoolSoundIn(l, id);
    var owed := FeesOwed(pool.lp, lp);
    if owed > 0 {
      var l' := ClaimFees(l, lp, id).value.0;
      var shares := LpOf(pool.lp, lp).shares;
      forall k: nat ensures LpFees(l'.vault, k) == LpFees(l.vault, k) - (if k == id then owed else 0) {
        PayLpFeesExactly(l.vault, l.reg, id, owed, k);
      }
      SetLpKeeps(pool.lp, LpFees(l.vault, id), lp, shares, pool.lp.total);
      ReplacePool(l, l', id, pool.(lp := SetLp(pool.lp, lp, shares, pool.lp.total)));
    }
  }

  lemma PayLpFeesExactly(v: VaultState, reg: RegistryState, m: nat, amount: int, k: nat)
    requires PayLpFees(v, reg, m, amount).Ok?
    ensures LpFees(PayLpFees(v, reg, m, amount).value, k) == LpFees(v, k) - (if k == m then amount else 0)
  {
    hide PayLpFees;
    PayLpFeesClaims(v, reg, m, amount, k);
  }

  lemma CreateMarketPools(l: Ledger, now: nat, creator: Address, terms: Terms, fee: FeeConfig, liquidity: int)
    requires CreateMarket(l, now, creator, terms, fee, liquidity).Ok? && PoolsSound(l)
    requires LpFees(l.vault, l.amm.nextPoolId) >= 0
    requires Held(l.tokens, l.amm.nextPoolId, Yes) >= 0 && Held(l.tokens, l.amm.nextPoolId, No) >= 0
    ensures PoolsSound(CreateMarket(l, now, creator, terms, fee, liquidity).value.0)
  {
    hide Seed, PoolsSound, RegisterMarket, CreatePool, Transition, LpFees, Held;
    var (reg, m) := RegisterMarket(l.reg, now, terms).value;
    var (amm, id) := CreatePool(l.amm, m, fee).value;
    var l1 := l.(reg := reg, amm := amm);
    CreatePoolSound(l, m, fee, l1);
    SeedPools(l1, now, creator, id, liquidity);
    var l2 := Seed(l1, now, creator, id, liquidity).value;
    SameFeesPools(l2, CreateMarket(l, now, creator, terms, fee, liquidity).value.0);
  }

  /** A new pool starts empty, and nobody has earned anything in it. */
  lemma CreatePoolSound(l: Ledger, m: nat, fee: FeeConfig, l1: Ledger)
    requires PoolsSound(l) && CreatePool(l.amm, m, fee).Ok? && CreatePool(l.amm, m, fee).value.1 == m
    requires l1.amm == CreatePool(l.amm, m, fee).value.0 && l1.vault == l.vault && l1.tokens == l.tokens
    requires LpFees(l.vault, l.amm.nextPoolId) >= 0
    requires Held(l.tokens, l.amm.nextPoolId, Yes) >= 0 && Held(l.tokens, l.amm.nextPoolId, No) >= 0
    ensures PoolsSound(l1)
  {
    hide LpFees, Held, ValidBook, FeesCovered;
    EmptyBook(LpFees(l.vault, m));
    forall j | j in l1.amm.pools ensures PoolSoundIn(l1, j) {
      if j != m {
        assert PoolSoundIn(l, j);
      }
    }
  }

  lemma LiquidityPools(l: Ledger, now: nat, call: Call)
    requires call.Creation? || call.Seeding? || call.Addition? || call.Removal? || call.FeeClaim?
    requires ApplyLiquidity(l, now, call).Ok? && PoolsSound(l)
    requires call.Creation? ==>
      LpFees(l.vault, l.amm.nextPoolId) >= 0
      && Held(l.tokens, l.amm.nextPoolId, Yes) >= 0 && Held(l.tokens, l.amm.nextPoolId, No) >= 0
    ensures PoolsSound(ApplyLiquidity(l, now, call).value)
  {
    hide PoolsSound, CreateMarket, Seed, Add, Remove, ClaimFees, LpFees, Held;
    match call
    case Creation(creator, terms, fee, liquidity) => CreateMarketPools(l, now, creator, terms, fee, liquidity);
    case Seeding(lp, id, amount) => SeedPools(l, now, lp, id, amount);
    case Addition(lp, id, amount) => AddPools(l, now, lp, id, amount);
    case Removal(lp, id, shares) => RemovePools(l, now, lp, id, shares);
    case FeeClaim(lp, id) => ClaimFeesPools(l, lp, id);
  }

  // ---------------------------------------------------------------- the other calls

  lemma RedeemPools(l: Ledger, call: Call)
    requires (call.Redemption? || call.Refund?) && ApplyRedeem(l, call).Ok? && PoolsSound(l) && SoundDebts(l.vault)
    requires Balanced(l.vault, l.tokens, call.market)
    ensures PoolsSound(ApplyRedeem(l, call).value)
  {
    hide PoolsSound, SoundDebts, Balanced, OpenClaim, SettleClaim, SettleRefund, Burn, LpFees, Held;
    var q := Position(call.market, call.user, call.outcome);
    var l' := ApplyRedeem(l, call).value;
    forall k: nat ensures LpFees(l'.vault, k) == LpFees(l.vault, k) {
      if call.Redemption? {
        RedeemResolvedFees(l.vault, l.reg, l.tokens, q, call.amount, k);
      } else {
        RedeemCancelledFees(l.vault, l.reg, l.tokens, q, call.amount, k);
      }
    }
    forall k: nat ensures Held(l'.tokens, k, Yes) == Held(l.tokens, k, Yes)
                  ensures Held(l'.tokens, k, No) == Held(l.tokens, k, No)
    {
      BurnHeld(l.tokens, call.user, Side(q.market, q.outcome), call.amount, k, Yes);
      BurnHeld(l.tokens, call.user, Side(q.market, q.outcome), call.amount, k, No);
    }
    SameFeesPools(l, l');
  }

  lemma BurnHeld(t: TokenState, owner: Address, s: Side, amount: int, k: nat, o: Outcome)
    requires Burn(t, owner, s, amount).Ok? && owner != AmmContract
    ensures Held(Burn(t, owner, s, amount).value, k, o) == Held(t, k, o)
  {
  }

  lemma RedeemResolvedFees(v: VaultState, reg: RegistryState, t: TokenState, q: Position, amount: int, k: nat)
    requires RedeemResolved(v, reg, t, q, amount).Ok? && SoundDebts(v) && Balanced(v, t, q.market)
    ensures LpFees(RedeemResolved(v, reg, t, q, amount).value.0, k) == LpFees(v, k)
  {
    hide OpenClaim, SettleClaim, Burn, SoundDebts, Balanced, Keeps;
    var final := reg.markets[q.market].final;
    OpenedFees(v, t, q, final, amount, k);
    var (v1, gross) := OpenClaim(v, q.market, final, q.outcome, amount);
    SettleClaimClaims(v1, q, gross, k);
  }

  lemma RedeemCancelledFees(v: VaultState, reg: RegistryState, t: TokenState, q: Position, amount: int, k: nat)
    requires RedeemCancelled(v, reg, t, q, amount).Ok? && SoundDebts(v) && Balanced(v, t, q.market)
    ensures LpFees(RedeemCancelled(v, reg, t, q, amount).value.0, k) == LpFees(v, k)
  {
    hide OpenClaim, SettleRefund, Burn, SoundDebts, Balanced, Keeps;
    OpenedFees(v, t, q, Invalid, amount, k);
    var (v1, gross) := OpenClaim(v, q.market, Invalid, q.outcome, amount);
    SettleRefundClaims(v1, q, gross, k);
  }

  /** What an opened claim leaves for its settlement to rely on. */
  lemma OpenedFees(v: VaultState, t: TokenState, q: Position, final: Outcome, amount: int, k: nat)
    requires SoundDebts(v) && Balanced(v, t, q.market) && amount > 0
    ensures var (v1, gross) := OpenClaim(v, q.market, final, q.outcome, amount);
            && SoundAt(v1, q) && gross >= 0 && AccountOf(v1, q.market).cash.shortfall >= 0
            && LpFees(v1, k) == LpFees(v, k)
  {
    hide OpenClaim, SoundDebts, OneLender, Matched, SoundAt;
    OpenClaimBalanced(v, t, q, final, amount, q.market);
    OpenClaimSound(v, q.market, final, q.outcome, amount);
    OpenClaimClaims(v, q.market, final, q.outcome, amount, k);
    SoundDebtsAt(OpenClaim(v, q.market, final, q.outcome, amount).0, q);
  }

  lemma VaultCallPools(l: Ledger, call: Call)
    requires call.Repayment? || call.BondLock? || call.BondUnlock? || call.FeeSweep?
    requires ApplyVault(l.vault, l.reg, call).Ok? && PoolsSound(l)
    requires call.FeeSweep? ==> FeesNonNegative(l.vault, call.market)
    ensures PoolsSound(l.(vault := ApplyVault(l.vault, l.reg, call).value))
  {
    hide RepayChildCollateral, LockBond, UnlockBond, SweepProtocolFees, PoolsSound;
    var v := ApplyVault(l.vault, l.reg, call).value;
    forall k: nat ensures LpFees(v, k) == LpFees(l.vault, k) {
      match call
      case Repayment(user, m, amount) => RepayChildCollateralClaims(l.vault, l.reg, Leg(m, user), amount, k);
      case BondLock(key, m, amount) => LockBondClaims(l.vault, l.reg, key, m, amount, k);
      case BondUnlock(key, to, amount) => UnlockBondClaims(l.vault, key, to, amount, k);
      case FeeSweep(m) => SweepClaims(l.vault, l.reg, m, k);
    }
    SameFeesPools(l, l.(vault := v));
  }

  lemma TokenCallPools(l: Ledger, call: Call)
    requires call.Transfer? || call.LosingBurn?
    requires ApplyTokens(l, call).Ok? && PoolsSound(l)
    ensures PoolsSound(l.(tokens := ApplyTokens(l, call).value))
  {
    hide TransferPosition, Burn, PoolsSound, Held;
    var t := ApplyTokens(l, call).value;
    forall k: nat ensures Held(t, k, Yes) >= Held(l.tokens, k, Yes) ensures Held(t, k, No) >= Held(l.tokens, k, No) {
      match call
      case Transfer(from, to, side, amount) =>
        TransferHeld(l.vault, l.tokens, from, to, side, amount, k, Yes);
        TransferHeld(l.vault, l.tokens, from, to, side, amount, k, No);
      case LosingBurn(owner, side, amount) =>
        BurnHeld(l.tokens, owner, side, amount, k, Yes);
        BurnHeld(l.tokens, owner, side, amount, k, No);
    }
    SameFeesPools(l, l.(tokens := t));
  }

  lemma TransferHeld(v: VaultState, t: TokenState, from: Address, to: Address, side: Side, amount: int, k: nat,
                     o: Outcome)
    requires TransferPosition(v, t, from, to, side, amount).Ok? && from != AmmContract
    ensures Held(TransferPosition(v, t, from, to, side, amount).value, k, o) >= Held(t, k, o)
  {
    hide TransferPosition;
    TransferExactly(v, t, from, to, side, amount, AmmContract, Side(k, o));
    TransferAmount(v, t, from, to, side, amount);
  }

  lemma TransferAmount(v: VaultState, t: TokenState, from: Address, to: Address, side: Side, amount: int)
    requires TransferPosition(v, t, from, to, side, amount).Ok?
    ensures amount > 0
  {
  }

  /** Every successful call keeps every pool sound. */
  lemma ApplyPools(l: Ledger, now: nat, call: Call)
    requires Apply(l, now, call).Ok? && PoolsSound(l) && SoundDebts(l.vault) && NonNegative(l.tokens)
    requires forall m: nat :: Balanced(l.vault, l.tokens, m)
    ensures PoolsSound(Apply(l, now, call).value)
  {
    hide ApplyTrade, ApplyLiquidity, ApplyRedeem, ApplyVault, ApplyTokens, ApplyRegistry, Balanced, SoundDebts,
         PoolsSound, LpFees, Held, NonNegative;
    match call
    case Purchase(_, _, _, _, _, _, _) => TradePools(l, now, call);
    case Sale(_, _, _, _, _, _) => TradePools(l, now, call);
    case Liquidation(_, _, _, _) => TradePools(l, now, call);
    case LegLiquidation(_, _, _, _) => TradePools(l, now, call);
    case Creation(_, _, _, _) =>
      NothingNegative(l, l.amm.nextPoolId);
      LiquidityPools(l, now, call);
    case Seeding(_, _, _) => LiquidityPools(l, now, call);
    case Addition(_, _, _) => LiquidityPools(l, now, call);
    case Removal(_, _, _) => LiquidityPools(l, now, call);
    case FeeClaim(_, _) => LiquidityPools(l, now, call);
    case Redemption(_, m, _, _) => assert Balanced(l.vault, l.tokens, m); RedeemPools(l, call);
    case Refund(_, m, _, _) => assert Balanced(l.vault, l.tokens, m); RedeemPools(l, call);
    case Transfer(_, _, _, _) => TokenCallPools(l, call);
    case LosingBurn(_, _, _) => TokenCallPools(l, call);
    case RegistryMove(_) => SameFeesPools(l, Apply(l, now, call).value);
    case Pause(contract, paused) => PausePools(l, contract, paused);
    case FeeSweep(m) =>
      BalancedFees(l, m);
      VaultCallPools(l, call);
    case Repayment(_, _, _) => VaultCallPools(l, call);
    case BondLock(_, _, _) => VaultCallPools(l, call);
    case BondUnlock(_, _, _) => VaultCallPools(l, call);
  }

  lemma NothingNegative(l: Ledger, m: nat)
    requires Balanced(l.vault, l.tokens, m) && NonNegative(l.tokens)
    ensures LpFees(l.vault, m) >= 0 && Held(l.tokens, m, Yes) >= 0 && Held(l.tokens, m, No) >= 0
  {
  }

  lemma PausePools(l: Ledger, contract: Pausable, paused: bool)
    requires PoolsSound(l)
    ensures PoolsSound(ApplyPause(l, contract, paused))
  {
    hide PoolsSound;
    SameFeesPools(l, ApplyPause(l, contract, paused));
  }
}
