// Who can be liquidated, over every run: a position or a leg in debt whose tokens would bring at most 105% of that
// debt, and then all of them are sold and the proceeds are split without loss.

module LedgerLiquidations {
  import opened Basics
  import opened DikeTypes
  import opened DikeMath
  import opened MarketRegistry
  import opened PoolQuotes
  import opened TokenLedger
  import opened VaultLedger
  import opened VaultDebts
  import opened AmmPools
  import opened LedgerCalls
  import opened LedgerCustody
  import opened LedgerLaws
  import opened LedgerTrades
  import opened LedgerFlows
  import opened LedgerCash

  /** The debt that decides: of the leg in its market, or the credit that the position has in use. */
  function DebtAt(v: VaultState, q: Position, isChild: bool): int {
    if isChild then ChildDebt(v, Leg(q.market, q.user)) else Used(v, q)
  }

  /** Whether a market's pool trades now. */
  predicate Trading(l: Ledger, now: nat, id: nat) {
    && id in l.amm.pools && l.amm.pools[id].live && !l.amm.paused && !l.reg.paused
    && l.amm.pools[id].market in l.reg.markets
    && var market := l.reg.markets[l.amm.pools[id].market];
    market.status == Live && now < market.terms.expiry
  }

  lemma LiveMeansTrading(l: Ledger, now: nat, deadline: nat, id: nat)
    requires id in l.amm.pools
    ensures RequireLive(l, l.amm.pools[id], now, deadline).Ok? <==> Trading(l, now, id) && now <= deadline
  {
  }

  /** What the sale of all of a user's tokens of one outcome would bring him after the fee. */
  function WouldBring(l: Ledger, id: nat, user: Address, outcome: Outcome): int
    requires id in l.amm.pools
  {
    var pool := l.amm.pools[id];
    var gross := SaleGross(pool, Balance(l.tokens, user, Side(pool.market, outcome)), SideOf(outcome == Yes));
    gross - SplitFee(gross, pool.fee.tradingFeeBps).0
  }

  function LiquidateEither(l: Ledger, now: nat, liquidator: Address, user: Address, id: nat, outcome: Outcome,
                           isChild: bool): Result<(Ledger, Receipt)>
  {
    if isChild then LiquidateChild(l, now, liquidator, user, id, outcome)
    else Liquidate(l, now, liquidator, user, id, outcome)
  }

  // ---------------------------------------------------------------- the price

  lemma AtMost105(net: int, debt: int)
    requires debt >= 0
    ensures net > Bps(debt, LIQUIDATION_THRESHOLD_BPS) <==> 10_000 * net > 10_500 * debt
  {
    FloorBounds(debt * LIQUIDATION_THRESHOLD_BPS, BPS_DENOMINATOR);
  }

  lemma SaleIsQuoted(pool: Pool, balance: int, outcome: Outcome)
    requires pool.reserves.yes > 0 && pool.reserves.no > 0 && balance > 0
    ensures PriceSell(pool, balance, outcome).Ok?
  {
    hide QuoteSell;
    SellWithinReserves(pool.reserves.Of(outcome), pool.reserves.Of(Opposite(outcome)), balance);
  }

  lemma SaleNeedsReserves(pool: Pool, balance: int, outcome: Outcome)
    requires PriceSell(pool, balance, outcome).Ok?
    ensures pool.reserves.yes > 0 && pool.reserves.no > 0 && balance > 0
    ensures var trade := PriceSell(pool, balance, outcome).value;
            && trade.gross == SaleGross(pool, balance, outcome) && trade.amountIn == balance && trade.outcome == outcome
            && trade.gross - trade.fee == trade.gross - SplitFee(trade.gross, pool.fee.tradingFeeBps).0
  {
  }

  /** The check passes exactly for someone who signs, while the pool trades, for a debt and tokens that are there, and
      when those tokens bring at most 105% of the debt. Above that the answer is that it can not be liquidated. */
  lemma PricedExactly(l: Ledger, now: nat, liquidator: Address, user: Address, id: nat, outcome: Outcome, isChild: bool)
    requires SoundDebts(l.vault) && id in l.amm.pools
    ensures var pool := l.amm.pools[id];
            var q := Position(pool.market, user, outcome);
            var (r, debt) := (PriceLiquidation(l, now, liquidator, user, id, outcome, isChild),
                              DebtAt(l.vault, q, isChild));
            var sellable := && liquidator.Account? && Trading(l, now, id) && debt > 0
                            && Balance(l.tokens, user, Side(q.market, outcome)) > 0
                            && pool.reserves.yes > 0 && pool.reserves.no > 0;
            && debt >= 0
            && (r.Ok? <==> sellable && 10_000 * WouldBring(l, id, user, outcome) <= 10_500 * debt)
            && (r == Err(NotLiquidatable) <==> sellable && 10_000 * WouldBring(l, id, user, outcome) > 10_500 * debt)
            && (r.Ok? ==>
                  && r.value.0 == pool && r.value.1.outcome == SideOf(outcome == Yes)
                  && r.value.1.amountIn == Balance(l.tokens, user, Side(q.market, outcome))
                  && r.value.1.gross - r.value.1.fee == WouldBring(l, id, user, outcome))
  {
    hide PriceSell, RequireLive, Bps, SoundDebts, Balance, SplitFee, SaleGross;
    var pool := l.amm.pools[id];
    var q := Position(pool.market, user, outcome);
    var debt := DebtAt(l.vault, q, isChild);
    var balance := Balance(l.tokens, user, Side(pool.market, outcome));
    DebtNonNegative(l.vault, q, isChild);
    LiveMeansTrading(l, now, now, id);
    LiveRefusals(l, pool, now);
    var side := SideOf(outcome == Yes);
    if balance > 0 && pool.reserves.yes > 0 && pool.reserves.no > 0 {
      SaleIsQuoted(pool, balance, side);
    }
    if PriceSell(pool, balance, side).Ok? {
      SaleNeedsReserves(pool, balance, side);
      AtMost105(WouldBring(l, id, user, outcome), debt);
    } else {
      QuoteRefusals(pool, balance, side);
    }
  }

  lemma DebtNonNegative(v: VaultState, q: Position, isChild: bool)
    requires SoundDebts(v)
    ensures DebtAt(v, q, isChild) >= 0
    ensures DebtAt(v, q, isChild) > 0 ==> q.user.Account?
  {
    ContractsOweNothing(v, q, Leg(q.market, q.user));
  }

  lemma LiveRefusals(l: Ledger, pool: Pool, now: nat)
    ensures RequireLive(l, pool, now, now) != Err(NotLiquidatable)
  {
  }

  lemma QuoteRefusals(pool: Pool, balance: int, outcome: Outcome)
    ensures PriceSell(pool, balance, outcome) != Err(NotLiquidatable)
  {
  }

  // ---------------------------------------------------------------- the sale and the split

  lemma NoInvalidTokens(t: TokenState, owner: Address, m: nat)
    requires ValidTokens(t)
    ensures Balance(t, owner, Side(m, Invalid)) == 0
  {
    hide Supply, NonNegative;
    assert CompleteSets(t, m);
    BalanceWithinSupply(t, owner, Side(m, Invalid));
  }

  /** Three hundredths of the proceeds, rounded down, go to the liquidator; the debts take their part of the rest, and
      what is left goes to the user; the vault pays bonus and remainder. */
  lemma ReleaseSplits(v: VaultState, reg: RegistryState, q: Position, tokensSold: int, proceeds: int, isChild: bool)
    requires SoundDebts(v)
    requires Released(v, reg, q, tokensSold, proceeds, isChild).Ok?
    ensures var (v', r) := Released(v, reg, q, tokensSold, proceeds, isChild).value;
            && r.proceeds == proceeds == r.bonus + r.debtRepaid + r.remainder
            && 10_000 * r.bonus <= 300 * proceeds < 10_000 * (r.bonus + 1)
            && r.bonus >= 0 && r.debtRepaid >= 0 && r.remainder >= 0
            && v'.purse.balance == v.purse.balance - r.bonus - r.remainder
  {
    hide ExtractProceeds, RouteProceeds, CloseLeg, Bps, SoundDebts, PayOut;
    var v1 := ExtractProceeds(v, q, tokensSold, proceeds).value;
    ExtractedPurse(v, q, tokensSold, proceeds);
    var bonus := Bps(proceeds, LIQUIDATION_BONUS_BPS);
    BpsBounds(proceeds, LIQUIDATION_BONUS_BPS);
    var routed := if isChild then CloseLeg(v1, Leg(q.market, q.user), proceeds - bonus)
                  else RouteProceeds(v1, q, proceeds - bonus);
    if isChild {
      ClosedPurse(v1, Leg(q.market, q.user), proceeds - bonus);
    } else {
      RoutedPurse(v1, q, proceeds - bonus);
    }
    PaidOutPurse(routed, proceeds, bonus);
  }

  function Released(v: VaultState, reg: RegistryState, q: Position, tokensSold: int, proceeds: int, isChild: bool)
    : Result<(VaultState, Receipt)>
  {
    if isChild then LiquidateChildRelease(v, reg, q, tokensSold, proceeds)
    else LiquidateRelease(v, reg, q, tokensSold, proceeds)
  }

  lemma ExtractedPurse(v: VaultState, q: Position, tokensSold: int, proceeds: int)
    requires SoundDebts(v) && ExtractProceeds(v, q, tokensSold, proceeds).Ok?
    ensures var v' := ExtractProceeds(v, q, tokensSold, proceeds).value;
            SoundDebts(v') && v'.purse == v.purse && v'.debts == v.debts && v'.credit.lender == v.credit.lender
  {
    hide SoundDebts;
    SameDebtsSound(v, ExtractProceeds(v, q, tokensSold, proceeds).value);
  }

  lemma PaidOutPurse(routed: (VaultState, int), proceeds: int, bonus: int)
    requires PayOut(routed, proceeds, bonus).Ok? && bonus >= 0 && 0 <= routed.1 <= proceeds - bonus
    ensures var (v', r) := PayOut(routed, proceeds, bonus).value;
            && r == Receipt(proceeds, bonus, routed.1, proceeds - bonus - routed.1)
            && v'.purse.balance == routed.0.purse.balance - r.bonus - r.remainder
  {
  }

  lemma {:induction false} SettledPurse(v: VaultState, user: Address, list: seq<nat>, pool: int)
    requires SoundDebts(v) && pool >= 0
    ensures var (v', x) := SettleChildren(v, user, list, pool);
            SoundDebts(v') && v'.purse == v.purse && 0 <= x <= pool
    decreases |list|
  {
    hide SettleChildDebt, SoundDebts;
    if list != [] && pool != 0 {
      var leg := Leg(list[0], user);
      SettleStep(v, leg, pool);
      SettlePurse(v, leg, pool);
      var (v1, applied) := SettleChildDebt(v, leg, pool);
      SettledPurse(v1, user, list[1..], pool - applied);
    }
  }

  lemma SettlePurse(v: VaultState, leg: Leg, pool: int)
    ensures SettleChildDebt(v, leg, pool).0.purse == v.purse
  {
  }

  lemma {:induction false} ClearedPurse(v: VaultState, q: Position, list: seq<nat>, remaining: int)
    ensures ClearChildren(v, q, list, remaining).purse == v.purse
    decreases |list|
  {
    if list != [] && remaining != 0 {
      var leg := Leg(list[0], q.user);
      var owed := ChildDebt(v, leg);
      if owed == 0 {
        ClearedPurse(v, q, list[1..], remaining);
      } else {
        var cleared := Min(owed, remaining);
        ClearedPurse(ClearOne(v, q, leg, cleared), q, list[1..], remaining - cleared);
      }
    }
  }

  lemma DefaultedPurse(v: VaultState, q: Position, total: int)
    ensures ResolveParentDefault(v, q, total).purse.balance == v.purse.balance
  {
    hide ClearChildren;
    if total > 0 {
      ClearedPurse(SetParentDebt(AbsorbDefault(v, q.market, total), q, 0), q, ChildrenOf(v, q), total);
    }
  }

  lemma RoutedPurse(v: VaultState, q: Position, pool: int)
    requires SoundDebts(v) && pool >= 0
    ensures var (v', x) := RouteProceeds(v, q, pool); v'.purse.balance == v.purse.balance && 0 <= x <= pool
  {
    hide SettleChildren, ResolveParentDefault, SoundDebts;
    SettledPurse(v, q.user, ChildrenOf(v, q), pool);
    var v1 := SettleChildren(v, q.user, ChildrenOf(v, q), pool).0;
    DefaultedPurse(v1, q, Used(v1, q));
  }

  lemma ClosedPurse(v: VaultState, leg: Leg, pool: int)
    requires SoundDebts(v) && pool >= 0
    ensures var (v', x) := CloseLeg(v, leg, pool); v'.purse.balance == v.purse.balance && 0 <= x <= pool
  {
    hide SettleChildDebt, ResolveParentDefault, SoundDebts;
    SettleStep(v, leg, pool);
    SettlePurse(v, leg, pool);
    var v1 := SettleChildDebt(v, leg, pool).0;
    if HasParent(v1, leg) {
      DefaultedPurse(v1, Lender(v1, leg), ChildDebt(v1, leg));
    }
  }

  lemma ForcedBooks(l: Ledger, user: Address, id: nat, pool: Pool, trade: Trade)
    requires SoundDebts(l.vault) && ForceSell(l, user, id, pool, trade).Ok?
    ensures var l1 := ForceSell(l, user, id, pool, trade).value;
            SoundDebts(l1.vault) && l1.vault.purse == l.vault.purse && l1.vault.debts == l.vault.debts
            && l1.vault.credit == l.vault.credit && l1.reg == l.reg
  {
    hide SoundDebts, ForceTokens, SplitTradingFee, AfterSell;
    SameDebtsSound(l.vault, ForceSell(l, user, id, pool, trade).value.vault);
  }

  // ---------------------------------------------------------------- every run

  /** After any run, for positions and for legs alike: a liquidation happens only while the pool trades, for a debt that
      is not more than cleared by five per cent; it sells all the tokens, for what their sale brings, and splits that
      without loss. A healthy position is refused, whatever the liquidator. */
  lemma OnlyUnderwater(events: seq<Event>, now: nat, liquidator: Address, user: Address, id: nat, outcome: Outcome,
                       isChild: bool)
    requires LiquidateEither(Run(GENESIS, events), now, liquidator, user, id, outcome, isChild).Ok?
    ensures var l := Run(GENESIS, events);
            var (l', r) := LiquidateEither(l, now, liquidator, user, id, outcome, isChild).value;
            && Trading(l, now, id) && liquidator.Account? && outcome != Invalid
            && var s := Side(l.amm.pools[id].market, outcome);
            && var debt := DebtAt(l.vault, Position(s.market, user, outcome), isChild);
            && 0 < debt && 10_000 * r.proceeds <= 10_500 * debt && r.proceeds == WouldBring(l, id, user, outcome)
            && Balance(l.tokens, user, s) > 0 && Balance(l'.tokens, user, s) == 0
            && r.proceeds == r.bonus + r.debtRepaid + r.remainder
            && 10_000 * r.bonus <= 300 * r.proceeds < 10_000 * (r.bonus + 1)
            && r.debtRepaid >= 0 && r.remainder >= 0
            && l'.vault.purse.balance == l.vault.purse.balance - r.bonus - r.remainder
  {
    hide Run, Lawful, PriceLiquidation, ForceSell, LiquidateRelease, LiquidateChildRelease, Trading, WouldBring,
         SoundDebts, ValidTokens;
    var l := Reachable(events);
    FlowParts(l);
    LawfulTokens(l);
    var (pool, trade) := PriceLiquidation(l, now, liquidator, user, id, outcome, isChild).value;
    ForcedTrade(l, now, liquidator, user, id, outcome, isChild);
    PricedExactly(l, now, liquidator, user, id, outcome, isChild);
    NoInvalidTokens(l.tokens, user, pool.market);
    var q := Position(pool.market, user, outcome);
    DebtNonNegative(l.vault, q, isChild);
    var l1 := ForceSell(l, user, id, pool, trade).value;
    ForcedTokens(l, user, id, pool, trade);
    ForcedBooks(l, user, id, pool, trade);
    ReleaseSplits(l1.vault, l1.reg, q, trade.amountIn, trade.gross - trade.fee, isChild);
  }

  /** And the other way round: with the debt, the tokens and a trading pool there, the refusal as not liquidatable comes
      exactly when the tokens would bring more than 105% of the debt. */
  lemma HealthyIsRefused(events: seq<Event>, now: nat, liquidator: Address, user: Address, id: nat, outcome: Outcome,
                         isChild: bool)
    requires var l := Run(GENESIS, events);
             && Trading(l, now, id) && liquidator.Account?
             && var (pool, q) := (l.amm.pools[id], Position(l.amm.pools[id].market, user, outcome));
             && DebtAt(l.vault, q, isChild) > 0 && Balance(l.tokens, user, Side(q.market, outcome)) > 0
             && pool.reserves.yes > 0 && pool.reserves.no > 0
    ensures var l := Run(GENESIS, events);
            var debt := DebtAt(l.vault, Position(l.amm.pools[id].market, user, outcome), isChild);
            LiquidateEither(l, now, liquidator, user, id, outcome, isChild) == Err(NotLiquidatable) <==>
            10_000 * WouldBring(l, id, user, outcome) > 10_500 * debt
  {
    hide Run, Lawful, PriceLiquidation, WouldBring, SoundDebts, SettleLiquidation, SettleLegLiquidation;
    var l := Reachable(events);
    FlowParts(l);
    PricedExactly(l, now, liquidator, user, id, outcome, isChild);
    var r := PriceLiquidation(l, now, liquidator, user, id, outcome, isChild);
    if r.Ok? {
      SettlesOtherwise(l, user, id, r.value.0, r.value.1, Position(r.value.0.market, user, outcome));
    }
  }

  lemma SettlesOtherwise(l: Ledger, user: Address, id: nat, pool: Pool, trade: Trade, q: Position)
    ensures SettleLiquidation(l, user, id, pool, trade, q) != Err(NotLiquidatable)
    ensures SettleLegLiquidation(l, user, id, pool, trade, q) != Err(NotLiquidatable)
  {
    hide RouteProceeds, CloseLeg, SplitTradingFee, AfterSell, Bps;
  }
}
