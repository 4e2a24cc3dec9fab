// What flows into and out of a pool over whole runs: its reserves are the tokens it holds less those given to it, and
// the fees of its providers are what trades paid in less what was paid out, promised to the providers up to rounding.

module LedgerFlows {
  import opened DikeTypes
  import opened DikeMath
  import opened MapSums
  import opened MarketRegistry
  import opened TokenLedger
  import opened VaultLedger
  import opened VaultBooks
  import opened VaultClaims
  import opened VaultDebts
  import opened AmmPools
  import opened LpLaws
  import opened LedgerCalls
  import opened LedgerMoney
  import opened LedgerCustody
  import opened LedgerPools
  import opened LedgerRecord
  import opened LedgerLaws

  function ReservesOf(amm: AmmState, k: nat): Reserves {
    if k in amm.pools then amm.pools[k].reserves else Reserves(0, 0)
  }

  /** What the pool contract holds of a market's tokens beyond the reserves of its pool. */
  function Surplus(l: Ledger, k: nat, o: Outcome): int {
    Held(l.tokens, k, o) - ReservesOf(l.amm, k).Of(o)
  }

  /** The providers' fees that nobody has earned yet, in units of 1 / FEE_SCALE. */
  ghost function Dust(l: Ledger, k: nat): int {
    FEE_SCALE * LpFees(l.vault, k) - (if k in l.amm.pools then TotalEarned(l.amm.pools[k].lp) else 0)
  }

  /** Without shares there are no reserves. */
  predicate Drained(amm: AmmState, k: nat) {
    k in amm.pools && amm.pools[k].lp.total == 0 ==> amm.pools[k].reserves == Reserves(0, 0)
  }

  // ---------------------------------------------------------------- what one call moves

  /** What a call does to the pool of one market. */
  datatype Flow = Flow(yes: int, no: int, feeIn: int, feeOut: int, dust: int)

  const STILL := Flow(0, 0, 0, 0, 0)

  ghost predicate Flows(l: Ledger, l': Ledger, k: nat, f: Flow) {
    && Surplus(l', k, Yes) == Surplus(l, k, Yes) + f.yes
    && Surplus(l', k, No) == Surplus(l, k, No) + f.no
    && LpFees(l'.vault, k) == LpFees(l.vault, k) + f.feeIn - f.feeOut
    && Dust(l', k) <= Dust(l, k) + f.dust
    && (Drained(l.amm, k) ==> Drained(l'.amm, k))
  }

  /** The providers' part of a trade on `gross`: the trading fee is rounded down, and so is their share of it. */
  function LpPart(gross: int, fee: FeeConfig): int {
    Bps(Bps(gross, fee.tradingFeeBps), fee.lpShareBps)
  }

  /** The amount the fee is taken of: what a buyer pays, or what a sale of so many tokens brings. */
  function SaleGross(pool: Pool, amount: int, outcome: Outcome): int {
    var trade := PriceSell(pool, amount, outcome);
    if trade.Ok? then trade.value.gross else 0
  }

  function TradeFlow(l: Ledger, k: nat, gross: int): Flow {
    if k in l.amm.pools then Flow(0, 0, LpPart(gross, l.amm.pools[k].fee), 0, l.amm.pools[k].lp.total) else STILL
  }

  function PayoutFlow(l: Ledger, k: nat, lp: Address): Flow {
    if k in l.amm.pools then Flow(0, 0, 0, FeesOwed(l.amm.pools[k].lp, lp), FEE_SCALE) else STILL
  }

  /** What an accepted call moves at the pool of market k: trades pay fees in, liquidity calls and claims pay the
      provider's fees out, and only a transfer to the pool contract gives it tokens. */
  function FlowOf(l: Ledger, call: Call, k: nat): Flow {
    match call
    case Purchase(_, id, amountIn, _, _, _, _) => if id == k then TradeFlow(l, k, amountIn) else STILL
    case Sale(_, id, amountIn, _, _, yes) =>
      if id == k && k in l.amm.pools then TradeFlow(l, k, SaleGross(l.amm.pools[k], amountIn, SideOf(yes))) else STILL
    case Liquidation(_, user, id, outcome) => if id == k then ForcedFlow(l, k, user, outcome) else STILL
    case LegLiquidation(_, user, id, outcome) => if id == k then ForcedFlow(l, k, user, outcome) else STILL
    case Addition(lp, id, _) => if id == k then PayoutFlow(l, k, lp) else STILL
    case Removal(lp, id, _) => if id == k then PayoutFlow(l, k, lp) else STILL
    case FeeClaim(lp, id) => if id == k then PayoutFlow(l, k, lp) else STILL
    case Transfer(_, to, side, amount) =>
      if to == AmmContract && side == Side(k, Yes) then STILL.(yes := amount)
      else if to == AmmContract && side == Side(k, No) then STILL.(no := amount)
      else STILL
    case _ => STILL
  }

  function ForcedFlow(l: Ledger, k: nat, user: Address, outcome: Outcome): Flow {
    if k in l.amm.pools
    then TradeFlow(l, k, SaleGross(l.amm.pools[k], Balance(l.tokens, user, Side(k, outcome)), SideOf(outcome == Yes)))
    else STILL
  }

  // ---------------------------------------------------------------- trades

  /** A fee enters the book: what the accumulator does not promise of it is less than one unit a share. */
  lemma AccruedDust(book: LpBook, lpFees: int, lpFee: int)
    requires ValidBook(book) && book.total > 0 && lpFee >= 0
    ensures FEE_SCALE * (lpFees + lpFee) - TotalEarned(AccrueFees(book, lpFee)) <=
            FEE_SCALE * lpFees - TotalEarned(book) + book.total
    ensures AccrueFees(book, lpFee).total == book.total
  {
    hide ValidBook, TotalEarned, AccrueFees;
    AccrueReaches(book, lpFee);
    SameTotal(book, lpFee);
  }

  lemma SameTotal(book: LpBook, lpFee: int)
    ensures AccrueFees(book, lpFee).total == book.total
  {
  }

  lemma Supplied(l: Ledger, id: nat)
    requires PoolsSound(l) && id in l.amm.pools && Drained(l.amm, id)
    requires l.amm.pools[id].reserves.yes > 0 || l.amm.pools[id].reserves.no > 0
    ensures ValidBook(l.amm.pools[id].lp) && l.amm.pools[id].lp.total > 0 && l.amm.pools[id].market == id
  {
    hide FeesCovered, LpFees, Held;
    assert PoolSoundIn(l, id);
    SharesWithinTotal(l.amm.pools[id].lp, AmmContract);
  }

  /** The reserves move by the tokens of the trade, and the fee enters bucket and book. */
  lemma TradeFlows(l: Ledger, l': Ledger, id: nat, pool': Pool, move: Reserves, lpFee: int, k: nat)
    requires PoolsSound(l) && id in l.amm.pools && Drained(l.amm, id) && lpFee >= 0
    requires l.amm.pools[id].reserves.yes > 0 || l.amm.pools[id].reserves.no > 0
    requires l'.amm == SetPool(l.amm, id, pool') && pool'.lp == AccrueFees(l.amm.pools[id].lp, lpFee)
    requires pool'.reserves == Reserves(l.amm.pools[id].reserves.yes + move.yes, l.amm.pools[id].reserves.no + move.no)
    requires LpFees(l'.vault, k) == LpFees(l.vault, k) + (if k == id then lpFee else 0)
    requires Held(l'.tokens, k, Yes) == Held(l.tokens, k, Yes) + (if k == id then move.yes else 0)
    requires Held(l'.tokens, k, No) == Held(l.tokens, k, No) + (if k == id then move.no else 0)
    ensures Flows(l, l', k, if k == id then Flow(0, 0, lpFee, 0, l.amm.pools[id].lp.total) else STILL)
  {
    hide PoolsSound, AccrueFees, LpFees, Held, TotalEarned, ValidBook;
    Supplied(l, id);
    AccruedDust(l.amm.pools[id].lp, LpFees(l.vault, id), lpFee);
  }

  lemma SettleBuyFlows(l: Ledger, trader: Address, id: nat, pool: Pool, trade: Trade, parent: Parent, k: nat)
    requires id in l.amm.pools && pool == l.amm.pools[id] && trader != AmmContract && trade.outcome != Invalid
    requires pool.reserves.yes > 0 && Drained(l.amm, id)
    requires SettleBuy(l, trader, id, pool, trade, parent).Ok? && PoolsSound(l)
    ensures Flows(l, SettleBuy(l, trader, id, pool, trade, parent).value.0, k,
                  if k == id then Flow(0, 0, SplitTradingFee(trade.fee, pool.fee).lp, 0, pool.lp.total) else STILL)
  {
    hide BuyVault, BuyTokens, AfterBuy, LpFees, Held, SplitTradingFee, PoolsSound, Flows;
    var split := SplitTradingFee(trade.fee, pool.fee);
    var l' := SettleBuy(l, trader, id, pool, trade, parent).value.0;
    NumberedPool(l, id);
    BuyVaultFees(l.vault, l.reg, trader, id, parent, trade, split, k);
    BuyTokensHeld(l'.vault, l.tokens, trader, id, trade, k, Yes);
    BuyTokensHeld(l'.vault, l.tokens, trader, id, trade, k, No);
    var net := trade.amountIn - trade.fee;
    var move := Reserves(net - (if trade.outcome == Yes then trade.gross else 0),
                         net - (if trade.outcome == No then trade.gross else 0));
    BuyMoves(pool, trade, split);
    TradeFlows(l, l', id, AfterBuy(pool, trade, split), move, split.lp, k);
  }

  lemma NumberedPool(l: Ledger, id: nat)
    requires PoolsSound(l) && id in l.amm.pools
    ensures l.amm.pools[id].market == id
  {
  }

  /** A purchase adds the net amount to both reserves and takes the tokens out of the bought one. */
  lemma BuyMoves(pool: Pool, trade: Trade, split: FeeSplit)
    requires trade.outcome != Invalid
    ensures var net := trade.amountIn - trade.fee;
            var after := AfterBuy(pool, trade, split);
            && after.reserves.yes == pool.reserves.yes + net - (if trade.outcome == Yes then trade.gross else 0)
            && after.reserves.no == pool.reserves.no + net - (if trade.outcome == No then trade.gross else 0)
            && after.lp == AccrueFees(pool.lp, split.lp)
  {
  }

  function SellMove(trade: Trade): Reserves {
    Reserves((if trade.outcome == Yes then trade.amountIn else 0) - trade.gross,
             (if trade.outcome == No then trade.amountIn else 0) - trade.gross)
  }

  /** A sale adds the tokens to their reserve and takes the merged sets out of both. */
  lemma SellMoves(pool: Pool, trade: Trade, split: FeeSplit)
    requires trade.outcome != Invalid
    ensures var after := AfterSell(pool, trade, split);
            && after.reserves.yes == pool.reserves.yes + SellMove(trade).yes
            && after.reserves.no == pool.reserves.no + SellMove(trade).no
            && after.lp == AccrueFees(pool.lp, split.lp)
  {
  }

  lemma SettleSellFlows(l: Ledger, trader: Address, id: nat, pool: Pool, trade: Trade, k: nat)
    requires id in l.amm.pools && pool == l.amm.pools[id] && trader != AmmContract && trade.outcome != Invalid
    requires pool.reserves.yes > 0 && Drained(l.amm, id)
    requires SettleSell(l, trader, id, pool, trade).Ok? && PoolsSound(l)
    ensures Flows(l, SettleSell(l, trader, id, pool, trade).value.0, k,
                  if k == id then Flow(0, 0, SplitTradingFee(trade.fee, pool.fee).lp, 0, pool.lp.total) else STILL)
  {
    hide SellVault, SellTokens, AfterSell, LpFees, Held, SplitTradingFee, PoolsSound, Flows;
    var split := SplitTradingFee(trade.fee, pool.fee);
    var l' := SettleSell(l, trader, id, pool, trade).value.0;
    NumberedPool(l, id);
    SellVaultFees(l.vault, l.reg, Position(id, trader, trade.outcome), trade, split, k);
    SellTokensHeld(l.vault, l.tokens, trader, id, trade, k, Yes);
    SellTokensHeld(l.vault, l.tokens, trader, id, trade, k, No);
    SellMoves(pool, trade, split);
    TradeFlows(l, l', id, AfterSell(pool, trade, split), SellMove(trade), split.lp, k);
  }

  lemma ForceSellFlows(l: Ledger, user: Address, id: nat, pool: Pool, trade: Trade, k: nat)
    requires id in l.amm.pools && pool == l.amm.pools[id] && user != AmmContract && trade.outcome != Invalid
    requires pool.reserves.yes > 0 && Drained(l.amm, id)
    requires ForceSell(l, user, id, pool, trade).Ok? && PoolsSound(l)
    ensures Flows(l, ForceSell(l, user, id, pool, trade).value, k,
                  if k == id then Flow(0, 0, SplitTradingFee(trade.fee, pool.fee).lp, 0, pool.lp.total) else STILL)
  {
    hide CollectFee, ForceTokens, AfterSell, LpFees, Held, SplitTradingFee, PoolsSound, Flows;
    var split := SplitTradingFee(trade.fee, pool.fee);
    var l' := ForceSell(l, user, id, pool, trade).value;
    NumberedPool(l, id);
    CollectLpFees(l.vault, id, split, k);
    ForceTokensHeld(l.tokens, user, id, trade, k, Yes);
    ForceTokensHeld(l.tokens, user, id, trade, k, No);
    SellMoves(pool, trade, split);
    TradeFlows(l, l', id, AfterSell(pool, trade, split), SellMove(trade), split.lp, k);
  }

  /** A step that leaves pools, fees and the pool contract's tokens alone flows on unchanged. */
  lemma StillAfter(l: Ledger, l1: Ledger, l': Ledger, k: nat, f: Flow)
    requires Flows(l, l1, k, f) && l'.amm.pools == l1.amm.pools
    requires LpFees(l'.vault, k) == LpFees(l1.vault, k)
    requires Held(l'.tokens, k, Yes) == Held(l1.tokens, k, Yes) && Held(l'.tokens, k, No) == Held(l1.tokens, k, No)
    ensures Flows(l, l', k, f)
  {
    hide LpFees, Held, TotalEarned;
  }

  lemma Unmoved(l: Ledger, k: nat)
    ensures Flows(l, l, k, STILL)
  {
  }

  lemma LiquidationFlows(l: Ledger, user: Address, id: nat, pool: Pool, trade: Trade, q: Position, k: nat)
    requires id in l.amm.pools && pool == l.amm.pools[id] && user != AmmContract && trade.outcome != Invalid
    requires pool.reserves.yes > 0 && Drained(l.amm, id) && PoolsSound(l)
    ensures var r := SettleLiquidation(l, user, id, pool, trade, q);
            r.Ok? ==> Flows(l, r.value.0, k, if k == id then Flow(0, 0, SplitTradingFee(trade.fee, pool.fee).lp, 0,
                                                                  pool.lp.total) else STILL)
    ensures var r := SettleLegLiquidation(l, user, id, pool, trade, q);
            r.Ok? ==> Flows(l, r.value.0, k, if k == id then Flow(0, 0, SplitTradingFee(trade.fee, pool.fee).lp, 0,
                                                                  pool.lp.total) else STILL)
  {
    hide ForceSell, LiquidateRelease, LiquidateChildRelease, PoolsSound, Flows, SplitTradingFee;
    if ForceSell(l, user, id, pool, trade).Ok? {
      ForceSellFlows(l, user, id, pool, trade, k);
      var l1 := ForceSell(l, user, id, pool, trade).value;
      var sold, net := trade.amountIn, trade.gross - trade.fee;
      var f := if k == id then Flow(0, 0, SplitTradingFee(trade.fee, pool.fee).lp, 0, pool.lp.total) else STILL;
      if LiquidateRelease(l1.vault, l1.reg, q, sold, net).Ok? {
        LiquidateReleaseClaims(l1.vault, l1.reg, q, sold, net, k);
        StillAfter(l, l1, l1.(vault := LiquidateRelease(l1.vault, l1.reg, q, sold, net).value.0), k, f);
      }
      if LiquidateChildRelease(l1.vault, l1.reg, q, sold, net).Ok? {
        LiquidateChildReleaseClaims(l1.vault, l1.reg, q, sold, net, k);
        StillAfter(l, l1, l1.(vault := LiquidateChildRelease(l1.vault, l1.reg, q, sold, net).value.0), k, f);
      }
    }
  }

  lemma BuyPart(pool: Pool, amountIn: int, outcome: Outcome)
    requires outcome != Invalid && PriceBuy(pool, amountIn, outcome).Ok?
    ensures var trade := PriceBuy(pool, amountIn, outcome).value;
            && SplitTradingFee(trade.fee, pool.fee).lp == LpPart(amountIn, pool.fee)
            && trade.outcome == outcome && pool.reserves.yes > 0
  {
  }

  lemma SellPart(pool: Pool, amount: int, outcome: Outcome)
    requires outcome != Invalid && PriceSell(pool, amount, outcome).Ok?
    ensures var trade := PriceSell(pool, amount, outcome).value;
            && SplitTradingFee(trade.fee, pool.fee).lp == LpPart(SaleGross(pool, amount, outcome), pool.fee)
            && trade.outcome == outcome && pool.reserves.yes > 0
  {
  }

  /** The forced sale is priced as the sale of the user's whole balance. */
  lemma ForcedTrade(l: Ledger, now: nat, liquidator: Address, user: Address, id: nat, outcome: Outcome, isChild: bool)
    requires PriceLiquidation(l, now, liquidator, user, id, outcome, isChild).Ok?
    ensures id in l.amm.pools
    ensures var (pool, trade) := PriceLiquidation(l, now, liquidator, user, id, outcome, isChild).value;
            && pool == l.amm.pools[id]
            && PriceSell(pool, Balance(l.tokens, user, Side(pool.market, outcome)), SideOf(outcome == Yes)) == Ok(trade)
  {
    hide PriceSell, RequireLive;
  }

  lemma TradeCallFlows(l: Ledger, now: nat, call: Call, k: nat)
    requires call.Purchase? || call.Sale? || call.Liquidation? || call.LegLiquidation?
    requires ApplyTrade(l, now, call).Ok? && PoolsSound(l) && SoundDebts(l.vault) && Drained(l.amm, call.pool)
    ensures Flows(l, ApplyTrade(l, now, call).value, k, FlowOf(l, call, k))
  {
    hide PoolsSound, SoundDebts, SettleBuy, SettleSell, SettleLiquidation, SettleLegLiquidation, RequireLive,
         PriceBuy, PriceSell, PriceLiquidation, Flows, LpPart, SaleGross, SplitTradingFee, Drained;
    match call
    case Purchase(trader, id, amountIn, _, _, yes, parent) =>
      var pool := l.amm.pools[id];
      BuyPart(pool, amountIn, SideOf(yes));
      SettleBuyFlows(l, trader, id, pool, PriceBuy(pool, amountIn, SideOf(yes)).value, parent, k);
    case Sale(trader, id, amountIn, _, _, yes) =>
      var pool := l.amm.pools[id];
      SellPart(pool, amountIn, SideOf(yes));
      SettleSellFlows(l, trader, id, pool, PriceSell(pool, amountIn, SideOf(yes)).value, k);
    case Liquidation(liquidator, user, id, outcome) => ForcedCallFlows(l, now, call, liquidator, user, id, outcome, k);
    case LegLiquidation(liquidator, user, id, outcome) =>
      ForcedCallFlows(l, now, call, liquidator, user, id, outcome, k);
  }

  lemma ForcedCallFlows(l: Ledger, now: nat, call: Call, liquidator: Address, user: Address, id: nat, outcome: Outcome,
                        k: nat)
    requires call == Liquidation(liquidator, user, id, outcome) || call == LegLiquidation(liquidator, user, id, outcome)
    requires ApplyTrade(l, now, call).Ok? && PoolsSound(l) && SoundDebts(l.vault) && Drained(l.amm, id)
    ensures Flows(l, ApplyTrade(l, now, call).value, k, FlowOf(l, call, k))
  {
    hide PoolsSound, SoundDebts, SettleLiquidation, SettleLegLiquidation, PriceSell, PriceLiquidation, Flows, LpPart,
         SaleGross, SplitTradingFee, Drained;
    var isChild := call.LegLiquidation?;
    var (pool, trade) := PriceLiquidation(l, now, liquidator, user, id, outcome, isChild).value;
    LiquidatedUser(l, now, liquidator, user, id, outcome, isChild);
    ForcedTrade(l, now, liquidator, user, id, outcome, isChild);
    NumberedPool(l, id);
    SellPart(pool, Balance(l.tokens, user, Side(id, outcome)), SideOf(outcome == Yes));
    LiquidationFlows(l, user, id, pool, trade, Position(pool.market, user, outcome), k);
  }

  // ---------------------------------------------------------------- liquidity

  /** A provider is paid off and gets new shares: at most one unit of the fees stays behind. */
  lemma SetLpDust(book: LpBook, lpFees: int, lp: Address, shares: int, total: int)
    requires ValidBook(book)
    ensures FEE_SCALE * (lpFees - FeesOwed(book, lp)) - TotalEarned(SetLp(book, lp, shares, total)) <=
            FEE_SCALE * lpFees - TotalEarned(book) + FEE_SCALE
    ensures LpOf(book, lp).shares == 0 ==>
              FeesOwed(book, lp) == 0 && TotalEarned(SetLp(book, lp, shares, total)) == TotalEarned(book)
  {
    var p := LpPosition(shares, book.feePerShare);
    var f := Earned(book.feePerShare);
    SumByUpdate(book.positions, f, lp, p);
    OwedIsEarned(book, lp);
    EarnedNonNegative(book, lp);
    assert f(p) == shares * 0;
  }

  lemma LiquidityFlows(l: Ledger, l': Ledger, id: nat, pool': Pool, move: Reserves, paid: int, dust: int, k: nat)
    requires id in l.amm.pools && l'.amm == SetPool(l.amm, id, pool')
    requires pool'.reserves == Reserves(l.amm.pools[id].reserves.yes + move.yes, l.amm.pools[id].reserves.no + move.no)
    requires pool'.lp.total == 0 ==> pool'.reserves == Reserves(0, 0)
    requires LpFees(l'.vault, k) == LpFees(l.vault, k) - (if k == id then paid else 0)
    requires Held(l'.tokens, k, Yes) == Held(l.tokens, k, Yes) + (if k == id then move.yes else 0)
    requires Held(l'.tokens, k, No) == Held(l.tokens, k, No) + (if k == id then move.no else 0)
    requires FEE_SCALE * (LpFees(l.vault, id) - paid) - TotalEarned(pool'.lp) <=
             FEE_SCALE * LpFees(l.vault, id) - TotalEarned(l.amm.pools[id].lp) + dust
    ensures Flows(l, l', k, if k == id then Flow(0, 0, 0, paid, dust) else STILL)
  {
    hide LpFees, Held, TotalEarned;
  }

  lemma SoundPool(l: Ledger, id: nat)
    requires PoolsSound(l) && id in l.amm.pools
    ensures l.amm.pools[id].market == id && ValidBook(l.amm.pools[id].lp)
    ensures FeesCovered(l.amm.pools[id].lp, LpFees(l.vault, id))
    ensures l.amm.pools[id].reserves.yes >= 0 && l.amm.pools[id].reserves.no >= 0
  {
    hide ValidBook, FeesCovered;
    assert PoolSoundIn(l, id);
  }

  lemma SeedFlows(l: Ledger, now: nat, lp: Address, id: nat, amount: int, k: nat)
    requires Seed(l, now, lp, id, amount).Ok? && PoolsSound(l) && Drained(l.amm, id)
    ensures Flows(l, Seed(l, now, lp, id, amount).value, k, STILL)
  {
    hide FundPool, RequireSeedable, LpFees, Held, SetLp, ValidBook, FeesCovered, PoolsSound, Flows, TotalEarned,
         FeesOwed;
    var pool := l.amm.pools[id];
    SoundPool(l, id);
    var l' := Seed(l, now, lp, id, amount).value;
    FundPoolEffects(l, id, amount, k, Yes);
    FundPoolEffects(l, id, amount, k, No);
    SharesWithinTotal(pool.lp, lp);
    SetLpDust(pool.lp, LpFees(l.vault, id), lp, amount, amount);
    SeededTotal(pool, lp, amount);
    LiquidityFlows(l, l', id, Seeded(pool, lp, amount), Reserves(amount, amount), 0, 0, k);
  }

  lemma SeededTotal(pool: Pool, lp: Address, amount: int)
    ensures Seeded(pool, lp, amount).lp.total == amount
  {
  }

  lemma AddFlows(l: Ledger, now: nat, lp: Address, id: nat, amount: int, k: nat)
    requires Add(l, now, lp, id, amount).Ok? && PoolsSound(l)
    ensures Flows(l, Add(l, now, lp, id, amount).value.0, k, if k == id then PayoutFlow(l, k, lp) else STILL)
  {
    hide FundPool, RequireTradeable, SharesFor, PayPending, FeesOwed, LpFees, Held, ValidBook, FeesCovered, PoolsSound,
         Flows, TotalEarned;
    var pool := l.amm.pools[id];
    SoundPool(l, id);
    var (l', shares) := Add(l, now, lp, id, amount).value;
    var l1 := FundPool(l, id, amount).value;
    var pending := FeesOwed(pool.lp, lp);
    OwedIsPayable(pool.lp, LpFees(l.vault, id), lp);
    FundPoolEffects(l, id, amount, k, Yes);
    FundPoolEffects(l, id, amount, k, No);
    PayPendingFees(l1.vault, l1.reg, id, pending, k);
    SharesPositive(pool, amount);
    SetLpDust(pool.lp, LpFees(l.vault, id), lp, LpOf(pool.lp, lp).shares + shares, pool.lp.total + shares);
    LiquidityFlows(l, l', id, Added(pool, lp, amount, shares), Reserves(amount, amount), pending, FEE_SCALE, k);
  }

  lemma RemoveFlows(l: Ledger, now: nat, lp: Address, id: nat, shares: int, k: nat)
    requires Remove(l, now, lp, id, shares).Ok? && PoolsSound(l)
    ensures Flows(l, Remove(l, now, lp, id, shares).value.0, k, if k == id then PayoutFlow(l, k, lp) else STILL)
  {
    hide RequireRemovable, Withdrawal, HandOut, PayPending, FeesOwed, LpFees, Held, ValidBook, FeesCovered, PoolsSound,
         Flows, TotalEarned;
    var pool := l.amm.pools[id];
    SoundPool(l, id);
    var (l', out) := Remove(l, now, lp, id, shares).value;
    var pending := FeesOwed(pool.lp, lp);
    OwedIsPayable(pool.lp, LpFees(l.vault, id), lp);
    HandOutHeld(l'.vault, l.tokens, lp, id, out, k, Yes);
    HandOutHeld(l'.vault, l.tokens, lp, id, out, k, No);
    PayPendingFees(l.vault, l.reg, id, pending, k);
    if shares == pool.lp.total {
      RemoveAllEmpties(pool, lp);
    }
    SetLpDust(pool.lp, LpFees(l.vault, id), lp, LpOf(pool.lp, lp).shares - shares, pool.lp.total - shares);
    LiquidityFlows(l, l', id, Removed(pool, lp, shares, out), Reserves(-out.yes, -out.no), pending, FEE_SCALE, k);
  }

  lemma ClaimFlows(l: Ledger, lp: Address, id: nat, k: nat)
    requires ClaimFees(l, lp, id).Ok? && PoolsSound(l) && Drained(l.amm, id)
    ensures Flows(l, ClaimFees(l, lp, id).value.0, k, if k == id then PayoutFlow(l, k, lp) else STILL)
  {
    hide PayLpFees, FeesOwed, LpFees, Held, ValidBook, FeesCovered, PoolsSound, Flows, TotalEarned;
    var pool := l.amm.pools[id];
    SoundPool(l, id);
    var owed := FeesOwed(pool.lp, lp);
    OwedIsPayable(pool.lp, LpFees(l.vault, id), lp);
    if owed > 0 {
      var l' := ClaimFees(l, lp, id).value.0;
      var shares := LpOf(pool.lp, lp).shares;
      PayLpFeesExactly(l.vault, l.reg, id, owed, k);
      SetLpDust(pool.lp, LpFees(l.vault, id), lp, shares, pool.lp.total);
      LiquidityFlows(l, l', id, pool.(lp := SetLp(pool.lp, lp, shares, pool.lp.total)), Reserves(0, 0), owed, FEE_SCALE,
                     k);
    } else {
      NoFeesMoved(l, id, k);
    }
  }

  lemma NoFeesMoved(l: Ledger, id: nat, k: nat)
    ensures Flows(l, l, k, if k == id then Flow(0, 0, 0, 0, FEE_SCALE) else STILL)
  {
  }

  lemma CreateFlows(l: Ledger, now: nat, creator: Address, terms: Terms, fee: FeeConfig, liquidity: int, k: nat)
    requires CreateMarket(l, now, creator, terms, fee, liquidity).Ok? && PoolsSound(l)
    requires LpFees(l.vault, l.amm.nextPoolId) >= 0
    requires Held(l.tokens, l.amm.nextPoolId, Yes) >= 0 && Held(l.tokens, l.amm.nextPoolId, No) >= 0
    ensures Flows(l, CreateMarket(l, now, creator, terms, fee, liquidity).value.0, k, STILL)
  {
    hide Seed, PoolsSound, RegisterMarket, Transition, LpFees, Held, Flows;
    var (reg, m) := RegisterMarket(l.reg, now, terms).value;
    var (amm, id) := CreatePool(l.amm, m, fee).value;
    var l1 := l.(reg := reg, amm := amm);
    CreatePoolSound(l, m, fee, l1);
    NewPool(l, m, fee, l1, k);
    SeedFlows(l1, now, creator, id, liquidity, k);
    var l2 := Seed(l1, now, creator, id, liquidity).value;
    StillTwice(l, l1, l2, k);
    StillAfter(l, l2, CreateMarket(l, now, creator, terms, fee, liquidity).value.0, k, STILL);
  }

  lemma StillTwice(l: Ledger, l1: Ledger, l2: Ledger, k: nat)
    requires Flows(l, l1, k, STILL) && Flows(l1, l2, k, STILL)
    ensures Flows(l, l2, k, STILL)
  {
  }

  lemma NewPool(l: Ledger, m: nat, fee: FeeConfig, l1: Ledger, k: nat)
    requires PoolsSound(l) && CreatePool(l.amm, m, fee).Ok? && CreatePool(l.amm, m, fee).value.1 == m
    requires l1.amm == CreatePool(l.amm, m, fee).value.0 && l1.vault == l.vault && l1.tokens == l.tokens
    ensures Flows(l, l1, k, STILL) && Drained(l1.amm, m)
  {
    hide LpFees, Held, PoolSoundIn;
  }

  lemma LiquidityCallFlows(l: Ledger, now: nat, call: Call, k: nat)
    requires call.Creation? || call.Seeding? || call.Addition? || call.Removal? || call.FeeClaim?
    requires ApplyLiquidity(l, now, call).Ok? && PoolsSound(l)
    requires if call.Creation? then
               LpFees(l.vault, l.amm.nextPoolId) >= 0
               && Held(l.tokens, l.amm.nextPoolId, Yes) >= 0 && Held(l.tokens, l.amm.nextPoolId, No) >= 0
             else Drained(l.amm, call.pool)
    ensures Flows(l, ApplyLiquidity(l, now, call).value, k, FlowOf(l, call, k))
  {
    hide PoolsSound, CreateMarket, Seed, Add, Remove, ClaimFees, LpFees, Held, Flows, PayoutFlow, Drained;
    match call
    case Creation(creator, terms, fee, liquidity) => CreateFlows(l, now, creator, terms, fee, liquidity, k);
    case Seeding(lp, id, amount) => SeedFlows(l, now, lp, id, amount, k);
    case Addition(lp, id, amount) => AddFlows(l, now, lp, id, amount, k);
    case Removal(lp, id, shares) => RemoveFlows(l, now, lp, id, shares, k);
    case FeeClaim(lp, id) => ClaimFlows(l, lp, id, k);
  }

  // ---------------------------------------------------------------- the other calls

  lemma RedeemFlows(l: Ledger, call: Call, k: nat)
    requires (call.Redemption? || call.Refund?) && ApplyRedeem(l, call).Ok? && SoundDebts(l.vault)
    requires Balanced(l.vault, l.tokens, call.market)
    ensures Flows(l, ApplyRedeem(l, call).value, k, STILL)
  {
    hide SoundDebts, Balanced, OpenClaim, SettleClaim, SettleRefund, Burn, LpFees, Held, Flows;
    var q := Position(call.market, call.user, call.outcome);
    if call.Redemption? {
      RedeemResolvedFees(l.vault, l.reg, l.tokens, q, call.amount, k);
    } else {
      RedeemCancelledFees(l.vault, l.reg, l.tokens, q, call.amount, k);
    }
    BurnHeld(l.tokens, call.user, Side(q.market, q.outcome), call.amount, k, Yes);
    BurnHeld(l.tokens, call.user, Side(q.market, q.outcome), call.amount, k, No);
    Unmoved(l, k);
    StillAfter(l, l, ApplyRedeem(l, call).value, k, STILL);
  }

  lemma VaultCallFlows(l: Ledger, call: Call, k: nat)
    requires call.Repayment? || call.BondLock? || call.BondUnlock? || call.FeeSweep?
    requires ApplyVault(l.vault, l.reg, call).Ok?
    requires call.FeeSweep? ==> FeesNonNegative(l.vault, call.market)
    ensures Flows(l, l.(vault := ApplyVault(l.vault, l.reg, call).value), k, STILL)
  {
    hide RepayChildCollateral, LockBond, UnlockBond, SweepProtocolFees, Flows;
    var v := ApplyVault(l.vault, l.reg, call).value;
    match call {
      case Repayment(user, m, amount) => RepayChildCollateralClaims(l.vault, l.reg, Leg(m, user), amount, k);
      case BondLock(key, m, amount) => LockBondClaims(l.vault, l.reg, key, m, amount, k);
      case BondUnlock(key, to, amount) => UnlockBondClaims(l.vault, key, to, amount, k);
      case FeeSweep(m) => SweepClaims(l.vault, l.reg, m, k);
    }
    Unmoved(l, k);
    StillAfter(l, l, l.(vault := v), k, STILL);
  }

  lemma TokenCallFlows(l: Ledger, call: Call, k: nat)
    requires call.Transfer? || call.LosingBurn?
    requires ApplyTokens(l, call).Ok?
    ensures Flows(l, l.(tokens := ApplyTokens(l, call).value), k, FlowOf(l, call, k))
  {
    hide TransferPosition, Burn, Held, LpFees, TotalEarned;
    match call
    case Transfer(from, to, side, amount) =>
      TransferExactly(l.vault, l.tokens, from, to, side, amount, AmmContract, Side(k, Yes));
      TransferExactly(l.vault, l.tokens, from, to, side, amount, AmmContract, Side(k, No));
      HeldIsBalance(l.tokens, k);
      HeldIsBalance(ApplyTokens(l, call).value, k);
    case LosingBurn(owner, side, amount) =>
      BurnHeld(l.tokens, owner, side, amount, k, Yes);
      BurnHeld(l.tokens, owner, side, amount, k, No);
  }

  lemma HeldIsBalance(t: TokenState, k: nat)
    ensures forall o :: Held(t, k, o) == Balance(t, AmmContract, Side(k, o))
  {
  }

  lemma PauseFlows(l: Ledger, contract: Pausable, paused: bool, k: nat)
    ensures Flows(l, ApplyPause(l, contract, paused), k, STILL)
  {
  }

  ghost predicate AllDrained(amm: AmmState) {
    forall k :: Drained(amm, k)
  }

  /** Every accepted call moves at each pool what its flow says. */
  lemma ApplyFlows(l: Ledger, now: nat, call: Call, k: nat)
    requires Apply(l, now, call).Ok? && Lawful(l) && AllDrained(l.amm)
    ensures Flows(l, Apply(l, now, call).value, k, FlowOf(l, call, k))
  {
    hide ApplyTrade, ApplyLiquidity, ApplyRedeem, ApplyVault, ApplyTokens, ApplyRegistry, Balanced, SoundDebts,
         PoolsSound, LpFees, Held, NonNegative, Flows, Lawful, Drained;
    FlowParts(l);
    match call
    case Purchase(_, id, _, _, _, _, _) => assert Drained(l.amm, id); TradeCallFlows(l, now, call, k);
    case Sale(_, id, _, _, _, _) => assert Drained(l.amm, id); TradeCallFlows(l, now, call, k);
    case Liquidation(_, _, id, _) => assert Drained(l.amm, id); TradeCallFlows(l, now, call, k);
    case LegLiquidation(_, _, id, _) => assert Drained(l.amm, id); TradeCallFlows(l, now, call, k);
    case Creation(_, _, _, _) =>
      NothingNegative(l, l.amm.nextPoolId);
      LiquidityCallFlows(l, now, call, k);
    case Seeding(_, id, _) => assert Drained(l.amm, id); LiquidityCallFlows(l, now, call, k);
    case Addition(_, id, _) => assert Drained(l.amm, id); LiquidityCallFlows(l, now, call, k);
    case Removal(_, id, _) => assert Drained(l.amm, id); LiquidityCallFlows(l, now, call, k);
    case FeeClaim(_, id) => assert Drained(l.amm, id); LiquidityCallFlows(l, now, call, k);
    case Redemption(_, m, _, _) => RedeemFlows(l, call, k);
    case Refund(_, m, _, _) => RedeemFlows(l, call, k);
    case Transfer(_, _, _, _) => TokenCallFlows(l, call, k);
    case LosingBurn(_, _, _) => TokenCallFlows(l, call, k);
    case RegistryMove(_) =>
      Unmoved(l, k);
      StillAfter(l, l, Apply(l, now, call).value, k, STILL);
    case Pause(contract, paused) => PauseFlows(l, contract, paused, k);
    case FeeSweep(m) =>
      BalancedFees(l, m);
      VaultCallFlows(l, call, k);
    case Repayment(_, _, _) => VaultCallFlows(l, call, k);
    case BondLock(_, _, _) => VaultCallFlows(l, call, k);
    case BondUnlock(_, _, _) => VaultCallFlows(l, call, k);
  }

  lemma FlowParts(l: Ledger)
    requires Lawful(l)
    ensures PoolsSound(l) && SoundDebts(l.vault) && NonNegative(l.tokens)
    ensures forall m: nat :: Balanced(l.vault, l.tokens, m)
  {
    hide RegistrySane, SoundDebts, PoolsSound, Balanced, Recorded, Custody;
  }

  // ---------------------------------------------------------------- runs

  function Together(f: Flow, g: Flow): Flow {
    Flow(f.yes + g.yes, f.no + g.no, f.feeIn + g.feeIn, f.feeOut + g.feeOut, f.dust + g.dust)
  }

  /** The flow of all accepted calls of a run. */
  function FlowOver(l: Ledger, events: seq<Event>, k: nat): Flow
    decreases |events|
  {
    if events == [] then STILL
    else
      var now, call := events[0].now, events[0].call;
      Together(if Apply(l, now, call).Ok? then FlowOf(l, call, k) else STILL,
               FlowOver(Step(l, now, call), events[1..], k))
  }

  lemma StepFlows(l: Ledger, now: nat, call: Call, k: nat)
    requires Lawful(l) && AllDrained(l.amm)
    ensures Flows(l, Step(l, now, call), k, if Apply(l, now, call).Ok? then FlowOf(l, call, k) else STILL)
    ensures AllDrained(Step(l, now, call).amm)
  {
    hide Lawful, Apply, FlowOf, Surplus, LpFees, Dust, Drained;
    if Apply(l, now, call).Ok? {
      forall j ensures Drained(Apply(l, now, call).value.amm, j) {
        ApplyFlows(l, now, call, j);
        assert Drained(l.amm, j);
      }
      ApplyFlows(l, now, call, k);
    }
  }

  lemma {:induction false} RunFlows(l: Ledger, events: seq<Event>, k: nat)
    requires Lawful(l) && AllDrained(l.amm)
    ensures Flows(l, Run(l, events), k, FlowOver(l, events, k))
    decreases |events|
  {
    hide Lawful, Apply, Step, FlowOf, Surplus, LpFees, Dust, Drained, AllDrained;
    if events != [] {
      var now, call := events[0].now, events[0].call;
      StepFlows(l, now, call, k);
      StepLawful(l, now, call);
      RunFlows(Step(l, now, call), events[1..], k);
    }
  }

  lemma NothingFlowed(k: nat)
    ensures AllDrained(GENESIS.amm) && Lawful(GENESIS)
    ensures Surplus(GENESIS, k, Yes) == 0 && Surplus(GENESIS, k, No) == 0
    ensures LpFees(GENESIS.vault, k) == 0 && Dust(GENESIS, k) == 0
  {
    GenesisLawful();
  }

  /** Inventory over every run: the pool contract holds exactly the reserves of a pool and what was given to it by
      transfers. */
  lemma InventoryExactly(events: seq<Event>, id: nat)
    requires id in Run(GENESIS, events).amm.pools
    ensures var l := Run(GENESIS, events);
            var (r, given) := (l.amm.pools[id].reserves, FlowOver(GENESIS, events, id));
            && Balance(l.tokens, AmmContract, Side(id, Yes)) == r.yes + given.yes
            && Balance(l.tokens, AmmContract, Side(id, No)) == r.no + given.no
  {
    hide Run, FlowOver, Lawful, AllDrained, LpFees, Dust, Drained;
    NothingFlowed(id);
    RunFlows(GENESIS, events, id);
  }

  /** What a provider is owed, by position. */
  function OwedOf(feePerShare: int): LpPosition -> int {
    (p: LpPosition) =>
      if feePerShare <= p.checkpoint || p.shares <= 0 then 0
      else TruncDiv(p.shares * (feePerShare - p.checkpoint), FEE_SCALE)
  }

  lemma OwedOfPosition(book: LpBook, lp: Address)
    requires lp in book.positions
    ensures FeesOwed(book, lp) == OwedOf(book.feePerShare)(book.positions[lp])
  {
  }

  /** What providers have earned and what they are owed differ by less than one unit each. */
  lemma {:induction false} OwedBySum(positions: map<Address, LpPosition>, feePerShare: int)
    requires forall lp :: lp in positions ==> positions[lp].shares >= 0 && positions[lp].checkpoint <= feePerShare
    ensures FEE_SCALE * SumBy(positions, OwedOf(feePerShare)) <= SumBy(positions, Earned(feePerShare))
    ensures SumBy(positions, Earned(feePerShare)) <= FEE_SCALE * (SumBy(positions, OwedOf(feePerShare)) + |positions|)
    decreases |positions|
  {
    if positions != map[] {
      var lp :| lp in positions;
      var p := positions[lp];
      SumByTake(positions, OwedOf(feePerShare), lp);
      SumByTake(positions, Earned(feePerShare), lp);
      OwedBySum(positions - {lp}, feePerShare);
      OwedAndEarned(p, feePerShare);
      assert |positions - {lp}| == |positions| - 1;
    }
  }

  lemma OwedAndEarned(p: LpPosition, feePerShare: int)
    requires p.shares >= 0 && p.checkpoint <= feePerShare
    ensures FEE_SCALE * OwedOf(feePerShare)(p) <= Earned(feePerShare)(p) <= FEE_SCALE * (OwedOf(feePerShare)(p) + 1)
  {
    ProductNonNegative(p.shares, feePerShare - p.checkpoint);
    FloorBounds(p.shares * (feePerShare - p.checkpoint), FEE_SCALE);
  }

  /** Provider fees over every run: the bucket is what trades paid in less what was paid out; the providers are owed all
      of it up to one unit for each of them and the rounding of the accumulator, which per trade is less than one unit
      of 1 / FEE_SCALE a share and per payout less than one unit. */
  lemma FeesReachProviders(events: seq<Event>, id: nat)
    requires id in Run(GENESIS, events).amm.pools
    ensures var l := Run(GENESIS, events);
            var (book, over) := (l.amm.pools[id].lp, FlowOver(GENESIS, events, id));
            var owed := SumBy(book.positions, OwedOf(book.feePerShare));
            && AccountOf(l.vault, id).fees.lp == over.feeIn - over.feeOut
            && owed <= over.feeIn - over.feeOut
            && FEE_SCALE * (over.feeIn - over.feeOut - owed - |book.positions|) <= over.dust
            && forall lp :: lp in book.positions ==> OwedOf(book.feePerShare)(book.positions[lp]) == FeesOwed(book, lp)
  {
    hide Run, FlowOver, Lawful, AllDrained, Surplus, Drained, PoolsSound;
    NothingFlowed(id);
    RunFlows(GENESIS, events, id);
    var l := Reachable(events);
    FlowParts(l);
    SoundPool(l, id);
    var book := l.amm.pools[id].lp;
    forall lp | lp in book.positions
      ensures book.positions[lp].shares >= 0 && book.positions[lp].checkpoint <= book.feePerShare
    {
      assert SaneLp(book, book.positions[lp]);
    }
    forall lp | lp in book.positions ensures OwedOf(book.feePerShare)(book.positions[lp]) == FeesOwed(book, lp) {
      OwedOfPosition(book, lp);
    }
    OwedBySum(book.positions, book.feePerShare);
  }
}
