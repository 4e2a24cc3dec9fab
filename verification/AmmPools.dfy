// What each operation of the automated market maker does, with the calls it makes to the vault and the
// token ledger in the contract's order.

module AmmPools {
  import opened Basics
  import opened DikeTypes
  import opened DikeMath
  import opened MarketRegistry
  import opened PoolQuotes
  import opened TokenLedger
  import opened VaultLedger

  const FEE_SCALE := 1_000_000_000_000_000_000
  const LIQUIDATION_THRESHOLD_BPS := 10_500

  datatype LpPosition = LpPosition(shares: int, checkpoint: int)

  /** Who owns the pool, and the fee accumulator per share. */
  datatype LpBook = LpBook(total: int, feePerShare: int, positions: map<Address, LpPosition>)

  datatype Reserves = Reserves(yes: int, no: int)
  {
    function Of(outcome: Outcome): int {
      if outcome == Yes then yes else no
    }

    /** The reserve of an outcome and the opposite one moved by the given amounts. */
    function Move(outcome: Outcome, own: int, opposite: int): Reserves {
      if outcome == Yes then Reserves(yes + own, no + opposite) else Reserves(yes + opposite, no + own)
    }
  }

  datatype Pool = Pool(market: nat, reserves: Reserves, lp: LpBook, live: bool, fee: FeeConfig)

  datatype AmmState = AmmState(pools: map<nat, Pool>, nextPoolId: nat, paused: bool)

  /** The collateral side of the system: the four contracts that trading touches. */
  datatype Ledger = Ledger(reg: RegistryState, vault: VaultState, tokens: TokenState, amm: AmmState)

  const NO_LP := LpPosition(0, 0)

  function GetPool(amm: AmmState, id: nat): Result<Pool> {
    if id in amm.pools then Ok(amm.pools[id]) else Err(PoolNotFound)
  }

  function SetPool(amm: AmmState, id: nat, pool: Pool): AmmState {
    amm.(pools := amm.pools[id := pool])
  }

  function LpOf(book: LpBook, lp: Address): LpPosition {
    if lp in book.positions then book.positions[lp] else NO_LP
  }

  /** Writes a provider's shares and checkpoint, and the new total. */
  function SetLp(book: LpBook, lp: Address, shares: int, total: int): LpBook {
    book.(total := total, positions := book.positions[lp := LpPosition(shares, book.feePerShare)])
  }

  // ---------------------------------------------------------------- guards

  function RequireLive(l: Ledger, pool: Pool, now: nat, deadline: nat): Result<()> {
    if l.amm.paused || !pool.live then Err(InvalidStatus)
    else if now > deadline then Err(DeadlineExpired)
    else RequireTradeable(l.reg, now, pool.market)
  }

  function RequireTradeable(reg: RegistryState, now: nat, m: nat): Result<()> {
    var tradeable :- IsTradeable(reg, now, m);
    if tradeable then Ok(()) else Err(InvalidStatus)
  }

  function RequireRemovable(reg: RegistryState, now: nat, m: nat): Result<()> {
    var market :- GetMarket(reg, m);
    match market.status
    case Live => if market.hasFinal || now >= market.terms.expiry then Err(InvalidStatus) else Ok(())
    case Cancelled => if market.hasFinal then Err(InvalidStatus) else Ok(())
    case Resolved => Ok(())
    case _ => Err(InvalidStatus)
  }

  function RequireSeedable(reg: RegistryState, now: nat, m: nat): Result<()> {
    var market :- GetMarket(reg, m);
    if now >= market.terms.expiry || (market.status != Created && market.status != Live) || market.hasFinal
    then Err(InvalidStatus)
    else Ok(())
  }

  // ---------------------------------------------------------------- fees

  datatype FeeSplit = FeeSplit(lp: int, protocol: int, cod: int)

  function SplitTradingFee(fee: int, config: FeeConfig): FeeSplit {
    var lp := Bps(fee, config.lpShareBps);
    var protocol := Bps(fee, config.treasuryShareBps);
    FeeSplit(lp, protocol, fee - lp - protocol)
  }

  /** The liquidity providers' part of a fee raises the accumulator, rounded down per share. */
  function AccrueFees(book: LpBook, lpFee: int): LpBook {
    if book.total > 0 && lpFee > 0 then
      book.(feePerShare := book.feePerShare + TruncDiv(lpFee * FEE_SCALE, book.total))
    else book
  }

  function FeesOwed(book: LpBook, lp: Address): int {
    var position := LpOf(book, lp);
    var delta := book.feePerShare - position.checkpoint;
    if delta <= 0 || position.shares <= 0 then 0
    else TruncDiv(position.shares * delta, FEE_SCALE)
  }

  // ---------------------------------------------------------------- positions

  /** `transfer_position`: encumbered positions stay where they are. */
  function TransferPosition(v: VaultState, t: TokenState, from: Address, to: Address, s: Side, amount: int)
    : Result<TokenState>
  {
    if amount <= 0 then Err(InvalidAmount)
    else
      var _ :- AssertTransferAllowed(v, from, s, amount);
      MovePosition(t, from, to, s, amount)
  }

  // ---------------------------------------------------------------- trades

  /** A priced trade: the tokens and collateral that will move. */
  datatype Trade = Trade(outcome: Outcome, amountIn: int, gross: int, fee: int)

  datatype Parent = NoParent | FromParent(position: Position)

  function SideOf(yes: bool): Outcome {
    if yes then Yes else No
  }

  /** The collateral for a purchase: fresh from the trader, or credit drawn on a parent position. */
  function PayIn(v: VaultState, reg: RegistryState, trader: Address, m: nat, parent: Parent, trade: Trade)
    : Result<VaultState>
  {
    match parent
    case FromParent(q) => OpenCredit(v, reg, Position(q.market, trader, q.outcome), m, trade.amountIn)
    case NoParent =>
      var v1 :- Deposit(v, reg, m, trade.amountIn);
      RecordCashStake(v1, Position(m, trader, trade.outcome), trade.amountIn, trade.gross)
  }

  function BuyVault(v: VaultState, reg: RegistryState, trader: Address, m: nat, parent: Parent, trade: Trade,
                    split: FeeSplit): Result<VaultState>
  {
    var v1 :- PayIn(v, reg, trader, m, parent, trade);
    CollectFee(v1, m, split.lp, split.protocol, split.cod)
  }

  function BuyTokens(v: VaultState, t: TokenState, trader: Address, m: nat, trade: Trade): Result<TokenState> {
    var t1 :- MintCompleteSet(t, AmmContract, m, trade.amountIn - trade.fee);
    TransferPosition(v, t1, AmmContract, trader, Side(m, trade.outcome), trade.gross)
  }

  /** Buying: `gross` tokens come out of the pool for `amountIn - fee` new complete sets. The contract mints
      before it collects the fee; minting a positive amount cannot fail, so the order does not show. */
  function SettleBuy(l: Ledger, trader: Address, id: nat, pool: Pool, trade: Trade, parent: Parent)
    : Result<(Ledger, int)>
  {
    var split := SplitTradingFee(trade.fee, pool.fee);
    var v :- BuyVault(l.vault, l.reg, trader, pool.market, parent, trade, split);
    var t :- BuyTokens(v, l.tokens, trader, pool.market, trade);
    Ok((Ledger(l.reg, v, t, SetPool(l.amm, id, AfterBuy(pool, trade, split))), trade.gross))
  }

  function AfterBuy(pool: Pool, trade: Trade, split: FeeSplit): Pool {
    var net := trade.amountIn - trade.fee;
    pool.(reserves := pool.reserves.Move(trade.outcome, net - trade.gross, net), lp := AccrueFees(pool.lp, split.lp))
  }

  function Buy(l: Ledger, now: nat, trader: Address, id: nat, amountIn: int, minOut: int, deadline: nat,
               yes: bool, parent: Parent): Result<(Ledger, int)>
  {
    var _ :- RequireAuth(trader);
    if amountIn <= 0 then Err(InvalidAmount)
    else
      var pool :- GetPool(l.amm, id);
      var _ :- RequireLive(l, pool, now, deadline);
      var trade :- PriceBuy(pool, amountIn, SideOf(yes));
      if trade.gross < minOut then Err(SlippageExceeded)
      else SettleBuy(l, trader, id, pool, trade, parent)
  }

  function PriceBuy(pool: Pool, amountIn: int, outcome: Outcome): Result<Trade> {
    var (fee, net) := SplitFee(amountIn, pool.fee.tradingFeeBps);
    var out :- QuoteBuy(pool.reserves.Of(outcome), pool.reserves.Of(Opposite(outcome)), net);
    Ok(Trade(outcome, amountIn, out, fee))
  }

  function Opposite(outcome: Outcome): Outcome {
    if outcome == Yes then No else Yes
  }

  /** Selling: `amountIn` tokens go into the pool, `gross` complete sets are merged out of it. */
  function PriceSell(pool: Pool, amountIn: int, outcome: Outcome): Result<Trade> {
    var gross :- QuoteSell(pool.reserves.Of(outcome), pool.reserves.Of(Opposite(outcome)), amountIn);
    var (fee, _) := SplitFee(gross, pool.fee.tradingFeeBps);
    Ok(Trade(outcome, amountIn, gross, fee))
  }

  function AfterSell(pool: Pool, trade: Trade, split: FeeSplit): Pool {
    pool.(reserves := pool.reserves.Move(trade.outcome, trade.amountIn - trade.gross, -trade.gross),
          lp := AccrueFees(pool.lp, split.lp))
  }

  function SellTokens(v: VaultState, t: TokenState, trader: Address, m: nat, trade: Trade): Result<TokenState> {
    var t1 :- TransferPosition(v, t, trader, AmmContract, Side(m, trade.outcome), trade.amountIn);
    MergePositions(t1, AmmContract, m, trade.gross)
  }

  function SellVault(v: VaultState, reg: RegistryState, q: Position, trade: Trade, split: FeeSplit)
    : Result<VaultState>
  {
    var v1 :- ReleaseTradePayout(v, reg, q, trade.amountIn, trade.gross - trade.fee);
    CollectFee(v1, q.market, split.lp, split.protocol, split.cod)
  }

  function SettleSell(l: Ledger, trader: Address, id: nat, pool: Pool, trade: Trade): Result<(Ledger, int)> {
    var split := SplitTradingFee(trade.fee, pool.fee);
    var t :- SellTokens(l.vault, l.tokens, trader, pool.market, trade);
    var v :- SellVault(l.vault, l.reg, Position(pool.market, trader, trade.outcome), trade, split);
    Ok((Ledger(l.reg, v, t, SetPool(l.amm, id, AfterSell(pool, trade, split))), trade.gross - trade.fee))
  }

  function Sell(l: Ledger, now: nat, trader: Address, id: nat, amountIn: int, minOut: int, deadline: nat, yes: bool)
    : Result<(Ledger, int)>
  {
    var _ :- RequireAuth(trader);
    if amountIn <= 0 then Err(InvalidAmount)
    else
      var pool :- GetPool(l.amm, id);
      var _ :- RequireLive(l, pool, now, deadline);
      var trade :- PriceSell(pool, amountIn, SideOf(yes));
      if trade.gross - trade.fee < minOut then Err(SlippageExceeded)
      else SettleSell(l, trader, id, pool, trade)
  }

  // ---------------------------------------------------------------- liquidation

  function ForceTokens(t: TokenState, user: Address, m: nat, trade: Trade): Result<TokenState> {
    var t1 :- MovePosition(t, user, AmmContract, Side(m, trade.outcome), trade.amountIn);
    MergePositions(t1, AmmContract, m, trade.gross)
  }

  /** The user's whole balance is sold for them; the proceeds stay in the vault. */
  function ForceSell(l: Ledger, user: Address, id: nat, pool: Pool, trade: Trade): Result<Ledger> {
    var split := SplitTradingFee(trade.fee, pool.fee);
    var t :- ForceTokens(l.tokens, user, pool.market, trade);
    var v :- CollectFee(l.vault, pool.market, split.lp, split.protocol, split.cod);
    Ok(Ledger(l.reg, v, t, SetPool(l.amm, id, AfterSell(pool, trade, split))))
  }

  /** The forced sale of a balance whose proceeds no longer clear the debt by five per cent. */
  function PriceLiquidation(l: Ledger, now: nat, liquidator: Address, user: Address, id: nat, outcome: Outcome,
                            isChild: bool): Result<(Pool, Trade)>
  {
    var _ :- RequireAuth(liquidator);
    var pool :- GetPool(l.amm, id);
    var _ :- RequireLive(l, pool, now, now);
    var debt := if isChild then ChildDebt(l.vault, Leg(pool.market, user))
                else Used(l.vault, Position(pool.market, user, outcome));
    if debt == 0 then Err(InvalidInput)
    else
      var balance := Balance(l.tokens, user, Side(pool.market, outcome));
      if balance <= 0 then Err(InsufficientBalance)
      else
        var trade :- PriceSell(pool, balance, SideOf(outcome == Yes));
        if trade.gross - trade.fee > Bps(debt, LIQUIDATION_THRESHOLD_BPS) then Err(NotLiquidatable)
        else Ok((pool, trade))
  }

  function SettleLiquidation(l: Ledger, user: Address, id: nat, pool: Pool, trade: Trade, q: Position)
    : Result<(Ledger, Receipt)>
  {
    var l1 :- ForceSell(l, user, id, pool, trade);
    var (v, receipt) :- LiquidateRelease(l1.vault, l1.reg, q, trade.amountIn, trade.gross - trade.fee);
    Ok((l1.(vault := v), receipt))
  }

  function SettleLegLiquidation(l: Ledger, user: Address, id: nat, pool: Pool, trade: Trade, q: Position)
    : Result<(Ledger, Receipt)>
  {
    var l1 :- ForceSell(l, user, id, pool, trade);
    var (v, receipt) :- LiquidateChildRelease(l1.vault, l1.reg, q, trade.amountIn, trade.gross - trade.fee);
    Ok((l1.(vault := v), receipt))
  }

  function Liquidate(l: Ledger, now: nat, liquidator: Address, user: Address, id: nat, outcome: Outcome)
    : Result<(Ledger, Receipt)>
  {
    var (pool, trade) :- PriceLiquidation(l, now, liquidator, user, id, outcome, false);
    SettleLiquidation(l, user, id, pool, trade, Position(pool.market, user, outcome))
  }

  function LiquidateChild(l: Ledger, now: nat, liquidator: Address, user: Address, id: nat, outcome: Outcome)
    : Result<(Ledger, Receipt)>
  {
    var (pool, trade) :- PriceLiquidation(l, now, liquidator, user, id, outcome, true);
    SettleLegLiquidation(l, user, id, pool, trade, Position(pool.market, user, outcome))
  }

  // ---------------------------------------------------------------- liquidity

  /** Complete sets bought for the pool itself. */
  function FundPool(l: Ledger, m: nat, amount: int): Result<Ledger> {
    var v1 :- Deposit(l.vault, l.reg, m, amount);
    var t1 :- MintCompleteSet(l.tokens, AmmContract, m, amount);
    Ok(l.(vault := v1, tokens := t1))
  }

  function Seeded(pool: Pool, lp: Address, amount: int): Pool {
    pool.(reserves := Reserves(amount, amount), live := true, lp := SetLp(pool.lp, lp, amount, amount))
  }

  function Seed(l: Ledger, now: nat, lp: Address, id: nat, amount: int): Result<Ledger> {
    var _ :- RequireAuth(lp);
    if amount <= 0 then Err(InvalidAmount)
    else
      var pool :- GetPool(l.amm, id);
      var _ :- RequireSeedable(l.reg, now, pool.market);
      if pool.lp.total != 0 then Err(InvalidStatus)
      else
        var l1 :- FundPool(l, pool.market, amount);
        Ok(l1.(amm := SetPool(l1.amm, id, Seeded(pool, lp, amount))))
  }

  /** Pending fees leave the vault together with a change of position. */
  function PayPending(v: VaultState, reg: RegistryState, m: nat, pending: int): Result<VaultState> {
    if pending > 0 then PayLpFees(v, reg, m, pending) else Ok(v)
  }

  /** New shares at the less favourable of the two reserve ratios. */
  function SharesFor(pool: Pool, amount: int): Result<int> {
    var yesShares :- Proportional(pool.lp.total, amount, pool.reserves.yes);
    var noShares :- Proportional(pool.lp.total, amount, pool.reserves.no);
    if Min(yesShares, noShares) <= 0 then Err(InvalidAmount) else Ok(Min(yesShares, noShares))
  }

  function Added(pool: Pool, lp: Address, amount: int, shares: int): Pool {
    pool.(reserves := Reserves(pool.reserves.yes + amount, pool.reserves.no + amount),
          lp := SetLp(pool.lp, lp, LpOf(pool.lp, lp).shares + shares, pool.lp.total + shares))
  }

  function Add(l: Ledger, now: nat, lp: Address, id: nat, amount: int): Result<(Ledger, int)> {
    var _ :- RequireAuth(lp);
    if amount <= 0 then Err(InvalidAmount)
    else
      var pool :- GetPool(l.amm, id);
      var _ :- RequireTradeable(l.reg, now, pool.market);
      if !pool.live || pool.lp.total <= 0 || pool.reserves.yes <= 0 || pool.reserves.no <= 0 then Err(InvalidStatus)
      else
        var l1 :- FundPool(l, pool.market, amount);
        var shares :- SharesFor(pool, amount);
        var v :- PayPending(l1.vault, l1.reg, pool.market, FeesOwed(pool.lp, lp));
        Ok((Ledger(l1.reg, v, l1.tokens, SetPool(l1.amm, id, Added(pool, lp, amount, shares))), shares))
  }

  function Withdrawal(pool: Pool, shares: int): Result<Reserves> {
    var yesOut :- Proportional(pool.reserves.yes, shares, pool.lp.total);
    var noOut :- Proportional(pool.reserves.no, shares, pool.lp.total);
    Ok(Reserves(yesOut, noOut))
  }

  function Removed(pool: Pool, lp: Address, shares: int, out: Reserves): Pool {
    pool.(reserves := Reserves(pool.reserves.yes - out.yes, pool.reserves.no - out.no),
          lp := SetLp(pool.lp, lp, LpOf(pool.lp, lp).shares - shares, pool.lp.total - shares))
  }

  /** Both legs of a withdrawal leave the pool; neither may be empty. */
  function HandOut(v: VaultState, t: TokenState, lp: Address, m: nat, out: Reserves): Result<TokenState> {
    var t1 :- TransferPosition(v, t, AmmContract, lp, Side(m, Yes), out.yes);
    TransferPosition(v, t1, AmmContract, lp, Side(m, No), out.no)
  }

  function Remove(l: Ledger, now: nat, lp: Address, id: nat, shares: int): Result<(Ledger, Reserves)> {
    var _ :- RequireAuth(lp);
    if shares <= 0 then Err(InvalidAmount)
    else
      var pool :- GetPool(l.amm, id);
      var _ :- RequireRemovable(l.reg, now, pool.market);
      if LpOf(pool.lp, lp).shares < shares || pool.lp.total < shares then Err(InsufficientBalance)
      else
        var out :- Withdrawal(pool, shares);
        var v :- PayPending(l.vault, l.reg, pool.market, FeesOwed(pool.lp, lp));
        var t :- HandOut(v, l.tokens, lp, pool.market, out);
        Ok((Ledger(l.reg, v, t, SetPool(l.amm, id, Removed(pool, lp, shares, out))), out))
  }

  function ClaimFees(l: Ledger, lp: Address, id: nat): Result<(Ledger, int)> {
    var _ :- RequireAuth(lp);
    var pool :- GetPool(l.amm, id);
    var position := LpOf(pool.lp, lp);
    if position.shares <= 0 then Err(InsufficientBalance)
    else
      var owed := FeesOwed(pool.lp, lp);
      if owed <= 0 then Ok((l, 0))
      else
        var v :- PayLpFees(l.vault, l.reg, pool.market, owed);
        var claimed := pool.(lp := SetLp(pool.lp, lp, position.shares, pool.lp.total));
        Ok((l.(vault := v, amm := SetPool(l.amm, id, claimed)), owed))
  }

  // ---------------------------------------------------------------- creation

  function CreatePool(amm: AmmState, m: nat, fee: FeeConfig): Result<(AmmState, nat)> {
    if !fee.Valid() then Err(InvalidInput)
    else
      var pool := Pool(m, Reserves(0, 0), LpBook(0, 0, map[]), false, fee);
      Ok((AmmState(amm.pools[amm.nextPoolId := pool], amm.nextPoolId + 1, amm.paused), amm.nextPoolId))
  }

  /** The factory's creation of a market: registry entry, pool, first liquidity, activation, all or nothing.
      The factory refuses unless both counters agree. */
  function CreateMarket(l: Ledger, now: nat, creator: Address, terms: Terms, fee: FeeConfig, liquidity: int)
    : Result<(Ledger, nat)>
  {
    var _ :- RequireAuth(creator);
    var (reg, m) :- RegisterMarket(l.reg, now, terms);
    var (amm, id) :- CreatePool(l.amm, m, fee);
    if id != m then Err(InvalidStatus)
    else
      var l1 :- Seed(l.(reg := reg, amm := amm), now, creator, id, liquidity);
      var live :- Transition(l1.reg, m, Live);
      Ok((l1.(reg := live), m))
  }
}
