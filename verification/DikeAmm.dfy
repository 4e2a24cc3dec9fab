// The automated market maker as a contract: its storage, and its calls to the vault and the token ledger in
// the source's order. Each method is proved against AmmPools.

module DikeAmm {
  import opened DikeTypes
  import opened DikeMath
  import opened MarketRegistry
  import opened PoolQuotes
  import opened CollateralVault
  import T = TokenLedger
  import V = VaultLedger
  import A = AmmPools

  class Amm {
    var pools: map<nat, A.Pool>
    var nextPoolId: nat
    var paused: bool

    ghost function State(): A.AmmState
      reads this
    {
      A.AmmState(pools, nextPoolId, paused)
    }

    ghost function Ledger(registry: Registry, vault: Vault, tokens: Tokens): A.Ledger
      reads this, registry, vault, tokens
    {
      A.Ledger(registry.State(), vault.State(), tokens.State(), State())
    }

    constructor ()
      ensures State() == A.AmmState(map[], 1, false)
    {
      pools, nextPoolId, paused := map[], 1, false;
    }

    /** Puts the storage back to a snapshot, as the host does when a transaction fails. */
    method Restore(ghost s: A.AmmState, p: map<nat, A.Pool>, n: nat, b: bool)
      requires s == A.AmmState(p, n, b)
      modifies this
      ensures State() == s
    {
      pools, nextPoolId, paused := p, n, b;
    }

    method RequireLive(registry: Registry, vault: Vault, tokens: Tokens, pool: A.Pool, now: nat, deadline: nat)
      returns (r: Result<()>)
      ensures r == A.RequireLive(Ledger(registry, vault, tokens), pool, now, deadline)
    {
      if paused || !pool.live {
        return Err(InvalidStatus);
      }
      if now > deadline {
        return Err(DeadlineExpired);
      }
      r := RequireMarketTradeable(registry, now, pool.market);
    }

    method RequireMarketTradeable(registry: Registry, now: nat, m: nat) returns (r: Result<()>)
      ensures r == A.RequireTradeable(registry.State(), now, m)
    {
      if m !in registry.markets {
        return Err(MarketNotFound);
      }
      var market := registry.markets[m];
      if registry.paused || market.status != Live || now >= market.terms.expiry {
        return Err(InvalidStatus);
      }
      return Ok(());
    }

    /** The providers' part of a fee, the other two parts, and the accumulator. */
    static method AccrueFees(book: A.LpBook, fee: int, config: FeeConfig) returns (book': A.LpBook, split: A.FeeSplit)
      ensures split == A.SplitTradingFee(fee, config)
      ensures book' == A.AccrueFees(book, split.lp)
    {
      var lp := Bps(fee, config.lpShareBps);
      var protocol := Bps(fee, config.treasuryShareBps);
      split := A.FeeSplit(lp, protocol, fee - lp - protocol);
      book' := book;
      if book.total > 0 && lp > 0 {
        var delta := TruncDiv(lp * A.FEE_SCALE, book.total);
        book' := book.(feePerShare := book.feePerShare + delta);
      }
    }

    static method PriceSell(pool: A.Pool, amountIn: int, outcome: Outcome) returns (r: Result<A.Trade>)
      ensures r == A.PriceSell(pool, amountIn, outcome)
    {
      hide QuoteSell;
      var quote := ComputeQuoteSell(pool.reserves.Of(outcome), pool.reserves.Of(A.Opposite(outcome)), amountIn);
      var gross :- quote;
      var (fee, _) := SplitFee(gross, pool.fee.tradingFeeBps);
      return Ok(A.Trade(outcome, amountIn, gross, fee));
    }

    /** The collateral of a purchase: credit on a parent position, or cash. */
    static method PayIn(registry: Registry, vault: Vault, trader: Address, m: nat, parent: A.Parent, trade: A.Trade)
      returns (r: Result<()>)
      modifies vault
      ensures match A.PayIn(old(vault.State()), registry.State(), trader, m, parent, trade)
              case Ok(v) => r == Ok(()) && vault.State() == v
              case Err(e) => r == Err(e)
    {
      hide V.Deposit, V.RecordCashStake, V.OpenCredit;
      match parent {
        case FromParent(q) =>
          r := vault.OpenChildCreditForTrade(registry, V.Position(q.market, trader, q.outcome), m, trade.amountIn);
        case NoParent =>
          var _ :- vault.DepositForMarket(registry, m, trade.amountIn);
          r := vault.RecordCashStake(V.Position(m, trader, trade.outcome), trade.amountIn, trade.gross);
      }
    }

    method Buy(registry: Registry, vault: Vault, tokens: Tokens, now: nat, trader: Address, id: nat, amountIn: int,
               minOut: int, deadline: nat, yes: bool, parent: A.Parent) returns (r: Result<int>)
      modifies this, vault, tokens
      ensures match A.Buy(old(Ledger(registry, vault, tokens)), now, trader, id, amountIn, minOut, deadline,
                          yes, parent)
              case Ok((l, out)) => r == Ok(out) && Ledger(registry, vault, tokens) == l
              case Err(e) => r == Err(e)
    {
      hide A.RequireLive, QuoteBuy, A.SettleBuy;
      var _ :- RequireAuth(trader);
      if amountIn <= 0 {
        return Err(InvalidAmount);
      }
      if id !in pools {
        return Err(PoolNotFound);
      }
      var pool := pools[id];
      var _ :- RequireLive(registry, vault, tokens, pool, now, deadline);
      var outcome := A.SideOf(yes);
      var (fee, net) := SplitFee(amountIn, pool.fee.tradingFeeBps);
      var out :- QuoteBuy(pool.reserves.Of(outcome), pool.reserves.Of(A.Opposite(outcome)), net);
      if out < minOut {
        return Err(SlippageExceeded);
      }
      QuotedNetPositive(pool.reserves.Of(outcome), pool.reserves.Of(A.Opposite(outcome)), net);
      r := SettleBuy(registry, vault, tokens, trader, id, pool, A.Trade(outcome, amountIn, out, fee), parent);
    }

    /** A priced purchase: pay in, mint, collect the fee, hand the tokens over. */
    method SettleBuy(registry: Registry, vault: Vault, tokens: Tokens, trader: Address, id: nat, pool: A.Pool,
                     trade: A.Trade, parent: A.Parent) returns (r: Result<int>)
      requires trade.amountIn > trade.fee
      modifies this, vault, tokens
      ensures match A.SettleBuy(old(Ledger(registry, vault, tokens)), trader, id, pool, trade, parent)
              case Ok((l, out)) => r == Ok(out) && Ledger(registry, vault, tokens) == l
              case Err(e) => r == Err(e)
    {
      hide A.PayIn, V.CollectFee, A.TransferPosition, T.MintCompleteSet, A.SplitTradingFee, A.AccrueFees;
      var net := trade.amountIn - trade.fee;
      var _ :- PayIn(registry, vault, trader, pool.market, parent, trade);
      MintSucceeds(tokens.State(), pool.market, net);
      var minted := tokens.MintCompleteSet(AmmContract, pool.market, net);
      assert minted == Ok(());
      var book, split := AccrueFees(pool.lp, trade.fee, pool.fee);
      var _ :- vault.CollectFee(pool.market, split.lp, split.protocol, split.cod);
      var reserves := pool.reserves.Move(trade.outcome, net - trade.gross, net);
      var _ :- tokens.Transfer(vault, AmmContract, trader, T.Side(pool.market, trade.outcome), trade.gross);
      pools := pools[id := pool.(reserves := reserves, lp := book)];
      return Ok(trade.gross);
    }

    /** A purchase is quoted only for a positive net amount. */
    static lemma QuotedNetPositive(o: int, p: int, n: int)
      ensures QuoteBuy(o, p, n).Ok? ==> n > 0
    {
    }

    static lemma MintSucceeds(t: T.TokenState, m: nat, amount: int)
      ensures amount > 0 ==> T.MintCompleteSet(t, AmmContract, m, amount).Ok?
    {
    }

    method Sell(registry: Registry, vault: Vault, tokens: Tokens, now: nat, trader: Address, id: nat, amountIn: int,
                minOut: int, deadline: nat, yes: bool) returns (r: Result<int>)
      modifies this, vault, tokens
      ensures match A.Sell(old(Ledger(registry, vault, tokens)), now, trader, id, amountIn, minOut, deadline, yes)
              case Ok((l, net)) => r == Ok(net) && Ledger(registry, vault, tokens) == l
              case Err(e) => r == Err(e)
    {
      hide A.RequireLive, A.PriceSell, A.SettleSell;
      var _ :- RequireAuth(trader);
      if amountIn <= 0 {
        return Err(InvalidAmount);
      }
      if id !in pools {
        return Err(PoolNotFound);
      }
      var pool := pools[id];
      var _ :- RequireLive(registry, vault, tokens, pool, now, deadline);
      var trade :- PriceSell(pool, amountIn, A.SideOf(yes));
      if trade.gross - trade.fee < minOut {
        return Err(SlippageExceeded);
      }
      r := SettleSell(registry, vault, tokens, trader, id, pool, trade);
    }

    /** A priced sale: take the tokens, merge them, pay out, collect the fee. */
    method SettleSell(registry: Registry, vault: Vault, tokens: Tokens, trader: Address, id: nat, pool: A.Pool,
                      trade: A.Trade) returns (r: Result<int>)
      modifies this, vault, tokens
      ensures match A.SettleSell(old(Ledger(registry, vault, tokens)), trader, id, pool, trade)
              case Ok((l, net)) => r == Ok(net) && Ledger(registry, vault, tokens) == l
              case Err(e) => r == Err(e)
    {
      hide V.ReleaseTradePayout, V.CollectFee, A.TransferPosition, T.MergePositions, A.SplitTradingFee, A.AccrueFees;
      var net := trade.gross - trade.fee;
      var book, split := AccrueFees(pool.lp, trade.fee, pool.fee);
      var _ :- tokens.Transfer(vault, trader, AmmContract, T.Side(pool.market, trade.outcome), trade.amountIn);
      var _ :- tokens.MergePositions(AmmContract, pool.market, trade.gross);
      var _ :- vault.ReleaseTradePayout(registry, V.Position(pool.market, trader, trade.outcome), trade.amountIn, net);
      var _ :- vault.CollectFee(pool.market, split.lp, split.protocol, split.cod);
      var reserves := pool.reserves.Move(trade.outcome, trade.amountIn - trade.gross, -trade.gross);
      pools := pools[id := pool.(reserves := reserves, lp := book)];
      return Ok(net);
    }

    method ForceSell(registry: Registry, vault: Vault, tokens: Tokens, user: Address, id: nat, pool: A.Pool,
                     trade: A.Trade) returns (r: Result<()>)
      modifies this, vault, tokens
      ensures match A.ForceSell(old(Ledger(registry, vault, tokens)), user, id, pool, trade)
              case Ok(l) => r == Ok(()) && Ledger(registry, vault, tokens) == l
              case Err(e) => r == Err(e)
    {
      hide V.CollectFee, T.MovePosition, T.MergePositions, A.SplitTradingFee, A.AccrueFees;
      var book, split := AccrueFees(pool.lp, trade.fee, pool.fee);
      var _ :- tokens.TransferForced(user, AmmContract, T.Side(pool.market, trade.outcome), trade.amountIn);
      var _ :- tokens.MergePositions(AmmContract, pool.market, trade.gross);
      var _ :- vault.CollectFee(pool.market, split.lp, split.protocol, split.cod);
      var reserves := pool.reserves.Move(trade.outcome, trade.amountIn - trade.gross, -trade.gross);
      pools := pools[id := pool.(reserves := reserves, lp := book)];
      return Ok(());
    }

    /** Whether a position may be liquidated, and at what price. */
    method PriceLiquidation(registry: Registry, vault: Vault, tokens: Tokens, now: nat, liquidator: Address,
                            user: Address, id: nat, outcome: Outcome, isChild: bool)
      returns (r: Result<(A.Pool, A.Trade)>)
      ensures r == A.PriceLiquidation(Ledger(registry, vault, tokens), now, liquidator, user, id, outcome, isChild)
    {
      hide A.RequireLive, A.PriceSell;
      var _ :- RequireAuth(liquidator);
      if id !in pools {
        return Err(PoolNotFound);
      }
      var pool := pools[id];
      var _ :- RequireLive(registry, vault, tokens, pool, now, now);
      var debt := if isChild then Read(vault.childDebt, V.Leg(pool.market, user))
                  else Read(vault.used, V.Position(pool.market, user, outcome));
      if debt == 0 {
        return Err(InvalidInput);
      }
      var balance := tokens.BalanceOf(user, T.Side(pool.market, outcome));
      if balance <= 0 {
        return Err(InsufficientBalance);
      }
      var trade :- PriceSell(pool, balance, A.SideOf(outcome == Yes));
      var threshold := Bps(debt, A.LIQUIDATION_THRESHOLD_BPS);
      if trade.gross - trade.fee > threshold {
        return Err(NotLiquidatable);
      }
      return Ok((pool, trade));
    }

    method LiquidatePosition(registry: Registry, vault: Vault, tokens: Tokens, now: nat, liquidator: Address,
                             user: Address, id: nat, outcome: Outcome) returns (r: Result<V.Receipt>)
      modifies this, vault, tokens
      ensures match A.Liquidate(old(Ledger(registry, vault, tokens)), now, liquidator, user, id, outcome)
              case Ok((l, receipt)) => r == Ok(receipt) && Ledger(registry, vault, tokens) == l
              case Err(e) => r == Err(e)
    {
      hide A.PriceLiquidation, A.ForceSell, V.LiquidateRelease;
      var priced :- PriceLiquidation(registry, vault, tokens, now, liquidator, user, id, outcome, false);
      var (pool, trade) := priced;
      var _ :- ForceSell(registry, vault, tokens, user, id, pool, trade);
      var q := V.Position(pool.market, user, outcome);
      r := vault.LiquidateRelease(registry, q, trade.amountIn, trade.gross - trade.fee);
    }

    method LiquidateChildPosition(registry: Registry, vault: Vault, tokens: Tokens, now: nat, liquidator: Address,
                                  user: Address, id: nat, outcome: Outcome) returns (r: Result<V.Receipt>)
      modifies this, vault, tokens
      ensures match A.LiquidateChild(old(Ledger(registry, vault, tokens)), now, liquidator, user, id, outcome)
              case Ok((l, receipt)) => r == Ok(receipt) && Ledger(registry, vault, tokens) == l
              case Err(e) => r == Err(e)
    {
      hide A.PriceLiquidation, A.ForceSell, V.LiquidateChildRelease;
      var priced :- PriceLiquidation(registry, vault, tokens, now, liquidator, user, id, outcome, true);
      var (pool, trade) := priced;
      var _ :- ForceSell(registry, vault, tokens, user, id, pool, trade);
      var q := V.Position(pool.market, user, outcome);
      r := vault.LiquidateChildRelease(registry, q, trade.amountIn, trade.gross - trade.fee);
    }

    // -------------------------------------------------------------- liquidity

    method FundPool(registry: Registry, vault: Vault, tokens: Tokens, m: nat, amount: int) returns (r: Result<()>)
      modifies vault, tokens
      ensures match A.FundPool(old(Ledger(registry, vault, tokens)), m, amount)
              case Ok(l) => r == Ok(()) && Ledger(registry, vault, tokens) == l
              case Err(e) => r == Err(e)
    {
      hide V.Deposit, T.MintCompleteSet;
      var _ :- vault.DepositForMarket(registry, m, amount);
      r := tokens.MintCompleteSet(AmmContract, m, amount);
    }

    method SeedLiquidity(registry: Registry, vault: Vault, tokens: Tokens, now: nat, lp: Address, id: nat, amount: int)
      returns (r: Result<()>)
      modifies this, vault, tokens
      ensures match A.Seed(old(Ledger(registry, vault, tokens)), now, lp, id, amount)
              case Ok(l) => r == Ok(()) && Ledger(registry, vault, tokens) == l
              case Err(e) => r == Err(e)
    {
      hide A.FundPool;
      var _ :- RequireAuth(lp);
      if amount <= 0 {
        return Err(InvalidAmount);
      }
      if id !in pools {
        return Err(PoolNotFound);
      }
      var pool := pools[id];
      if pool.market !in registry.markets {
        return Err(MarketNotFound);
      }
      var market := registry.markets[pool.market];
      if now >= market.terms.expiry || (market.status != Created && market.status != Live) || market.hasFinal {
        return Err(InvalidStatus);
      }
      if pool.lp.total != 0 {
        return Err(InvalidStatus);
      }
      var _ :- FundPool(registry, vault, tokens, pool.market, amount);
      var book := pool.lp.(total := amount,
                           positions := pool.lp.positions[lp := A.LpPosition(amount, pool.lp.feePerShare)]);
      pools := pools[id := pool.(reserves := A.Reserves(amount, amount), live := true, lp := book)];
      return Ok(());
    }

    static method ComputeFeesOwed(book: A.LpBook, lp: Address) returns (owed: int)
      ensures owed == A.FeesOwed(book, lp)
    {
      var position := A.LpOf(book, lp);
      var delta := book.feePerShare - position.checkpoint;
      if delta <= 0 || position.shares <= 0 {
        return 0;
      }
      owed := TruncDiv(position.shares * delta, A.FEE_SCALE);
    }

    method AddLiquidity(registry: Registry, vault: Vault, tokens: Tokens, now: nat, lp: Address, id: nat, amount: int)
      returns (r: Result<int>)
      modifies this, vault, tokens
      ensures match A.Add(old(Ledger(registry, vault, tokens)), now, lp, id, amount)
              case Ok((l, shares)) => r == Ok(shares) && Ledger(registry, vault, tokens) == l
              case Err(e) => r == Err(e)
    {
      hide A.FundPool, A.RequireTradeable, A.FeesOwed, V.PayLpFees, Proportional;
      var _ :- RequireAuth(lp);
      if amount <= 0 {
        return Err(InvalidAmount);
      }
      if id !in pools {
        return Err(PoolNotFound);
      }
      var pool := pools[id];
      var _ :- RequireMarketTradeable(registry, now, pool.market);
      if !pool.live || pool.lp.total <= 0 || pool.reserves.yes <= 0 || pool.reserves.no <= 0 {
        return Err(InvalidStatus);
      }
      var _ :- FundPool(registry, vault, tokens, pool.market, amount);
      var yesShares :- Proportional(pool.lp.total, amount, pool.reserves.yes);
      var noShares :- Proportional(pool.lp.total, amount, pool.reserves.no);
      var shares := if yesShares < noShares then yesShares else noShares;
      if shares <= 0 {
        return Err(InvalidAmount);
      }
      var current := A.LpOf(pool.lp, lp).shares;
      var pending := ComputeFeesOwed(pool.lp, lp);
      var reserves := A.Reserves(pool.reserves.yes + amount, pool.reserves.no + amount);
      var book := A.SetLp(pool.lp, lp, current + shares, pool.lp.total + shares);
      pools := pools[id := pool.(reserves := reserves, lp := book)];
      if pending > 0 {
        var _ :- vault.ClaimLpFees(registry, pool.market, pending);
      }
      return Ok(shares);
    }

    method RemoveLiquidity(registry: Registry, vault: Vault, tokens: Tokens, now: nat, lp: Address, id: nat,
                           shares: int)
      returns (r: Result<A.Reserves>)
      modifies this, vault, tokens
      ensures match A.Remove(old(Ledger(registry, vault, tokens)), now, lp, id, shares)
              case Ok((l, out)) => r == Ok(out) && Ledger(registry, vault, tokens) == l
              case Err(e) => r == Err(e)
    {
      hide A.RequireRemovable, A.FeesOwed, V.PayLpFees, A.TransferPosition, Proportional;
      var _ :- RequireAuth(lp);
      if shares <= 0 {
        return Err(InvalidAmount);
      }
      if id !in pools {
        return Err(PoolNotFound);
      }
      var pool := pools[id];
      var _ :- RequireMarketLiquidityRemovable(registry, now, pool.market);
      var current := A.LpOf(pool.lp, lp).shares;
      if current < shares || pool.lp.total < shares {
        return Err(InsufficientBalance);
      }
      var pending := ComputeFeesOwed(pool.lp, lp);
      var yesOut :- Proportional(pool.reserves.yes, shares, pool.lp.total);
      var noOut :- Proportional(pool.reserves.no, shares, pool.lp.total);
      var reserves := A.Reserves(pool.reserves.yes - yesOut, pool.reserves.no - noOut);
      var book := A.SetLp(pool.lp, lp, current - shares, pool.lp.total - shares);
      pools := pools[id := pool.(reserves := reserves, lp := book)];
      if pending > 0 {
        var _ :- vault.ClaimLpFees(registry, pool.market, pending);
      }
      var _ :- tokens.Transfer(vault, AmmContract, lp, T.Side(pool.market, Yes), yesOut);
      var _ :- tokens.Transfer(vault, AmmContract, lp, T.Side(pool.market, No), noOut);
      return Ok(A.Reserves(yesOut, noOut));
    }

    method RequireMarketLiquidityRemovable(registry: Registry, now: nat, m: nat) returns (r: Result<()>)
      ensures r == A.RequireRemovable(registry.State(), now, m)
    {
      if m !in registry.markets {
        return Err(MarketNotFound);
      }
      var market := registry.markets[m];
      match market.status
      case Live => r := if market.hasFinal || now >= market.terms.expiry then Err(InvalidStatus) else Ok(());
      case Cancelled => r := if market.hasFinal then Err(InvalidStatus) else Ok(());
      case Resolved => r := Ok(());
      case _ => r := Err(InvalidStatus);
    }

    method ClaimLpFees(registry: Registry, vault: Vault, tokens: Tokens, lp: Address, id: nat) returns (r: Result<int>)
      modifies this, vault
      ensures match A.ClaimFees(old(Ledger(registry, vault, tokens)), lp, id)
              case Ok((l, owed)) => r == Ok(owed) && Ledger(registry, vault, tokens) == l
              case Err(e) => r == Err(e)
    {
      hide A.FeesOwed, V.PayLpFees;
      var _ :- RequireAuth(lp);
      if id !in pools {
        return Err(PoolNotFound);
      }
      var pool := pools[id];
      var position := A.LpOf(pool.lp, lp);
      if position.shares <= 0 {
        return Err(InsufficientBalance);
      }
      var owed := ComputeFeesOwed(pool.lp, lp);
      if owed <= 0 {
        return Ok(0);
      }
      pools := pools[id := pool.(lp := A.SetLp(pool.lp, lp, position.shares, pool.lp.total))];
      var _ :- vault.ClaimLpFees(registry, pool.market, owed);
      return Ok(owed);
    }

    method CreatePool(m: nat, fee: FeeConfig) returns (r: Result<nat>)
      modifies this
      ensures match A.CreatePool(old(State()), m, fee)
              case Ok((s, id)) => r == Ok(id) && State() == s
              case Err(e) => r == Err(e)
    {
      if fee.lpShareBps + fee.treasuryShareBps + fee.codShareBps != BPS_DENOMINATOR || fee.tradingFeeBps > 1_000 {
        return Err(InvalidInput);
      }
      var id := nextPoolId;
      pools := pools[id := A.Pool(m, A.Reserves(0, 0), A.LpBook(0, 0, map[]), false, fee)];
      nextPoolId := id + 1;
      return Ok(id);
    }
  }
}
