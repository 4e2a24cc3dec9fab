// Every call that reaches the collateral side of the system, and runs of such calls.

module LedgerCalls {
  import opened DikeTypes
  import opened MarketRegistry
  import opened TokenLedger
  import opened VaultLedger
  import opened AmmPools

  /** A top-level transaction. The resolution contracts appear through what they do to the registry and to
      bonds, in any order and at any time; nothing here relies on them behaving. */
  datatype Call =
    | Creation(creator: Address, terms: Terms, fee: FeeConfig, liquidity: int)
    | Purchase(trader: Address, pool: nat, amountIn: int, minOut: int, deadline: nat, yes: bool, parent: Parent)
    | Sale(trader: Address, pool: nat, amountIn: int, minOut: int, deadline: nat, yes: bool)
    | Liquidation(liquidator: Address, user: Address, pool: nat, outcome: Outcome)
    | LegLiquidation(liquidator: Address, user: Address, pool: nat, outcome: Outcome)
    | Seeding(lp: Address, pool: nat, amount: int)
    | Addition(lp: Address, pool: nat, amount: int)
    | Removal(lp: Address, pool: nat, shares: int)
    | FeeClaim(lp: Address, pool: nat)
    | Transfer(from: Address, to: Address, side: Side, amount: int)
    | LosingBurn(owner: Address, side: Side, amount: int)
    | Repayment(user: Address, market: nat, amount: int)
    | Redemption(user: Address, market: nat, outcome: Outcome, amount: int)
    | Refund(user: Address, market: nat, outcome: Outcome, amount: int)
    | BondLock(key: BondKey, market: nat, amount: int)
    | BondUnlock(key: BondKey, to: Address, amount: int)
    | FeeSweep(market: nat)
    | RegistryMove(move: RegistryMove)
    | Pause(contract: Pausable, paused: bool)

  datatype RegistryMove =
    | Status(market: nat, next: MarketStatus)
    | Close(market: nat)
    | Requested(market: nat, request: nat)
    | Final(market: nat, outcome: Outcome)

  datatype Pausable = TheVault | TheAmm | TheRegistry

  function ApplyRegistry(reg: RegistryState, now: nat, move: RegistryMove): Result<RegistryState> {
    match move
    case Status(m, next) => Transition(reg, m, next)
    case Close(m) => CloseTrading(reg, now, m)
    case Requested(m, request) => MarkResolutionRequested(reg, m, request)
    case Final(m, outcome) => SetFinalOutcome(reg, m, outcome)
  }

  function ApplyPause(l: Ledger, contract: Pausable, paused: bool): Ledger {
    match contract
    case TheVault => l.(vault := l.vault.(purse := l.vault.purse.(paused := paused)))
    case TheAmm => l.(amm := l.amm.(paused := paused))
    case TheRegistry => l.(reg := l.reg.(paused := paused))
  }

  function ApplyVault(v: VaultState, reg: RegistryState, call: Call): Result<VaultState>
    requires call.Repayment? || call.BondLock? || call.BondUnlock? || call.FeeSweep?
  {
    match call
    case Repayment(user, m, amount) =>
      var _ :- RequireAuth(user);
      var (v1, _) :- RepayChildCollateral(v, reg, Leg(m, user), amount);
      Ok(v1)
    case BondLock(key, m, amount) =>
      var _ :- RequireAuth(key.user);
      LockBond(v, reg, key, m, amount)
    case BondUnlock(key, to, amount) => UnlockBond(v, key, to, amount)
    case FeeSweep(m) =>
      var (v1, _) :- SweepProtocolFees(v, reg, m);
      Ok(v1)
  }

  function ApplyTokens(l: Ledger, call: Call): Result<TokenState>
    requires call.Transfer? || call.LosingBurn?
  {
    match call
    case Transfer(from, to, side, amount) =>
      var _ :- RequireAuth(from);
      TransferPosition(l.vault, l.tokens, from, to, side, amount)
    case LosingBurn(owner, side, amount) =>
      var _ :- RequireAuth(owner);
      Burn(l.tokens, owner, side, amount)
  }

  function ApplyRedeem(l: Ledger, call: Call): Result<Ledger>
    requires call.Redemption? || call.Refund?
  {
    var _ :- RequireAuth(call.user);
    var q := Position(call.market, call.user, call.outcome);
    var (v1, t1, _) :- if call.Redemption? then RedeemResolved(l.vault, l.reg, l.tokens, q, call.amount)
                       else RedeemCancelled(l.vault, l.reg, l.tokens, q, call.amount);
    Ok(l.(vault := v1, tokens := t1))
  }

  function ApplyTrade(l: Ledger, now: nat, call: Call): Result<Ledger>
    requires call.Purchase? || call.Sale? || call.Liquidation? || call.LegLiquidation?
  {
    match call
    case Purchase(trader, pool, amountIn, minOut, deadline, yes, parent) =>
      var (l1, _) :- Buy(l, now, trader, pool, amountIn, minOut, deadline, yes, parent);
      Ok(l1)
    case Sale(trader, pool, amountIn, minOut, deadline, yes) =>
      var (l1, _) :- Sell(l, now, trader, pool, amountIn, minOut, deadline, yes);
      Ok(l1)
    case Liquidation(liquidator, user, pool, outcome) =>
      var (l1, _) :- Liquidate(l, now, liquidator, user, pool, outcome);
      Ok(l1)
    case LegLiquidation(liquidator, user, pool, outcome) =>
      var (l1, _) :- LiquidateChild(l, now, liquidator, user, pool, outcome);
      Ok(l1)
  }

  function ApplyLiquidity(l: Ledger, now: nat, call: Call): Result<Ledger>
    requires call.Creation? || call.Seeding? || call.Addition? || call.Removal? || call.FeeClaim?
  {
    match call
    case Creation(creator, terms, fee, liquidity) =>
      var (l1, _) :- CreateMarket(l, now, creator, terms, fee, liquidity);
      Ok(l1)
    case Seeding(lp, pool, amount) => Seed(l, now, lp, pool, amount)
    case Addition(lp, pool, amount) =>
      var (l1, _) :- Add(l, now, lp, pool, amount);
      Ok(l1)
    case Removal(lp, pool, shares) =>
      var (l1, _) :- Remove(l, now, lp, pool, shares);
      Ok(l1)
    case FeeClaim(lp, pool) =>
      var (l1, _) :- ClaimFees(l, lp, pool);
      Ok(l1)
  }

  function Apply(l: Ledger, now: nat, call: Call): Result<Ledger> {
    match call
    case Creation(_, _, _, _) => ApplyLiquidity(l, now, call)
    case Seeding(_, _, _) => ApplyLiquidity(l, now, call)
    case Addition(_, _, _) => ApplyLiquidity(l, now, call)
    case Removal(_, _, _) => ApplyLiquidity(l, now, call)
    case FeeClaim(_, _) => ApplyLiquidity(l, now, call)
    case Purchase(_, _, _, _, _, _, _) => ApplyTrade(l, now, call)
    case Sale(_, _, _, _, _, _) => ApplyTrade(l, now, call)
    case Liquidation(_, _, _, _) => ApplyTrade(l, now, call)
    case LegLiquidation(_, _, _, _) => ApplyTrade(l, now, call)
    case Redemption(_, _, _, _) => ApplyRedeem(l, call)
    case Refund(_, _, _, _) => ApplyRedeem(l, call)
    case RegistryMove(move) =>
      var reg :- ApplyRegistry(l.reg, now, move);
      Ok(l.(reg := reg))
    case Pause(contract, paused) => Ok(ApplyPause(l, contract, paused))
    case Transfer(_, _, _, _) =>
      var t :- ApplyTokens(l, call);
      Ok(l.(tokens := t))
    case LosingBurn(_, _, _) =>
      var t :- ApplyTokens(l, call);
      Ok(l.(tokens := t))
    case _ =>
      var v :- ApplyVault(l.vault, l.reg, call);
      Ok(l.(vault := v))
  }

  /** A failed transaction leaves nothing behind. */
  function Step(l: Ledger, now: nat, call: Call): Ledger {
    var r := Apply(l, now, call);
    if r.Ok? then r.value else l
  }

  datatype Event = At(now: nat, call: Call)

  function Run(l: Ledger, events: seq<Event>): Ledger
    decreases |events|
  {
    if events == [] then l else Run(Step(l, events[0].now, events[0].call), events[1..])
  }

  const GENESIS := Ledger(
    RegistryState(map[], 1, false), EMPTY_VAULT, NO_TOKENS, AmmState(map[], 1, false))
}
