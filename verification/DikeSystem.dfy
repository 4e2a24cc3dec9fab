// The deployed contracts together. A transaction is a call that either succeeds or is reverted by the host,
// and the machine it drives is exactly the one whose runs LedgerLaws speaks about.

module DikeSystem {
  import opened DikeTypes
  import opened MarketRegistry
  import opened CollateralVault
  import opened DikeAmm
  import T = TokenLedger
  import V = VaultLedger
  import A = AmmPools
  import C = LedgerCalls
  import L = LedgerLaws

  class System {
    const registry: Registry
    const vault: Vault
    const tokens: Tokens
    const amm: Amm

    ghost function Ledger(): A.Ledger
      reads this, registry, vault, tokens, amm
    {
      A.Ledger(registry.State(), vault.State(), tokens.State(), amm.State())
    }

    constructor ()
      ensures fresh(registry) && fresh(vault) && fresh(tokens) && fresh(amm)
      ensures Ledger() == C.GENESIS && L.Lawful(Ledger())
    {
      registry := new Registry();
      vault := new Vault();
      tokens := new Tokens();
      amm := new Amm();
      new;
      L.GenesisLawful();
    }

    /** One transaction: the new state is the step of the ledger machine, which keeps every law. */
    method Invoke(now: nat, call: C.Call) returns (ok: bool)
      modifies registry, vault, tokens, amm
      ensures Ledger() == C.Step(old(Ledger()), now, call)
      ensures ok == C.Apply(old(Ledger()), now, call).Ok?
      ensures L.Lawful(old(Ledger())) ==> L.Lawful(Ledger())
    {
      hide C.Apply, L.Lawful;
      ghost var before := Ledger();
      var m, n, p := registry.markets, registry.nextId, registry.paused;
      var accounts, used, parentDebt, childDebt := vault.accounts, vault.used, vault.parentDebt, vault.childDebt;
      var stake, lender, children, bonds := vault.stake, vault.lender, vault.children, vault.bonds;
      var balance, reserve, paused := vault.balance, vault.reserve, vault.paused;
      ghost var history, bondsPaid := vault.history, vault.bondsPaid;
      var balances, backing := tokens.balances, tokens.backing;
      ghost var burned := tokens.burned;
      var pools, nextPoolId, ammPaused := amm.pools, amm.nextPoolId, amm.paused;

      ok := Dispatch(now, call);

      if !ok {
        registry.Restore(before.reg, m, n, p);
        vault.RestoreDebts(before.vault, used, parentDebt, childDebt, stake, lender, children);
        vault.RestoreBooks(before.vault, accounts, bonds, balance, reserve, paused, history, bondsPaid);
        tokens.Restore(before.tokens, balances, backing, burned);
        amm.Restore(before.amm, pools, nextPoolId, ammPaused);
      }
      if L.Lawful(before) {
        L.StepLawful(before, now, call);
      }
    }

    method Dispatch(now: nat, call: C.Call) returns (ok: bool)
      modifies registry, vault, tokens, amm
      ensures match C.Apply(old(Ledger()), now, call)
              case Ok(l) => ok && Ledger() == l
              case Err(_) => !ok
    {
      hide C.ApplyTrade, C.ApplyLiquidity, C.ApplyRedeem, C.ApplyVault, C.ApplyTokens, C.ApplyRegistry;
      if call.Creation? || call.Seeding? || call.Addition? || call.Removal? || call.FeeClaim? {
        ok := Liquidity(now, call);
      } else if call.Purchase? || call.Sale? || call.Liquidation? || call.LegLiquidation? {
        ok := Trade(now, call);
      } else if call.Redemption? || call.Refund? {
        ok := Redeem(call);
      } else if call.RegistryMove? {
        ok := Move(now, call.move);
      } else if call.Pause? {
        SetPaused(call.contract, call.paused);
        ok := true;
      } else if call.Transfer? || call.LosingBurn? {
        ok := MoveTokens(call);
      } else {
        ok := CallVault(call);
      }
    }

    method SetPaused(contract: C.Pausable, paused: bool)
      modifies registry, vault, amm
      ensures Ledger() == C.ApplyPause(old(Ledger()), contract, paused)
    {
      match contract
      case TheVault => vault.paused := paused;
      case TheAmm => amm.paused := paused;
      case TheRegistry => registry.paused := paused;
    }

    method Move(now: nat, move: C.RegistryMove) returns (ok: bool)
      modifies registry
      ensures match C.ApplyRegistry(old(registry.State()), now, move)
              case Ok(s) => ok && registry.State() == s
              case Err(_) => !ok
    {
      var r: Result<()>;
      match move {
        case Status(m, next) => r := registry.TransitionTo(m, next);
        case Close(m) => r := registry.Close(now, m);
        case Requested(m, request) => r := registry.MarkRequested(m, request);
        case Final(m, outcome) => r := registry.Finalize(m, outcome);
      }
      ok := r.Ok?;
    }

    method CallVault(call: C.Call) returns (ok: bool)
      requires call.Repayment? || call.BondLock? || call.BondUnlock? || call.FeeSweep?
      modifies vault
      ensures match C.ApplyVault(old(vault.State()), registry.State(), call)
              case Ok(s) => ok && vault.State() == s
              case Err(_) => !ok
    {
      hide V.RepayChildCollateral, V.LockBond, V.UnlockBond, V.SweepProtocolFees;
      match call
      case Repayment(user, m, amount) =>
        if !user.Account? {
          return false;
        }
        var r := vault.RepayChildCollateral(registry, V.Leg(m, user), amount);
        ok := r.Ok?;
      case BondLock(key, m, amount) =>
        if !key.user.Account? {
          return false;
        }
        var r := vault.LockBond(registry, key, m, amount);
        ok := r.Ok?;
      case BondUnlock(key, to, amount) =>
        var r := vault.UnlockBond(key, to, amount);
        ok := r.Ok?;
      case FeeSweep(m) =>
        var r := vault.SweepProtocolFees(registry, m);
        ok := r.Ok?;
    }

    method MoveTokens(call: C.Call) returns (ok: bool)
      requires call.Transfer? || call.LosingBurn?
      modifies tokens
      ensures match C.ApplyTokens(old(Ledger()), call)
              case Ok(s) => ok && tokens.State() == s
              case Err(_) => !ok
    {
      hide A.TransferPosition, T.Burn;
      match call
      case Transfer(from, to, side, amount) =>
        if !from.Account? {
          return false;
        }
        var r := tokens.Transfer(vault, from, to, side, amount);
        ok := r.Ok?;
      case LosingBurn(owner, side, amount) =>
        if !owner.Account? {
          return false;
        }
        var r := tokens.Burn(owner, side, amount);
        ok := r.Ok?;
    }

    method Redeem(call: C.Call) returns (ok: bool)
      requires call.Redemption? || call.Refund?
      modifies vault, tokens
      ensures match C.ApplyRedeem(old(Ledger()), call)
              case Ok(l) => ok && Ledger() == l
              case Err(_) => !ok
    {
      hide V.RedeemResolved, V.RedeemCancelled;
      if !call.user.Account? {
        return false;
      }
      var q := V.Position(call.market, call.user, call.outcome);
      var r: Result<int>;
      if call.Redemption? {
        r := vault.RedeemResolved(registry, tokens, q, call.amount);
      } else {
        r := vault.RedeemCancelled(registry, tokens, q, call.amount);
      }
      ok := r.Ok?;
    }

    method Trade(now: nat, call: C.Call) returns (ok: bool)
      requires call.Purchase? || call.Sale? || call.Liquidation? || call.LegLiquidation?
      modifies vault, tokens, amm
      ensures match C.ApplyTrade(old(Ledger()), now, call)
              case Ok(l) => ok && Ledger() == l
              case Err(_) => !ok
    {
      hide A.Buy, A.Sell, A.Liquidate, A.LiquidateChild;
      match call
      case Purchase(trader, id, amountIn, minOut, deadline, yes, parent) =>
        var r := amm.Buy(registry, vault, tokens, now, trader, id, amountIn, minOut, deadline, yes, parent);
        ok := r.Ok?;
      case Sale(trader, id, amountIn, minOut, deadline, yes) =>
        var r := amm.Sell(registry, vault, tokens, now, trader, id, amountIn, minOut, deadline, yes);
        ok := r.Ok?;
      case Liquidation(liquidator, user, id, outcome) =>
        var r := amm.LiquidatePosition(registry, vault, tokens, now, liquidator, user, id, outcome);
        ok := r.Ok?;
      case LegLiquidation(liquidator, user, id, outcome) =>
        var r := amm.LiquidateChildPosition(registry, vault, tokens, now, liquidator, user, id, outcome);
        ok := r.Ok?;
    }

    method Liquidity(now: nat, call: C.Call) returns (ok: bool)
      requires call.Creation? || call.Seeding? || call.Addition? || call.Removal? || call.FeeClaim?
      modifies registry, vault, tokens, amm
      ensures match C.ApplyLiquidity(old(Ledger()), now, call)
              case Ok(l) => ok && Ledger() == l
              case Err(_) => !ok
    {
      hide A.CreateMarket, A.Seed, A.Add, A.Remove, A.ClaimFees;
      match call
      case Creation(creator, terms, fee, liquidity) =>
        var r := CreateMarket(now, creator, terms, fee, liquidity);
        ok := r.Ok?;
      case Seeding(lp, id, amount) =>
        var r := amm.SeedLiquidity(registry, vault, tokens, now, lp, id, amount);
        ok := r.Ok?;
      case Addition(lp, id, amount) =>
        var r := amm.AddLiquidity(registry, vault, tokens, now, lp, id, amount);
        ok := r.Ok?;
      case Removal(lp, id, shares) =>
        var r := amm.RemoveLiquidity(registry, vault, tokens, now, lp, id, shares);
        ok := r.Ok?;
      case FeeClaim(lp, id) =>
        var r := amm.ClaimLpFees(registry, vault, tokens, lp, id);
        ok := r.Ok?;
    }

    /** The factory: register, create the pool, seed it, activate. */
    method CreateMarket(now: nat, creator: Address, terms: Terms, fee: FeeConfig, liquidity: int)
      returns (r: Result<nat>)
      modifies registry, vault, tokens, amm
      ensures match A.CreateMarket(old(Ledger()), now, creator, terms, fee, liquidity)
              case Ok((l, m)) => r == Ok(m) && Ledger() == l
              case Err(e) => r == Err(e)
    {
      hide RegisterMarket, A.CreatePool, A.Seed, Transition;
      var _ :- RequireAuth(creator);
      var m :- registry.Register(now, terms);
      var id :- amm.CreatePool(m, fee);
      if id != m {
        return Err(InvalidStatus);
      }
      var _ :- amm.SeedLiquidity(registry, vault, tokens, now, creator, id, liquidity);
      var _ :- registry.TransitionTo(m, Live);
      return Ok(m);
    }
  }
}
