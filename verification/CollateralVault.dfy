// The collateral vault and the token ledger as contracts: storage that methods update in place, in the
// source's order of reads, checks and writes. Each method is proved against VaultLedger and TokenLedger.
// A method that fails promises nothing about the storage it leaves: the host reverts the transaction.

module CollateralVault {
  import opened DikeTypes
  import opened DikeMath
  import opened MarketRegistry
  import V = VaultLedger
  import T = TokenLedger
  import A = AmmPools

  class Tokens {
    var balances: map<T.Side, map<Address, int>>
    var backing: map<nat, int>
    ghost var burned: map<T.Side, int>

    ghost function State(): T.TokenState
      reads this
    {
      T.TokenState(balances, backing, burned)
    }

    constructor ()
      ensures State() == T.NO_TOKENS
    {
      balances, backing, burned := map[], map[], map[];
    }

    /** Puts the storage back to a snapshot, as the host does when a transaction fails. */
    method Restore(ghost s: T.TokenState, b: map<T.Side, map<Address, int>>, k: map<nat, int>,
                   ghost gone: map<T.Side, int>)
      requires s == T.TokenState(b, k, gone)
      modifies this
      ensures State() == s
    {
      balances, backing, burned := b, k, gone;
    }

    function BalanceOf(owner: Address, side: T.Side): (r: int)
      reads this
      ensures r == T.Balance(State(), owner, side)
    {
      Read(if side in balances then balances[side] else map[], owner)
    }

    method AddBalance(owner: Address, side: T.Side, amount: int)
      modifies this`balances
      ensures State() == T.AddBalance(old(State()), owner, side, amount)
    {
      var holders := if side in balances then balances[side] else map[];
      balances := balances[side := holders[owner := Read(holders, owner) + amount]];
    }

    method SubBalance(owner: Address, side: T.Side, amount: int) returns (r: Result<()>)
      modifies this`balances
      ensures match T.SubBalance(old(State()), owner, side, amount)
              case Ok(s) => r == Ok(()) && State() == s
              case Err(e) => r == Err(e) && State() == old(State())
    {
      if BalanceOf(owner, side) < amount {
        return Err(InsufficientBalance);
      }
      AddBalance(owner, side, -amount);
      return Ok(());
    }

    method MintCompleteSet(to: Address, m: nat, amount: int) returns (r: Result<()>)
      modifies this
      ensures match T.MintCompleteSet(old(State()), to, m, amount)
              case Ok(s) => r == Ok(()) && State() == s
              case Err(e) => r == Err(e)
    {
      if amount <= 0 {
        return Err(InvalidAmount);
      }
      AddBalance(to, T.Side(m, Yes), amount);
      AddBalance(to, T.Side(m, No), amount);
      backing := backing[m := Read(backing, m) + amount];
      return Ok(());
    }

    method MergePositions(user: Address, m: nat, amount: int) returns (r: Result<()>)
      modifies this
      ensures match T.MergePositions(old(State()), user, m, amount)
              case Ok(s) => r == Ok(()) && State() == s
              case Err(e) => r == Err(e)
    {
      if amount <= 0 {
        return Err(InvalidAmount);
      }
      var _ :- SubBalance(user, T.Side(m, Yes), amount);
      var _ :- SubBalance(user, T.Side(m, No), amount);
      if Read(backing, m) < amount {
        return Err(InsufficientCollateral);
      }
      backing := backing[m := Read(backing, m) - amount];
      return Ok(());
    }

    method TransferForced(from: Address, to: Address, side: T.Side, amount: int) returns (r: Result<()>)
      modifies this
      ensures match T.MovePosition(old(State()), from, to, side, amount)
              case Ok(s) => r == Ok(()) && State() == s
              case Err(e) => r == Err(e)
    {
      if amount <= 0 {
        return Err(InvalidAmount);
      }
      var _ :- SubBalance(from, side, amount);
      AddBalance(to, side, amount);
      return Ok(());
    }

    method Transfer(vault: Vault, from: Address, to: Address, side: T.Side, amount: int) returns (r: Result<()>)
      modifies this
      ensures match A.TransferPosition(vault.State(), old(State()), from, to, side, amount)
              case Ok(s) => r == Ok(()) && State() == s
              case Err(e) => r == Err(e)
    {
      if amount <= 0 {
        return Err(InvalidAmount);
      }
      var _ :- vault.AssertPositionTransferAllowed(from, side, amount);
      var _ :- SubBalance(from, side, amount);
      AddBalance(to, side, amount);
      return Ok(());
    }

    /** `burn_for_redeem` and `burn_losing`. */
    method Burn(owner: Address, side: T.Side, amount: int) returns (r: Result<()>)
      modifies this
      ensures match T.Burn(old(State()), owner, side, amount)
              case Ok(s) => r == Ok(()) && State() == s
              case Err(e) => r == Err(e)
    {
      if amount <= 0 {
        return Err(InvalidAmount);
      }
      var _ :- SubBalance(owner, side, amount);
      burned := burned[side := Read(burned, side) + amount];
      return Ok(());
    }
  }

  class Vault {
    var accounts: map<nat, V.Accounting>
    var used: map<V.Position, int>
    var parentDebt: map<V.Position, int>
    var childDebt: map<V.Leg, int>
    var stake: map<V.Position, int>
    var lender: map<V.Leg, V.Position>
    var children: map<V.Position, seq<nat>>
    var bonds: map<V.BondKey, V.Bond>
    var balance: int  // the collateral token's entry for the vault
    var reserve: int
    var paused: bool
    ghost var history: map<nat, V.History>
    ghost var bondsPaid: map<Address, int>

    ghost function State(): V.VaultState
      reads this
    {
      V.VaultState(V.Books(accounts, history), V.Debts(used, parentDebt, childDebt),
                   V.Credit(stake, lender, children), V.Escrow(bonds, bondsPaid), V.Purse(balance, reserve, paused))
    }

    constructor ()
      ensures State() == V.EMPTY_VAULT
    {
      accounts, used, parentDebt, childDebt, stake := map[], map[], map[], map[], map[];
      lender, children, bonds, balance, reserve, paused, history := map[], map[], map[], 0, 0, false, map[];
      bondsPaid := map[];
    }

    /** Puts one half of the storage back to a snapshot, as the host does when a transaction fails. */
    method RestoreDebts(ghost s: V.VaultState, u: map<V.Position, int>, p: map<V.Position, int>, c: map<V.Leg, int>,
                        st: map<V.Position, int>, le: map<V.Leg, V.Position>, ch: map<V.Position, seq<nat>>)
      requires s.debts == V.Debts(u, p, c) && s.credit == V.Credit(st, le, ch)
      modifies this`used, this`parentDebt, this`childDebt, this`stake, this`lender, this`children
      ensures State().debts == s.debts && State().credit == s.credit
    {
      used, parentDebt, childDebt := u, p, c;
      stake, lender, children := st, le, ch;
    }

    /** And the other half. */
    method RestoreBooks(ghost s: V.VaultState, a: map<nat, V.Accounting>, b: map<V.BondKey, V.Bond>, held: int,
                        insured: int, halted: bool, ghost h: map<nat, V.History>, ghost d: map<Address, int>)
      requires s.books == V.Books(a, h) && s.escrow == V.Escrow(b, d) && s.purse == V.Purse(held, insured, halted)
      requires State().debts == s.debts && State().credit == s.credit
      modifies this`accounts, this`bonds, this`balance, this`reserve, this`paused, this`history, this`bondsPaid
      ensures State() == s
    {
      accounts, bonds := a, b;
      balance, reserve, paused := held, insured, halted;
      history, bondsPaid := h, d;
    }

    function AccountOf(m: nat): (r: V.Accounting)
      reads this
      ensures r == V.AccountOf(State(), m)
    {
      if m in accounts then accounts[m] else V.NewAccount(m)
    }

    /** A transfer of the collateral token out of the vault. */
    method Pay(amount: int) returns (r: Result<()>)
      modifies this`balance
      ensures match V.Pay(old(State()), amount)
              case Ok(s) => r == Ok(()) && State() == s
              case Err(e) => r == Err(e)
    {
      if amount > 0 {
        if balance < amount {
          return Err(TransferTrapped);
        }
        balance := balance - amount;
      }
      return Ok(());
    }

    method DepositForMarket(registry: Registry, m: nat, amount: int) returns (r: Result<()>)
      modifies this
      ensures match V.Deposit(old(State()), registry.State(), m, amount)
              case Ok(s) => r == Ok(()) && State() == s
              case Err(e) => r == Err(e)
    {
      if amount <= 0 {
        return Err(InvalidAmount);
      }
      if paused {
        return Err(InvalidStatus);
      }
      if m !in registry.markets {
        return Err(MarketNotFound);
      }
      balance := balance + amount;
      var a := AccountOf(m);
      accounts := accounts[m := a.Fund(amount)];
      return Ok(());
    }

    method RecordCashStake(q: V.Position, collateralIn: int, tokensOut: int) returns (r: Result<()>)
      modifies this
      ensures match V.RecordCashStake(old(State()), q, collateralIn, tokensOut)
              case Ok(s) => r == Ok(()) && State() == s
              case Err(e) => r == Err(e)
    {
      if collateralIn <= 0 || tokensOut <= 0 {
        return Err(InvalidAmount);
      }
      stake := stake[q := Read(stake, q) + collateralIn];
      return Ok(());
    }

    method OpenChildCreditForTrade(registry: Registry, q: V.Position, c: nat, amount: int) returns (r: Result<()>)
      modifies this
      ensures match V.OpenCredit(old(State()), registry.State(), q, c, amount)
              case Ok(s) => r == Ok(()) && State() == s
              case Err(e) => r == Err(e)
    {
      hide V.RecordCredit;
      RecordedBooks(q, c, amount);
      if amount <= 0 {
        return Err(InvalidAmount);
      }
      if q.market == c {
        return Err(InvalidInput);
      }
      if q.market !in registry.markets {
        return Err(MarketNotFound);
      }
      if registry.markets[q.market].status != Live {
        return Err(InvalidStatus);
      }
      if V.Leg(q.market, q.user) in lender {
        return Err(ChainDepthExceeded);
      }
      var leg := V.Leg(c, q.user);
      if leg in lender && lender[leg].market != q.market {
        return Err(InvalidInput);
      }
      var limit :- CollateralLimit(Read(stake, q));
      if Read(used, q) + amount > limit {
        return Err(ChildCollateralLimitExceeded);
      }
      RecordCredit(q, c, amount);
      var parent := AccountOf(q.market);
      if parent.cash.backing < amount || parent.cash.refundable < amount {
        return Err(InsufficientCollateral);
      }
      accounts := accounts[q.market := parent.Lent(amount)];
      var child := AccountOf(c);
      accounts := accounts[c := child.Fund(amount)];
      return Ok(());
    }

    /** Recording a draw touches no account. */
    lemma RecordedBooks(q: V.Position, c: nat, amount: int)
      ensures V.RecordCredit(State(), q, c, amount).books == State().books
    {
    }

    /** The debt records of a draw, the leg's parent on its first draw, and the position's list of legs. */
    method RecordCredit(q: V.Position, c: nat, amount: int)
      modifies this
      ensures State() == V.RecordCredit(old(State()), q, c, amount)
    {
      ghost var v := State();
      RecordDebts(q, V.Leg(c, q.user), amount);
      ghost var v3 := State();
      LinkLeg(q, c);
      assert V.HasParent(v3, V.Leg(c, q.user)) == V.HasParent(v, V.Leg(c, q.user));
    }

    method RecordDebts(q: V.Position, leg: V.Leg, amount: int)
      modifies this`used, this`childDebt, this`parentDebt
      ensures var v := old(State());
              State() == V.SetParentDebt(V.SetChildDebt(V.SetUsed(v, q, V.Used(v, q) + amount),
                                                        leg, V.ChildDebt(v, leg) + amount),
                                         q, V.ParentDebt(v, q) + amount)
    {
      used := used[q := Read(used, q) + amount];
      childDebt := childDebt[leg := Read(childDebt, leg) + amount];
      parentDebt := parentDebt[q := Read(parentDebt, q) + amount];
    }

    method LinkLeg(q: V.Position, c: nat)
      modifies this`lender, this`children
      ensures var v, leg := old(State()), V.Leg(c, q.user);
              var list := V.ChildrenOf(v, q);
              State() == v.(credit := v.credit.(
                              lender := if V.HasParent(v, leg) then v.credit.lender else v.credit.lender[leg := q],
                              children := v.credit.children[q := if c in list then list else list + [c]]))
    {
      var leg := V.Leg(c, q.user);
      if leg !in lender {
        lender := lender[leg := q];
      }
      var list := if q in children then children[q] else [];
      children := children[q := if c in list then list else list + [c]];
    }

    /** Pays down a leg's debt out of `repayment`, here and upstream, and makes the parent's book whole. */
    method SettleChildDebt(leg: V.Leg, repayment: int) returns (applied: int)
      modifies this
      ensures (State(), applied) == V.SettleChildDebt(old(State()), leg, repayment)
    {
      if repayment <= 0 {
        return 0;
      }
      var debt := Read(childDebt, leg);
      if debt == 0 {
        return 0;
      }
      var effective := debt;
      if leg in lender {
        var upstream := Read(parentDebt, lender[leg]);
        if upstream == 0 {
          childDebt := childDebt[leg := 0];
          return 0;
        } else if upstream < debt {
          effective := upstream;
        }
      }
      applied := if repayment > effective then effective else repayment;
      if applied == 0 {
        return 0;
      }
      childDebt := childDebt[leg := debt - applied];
      if leg in lender {
        var q := lender[leg];
        parentDebt := parentDebt[q := Read(parentDebt, q) - applied];
        used := used[q := V.SaturatingSub(Read(used, q), applied)];
        var a := AccountOf(q.market);
        accounts := accounts[q.market := a.RepaidBy(applied)];
      }
    }

    method RepayChildCollateral(registry: Registry, leg: V.Leg, amount: int) returns (r: Result<int>)
      modifies this
      ensures match V.RepayChildCollateral(old(State()), registry.State(), leg, amount)
              case Ok((s, applied)) => r == Ok(applied) && State() == s
              case Err(e) => r == Err(e)
    {
      hide V.SettleChildDebt;
      if amount <= 0 {
        return Err(InvalidAmount);
      }
      if leg.market !in registry.markets {
        return Err(MarketNotFound);
      }
      balance := balance + amount;
      var applied := SettleChildDebt(leg, amount);
      var _ :- Pay(amount - applied);
      return Ok(applied);
    }

    method ReleaseTradePayout(registry: Registry, q: V.Position, tokensSold: int, payout: int) returns (r: Result<()>)
      modifies this
      ensures match V.ReleaseTradePayout(old(State()), registry.State(), q, tokensSold, payout)
              case Ok(s) => r == Ok(()) && State() == s
              case Err(e) => r == Err(e)
    {
      if tokensSold <= 0 || payout <= 0 {
        return Err(InvalidAmount);
      }
      if q.market !in registry.markets {
        return Err(MarketNotFound);
      }
      if Read(childDebt, V.Leg(q.market, q.user)) > 0 || Read(parentDebt, q) > 0 {
        return Err(EncumberedPosition);
      }
      var a := AccountOf(q.market);
      if a.cash.backing < payout || a.cash.refundable < payout {
        return Err(InsufficientCollateral);
      }
      stake := stake[q := V.SaturatingSub(Read(stake, q), tokensSold)];
      accounts := accounts[q.market := a.Fund(-payout)];
      r := Pay(payout);
    }

    /** Insurance, then shortfall; then the debts of the listed legs are written off, in list order. */
    method ResolveParentDefault(q: V.Position, total: int)
      modifies this
      ensures State() == V.ResolveParentDefault(old(State()), q, total)
    {
      if total <= 0 {
        return;
      }
      var draw := if total > reserve then reserve else total;
      var a := AccountOf(q.market);
      accounts := accounts[q.market := a.Defaulted(total, draw)];
      reserve := reserve - draw;
      parentDebt := parentDebt[q := 0];

      assert State() == V.SetParentDebt(V.AbsorbDefault(old(State()), q.market, total), q, 0);
      ClearChildren(q, total);
    }

    method ClearChildren(q: V.Position, total: int)
      modifies this`childDebt, this`used
      ensures State() == V.ClearChildren(old(State()), q, V.ChildrenOf(old(State()), q), total)
    {
      hide V.ClearOne;
      var remaining := total;
      var list := if q in children then children[q] else [];
      ghost var start := State();
      var i := 0;
      while i < |list| && remaining != 0
        invariant 0 <= i <= |list|
        invariant V.ClearChildren(start, q, list, total) == V.ClearChildren(State(), q, list[i..], remaining)
      {
        var leg := V.Leg(list[i], q.user);
        var owed := Read(childDebt, leg);
        assert list[i..][0] == list[i] && list[i..][1..] == list[i + 1..];
        if owed != 0 {
          var cleared := if owed > remaining then remaining else owed;
          ClearOne(q, leg, cleared);
          remaining := remaining - cleared;
        }
        i := i + 1;
      }
    }

    method ClearOne(q: V.Position, leg: V.Leg, cleared: int)
      modifies this`childDebt, this`used
      ensures State() == V.ClearOne(old(State()), q, leg, cleared)
    {
      childDebt := childDebt[leg := Read(childDebt, leg) - cleared];
      used := used[q := V.SaturatingSub(Read(used, q), cleared)];
    }

    /** The proceeds leave the position's book before they are routed. */
    method ExtractProceeds(q: V.Position, tokensSold: int, proceeds: int) returns (r: Result<()>)
      modifies this
      ensures match V.ExtractProceeds(old(State()), q, tokensSold, proceeds)
              case Ok(s) => r == Ok(()) && State() == s
              case Err(e) => r == Err(e)
    {
      var a := AccountOf(q.market);
      if a.cash.backing < proceeds || a.cash.refundable < proceeds {
        return Err(InsufficientCollateral);
      }
      stake := stake[q := V.SaturatingSub(Read(stake, q), tokensSold)];
      accounts := accounts[q.market := a.Fund(-proceeds)];
      return Ok(());
    }

    method LiquidateRelease(registry: Registry, q: V.Position, tokensSold: int, proceeds: int)
      returns (r: Result<V.Receipt>)
      modifies this
      ensures match V.LiquidateRelease(old(State()), registry.State(), q, tokensSold, proceeds)
              case Ok((s, receipt)) => r == Ok(receipt) && State() == s
              case Err(e) => r == Err(e)
    {
      hide V.SettleChildDebt, V.ResolveParentDefault, V.Pay;
      if tokensSold <= 0 || proceeds <= 0 {
        return Err(InvalidAmount);
      }
      if q.market !in registry.markets {
        return Err(MarketNotFound);
      }
      if Read(used, q) == 0 {
        return Err(InvalidInput);
      }
      var _ :- ExtractProceeds(q, tokensSold, proceeds);
      var bonus := Bps(proceeds, V.LIQUIDATION_BONUS_BPS);
      ghost var extracted := State();
      var debtRepaid := SettleChildren(q, proceeds - bonus);
      var remainder := proceeds - bonus - debtRepaid;
      var unrecovered := Read(used, q);
      ResolveParentDefault(q, unrecovered);
      assert (State(), debtRepaid) == V.RouteProceeds(extracted, q, proceeds - bonus);
      var _ :- Pay(bonus);
      var _ :- Pay(remainder);
      return Ok(V.Receipt(proceeds, bonus, debtRepaid, remainder));
    }

    /** The waterfall's loop: every listed child in turn until the pool is spent. */
    method SettleChildren(q: V.Position, funds: int) returns (debtRepaid: int)
      modifies this
      ensures (State(), debtRepaid) ==
              V.SettleChildren(old(State()), q.user, V.ChildrenOf(old(State()), q), funds)
    {
      hide V.SettleChildDebt;
      var pool := funds;
      debtRepaid := 0;
      var list := if q in children then children[q] else [];
      ghost var start := State();
      var i := 0;
      while i < |list| && pool != 0
        invariant 0 <= i <= |list|
        invariant pool == funds - debtRepaid
        invariant V.SettleChildren(start, q.user, list, funds) ==
                  (V.SettleChildren(State(), q.user, list[i..], pool).0,
                   debtRepaid + V.SettleChildren(State(), q.user, list[i..], pool).1)
      {
        assert list[i..][0] == list[i] && list[i..][1..] == list[i + 1..];
        var applied := SettleChildDebt(V.Leg(list[i], q.user), pool);
        pool := pool - applied;
        debtRepaid := debtRepaid + applied;
        i := i + 1;
      }
    }

    method LiquidateChildRelease(registry: Registry, q: V.Position, tokensSold: int, proceeds: int)
      returns (r: Result<V.Receipt>)
      modifies this
      ensures match V.LiquidateChildRelease(old(State()), registry.State(), q, tokensSold, proceeds)
              case Ok((s, receipt)) => r == Ok(receipt) && State() == s
              case Err(e) => r == Err(e)
    {
      hide V.SettleChildDebt, V.ResolveParentDefault, V.Pay;
      if tokensSold <= 0 || proceeds <= 0 {
        return Err(InvalidAmount);
      }
      if q.market !in registry.markets {
        return Err(MarketNotFound);
      }
      var leg := V.Leg(q.market, q.user);
      if Read(childDebt, leg) == 0 {
        return Err(InvalidInput);
      }
      var _ :- ExtractProceeds(q, tokensSold, proceeds);
      var bonus := Bps(proceeds, V.LIQUIDATION_BONUS_BPS);
      var pool := proceeds - bonus;
      ghost var extracted := State();
      var applied := SettleChildDebt(leg, pool);
      var remainder := pool - applied;
      var stillOwed := Read(childDebt, leg);
      if stillOwed > 0 && leg in lender {
        ResolveParentDefault(lender[leg], stillOwed);
      }
      assert (State(), applied) == V.CloseLeg(extracted, leg, pool);
      var _ :- Pay(bonus);
      var _ :- Pay(remainder);
      return Ok(V.Receipt(proceeds, bonus, applied, remainder));
    }

    /** What a claim is worth in cash, given what the market can still pay. */
    method CappedPayout(m: nat, gross: int) returns (payout: int)
      ensures payout == V.CappedPayout(V.AccountOf(State(), m), gross)
    {
      if gross <= 0 {
        return 0;
      }
      var a := AccountOf(m);
      if a.cash.backing <= 0 {
        return 0;
      }
      var remaining := a.cash.backing - a.cash.redeemed;
      if remaining <= 0 {
        return 0;
      }
      var total := a.cash.backing + a.cash.shortfall;
      var claim := if a.cash.shortfall == 0 || total == 0 then gross else TruncDiv(gross * a.cash.backing, total);
      payout := if claim > remaining then remaining else claim;
    }

    /** A redeemer's claim is kept back against what the position owes; a worthless claim is a default. */
    method SettleOwnDebt(q: V.Position, claim: int, gross: int) returns (kept: int)
      modifies this
      ensures V.Withhold(old(State()), q, claim).1 == kept
      ensures State() == V.DefaultIfWorthless(V.Withhold(old(State()), q, claim).0, q, gross)
    {
      hide V.ResolveParentDefault, V.Withhold;
      kept := Withhold(q, claim);
      if gross == 0 && Read(parentDebt, q) > 0 {
        ResolveParentDefault(q, Read(parentDebt, q));
      }
    }

    method Withhold(q: V.Position, claim: int) returns (kept: int)
      modifies this
      ensures (State(), kept) == V.Withhold(old(State()), q, claim)
    {
      var debt := Read(parentDebt, q);
      kept := if debt > claim then claim else debt;
      if debt > 0 && kept > 0 {
        parentDebt := parentDebt[q := debt - kept];
        used := used[q := V.SaturatingSub(Read(used, q), kept)];
        var a := AccountOf(q.market);
        accounts := accounts[q.market := a.RepaidBy(kept)];
        history := V.NoteWithheld(State(), q.market, kept).books.history;
      }
    }

    method PayClaim(m: nat, payout: int) returns (r: Result<()>)
      modifies this
      ensures match V.PayClaim(old(State()), m, payout)
              case Ok(s) => r == Ok(()) && State() == s
              case Err(e) => r == Err(e)
    {
      if payout > 0 {
        var a := AccountOf(m);
        accounts := accounts[m := a.Redeem(payout)];
        r := Pay(payout);
      } else {
        return Ok(());
      }
    }

    /** The gross value of the tokens, with the odd unit of a refund carried over. */
    method OpenClaim(m: nat, final: Outcome, redeemed: Outcome, amount: int) returns (gross: int)
      modifies this
      ensures (State(), gross) == V.OpenClaim(old(State()), m, final, redeemed, amount)
    {
      match final {
        case Invalid =>
          var a := AccountOf(m);
          var effective := a.dustCarry + amount;
          gross := InvalidRefund(effective);
          accounts := accounts[m := a.(dustCarry := effective - 2 * gross)];
        case Yes => gross := if redeemed == Yes then amount else 0;
        case No => gross := if redeemed == No then amount else 0;
      }
      history := history[m := V.HistoryOf(State(), m).Claimed(gross, amount)];
    }

    /** A leg that redeems pays its own debt first: this book is debited by what the parent's was credited. */
    method PayUpstream(leg: V.Leg, claim: int) returns (paid: int)
      modifies this
      ensures (State(), paid) == V.PayUpstream(old(State()), leg, claim)
    {
      hide V.SettleChildDebt;
      paid := SettleChildDebt(leg, claim);
      if paid > 0 {
        var a := AccountOf(leg.market);
        accounts := accounts[leg.market := a.Fund(-paid)];
        history := V.NoteUpstream(State(), leg.market, paid).books.history;
      }
    }

    method RedeemResolved(registry: Registry, tokens: Tokens, q: V.Position, amount: int) returns (r: Result<int>)
      modifies this, tokens
      ensures match V.RedeemResolved(old(State()), registry.State(), old(tokens.State()), q, amount)
              case Ok((s, t, payout)) => r == Ok(payout) && State() == s && tokens.State() == t
              case Err(e) => r == Err(e)
    {
      hide V.PayUpstream, V.Withhold, V.DefaultIfWorthless, V.CappedPayout, V.PayClaim, V.OpenClaim, T.Burn;
      if amount <= 0 {
        return Err(InvalidAmount);
      }
      if q.market !in registry.markets {
        return Err(MarketNotFound);
      }
      var market := registry.markets[q.market];
      if !market.hasFinal {
        return Err(InvalidStatus);
      }
      var gross := OpenClaim(q.market, market.final, q.outcome, amount);
      var leg := V.Leg(q.market, q.user);
      var upstream := PayUpstream(leg, gross);
      var kept := SettleOwnDebt(q, gross - upstream, gross);
      var payout := CappedPayout(q.market, gross - upstream - kept);
      var _ :- tokens.Burn(q.user, T.Side(q.market, q.outcome), amount);
      if gross > 0 {
        stake := stake[q := V.SaturatingSub(Read(stake, q), gross)];
      }
      var _ :- PayClaim(q.market, payout);
      return Ok(payout);
    }

    method RedeemCancelled(registry: Registry, tokens: Tokens, q: V.Position, amount: int) returns (r: Result<int>)
      modifies this, tokens
      ensures match V.RedeemCancelled(old(State()), registry.State(), old(tokens.State()), q, amount)
              case Ok((s, t, payout)) => r == Ok(payout) && State() == s && tokens.State() == t
              case Err(e) => r == Err(e)
    {
      hide V.Withhold, V.DefaultIfWorthless, V.CappedPayout, V.PayClaim, V.OpenClaim, T.Burn;
      if amount <= 0 {
        return Err(InvalidAmount);
      }
      if q.market !in registry.markets {
        return Err(MarketNotFound);
      }
      if registry.markets[q.market].status != Cancelled {
        return Err(InvalidStatus);
      }
      var _ :- tokens.Burn(q.user, T.Side(q.market, q.outcome), amount);
      var gross := OpenClaim(q.market, Invalid, q.outcome, amount);
      var kept := SettleOwnDebt(q, gross, gross);
      var payout := CappedPayout(q.market, gross - kept);
      var _ :- PayClaim(q.market, payout);
      return Ok(payout);
    }

    method AssertPositionTransferAllowed(from: Address, side: T.Side, amount: int) returns (r: Result<()>)
      ensures r == V.AssertTransferAllowed(State(), from, side, amount)
    {
      if amount <= 0 {
        return Err(InvalidAmount);
      }
      if Read(childDebt, V.Leg(side.market, from)) > 0
         || Read(parentDebt, V.Position(side.market, from, side.outcome)) > 0 {
        return Err(EncumberedPosition);
      }
      return Ok(());
    }

    method LockBond(registry: Registry, key: V.BondKey, m: nat, amount: int) returns (r: Result<()>)
      modifies this
      ensures match V.LockBond(old(State()), registry.State(), key, m, amount)
              case Ok(s) => r == Ok(()) && State() == s
              case Err(e) => r == Err(e)
    {
      if amount <= 0 {
        return Err(InvalidAmount);
      }
      if m !in registry.markets {
        return Err(MarketNotFound);
      }
      if key in bonds {
        return Err(InvalidInput);
      }
      balance := balance + amount;
      bonds := bonds[key := V.Bond(amount, m)];
      var a := AccountOf(m);
      accounts := accounts[m := V.AddBonds(a, key.isDispute, amount)];
      return Ok(());
    }

    /** `release_bond` and `slash_bond`, which differ in who is paid. */
    method UnlockBond(key: V.BondKey, to: Address, amount: int) returns (r: Result<()>)
      modifies this
      ensures match V.UnlockBond(old(State()), key, to, amount)
              case Ok(s) => r == Ok(()) && State() == s
              case Err(e) => r == Err(e)
    {
      hide V.AddBonds, V.Pay;
      if amount <= 0 {
        return Err(InvalidAmount);
      }
      if key !in bonds {
        return Err(InsufficientBalance);
      }
      var bond := bonds[key];
      if bond.amount < amount {
        return Err(InsufficientBalance);
      }
      bonds := bonds[key := V.Bond(bond.amount - amount, bond.market)];
      var a := AccountOf(bond.market);
      accounts := accounts[bond.market := V.AddBonds(a, key.isDispute, -amount)];
      bondsPaid := bondsPaid[to := Read(bondsPaid, to) + amount];
      r := Pay(amount);
    }

    method CollectFee(m: nat, lp: int, protocol: int, cod: int) returns (r: Result<()>)
      modifies this
      ensures match V.CollectFee(old(State()), m, lp, protocol, cod)
              case Ok(s) => r == Ok(()) && State() == s
              case Err(e) => r == Err(e)
    {
      if lp < 0 || protocol < 0 || cod < 0 {
        return Err(InvalidAmount);
      }
      var total := lp + protocol + cod;
      var a := AccountOf(m);
      if a.cash.backing < total || a.cash.refundable < total {
        return Err(InsufficientCollateral);
      }
      accounts := accounts[m := a.TakeFees(lp, protocol, cod)];
      return Ok(());
    }

    method ClaimLpFees(registry: Registry, m: nat, amount: int) returns (r: Result<()>)
      modifies this
      ensures match V.PayLpFees(old(State()), registry.State(), m, amount)
              case Ok(s) => r == Ok(()) && State() == s
              case Err(e) => r == Err(e)
    {
      if amount <= 0 {
        return Err(InvalidAmount);
      }
      if m !in registry.markets {
        return Err(MarketNotFound);
      }
      var a := AccountOf(m);
      if a.fees.lp < amount {
        return Err(InsufficientBalance);
      }
      accounts := accounts[m := a.(fees := a.fees.(lp := a.fees.lp - amount))];
      r := Pay(amount);
    }

    method SweepProtocolFees(registry: Registry, m: nat) returns (r: Result<int>)
      modifies this
      ensures match V.SweepProtocolFees(old(State()), registry.State(), m)
              case Ok((s, amount)) => r == Ok(amount) && State() == s
              case Err(e) => r == Err(e)
    {
      if m !in registry.markets {
        return Err(MarketNotFound);
      }
      var a := AccountOf(m);
      var amount := a.fees.protocol + a.fees.cod;
      accounts := accounts[m := a.(fees := a.fees.(protocol := 0, cod := 0))];
      if amount > 0 {
        var cut := Bps(amount, V.INSURANCE_RESERVE_BPS);
        reserve := reserve + cut;
        var _ :- Pay(amount - cut);
      }
      return Ok(amount);
    }
  }
}
