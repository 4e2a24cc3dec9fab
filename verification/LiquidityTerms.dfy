// The terms of providing liquidity in numbers: when it is accepted, how many shares it buys, what it gives back, and
// that every change of a position pays the fees it was owed.

module LiquidityTerms {
  import opened DikeTypes
  import opened DikeMath
  import opened MarketRegistry
  import opened TokenLedger
  import opened VaultLedger
  import opened VaultDebts
  import opened AmmPools
  import opened LpLaws
  import opened LedgerCalls
  import opened LedgerPools
  import opened LedgerLaws
  import opened LedgerFlows

  // ---------------------------------------------------------------- shares

  /** So many of `total` shares, at `amount` against a reserve: the worth of the amount, rounded down. */
  predicate IsShare(shares: int, total: int, amount: int, reserve: int) {
    shares * reserve <= total * amount < (shares + 1) * reserve
  }

  /** New shares are worth the amount at the reserve that buys fewer of them, rounded down; an amount too small for one
      share is refused. */
  lemma SharesExactly(pool: Pool, amount: int)
    requires Funded(pool) && amount > 0
    ensures var r := SharesFor(pool, amount);
            && (r.Ok? ==>
                  && r.value > 0
                  && r.value * pool.reserves.yes <= pool.lp.total * amount
                  && r.value * pool.reserves.no <= pool.lp.total * amount
                  && (IsShare(r.value, pool.lp.total, amount, pool.reserves.yes)
                      || IsShare(r.value, pool.lp.total, amount, pool.reserves.no)))
            && (r.Ok? <==> pool.lp.total * amount >= pool.reserves.yes && pool.lp.total * amount >= pool.reserves.no)
  {
    var n := pool.lp.total * amount;
    var y, o := TruncDiv(n, pool.reserves.yes), TruncDiv(n, pool.reserves.no);
    ProductNonNegative(pool.lp.total, amount);
    FloorBounds(n, pool.reserves.yes);
    FloorBounds(n, pool.reserves.no);
    Positive(y, n, pool.reserves.yes);
    Positive(o, n, pool.reserves.no);
    if y < o {
      Scaled(y, o, pool.reserves.no);
    } else {
      Scaled(o, y, pool.reserves.yes);
    }
  }

  lemma Positive(x: int, n: int, t: int)
    requires t > 0 && x >= 0 && x * t <= n < (x + 1) * t
    ensures x > 0 <==> n >= t
  {
    if x > 0 {
      AtLeastOnce(x, t);
    }
  }

  // ---------------------------------------------------------------- what is paid with every change

  /** A provider's position is written with the accumulator of now, so that nothing is owed right after. */
  ghost predicate Settled(book: LpBook, book': LpBook, lp: Address, shares: int, total: int) {
    && book'.total == total && book'.feePerShare == book.feePerShare
    && LpOf(book', lp) == LpPosition(shares, book.feePerShare) && FeesOwed(book', lp) == 0
    && (forall other :: other != lp ==> LpOf(book', other) == LpOf(book, other))
  }

  lemma WrittenSettled(book: LpBook, lp: Address, shares: int, total: int)
    ensures Settled(book, SetLp(book, lp, shares, total), lp, shares, total)
  {
  }

  /** The vault pays the provider what he was owed, out of the providers' bucket. */
  predicate FeesPaid(v: VaultState, v': VaultState, m: nat, owed: int, income: int) {
    && v'.purse.balance == v.purse.balance + income - owed
    && AccountOf(v', m).fees.lp == AccountOf(v, m).fees.lp - owed
    && AccountOf(v', m).cash.backing == AccountOf(v, m).cash.backing + income
    && AccountOf(v', m).cash.refundable == AccountOf(v, m).cash.refundable + income
  }

  lemma PendingPaid(v: VaultState, reg: RegistryState, m: nat, pending: int)
    requires PayPending(v, reg, m, pending).Ok? && pending >= 0
    ensures FeesPaid(v, PayPending(v, reg, m, pending).value, m, pending, 0)
  {
  }

  lemma Funding(l: Ledger, m: nat, amount: int)
    requires FundPool(l, m, amount).Ok?
    ensures var l' := FundPool(l, m, amount).value;
            && FeesPaid(l.vault, l'.vault, m, 0, amount) && amount > 0 && m in l.reg.markets && !l.vault.purse.paused
            && l'.reg == l.reg && l'.amm == l.amm
            && Read(l'.tokens.backing, m) == Read(l.tokens.backing, m) + amount
  {
  }

  lemma OwedAtLeastNothing(book: LpBook, lp: Address)
    ensures FeesOwed(book, lp) >= 0
  {
    var position := LpOf(book, lp);
    if book.feePerShare > position.checkpoint && position.shares > 0 {
      ProductNonNegative(position.shares, book.feePerShare - position.checkpoint);
      FloorBounds(position.shares * (book.feePerShare - position.checkpoint), FEE_SCALE);
    }
  }

  // ---------------------------------------------------------------- the calls

  /** First liquidity: only while nobody has shares and before the market expires; one share for each unit, and both
      reserves start with the amount. */
  lemma SeedTerms(l: Ledger, now: nat, lp: Address, id: nat, amount: int)
    ensures Seed(l, now, lp, id, amount).Ok? <==>
            && lp.Account? && amount > 0 && id in l.amm.pools && l.amm.pools[id].lp.total == 0 && !l.vault.purse.paused
            && l.amm.pools[id].market in l.reg.markets
            && var market := l.reg.markets[l.amm.pools[id].market];
            && now < market.terms.expiry && market.status in {Created, Live} && !market.hasFinal
    ensures Seed(l, now, lp, id, amount).Ok? ==>
              var l' := Seed(l, now, lp, id, amount).value;
              var (pool, pool') := (l.amm.pools[id], l'.amm.pools[id]);
              && pool'.reserves == Reserves(amount, amount) && pool'.live
              && Settled(pool.lp, pool'.lp, lp, amount, amount)
              && FeesPaid(l.vault, l'.vault, pool.market, 0, amount)
  {
    hide AddBalance, Settled;
    if Seed(l, now, lp, id, amount).Ok? {
      Funding(l, l.amm.pools[id].market, amount);
      WrittenSettled(l.amm.pools[id].lp, lp, amount, amount);
    }
  }

  /** More liquidity: both reserves grow by the amount, the shares are those of SharesExactly, and what the provider was
      owed is paid. */
  lemma AddTerms(l: Ledger, now: nat, lp: Address, id: nat, amount: int)
    requires Add(l, now, lp, id, amount).Ok?
    ensures var (l', shares) := Add(l, now, lp, id, amount).value;
            && id in l.amm.pools && id in l'.amm.pools && lp.Account?
            && var (pool, pool') := (l.amm.pools[id], l'.amm.pools[id]);
            && Funded(pool) && pool.live && amount > 0
            && pool.market in l.reg.markets && l.reg.markets[pool.market].status == Live && !l.reg.paused
            && now < l.reg.markets[pool.market].terms.expiry
            && SharesFor(pool, amount) == Ok(shares)
            && pool'.reserves == Reserves(pool.reserves.yes + amount, pool.reserves.no + amount)
            && Settled(pool.lp, pool'.lp, lp, LpOf(pool.lp, lp).shares + shares, pool.lp.total + shares)
            && FeesPaid(l.vault, l'.vault, pool.market, FeesOwed(pool.lp, lp), amount)
  {
    hide FundPool, SharesFor, PayPending, FeesOwed, Settled;
    var pool := l.amm.pools[id];
    var shares := SharesFor(pool, amount).value;
    Funding(l, pool.market, amount);
    OwedAtLeastNothing(pool.lp, lp);
    var l1 := FundPool(l, pool.market, amount).value;
    PendingPaid(l1.vault, l1.reg, pool.market, FeesOwed(pool.lp, lp));
    WrittenSettled(pool.lp, lp, LpOf(pool.lp, lp).shares + shares, pool.lp.total + shares);
  }

  /** Liquidity taken out: both legs are the shares' part of the reserves, rounded down, and go to the provider, who is
      also paid what he was owed. It is open to him while the market trades, and once it is resolved or cancelled. */
  lemma RemoveTerms(l: Ledger, now: nat, lp: Address, id: nat, shares: int)
    requires Remove(l, now, lp, id, shares).Ok? && PoolsSound(l)
    ensures var (l', out) := Remove(l, now, lp, id, shares).value;
            && id in l.amm.pools && id in l'.amm.pools && lp.Account?
            && var (pool, pool', m) := (l.amm.pools[id], l'.amm.pools[id], l.amm.pools[id].market);
            && 0 < shares <= LpOf(pool.lp, lp).shares && shares <= pool.lp.total
            && out.yes > 0 && out.no > 0
            && out.yes * pool.lp.total <= pool.reserves.yes * shares < (out.yes + 1) * pool.lp.total
            && out.no * pool.lp.total <= pool.reserves.no * shares < (out.no + 1) * pool.lp.total
            && pool'.reserves == Reserves(pool.reserves.yes - out.yes, pool.reserves.no - out.no)
            && Balance(l'.tokens, lp, Side(m, Yes)) == Balance(l.tokens, lp, Side(m, Yes)) + out.yes
            && Balance(l'.tokens, lp, Side(m, No)) == Balance(l.tokens, lp, Side(m, No)) + out.no
            && Settled(pool.lp, pool'.lp, lp, LpOf(pool.lp, lp).shares - shares, pool.lp.total - shares)
            && FeesPaid(l.vault, l'.vault, m, FeesOwed(pool.lp, lp), 0)
            && m in l.reg.markets
            && var market := l.reg.markets[m];
            && (|| (market.status == Live && !market.hasFinal && now < market.terms.expiry)
                || (market.status == Cancelled && !market.hasFinal)
                || market.status == Resolved)
  {
    hide Withdrawal, PayPending, HandOut, FeesOwed, Settled, PoolSoundIn;
    var pool := l.amm.pools[id];
    assert PoolSoundIn(l, id);
    ReservesSound(l, id);
    WithdrawalBounds(pool, shares);
    var out := Withdrawal(pool, shares).value;
    var v := PayPending(l.vault, l.reg, pool.market, FeesOwed(pool.lp, lp)).value;
    OwedAtLeastNothing(pool.lp, lp);
    PendingPaid(l.vault, l.reg, pool.market, FeesOwed(pool.lp, lp));
    HandedOut(v, l.tokens, lp, pool.market, out);
    WrittenSettled(pool.lp, lp, LpOf(pool.lp, lp).shares - shares, pool.lp.total - shares);
  }

  lemma ReservesSound(l: Ledger, id: nat)
    requires id in l.amm.pools && PoolSoundIn(l, id)
    ensures l.amm.pools[id].reserves.yes >= 0 && l.amm.pools[id].reserves.no >= 0
  {
  }

  lemma HandedOut(v: VaultState, t: TokenState, lp: Address, m: nat, out: Reserves)
    requires HandOut(v, t, lp, m, out).Ok? && lp != AmmContract
    ensures var t' := HandOut(v, t, lp, m, out).value;
            && out.yes > 0 && out.no > 0
            && Balance(t', lp, Side(m, Yes)) == Balance(t, lp, Side(m, Yes)) + out.yes
            && Balance(t', lp, Side(m, No)) == Balance(t, lp, Side(m, No)) + out.no
  {
    hide TransferPosition;
    TransferExactly(v, t, AmmContract, lp, Side(m, Yes), out.yes, lp, Side(m, Yes));
    TransferExactly(v, t, AmmContract, lp, Side(m, Yes), out.yes, lp, Side(m, No));
    TransferAmount(v, t, AmmContract, lp, Side(m, Yes), out.yes);
    var t1 := TransferPosition(v, t, AmmContract, lp, Side(m, Yes), out.yes).value;
    TransferExactly(v, t1, AmmContract, lp, Side(m, No), out.no, lp, Side(m, Yes));
    TransferExactly(v, t1, AmmContract, lp, Side(m, No), out.no, lp, Side(m, No));
    TransferAmount(v, t1, AmmContract, lp, Side(m, No), out.no);
  }

  /** A claim of fees pays what is owed and leaves nothing owed; the shares stay. */
  lemma ClaimTerms(l: Ledger, lp: Address, id: nat)
    requires ClaimFees(l, lp, id).Ok?
    ensures var (l', paid) := ClaimFees(l, lp, id).value;
            && id in l.amm.pools && id in l'.amm.pools && lp.Account? && LpOf(l.amm.pools[id].lp, lp).shares > 0
            && var (book, book') := (l.amm.pools[id].lp, l'.amm.pools[id].lp);
            && paid == FeesOwed(book, lp) && FeesOwed(book', lp) == 0
            && LpOf(book', lp).shares == LpOf(book, lp).shares && book'.total == book.total
            && book'.feePerShare == book.feePerShare && l'.amm.pools[id].reserves == l.amm.pools[id].reserves
            && FeesPaid(l.vault, l'.vault, l.amm.pools[id].market, paid, 0)
  {
    OwedAtLeastNothing(l.amm.pools[id].lp, lp);
  }

  // ---------------------------------------------------------------- when they are accepted

  /** The vault can pay the provider what he is owed, out of what it holds and what comes in. */
  predicate CanPay(l: Ledger, pool: Pool, lp: Address, income: int) {
    var owed := FeesOwed(pool.lp, lp);
    owed <= AccountOf(l.vault, pool.market).fees.lp && (owed > 0 ==> owed <= l.vault.purse.balance + income)
  }

  lemma PaysPendingExactly(v: VaultState, reg: RegistryState, m: nat, pending: int)
    requires m in reg.markets && pending >= 0
    ensures PayPending(v, reg, m, pending).Ok? <==>
            pending == 0 || (pending <= AccountOf(v, m).fees.lp && pending <= v.purse.balance)
  {
  }

  lemma HandsOutExactly(v: VaultState, t: TokenState, lp: Address, m: nat, out: Reserves)
    requires lp != AmmContract && ChildDebt(v, Leg(m, AmmContract)) == 0
    requires forall o :: ParentDebt(v, Position(m, AmmContract, o)) == 0
    requires out.yes <= Balance(t, AmmContract, Side(m, Yes)) && out.no <= Balance(t, AmmContract, Side(m, No))
    ensures HandOut(v, t, lp, m, out).Ok? <==> out.yes > 0 && out.no > 0
  {
    hide MovePosition;
    assert ParentDebt(v, Position(m, AmmContract, Yes)) == 0 && ParentDebt(v, Position(m, AmmContract, No)) == 0;
    MovesExactly(t, AmmContract, lp, Side(m, Yes), out.yes);
    if out.yes > 0 {
      var t1 := MovePosition(t, AmmContract, lp, Side(m, Yes), out.yes).value;
      MoveExactly(t, AmmContract, lp, Side(m, Yes), out.yes);
      MovesExactly(t1, AmmContract, lp, Side(m, No), out.no);
    }
  }

  lemma MovesExactly(t: TokenState, from: Address, to: Address, s: Side, amount: int)
    ensures MovePosition(t, from, to, s, amount).Ok? <==> 0 < amount <= Balance(t, from, s)
  {
  }

  lemma PoolOwesNothing(v: VaultState, v': VaultState, m: nat)
    requires SoundDebts(v) && v'.debts == v.debts
    ensures ChildDebt(v', Leg(m, AmmContract)) == 0 && forall o :: ParentDebt(v', Position(m, AmmContract, o)) == 0
  {
    forall o ensures ParentDebt(v', Position(m, AmmContract, o)) == 0 {
      ContractsOweNothing(v, Position(m, AmmContract, o), Leg(m, AmmContract));
    }
    ContractsOweNothing(v, Position(m, AmmContract, Yes), Leg(m, AmmContract));
  }

  /** When a market lets liquidity out: while it trades, and after it was resolved or cancelled. */
  predicate LetsOut(reg: RegistryState, now: nat, m: nat) {
    m in reg.markets
    && var market := reg.markets[m];
    || (market.status == Live && !market.hasFinal && now < market.terms.expiry)
    || (market.status == Cancelled && !market.hasFinal)
    || market.status == Resolved
  }

  /** After any run a provider gets his liquidity out exactly when he signs, has the shares, they are worth at least one
      token of either outcome, the market lets them out, and the vault can pay his fees. */
  lemma RemovesExactly(events: seq<Event>, now: nat, lp: Address, id: nat, shares: int)
    requires id in Run(GENESIS, events).amm.pools
    ensures var l := Run(GENESIS, events);
            var pool := l.amm.pools[id];
            Remove(l, now, lp, id, shares).Ok? <==>
            && lp.Account? && 0 < shares <= LpOf(pool.lp, lp).shares && LetsOut(l.reg, now, id)
            && pool.reserves.yes * shares >= pool.lp.total && pool.reserves.no * shares >= pool.lp.total
            && CanPay(l, pool, lp, 0)
  {
    hide Run, Lawful, PoolsSound, Withdrawal, PayPending, HandOut, FeesOwed, SoundDebts;
    var l := Reachable(events);
    FlowParts(l);
    SoundPool(l, id);
    var pool := l.amm.pools[id];
    SharesWithinTotal(pool.lp, lp);
    OwedIsPayable(pool.lp, LpFees(l.vault, id), lp);
    HeldReserves(l, id);
    if lp.Account? && 0 < shares <= LpOf(pool.lp, lp).shares && LetsOut(l.reg, now, id) {
      WithdrawalBounds(pool, shares);
      EmptyLeg(pool, shares);
      var out := Withdrawal(pool, shares).value;
      PaysPendingExactly(l.vault, l.reg, id, FeesOwed(pool.lp, lp));
      if PayPending(l.vault, l.reg, id, FeesOwed(pool.lp, lp)).Ok? {
        var v := PayPending(l.vault, l.reg, id, FeesOwed(pool.lp, lp)).value;
        SameDebtsPaid(l.vault, l.reg, id, FeesOwed(pool.lp, lp));
        PoolOwesNothing(l.vault, v, id);
        HandsOutExactly(v, l.tokens, lp, id, out);
      }
    }
  }

  lemma SameDebtsPaid(v: VaultState, reg: RegistryState, m: nat, pending: int)
    requires PayPending(v, reg, m, pending).Ok?
    ensures PayPending(v, reg, m, pending).value.debts == v.debts
  {
  }

  lemma HeldReserves(l: Ledger, id: nat)
    requires PoolsSound(l) && id in l.amm.pools
    ensures l.amm.pools[id].reserves.yes <= Balance(l.tokens, AmmContract, Side(id, Yes))
    ensures l.amm.pools[id].reserves.no <= Balance(l.tokens, AmmContract, Side(id, No))
  {
    hide ValidBook, FeesCovered;
    assert PoolSoundIn(l, id);
  }

  /** And puts more in exactly when he signs, the pool is funded and trades, the amount buys a share at either reserve,
      and the vault takes it and can pay his fees. */
  lemma AddsExactly(events: seq<Event>, now: nat, lp: Address, id: nat, amount: int)
    requires id in Run(GENESIS, events).amm.pools
    ensures var l := Run(GENESIS, events);
            var pool := l.amm.pools[id];
            Add(l, now, lp, id, amount).Ok? <==>
            && lp.Account? && amount > 0 && pool.live && Funded(pool) && !l.vault.purse.paused
            && id in l.reg.markets && l.reg.markets[id].status == Live && now < l.reg.markets[id].terms.expiry
            && !l.reg.paused
            && pool.lp.total * amount >= pool.reserves.yes && pool.lp.total * amount >= pool.reserves.no
            && CanPay(l, pool, lp, amount)
  {
    hide Run, Lawful, PoolsSound, SharesFor, PayPending, FeesOwed, SoundDebts, MintCompleteSet;
    var l := Reachable(events);
    FlowParts(l);
    SoundPool(l, id);
    var pool := l.amm.pools[id];
    OwedIsPayable(pool.lp, LpFees(l.vault, id), lp);
    if lp.Account? && amount > 0 && pool.live && Funded(pool) && id in l.reg.markets {
      SharesExactly(pool, amount);
      FundsExactly(l, id, amount);
      if FundPool(l, id, amount).Ok? {
        var l1 := FundPool(l, id, amount).value;
        Funding(l, id, amount);
        PaysPendingExactly(l1.vault, l1.reg, id, FeesOwed(pool.lp, lp));
      }
    }
  }

  lemma FundsExactly(l: Ledger, m: nat, amount: int)
    ensures FundPool(l, m, amount).Ok? <==> amount > 0 && !l.vault.purse.paused && m in l.reg.markets
  {
  }

  /** A provider with shares is always heard, and paid when the vault has what it owes him. */
  lemma ClaimsFeesExactly(events: seq<Event>, lp: Address, id: nat)
    requires id in Run(GENESIS, events).amm.pools
    ensures var l := Run(GENESIS, events);
            var pool := l.amm.pools[id];
            ClaimFees(l, lp, id).Ok? <==>
            lp.Account? && LpOf(pool.lp, lp).shares > 0
            && (FeesOwed(pool.lp, lp) > 0 ==> id in l.reg.markets && FeesOwed(pool.lp, lp) <= l.vault.purse.balance)
  {
    hide Run, Lawful, PoolsSound, FeesOwed, SoundDebts;
    var l := Reachable(events);
    FlowParts(l);
    SoundPool(l, id);
    OwedIsPayable(l.amm.pools[id].lp, LpFees(l.vault, id), lp);
  }
}
