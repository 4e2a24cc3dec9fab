// The laws of the collateral side, over every run from an empty system: any calls, by anyone, in any order,
// at any time, with failed transactions leaving nothing behind.

module LedgerLaws {
  import opened DikeTypes
  import opened MapSums
  import opened MarketRegistry
  import opened TokenLedger
  import opened VaultLedger
  import opened VaultBooks
  import opened VaultDebts
  import opened AmmPools
  import opened LpLaws
  import opened LedgerCalls
  import opened LedgerMoney
  import opened LedgerCustody
  import opened LedgerPools
  import opened LedgerTokens
  import opened LedgerRecord

  /** What holds in every reachable state. */
  ghost predicate Lawful(l: Ledger) {
    && RegistrySane(l.reg)
    && Solid(l.vault)
    && ValidTokens(l.tokens)
    && PoolsSound(l)
    && (forall k: nat :: Balanced(l.vault, l.tokens, k))
    && (forall k: nat :: Recorded(l.reg, l.vault, l.tokens, k))
  }

  lemma GenesisLawful()
    ensures Lawful(GENESIS)
  {
    forall k: nat
      ensures Balanced(GENESIS.vault, GENESIS.tokens, k) && Recorded(GENESIS.reg, GENESIS.vault, GENESIS.tokens, k)
    {
    }
    forall m: nat ensures CompleteSets(GENESIS.tokens, m) {
      assert forall o :: Holders(GENESIS.tokens, Side(m, o)) == map[];
    }
  }

  lemma StepLawful(l: Ledger, now: nat, call: Call)
    requires Lawful(l)
    ensures Lawful(Step(l, now, call))
  {
    hide Apply, RegistrySane, Solid, SoundDebts, ValidTokens, PoolsSound, Balanced, Recorded, NonNegative, TokensKept;
    if Apply(l, now, call).Ok? {
      var l' := Apply(l, now, call).value;
      SolidSound(l.vault);
      ValidNonNegative(l.tokens);
      ApplySolid(l, now, call);
      ApplyPools(l, now, call);
      ApplyTokensKept(l, now, call);
      TokensStayValid(l.tokens, l'.tokens);
      forall k: nat ensures Balanced(l'.vault, l'.tokens, k) && Recorded(l'.reg, l'.vault, l'.tokens, k) {
        ApplyBalanced(l, now, call, k);
        ApplyRecorded(l, now, call, k);
      }
      ApplyRecorded(l, now, call, 0);
    }
  }

  lemma SolidSound(v: VaultState)
    requires Solid(v)
    ensures SoundDebts(v)
  {
    hide SoundDebts;
  }

  lemma ValidNonNegative(t: TokenState)
    requires ValidTokens(t)
    ensures NonNegative(t)
  {
    hide NonNegative;
  }

  lemma {:induction false} RunLawful(l: Ledger, events: seq<Event>)
    requires Lawful(l)
    ensures Lawful(Run(l, events))
    decreases |events|
  {
    hide Lawful, Step;
    if events != [] {
      StepLawful(l, events[0].now, events[0].call);
      RunLawful(Step(l, events[0].now, events[0].call), events[1..]);
    }
  }

  lemma Reachable(events: seq<Event>) returns (l: Ledger)
    ensures l == Run(GENESIS, events) && Lawful(l)
  {
    hide Lawful, Run;
    GenesisLawful();
    l := Run(GENESIS, events);
    RunLawful(GENESIS, events);
  }

  // ---------------------------------------------------------------- the laws

  /** The two ledgers agree in every market: cash backing, credit still out, booked losses and what went
      upstream add up to the complete sets ever backed and not merged. */
  lemma LedgerIdentity(events: seq<Event>, k: nat)
    ensures var l := Run(GENESIS, events);
            var a := AccountOf(l.vault, k);
            && a.cash.backing + (a.loans.issued - a.loans.repaid - a.loans.defaulted) + a.cash.shortfall
               + HistoryOf(l.vault, k).upstream == Read(l.tokens.backing, k)
            && a.cash.refundable == a.cash.backing - a.cash.redeemed
  {
    hide Run, RegistrySane, Solid, ValidTokens, PoolsSound, Recorded;
    var l := Reachable(events);
    assert Balanced(l.vault, l.tokens, k);
  }

  /** Custody: the collateral held plus what redeemers left in place of their own debt is exactly what the
      books of all markets and the insurance reserve say. */
  lemma CustodyConserved(events: seq<Event>)
    ensures var v := Run(GENESIS, events).vault;
            v.purse.balance + SumBy(v.books.history, WithheldOf) ==
            SumBy(v.books.accounts, Buckets) + v.purse.reserve
  {
    hide Run, RegistrySane, SoundDebts, ValidTokens, PoolsSound, Recorded, Balanced;
    var l := Reachable(events);
  }

  /** Complete sets: every YES and every NO, outstanding or burned, has its unit of backing; Invalid tokens
      do not exist. */
  lemma CompleteSetSupply(events: seq<Event>, m: nat)
    ensures var t := Run(GENESIS, events).tokens;
            && Supply(t, Side(m, Yes)) + Read(t.burned, Side(m, Yes)) == Read(t.backing, m)
            && Supply(t, Side(m, No)) + Read(t.burned, Side(m, No)) == Read(t.backing, m)
            && Supply(t, Side(m, Invalid)) == 0
  {
    hide Run, RegistrySane, Solid, PoolsSound, Recorded, Balanced, Supply;
    var l := Reachable(events);
    assert CompleteSets(l.tokens, m);
  }

  /** What market k can still pay, what is lent out of it, and what was lost from it. */
  function Cover(v: VaultState, k: nat): int {
    var a := AccountOf(v, k);
    a.cash.refundable + (a.loans.issued - a.loans.repaid - a.loans.defaulted) + a.cash.shortfall
  }

  /** Every winning token is covered. */
  lemma WinnersCovered(events: seq<Event>, k: nat, outcome: Outcome)
    requires outcome != Invalid
    ensures var l := Run(GENESIS, events);
            EndingOf(l.reg, k) == Decided(outcome) ==> Cover(l.vault, k) >= Supply(l.tokens, Side(k, outcome))
  {
    hide Run, RegistrySane, Solid, PoolsSound, Supply, EndingOf;
    var l := Reachable(events);
    assert Balanced(l.vault, l.tokens, k) && Recorded(l.reg, l.vault, l.tokens, k);
    assert CompleteSets(l.tokens, k);
  }

  /** An invalid or cancelled market covers half of every token and its dust, and no unit of any refund is
      ever lost: twice the refunds plus the carry is what was burned for them. */
  lemma RefundsCovered(events: seq<Event>, k: nat)
    ensures var l := Run(GENESIS, events);
            var h, carry := HistoryOf(l.vault, k), AccountOf(l.vault, k).dustCarry;
            EndingOf(l.reg, k) == Decided(Invalid) ==>
              && 2 * Cover(l.vault, k) >= Supply(l.tokens, Side(k, Yes)) + Supply(l.tokens, Side(k, No)) + carry
              && 2 * h.gross + carry == h.retired
              && 0 <= carry <= 1
  {
    hide Run, RegistrySane, Solid, PoolsSound, Supply, EndingOf;
    var l := Reachable(events);
    assert Balanced(l.vault, l.tokens, k) && Recorded(l.reg, l.vault, l.tokens, k);
    assert CompleteSets(l.tokens, k);
  }

  /** Providers: in every pool, shares add up, all that was earned is set aside, so every claim the pool
      computes is within the fees the vault keeps for it. */
  lemma ProvidersSolvent(events: seq<Event>, id: nat, lp: Address)
    ensures var l := Run(GENESIS, events);
            id in l.amm.pools ==>
              var pool := l.amm.pools[id];
              && pool.market == id
              && SumBy(pool.lp.positions, SharesOf) == pool.lp.total
              && TotalEarned(pool.lp) <= FEE_SCALE * AccountOf(l.vault, id).fees.lp
              && 0 <= FeesOwed(pool.lp, lp) <= AccountOf(l.vault, id).fees.lp
              && PayLpFees(l.vault, l.reg, id, FeesOwed(pool.lp, lp)) != Err(InsufficientBalance)
  {
    hide Run, RegistrySane, Solid, ValidTokens, Recorded, Balanced, TotalEarned, FeesOwed, Pay, SetAccount;
    var l := Reachable(events);
    if id in l.amm.pools {
      assert PoolSoundIn(l, id);
      OwedIsPayable(l.amm.pools[id].lp, AccountOf(l.vault, id).fees.lp, lp);
      FeesPayNotInsufficient(l.vault, l.reg, id, FeesOwed(l.amm.pools[id].lp, lp));
    }
  }

  lemma FeesPayNotInsufficient(v: VaultState, reg: RegistryState, m: nat, amount: int)
    requires amount <= AccountOf(v, m).fees.lp
    ensures PayLpFees(v, reg, m, amount) != Err(InsufficientBalance)
  {
  }

  /** Pool inventory: the pool contract holds at least its reserves. */
  lemma PoolOwnsReserves(events: seq<Event>, id: nat)
    ensures var l := Run(GENESIS, events);
            id in l.amm.pools ==>
              var r := l.amm.pools[id].reserves;
              && 0 <= r.yes <= Balance(l.tokens, AmmContract, Side(id, Yes))
              && 0 <= r.no <= Balance(l.tokens, AmmContract, Side(id, No))
  {
    hide Run, RegistrySane, Solid, ValidTokens, Recorded, Balanced, ValidBook, FeesCovered;
    var l := Reachable(events);
    if id in l.amm.pools {
      assert PoolSoundIn(l, id);
    }
  }

  /** Debt records: nobody owes upstream more than the credit in use, so no subtraction of the settlement
      paths ever saturates. */
  lemma DebtsOrdered(events: seq<Event>, q: Position, leg: Leg)
    ensures var v := Run(GENESIS, events).vault;
            && 0 <= ParentDebt(v, q) <= Used(v, q)
            && ChildDebt(v, leg) >= 0
            && (ChildDebt(v, leg) > 0 ==> HasParent(v, leg))
  {
    hide Run, RegistrySane, ValidTokens, PoolsSound, Recorded, Balanced, Custody;
    var l := Reachable(events);
  }
}
