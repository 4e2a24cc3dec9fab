// What a covered vault can pay: every claim nothing is kept back from, every fee and every bond.

module LedgerPayable {
  import opened DikeTypes
  import opened DikeMath
  import opened MapSums
  import opened MarketRegistry
  import opened TokenLedger
  import opened VaultLedger
  import opened VaultClaims
  import opened VaultDebts
  import opened AmmPools
  import opened LedgerCalls
  import opened LedgerMoney
  import opened LedgerCustody
  import opened LedgerPools
  import opened LedgerRecord
  import opened LedgerEscrow
  import opened LedgerLaws
  import opened LedgerParties
  import opened LedgerCash
  import opened LedgerCover

  // ---------------------------------------------------------------- bonds in every run

  lemma SameEscrow(v: VaultState, v': VaultState)
    requires Escrowed(v) && v'.escrow == v.escrow
    requires forall k: nat :: AccountOf(v', k).bonds == AccountOf(v, k).bonds
    ensures Escrowed(v')
  {
    forall k: nat ensures BondsAgree(v', k) {
      assert BondsAgree(v, k) && AccountOf(v', k).bonds == AccountOf(v, k).bonds;
    }
  }

  /** In every run a market's bond totals are the sum of its locked bonds. */
  lemma StepEscrowed(l: Ledger, now: nat, call: Call)
    requires Sturdy(l) && Escrowed(l.vault)
    ensures Escrowed(Step(l, now, call).vault)
  {
    hide Lawful, OwnLegs, Apply, Escrowed, LockBond, UnlockBond, SoundDebts, Balanced, UpstreamOf, KeptOf;
    if Apply(l, now, call).Ok? {
      var v' := Apply(l, now, call).value.vault;
      if call.BondLock? || call.BondUnlock? {
        BondCallEscrowed(l, now, call);
      } else {
        ApplyEscrow(l, now, call);
        LawfulParts(l);
        forall k: nat ensures AccountOf(v', k).bonds == AccountOf(l.vault, k).bonds {
          if Redeems(call) {
            RedeemCall(l, now, call);
            RedeemDrains(l, call, k);
          } else {
            ApplySustains(l, now, call, k);
          }
        }
        SameEscrow(l.vault, v');
      }
    }
  }

  lemma BondCallEscrowed(l: Ledger, now: nat, call: Call)
    requires call.BondLock? || call.BondUnlock?
    requires Apply(l, now, call).Ok? && Escrowed(l.vault)
    ensures Escrowed(Apply(l, now, call).value.vault)
  {
    hide Escrowed, LockBond, UnlockBond;
    match call
    case BondLock(key, m, amount) => LockBondEscrowed(l.vault, l.reg, key, m, amount);
    case BondUnlock(key, to, amount) => UnlockBondEscrowed(l.vault, key, to, amount);
  }

  lemma {:induction false} RunEscrowed(l: Ledger, events: seq<Event>)
    requires Sturdy(l) && Escrowed(l.vault)
    ensures Escrowed(Run(l, events).vault)
    decreases |events|
  {
    hide Sturdy, Step, Escrowed;
    if events != [] {
      StepSturdy(l, events[0].now, events[0].call);
      StepEscrowed(l, events[0].now, events[0].call);
      RunEscrowed(Step(l, events[0].now, events[0].call), events[1..]);
    }
  }

  lemma ReachableSturdy(events: seq<Event>) returns (l: Ledger)
    ensures l == Run(GENESIS, events) && Sturdy(l) && Escrowed(l.vault)
  {
    hide Sturdy, Run, Escrowed;
    GenesisSturdy();
    NoBonds();
    l := Run(GENESIS, events);
    RunSturdy(GENESIS, events);
    RunEscrowed(GENESIS, events);
  }

  lemma NoBonds()
    ensures Escrowed(GENESIS.vault)
  {
  }

  lemma BondTotal(v: VaultState, k: nat)
    requires Escrowed(v)
    ensures BondsOf(AccountOf(v, k)) >= 0
  {
    assert BondsAgree(v, k);
    SumByNonNegative(v.escrow.bonds, AmountIn(k));
  }

  // ---------------------------------------------------------------- what a covered vault holds

  /** What any one market may still pay is there, and none of its parts is negative. */
  lemma CoveredHolds(l: Ledger, k: nat)
    requires Sturdy(l) && Escrowed(l.vault) && Covered(l.vault)
    ensures var a := AccountOf(l.vault, k);
            && l.vault.purse.balance >= Promised(a)
            && a.cash.refundable >= 0 && FeesNonNegative(l.vault, k) && BondsOf(a) >= 0
  {
    hide Lawful, OwnLegs, Escrowed;
    var v := l.vault;
    CoverAt(l);
    forall j: nat ensures Promised(AccountOf(v, j)) >= 0 && FeesNonNegative(v, j) && BondsOf(AccountOf(v, j)) >= 0 {
      MarketFees(l, j);
      BondTotal(v, j);
    }
    forall j | j in v.books.accounts ensures Promised(v.books.accounts[j]) >= 0 {
      assert Promised(AccountOf(v, j)) >= 0;
    }
    SumByNonNegative(v.books.accounts, Promised);
    if k in v.books.accounts {
      SumByMember(v.books.accounts, Promised, k);
    }
    assert AccountOf(v, k).cash.refundable >= 0;
    assert Promised(AccountOf(v, k)) >= 0;
  }

  lemma MarketFees(l: Ledger, k: nat)
    requires Lawful(l)
    ensures FeesNonNegative(l.vault, k) && CashGap(l.vault, k) == 0
  {
    hide RegistrySane, Solid, ValidTokens, PoolsSound, Recorded;
    assert Balanced(l.vault, l.tokens, k);
  }

  // ---------------------------------------------------------------- claims

  /** A claim nothing is kept back from is paid out of what the debt upstream left of the market's book. */
  lemma SettledInCash(v: VaultState, q: Position, gross: int)
    requires SoundDebts(v) && OwnLegs(v) && gross >= 0 && CashGap(v, q.market) == 0
    requires gross - Applicable(v, Leg(q.market, q.user), gross) == 0 || ParentDebt(v, q) == 0
    requires AccountOf(v, q.market).cash.refundable <= v.purse.balance
    ensures var up := Applicable(v, Leg(q.market, q.user), gross);
            && SettleClaim(v, q, gross).Ok?
            && SettleClaim(v, q, gross).value.1 == CappedPayout(AccountOf(v, q.market).Fund(-up), gross - up)
  {
    hide SoundDebts, OwnLegs, PayUpstream, DefaultIfWorthless, CappedPayout, Applicable;
    SoundDebtsAt(v, q);
    var (v1, up) := PayUpstream(v, Leg(q.market, q.user), gross);
    UpstreamDrains(v, q, gross, q.market);
    assert Withhold(v1, q, gross - up) == (v1, 0);
    var v2 := DefaultIfWorthless(v1, q, gross);
    assert gross > 0 ==> v2 == v1 by { NotWorthless(v1, q, gross); }
    PayoutCapped(AccountOf(v2, q.market), gross - up);
    NoClaim(AccountOf(v2, q.market), gross - up);
    NoClaim(AccountOf(v, q.market).Fund(-up), gross - up);
    if gross > 0 {
      SameCash(AccountOf(v2, q.market), AccountOf(v, q.market).Fund(-up), gross - up);
    }
    RetireSame(v2, q, gross);
  }

  lemma SameCash(a: Accounting, b: Accounting, claim: int)
    requires a.cash == b.cash
    ensures CappedPayout(a, claim) == CappedPayout(b, claim)
  {
  }

  lemma NotWorthless(v: VaultState, q: Position, gross: int)
    ensures gross > 0 ==> DefaultIfWorthless(v, q, gross) == v
  {
  }

  lemma NoClaim(a: Accounting, gross: int)
    ensures gross <= 0 ==> CappedPayout(a, gross) == 0
  {
  }

  lemma RefundedInCash(v: VaultState, q: Position, gross: int)
    requires SoundDebts(v) && gross >= 0 && CashGap(v, q.market) == 0
    requires gross == 0 || ParentDebt(v, q) == 0
    requires AccountOf(v, q.market).cash.refundable <= v.purse.balance
    ensures SettleRefund(v, q, gross).Ok?
  {
    hide SoundDebts, DefaultIfWorthless, CappedPayout;
    SoundDebtsAt(v, q);
    assert Withhold(v, q, gross) == (v, 0);
    var v2 := DefaultIfWorthless(v, q, gross);
    NotWorthless(v, q, gross);
    PayoutCapped(AccountOf(v2, q.market), gross);
    NoClaim(AccountOf(v2, q.market), gross);
  }

  /** Whether the market ended in the way such a redemption is for. */
  predicate Ended(reg: RegistryState, call: Call)
    requires Redeems(call)
  {
    && call.market in reg.markets
    && (if call.Redemption? then reg.markets[call.market].hasFinal else reg.markets[call.market].status == Cancelled)
  }

  /** A covered vault honours every redemption nothing is kept back from: it succeeds exactly when the owner signs,
      the market has ended, and the tokens are there. */
  lemma ClaimsPayable(events: seq<Event>, call: Call)
    requires Redeems(call)
    requires var l := Run(GENESIS, events); Covered(l.vault) && KeptOf(l, call) <= 0
    ensures var l := Run(GENESIS, events);
            ApplyRedeem(l, call).Ok? <==>
            && call.user.Account? && Ended(l.reg, call)
            && 0 < call.amount <= Balance(l.tokens, call.user, Side(call.market, call.outcome))
  {
    hide Run, Sturdy, Escrowed, Covered, UpstreamOf, ClaimOf, KeptOf;
    var l := ReachableSturdy(events);
    var q := Position(call.market, call.user, call.outcome);
    CoveredHolds(l, q.market);
    if call.user.Account? && Ended(l.reg, call)
       && 0 < call.amount <= Balance(l.tokens, call.user, Side(call.market, call.outcome)) {
      ClaimSettles(l, call);
    } else {
      RedeemRefused(l, call);
    }
  }

  lemma RedeemRefused(l: Ledger, call: Call)
    requires Redeems(call)
    requires !(call.user.Account? && Ended(l.reg, call)
               && 0 < call.amount <= Balance(l.tokens, call.user, Side(call.market, call.outcome)))
    ensures ApplyRedeem(l, call).Err?
  {
    hide OpenClaim, SettleClaim, SettleRefund;
  }

  lemma ClaimSettles(l: Ledger, call: Call)
    requires Redeems(call) && Sturdy(l) && KeptOf(l, call) <= 0
    requires AccountOf(l.vault, call.market).cash.refundable <= l.vault.purse.balance
    requires Ended(l.reg, call)
    requires 0 < call.amount <= Balance(l.tokens, call.user, Side(call.market, call.outcome))
    ensures call.user.Account? ==> ApplyRedeem(l, call).Ok?
    ensures call.Redemption? ==> RedeemsFor(l, call, CashOf(l, call))
  {
    hide OpenClaim, SettleClaim, SettleRefund, Lawful, OwnLegs, SoundDebts, Balanced, Entitlement, Applicable,
         CappedPayout;
    LawfulParts(l);
    var q := Position(call.market, call.user, call.outcome);
    var final := FinalOf(l, call);
    OpenClaimBalanced(l.vault, l.tokens, q, final, call.amount, q.market);
    OpenClaimReads(l.vault, q.market, final, q.outcome, call.amount, q.market);
    OpenClaimClaims(l.vault, q.market, final, q.outcome, call.amount, q.market);
    var (v1, gross) := OpenClaim(l.vault, q.market, final, q.outcome, call.amount);
    SameDebtsSound(l.vault, v1);
    SameOwn(l.vault, v1);
    SameApplicable(l.vault, v1, Leg(q.market, q.user), gross);
    NoGap(v1, l.tokens, q.market);
    SoundDebtsAt(v1, q);
    UpstreamDrains(v1, q, gross, q.market);
    if call.Redemption? {
      SettledInCash(v1, q, gross);
      var up := UpstreamOf(l, call);
      SameCash(AccountOf(v1, q.market).Fund(-up), AccountOf(l.vault, q.market).Fund(-up), gross - up);
    } else {
      RefundedInCash(v1, q, gross);
    }
  }

  /** What a redemption nothing is kept back from comes to: the claim less the debt upstream, capped by the book that
      debt has left. */
  function CashOf(l: Ledger, call: Call): int
    requires Redeems(call)
  {
    var up := UpstreamOf(l, call);
    CappedPayout(AccountOf(l.vault, call.market).Fund(-up), ClaimOf(l, call) - up)
  }

  predicate RedeemsFor(l: Ledger, call: Call, payout: int)
    requires call.Redemption?
  {
    var r := RedeemResolved(l.vault, l.reg, l.tokens, Position(call.market, call.user, call.outcome), call.amount);
    r.Ok? && r.value.2 == payout
  }

  /** In a covered vault the holder of the tokens of a decided market nothing is kept back from receives just that. */
  lemma ClaimsPaid(events: seq<Event>, call: Call)
    requires call.Redemption?
    requires var l := Run(GENESIS, events);
             && Covered(l.vault) && KeptOf(l, call) <= 0 && Ended(l.reg, call)
             && 0 < call.amount <= Balance(l.tokens, call.user, Side(call.market, call.outcome))
    ensures var l := Run(GENESIS, events); RedeemsFor(l, call, CashOf(l, call))
  {
    hide Run, Sturdy, Escrowed, Covered, UpstreamOf, ClaimOf, KeptOf, CashOf, RedeemsFor;
    var l := ReachableSturdy(events);
    CoveredHolds(l, call.market);
    ClaimSettles(l, call);
  }

  // ---------------------------------------------------------------- fees and bonds

  /** A covered vault can always pay its fees: a provider's claim succeeds exactly when it is positive and within the
      providers' fees, and a sweep always does. */
  lemma FeesPayable(events: seq<Event>, k: nat, amount: int)
    requires Covered(Run(GENESIS, events).vault) && k in Run(GENESIS, events).reg.markets
    ensures var l := Run(GENESIS, events);
            && (PayLpFees(l.vault, l.reg, k, amount).Ok? <==> 0 < amount <= AccountOf(l.vault, k).fees.lp)
            && SweepProtocolFees(l.vault, l.reg, k).Ok?
  {
    hide Run, Sturdy, Escrowed, Covered;
    var l := ReachableSturdy(events);
    CoveredHolds(l, k);
    var a := AccountOf(l.vault, k);
    if a.fees.protocol + a.fees.cod > 0 {
      BpsBounds(a.fees.protocol + a.fees.cod, INSURANCE_RESERVE_BPS);
    }
  }

  /** A covered vault can pay out a bond exactly up to what is locked under its key. */
  lemma BondsPayable(events: seq<Event>, key: BondKey, to: Address, amount: int)
    requires Covered(Run(GENESIS, events).vault)
    ensures var v := Run(GENESIS, events).vault;
            UnlockBond(v, key, to, amount).Ok? <==>
            key in v.escrow.bonds && 0 < amount <= v.escrow.bonds[key].amount
  {
    hide Run, Sturdy, Covered;
    var l := ReachableSturdy(events);
    var v := l.vault;
    if key in v.escrow.bonds {
      var m := v.escrow.bonds[key].market;
      CoveredHolds(l, m);
      assert BondsAgree(v, m);
      SumByMember(v.escrow.bonds, AmountIn(m), key);
    }
  }

  /** And it holds both bonds of a request together, which is what reporting a verdict needs. */
  lemma BothBondsHeld(events: seq<Event>, p: BondKey, d: BondKey, bond: Bond)
    requires Covered(Run(GENESIS, events).vault) && p != d
    requires var bonds := Run(GENESIS, events).vault.escrow.bonds;
             p in bonds && d in bonds && bonds[p] == bond && bonds[d] == bond
    ensures Run(GENESIS, events).vault.purse.balance >= 2 * bond.amount
  {
    hide Run, Sturdy, Covered;
    var l := ReachableSturdy(events);
    CoveredHolds(l, bond.market);
    assert BondsAgree(l.vault, bond.market);
    SumByTwo(l.vault.escrow.bonds, AmountIn(bond.market), p, d);
  }

  // ---------------------------------------------------------------- runs without credit

  /** Without child credit the vault is covered. */
  lemma NoCreditCovered(events: seq<Event>)
    requires NoCredits(events)
    ensures Covered(Run(GENESIS, events).vault)
  {
    hide Run, Lawful, Plain, Covered;
    var l := ReachablePlain(events);
    CoverAt(l);
    forall k: nat ensures HistoryOf(l.vault, k).withheld == 0 && AccountOf(l.vault, k).cash.refundable >= 0 {
      PlainMarket(l, k);
      RefundableCovers(l, k);
    }
  }
}
