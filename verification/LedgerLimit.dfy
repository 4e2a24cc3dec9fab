// The credit limit over whole runs: when used credit stays within sixty per cent of the stake behind it. Draws respect
// it; the calls that retire stake keep it exactly when the stake that is left carries the credit still in use.

module LedgerLimit {
  import opened Basics
  import opened DikeTypes
  import opened DikeMath
  import opened MarketRegistry
  import opened PoolQuotes
  import opened TokenLedger
  import opened VaultLedger
  import opened VaultBooks
  import opened VaultClaims
  import opened VaultDebts
  import opened VaultWaterfall
  import opened AmmPools
  import opened LedgerCalls
  import opened LedgerMoney
  import opened LedgerCustody
  import opened LedgerPools
  import opened LedgerRecord
  import opened LedgerLaws
  import opened LedgerDebts
  import opened LedgerParties
  import opened LedgerCover

  function Limit(stake: int): int {
    Bps(stake, CHILD_COLLATERAL_BPS)
  }

  predicate WithinAt(v: VaultState, q: Position) {
    Stake(v, q) >= 0 && Used(v, q) <= Limit(Stake(v, q))
  }

  ghost predicate WithinLimit(v: VaultState) {
    forall q :: WithinAt(v, q)
  }

  /** A step that only makes the limit easier to meet at q. */
  predicate Eases(v: VaultState, v': VaultState, q: Position) {
    Stake(v', q) >= Stake(v, q) && Used(v', q) <= Used(v, q)
  }

  lemma EasesKeeps(v: VaultState, v': VaultState, q: Position)
    requires WithinAt(v, q) && Eases(v, v', q)
    ensures WithinAt(v', q)
  {
    LimitMonotone(Stake(v, q), Stake(v', q));
  }

  lemma LimitMonotone(a: int, b: int)
    requires 0 <= a <= b
    ensures 0 <= Limit(a) <= Limit(b)
  {
    BpsBounds(a, CHILD_COLLATERAL_BPS);
    BpsBounds(b, CHILD_COLLATERAL_BPS);
  }

  lemma SameCredit(v: VaultState, v': VaultState)
    requires WithinLimit(v) && v'.debts.used == v.debts.used && v'.credit.stake == v.credit.stake
    ensures WithinLimit(v')
  {
    forall q ensures WithinAt(v', q) {
      assert WithinAt(v, q);
      EasesKeeps(v, v', q);
    }
  }

  /** The stake that is left of a position when so much is retired allows this much credit. */
  predicate Carries(v: VaultState, q: Position, retired: int, used: int) {
    used <= Limit(SaturatingSub(Stake(v, q), retired))
  }

  /** A step that retires stake of one position keeps everyone within the limit if and only if the stake that is left
      carries the credit that is still in use. */
  lemma RetiresExactly(v: VaultState, v': VaultState, q: Position, retired: int)
    requires WithinLimit(v)
    requires forall p :: p != q ==> Eases(v, v', p)
    requires Stake(v', q) == SaturatingSub(Stake(v, q), retired)
    ensures WithinLimit(v') <==> Carries(v, q, retired, Used(v', q))
  {
    hide Limit;
    if Carries(v, q, retired, Used(v', q)) {
      forall p ensures WithinAt(v', p) {
        assert WithinAt(v, p);
        if p != q {
          EasesKeeps(v, v', p);
        }
      }
    } else {
      assert !WithinAt(v', q);
    }
  }

  // ---------------------------------------------------------------- drawing and selling

  lemma OpenCreditWithin(v: VaultState, reg: RegistryState, q: Position, c: nat, amount: int)
    requires WithinLimit(v) && OpenCredit(v, reg, q, c, amount).Ok?
    ensures WithinLimit(OpenCredit(v, reg, q, c, amount).value)
  {
    hide Limit;
    var v1 := RecordCredit(v, q, c, amount);
    DrawAllowed(v, reg, q, c, amount);
    forall p ensures WithinAt(v1, p) {
      assert WithinAt(v, p);
      RecordCreditReads(v, q, c, amount, p, Leg(c, q.user));
    }
    SameCredit(v1, OpenCredit(v, reg, q, c, amount).value);
  }

  lemma DrawAllowed(v: VaultState, reg: RegistryState, q: Position, c: nat, amount: int)
    requires CreditAllowed(v, reg, q, c, amount).Ok?
    ensures Used(v, q) + amount <= Limit(Stake(v, q))
  {
  }

  /** A sale keeps the limit if and only if the stake that is left carries the credit used, which is not none when an
      earlier default left used credit without debt. */
  lemma ReleaseWithin(v: VaultState, reg: RegistryState, q: Position, tokensSold: int, payout: int)
    requires WithinLimit(v) && ReleaseTradePayout(v, reg, q, tokensSold, payout).Ok?
    ensures WithinLimit(ReleaseTradePayout(v, reg, q, tokensSold, payout).value) <==>
            Carries(v, q, tokensSold, Used(v, q))
  {
    hide Limit;
    var v' := ReleaseTradePayout(v, reg, q, tokensSold, payout).value;
    ReleaseReads(v, reg, q, tokensSold, payout);
    RetiresExactly(v, v', q, tokensSold);
  }

  lemma ReleaseReads(v: VaultState, reg: RegistryState, q: Position, tokensSold: int, payout: int)
    requires ReleaseTradePayout(v, reg, q, tokensSold, payout).Ok?
    ensures var v' := ReleaseTradePayout(v, reg, q, tokensSold, payout).value;
            && v'.debts == v.debts && (forall p :: Used(v', p) == Used(v, p)) && ParentDebt(v, q) <= 0
            && (forall p :: Stake(v', p) ==
                  if p == q then SaturatingSub(Stake(v, q), tokensSold) else Stake(v, p))
  {
  }

  lemma SoundAtPosition(v: VaultState, q: Position)
    requires SoundDebts(v)
    ensures 0 <= ParentDebt(v, q) <= Used(v, q)
  {
  }

  // ---------------------------------------------------------------- settling

  lemma SettleEases(v: VaultState, leg: Leg, repayment: int, q: Position)
    requires SoundDebts(v)
    ensures Eases(v, SettleChildDebt(v, leg, repayment).0, q)
  {
    hide SoundDebts, SettleChildDebt;
    SettleFrame(v, leg, repayment) by { SoundParts(v); }
    SettleReads(v, leg, repayment, q);
  }

  lemma {:induction false} SettleChildrenEases(v: VaultState, user: Address, list: seq<nat>, pool: int, q: Position)
    requires SoundDebts(v) && pool >= 0
    ensures Eases(v, SettleChildren(v, user, list, pool).0, q)
    decreases |list|
  {
    hide SoundDebts, SettleChildDebt;
    if list != [] && pool != 0 {
      var leg := Leg(list[0], user);
      SettleStep(v, leg, pool);
      SettleEases(v, leg, pool, q);
      var (v1, applied) := SettleChildDebt(v, leg, pool);
      SettleChildrenEases(v1, user, list[1..], pool - applied, q);
    }
  }

  lemma DefaultEases(v: VaultState, q: Position, total: int, p: Position)
    requires SoundDebts(v) && Distinct(ChildrenOf(v, q))
    ensures Eases(v, ResolveParentDefault(v, q, total), p)
  {
    hide SoundDebts, ResolveParentDefault;
    if total > 0 {
      DefaultReads(v, q, total, p, Leg(0, q.user));
      DefaultUsed(v, q, total);
      OwedNonNegative(v, q.user, ChildrenOf(v, q)) by { SoundLegs(v); }
      SoundAtPosition(v, q);
    }
    DefaultFrame(v, q, total) by { SoundParts(v); }
    NoDefault(v, q, total);
  }

  lemma SoundLegs(v: VaultState)
    requires SoundDebts(v)
    ensures LegsNonNegative(v)
  {
  }

  lemma NoDefault(v: VaultState, q: Position, total: int)
    ensures total <= 0 ==> ResolveParentDefault(v, q, total) == v
  {
  }

  // ---------------------------------------------------------------- liquidating a position

  lemma RouteReads(v: VaultState, q: Position, pool: int, p: Position)
    requires SoundDebts(v) && OwnLegs(v) && pool >= 0
    ensures var v' := RouteProceeds(v, q, pool).0;
            Eases(v, v', p) && v'.credit == v.credit && (p == q ==> Used(v', q) == LeftUsed(v, q, pool))
  {
    hide SoundDebts, OwnLegs, SettleChildren, ResolveParentDefault, LeftUsed;
    var list := ChildrenOf(v, q);
    DistinctLists(v, q);
    SettleChildrenSound(v, q.user, list, pool);
    SettleChildrenEases(v, q.user, list, pool, p);
    var v1 := SettleChildren(v, q.user, list, pool).0;
    assert ChildrenOf(v1, q) == list;
    DefaultEases(v1, q, Used(v1, q), p);
    DefaultFrame(v1, q, Used(v1, q)) by { SoundParts(v1); }
    RouteLeavesUsed(v, q, pool);
  }

  lemma DistinctLists(v: VaultState, q: Position)
    requires OwnLegs(v)
    ensures Distinct(ChildrenOf(v, q))
  {
  }

  /** The share of the proceeds that goes into the waterfall. */
  function Spread(proceeds: int): int {
    proceeds - Bps(proceeds, LIQUIDATION_BONUS_BPS)
  }

  /** A liquidation keeps the limit if and only if the stake that is left carries the used credit that neither the
      waterfall nor the write-off reaches. */
  lemma LiquidateReleaseWithin(v: VaultState, reg: RegistryState, q: Position, tokensSold: int, proceeds: int)
    requires SoundDebts(v) && OwnLegs(v) && WithinLimit(v)
    requires LiquidateRelease(v, reg, q, tokensSold, proceeds).Ok?
    ensures WithinLimit(LiquidateRelease(v, reg, q, tokensSold, proceeds).value.0) <==>
            Carries(v, q, tokensSold, LeftUsed(v, q, Spread(proceeds)))
  {
    hide SoundDebts, OwnLegs, RouteProceeds, Limit, LeftUsed, PayOut;
    var v1 := ExtractProceeds(v, q, tokensSold, proceeds).value;
    ExtractReads(v, q, tokensSold, proceeds);
    SameDebtsSound(v, v1);
    ExtractedOwn(v, q, tokensSold, proceeds);
    LeftUsedSame(v, v1, q, Spread(proceeds));
    BpsBounds(proceeds, LIQUIDATION_BONUS_BPS);
    var bonus := Bps(proceeds, LIQUIDATION_BONUS_BPS);
    var routed := RouteProceeds(v1, q, proceeds - bonus);
    PayOutSame(routed, proceeds, bonus);
    var v' := PayOut(routed, proceeds, bonus).value.0;
    forall p ensures Stake(v', p) == Stake(v1, p) && Used(v', p) <= Used(v, p)
             ensures p == q ==> Used(v', q) == LeftUsed(v, q, Spread(proceeds))
    {
      RouteReads(v1, q, proceeds - bonus, p);
    }
    RetiresExactly(v, v', q, tokensSold);
  }

  lemma PayOutSame(routed: (VaultState, int), proceeds: int, bonus: int)
    requires PayOut(routed, proceeds, bonus).Ok?
    ensures var v' := PayOut(routed, proceeds, bonus).value.0;
            v'.debts == routed.0.debts && v'.credit == routed.0.credit
  {
  }

  lemma ExtractReads(v: VaultState, q: Position, tokensSold: int, proceeds: int)
    requires ExtractProceeds(v, q, tokensSold, proceeds).Ok?
    ensures var v1 := ExtractProceeds(v, q, tokensSold, proceeds).value;
            && v1.debts == v.debts && v1.credit.lender == v.credit.lender && v1.credit.children == v.credit.children
            && (forall p :: Used(v1, p) == Used(v, p))
            && (forall p :: Stake(v1, p) ==
                  if p == q then SaturatingSub(Stake(v, q), tokensSold) else Stake(v, p))
  {
  }

  lemma PayOutCredit(routed: (VaultState, int), proceeds: int, bonus: int)
    requires PayOut(routed, proceeds, bonus).Ok?
    ensures PayOut(routed, proceeds, bonus).value.0.credit == routed.0.credit
  {
  }

  lemma RepaymentWithin(v: VaultState, reg: RegistryState, leg: Leg, amount: int)
    requires SoundDebts(v) && WithinLimit(v) && RepayChildCollateral(v, reg, leg, amount).Ok?
    ensures WithinLimit(RepayChildCollateral(v, reg, leg, amount).value.0)
  {
    hide SoundDebts, SettleChildDebt;
    var v0 := Receive(v, amount);
    SameDebtsSound(v, v0);
    var v1 := SettleChildDebt(v0, leg, amount).0;
    forall q ensures WithinAt(v1, q) {
      assert WithinAt(v, q);
      SettleEases(v0, leg, amount, q);
      EasesKeeps(v, v1, q);
    }
    SameCredit(v1, RepayChildCollateral(v, reg, leg, amount).value.0);
  }

  // ---------------------------------------------------------------- refunds

  lemma WithholdEases(v: VaultState, q: Position, claim: int, p: Position)
    requires SoundDebts(v) && claim >= 0
    ensures Eases(v, Withhold(v, q, claim).0, p)
  {
    hide SoundDebts;
    var kept := Min(claim, ParentDebt(v, q));
    if ParentDebt(v, q) > 0 && kept > 0 {
      RepayReads(v, q, kept, p, Leg(0, q.user));
    }
  }

  lemma WorthlessEases(v: VaultState, q: Position, gross: int, p: Position)
    requires SoundDebts(v) && OwnLegs(v)
    ensures Eases(v, DefaultIfWorthless(v, q, gross), p)
  {
    hide SoundDebts, OwnLegs, ResolveParentDefault;
    DistinctLists(v, q);
    DefaultEases(v, q, ParentDebt(v, q), p);
  }

  lemma WithholdSound(v: VaultState, q: Position, claim: int)
    requires SoundDebts(v) && OwnLegs(v) && claim >= 0
    ensures var v1 := Withhold(v, q, claim).0;
            SoundDebts(v1) && OwnLegs(v1)
  {
    hide SoundDebts, OwnLegs, Keeps;
    WithholdKeeps(v, q, claim);
    KeptSound(v, Withhold(v, q, claim).0);
    SameOwn(v, Withhold(v, q, claim).0);
  }

  /** What is kept back and what is written off only eases the limit. */
  lemma DebtsEase(v: VaultState, q: Position, claim: int, gross: int, p: Position)
    requires SoundDebts(v) && OwnLegs(v) && claim >= 0
    ensures Eases(v, DefaultIfWorthless(Withhold(v, q, claim).0, q, gross), p)
  {
    hide SoundDebts, OwnLegs, Withhold, DefaultIfWorthless;
    WithholdSound(v, q, claim);
    WithholdEases(v, q, claim, p);
    WorthlessEases(Withhold(v, q, claim).0, q, gross, p);
  }

  lemma SettleRefundWithin(v: VaultState, q: Position, gross: int)
    requires SoundDebts(v) && OwnLegs(v) && WithinLimit(v) && gross >= 0 && SettleRefund(v, q, gross).Ok?
    ensures WithinLimit(SettleRefund(v, q, gross).value.0)
  {
    hide SoundDebts, OwnLegs, Withhold, DefaultIfWorthless, CappedPayout, Limit;
    var v2 := DefaultIfWorthless(Withhold(v, q, gross).0, q, gross);
    forall p ensures WithinAt(v2, p) {
      assert WithinAt(v, p);
      DebtsEase(v, q, gross, gross, p);
      EasesKeeps(v, v2, p);
    }
    SameCredit(v2, SettleRefund(v, q, gross).value.0);
  }

  lemma OpenClaimCredit(v: VaultState, m: nat, final: Outcome, redeemed: Outcome, amount: int)
    ensures var v' := OpenClaim(v, m, final, redeemed, amount).0;
            v'.debts == v.debts && v'.credit == v.credit
  {
  }

  // ---------------------------------------------------------------- redemptions

  /** A claim that is worth something retires the stake by all of it, but the used credit falls only by what is kept
      back after the leg's own debt went upstream. */
  predicate RedeemsWithin(v: VaultState, q: Position, gross: int) {
    Carries(v, q, gross, Used(v, q) - ClaimTakes(v, q, gross))
  }

  /** What a claim takes off the debt of the redeemed position. */
  function ClaimTakes(v: VaultState, q: Position, gross: int): int {
    Min(gross - Applicable(v, Leg(q.market, q.user), gross), ParentDebt(v, q))
  }

  /** Stakes and used credit after a claim of some worth. */
  lemma ClaimReads(v: VaultState, q: Position, gross: int, p: Position)
    requires SoundDebts(v) && OwnLegs(v) && gross > 0 && SettleClaim(v, q, gross).Ok?
    ensures var v' := SettleClaim(v, q, gross).value.0;
            && Used(v', p) <= Used(v, p)
            && (p == q ==> Used(v', q) == Used(v, q) - ClaimTakes(v, q, gross))
            && Stake(v', p) == (if p == q then SaturatingSub(Stake(v, q), gross) else Stake(v, p))
  {
    hide SoundDebts, OwnLegs, PayUpstream, Withhold, PayClaim, CappedPayout, Keeps, Applicable;
    var leg := Leg(q.market, q.user);
    var (v1, up) := PayUpstream(v, leg, gross);
    UpstreamReads(v, leg, gross, p);
    UpstreamReads(v, leg, gross, q);
    UpstreamDrains(v, q, gross, q.market);
    PayUpstreamKeeps(v, leg, gross);
    KeptSound(v, v1);
    SoundAtPosition(v1, q);
    WithheldReads(v1, q, gross - up, p);
    var (v2, rest) := ClaimAfterDebt(v, q, gross);
    assert v2 == Withhold(v1, q, gross - up).0;
    RetiredReads(v2, q, gross, CappedPayout(AccountOf(v2, q.market), rest), p);
  }

  lemma UpstreamReads(v: VaultState, leg: Leg, claim: int, p: Position)
    requires SoundDebts(v) && OwnLegs(v) && claim >= 0
    ensures var v1 := PayUpstream(v, leg, claim).0;
            && Eases(v, v1, p) && Stake(v1, p) == Stake(v, p)
            && (p.market == leg.market ==> Used(v1, p) == Used(v, p))
  {
    hide SoundDebts, SettleChildDebt, OwnLegs;
    SettleFrame(v, leg, claim) by { SoundParts(v); }
    SettleReads(v, leg, claim, p);
    if HasParent(v, leg) {
      LenderElsewhere(v, leg);
    }
  }

  lemma WithheldReads(v: VaultState, q: Position, claim: int, p: Position)
    requires SoundDebts(v) && claim >= 0
    ensures var v' := Withhold(v, q, claim).0;
            && Used(v', p) == Used(v, p) - (if p == q then Min(claim, ParentDebt(v, q)) else 0)
            && v'.credit == v.credit && Min(claim, ParentDebt(v, q)) >= 0
  {
    hide SoundDebts;
    SoundAtPosition(v, q);
    var kept := Min(claim, ParentDebt(v, q));
    if ParentDebt(v, q) > 0 && kept > 0 {
      RepayReads(v, q, kept, p, Leg(0, q.user));
    }
  }

  lemma KeptSound(v: VaultState, v': VaultState)
    requires Keeps(v, v')
    ensures SoundDebts(v')
  {
    hide SoundDebts, OneLender, Matched;
  }

  lemma RetiredReads(v: VaultState, q: Position, gross: int, payout: int, p: Position)
    requires gross > 0 && PayClaim(RetireStake(v, q, gross), q.market, payout).Ok?
    ensures var v' := PayClaim(RetireStake(v, q, gross), q.market, payout).value;
            && Used(v', p) == Used(v, p)
            && Stake(v', p) == (if p == q then SaturatingSub(Stake(v, p), gross) else Stake(v, p))
  {
  }

  /** A redemption keeps every position within the limit if and only if the stake that is left carries the credit that
      is still in use; and that can be read before the call. */
  lemma RedemptionWithinExactly(v: VaultState, q: Position, gross: int)
    requires SoundDebts(v) && OwnLegs(v) && WithinLimit(v) && gross > 0 && SettleClaim(v, q, gross).Ok?
    ensures WithinLimit(SettleClaim(v, q, gross).value.0) <==> RedeemsWithin(v, q, gross)
  {
    hide SoundDebts, OwnLegs, SettleClaim, Applicable, Limit;
    var v' := SettleClaim(v, q, gross).value.0;
    forall p ensures Stake(v', p) == (if p == q then SaturatingSub(Stake(v, q), gross) else Stake(v, p))
             ensures Used(v', p) <= Used(v, p)
    {
      ClaimReads(v, q, gross, p);
    }
    ClaimReads(v, q, gross, q);
    RetiresExactly(v, v', q, gross);
  }

  /** A redeemer whose leg in the market owes nothing stays within the limit when all the credit used of the position is
      owed: debt and stake fall together. */
  lemma DebtFreeLegRedeemsWithin(v: VaultState, q: Position, gross: int)
    requires SoundDebts(v) && WithinAt(v, q) && gross > 0 && ChildDebt(v, Leg(q.market, q.user)) == 0
    requires Used(v, q) == ParentDebt(v, q)
    ensures RedeemsWithin(v, q, gross)
  {
    hide SoundDebts;
    SoundAtPosition(v, q);
    BpsBounds(Stake(v, q), CHILD_COLLATERAL_BPS);
    BpsBounds(SaturatingSub(Stake(v, q), gross), CHILD_COLLATERAL_BPS);
  }

  lemma WorthlessWithin(v: VaultState, q: Position)
    requires SoundDebts(v) && OwnLegs(v) && WithinLimit(v) && SettleClaim(v, q, 0).Ok?
    ensures WithinLimit(SettleClaim(v, q, 0).value.0)
  {
    hide SoundDebts, OwnLegs, Withhold, DefaultIfWorthless, CappedPayout, Limit;
    assert PayUpstream(v, Leg(q.market, q.user), 0) == (v, 0);
    var v2 := DefaultIfWorthless(Withhold(v, q, 0).0, q, 0);
    forall p ensures WithinAt(v2, p) {
      assert WithinAt(v, p);
      DebtsEase(v, q, 0, 0, p);
      EasesKeeps(v, v2, p);
    }
    SameCredit(v2, SettleClaim(v, q, 0).value.0);
  }

  lemma RedemptionWithin(l: Ledger, call: Call)
    requires Redeems(call) && ApplyRedeem(l, call).Ok?
    requires SoundDebts(l.vault) && OwnLegs(l.vault) && WithinLimit(l.vault)
    requires Balanced(l.vault, l.tokens, call.market)
    ensures WithinLimit(ApplyRedeem(l, call).value.vault) <==>
            call.Refund? || ClaimOf(l, call) <= 0
            || RedeemsWithin(l.vault, Position(call.market, call.user, call.outcome), ClaimOf(l, call))
  {
    hide SoundDebts, OwnLegs, SettleClaim, SettleRefund, OpenClaim, Burn, Balanced, WithinLimit, RedeemsWithin,
         Entitlement;
    var q := Position(call.market, call.user, call.outcome);
    var final := FinalOf(l, call);
    OpenClaimBalanced(l.vault, l.tokens, q, final, call.amount, q.market);
    OpenClaimClaims(l.vault, q.market, final, q.outcome, call.amount, q.market);
    var (v1, gross) := OpenClaim(l.vault, q.market, final, q.outcome, call.amount);
    OpenClaimCredit(l.vault, q.market, final, q.outcome, call.amount);
    SameDebtsSound(l.vault, v1);
    SameOwn(l.vault, v1);
    SameCredit(l.vault, v1);
    if call.Refund? {
      SettleRefundWithin(v1, q, gross);
    } else if gross > 0 {
      RedemptionWithinExactly(v1, q, gross);
      SameRedeems(l.vault, v1, q, gross);
    } else {
      WorthlessWithin(v1, q);
    }
  }

  lemma SameRedeems(v: VaultState, v': VaultState, q: Position, gross: int)
    requires v'.debts == v.debts && v'.credit == v.credit
    ensures RedeemsWithin(v', q, gross) == RedeemsWithin(v, q, gross)
  {
  }

  // ---------------------------------------------------------------- closing a leg

  lemma CloseLegReads(v: VaultState, leg: Leg, pool: int, p: Position)
    requires SoundDebts(v) && OwnLegs(v)
    ensures var v' := CloseLeg(v, leg, pool).0;
            && Eases(v, v', p) && Stake(v', p) == Stake(v, p)
            && (p.market == leg.market ==> Used(v', p) == Used(v, p))
  {
    hide SoundDebts, SettleChildDebt, ResolveParentDefault, OwnLegs;
    SettleSound(v, leg, pool);
    SettleEases(v, leg, pool, p);
    SettleReads(v, leg, pool, p);
    SettleFrame(v, leg, pool) by { SoundParts(v); }
    var v1 := SettleChildDebt(v, leg, pool).0;
    SettleCredit(v, leg, pool);
    if HasParent(v, leg) {
      LenderElsewhere(v, leg);
      var q := Lender(v, leg);
      DefaultEases(v1, q, ChildDebt(v1, leg), p);
      DefaultFrame(v1, q, ChildDebt(v1, leg)) by { SoundParts(v1); }
      if ChildDebt(v1, leg) > 0 {
        DefaultReads(v1, q, ChildDebt(v1, leg), p, leg);
      }
    }
  }

  lemma SettleCredit(v: VaultState, leg: Leg, repayment: int)
    ensures SettleChildDebt(v, leg, repayment).0.credit == v.credit
  {
  }

  lemma LenderElsewhere(v: VaultState, leg: Leg)
    requires OwnLegs(v) && HasParent(v, leg)
    ensures Lender(v, leg).market != leg.market && Distinct(ChildrenOf(v, Lender(v, leg)))
  {
  }

  /** Stakes and used credit after a leg was closed. */
  lemma ClosedReads(v: VaultState, reg: RegistryState, q: Position, tokensSold: int, proceeds: int, p: Position)
    requires SoundDebts(v) && OwnLegs(v) && LiquidateChildRelease(v, reg, q, tokensSold, proceeds).Ok?
    ensures var v' := LiquidateChildRelease(v, reg, q, tokensSold, proceeds).value.0;
            && Stake(v', p) == (if p == q then SaturatingSub(Stake(v, q), tokensSold) else Stake(v, p))
            && Used(v', p) <= Used(v, p) && (p == q ==> Used(v', q) == Used(v, q))
  {
    hide SoundDebts, OwnLegs, CloseLeg;
    var v1 := ExtractProceeds(v, q, tokensSold, proceeds).value;
    var leg := Leg(q.market, q.user);
    SameDebtsSound(v, v1);
    ExtractedOwn(v, q, tokensSold, proceeds);
    var bonus := Bps(proceeds, LIQUIDATION_BONUS_BPS);
    var routed := CloseLeg(v1, leg, proceeds - bonus);
    PayOutFrame(routed, proceeds, bonus);
    PayOutCredit(routed, proceeds, bonus);
    CloseLegReads(v1, leg, proceeds - bonus, p);
  }

  /** Closing a leg keeps every position within the limit if and only if the stake that is left of the position sold
      with it carries the credit used of it, if any. */
  lemma ClosesWithin(v: VaultState, reg: RegistryState, q: Position, tokensSold: int, proceeds: int)
    requires SoundDebts(v) && OwnLegs(v) && WithinLimit(v)
    requires LiquidateChildRelease(v, reg, q, tokensSold, proceeds).Ok?
    ensures WithinLimit(LiquidateChildRelease(v, reg, q, tokensSold, proceeds).value.0) <==>
            Carries(v, q, tokensSold, Used(v, q))
  {
    hide SoundDebts, OwnLegs, LiquidateChildRelease, Limit;
    var v' := LiquidateChildRelease(v, reg, q, tokensSold, proceeds).value.0;
    forall p ensures Stake(v', p) == (if p == q then SaturatingSub(Stake(v, q), tokensSold) else Stake(v, p))
             ensures Used(v', p) <= Used(v, p) && (p == q ==> Used(v', q) == Used(v, q))
    {
      ClosedReads(v, reg, q, tokensSold, proceeds, p);
    }
    RetiresExactly(v, v', q, tokensSold);
  }

  lemma ExtractedOwn(v: VaultState, q: Position, tokensSold: int, proceeds: int)
    requires OwnLegs(v) && ExtractProceeds(v, q, tokensSold, proceeds).Ok?
    ensures OwnLegs(ExtractProceeds(v, q, tokensSold, proceeds).value)
  {
    hide Distinct;
  }

  // ---------------------------------------------------------------- every call

  lemma BuyWithin(v: VaultState, reg: RegistryState, trader: Address, m: nat, parent: Parent, trade: Trade,
                  split: FeeSplit)
    requires WithinLimit(v) && BuyVault(v, reg, trader, m, parent, trade, split).Ok?
    ensures WithinLimit(BuyVault(v, reg, trader, m, parent, trade, split).value)
  {
    hide OpenCredit, Limit;
    var v1 := PayIn(v, reg, trader, m, parent, trade).value;
    match parent {
      case FromParent(q) => OpenCreditWithin(v, reg, Position(q.market, trader, q.outcome), m, trade.amountIn);
      case NoParent =>
        forall q ensures WithinAt(v1, q) {
          assert WithinAt(v, q);
          EasesKeeps(v, v1, q);
        }
    }
    SameCredit(v1, BuyVault(v, reg, trader, m, parent, trade, split).value);
  }

  /** The guard of the limit, read before the call: whether the stake that the call leaves of a position carries the
      credit that it leaves in use. Only calls that retire stake have one. */
  predicate KeepsStake(l: Ledger, call: Call) {
    match call
    case Sale(trader, id, amountIn, _, _, yes) =>
      id in l.amm.pools ==>
        var q := Position(l.amm.pools[id].market, trader, SideOf(yes));
        Carries(l.vault, q, amountIn, Used(l.vault, q))
    case Liquidation(_, user, id, outcome) =>
      id in l.amm.pools ==>
        var q := Position(l.amm.pools[id].market, user, outcome);
        Carries(l.vault, q, Held(l, q), LeftUsed(l.vault, q, Spread(ProceedsOf(l.amm.pools[id], Held(l, q), outcome))))
    case LegLiquidation(_, user, id, outcome) =>
      id in l.amm.pools ==>
        var q := Position(l.amm.pools[id].market, user, outcome);
        Carries(l.vault, q, Held(l, q), Used(l.vault, q))
    case Redemption(user, m, outcome, _) =>
      ClaimOf(l, call) > 0 ==> RedeemsWithin(l.vault, Position(m, user, outcome), ClaimOf(l, call))
    case _ => true
  }

  /** All the tokens a user holds of a position: a forced sale takes them. */
  function Held(l: Ledger, q: Position): int {
    Balance(l.tokens, q.user, Side(q.market, q.outcome))
  }

  /** What a forced sale brings after the fee. */
  function ProceedsOf(pool: Pool, amount: int, outcome: Outcome): int {
    var sale := PriceSell(pool, amount, SideOf(outcome == Yes));
    if sale.Ok? then sale.value.gross - sale.value.fee else 0
  }

  lemma SaleWithin(l: Ledger, trader: Address, id: nat, pool: Pool, trade: Trade)
    requires WithinLimit(l.vault) && SettleSell(l, trader, id, pool, trade).Ok?
    ensures var q := Position(pool.market, trader, trade.outcome);
            WithinLimit(SettleSell(l, trader, id, pool, trade).value.0.vault) <==>
            Carries(l.vault, q, trade.amountIn, Used(l.vault, q))
  {
    hide WithinLimit, ReleaseTradePayout, SellTokens, SplitTradingFee, AfterSell, Carries;
    var q := Position(pool.market, trader, trade.outcome);
    ReleaseWithin(l.vault, l.reg, q, trade.amountIn, trade.gross - trade.fee);
    var v1 := ReleaseTradePayout(l.vault, l.reg, q, trade.amountIn, trade.gross - trade.fee).value;
    var v' := SettleSell(l, trader, id, pool, trade).value.0.vault;
    SameLimit(v1, v');
  }

  lemma SameLimit(v: VaultState, v': VaultState)
    requires v'.debts.used == v.debts.used && v'.credit.stake == v.credit.stake
    ensures WithinLimit(v') <==> WithinLimit(v)
  {
    hide WithinLimit;
    if WithinLimit(v) {
      SameCredit(v, v');
    }
    if WithinLimit(v') {
      SameCredit(v', v);
    }
  }

  lemma LiquidationWithin(l: Ledger, user: Address, id: nat, pool: Pool, trade: Trade, q: Position)
    requires SoundDebts(l.vault) && OwnLegs(l.vault) && WithinLimit(l.vault)
    ensures var r := SettleLiquidation(l, user, id, pool, trade, q);
            r.Ok? ==> (WithinLimit(r.value.0.vault) <==>
                         Carries(l.vault, q, trade.amountIn, LeftUsed(l.vault, q, Spread(trade.gross - trade.fee))))
    ensures var r := SettleLegLiquidation(l, user, id, pool, trade, q);
            r.Ok? ==> (WithinLimit(r.value.0.vault) <==> Carries(l.vault, q, trade.amountIn, Used(l.vault, q)))
  {
    hide SoundDebts, OwnLegs, ForceSell, LiquidateRelease, LiquidateChildRelease, WithinLimit, Limit, LeftUsed;
    if ForceSell(l, user, id, pool, trade).Ok? {
      var l1 := ForceSell(l, user, id, pool, trade).value;
      ForcedVault(l, user, id, pool, trade);
      SameCredit(l.vault, l1.vault);
      SameDebtsSound(l.vault, l1.vault);
      SameOwn(l.vault, l1.vault);
      LeftUsedSame(l.vault, l1.vault, q, Spread(trade.gross - trade.fee));
      if LiquidateRelease(l1.vault, l1.reg, q, trade.amountIn, trade.gross - trade.fee).Ok? {
        LiquidateReleaseWithin(l1.vault, l1.reg, q, trade.amountIn, trade.gross - trade.fee);
      }
      if LiquidateChildRelease(l1.vault, l1.reg, q, trade.amountIn, trade.gross - trade.fee).Ok? {
        ClosesWithin(l1.vault, l1.reg, q, trade.amountIn, trade.gross - trade.fee);
      }
    }
  }

  lemma ForcedVault(l: Ledger, user: Address, id: nat, pool: Pool, trade: Trade)
    requires ForceSell(l, user, id, pool, trade).Ok?
    ensures var v := ForceSell(l, user, id, pool, trade).value.vault;
            && v.debts == l.vault.debts && v.credit == l.vault.credit && SameDebts(l.vault, v)
            && (forall q :: Stake(v, q) == Stake(l.vault, q) && Used(v, q) == Used(l.vault, q))
  {
    hide ForceTokens, SplitTradingFee, AfterSell;
  }

  lemma PricedSale(l: Ledger, now: nat, liquidator: Address, user: Address, id: nat, outcome: Outcome, isChild: bool)
    requires PriceLiquidation(l, now, liquidator, user, id, outcome, isChild).Ok?
    ensures var (pool, trade) := PriceLiquidation(l, now, liquidator, user, id, outcome, isChild).value;
            && id in l.amm.pools && pool == l.amm.pools[id]
            && trade.amountIn == Held(l, Position(pool.market, user, outcome))
            && trade.gross - trade.fee == ProceedsOf(pool, trade.amountIn, outcome)
  {
    hide QuoteSell, SplitFee, RequireLive;
  }

  lemma PricedSell(pool: Pool, amountIn: int, outcome: Outcome)
    requires PriceSell(pool, amountIn, outcome).Ok?
    ensures var trade := PriceSell(pool, amountIn, outcome).value;
            trade.amountIn == amountIn && trade.outcome == outcome
  {
    hide QuoteSell, SplitFee;
  }

  lemma TradeWithin(l: Ledger, now: nat, call: Call)
    requires call.Purchase? || call.Sale? || call.Liquidation? || call.LegLiquidation?
    requires ApplyTrade(l, now, call).Ok? && SoundDebts(l.vault) && OwnLegs(l.vault) && WithinLimit(l.vault)
    ensures WithinLimit(ApplyTrade(l, now, call).value.vault) <==> KeepsStake(l, call)
  {
    hide SoundDebts, OwnLegs, WithinLimit, BuyVault, BuyTokens, SettleSell, SettleLiquidation, SettleLegLiquidation,
         RequireLive, PriceBuy, PriceSell, PriceLiquidation, Carries, LeftUsed, ProceedsOf;
    match call
    case Purchase(trader, id, amountIn, _, _, yes, parent) =>
      var pool := l.amm.pools[id];
      var trade := PriceBuy(pool, amountIn, SideOf(yes)).value;
      BuyWithin(l.vault, l.reg, trader, pool.market, parent, trade, SplitTradingFee(trade.fee, pool.fee));
    case Sale(trader, id, amountIn, _, _, yes) =>
      var pool := l.amm.pools[id];
      PricedSell(pool, amountIn, SideOf(yes));
      SaleWithin(l, trader, id, pool, PriceSell(pool, amountIn, SideOf(yes)).value);
    case Liquidation(liquidator, user, id, outcome) =>
      PricedSale(l, now, liquidator, user, id, outcome, false);
      var (pool, trade) := PriceLiquidation(l, now, liquidator, user, id, outcome, false).value;
      LiquidationWithin(l, user, id, pool, trade, Position(pool.market, user, outcome));
    case LegLiquidation(liquidator, user, id, outcome) =>
      PricedSale(l, now, liquidator, user, id, outcome, true);
      var (pool, trade) := PriceLiquidation(l, now, liquidator, user, id, outcome, true).value;
      LiquidationWithin(l, user, id, pool, trade, Position(pool.market, user, outcome));
  }

  lemma QuietWithin(l: Ledger, now: nat, call: Call)
    requires call.Creation? || call.Seeding? || call.Addition? || call.Removal? || call.FeeClaim?
    requires ApplyLiquidity(l, now, call).Ok? && WithinLimit(l.vault)
    ensures WithinLimit(ApplyLiquidity(l, now, call).value.vault)
  {
    hide WithinLimit, MintCompleteSet, RequireSeedable, RequireTradeable, RequireRemovable, SharesFor,
         Withdrawal, HandOut, FeesOwed, RegisterMarket, CreatePool, Transition;
    SameCredit(l.vault, ApplyLiquidity(l, now, call).value.vault);
  }

  lemma VaultCallWithin(v: VaultState, reg: RegistryState, call: Call)
    requires call.Repayment? || call.BondLock? || call.BondUnlock? || call.FeeSweep?
    requires ApplyVault(v, reg, call).Ok? && SoundDebts(v) && WithinLimit(v)
    ensures WithinLimit(ApplyVault(v, reg, call).value)
  {
    hide SoundDebts, WithinLimit, RepayChildCollateral;
    match call
    case Repayment(user, m, amount) => RepaymentWithin(v, reg, Leg(m, user), amount);
    case BondLock(_, _, _) => SameCredit(v, ApplyVault(v, reg, call).value);
    case BondUnlock(_, _, _) => SameCredit(v, ApplyVault(v, reg, call).value);
    case FeeSweep(_) => SameCredit(v, ApplyVault(v, reg, call).value);
  }

  /** An accepted call keeps every position within the limit if and only if it meets the guard. */
  lemma ApplyWithin(l: Ledger, now: nat, call: Call)
    requires Sturdy(l) && WithinLimit(l.vault) && Apply(l, now, call).Ok?
    ensures WithinLimit(Apply(l, now, call).value.vault) <==> KeepsStake(l, call)
  {
    hide ApplyTrade, ApplyLiquidity, ApplyRedeem, ApplyVault, ApplyTokens, ApplyRegistry, Balanced, Lawful, OwnLegs,
         SoundDebts, WithinLimit, Carries, RedeemsWithin, ClaimOf;
    LawfulParts(l);
    match call
    case Purchase(_, _, _, _, _, _, _) => TradeWithin(l, now, call);
    case Sale(_, _, _, _, _, _) => TradeWithin(l, now, call);
    case Liquidation(_, _, _, _) => TradeWithin(l, now, call);
    case LegLiquidation(_, _, _, _) => TradeWithin(l, now, call);
    case Creation(_, _, _, _) => QuietWithin(l, now, call);
    case Seeding(_, _, _) => QuietWithin(l, now, call);
    case Addition(_, _, _) => QuietWithin(l, now, call);
    case Removal(_, _, _) => QuietWithin(l, now, call);
    case FeeClaim(_, _) => QuietWithin(l, now, call);
    case Refund(_, _, _, _) => RedemptionWithin(l, call);
    case Redemption(_, _, _, _) => RedemptionWithin(l, call);
    case Repayment(_, _, _) => VaultCallWithin(l.vault, l.reg, call);
    case BondLock(_, _, _) => VaultCallWithin(l.vault, l.reg, call);
    case BondUnlock(_, _, _) => VaultCallWithin(l.vault, l.reg, call);
    case FeeSweep(_) => VaultCallWithin(l.vault, l.reg, call);
    case Transfer(_, _, _, _) =>
    case LosingBurn(_, _, _) =>
    case RegistryMove(_) =>
    case Pause(contract, paused) => SameCredit(l.vault, ApplyPause(l, contract, paused).vault);
  }

  // ---------------------------------------------------------------- runs

  /** Every accepted call of the run meets the guard. */
  predicate KeepsStakes(l: Ledger, events: seq<Event>)
    decreases |events|
  {
    events != [] ==>
      && (Apply(l, events[0].now, events[0].call).Ok? ==> KeepsStake(l, events[0].call))
      && KeepsStakes(Step(l, events[0].now, events[0].call), events[1..])
  }

  ghost predicate WithinThroughout(l: Ledger, events: seq<Event>)
    decreases |events|
  {
    WithinLimit(l.vault) && (events != [] ==> WithinThroughout(Step(l, events[0].now, events[0].call), events[1..]))
  }

  lemma {:induction false} RunWithin(l: Ledger, events: seq<Event>)
    requires Sturdy(l) && WithinLimit(l.vault)
    ensures WithinThroughout(l, events) <==> KeepsStakes(l, events)
    ensures WithinThroughout(l, events) ==> WithinLimit(Run(l, events).vault)
    decreases |events|
  {
    hide Apply, Sturdy, WithinLimit, KeepsStake;
    if events != [] {
      var now, call := events[0].now, events[0].call;
      var l1 := Step(l, now, call);
      StepSturdy(l, now, call);
      if Apply(l, now, call).Ok? {
        ApplyWithin(l, now, call);
      }
      if WithinLimit(l1.vault) {
        RunWithin(l1, events[1..]);
      }
    }
  }

  /** At the end of any run: a call accepted there keeps the limit if and only if it meets the guard. */
  lemma StepWithinExactly(events: seq<Event>, now: nat, call: Call)
    requires WithinLimit(Run(GENESIS, events).vault) && Apply(Run(GENESIS, events), now, call).Ok?
    ensures WithinLimit(Apply(Run(GENESIS, events), now, call).value.vault) <==> KeepsStake(Run(GENESIS, events), call)
  {
    hide Run, Sturdy, WithinLimit, KeepsStake, Apply;
    GenesisSturdy();
    RunSturdy(GENESIS, events);
    ApplyWithin(Run(GENESIS, events), now, call);
  }

  /** Closing a leg at the end of any run, read from the position before the call: its used credit against the stake
      that is left when all its tokens are sold. */
  lemma ClosingWithinExactly(events: seq<Event>, now: nat, liquidator: Address, user: Address, id: nat,
                             outcome: Outcome)
    requires WithinLimit(Run(GENESIS, events).vault)
    requires LiquidateChild(Run(GENESIS, events), now, liquidator, user, id, outcome).Ok?
    ensures var l := Run(GENESIS, events);
            id in l.amm.pools
            && var m := l.amm.pools[id].market;
            var q := Position(m, user, outcome);
            WithinLimit(LiquidateChild(l, now, liquidator, user, id, outcome).value.0.vault) <==>
            Used(l.vault, q) <= Limit(SaturatingSub(Stake(l.vault, q), Balance(l.tokens, user, Side(m, outcome))))
  {
    hide Run, WithinLimit, SettleLegLiquidation, PriceLiquidation, Limit;
    var l := Run(GENESIS, events);
    StepWithinExactly(events, now, LegLiquidation(liquidator, user, id, outcome));
    PricedSale(l, now, liquidator, user, id, outcome, true);
  }

  /** The limit over every run whatever: each position stays within sixty per cent of its stake at every moment if and
      only if every accepted call that retires stake met the guard when it was called. */
  lemma LimitThroughoutExactly(events: seq<Event>)
    ensures WithinThroughout(GENESIS, events) <==> KeepsStakes(GENESIS, events)
    ensures KeepsStakes(GENESIS, events) ==>
              forall q :: WithinAt(Run(GENESIS, events).vault, q)
  {
    hide Run, Sturdy, KeepsStakes, WithinThroughout, WithinAt;
    GenesisSturdy();
    EmptyWithin();
    RunWithin(GENESIS, events);
  }

  // ---------------------------------------------------------------- runs with one lender per leg

  lemma {:induction false} AllOwedTo(v: VaultState, q: Position, list: seq<nat>)
    requires forall c :: c in list ==> LendsTo(v, q, Leg(c, q.user))
    ensures OwedTo(v, q, list) == Owed(v, q.user, list)
    decreases |list|
  {
    if list != [] {
      assert list[0] in list;
      AllOwedTo(v, q, list[1..]);
    }
  }

  lemma OneLenderRecovers(v: VaultState, q: Position)
    requires OneLender(v) && Matched(v)
    ensures Recoverable(v, q)
  {
    hide SoundDebts, Distinct;
    AllOwedTo(v, q, ChildrenOf(v, q));
    MatchedAt(v, q);
  }

  /** The liquidation of a recoverable position keeps the limit, whatever the sale brings. */
  lemma RecoverableKeeps(l: Ledger, now: nat, call: Call)
    requires call.Liquidation? && Apply(l, now, call).Ok? && Sturdy(l)
    requires call.pool in l.amm.pools ==>
               Recoverable(l.vault, Position(l.amm.pools[call.pool].market, call.user, call.outcome))
    ensures KeepsStake(l, call)
  {
    hide Lawful, OwnLegs, SoundDebts, Recoverable, LeftUsed, Carries, ProceedsOf, Apply, Distinct;
    SturdyParts(l);
    if call.pool in l.amm.pools {
      var pool := l.amm.pools[call.pool];
      var q := Position(pool.market, call.user, call.outcome);
      LiquidatedFor(l, now, call);
      var proceeds := ProceedsOf(pool, Held(l, q), call.outcome);
      BpsBounds(proceeds, LIQUIDATION_BONUS_BPS);
      DistinctLists(l.vault, q);
      RecoverableLeaves(l.vault, q, Spread(proceeds));
      NoneCarried(l.vault, q, Held(l, q));
    }
  }

  lemma LiquidatedFor(l: Ledger, now: nat, call: Call)
    requires call.Liquidation? && Apply(l, now, call).Ok? && call.pool in l.amm.pools
    ensures var pool := l.amm.pools[call.pool];
            ProceedsOf(pool, Held(l, Position(pool.market, call.user, call.outcome)), call.outcome) > 0
  {
    hide QuoteSell, SplitFee, RequireLive, ForceSell, ShareProceeds, ExtractProceeds;
    PricedSale(l, now, call.liquidator, call.user, call.pool, call.outcome, false);
  }

  /** Every accepted redemption of the run meets the guard. */
  predicate RedemptionsKeep(l: Ledger, events: seq<Event>)
    decreases |events|
  {
    events != [] ==>
      && (events[0].call.Redemption? && Apply(l, events[0].now, events[0].call).Ok? ==> KeepsStake(l, events[0].call))
      && RedemptionsKeep(Step(l, events[0].now, events[0].call), events[1..])
  }

  lemma OneLenderKeeps(l: Ledger, now: nat, call: Call)
    requires Sturdy(l) && OneLender(l.vault) && Matched(l.vault) && Apply(l, now, call).Ok?
    requires !call.LegLiquidation? && !call.Redemption?
    ensures KeepsStake(l, call)
  {
    hide Sturdy, OneLender, Matched, Apply, Carries, SoundDebts, OwnLegs, LeftUsed, ProceedsOf, Recoverable, ClaimOf;
    SturdyParts(l);
    if call.Sale? {
      SaleKeeps(l, now, call);
    } else if call.Liquidation? && call.pool in l.amm.pools {
      OneLenderRecovers(l.vault, Position(l.amm.pools[call.pool].market, call.user, call.outcome));
      RecoverableKeeps(l, now, call);
    }
  }

  lemma {:induction false} RunRedemptions(l: Ledger, events: seq<Event>)
    requires Sturdy(l) && OneLender(l.vault) && Matched(l.vault)
    requires OneLenderRun(l, events) && NoLegLiquidation(events)
    ensures KeepsStakes(l, events) <==> RedemptionsKeep(l, events)
    decreases |events|
  {
    hide Apply, Lawful, OwnLegs, OneLender, Matched, OneDraw, KeepsStake;
    if events != [] {
      var now, call := events[0].now, events[0].call;
      StepSturdy(l, now, call);
      assert !events[0].call.LegLiquidation?;
      StepOneLender(l, now, call);
      if Apply(l, now, call).Ok? && !call.Redemption? {
        OneLenderKeeps(l, now, call);
      }
      assert forall i :: 0 <= i < |events[1..]| ==> events[1..][i] == events[i + 1];
      RunRedemptions(Step(l, now, call), events[1..]);
    }
  }

  /** With one lender per leg and no leg closed, redemptions alone decide: sales and liquidations keep the limit. */
  lemma RedemptionsDecide(events: seq<Event>)
    requires OneLenderRun(GENESIS, events) && NoLegLiquidation(events)
    ensures WithinThroughout(GENESIS, events) <==> RedemptionsKeep(GENESIS, events)
  {
    hide Run, OneLenderRun, Sturdy, OneLender, Matched, KeepsStakes, RedemptionsKeep, WithinThroughout;
    GenesisSturdy();
    EmptyOneLender();
    RunRedemptions(GENESIS, events);
    LimitThroughoutExactly(events);
  }

  // ---------------------------------------------------------------- runs in which nothing is forced or redeemed

  /** Trades, credit, repayments, liquidity, transfers, bonds, fees and administration. */
  predicate Voluntary(call: Call) {
    !call.Liquidation? && !call.LegLiquidation? && !call.Redemption? && !call.Refund?
  }

  predicate AllVoluntary(events: seq<Event>) {
    forall i :: 0 <= i < |events| ==> Voluntary(events[i].call)
  }

  /** From v to v' every position's debt and used credit move together. */
  ghost predicate MovesTogether(v: VaultState, v': VaultState) {
    Matched(v) ==> Matched(v')
  }

  lemma SameUse(v: VaultState, v': VaultState)
    requires v'.debts.used == v.debts.used && v'.debts.parentDebt == v.debts.parentDebt
    ensures MovesTogether(v, v')
  {
    forall q | Matched(v) ensures Used(v', q) == ParentDebt(v', q) {
      assert Used(v, q) == ParentDebt(v, q);
    }
  }

  lemma DrawTogether(v: VaultState, q: Position, c: nat, amount: int)
    ensures MovesTogether(v, RecordCredit(v, q, c, amount))
  {
    if Matched(v) {
      forall p ensures Used(RecordCredit(v, q, c, amount), p) == ParentDebt(RecordCredit(v, q, c, amount), p) {
        RecordCreditReads(v, q, c, amount, p, Leg(c, q.user));
        assert Used(v, p) == ParentDebt(v, p);
      }
    }
  }

  lemma SettleTogether(v: VaultState, leg: Leg, repayment: int)
    requires SoundDebts(v)
    ensures MovesTogether(v, SettleChildDebt(v, leg, repayment).0)
  {
    hide SettleChildDebt, SoundDebts;
    var v' := SettleChildDebt(v, leg, repayment).0;
    if Matched(v) {
      forall p ensures Used(v', p) == ParentDebt(v', p) {
        SettleReads(v, leg, repayment, p);
        assert Used(v, p) == ParentDebt(v, p);
      }
    }
  }

  lemma BuyTogether(v: VaultState, reg: RegistryState, trader: Address, m: nat, parent: Parent, trade: Trade,
                    split: FeeSplit)
    requires BuyVault(v, reg, trader, m, parent, trade, split).Ok?
    ensures MovesTogether(v, BuyVault(v, reg, trader, m, parent, trade, split).value)
  {
    hide RecordCredit, CreditAllowed, MovesTogether;
    var v' := BuyVault(v, reg, trader, m, parent, trade, split).value;
    match parent {
      case FromParent(p) =>
        var q := Position(p.market, trader, p.outcome);
        DrawTogether(v, q, m, trade.amountIn);
        SameUse(RecordCredit(v, q, m, trade.amountIn), v');
        TogetherTwice(v, RecordCredit(v, q, m, trade.amountIn), v');
      case NoParent => SameUse(v, v');
    }
  }

  lemma TogetherTwice(v: VaultState, v1: VaultState, v2: VaultState)
    requires MovesTogether(v, v1) && MovesTogether(v1, v2)
    ensures MovesTogether(v, v2)
  {
    hide Matched;
  }

  lemma RepaymentTogether(v: VaultState, reg: RegistryState, leg: Leg, amount: int)
    requires SoundDebts(v) && RepayChildCollateral(v, reg, leg, amount).Ok?
    ensures MovesTogether(v, RepayChildCollateral(v, reg, leg, amount).value.0)
  {
    hide SettleChildDebt, SoundDebts, MovesTogether;
    var v0 := Receive(v, amount);
    SameDebtsSound(v, v0);
    SameUse(v, v0);
    var v1 := SettleChildDebt(v0, leg, amount).0;
    SettleTogether(v0, leg, amount);
    SameUse(v1, RepayChildCollateral(v, reg, leg, amount).value.0);
    TogetherTwice(v, v0, v1);
    TogetherTwice(v, v1, RepayChildCollateral(v, reg, leg, amount).value.0);
  }

  lemma TradeTogether(l: Ledger, now: nat, call: Call)
    requires (call.Purchase? || call.Sale?) && ApplyTrade(l, now, call).Ok?
    ensures MovesTogether(l.vault, ApplyTrade(l, now, call).value.vault)
  {
    hide BuyVault, BuyTokens, SellTokens, RequireLive, PriceBuy, PriceSell, MovesTogether, SplitTradingFee, AfterBuy,
         AfterSell;
    match call
    case Purchase(trader, id, amountIn, _, _, yes, parent) =>
      var pool := l.amm.pools[id];
      var trade := PriceBuy(pool, amountIn, SideOf(yes)).value;
      BuyTogether(l.vault, l.reg, trader, pool.market, parent, trade, SplitTradingFee(trade.fee, pool.fee));
    case Sale(trader, id, amountIn, _, _, yes) =>
      SameUse(l.vault, ApplyTrade(l, now, call).value.vault);
  }

  lemma LiquidityTogether(l: Ledger, now: nat, call: Call)
    requires call.Creation? || call.Seeding? || call.Addition? || call.Removal? || call.FeeClaim?
    requires ApplyLiquidity(l, now, call).Ok?
    ensures MovesTogether(l.vault, ApplyLiquidity(l, now, call).value.vault)
  {
    hide MovesTogether, MintCompleteSet, RequireSeedable, RequireTradeable, RequireRemovable, SharesFor,
         Withdrawal, HandOut, FeesOwed, RegisterMarket, CreatePool, Transition;
    SameUse(l.vault, ApplyLiquidity(l, now, call).value.vault);
  }

  lemma VaultCallTogether(v: VaultState, reg: RegistryState, call: Call)
    requires call.Repayment? || call.BondLock? || call.BondUnlock? || call.FeeSweep?
    requires ApplyVault(v, reg, call).Ok? && SoundDebts(v)
    ensures MovesTogether(v, ApplyVault(v, reg, call).value)
  {
    hide SoundDebts, MovesTogether, RepayChildCollateral;
    match call
    case Repayment(user, m, amount) => RepaymentTogether(v, reg, Leg(m, user), amount);
    case BondLock(_, _, _) => SameUse(v, ApplyVault(v, reg, call).value);
    case BondUnlock(_, _, _) => SameUse(v, ApplyVault(v, reg, call).value);
    case FeeSweep(_) => SameUse(v, ApplyVault(v, reg, call).value);
  }

  lemma ApplyTogether(l: Ledger, now: nat, call: Call)
    requires Apply(l, now, call).Ok? && Voluntary(call) && SoundDebts(l.vault)
    ensures MovesTogether(l.vault, Apply(l, now, call).value.vault)
  {
    hide ApplyTrade, ApplyLiquidity, ApplyRedeem, ApplyVault, ApplyTokens, ApplyRegistry, SoundDebts, MovesTogether;
    match call
    case Purchase(_, _, _, _, _, _, _) => TradeTogether(l, now, call);
    case Sale(_, _, _, _, _, _) => TradeTogether(l, now, call);
    case Creation(_, _, _, _) => LiquidityTogether(l, now, call);
    case Seeding(_, _, _) => LiquidityTogether(l, now, call);
    case Addition(_, _, _) => LiquidityTogether(l, now, call);
    case Removal(_, _, _) => LiquidityTogether(l, now, call);
    case FeeClaim(_, _) => LiquidityTogether(l, now, call);
    case Repayment(_, _, _) => VaultCallTogether(l.vault, l.reg, call);
    case BondLock(_, _, _) => VaultCallTogether(l.vault, l.reg, call);
    case BondUnlock(_, _, _) => VaultCallTogether(l.vault, l.reg, call);
    case FeeSweep(_) => VaultCallTogether(l.vault, l.reg, call);
    case Transfer(_, _, _, _) => SameUse(l.vault, l.vault);
    case LosingBurn(_, _, _) => SameUse(l.vault, l.vault);
    case RegistryMove(_) => SameUse(l.vault, l.vault);
    case Pause(contract, paused) => SameUse(l.vault, ApplyPause(l, contract, paused).vault);
  }

  /** An accepted sale retires stake of a position that owes nothing, so none of its credit is in use. */
  lemma SaleKeeps(l: Ledger, now: nat, call: Call)
    requires Apply(l, now, call).Ok? && Voluntary(call) && Matched(l.vault) && SoundDebts(l.vault)
    ensures KeepsStake(l, call)
  {
    hide Matched, SoundDebts, Carries, ClaimOf, SellTokens, RequireLive, QuoteSell, SplitFee, SplitTradingFee,
         AfterSell, CollectFee, ExtractProceeds;
    if call.Sale? {
      var Sale(trader, id, amountIn, _, _, yes) := call;
      SoldFree(l, now, call);
      var q := Position(l.amm.pools[id].market, trader, SideOf(yes));
      MatchedAt(l.vault, q);
      SoundAtPosition(l.vault, q);
      NoneCarried(l.vault, q, amountIn);
    }
  }

  lemma SoldFree(l: Ledger, now: nat, call: Call)
    requires call.Sale? && Apply(l, now, call).Ok?
    ensures call.pool in l.amm.pools
    ensures ParentDebt(l.vault, Position(l.amm.pools[call.pool].market, call.trader, SideOf(call.yes))) <= 0
  {
    hide SellTokens, RequireLive, QuoteSell, SplitFee, SplitTradingFee, AfterSell, CollectFee, ExtractProceeds;
  }

  lemma NoneCarried(v: VaultState, q: Position, retired: int)
    ensures Carries(v, q, retired, 0)
  {
    LimitMonotone(0, SaturatingSub(Stake(v, q), retired));
  }

  lemma {:induction false} RunVoluntary(l: Ledger, events: seq<Event>)
    requires Sturdy(l) && Matched(l.vault) && AllVoluntary(events)
    ensures KeepsStakes(l, events) && Matched(Run(l, events).vault)
    decreases |events|
  {
    hide Apply, Sturdy, Matched, KeepsStake, SoundDebts, OwnLegs;
    if events != [] {
      var now, call := events[0].now, events[0].call;
      SturdyParts(l);
      StepSturdy(l, now, call);
      assert Voluntary(events[0].call);
      if Apply(l, now, call).Ok? {
        SaleKeeps(l, now, call);
        ApplyTogether(l, now, call);
      }
      assert forall i :: 0 <= i < |events[1..]| ==> events[1..][i] == events[i + 1];
      RunVoluntary(Step(l, now, call), events[1..]);
    }
  }

  lemma SturdyParts(l: Ledger)
    requires Sturdy(l)
    ensures SoundDebts(l.vault) && OwnLegs(l.vault)
  {
    hide Lawful, OwnLegs, SoundDebts;
    LawfulParts(l);
  }

  /** Over every run of deposits, trades, draws, repayments and sales, however legs were drawn: each position's debt
      equals its used credit and lies between zero and sixty per cent of its stake. */
  lemma CreditStaysWithinLimit(events: seq<Event>, q: Position)
    requires AllVoluntary(events)
    ensures var v := Run(GENESIS, events).vault;
            && 0 <= ParentDebt(v, q) == Used(v, q)
            && Used(v, q) * BPS_DENOMINATOR <= Stake(v, q) * CHILD_COLLATERAL_BPS
  {
    hide Run, Sturdy, Matched, KeepsStakes, WithinThroughout, SoundDebts, OwnLegs;
    GenesisSturdy();
    EmptyOneLender();
    RunVoluntary(GENESIS, events);
    LimitThroughoutExactly(events);
    RunSturdy(GENESIS, events);
    var v := Run(GENESIS, events).vault;
    SturdyParts(Run(GENESIS, events));
    SoundAtPosition(v, q);
    MatchedAt(v, q);
    assert WithinAt(v, q);
    BpsBounds(Stake(v, q), CHILD_COLLATERAL_BPS);
  }

  lemma MatchedAt(v: VaultState, q: Position)
    requires Matched(v)
    ensures Used(v, q) == ParentDebt(v, q)
  {
  }

  lemma EmptyWithin()
    ensures WithinLimit(EMPTY_VAULT)
  {
  }
}
