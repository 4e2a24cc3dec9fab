// Conservation of money in the vault: the books against the collateral held.

module VaultBooks {
  import opened Basics
  import opened DikeTypes
  import opened DikeMath
  import opened MapSums
  import opened MarketRegistry
  import opened TokenLedger
  import opened VaultLedger

  /** Everything a market's account says the vault holds. */
  function Buckets(a: Accounting): int {
    a.cash.refundable + a.fees.lp + a.fees.protocol + a.fees.cod + a.bonds.proposal + a.bonds.dispute
  }

  function WithheldOf(h: History): int {
    h.withheld
  }

  /** Money claimed by the books beyond the money held and the claims kept back from borrowers. */
  ghost function Custody(v: VaultState): int {
    SumBy(v.books.accounts, Buckets) + v.purse.reserve - v.purse.balance - SumBy(v.books.history, WithheldOf)
  }

  // ---------------------------------------------------------------- one write at a time

  lemma SetAccountCustody(v: VaultState, m: nat, a: Accounting)
    ensures Custody(SetAccount(v, m, a)) == Custody(v) + Buckets(a) - Buckets(AccountOf(v, m))
  {
    SumByUpdate(v.books.accounts, Buckets, m, a);
  }

  lemma SetHistoryCustody(v: VaultState, m: nat, h: History)
    ensures Custody(SetHistory(v, m, h)) == Custody(v) - h.withheld + HistoryOf(v, m).withheld
  {
    SumByUpdate(v.books.history, WithheldOf, m, h);
  }

  lemma ReceiveCustody(v: VaultState, amount: int)
    ensures Custody(Receive(v, amount)) == Custody(v) - amount
  {
  }

  lemma PayCustody(v: VaultState, amount: int)
    requires amount >= 0 && Pay(v, amount).Ok?
    ensures Custody(Pay(v, amount).value) == Custody(v) + amount
    ensures Pay(v, amount).value == Receive(v, -amount)
  {
  }

  // ---------------------------------------------------------------- trading

  lemma DepositCustody(v: VaultState, reg: RegistryState, m: nat, amount: int)
    requires Deposit(v, reg, m, amount).Ok?
    ensures Custody(Deposit(v, reg, m, amount).value) == Custody(v)
  {
    var a := AccountOf(v, m);
    ReceiveCustody(v, amount);
    SetAccountCustody(Receive(v, amount), m, a.Fund(amount));
  }

  lemma MoveBackingCustody(v: VaultState, parent: nat, child: nat, amount: int)
    ensures Custody(MoveBacking(v, parent, child, amount)) == Custody(v)
  {
    var v1 := SetAccount(v, parent, AccountOf(v, parent).Lent(amount));
    SetAccountCustody(v, parent, AccountOf(v, parent).Lent(amount));
    SetAccountCustody(v1, child, AccountOf(v1, child).Fund(amount));
  }

  lemma OpenCreditCustody(v: VaultState, reg: RegistryState, q: Position, c: nat, amount: int)
    requires OpenCredit(v, reg, q, c, amount).Ok?
    ensures Custody(OpenCredit(v, reg, q, c, amount).value) == Custody(v)
  {
    MoveBackingCustody(RecordCredit(v, q, c, amount), q.market, c, amount);
  }

  lemma ExtractProceedsCustody(v: VaultState, q: Position, tokensSold: int, proceeds: int)
    requires ExtractProceeds(v, q, tokensSold, proceeds).Ok?
    ensures Custody(ExtractProceeds(v, q, tokensSold, proceeds).value) == Custody(v) - proceeds
  {
    SetAccountCustody(Unstake(v, q, tokensSold), q.market, AccountOf(v, q.market).Fund(-proceeds));
  }

  lemma ReleaseTradePayoutCustody(v: VaultState, reg: RegistryState, q: Position, tokensSold: int, payout: int)
    requires ReleaseTradePayout(v, reg, q, tokensSold, payout).Ok?
    ensures Custody(ReleaseTradePayout(v, reg, q, tokensSold, payout).value) == Custody(v)
  {
    ExtractProceedsCustody(v, q, tokensSold, payout);
    PayCustody(ExtractProceeds(v, q, tokensSold, payout).value, payout);
  }

  lemma CollectFeeCustody(v: VaultState, m: nat, lp: int, protocol: int, cod: int)
    requires CollectFee(v, m, lp, protocol, cod).Ok?
    ensures Custody(CollectFee(v, m, lp, protocol, cod).value) == Custody(v)
  {
    SetAccountCustody(v, m, AccountOf(CollectFee(v, m, lp, protocol, cod).value, m));
  }

  lemma PayLpFeesCustody(v: VaultState, reg: RegistryState, m: nat, amount: int)
    requires PayLpFees(v, reg, m, amount).Ok?
    ensures Custody(PayLpFees(v, reg, m, amount).value) == Custody(v)
  {
    var a := AccountOf(v, m);
    SetAccountCustody(v, m, a.(fees := a.fees.(lp := a.fees.lp - amount)));
    PayCustody(SetAccount(v, m, a.(fees := a.fees.(lp := a.fees.lp - amount))), amount);
  }

  lemma SweepCustody(v: VaultState, reg: RegistryState, m: nat)
    requires SweepProtocolFees(v, reg, m).Ok?
    requires AccountOf(v, m).fees.protocol >= 0 && AccountOf(v, m).fees.cod >= 0
    ensures Custody(SweepProtocolFees(v, reg, m).value.0) == Custody(v)
  {
    var a := AccountOf(v, m);
    var amount := a.fees.protocol + a.fees.cod;
    SetAccountCustody(v, m, a.(fees := a.fees.(protocol := 0, cod := 0)));
    if amount > 0 {
      BpsBounds(amount, INSURANCE_RESERVE_BPS);
    }
  }

  lemma LockBondCustody(v: VaultState, reg: RegistryState, key: BondKey, m: nat, amount: int)
    requires LockBond(v, reg, key, m, amount).Ok?
    ensures Custody(LockBond(v, reg, key, m, amount).value) == Custody(v)
  {
    ReceiveCustody(v, amount);
    SetAccountCustody(SetBond(Receive(v, amount), key, Bond(amount, m)), m,
                      AddBonds(AccountOf(v, m), key.isDispute, amount));
  }

  lemma UnlockBondCustody(v: VaultState, key: BondKey, to: Address, amount: int)
    requires UnlockBond(v, key, to, amount).Ok?
    ensures Custody(UnlockBond(v, key, to, amount).value) == Custody(v)
  {
    var bond := v.escrow.bonds[key];
    DebitBondCustody(v, key, bond, amount);
    PayCustody(NotePaid(DebitBond(v, key, bond, amount), to, amount), amount);
  }

  lemma DebitBondCustody(v: VaultState, key: BondKey, bond: Bond, amount: int)
    ensures Custody(DebitBond(v, key, bond, amount)) == Custody(v) - amount
  {
    SetAccountCustody(SetBond(v, key, Bond(bond.amount - amount, bond.market)), bond.market,
                      AddBonds(AccountOf(v, bond.market), key.isDispute, -amount));
  }

  // ---------------------------------------------------------------- debt

  /** Every leg with a debt record knows its parent position. */
  ghost predicate LegsHaveParents(v: VaultState) {
    forall leg :: leg in v.debts.childDebt ==> leg in v.credit.lender
  }

  /** A repayment credits the parent's book; the money for it comes from elsewhere. */
  lemma RepayLenderCustody(v: VaultState, q: Position, amount: int)
    ensures Custody(RepayLender(v, q, amount)) == Custody(v) + amount
  {
    var a := AccountOf(v, q.market);
    var v1 := SetParentDebt(v, q, ParentDebt(v, q) - amount);
    SetAccountCustody(SetUsed(v1, q, SaturatingSub(Used(v, q), amount)), q.market,
                      a.RepaidBy(amount));
  }

  lemma SettleCustody(v: VaultState, leg: Leg, repayment: int)
    requires LegsHaveParents(v)
    ensures Custody(SettleChildDebt(v, leg, repayment).0) == Custody(v) + SettleChildDebt(v, leg, repayment).1
  {
    var applied := SettleChildDebt(v, leg, repayment).1;
    if applied != 0 {
      RepayLenderCustody(SetChildDebt(v, leg, ChildDebt(v, leg) - applied), Lender(v, leg), applied);
    }
  }

  /** Settling touches only debts and the parent's account, and never pays more than it is given. */
  lemma SettleFrame(v: VaultState, leg: Leg, repayment: int)
    requires LegsHaveParents(v)
    ensures var (v', applied) := SettleChildDebt(v, leg, repayment);
            LegsHaveParents(v') && v'.credit == v.credit && (repayment >= 0 ==> applied <= repayment)
  {
  }

  lemma RepayChildCollateralCustody(v: VaultState, reg: RegistryState, leg: Leg, amount: int)
    requires LegsHaveParents(v) && RepayChildCollateral(v, reg, leg, amount).Ok?
    ensures Custody(RepayChildCollateral(v, reg, leg, amount).value.0) == Custody(v)
  {
    var v0 := Receive(v, amount);
    ReceiveCustody(v, amount);
    SettleCustody(v0, leg, amount);
    SettleFrame(v0, leg, amount);
    var (v1, applied) := SettleChildDebt(v0, leg, amount);
    PayCustody(v1, amount - applied);
  }

  /** Insurance moves from the reserve to the parent's book. */
  lemma AbsorbDefaultCustody(v: VaultState, m: nat, total: int)
    requires total > 0
    ensures Custody(AbsorbDefault(v, m, total)) == Custody(v)
  {
    SetAccountCustody(v, m, AccountOf(v, m).Defaulted(total, Min(total, v.purse.reserve)));
  }

  lemma {:induction false} ClearChildrenFrame(v: VaultState, q: Position, list: seq<nat>, remaining: int)
    requires LegsHaveParents(v)
    ensures var v' := ClearChildren(v, q, list, remaining);
            v' == v.(debts := v'.debts) && v'.debts.parentDebt == v.debts.parentDebt && LegsHaveParents(v')
    decreases |list|
  {
    if list != [] && remaining != 0 {
      var leg := Leg(list[0], q.user);
      var owed := ChildDebt(v, leg);
      if owed == 0 {
        ClearChildrenFrame(v, q, list[1..], remaining);
      } else {
        var cleared := Min(owed, remaining);
        ClearChildrenFrame(ClearOne(v, q, leg, cleared), q, list[1..], remaining - cleared);
      }
    }
  }

  lemma DefaultFrame(v: VaultState, q: Position, total: int)
    requires LegsHaveParents(v)
    ensures LegsHaveParents(ResolveParentDefault(v, q, total))
    ensures ResolveParentDefault(v, q, total).credit == v.credit
  {
    if total > 0 {
      ClearChildrenFrame(SetParentDebt(AbsorbDefault(v, q.market, total), q, 0), q, ChildrenOf(v, q), total);
    }
  }

  lemma DefaultCustody(v: VaultState, q: Position, total: int)
    requires LegsHaveParents(v)
    ensures Custody(ResolveParentDefault(v, q, total)) == Custody(v)
  {
    if total > 0 {
      AbsorbDefaultCustody(v, q.market, total);
      ClearChildrenFrame(SetParentDebt(AbsorbDefault(v, q.market, total), q, 0), q, ChildrenOf(v, q), total);
    }
  }

  // ---------------------------------------------------------------- liquidation

  lemma {:induction false} SettleChildrenFrame(v: VaultState, user: Address, list: seq<nat>, pool: int)
    requires LegsHaveParents(v) && pool >= 0
    ensures var (v', repaid) := SettleChildren(v, user, list, pool);
            LegsHaveParents(v') && v'.credit == v.credit && repaid <= pool
    decreases |list|
  {
    hide SettleChildDebt;
    if list != [] && pool != 0 {
      var leg := Leg(list[0], user);
      SettleFrame(v, leg, pool);
      var (v1, applied) := SettleChildDebt(v, leg, pool);
      SettleChildrenFrame(v1, user, list[1..], pool - applied);
    }
  }

  lemma {:induction false} SettleChildrenCustody(v: VaultState, user: Address, list: seq<nat>, pool: int)
    requires LegsHaveParents(v) && pool >= 0
    ensures Custody(SettleChildren(v, user, list, pool).0) == Custody(v) + SettleChildren(v, user, list, pool).1
    decreases |list|
  {
    hide Custody, SettleChildDebt;
    if list != [] && pool != 0 {
      var leg := Leg(list[0], user);
      SettleCustody(v, leg, pool);
      SettleFrame(v, leg, pool);
      var (v1, applied) := SettleChildDebt(v, leg, pool);
      SettleChildrenCustody(v1, user, list[1..], pool - applied);
    }
  }

  /** A receipt that splits its proceeds without loss. */
  predicate Exact(r: Receipt) {
    r.proceeds == r.bonus + r.debtRepaid + r.remainder && r.bonus >= 0 && r.remainder >= 0
  }

  lemma PayOutCustody(routed: (VaultState, int), proceeds: int, bonus: int)
    requires 0 <= bonus && routed.1 <= proceeds - bonus && PayOut(routed, proceeds, bonus).Ok?
    ensures var (v', r) := PayOut(routed, proceeds, bonus).value;
            Custody(v') == Custody(routed.0) + proceeds - routed.1 && Exact(r) && r.proceeds == proceeds
  {
    PayCustody(routed.0, bonus);
    PayCustody(Pay(routed.0, bonus).value, proceeds - bonus - routed.1);
  }

  lemma RouteProceedsCustody(v: VaultState, q: Position, pool: int)
    requires LegsHaveParents(v) && pool >= 0
    ensures var (v', repaid) := RouteProceeds(v, q, pool);
            Custody(v') == Custody(v) + repaid && repaid <= pool
  {
    SettleChildrenCustody(v, q.user, ChildrenOf(v, q), pool);
    SettleChildrenFrame(v, q.user, ChildrenOf(v, q), pool);
    var v1 := SettleChildren(v, q.user, ChildrenOf(v, q), pool).0;
    DefaultCustody(v1, q, Used(v1, q));
  }

  /** Liquidation splits the proceeds into bonus, repaid debt and remainder without loss, whatever the
      child list, and no money leaves the books unpaid. */
  lemma LiquidateReleaseCustody(v: VaultState, reg: RegistryState, q: Position, tokensSold: int, proceeds: int)
    requires LegsHaveParents(v) && LiquidateRelease(v, reg, q, tokensSold, proceeds).Ok?
    ensures var (v', r) := LiquidateRelease(v, reg, q, tokensSold, proceeds).value;
            Custody(v') == Custody(v) && Exact(r) && r.proceeds == proceeds
  {
    hide ShareProceeds, Custody;
    var v1 := ExtractProceeds(v, q, tokensSold, proceeds).value;
    ExtractProceedsCustody(v, q, tokensSold, proceeds);
    BpsBounds(proceeds, LIQUIDATION_BONUS_BPS);
    ShareProceedsCustody(v1, q, proceeds, Bps(proceeds, LIQUIDATION_BONUS_BPS));
  }

  lemma ShareProceedsCustody(v: VaultState, q: Position, proceeds: int, bonus: int)
    requires LegsHaveParents(v) && 0 <= bonus <= proceeds && ShareProceeds(v, q, proceeds, bonus).Ok?
    ensures var (v', r) := ShareProceeds(v, q, proceeds, bonus).value;
            Custody(v') == Custody(v) + proceeds && Exact(r) && r.proceeds == proceeds
  {
    hide Custody, RouteProceeds, PayOut;
    RouteProceedsCustody(v, q, proceeds - bonus);
    PayOutCustody(RouteProceeds(v, q, proceeds - bonus), proceeds, bonus);
  }

  lemma DefaultLegCustody(v: VaultState, leg: Leg)
    requires LegsHaveParents(v)
    ensures Custody(DefaultLeg(v, leg)) == Custody(v)
  {
    if ChildDebt(v, leg) > 0 {
      DefaultCustody(v, Lender(v, leg), ChildDebt(v, leg));
    }
  }

  lemma CloseLegCustody(v: VaultState, leg: Leg, pool: int)
    requires LegsHaveParents(v) && pool >= 0
    ensures Custody(CloseLeg(v, leg, pool).0) == Custody(v) + CloseLeg(v, leg, pool).1
    ensures CloseLeg(v, leg, pool).1 <= pool
  {
    SettleCustody(v, leg, pool);
    SettleFrame(v, leg, pool);
    DefaultLegCustody(SettleChildDebt(v, leg, pool).0, leg);
  }

  lemma LiquidateChildReleaseCustody(v: VaultState, reg: RegistryState, q: Position, tokensSold: int, proceeds: int)
    requires LegsHaveParents(v) && LiquidateChildRelease(v, reg, q, tokensSold, proceeds).Ok?
    ensures var (v', r) := LiquidateChildRelease(v, reg, q, tokensSold, proceeds).value;
            Custody(v') == Custody(v) && Exact(r) && r.proceeds == proceeds
  {
    hide ShareLegProceeds, Custody;
    var v1 := ExtractProceeds(v, q, tokensSold, proceeds).value;
    ExtractProceedsCustody(v, q, tokensSold, proceeds);
    BpsBounds(proceeds, LIQUIDATION_BONUS_BPS);
    ShareLegProceedsCustody(v1, Leg(q.market, q.user), proceeds, Bps(proceeds, LIQUIDATION_BONUS_BPS));
  }

  lemma ShareLegProceedsCustody(v: VaultState, leg: Leg, proceeds: int, bonus: int)
    requires LegsHaveParents(v) && 0 <= bonus <= proceeds && ShareLegProceeds(v, leg, proceeds, bonus).Ok?
    ensures var (v', r) := ShareLegProceeds(v, leg, proceeds, bonus).value;
            Custody(v') == Custody(v) + proceeds && Exact(r) && r.proceeds == proceeds
  {
    hide Custody, CloseLeg, PayOut;
    CloseLegCustody(v, leg, proceeds - bonus);
    PayOutCustody(CloseLeg(v, leg, proceeds - bonus), proceeds, bonus);
  }

  // ---------------------------------------------------------------- redemption

  lemma DebitUpstreamCustody(v: VaultState, m: nat, paid: int)
    ensures Custody(DebitUpstream(v, m, paid)) == Custody(v) - paid
  {
    SetAccountCustody(v, m, AccountOf(v, m).Fund(-paid));
    NoteUpstreamCustody(SetAccount(v, m, AccountOf(v, m).Fund(-paid)), m, paid);
  }

  lemma NoteUpstreamCustody(v: VaultState, m: nat, paid: int)
    ensures Custody(NoteUpstream(v, m, paid)) == Custody(v)
  {
    var h := HistoryOf(v, m);
    SetHistoryCustody(v, m, h.(upstream := h.upstream + paid));
  }

  lemma NoteWithheldCustody(v: VaultState, m: nat, kept: int)
    ensures Custody(NoteWithheld(v, m, kept)) == Custody(v) - kept
  {
    var h := HistoryOf(v, m);
    SetHistoryCustody(v, m, h.(withheld := h.withheld + kept));
  }

  /** No debt record is negative. */
  ghost predicate DebtsNonNegative(v: VaultState) {
    && (forall leg :: leg in v.debts.childDebt ==> v.debts.childDebt[leg] >= 0)
    && (forall q :: q in v.debts.parentDebt ==> v.debts.parentDebt[q] >= 0)
  }

  lemma PayUpstreamCustody(v: VaultState, leg: Leg, claim: int)
    requires LegsHaveParents(v) && DebtsNonNegative(v)
    ensures Custody(PayUpstream(v, leg, claim).0) == Custody(v)
  {
    SettleCustody(v, leg, claim);
    var (v1, paid) := SettleChildDebt(v, leg, claim);
    assert paid >= 0;
    DebitUpstreamCustody(v1, leg.market, paid);
  }

  lemma WithholdCustody(v: VaultState, q: Position, claim: int)
    ensures Custody(Withhold(v, q, claim).0) == Custody(v)
  {
    var kept := Min(claim, ParentDebt(v, q));
    if ParentDebt(v, q) > 0 && kept > 0 {
      RepayLenderCustody(v, q, kept);
      NoteWithheldCustody(RepayLender(v, q, kept), q.market, kept);
    }
  }

  lemma DefaultIfWorthlessCustody(v: VaultState, q: Position, gross: int)
    requires LegsHaveParents(v)
    ensures Custody(DefaultIfWorthless(v, q, gross)) == Custody(v)
  {
    DefaultCustody(v, q, ParentDebt(v, q));
  }

  lemma PayUpstreamFrame(v: VaultState, leg: Leg, claim: int)
    requires LegsHaveParents(v)
    ensures LegsHaveParents(PayUpstream(v, leg, claim).0)
  {
    SettleFrame(v, leg, claim);
  }

  lemma WithholdFrame(v: VaultState, q: Position, claim: int)
    requires LegsHaveParents(v)
    ensures LegsHaveParents(Withhold(v, q, claim).0)
  {
  }

  lemma WithholdThenDefaultCustody(v: VaultState, q: Position, claim: int, gross: int)
    requires LegsHaveParents(v)
    ensures Custody(DefaultIfWorthless(Withhold(v, q, claim).0, q, gross)) == Custody(v)
  {
    WithholdCustody(v, q, claim);
    WithholdFrame(v, q, claim);
    DefaultIfWorthlessCustody(Withhold(v, q, claim).0, q, gross);
  }

  lemma PayClaimCustody(v: VaultState, m: nat, payout: int)
    requires PayClaim(v, m, payout).Ok?
    ensures Custody(PayClaim(v, m, payout).value) == Custody(v)
  {
    if payout > 0 {
      var a := AccountOf(v, m);
      SetAccountCustody(v, m, a.Redeem(payout));
      PayCustody(SetAccount(v, m, a.Redeem(payout)), payout);
    }
  }

  lemma NoteClaimCustody(v: VaultState, m: nat, gross: int, retired: int)
    ensures Custody(NoteClaim(v, m, gross, retired)) == Custody(v)
  {
    SetHistoryCustody(v, m, HistoryOf(v, m).Claimed(gross, retired));
  }

  lemma SetDustCustody(v: VaultState, m: nat, carry: int)
    ensures Custody(SetDust(v, m, carry)) == Custody(v)
  {
    SetAccountCustody(v, m, AccountOf(v, m).(dustCarry := carry));
  }

  lemma OpenClaimCustody(v: VaultState, m: nat, final: Outcome, redeemed: Outcome, amount: int)
    ensures Custody(OpenClaim(v, m, final, redeemed, amount).0) == Custody(v)
  {
    var (gross, carry) := Entitlement(final, redeemed, amount, AccountOf(v, m).dustCarry);
    SetDustCustody(v, m, carry);
    NoteClaimCustody(if final == Invalid then SetDust(v, m, carry) else v, m, gross, amount);
  }

  lemma OpenClaimFrame(v: VaultState, m: nat, final: Outcome, redeemed: Outcome, amount: int)
    ensures OpenClaim(v, m, final, redeemed, amount).0.debts == v.debts
    ensures OpenClaim(v, m, final, redeemed, amount).0.credit == v.credit
  {
  }

  lemma ClaimAfterDebtCustody(v: VaultState, q: Position, gross: int)
    requires LegsHaveParents(v) && DebtsNonNegative(v)
    ensures Custody(ClaimAfterDebt(v, q, gross).0) == Custody(v)
  {
    hide Custody, PayUpstream, Withhold, DefaultIfWorthless;
    var leg := Leg(q.market, q.user);
    PayUpstreamCustody(v, leg, gross);
    PayUpstreamFrame(v, leg, gross);
    var (v1, upstream) := PayUpstream(v, leg, gross);
    WithholdThenDefaultCustody(v1, q, gross - upstream, gross);
  }

  lemma SettleClaimCustody(v: VaultState, q: Position, gross: int)
    requires LegsHaveParents(v) && DebtsNonNegative(v) && SettleClaim(v, q, gross).Ok?
    ensures Custody(SettleClaim(v, q, gross).value.0) == Custody(v)
  {
    ClaimAfterDebtCustody(v, q, gross);
    var (v1, rest) := ClaimAfterDebt(v, q, gross);
    var v1' := RetireStake(v1, q, gross);
    assert Custody(v1') == Custody(v1);
    PayClaimCustody(v1', q.market, CappedPayout(AccountOf(v1, q.market), rest));
  }

  /** Redeeming keeps the books: what is paid out, paid upstream or kept back is accounted for. */
  lemma RedeemResolvedCustody(v: VaultState, reg: RegistryState, t: TokenState, q: Position, amount: int)
    requires LegsHaveParents(v) && DebtsNonNegative(v) && RedeemResolved(v, reg, t, q, amount).Ok?
    ensures Custody(RedeemResolved(v, reg, t, q, amount).value.0) == Custody(v)
  {
    var final := reg.markets[q.market].final;
    OpenClaimCustody(v, q.market, final, q.outcome, amount);
    OpenClaimFrame(v, q.market, final, q.outcome, amount);
    var (v1, gross) := OpenClaim(v, q.market, final, q.outcome, amount);
    SettleClaimCustody(v1, q, gross);
  }

  lemma SettleRefundCustody(v: VaultState, q: Position, gross: int)
    requires LegsHaveParents(v) && SettleRefund(v, q, gross).Ok?
    ensures Custody(SettleRefund(v, q, gross).value.0) == Custody(v)
  {
    WithholdThenDefaultCustody(v, q, gross, gross);
    var (v1, kept) := Withhold(v, q, gross);
    var v2 := DefaultIfWorthless(v1, q, gross);
    PayClaimCustody(v2, q.market, CappedPayout(AccountOf(v2, q.market), gross - kept));
  }

  lemma RedeemCancelledCustody(v: VaultState, reg: RegistryState, t: TokenState, q: Position, amount: int)
    requires LegsHaveParents(v) && RedeemCancelled(v, reg, t, q, amount).Ok?
    ensures Custody(RedeemCancelled(v, reg, t, q, amount).value.0) == Custody(v)
  {
    OpenClaimCustody(v, q.market, Invalid, q.outcome, amount);
    OpenClaimFrame(v, q.market, Invalid, q.outcome, amount);
    var (v1, gross) := OpenClaim(v, q.market, Invalid, q.outcome, amount);
    SettleRefundCustody(v1, q, gross);
  }
}
