// Conservation of claims in the vault: the complete sets each market's book answers for, and the cash
// behind them. Every lemma speaks about one market k, chosen by the caller.

module VaultClaims {
  import opened Basics
  import opened DikeTypes
  import opened DikeMath
  import opened MarketRegistry
  import opened TokenLedger
  import opened VaultLedger

  /** The complete sets a market's book answers for: cash backing, loans out, losses, and what went upstream. */
  ghost function ClaimSide(v: VaultState, k: nat): int {
    var a := AccountOf(v, k);
    a.cash.backing + LoansOut(a) + a.cash.shortfall + HistoryOf(v, k).upstream
  }

  /** Credit drawn against a market that nobody has repaid or lost yet. */
  function LoansOut(a: Accounting): int {
    a.loans.issued - a.loans.repaid - a.loans.defaulted
  }

  /** What is refundable beyond the backing that was not redeemed. */
  ghost function CashGap(v: VaultState, k: nat): int {
    var a := AccountOf(v, k);
    a.cash.refundable - a.cash.backing + a.cash.redeemed
  }

  /** From v to v', as market k sees it: it answers for `delta` more complete sets, no cash appears or
      vanishes, and losses are not taken back. */
  ghost predicate Answers(v: VaultState, v': VaultState, k: nat, delta: int) {
    && ClaimSide(v', k) == ClaimSide(v, k) + delta
    && CashGap(v', k) == CashGap(v, k)
    && AccountOf(v', k).cash.shortfall >= AccountOf(v, k).cash.shortfall
    && (v.purse.reserve >= 0 ==> v'.purse.reserve >= 0)
  }

  /** Nothing was redeemed. */
  ghost predicate SameTrail(v: VaultState, v': VaultState, k: nat) {
    && HistoryOf(v', k) == HistoryOf(v, k)
    && AccountOf(v', k).cash.redeemed == AccountOf(v, k).cash.redeemed
    && AccountOf(v', k).dustCarry == AccountOf(v, k).dustCarry
  }

  /** A step that moves neither fees nor redemptions. */
  ghost predicate Claims(v: VaultState, v': VaultState, k: nat, delta: int) {
    && Answers(v, v', k, delta)
    && SameTrail(v, v', k)
    && AccountOf(v', k).fees == AccountOf(v, k).fees
  }

  /** What was claimed and is neither paid in cash, nor paid upstream, nor kept back. */
  ghost function Unpaid(v: VaultState, k: nat): int {
    var h := HistoryOf(v, k);
    h.gross - h.upstream - h.withheld - AccountOf(v, k).cash.redeemed
  }

  /** Redemptions only grow, and these counters stay put. */
  ghost predicate Advances(v: VaultState, v': VaultState, k: nat) {
    var h, h' := HistoryOf(v, k), HistoryOf(v', k);
    && h'.upstream >= h.upstream && h'.withheld >= h.withheld
    && AccountOf(v', k).cash.redeemed >= AccountOf(v, k).cash.redeemed
    && h'.gross == h.gross && h'.retired == h.retired
    && AccountOf(v', k).dustCarry == AccountOf(v, k).dustCarry
  }

  /** A step that satisfies `x` of what was claimed against market k. */
  ghost predicate Satisfies(v: VaultState, v': VaultState, k: nat, x: int) {
    && Answers(v, v', k, 0)
    && AccountOf(v', k).fees == AccountOf(v, k).fees
    && Unpaid(v', k) == Unpaid(v, k) - x
    && Advances(v, v', k)
  }

  lemma DepositClaims(v: VaultState, reg: RegistryState, m: nat, amount: int, k: nat)
    requires Deposit(v, reg, m, amount).Ok?
    ensures Claims(v, Deposit(v, reg, m, amount).value, k, if k == m then amount else 0)
  {
  }

  /** A draw leaves the parent's claims where they were and gives the child new ones. */
  lemma OpenCreditClaims(v: VaultState, reg: RegistryState, q: Position, c: nat, amount: int, k: nat)
    requires OpenCredit(v, reg, q, c, amount).Ok?
    ensures Claims(v, OpenCredit(v, reg, q, c, amount).value, k, if k == c then amount else 0)
  {
    var v1 := RecordCredit(v, q, c, amount);
    assert Claims(v, v1, k, 0);
    MoveBackingClaims(v1, q.market, c, amount, k);
  }

  lemma MoveBackingClaims(v: VaultState, parent: nat, child: nat, amount: int, k: nat)
    ensures Claims(v, MoveBacking(v, parent, child, amount), k, if k == child then amount else 0)
  {
  }

  lemma ExtractProceedsClaims(v: VaultState, q: Position, tokensSold: int, proceeds: int, k: nat)
    requires ExtractProceeds(v, q, tokensSold, proceeds).Ok?
    ensures Claims(v, ExtractProceeds(v, q, tokensSold, proceeds).value, k, if k == q.market then -proceeds else 0)
  {
  }

  lemma PayClaims(v: VaultState, amount: int, k: nat)
    requires Pay(v, amount).Ok?
    ensures Claims(v, Pay(v, amount).value, k, 0)
  {
  }

  lemma ReleaseTradePayoutClaims(v: VaultState, reg: RegistryState, q: Position, tokensSold: int, payout: int, k: nat)
    requires ReleaseTradePayout(v, reg, q, tokensSold, payout).Ok?
    ensures Claims(v, ReleaseTradePayout(v, reg, q, tokensSold, payout).value, k,
                   if k == q.market then -payout else 0)
  {
    ExtractProceedsClaims(v, q, tokensSold, payout, k);
    PayClaims(ExtractProceeds(v, q, tokensSold, payout).value, payout, k);
  }

  lemma CollectFeeClaims(v: VaultState, m: nat, lp: int, protocol: int, cod: int, k: nat)
    requires CollectFee(v, m, lp, protocol, cod).Ok?
    ensures var v' := CollectFee(v, m, lp, protocol, cod).value;
            var fees := AccountOf(v, k).fees;
            && Answers(v, v', k, if k == m then -(lp + protocol + cod) else 0)
            && SameTrail(v, v', k)
            && AccountOf(v', k).fees == if k == m then Fees(fees.lp + lp, fees.protocol + protocol, fees.cod + cod)
                                        else fees
  {
  }

  lemma PayLpFeesClaims(v: VaultState, reg: RegistryState, m: nat, amount: int, k: nat)
    requires PayLpFees(v, reg, m, amount).Ok?
    ensures var v' := PayLpFees(v, reg, m, amount).value;
            var fees := AccountOf(v, k).fees;
            && Answers(v, v', k, 0)
            && SameTrail(v, v', k)
            && AccountOf(v', k).fees == if k == m then Fees(fees.lp - amount, fees.protocol, fees.cod) else fees
  {
  }

  lemma SweepClaims(v: VaultState, reg: RegistryState, m: nat, k: nat)
    requires SweepProtocolFees(v, reg, m).Ok?
    requires AccountOf(v, m).fees.protocol >= 0 && AccountOf(v, m).fees.cod >= 0
    ensures var v' := SweepProtocolFees(v, reg, m).value.0;
            var fees := AccountOf(v, k).fees;
            && Answers(v, v', k, 0)
            && SameTrail(v, v', k)
            && AccountOf(v', k).fees == if k == m then Fees(fees.lp, 0, 0) else fees
  {
    var amount := AccountOf(v, m).fees.protocol + AccountOf(v, m).fees.cod;
    if amount > 0 {
      BpsBounds(amount, INSURANCE_RESERVE_BPS);
    }
  }

  lemma LockBondClaims(v: VaultState, reg: RegistryState, key: BondKey, m: nat, amount: int, k: nat)
    requires LockBond(v, reg, key, m, amount).Ok?
    ensures Claims(v, LockBond(v, reg, key, m, amount).value, k, 0)
  {
  }

  lemma UnlockBondClaims(v: VaultState, key: BondKey, to: Address, amount: int, k: nat)
    requires UnlockBond(v, key, to, amount).Ok?
    ensures Claims(v, UnlockBond(v, key, to, amount).value, k, 0)
  {
    var bond := v.escrow.bonds[key];
    PayClaims(NotePaid(DebitBond(v, key, bond, amount), to, amount), amount, k);
  }

  // ---------------------------------------------------------------- debt

  /** Repaying turns a loan back into backing: the claims stay. */
  lemma RepayLenderClaims(v: VaultState, q: Position, amount: int, k: nat)
    ensures Claims(v, RepayLender(v, q, amount), k, 0)
  {
  }

  lemma SettleClaims(v: VaultState, leg: Leg, repayment: int, k: nat)
    ensures Claims(v, SettleChildDebt(v, leg, repayment).0, k, 0)
  {
    var applied := SettleChildDebt(v, leg, repayment).1;
    if HasParent(v, leg) {
      RepayLenderClaims(SetChildDebt(v, leg, ChildDebt(v, leg) - applied), Lender(v, leg), applied, k);
    }
  }

  lemma RepayChildCollateralClaims(v: VaultState, reg: RegistryState, leg: Leg, amount: int, k: nat)
    requires RepayChildCollateral(v, reg, leg, amount).Ok?
    ensures Claims(v, RepayChildCollateral(v, reg, leg, amount).value.0, k, 0)
  {
    var v0 := Receive(v, amount);
    assert Claims(v, v0, k, 0);
    SettleClaims(v0, leg, amount, k);
    var (v1, applied) := SettleChildDebt(v0, leg, amount);
    PayClaims(v1, amount - applied, k);
  }

  /** Insurance and shortfall together replace exactly the loan that was lost. */
  lemma AbsorbDefaultClaims(v: VaultState, m: nat, total: int, k: nat)
    ensures Claims(v, AbsorbDefault(v, m, total), k, 0)
  {
  }

  lemma {:induction false} ClearChildrenBooks(v: VaultState, q: Position, list: seq<nat>, remaining: int)
    ensures ClearChildren(v, q, list, remaining).books == v.books
    ensures ClearChildren(v, q, list, remaining).purse == v.purse
    decreases |list|
  {
    if list != [] && remaining != 0 {
      var leg := Leg(list[0], q.user);
      var owed := ChildDebt(v, leg);
      if owed == 0 {
        ClearChildrenBooks(v, q, list[1..], remaining);
      } else {
        var cleared := Min(owed, remaining);
        ClearChildrenBooks(ClearOne(v, q, leg, cleared), q, list[1..], remaining - cleared);
      }
    }
  }

  lemma DefaultClaims(v: VaultState, q: Position, total: int, k: nat)
    ensures Claims(v, ResolveParentDefault(v, q, total), k, 0)
  {
    if total > 0 {
      AbsorbDefaultClaims(v, q.market, total, k);
      ClearChildrenBooks(SetParentDebt(AbsorbDefault(v, q.market, total), q, 0), q, ChildrenOf(v, q), total);
    }
  }

  lemma {:induction false} SettleChildrenClaims(v: VaultState, user: Address, list: seq<nat>, pool: int, k: nat)
    ensures Claims(v, SettleChildren(v, user, list, pool).0, k, 0)
    decreases |list|
  {
    hide SettleChildDebt;
    if list != [] && pool != 0 {
      SettleClaims(v, Leg(list[0], user), pool, k);
      var (v1, applied) := SettleChildDebt(v, Leg(list[0], user), pool);
      SettleChildrenClaims(v1, user, list[1..], pool - applied, k);
    }
  }

  lemma PayOutClaims(routed: (VaultState, int), proceeds: int, bonus: int, k: nat)
    requires PayOut(routed, proceeds, bonus).Ok?
    ensures Claims(routed.0, PayOut(routed, proceeds, bonus).value.0, k, 0)
  {
    PayClaims(routed.0, bonus, k);
    PayClaims(Pay(routed.0, bonus).value, proceeds - bonus - routed.1, k);
  }

  lemma RouteProceedsClaims(v: VaultState, q: Position, pool: int, k: nat)
    ensures Claims(v, RouteProceeds(v, q, pool).0, k, 0)
  {
    SettleChildrenClaims(v, q.user, ChildrenOf(v, q), pool, k);
    var v1 := SettleChildren(v, q.user, ChildrenOf(v, q), pool).0;
    DefaultClaims(v1, q, Used(v1, q), k);
  }

  lemma LiquidateReleaseClaims(v: VaultState, reg: RegistryState, q: Position, tokensSold: int, proceeds: int, k: nat)
    requires LiquidateRelease(v, reg, q, tokensSold, proceeds).Ok?
    ensures Claims(v, LiquidateRelease(v, reg, q, tokensSold, proceeds).value.0, k,
                   if k == q.market then -proceeds else 0)
  {
    hide ShareProceeds;
    var v1 := ExtractProceeds(v, q, tokensSold, proceeds).value;
    ExtractProceedsClaims(v, q, tokensSold, proceeds, k);
    ShareProceedsClaims(v1, q, proceeds, Bps(proceeds, LIQUIDATION_BONUS_BPS), k);
  }

  lemma ShareProceedsClaims(v: VaultState, q: Position, proceeds: int, bonus: int, k: nat)
    requires ShareProceeds(v, q, proceeds, bonus).Ok?
    ensures Claims(v, ShareProceeds(v, q, proceeds, bonus).value.0, k, 0)
  {
    hide RouteProceeds, PayOut;
    RouteProceedsClaims(v, q, proceeds - bonus, k);
    PayOutClaims(RouteProceeds(v, q, proceeds - bonus), proceeds, bonus, k);
  }

  lemma CloseLegClaims(v: VaultState, leg: Leg, pool: int, k: nat)
    ensures Claims(v, CloseLeg(v, leg, pool).0, k, 0)
  {
    SettleClaims(v, leg, pool, k);
    var v1 := SettleChildDebt(v, leg, pool).0;
    if HasParent(v1, leg) {
      DefaultClaims(v1, Lender(v1, leg), ChildDebt(v1, leg), k);
    }
  }

  lemma LiquidateChildReleaseClaims(
    v: VaultState, reg: RegistryState, q: Position, tokensSold: int, proceeds: int, k: nat)
    requires LiquidateChildRelease(v, reg, q, tokensSold, proceeds).Ok?
    ensures Claims(v, LiquidateChildRelease(v, reg, q, tokensSold, proceeds).value.0, k,
                   if k == q.market then -proceeds else 0)
  {
    hide ShareLegProceeds;
    var v1 := ExtractProceeds(v, q, tokensSold, proceeds).value;
    ExtractProceedsClaims(v, q, tokensSold, proceeds, k);
    ShareLegProceedsClaims(v1, Leg(q.market, q.user), proceeds, Bps(proceeds, LIQUIDATION_BONUS_BPS), k);
  }

  lemma ShareLegProceedsClaims(v: VaultState, leg: Leg, proceeds: int, bonus: int, k: nat)
    requires ShareLegProceeds(v, leg, proceeds, bonus).Ok?
    ensures Claims(v, ShareLegProceeds(v, leg, proceeds, bonus).value.0, k, 0)
  {
    hide CloseLeg, PayOut;
    CloseLegClaims(v, leg, proceeds - bonus, k);
    PayOutClaims(CloseLeg(v, leg, proceeds - bonus), proceeds, bonus, k);
  }

  // ---------------------------------------------------------------- redemption

  /** A step that satisfies at most `bound` of what was claimed against market k. */
  ghost predicate SatisfiesWithin(v: VaultState, v': VaultState, k: nat, bound: int) {
    && Answers(v, v', k, 0)
    && AccountOf(v', k).fees == AccountOf(v, k).fees
    && Unpaid(v', k) >= Unpaid(v, k) - bound
    && Advances(v, v', k)
  }

  lemma PayUpstreamClaims(v: VaultState, leg: Leg, claim: int, k: nat)
    ensures var (v', paid) := PayUpstream(v, leg, claim);
            paid >= 0 ==> Satisfies(v, v', k, if k == leg.market then paid else 0)
  {
    SettleClaims(v, leg, claim, k);
    var (v1, paid) := SettleChildDebt(v, leg, claim);
    if paid > 0 {
      DebitUpstreamClaims(v1, leg.market, paid, k);
    }
  }

  lemma DebitUpstreamClaims(v: VaultState, m: nat, paid: int, k: nat)
    requires paid >= 0
    ensures Satisfies(v, DebitUpstream(v, m, paid), k, if k == m then paid else 0)
  {
  }

  lemma WithholdClaims(v: VaultState, q: Position, claim: int, k: nat)
    requires claim >= 0 && ParentDebt(v, q) >= 0
    ensures var (v', kept) := Withhold(v, q, claim);
            0 <= kept <= claim && Satisfies(v, v', k, if k == q.market then kept else 0)
  {
    var kept := Min(claim, ParentDebt(v, q));
    RepayLenderClaims(v, q, kept, k);
    NoteWithheldClaims(RepayLender(v, q, kept), q.market, kept, k);
  }

  lemma NoteWithheldClaims(v: VaultState, m: nat, kept: int, k: nat)
    requires kept >= 0
    ensures Satisfies(v, NoteWithheld(v, m, kept), k, if k == m then kept else 0)
  {
  }

  lemma PayClaimClaims(v: VaultState, m: nat, payout: int, k: nat)
    requires payout >= 0 && PayClaim(v, m, payout).Ok?
    ensures Satisfies(v, PayClaim(v, m, payout).value, k, if k == m then payout else 0)
  {
  }

  /** Opening a claim fixes its worth: one per winning token, or half with the odd unit carried over. */
  lemma OpenClaimClaims(v: VaultState, m: nat, final: Outcome, redeemed: Outcome, amount: int, k: nat)
    ensures var (v', gross) := OpenClaim(v, m, final, redeemed, amount);
            var carry := AccountOf(v, m).dustCarry;
            && Answers(v, v', k, 0)
            && AccountOf(v', k).fees == AccountOf(v, k).fees
            && AccountOf(v', k).cash.redeemed == AccountOf(v, k).cash.redeemed
            && HistoryOf(v', k) == (if k == m then HistoryOf(v, k).Claimed(gross, amount) else HistoryOf(v, k))
            && AccountOf(v', k).dustCarry == (if k == m then Entitlement(final, redeemed, amount, carry).1
                                              else AccountOf(v, k).dustCarry)
            && gross == Entitlement(final, redeemed, amount, carry).0
  {
  }

  /** A claim is never worth less than what is paid for it. */
  lemma PayoutWithinClaim(a: Accounting, claim: int)
    requires a.cash.shortfall >= 0 && claim >= 0
    ensures 0 <= CappedPayout(a, claim) <= claim
  {
    var b, t := a.cash.backing, a.cash.backing + a.cash.shortfall;
    if claim > 0 && b > 0 && a.cash.shortfall > 0 {
      ProductMonotone(claim, b, t);
      FloorBounds(claim * b, t);
      QuotientAtMost(claim * b, t, claim);
    }
  }

  lemma DefaultIfWorthlessClaims(v: VaultState, q: Position, gross: int, k: nat)
    ensures Claims(v, DefaultIfWorthless(v, q, gross), k, 0)
  {
    DefaultClaims(v, q, ParentDebt(v, q), k);
  }

  /** Two payments on a claim and a default satisfy the sum of the payments. */
  lemma ChainClaims(v: VaultState, v1: VaultState, v2: VaultState, v3: VaultState, k: nat, x: int, y: int)
    requires Satisfies(v, v1, k, x) && Satisfies(v1, v2, k, y) && Claims(v2, v3, k, 0)
    ensures Satisfies(v, v3, k, x + y)
  {
  }

  /** The debts of a redeemer satisfy part of the claim; the rest is what is left to pay. */
  lemma ClaimAfterDebtClaims(v: VaultState, q: Position, gross: int, k: nat)
    requires SoundAt(v, q) && gross >= 0
    ensures var (v', rest) := ClaimAfterDebt(v, q, gross);
            0 <= rest <= gross && Satisfies(v, v', k, if k == q.market then gross - rest else 0)
  {
    var leg := Leg(q.market, q.user);
    PayUpstreamClaims(v, leg, gross, k);
    PayUpstreamBounds(v, q, gross);
    var (v1, upstream) := PayUpstream(v, leg, gross);
    RestOfClaim(v, v1, q, gross, upstream, k);
  }

  lemma RestOfClaim(v: VaultState, v1: VaultState, q: Position, gross: int, upstream: int, k: nat)
    requires 0 <= upstream <= gross && ParentDebt(v1, q) >= 0
    requires Satisfies(v, v1, k, if k == q.market then upstream else 0)
    ensures var (v', rest) := ClaimAfterUpstream(v1, q, gross, upstream);
            0 <= rest <= gross && Satisfies(v, v', k, if k == q.market then gross - rest else 0)
  {
    WithholdClaims(v1, q, gross - upstream, k);
    var (v2, kept) := Withhold(v1, q, gross - upstream);
    DefaultIfWorthlessClaims(v2, q, gross, k);
    var mine := k == q.market;
    ChainClaims(v, v1, v2, DefaultIfWorthless(v2, q, gross), k, if mine then upstream else 0, if mine then kept else 0);
  }

  /** The debts a redemption reads are not negative. */
  ghost predicate SoundAt(v: VaultState, q: Position) {
    && (forall p :: ParentDebt(v, p) >= 0)
    && ChildDebt(v, Leg(q.market, q.user)) >= 0
  }

  lemma PayUpstreamBounds(v: VaultState, q: Position, gross: int)
    requires SoundAt(v, q) && gross >= 0
    ensures var (v', paid) := PayUpstream(v, Leg(q.market, q.user), gross);
            0 <= paid <= gross && ParentDebt(v', q) >= 0
  {
    var leg := Leg(q.market, q.user);
    assert ParentDebt(v, q) >= 0;
    assert HasParent(v, leg) ==> ParentDebt(v, Lender(v, leg)) >= 0;
    var v1 := SettleChildDebt(v, leg, gross).0;
    assert ParentDebt(v1, q) >= 0;
  }

  lemma RetireStakeClaims(v: VaultState, q: Position, gross: int, k: nat)
    ensures Satisfies(v, RetireStake(v, q, gross), k, 0)
  {
  }

  /** Redeeming pays out at most what is claimed. */
  lemma SettleClaimClaims(v: VaultState, q: Position, gross: int, k: nat)
    requires SoundAt(v, q) && gross >= 0 && SettleClaim(v, q, gross).Ok?
    requires AccountOf(v, q.market).cash.shortfall >= 0
    ensures SatisfiesWithin(v, SettleClaim(v, q, gross).value.0, k, if k == q.market then gross else 0)
  {
    ClaimAfterDebtClaims(v, q, gross, k);
    ClaimAfterDebtClaims(v, q, gross, q.market);
    var (v1, rest) := ClaimAfterDebt(v, q, gross);
    var v1' := RetireStake(v1, q, gross);
    RetireStakeClaims(v1, q, gross, k);
    var payout := CappedPayout(AccountOf(v1, q.market), rest);
    PayoutWithinClaim(AccountOf(v1, q.market), rest);
    PayClaimClaims(v1', q.market, payout, k);
  }

  lemma SettleRefundClaims(v: VaultState, q: Position, gross: int, k: nat)
    requires SoundAt(v, q) && gross >= 0 && SettleRefund(v, q, gross).Ok?
    requires AccountOf(v, q.market).cash.shortfall >= 0
    ensures SatisfiesWithin(v, SettleRefund(v, q, gross).value.0, k, if k == q.market then gross else 0)
  {
    WithholdClaims(v, q, gross, k);
    WithholdClaims(v, q, gross, q.market);
    var (v1, kept) := Withhold(v, q, gross);
    DefaultIfWorthlessClaims(v1, q, gross, k);
    DefaultIfWorthlessClaims(v1, q, gross, q.market);
    var v2 := DefaultIfWorthless(v1, q, gross);
    var payout := CappedPayout(AccountOf(v2, q.market), gross - kept);
    PayoutWithinClaim(AccountOf(v2, q.market), gross - kept);
    PayClaimClaims(v2, q.market, payout, k);
  }
}
