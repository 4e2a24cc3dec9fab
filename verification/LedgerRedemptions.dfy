// Redemptions from end to end, over every run: what the tokens are worth, what the redeemer's debts take of it, what is
// paid, and what every record says afterwards.

module LedgerRedemptions {
  import opened Basics
  import opened DikeTypes
  import opened DikeMath
  import opened MarketRegistry
  import opened TokenLedger
  import opened VaultLedger
  import opened VaultClaims
  import opened VaultDebts
  import opened VaultTerms
  import opened VaultWaterfall
  import opened AmmPools
  import opened LedgerCalls
  import opened LedgerMoney
  import opened LedgerCustody
  import opened LedgerLaws
  import opened LedgerParties
  import opened LedgerCover
  import opened LedgerPayable

  /** How a claim worth something is used up: the leg's debt first, then the position's, and the rest is due in cash. */
  datatype Uses = Uses(up: int, kept: int, rest: int)

  function UsesOf(v: VaultState, q: Position, worth: int, upstream: bool): Uses {
    var up := if upstream then Min(worth, Payable(v, Leg(q.market, q.user))) else 0;
    var kept := Min(worth - up, ParentDebt(v, q));
    Uses(up, kept, worth - up - kept)
  }

  /** Debts and used credit: the leg and its lender fall by what went upstream, the position by what was kept. */
  ghost predicate DebtsSettled(v: VaultState, v': VaultState, q: Position, u: Uses) {
    var leg := Leg(q.market, q.user);
    && (forall other :: other != leg ==> ChildDebt(v', other) == ChildDebt(v, other))
    && (u.up > 0 ==> ChildDebt(v', leg) == ChildDebt(v, leg) - u.up)
    && (forall p :: ParentDebt(v', p) ==
          ParentDebt(v, p) - (if LendsTo(v, p, leg) then u.up else 0) - (if p == q then u.kept else 0))
    && (forall p :: Used(v', p) ==
          Used(v, p) - (if LendsTo(v, p, leg) then u.up else 0) - (if p == q then u.kept else 0))
  }

  /** The book of the redeemed market, and the collateral held. */
  predicate CashSettled(v: VaultState, v': VaultState, m: nat, u: Uses, payout: int) {
    var (a, a') := (AccountOf(v, m).cash, AccountOf(v', m).cash);
    && a'.backing == a.backing - u.up + u.kept && a'.shortfall == a.shortfall
    && a'.redeemed == a.redeemed + payout && a'.refundable == a.refundable - u.up + u.kept - payout
    && v'.purse == v.purse.(balance := v.purse.balance - payout)
    && payout == CappedPayout(AccountOf(v, m).Fund(u.kept - u.up), u.rest) >= 0
  }

  lemma PayoutNonNegative(a: Accounting, claim: int)
    requires a.cash.shortfall >= 0
    ensures CappedPayout(a, claim) >= 0
  {
    if claim > 0 && a.cash.backing > 0 && a.cash.shortfall != 0 {
      ProductNonNegative(claim, a.cash.backing);
      FloorBounds(claim * a.cash.backing, a.cash.backing + a.cash.shortfall);
    }
  }

  // ---------------------------------------------------------------- the vault's side

  lemma Unstaked(v: VaultState, q: Position, worth: int)
    requires worth > 0
    ensures var v' := RetireStake(v, q, worth);
            && v'.books == v.books && v'.purse == v.purse && v'.debts == v.debts
            && (forall p :: Stake(v', p) == if p == q then SaturatingSub(Stake(v, p), worth) else Stake(v, p))
  {
  }

  lemma PaidCash(v: VaultState, m: nat, payout: int)
    requires payout >= 0 && PayClaim(v, m, payout).Ok?
    ensures var v' := PayClaim(v, m, payout).value;
            var (a, a') := (AccountOf(v, m).cash, AccountOf(v', m).cash);
            && v'.debts == v.debts && v'.credit == v.credit
            && a' == a.(redeemed := a.redeemed + payout, refundable := a.refundable - payout)
            && v'.purse == v.purse.(balance := v.purse.balance - payout)
  {
  }

  lemma SameCapped(a: Accounting, b: Accounting, claim: int)
    requires a.cash == b.cash
    ensures CappedPayout(a, claim) == CappedPayout(b, claim)
  {
  }

  /** A claim worth something before cash is paid: the debts are settled in turn, and the book moves by their parts. */
  lemma ClaimAfterDebtTerms(v: VaultState, q: Position, worth: int)
    requires SoundDebts(v) && OwnLegs(v) && worth > 0
    ensures var (v2, rest) := ClaimAfterDebt(v, q, worth);
            var u := UsesOf(v, q, worth, true);
            var (a, a2) := (AccountOf(v, q.market).cash, AccountOf(v2, q.market).cash);
            && rest == u.rest && DebtsSettled(v, v2, q, u) && v2.credit == v.credit && v2.purse == v.purse
            && a2 == a.(backing := a.backing - u.up + u.kept, refundable := a.refundable - u.up + u.kept)
  {
    hide SoundDebts, OwnLegs, PayUpstream, Withhold, SettleChildDebt, DefaultIfWorthless, DebtsSettled;
    var leg := Leg(q.market, q.user);
    Elsewhere(v, leg);
    UpstreamTerms(v, leg, worth);
    SettleTerms(v, leg, worth);
    var (v1, up) := PayUpstream(v, leg, worth);
    UpstreamSound(v, q, worth);
    NotLent(v, q, leg);
    var s := SettleChildDebt(v, leg, worth).0;
    assert ParentDebt(v1, q) == ParentDebt(s, q) == ParentDebt(v, q);
    WithholdTerms(v1, q, worth - up);
    var v2 := Withhold(v1, q, worth - up).0;
    WorthlessTerms(v2, q, worth);
    DebtsInTurn(v, s, v1, v2, q, UsesOf(v, q, worth, true));
  }

  /** A claim worth something: all debts and the stake settle by their part, and the rest is paid in cash. */
  lemma ClaimTerms(v: VaultState, q: Position, worth: int)
    requires SoundDebts(v) && OwnLegs(v) && worth > 0 && AccountOf(v, q.market).cash.shortfall >= 0
    requires SettleClaim(v, q, worth).Ok?
    ensures var (v', payout) := SettleClaim(v, q, worth).value;
            var u := UsesOf(v, q, worth, true);
            && DebtsSettled(v, v', q, u) && CashSettled(v, v', q.market, u, payout)
            && (forall p :: Stake(v', p) == if p == q then SaturatingSub(Stake(v, p), worth) else Stake(v, p))
  {
    hide SoundDebts, OwnLegs, ClaimAfterDebt, CappedPayout, PayClaim, RetireStake, DebtsSettled, UsesOf;
    ClaimAfterDebtTerms(v, q, worth);
    var (v2, rest) := ClaimAfterDebt(v, q, worth);
    var u := UsesOf(v, q, worth, true);
    var book := AccountOf(v, q.market).Fund(u.kept - u.up);
    SameCapped(AccountOf(v2, q.market), book, rest);
    PayoutNonNegative(book, rest);
    Unstaked(v2, q, worth);
    PaidCash(RetireStake(v2, q, worth), q.market, CappedPayout(AccountOf(v2, q.market), rest));
    var v' := SettleClaim(v, q, worth).value.0;
    SameDebtsSettled(v, v2, v', q, u);
    forall p ensures Stake(v', p) == if p == q then SaturatingSub(Stake(v, p), worth) else Stake(v, p) {
      assert Stake(v2, p) == Stake(v, p) && Stake(v', p) == Stake(RetireStake(v2, q, worth), p);
    }
  }

  /** First the leg and its lender, then the position. */
  lemma DebtsInTurn(v: VaultState, s: VaultState, v1: VaultState, v2: VaultState, q: Position, u: Uses)
    requires v1.debts == s.debts && v2.debts.childDebt == v1.debts.childDebt
    requires var leg := Leg(q.market, q.user);
             && (forall other :: other != leg ==> ChildDebt(s, other) == ChildDebt(v, other))
             && (u.up > 0 ==> ChildDebt(s, leg) == ChildDebt(v, leg) - u.up)
             && (forall p :: ParentDebt(s, p) == ParentDebt(v, p) - (if LendsTo(v, p, leg) then u.up else 0))
             && (forall p :: Used(s, p) == Used(v, p) - (if LendsTo(v, p, leg) then u.up else 0))
    requires forall p :: ParentDebt(v2, p) == ParentDebt(v1, p) - (if p == q then u.kept else 0)
    requires forall p :: Used(v2, p) == Used(v1, p) - (if p == q then u.kept else 0)
    ensures DebtsSettled(v, v2, q, u)
  {
    forall p ensures ParentDebt(v1, p) == ParentDebt(s, p) && Used(v1, p) == Used(s, p) {
    }
    forall leg ensures ChildDebt(v2, leg) == ChildDebt(s, leg) {
    }
  }

  lemma SameDebtsSettled(v: VaultState, v2: VaultState, v': VaultState, q: Position, u: Uses)
    requires DebtsSettled(v, v2, q, u) && v'.debts == v2.debts
    ensures DebtsSettled(v, v', q, u)
  {
    forall p ensures ParentDebt(v', p) == ParentDebt(v2, p) && Used(v', p) == Used(v2, p) {
    }
    forall leg ensures ChildDebt(v', leg) == ChildDebt(v2, leg) {
    }
  }

  lemma Elsewhere(v: VaultState, leg: Leg)
    requires OwnLegs(v)
    ensures HasParent(v, leg) ==> Lender(v, leg).market != leg.market
  {
  }

  lemma NotLent(v: VaultState, q: Position, leg: Leg)
    requires OwnLegs(v) && leg.market == q.market
    ensures !LendsTo(v, q, leg)
  {
  }

  lemma UpstreamSound(v: VaultState, q: Position, worth: int)
    requires SoundDebts(v) && worth >= 0
    ensures SoundDebts(PayUpstream(v, Leg(q.market, q.user), worth).0)
  {
    hide SoundDebts, OneLender, Matched, PayUpstream;
    PayUpstreamKeeps(v, Leg(q.market, q.user), worth);
  }

  /** A worthless claim pays nothing and settles nothing; the debt of the position becomes a default. */
  lemma WorthlessClaim(v: VaultState, q: Position)
    requires SoundDebts(v) && SettleClaim(v, q, 0).Ok?
    ensures SettleClaim(v, q, 0).value ==
            (if ParentDebt(v, q) > 0 then ResolveParentDefault(v, q, ParentDebt(v, q)) else v, 0)
  {
    hide ResolveParentDefault, SoundDebts;
    PositionSound(v, q);
    assert PayUpstream(v, Leg(q.market, q.user), 0) == (v, 0);
    assert Withhold(v, q, 0) == (v, 0);
  }

  /** A refund settles the position's debt but not the leg's, and leaves the stake. */
  lemma RefundTerms(v: VaultState, q: Position, worth: int)
    requires SoundDebts(v) && worth > 0 && AccountOf(v, q.market).cash.shortfall >= 0
    requires SettleRefund(v, q, worth).Ok?
    ensures var (v', payout) := SettleRefund(v, q, worth).value;
            var u := UsesOf(v, q, worth, false);
            && v'.debts.childDebt == v.debts.childDebt && v'.credit == v.credit
            && (forall p :: ParentDebt(v', p) == ParentDebt(v, p) - (if p == q then u.kept else 0))
            && (forall p :: Used(v', p) == Used(v, p) - (if p == q then u.kept else 0))
            && CashSettled(v, v', q.market, u, payout)
  {
    hide SoundDebts, Withhold, CappedPayout, PayClaim;
    WithholdTerms(v, q, worth);
    var (v2, kept) := Withhold(v, q, worth);
    WorthlessTerms(v2, q, worth);
    var book := AccountOf(v, q.market).Fund(kept);
    SameCapped(AccountOf(v2, q.market), book, worth - kept);
    PayoutNonNegative(book, worth - kept);
    PaidCash(v2, q.market, CappedPayout(AccountOf(v2, q.market), worth - kept));
  }

  // ---------------------------------------------------------------- from end to end

  /** The tokens handed in are burned, and their worth is one unit each, nothing, or half. */
  predicate Worth(l: Ledger, l': Ledger, call: Call, worth: int)
    requires Redeems(call)
  {
    var (a, a') := (AccountOf(l.vault, call.market), AccountOf(l'.vault, call.market));
    var s := Side(call.market, call.outcome);
    && call.user.Account? && Ended(l.reg, call) && call.amount > 0
    && Balance(l'.tokens, call.user, s) == Balance(l.tokens, call.user, s) - call.amount >= 0
    && Read(l'.tokens.burned, s) == Read(l.tokens.burned, s) + call.amount
    && l'.tokens.backing == l.tokens.backing && l'.reg == l.reg && l'.amm == l.amm
    && (if call.Refund? || l.reg.markets[call.market].final == Invalid
        then 2 * worth + a'.dustCarry == call.amount + a.dustCarry && 0 <= a'.dustCarry <= 1
        else worth == (if call.outcome == l.reg.markets[call.market].final then call.amount else 0)
             && a'.dustCarry == a.dustCarry)
  }

  lemma OpenedTerms(l: Ledger, call: Call)
    requires Redeems(call) && ApplyRedeem(l, call).Ok? && Lawful(l) && OwnLegs(l.vault)
    ensures var (v1, worth) := OpenClaim(l.vault, call.market, FinalOf(l, call), call.outcome, call.amount);
            && v1.debts == l.vault.debts && v1.credit == l.vault.credit && v1.purse == l.vault.purse
            && worth >= 0 && SoundDebts(v1) && OwnLegs(v1)
            && AccountOf(v1, call.market).cash == AccountOf(l.vault, call.market).cash
            && AccountOf(v1, call.market).cash.shortfall >= 0
  {
    hide OpenClaim, SettleClaim, SettleRefund, Burn, Balanced, SoundDebts, OwnLegs, Entitlement, Lawful;
    LawfulParts(l);
    var q := Position(call.market, call.user, call.outcome);
    var final := FinalOf(l, call);
    assert Balanced(l.vault, l.tokens, q.market);
    OpenClaimBalanced(l.vault, l.tokens, q, final, call.amount, q.market);
    OpenClaimReads(l.vault, q.market, final, q.outcome, call.amount, q.market);
    OpenClaimClaims(l.vault, q.market, final, q.outcome, call.amount, q.market);
    var (v1, gross) := OpenClaim(l.vault, q.market, final, q.outcome, call.amount);
    SameDebtsSound(l.vault, v1);
    SameOwn(l.vault, v1);
    BookSound(l.vault, l.tokens, q.market);
  }

  lemma BookSound(v: VaultState, t: TokenState, k: nat)
    requires Balanced(v, t, k)
    ensures AccountOf(v, k).cash.shortfall >= 0 && 0 <= AccountOf(v, k).dustCarry <= 1
  {
  }

  lemma BurnedTerms(t: TokenState, owner: Address, s: Side, amount: int)
    requires Burn(t, owner, s, amount).Ok?
    ensures var t' := Burn(t, owner, s, amount).value;
            && amount > 0 && t'.backing == t.backing && Read(t'.burned, s) == Read(t.burned, s) + amount
            && Balance(t', owner, s) == Balance(t, owner, s) - amount >= 0
  {
  }

  /** The worth that a redemption opens its claim with. */
  lemma WorthOpened(l: Ledger, call: Call)
    requires Redeems(call) && ApplyRedeem(l, call).Ok? && Lawful(l)
    ensures Worth(l, ApplyRedeem(l, call).value, call, ClaimOf(l, call))
    ensures ClaimOf(l, call) == OpenClaim(l.vault, call.market, FinalOf(l, call), call.outcome, call.amount).1
  {
    hide SettleClaim, SettleRefund, Burn, Balanced, Lawful, Entitlement;
    LawfulParts(l);
    var s := Side(call.market, call.outcome);
    BurnedTerms(l.tokens, call.user, s, call.amount);
    assert Balanced(l.vault, l.tokens, call.market);
    BookSound(l.vault, l.tokens, call.market);
    WorthTerms(FinalOf(l, call), call.outcome, call.amount, AccountOf(l.vault, call.market).dustCarry);
    var (v1, worth) := OpenClaim(l.vault, call.market, FinalOf(l, call), call.outcome, call.amount);
    var q := Position(call.market, call.user, call.outcome);
    CarryOpened(l.vault, call.market, FinalOf(l, call), call.outcome, call.amount);
    if call.Redemption? {
      ClaimCarry(v1, q, worth);
    } else {
      RefundCarry(v1, q, worth);
    }
  }

  lemma CarryOpened(v: VaultState, m: nat, final: Outcome, redeemed: Outcome, amount: int)
    ensures AccountOf(OpenClaim(v, m, final, redeemed, amount).0, m).dustCarry ==
            Entitlement(final, redeemed, amount, AccountOf(v, m).dustCarry).1
  {
  }

  lemma ClaimCarry(v: VaultState, q: Position, worth: int)
    requires SettleClaim(v, q, worth).Ok?
    ensures AccountOf(SettleClaim(v, q, worth).value.0, q.market).dustCarry == AccountOf(v, q.market).dustCarry
  {
    hide PayUpstream, Withhold, DefaultIfWorthless, CappedPayout;
    var leg := Leg(q.market, q.user);
    var (v1, up) := PayUpstream(v, leg, worth);
    UpstreamCarry(v, leg, worth);
    OwnDebtCarry(v1, q, worth - up, worth);
  }

  lemma RefundCarry(v: VaultState, q: Position, worth: int)
    requires SettleRefund(v, q, worth).Ok?
    ensures AccountOf(SettleRefund(v, q, worth).value.0, q.market).dustCarry == AccountOf(v, q.market).dustCarry
  {
    hide Withhold, DefaultIfWorthless, CappedPayout;
    OwnDebtCarry(v, q, worth, worth);
  }

  lemma UpstreamCarry(v: VaultState, leg: Leg, worth: int)
    ensures AccountOf(PayUpstream(v, leg, worth).0, leg.market).dustCarry == AccountOf(v, leg.market).dustCarry
  {
    hide SettleChildDebt;
    SettledCarry(v, leg, worth, leg.market);
  }

  lemma OwnDebtCarry(v: VaultState, q: Position, claim: int, worth: int)
    ensures AccountOf(DefaultIfWorthless(Withhold(v, q, claim).0, q, worth), q.market).dustCarry ==
            AccountOf(v, q.market).dustCarry
  {
    hide ResolveParentDefault;
    var v2 := Withhold(v, q, claim).0;
    DefaultCarry(v2, q, ParentDebt(v2, q), q.market);
  }

  lemma SettledCarry(v: VaultState, leg: Leg, worth: int, m: nat)
    ensures AccountOf(SettleChildDebt(v, leg, worth).0, m).dustCarry == AccountOf(v, m).dustCarry
  {
  }

  lemma DefaultCarry(v: VaultState, q: Position, loss: int, m: nat)
    ensures AccountOf(ResolveParentDefault(v, q, loss), m).dustCarry == AccountOf(v, m).dustCarry
  {
    hide ClearChildren;
    if loss > 0 {
      ClearsDebtsAlone(SetParentDebt(AbsorbDefault(v, q.market, loss), q, 0), q, ChildrenOf(v, q), loss);
    }
  }

  /** After any run: a redemption burns the tokens for what they are worth. A claim worth something pays the leg's debt,
      then the position's, then cash; a worthless one pays nothing and writes the position's debt off as a loss. */
  lemma RedemptionTerms(events: seq<Event>, call: Call)
    requires call.Redemption? && ApplyRedeem(Run(GENESIS, events), call).Ok?
    ensures var l := Run(GENESIS, events);
            exists worth: int :: RedeemedAs(l, ApplyRedeem(l, call).value, call, worth)
  {
    hide Run, Lawful, OwnLegs, OpenClaim, SettleClaim, Burn, SoundDebts, Worth, DebtsSettled, CashSettled,
         ResolveParentDefault, Entitlement;
    var l := ReachableSturdy(events);
    OpenedTerms(l, call);
    WorthOpened(l, call);
    var q := Position(call.market, call.user, call.outcome);
    var (v1, worth) := OpenClaim(l.vault, call.market, FinalOf(l, call), call.outcome, call.amount);
    var (v', payout) := SettleClaim(v1, q, worth).value;
    if worth > 0 {
      ClaimTerms(v1, q, worth);
      SettledSame(l.vault, v1, v', q, worth, payout);
    } else {
      WorthlessClaim(v1, q);
      DefaultSame(l.vault, v1, v', q);
    }
    var l' := ApplyRedeem(l, call).value;
    assert RedeemedAs(l, l', call, worth);
  }

  /** The tokens go for what they are worth, and the records follow. */
  ghost predicate RedeemedAs(l: Ledger, l': Ledger, call: Call, worth: int)
    requires Redeems(call)
  {
    && worth >= 0 && Worth(l, l', call, worth)
    && RedeemedFor(l.vault, l'.vault, Position(call.market, call.user, call.outcome), worth)
  }

  ghost predicate RedeemedFor(v: VaultState, v': VaultState, q: Position, worth: int) {
    if worth > 0 then
      var u := UsesOf(v, q, worth, true);
      && DebtsSettled(v, v', q, u) && CashSettled(v, v', q.market, u, v.purse.balance - v'.purse.balance)
      && (forall p :: Stake(v', p) == if p == q then SaturatingSub(Stake(v, p), worth) else Stake(v, p))
    else
      && v'.debts == ResolveParentDefault(v, q, ParentDebt(v, q)).debts && v'.credit == v.credit
      && v'.purse == ResolveParentDefault(v, q, ParentDebt(v, q)).purse
      && AccountOf(v', q.market).cash == AccountOf(ResolveParentDefault(v, q, ParentDebt(v, q)), q.market).cash
  }

  lemma SettledSame(v: VaultState, v1: VaultState, v': VaultState, q: Position, worth: int, payout: int)
    requires v1.debts == v.debts && v1.credit == v.credit && v1.purse == v.purse && worth > 0
    requires AccountOf(v1, q.market).cash == AccountOf(v, q.market).cash
    requires CashSettled(v1, v', q.market, UsesOf(v1, q, worth, true), payout)
    requires DebtsSettled(v1, v', q, UsesOf(v1, q, worth, true))
    requires forall p :: Stake(v', p) == if p == q then SaturatingSub(Stake(v1, p), worth) else Stake(v1, p)
    ensures RedeemedFor(v, v', q, worth)
  {
    hide CappedPayout, ResolveParentDefault, DebtsSettled;
    var u := UsesOf(v, q, worth, true);
    assert u == UsesOf(v1, q, worth, true);
    SameCapped(AccountOf(v1, q.market).Fund(u.kept - u.up), AccountOf(v, q.market).Fund(u.kept - u.up), u.rest);
    SettledFromSame(v, v1, v', q, u);
    assert forall p :: Stake(v1, p) == Stake(v, p);
  }

  lemma SettledFromSame(v: VaultState, v1: VaultState, v': VaultState, q: Position, u: Uses)
    requires v1.debts == v.debts && v1.credit == v.credit && DebtsSettled(v1, v', q, u)
    ensures DebtsSettled(v, v', q, u)
  {
    forall p ensures ParentDebt(v1, p) == ParentDebt(v, p) && Used(v1, p) == Used(v, p)
    {
    }
    forall leg ensures ChildDebt(v1, leg) == ChildDebt(v, leg) {
    }
  }

  lemma DefaultSame(v: VaultState, v1: VaultState, v': VaultState, q: Position)
    requires v1.debts == v.debts && v1.credit == v.credit && v1.purse == v.purse
    requires AccountOf(v1, q.market).cash == AccountOf(v, q.market).cash
    requires v' == if ParentDebt(v1, q) > 0 then ResolveParentDefault(v1, q, ParentDebt(v1, q)) else v1
    ensures RedeemedFor(v, v', q, 0)
  {
    hide ClearChildren;
    var loss := ParentDebt(v, q);
    if loss > 0 {
      var w, w1 := SetParentDebt(AbsorbDefault(v, q.market, loss), q, 0),
                   SetParentDebt(AbsorbDefault(v1, q.market, loss), q, 0);
      ClearsDebtsAlone(w, q, ChildrenOf(v, q), loss);
      ClearsDebtsAlone(w1, q, ChildrenOf(v1, q), loss);
      ClearsDebtsOnly(w, w1, q, ChildrenOf(v, q), loss);
    }
  }

  lemma {:induction false} ClearsDebtsOnly(v: VaultState, w: VaultState, q: Position, list: seq<nat>, remaining: int)
    requires v.debts == w.debts
    ensures ClearChildren(v, q, list, remaining).debts == ClearChildren(w, q, list, remaining).debts
    decreases |list|
  {
    if list != [] && remaining != 0 {
      var leg := Leg(list[0], q.user);
      var owed := ChildDebt(v, leg);
      if owed == 0 {
        ClearsDebtsOnly(v, w, q, list[1..], remaining);
      } else {
        var cleared := Min(owed, remaining);
        ClearsDebtsOnly(ClearOne(v, q, leg, cleared), ClearOne(w, q, leg, cleared), q, list[1..], remaining - cleared);
      }
    }
  }

  /** The same for a refund: the position's debt and then cash; neither the leg's debt nor the stake moves. */
  ghost predicate RefundedAs(l: Ledger, l': Ledger, call: Call, worth: int)
    requires Redeems(call)
  {
    var (v, v', q) := (l.vault, l'.vault, Position(call.market, call.user, call.outcome));
    && worth >= 0 && Worth(l, l', call, worth)
    && if worth > 0 then
         var u := UsesOf(v, q, worth, false);
         && v'.debts.childDebt == v.debts.childDebt && v'.credit == v.credit
         && (forall p :: ParentDebt(v', p) == ParentDebt(v, p) - (if p == q then u.kept else 0))
         && (forall p :: Used(v', p) == Used(v, p) - (if p == q then u.kept else 0))
         && CashSettled(v, v', q.market, u, v.purse.balance - v'.purse.balance)
       else RedeemedFor(v, v', q, 0)
  }

  lemma WorthlessRefund(v: VaultState, q: Position)
    requires SoundDebts(v) && SettleRefund(v, q, 0).Ok?
    ensures SettleRefund(v, q, 0).value ==
            (if ParentDebt(v, q) > 0 then ResolveParentDefault(v, q, ParentDebt(v, q)) else v, 0)
  {
    hide ResolveParentDefault, SoundDebts;
    PositionSound(v, q);
    assert Withhold(v, q, 0) == (v, 0);
  }

  lemma RefundSame(v: VaultState, v1: VaultState, v': VaultState, q: Position, worth: int, payout: int)
    requires v1.debts == v.debts && v1.credit == v.credit && v1.purse == v.purse
    requires AccountOf(v1, q.market).cash == AccountOf(v, q.market).cash
    requires CashSettled(v1, v', q.market, UsesOf(v1, q, worth, false), payout)
    ensures UsesOf(v1, q, worth, false) == UsesOf(v, q, worth, false)
    ensures CashSettled(v, v', q.market, UsesOf(v, q, worth, false), v.purse.balance - v'.purse.balance)
    ensures forall p :: ParentDebt(v1, p) == ParentDebt(v, p) && Used(v1, p) == Used(v, p)
  {
    hide CappedPayout;
    var u := UsesOf(v, q, worth, false);
    SameCapped(AccountOf(v1, q.market).Fund(u.kept - u.up), AccountOf(v, q.market).Fund(u.kept - u.up), u.rest);
  }

  lemma RefundsTerms(events: seq<Event>, call: Call)
    requires call.Refund? && ApplyRedeem(Run(GENESIS, events), call).Ok?
    ensures var l := Run(GENESIS, events);
            exists worth: int :: RefundedAs(l, ApplyRedeem(l, call).value, call, worth)
  {
    hide Run, Lawful, OwnLegs, OpenClaim, SettleRefund, Burn, SoundDebts, Worth, CashSettled, UsesOf,
         ResolveParentDefault, Entitlement, RedeemedFor;
    var l := ReachableSturdy(events);
    OpenedTerms(l, call);
    WorthOpened(l, call);
    var q := Position(call.market, call.user, call.outcome);
    var (v1, worth) := OpenClaim(l.vault, call.market, FinalOf(l, call), call.outcome, call.amount);
    var (v', payout) := SettleRefund(v1, q, worth).value;
    if worth > 0 {
      RefundTerms(v1, q, worth);
      RefundSame(l.vault, v1, v', q, worth, payout);
    } else {
      WorthlessRefund(v1, q);
      DefaultSame(l.vault, v1, v', q);
    }
    assert RefundedAs(l, ApplyRedeem(l, call).value, call, worth);
  }
}
