// What the vault's steps do in numbers: draws, repayments, the waterfall's order, defaults, the steps of a redemption,
// fees and bonds. Each says when a step is accepted or what it moves, and that it moves nothing else.

module VaultTerms {
  import opened Basics
  import opened DikeTypes
  import opened DikeMath
  import opened MarketRegistry
  import opened TokenLedger
  import opened VaultLedger
  import opened VaultDebts
  import opened VaultWaterfall

  // ---------------------------------------------------------------- draws

  /** When a user may draw on a position into market c: a positive amount, against another market that is live and in
      which he has no leg, into a market whose leg, if any, draws on the same market, up to sixty per cent of the stake
      in all, out of money that the parent market has. */
  predicate MayDraw(v: VaultState, reg: RegistryState, q: Position, c: nat, amount: int) {
    && amount > 0 && q.market != c
    && q.market in reg.markets && reg.markets[q.market].status == Live
    && !HasParent(v, Leg(q.market, q.user))
    && (HasParent(v, Leg(c, q.user)) ==> Lender(v, Leg(c, q.user)).market == q.market)
    && Stake(v, q) >= 0 && 10_000 * (Used(v, q) + amount) <= 6_000 * Stake(v, q)
    && amount <= AccountOf(v, q.market).cash.backing && amount <= AccountOf(v, q.market).cash.refundable
  }

  lemma DrawsExactly(v: VaultState, reg: RegistryState, q: Position, c: nat, amount: int)
    ensures OpenCredit(v, reg, q, c, amount).Ok? <==> MayDraw(v, reg, q, c, amount)
  {
    if Stake(v, q) >= 0 {
      FloorBounds(Stake(v, q) * CHILD_COLLATERAL_BPS, BPS_DENOMINATOR);
    }
  }

  // ---------------------------------------------------------------- repayments

  /** What a repayment can pay off: the leg's debt, as far as its parent position still owes it. */
  function Payable(v: VaultState, leg: Leg): int {
    if !HasParent(v, leg) then ChildDebt(v, leg) else Min(ChildDebt(v, leg), ParentDebt(v, Lender(v, leg)))
  }

  /** A repayment takes the smaller of the amount and what can be paid off: it comes off the leg's debt, the parent
      position's debt and its used credit, and enters the parent market's book. A leg whose parent position owes nothing
      any more is cleared. Nobody else's record changes. */
  lemma SettleTerms(v: VaultState, leg: Leg, amount: int)
    requires SoundDebts(v) && amount >= 0
    ensures var (v', x) := SettleChildDebt(v, leg, amount);
            && x == Min(amount, Payable(v, leg)) && 0 <= x <= amount
            && v'.credit == v.credit && v'.purse == v.purse && v'.escrow == v.escrow
            && v'.books.history == v.books.history
            && (forall other :: other != leg ==> ChildDebt(v', other) == ChildDebt(v, other))
            && ChildDebt(v', leg) == (if amount > 0 && HasParent(v, leg) && ParentDebt(v, Lender(v, leg)) == 0 then 0
                                      else ChildDebt(v, leg) - x)
            && (forall p :: ParentDebt(v', p) == ParentDebt(v, p) - (if LendsTo(v, p, leg) then x else 0))
            && (forall p :: Used(v', p) == Used(v, p) - (if LendsTo(v, p, leg) then x else 0))
            && (forall m: nat ::
                  var (a, a') := (AccountOf(v, m), AccountOf(v', m));
                  var back := if HasParent(v, leg) && Lender(v, leg).market == m then x else 0;
                  && a'.cash == a.cash.(backing := a.cash.backing + back, refundable := a.cash.refundable + back)
                  && a'.loans == a.loans.(repaid := a.loans.repaid + back) && a'.fees == a.fees && a'.bonds == a.bonds)
  {
    forall p
      ensures ParentDebt(SettleChildDebt(v, leg, amount).0, p) ==
              ParentDebt(v, p) - (if LendsTo(v, p, leg) then SettleChildDebt(v, leg, amount).1 else 0)
      ensures Used(SettleChildDebt(v, leg, amount).0, p) ==
              Used(v, p) - (if LendsTo(v, p, leg) then SettleChildDebt(v, leg, amount).1 else 0)
    {
      SettleReads(v, leg, amount, p);
    }
    SettleMoves(v, leg, amount);
  }

  lemma SettleMoves(v: VaultState, leg: Leg, amount: int)
    requires SoundDebts(v) && amount >= 0
    ensures var (v', x) := SettleChildDebt(v, leg, amount);
            && x == Min(amount, Payable(v, leg)) && 0 <= x <= amount
            && v'.credit == v.credit && v'.purse == v.purse && v'.escrow == v.escrow
            && v'.books.history == v.books.history
            && (forall other :: other != leg ==> ChildDebt(v', other) == ChildDebt(v, other))
            && ChildDebt(v', leg) == (if amount > 0 && HasParent(v, leg) && ParentDebt(v, Lender(v, leg)) == 0 then 0
                                      else ChildDebt(v, leg) - x)
            && (forall m: nat ::
                  var (a, a') := (AccountOf(v, m), AccountOf(v', m));
                  var back := if HasParent(v, leg) && Lender(v, leg).market == m then x else 0;
                  && a'.cash == a.cash.(backing := a.cash.backing + back, refundable := a.cash.refundable + back)
                  && a'.loans == a.loans.(repaid := a.loans.repaid + back) && a'.fees == a.fees && a'.bonds == a.bonds)
  {
  }

  /** A repayment from outside: accepted for a positive amount in a market that exists, when the vault can return the
      change; it keeps what it could apply and returns the rest. */
  lemma RepaysExactly(v: VaultState, reg: RegistryState, leg: Leg, amount: int)
    requires SoundDebts(v) && v.purse.balance >= 0
    ensures var r := RepayChildCollateral(v, reg, leg, amount);
            && (r.Ok? <==> amount > 0 && leg.market in reg.markets)
            && (r.Ok? ==>
                  && r.value.1 == Min(amount, Payable(v, leg))
                  && r.value.0.purse.balance == v.purse.balance + r.value.1
                  && r.value.0.debts == SettleChildDebt(v, leg, amount).0.debts
                  && r.value.0.books == SettleChildDebt(v, leg, amount).0.books)
  {
    hide SoundDebts;
    if amount > 0 {
      SettleMoves(v, leg, amount);
      ReceivedFirst(v, leg, amount);
    }
  }

  lemma ReceivedFirst(v: VaultState, leg: Leg, amount: int)
    ensures var (a, b) := (SettleChildDebt(v, leg, amount), SettleChildDebt(Receive(v, amount), leg, amount));
            b.1 == a.1 && b.0 == Receive(a.0, amount)
  {
  }

  // ---------------------------------------------------------------- the order of the waterfall

  /** Legs are settled from the front of the list: a list of two parts settles the first part, and the second with what
      that left. */
  lemma {:induction false} SettlesInOrder(v: VaultState, user: Address, front: seq<nat>, back: seq<nat>, pool: int)
    ensures var (v1, x) := SettleChildren(v, user, front, pool);
            var (v2, y) := SettleChildren(v1, user, back, pool - x);
            SettleChildren(v, user, front + back, pool) == (v2, x + y)
    decreases |front|
  {
    hide SettleChildDebt;
    if front == [] {
      assert front + back == back;
    } else {
      assert (front + back)[1..] == front[1..] + back;
      if pool == 0 {
        SettlesNothing(v, user, back);
      } else {
        var (v1, applied) := SettleChildDebt(v, Leg(front[0], user), pool);
        SettlesInOrder(v1, user, front[1..], back, pool - applied);
      }
    }
  }

  lemma SettlesNothing(v: VaultState, user: Address, list: seq<nat>)
    ensures SettleChildren(v, user, list, 0) == (v, 0)
  {
  }

  /** And written off from the front: what is written off a listed leg is what is left of the loss after all legs before
      it, up to its debt. */
  lemma {:induction false} ClearsInOrder(v: VaultState, q: Position, list: seq<nat>, loss: int, i: nat)
    requires loss >= 0 && Distinct(list) && i < |list|
    requires forall c :: c in list ==> ChildDebt(v, Leg(c, q.user)) >= 0
    ensures ChildDebt(ClearChildren(v, q, list, loss), Leg(list[i], q.user)) ==
            SaturatingSub(ChildDebt(v, Leg(list[i], q.user)), SaturatingSub(loss, Owed(v, q.user, list[..i])))
    decreases |list|
  {
    hide ClearOne;
    var leg := Leg(list[0], q.user);
    var owed := ChildDebt(v, leg);
    var cleared := Min(owed, loss);
    OwedOf(v, q.user, list, i);
    if loss > 0 {
      var v1 := if owed == 0 then v else ClearOne(v, q, leg, cleared);
      ClearedReads(v, q, leg, cleared);
      forall c | c in list[1..] ensures ChildDebt(v1, Leg(c, q.user)) == ChildDebt(v, Leg(c, q.user)) {
        NotFirst(list, c);
      }
      if i > 0 {
        assert list[1..][..i - 1] == list[1..i];
        assert list[1..][i - 1] == list[i];
        TailDistinct(list);
        ClearsInOrder(v1, q, list[1..], loss - (if owed == 0 then 0 else cleared), i - 1);
        OwedSameOn(v, v1, q.user, list[1..i]);
      } else {
        Untouched(v1, q, list[1..], loss - cleared, list[0]);
      }
    } else {
      OwedAtLeastZero(v, q.user, list[..i]);
    }
  }

  lemma OwedOf(v: VaultState, user: Address, list: seq<nat>, i: nat)
    requires i < |list|
    ensures i == 0 ==> Owed(v, user, list[..i]) == 0
    ensures i > 0 ==> Owed(v, user, list[..i]) == ChildDebt(v, Leg(list[0], user)) + Owed(v, user, list[1..i])
  {
    if i > 0 {
      assert list[..i][1..] == list[1..i] && list[..i][0] == list[0];
    }
  }

  lemma ClearedReads(v: VaultState, q: Position, leg: Leg, cleared: int)
    ensures forall other :: ChildDebt(ClearOne(v, q, leg, cleared), other) ==
              ChildDebt(v, other) - (if other == leg then cleared else 0)
  {
  }

  lemma NotFirst(list: seq<nat>, c: nat)
    requires Distinct(list) && list != [] && c in list[1..]
    ensures c != list[0] && c in list
  {
    var j :| 0 <= j < |list| - 1 && list[1..][j] == c;
    assert list[j + 1] == c;
  }

  lemma TailDistinct(list: seq<nat>)
    requires Distinct(list) && list != []
    ensures Distinct(list[1..])
  {
  }

  lemma {:induction false} OwedSameOn(v: VaultState, v': VaultState, user: Address, list: seq<nat>)
    requires forall c :: c in list ==> ChildDebt(v', Leg(c, user)) == ChildDebt(v, Leg(c, user))
    ensures Owed(v', user, list) == Owed(v, user, list)
    decreases |list|
  {
    if list != [] {
      assert list[0] in list;
      OwedSameOn(v, v', user, list[1..]);
    }
  }

  lemma {:induction false} OwedAtLeastZero(v: VaultState, user: Address, list: seq<nat>)
    requires forall c :: c in list ==> ChildDebt(v, Leg(c, user)) >= 0
    ensures Owed(v, user, list) >= 0
    decreases |list|
  {
    if list != [] {
      assert list[0] in list;
      OwedAtLeastZero(v, user, list[1..]);
    }
  }

  lemma {:induction false} Untouched(v: VaultState, q: Position, list: seq<nat>, loss: int, c: nat)
    requires c !in list
    ensures ChildDebt(ClearChildren(v, q, list, loss), Leg(c, q.user)) == ChildDebt(v, Leg(c, q.user))
    decreases |list|
  {
    hide ClearOne;
    if list != [] && loss != 0 {
      var leg := Leg(list[0], q.user);
      var owed := ChildDebt(v, leg);
      if owed == 0 {
        Untouched(v, q, list[1..], loss, c);
      } else {
        ClearedReads(v, q, leg, Min(owed, loss));
        Untouched(ClearOne(v, q, leg, Min(owed, loss)), q, list[1..], loss - Min(owed, loss), c);
      }
    }
  }

  // ---------------------------------------------------------------- defaults

  /** A default: insurance makes good as much as it has, the market's shortfall takes the rest, and the position's debt
      is written off. Other markets' books do not change, nor does the collateral held. */
  lemma DefaultTerms(v: VaultState, q: Position, loss: int)
    requires loss > 0 && v.purse.reserve >= 0
    ensures var v' := ResolveParentDefault(v, q, loss);
            var draw := if loss < v.purse.reserve then loss else v.purse.reserve;
            && v'.purse == v.purse.(reserve := v.purse.reserve - draw)
            && v'.credit == v.credit && v'.escrow == v.escrow && v'.books.history == v.books.history
            && (forall p :: ParentDebt(v', p) == if p == q then 0 else ParentDebt(v, p))
            && (forall m: nat ::
                  var (a, a') := (AccountOf(v, m), AccountOf(v', m));
                  && (m != q.market ==> a' == a)
                  && (m == q.market ==>
                        && a'.cash == Cash(a.cash.backing + draw, a.cash.refundable + draw, a.cash.redeemed,
                                           a.cash.shortfall + loss - draw)
                        && a'.loans == a.loans.(defaulted := a.loans.defaulted + loss)
                        && a'.fees == a.fees && a'.bonds == a.bonds))
  {
    hide ClearChildren;
    ClearsDebtsAlone(SetParentDebt(AbsorbDefault(v, q.market, loss), q, 0), q, ChildrenOf(v, q), loss);
  }

  lemma {:induction false} ClearsDebtsAlone(v: VaultState, q: Position, list: seq<nat>, remaining: int)
    ensures var v' := ClearChildren(v, q, list, remaining);
            && v'.books == v.books && v'.purse == v.purse && v'.credit == v.credit && v'.escrow == v.escrow
            && v'.debts.parentDebt == v.debts.parentDebt
    decreases |list|
  {
    if list != [] && remaining != 0 {
      var leg := Leg(list[0], q.user);
      var owed := ChildDebt(v, leg);
      if owed == 0 {
        ClearsDebtsAlone(v, q, list[1..], remaining);
      } else {
        var cleared := Min(owed, remaining);
        ClearsDebtsAlone(ClearOne(v, q, leg, cleared), q, list[1..], remaining - cleared);
      }
    }
  }

  // ---------------------------------------------------------------- redemptions

  /** What tokens are worth: one unit each on the winning side, nothing on the losing one, and half in a market that
      ended Invalid or cancelled, the odd unit carried. */
  lemma WorthTerms(final: Outcome, redeemed: Outcome, amount: int, carry: int)
    requires amount >= 0 && 0 <= carry <= 1
    ensures var (worth, carry') := Entitlement(final, redeemed, amount, carry);
            && (final == Invalid ==> 2 * worth + carry' == amount + carry && 0 <= carry' <= 1)
            && (final != Invalid ==> worth == (if redeemed == final then amount else 0) && carry' == carry)
  {
  }

  /** What is kept back of a claim comes off the redeemer's debt and used credit and enters the market's book. */
  lemma WithholdTerms(v: VaultState, q: Position, claim: int)
    requires SoundDebts(v) && claim >= 0
    ensures var (v', kept) := Withhold(v, q, claim);
            && kept == Min(claim, ParentDebt(v, q))
            && (forall p :: ParentDebt(v', p) == ParentDebt(v, p) - (if p == q then kept else 0))
            && (forall p :: Used(v', p) == Used(v, p) - (if p == q then kept else 0))
            && v'.debts.childDebt == v.debts.childDebt && v'.credit == v.credit && v'.purse == v.purse
            && (forall m: nat ::
                  var (a, a', x) := (AccountOf(v, m), AccountOf(v', m), if m == q.market then kept else 0);
                  && a'.cash == a.cash.(backing := a.cash.backing + x, refundable := a.cash.refundable + x)
                  && a'.loans == a.loans.(repaid := a.loans.repaid + x) && a'.fees == a.fees && a'.bonds == a.bonds)
  {
    PositionSound(v, q);
  }

  /** A claim that is worth nothing turns the redeemer's whole debt into a default, and no other claim does. */
  lemma WorthlessTerms(v: VaultState, q: Position, worth: int)
    ensures worth != 0 || ParentDebt(v, q) <= 0 ==> DefaultIfWorthless(v, q, worth) == v
    ensures worth == 0 && ParentDebt(v, q) > 0 ==>
              DefaultIfWorthless(v, q, worth) == ResolveParentDefault(v, q, ParentDebt(v, q))
  {
  }

  /** The debt upstream leaves the market's book for the parent market's. */
  lemma UpstreamTerms(v: VaultState, leg: Leg, claim: int)
    requires SoundDebts(v) && claim >= 0 && (HasParent(v, leg) ==> Lender(v, leg).market != leg.market)
    ensures var (v', x) := PayUpstream(v, leg, claim);
            var (v1, y) := SettleChildDebt(v, leg, claim);
            && x == y == Min(claim, Payable(v, leg)) && v'.debts == v1.debts && v'.credit == v.credit
            && v'.purse == v.purse
            && (forall m: nat :: m != leg.market ==> AccountOf(v', m) == AccountOf(v1, m))
            && var (a, a') := (AccountOf(v, leg.market), AccountOf(v', leg.market));
            && a'.cash == a.cash.(backing := a.cash.backing - x, refundable := a.cash.refundable - x)
            && a'.loans == a.loans && a'.fees == a.fees && a'.bonds == a.bonds
  {
    hide SoundDebts;
    SettleMoves(v, leg, claim);
  }

  // ---------------------------------------------------------------- fees and bonds

  /** A sweep empties both buckets: a fifth, rounded down, stays as insurance, and the rest leaves the vault. */
  lemma SweepTerms(v: VaultState, reg: RegistryState, m: nat)
    requires AccountOf(v, m).fees.protocol >= 0 && AccountOf(v, m).fees.cod >= 0
    requires SweepProtocolFees(v, reg, m).Ok?
    ensures var (v', swept) := SweepProtocolFees(v, reg, m).value;
            var (a, a') := (AccountOf(v, m), AccountOf(v', m));
            var cut := v'.purse.reserve - v.purse.reserve;
            && m in reg.markets && swept == a.fees.protocol + a.fees.cod
            && 10_000 * cut <= 2_000 * swept < 10_000 * (cut + 1)
            && v'.purse.balance == v.purse.balance - (swept - cut)
            && a'.fees == Fees(a.fees.lp, 0, 0) && a'.cash == a.cash && a'.loans == a.loans && a'.bonds == a.bonds
            && (forall k: nat :: k != m ==> AccountOf(v', k) == AccountOf(v, k))
            && v'.debts == v.debts && v'.credit == v.credit && v'.escrow == v.escrow
  {
    var swept := AccountOf(v, m).fees.protocol + AccountOf(v, m).fees.cod;
    FloorBounds(swept * INSURANCE_RESERVE_BPS, BPS_DENOMINATOR);
  }

  /** A bond is locked once under its key, in its market's total for its side. */
  lemma LockTerms(v: VaultState, reg: RegistryState, key: BondKey, m: nat, amount: int)
    ensures LockBond(v, reg, key, m, amount).Ok? <==> amount > 0 && m in reg.markets && key !in v.escrow.bonds
    ensures LockBond(v, reg, key, m, amount).Ok? ==>
              var v' := LockBond(v, reg, key, m, amount).value;
              var (a, a') := (AccountOf(v, m), AccountOf(v', m));
              && v'.escrow.bonds == v.escrow.bonds[key := Bond(amount, m)] && v'.escrow.paid == v.escrow.paid
              && v'.purse == v.purse.(balance := v.purse.balance + amount)
              && a'.bonds.dispute == a.bonds.dispute + (if key.isDispute then amount else 0)
              && a'.bonds.proposal == a.bonds.proposal + (if key.isDispute then 0 else amount)
              && a'.cash == a.cash && a'.fees == a.fees && a'.loans == a.loans
              && v'.debts == v.debts && v'.credit == v.credit
  {
  }

  /** Part of a bond leaves the vault for the one it is paid to. */
  lemma UnlockTerms(v: VaultState, key: BondKey, to: Address, amount: int)
    ensures UnlockBond(v, key, to, amount).Ok? <==>
            && amount > 0 && key in v.escrow.bonds && amount <= v.escrow.bonds[key].amount && amount <= v.purse.balance
    ensures UnlockBond(v, key, to, amount).Ok? ==>
              var v' := UnlockBond(v, key, to, amount).value;
              var bond := v.escrow.bonds[key];
              var (a, a') := (AccountOf(v, bond.market), AccountOf(v', bond.market));
              && v'.escrow.bonds == v.escrow.bonds[key := Bond(bond.amount - amount, bond.market)]
              && (forall who ::
                    Read(v'.escrow.paid, who) == Read(v.escrow.paid, who) + (if who == to then amount else 0))
              && v'.purse == v.purse.(balance := v.purse.balance - amount)
              && a'.bonds.dispute == a.bonds.dispute - (if key.isDispute then amount else 0)
              && a'.bonds.proposal == a.bonds.proposal - (if key.isDispute then 0 else amount)
              && a'.cash == a.cash && a'.fees == a.fees && a'.loans == a.loans
              && v'.debts == v.debts && v'.credit == v.credit
  {
  }
}
