// The three debt records of a draw, and what liquidation does with them.

module VaultDebts {
  import opened Basics
  import opened DikeTypes
  import opened DikeMath
  import opened MarketRegistry
  import opened VaultBooks
  import opened VaultClaims
  import opened VaultLedger

  /** No position owes more upstream than it has used, and nothing is owed below zero. */
  ghost predicate Ordered(v: VaultState) {
    forall q :: 0 <= ParentDebt(v, q) <= Used(v, q)
  }

  ghost predicate LegsNonNegative(v: VaultState) {
    forall leg :: ChildDebt(v, leg) >= 0
  }

  /** Only users who can sign draw credit; the contracts owe nothing. */
  ghost predicate DebtorsSign(v: VaultState) {
    && (forall q :: q in v.debts.used ==> q.user.Account?)
    && (forall q :: q in v.debts.parentDebt ==> q.user.Account?)
    && (forall leg :: leg in v.credit.lender ==> leg.user.Account? && v.credit.lender[leg].user.Account?)
  }

  ghost predicate SoundDebts(v: VaultState) {
    Ordered(v) && LegsNonNegative(v) && LegsHaveParents(v) && DebtorsSign(v)
  }

  lemma ContractsOweNothing(v: VaultState, q: Position, leg: Leg)
    requires SoundDebts(v)
    ensures !q.user.Account? ==> Used(v, q) == 0 && ParentDebt(v, q) == 0
    ensures !leg.user.Account? ==> ChildDebt(v, leg) == 0
  {
  }

  /** No market is listed twice. */
  predicate Distinct(list: seq<nat>) {
    forall i, j :: 0 <= i < j < |list| ==> list[i] != list[j]
  }

  /** What a user's listed legs owe together. */
  function Owed(v: VaultState, user: Address, list: seq<nat>): int {
    if list == [] then 0 else ChildDebt(v, Leg(list[0], user)) + Owed(v, user, list[1..])
  }

  /** Every leg was drawn against one position only: then each position's list is exactly the legs it lends
      to, without duplicates. */
  ghost predicate ListsAreLenders(v: VaultState) {
    && (forall q :: Distinct(ChildrenOf(v, q)))
    && (forall q, c: nat :: c in ChildrenOf(v, q) <==>
                            HasParent(v, Leg(c, q.user)) && Lender(v, Leg(c, q.user)) == q)
  }

  /** The legs of a position owe at least what the position owes upstream. */
  ghost predicate Backed(v: VaultState) {
    forall q :: ParentDebt(v, q) <= Owed(v, q.user, ChildrenOf(v, q))
  }

  ghost predicate OneLender(v: VaultState) {
    SoundDebts(v) && ListsAreLenders(v) && Backed(v)
  }

  /** What is used is exactly what is owed. */
  ghost predicate Matched(v: VaultState) {
    forall q :: Used(v, q) == ParentDebt(v, q)
  }

  /** A step that keeps the debt records sound, each leg with one lender, and used credit equal to debt. */
  ghost predicate Keeps(v: VaultState, v': VaultState) {
    && SoundDebts(v')
    && (OneLender(v) ==> OneLender(v'))
    && (OneLender(v) && Matched(v) ==> Matched(v'))
  }

  // ---------------------------------------------------------------- sums over a list of legs

  lemma {:induction false} OwedSame(v: VaultState, v': VaultState, user: Address, list: seq<nat>)
    requires forall c :: c in list ==> ChildDebt(v', Leg(c, user)) == ChildDebt(v, Leg(c, user))
    ensures Owed(v', user, list) == Owed(v, user, list)
  {
    if list != [] {
      assert list[0] in list;
      OwedSame(v, v', user, list[1..]);
    }
  }

  lemma {:induction false} OwedNonNegative(v: VaultState, user: Address, list: seq<nat>)
    requires LegsNonNegative(v)
    ensures Owed(v, user, list) >= 0
  {
    if list != [] {
      OwedNonNegative(v, user, list[1..]);
    }
  }

  /** One leg of the list changes: so does the sum, by the same amount. */
  lemma {:induction false} OwedUpdate(v: VaultState, v': VaultState, user: Address, list: seq<nat>, c: nat)
    requires Distinct(list) && c in list
    requires forall d :: d in list && d != c ==> ChildDebt(v', Leg(d, user)) == ChildDebt(v, Leg(d, user))
    ensures Owed(v', user, list) ==
            Owed(v, user, list) - ChildDebt(v, Leg(c, user)) + ChildDebt(v', Leg(c, user))
  {
    if list[0] == c {
      OwedSame(v, v', user, list[1..]);
    } else {
      assert list[0] in list;
      OwedUpdate(v, v', user, list[1..], c);
    }
  }

  lemma {:induction false} OwedExtend(v: VaultState, user: Address, list: seq<nat>, c: nat)
    ensures Owed(v, user, list + [c]) == Owed(v, user, list) + ChildDebt(v, Leg(c, user))
  {
    if list == [] {
      assert list + [c] == [c];
    } else {
      assert (list + [c])[1..] == list[1..] + [c];
      OwedExtend(v, user, list[1..], c);
    }
  }

  // ---------------------------------------------------------------- settling

  /** Settling moves the same amount out of the three records, and no subtraction saturates. */
  lemma SettleReads(v: VaultState, leg: Leg, repayment: int, q: Position)
    requires SoundDebts(v)
    ensures var (v', x) := SettleChildDebt(v, leg, repayment);
            && 0 <= x <= ChildDebt(v, leg)
            && ParentDebt(v', q) == ParentDebt(v, q) - (if LendsTo(v, q, leg) then x else 0)
            && Used(v', q) == Used(v, q) - (if LendsTo(v, q, leg) then x else 0)
  {
  }

  /** Only the settled leg's record changes, by the amount applied unless nothing was owed upstream. */
  lemma SettleLegReads(v: VaultState, leg: Leg, repayment: int, l: Leg)
    requires SoundDebts(v)
    ensures var (v', x) := SettleChildDebt(v, leg, repayment);
            && (l != leg ==> ChildDebt(v', l) == ChildDebt(v, l))
            && 0 <= ChildDebt(v', leg) <= ChildDebt(v, leg) - x
            && (ChildDebt(v', leg) == ChildDebt(v, leg) - x
                || (HasParent(v, leg) && ParentDebt(v, Lender(v, leg)) == 0))
            && v'.credit == v.credit
  {
  }

  predicate LendsTo(v: VaultState, q: Position, leg: Leg) {
    HasParent(v, leg) && Lender(v, leg) == q
  }

  lemma LenderSigns(v: VaultState, leg: Leg)
    requires DebtorsSign(v) && HasParent(v, leg)
    ensures Lender(v, leg).user.Account?
  {
  }

  lemma SettleSigns(v: VaultState, leg: Leg, repayment: int)
    requires LegsHaveParents(v) && DebtorsSign(v)
    ensures DebtorsSign(SettleChildDebt(v, leg, repayment).0)
  {
  }

  lemma SettleSound(v: VaultState, leg: Leg, repayment: int)
    requires SoundDebts(v)
    ensures SoundDebts(SettleChildDebt(v, leg, repayment).0)
  {
    hide SettleChildDebt, DebtorsSign;
    var v' := SettleChildDebt(v, leg, repayment).0;
    SettleFrame(v, leg, repayment);
    SettleSigns(v, leg, repayment);
    forall q ensures 0 <= ParentDebt(v', q) <= Used(v', q) {
      SettleReads(v, leg, repayment, q);
      if LendsTo(v, q, leg) {
        SettleWithinParent(v, leg, repayment);
      }
    }
    forall l ensures ChildDebt(v', l) >= 0 {
      SettleLegReads(v, leg, repayment, l);
    }
  }

  /** A payment settles no more than the parent position owes. */
  lemma SettleWithinParent(v: VaultState, leg: Leg, repayment: int)
    requires SoundDebts(v) && HasParent(v, leg)
    ensures SettleChildDebt(v, leg, repayment).1 <= ParentDebt(v, Lender(v, leg))
  {
  }

  lemma SettleOneLender(v: VaultState, leg: Leg, repayment: int)
    requires OneLender(v)
    ensures OneLender(SettleChildDebt(v, leg, repayment).0)
    ensures Matched(v) ==> Matched(SettleChildDebt(v, leg, repayment).0)
  {
    hide SettleChildDebt, DebtorsSign;
    var v' := SettleChildDebt(v, leg, repayment).0;
    SettleSound(v, leg, repayment);
    SettleLegReads(v, leg, repayment, leg);
    forall q ensures ParentDebt(v', q) <= Owed(v', q.user, ChildrenOf(v', q)) {
      SettleBacked(v, leg, repayment, q);
    }
    forall q | Matched(v) ensures Used(v', q) == ParentDebt(v', q) {
      SettleReads(v, leg, repayment, q);
    }
  }

  lemma SettleBacked(v: VaultState, leg: Leg, repayment: int, q: Position)
    requires OneLender(v)
    ensures var v' := SettleChildDebt(v, leg, repayment).0;
            ParentDebt(v', q) <= Owed(v', q.user, ChildrenOf(v, q))
  {
    hide SettleChildDebt, DebtorsSign;
    var (v', x) := SettleChildDebt(v, leg, repayment);
    var list := ChildrenOf(v, q);
    SettleReads(v, leg, repayment, q);
    SettleSound(v, leg, repayment);
    forall c: nat | Leg(c, q.user) != leg ensures ChildDebt(v', Leg(c, q.user)) == ChildDebt(v, Leg(c, q.user)) {
      SettleLegReads(v, leg, repayment, Leg(c, q.user));
    }
    if leg.user == q.user && leg.market in list {
      SettleLegReads(v, leg, repayment, leg);
      OwedUpdate(v, v', q.user, list, leg.market);
      OwedNonNegative(v', q.user, list);
    } else {
      OwedSame(v, v', q.user, list);
    }
  }

  // ---------------------------------------------------------------- drawing

  lemma RecordCreditReads(v: VaultState, q: Position, c: nat, amount: int, p: Position, l: Leg)
    ensures var v' := RecordCredit(v, q, c, amount);
            && ParentDebt(v', p) == ParentDebt(v, p) + (if p == q then amount else 0)
            && Used(v', p) == Used(v, p) + (if p == q then amount else 0)
            && ChildDebt(v', l) == ChildDebt(v, l) + (if l == Leg(c, q.user) then amount else 0)
  {
  }

  lemma RecordCreditLinks(v: VaultState, q: Position, c: nat, amount: int, p: Position, l: Leg)
    ensures var v' := RecordCredit(v, q, c, amount);
            && (ChildrenOf(v', p) == if p == q && c !in ChildrenOf(v, q) then ChildrenOf(v, q) + [c]
                                     else ChildrenOf(v, p))
            && (HasParent(v', l) <==> HasParent(v, l) || l == Leg(c, q.user))
            && (HasParent(v', l) ==> Lender(v', l) == if HasParent(v, l) then Lender(v, l) else q)
  {
  }

  lemma RecordCreditSound(v: VaultState, q: Position, c: nat, amount: int)
    requires SoundDebts(v) && amount >= 0 && q.user.Account?
    ensures SoundDebts(RecordCredit(v, q, c, amount))
  {
    var v' := RecordCredit(v, q, c, amount);
    forall p ensures 0 <= ParentDebt(v', p) <= Used(v', p) {
      RecordCreditReads(v, q, c, amount, p, Leg(c, q.user));
    }
    forall l ensures ChildDebt(v', l) >= 0 {
      RecordCreditReads(v, q, c, amount, q, l);
    }
  }

  /** A draw by a leg that has no other lender keeps every leg with one lender. */
  lemma RecordCreditOneLender(v: VaultState, q: Position, c: nat, amount: int)
    requires OneLender(v) && amount >= 0 && q.user.Account?
    requires HasParent(v, Leg(c, q.user)) ==> Lender(v, Leg(c, q.user)) == q
    ensures OneLender(RecordCredit(v, q, c, amount))
    ensures Matched(v) ==> Matched(RecordCredit(v, q, c, amount))
  {
    hide DebtorsSign;
    var v' := RecordCredit(v, q, c, amount);
    RecordCreditSound(v, q, c, amount);
    forall p, d: nat ensures d in ChildrenOf(v', p) <==> LendsTo(v', p, Leg(d, p.user)) {
      RecordCreditLinks(v, q, c, amount, p, Leg(d, p.user));
    }
    forall p ensures Distinct(ChildrenOf(v', p)) && ParentDebt(v', p) <= Owed(v', p.user, ChildrenOf(v', p)) {
      RecordCreditLinks(v, q, c, amount, p, Leg(c, q.user));
      RecordCreditBacked(v, q, c, amount, p);
    }
    forall p | Matched(v) ensures Used(v', p) == ParentDebt(v', p) {
      RecordCreditReads(v, q, c, amount, p, Leg(c, q.user));
    }
  }

  lemma RecordCreditBacked(v: VaultState, q: Position, c: nat, amount: int, p: Position)
    requires OneLender(v) && amount >= 0
    requires HasParent(v, Leg(c, q.user)) ==> Lender(v, Leg(c, q.user)) == q
    ensures var v' := RecordCredit(v, q, c, amount);
            ParentDebt(v', p) <= Owed(v', p.user, ChildrenOf(v', p))
  {
    var v' := RecordCredit(v, q, c, amount);
    var list := ChildrenOf(v, p);
    RecordCreditLinks(v, q, c, amount, p, Leg(c, q.user));
    forall d: nat ensures ChildDebt(v', Leg(d, p.user)) ==
                          ChildDebt(v, Leg(d, p.user)) + (if Leg(d, p.user) == Leg(c, q.user) then amount else 0)
    {
      RecordCreditReads(v, q, c, amount, p, Leg(d, p.user));
    }
    RecordCreditReads(v, q, c, amount, p, Leg(c, q.user));
    if p == q && c !in list {
      OwedExtend(v', p.user, list, c);
      OwedSame(v, v', p.user, list);
    } else if p == q {
      OwedUpdate(v, v', p.user, list, c);
    } else {
      OwedSame(v, v', p.user, list);
    }
  }

  // ---------------------------------------------------------------- repaying out of one's own claim

  lemma RepayReads(v: VaultState, q: Position, amount: int, p: Position, l: Leg)
    requires SoundDebts(v) && amount <= ParentDebt(v, q)
    ensures var v' := RepayLender(v, q, amount);
            && ParentDebt(v', p) == ParentDebt(v, p) - (if p == q then amount else 0)
            && Used(v', p) == Used(v, p) - (if p == q then amount else 0)
            && ChildDebt(v', l) == ChildDebt(v, l)
            && v'.credit == v.credit
  {
  }

  lemma RepaySigns(v: VaultState, q: Position, amount: int)
    requires DebtorsSign(v) && LegsHaveParents(v) && ParentDebt(v, q) > 0
    ensures DebtorsSign(RepayLender(v, q, amount)) && LegsHaveParents(RepayLender(v, q, amount))
  {
  }

  lemma RepaySound(v: VaultState, q: Position, amount: int)
    requires SoundDebts(v) && 0 < amount <= ParentDebt(v, q)
    ensures SoundDebts(RepayLender(v, q, amount))
    ensures Matched(v) ==> Matched(RepayLender(v, q, amount))
  {
    hide DebtorsSign, RepayLender;
    var v' := RepayLender(v, q, amount);
    RepaySigns(v, q, amount);
    forall p ensures ParentDebt(v', p) == ParentDebt(v, p) - (if p == q then amount else 0)
             ensures Used(v', p) == Used(v, p) - (if p == q then amount else 0)
    {
      RepayReads(v, q, amount, p, Leg(0, q.user));
    }
    forall l ensures ChildDebt(v', l) == ChildDebt(v, l) {
      RepayReads(v, q, amount, q, l);
    }
  }

  lemma RepayKeeps(v: VaultState, q: Position, amount: int)
    requires SoundDebts(v) && 0 < amount <= ParentDebt(v, q)
    ensures Keeps(v, RepayLender(v, q, amount))
  {
    hide SoundDebts, Matched, RepayLender;
    var v' := RepayLender(v, q, amount);
    RepaySound(v, q, amount);
    RepayReads(v, q, amount, q, Leg(0, q.user));
    forall p | OneLender(v) ensures ParentDebt(v', p) <= Owed(v', p.user, ChildrenOf(v', p)) {
      RepayReads(v, q, amount, p, Leg(0, q.user));
      forall c: nat ensures ChildDebt(v', Leg(c, p.user)) == ChildDebt(v, Leg(c, p.user)) {
        RepayReads(v, q, amount, q, Leg(c, p.user));
      }
      OwedSame(v, v', p.user, ChildrenOf(v, p));
    }
  }

  // ---------------------------------------------------------------- defaulting

  lemma ClearOneReads(v: VaultState, q: Position, leg: Leg, cleared: int, p: Position, l: Leg)
    ensures var v' := ClearOne(v, q, leg, cleared);
            && ParentDebt(v', p) == ParentDebt(v, p)
            && Used(v', p) == (if p == q then SaturatingSub(Used(v, q), cleared) else Used(v, p))
            && ChildDebt(v', l) == ChildDebt(v, l) - (if l == leg then cleared else 0)
  {
  }

  lemma ClearOneNonNegative(v: VaultState, q: Position, leg: Leg, cleared: int)
    requires LegsNonNegative(v) && cleared <= ChildDebt(v, leg)
    ensures LegsNonNegative(ClearOne(v, q, leg, cleared))
  {
    forall l ensures ChildDebt(ClearOne(v, q, leg, cleared), l) >= 0 {
      ClearOneReads(v, q, leg, cleared, q, l);
    }
  }

  lemma {:induction false} ClearReads(v: VaultState, q: Position, list: seq<nat>, remaining: int, p: Position, l: Leg)
    requires LegsNonNegative(v) && remaining >= 0
    ensures var v' := ClearChildren(v, q, list, remaining);
            && ParentDebt(v', p) == ParentDebt(v, p)
            && (p != q ==> Used(v', p) == Used(v, p))
            && (Used(v, q) >= 0 ==> Used(v', q) >= 0)
            && 0 <= ChildDebt(v', l) <= ChildDebt(v, l)
            && (l.user != q.user || l.market !in list ==> ChildDebt(v', l) == ChildDebt(v, l))
    decreases |list|
  {
    if list != [] && remaining != 0 {
      var leg := Leg(list[0], q.user);
      var cleared := Min(ChildDebt(v, leg), remaining);
      if cleared == 0 {
        ClearReads(v, q, list[1..], remaining, p, l);
      } else {
        ClearOneReads(v, q, leg, cleared, p, l);
        ClearOneNonNegative(v, q, leg, cleared);
        ClearReads(ClearOne(v, q, leg, cleared), q, list[1..], remaining - cleared, p, l);
      }
    }
  }

  /** The write-off reaches as many of the listed debts as it covers, and the used credit falls with it. */
  lemma {:induction false} ClearUsed(v: VaultState, q: Position, list: seq<nat>, remaining: int)
    requires LegsNonNegative(v) && remaining >= 0 && Distinct(list) && Used(v, q) >= 0
    ensures Used(ClearChildren(v, q, list, remaining), q) ==
            SaturatingSub(Used(v, q), Min(remaining, Owed(v, q.user, list)))
    decreases |list|
  {
    OwedNonNegative(v, q.user, list);
    if list != [] && remaining != 0 {
      var leg := Leg(list[0], q.user);
      var rest := list[1..];
      OwedNonNegative(v, q.user, rest);
      var cleared := Min(ChildDebt(v, leg), remaining);
      if cleared == 0 {
        ClearUsed(v, q, rest, remaining);
      } else {
        var v1 := ClearOne(v, q, leg, cleared);
        ClearOneReads(v, q, leg, cleared, q, leg);
        ClearOneNonNegative(v, q, leg, cleared);
        forall c | c in rest ensures ChildDebt(v1, Leg(c, q.user)) == ChildDebt(v, Leg(c, q.user)) {
          ClearOneReads(v, q, leg, cleared, q, Leg(c, q.user));
        }
        OwedSame(v, v1, q.user, rest);
        ClearUsed(v1, q, rest, remaining - cleared);
      }
    }
  }

  /** The state a default clears the children from: the loss is booked, the position's debt is zero. */
  function WrittenOff(v: VaultState, q: Position, total: int): VaultState {
    SetParentDebt(AbsorbDefault(v, q.market, total), q, 0)
  }

  lemma WrittenOffReads(v: VaultState, q: Position, total: int, p: Position, l: Leg)
    ensures var v' := WrittenOff(v, q, total);
            && ParentDebt(v', p) == (if p == q then 0 else ParentDebt(v, p))
            && Used(v', p) == Used(v, p)
            && ChildDebt(v', l) == ChildDebt(v, l)
            && v'.credit == v.credit
  {
  }

  lemma DefaultReads(v: VaultState, q: Position, total: int, p: Position, l: Leg)
    requires SoundDebts(v) && total > 0
    ensures var v' := ResolveParentDefault(v, q, total);
            && ParentDebt(v', p) == (if p == q then 0 else ParentDebt(v, p))
            && (p != q ==> Used(v', p) == Used(v, p))
            && (Used(v, q) >= 0 ==> Used(v', q) >= 0)
            && 0 <= ChildDebt(v', l) <= ChildDebt(v, l)
            && (l.user != q.user || l.market !in ChildrenOf(v, q) ==> ChildDebt(v', l) == ChildDebt(v, l))
  {
    var v1 := WrittenOff(v, q, total);
    WrittenOffReads(v, q, total, p, l);
    WrittenOffNonNegative(v, q, total);
    ClearReads(v1, q, ChildrenOf(v, q), total, p, l);
  }

  lemma WrittenOffNonNegative(v: VaultState, q: Position, total: int)
    requires LegsNonNegative(v)
    ensures LegsNonNegative(WrittenOff(v, q, total))
  {
    forall l ensures ChildDebt(WrittenOff(v, q, total), l) >= 0 {
      WrittenOffReads(v, q, total, q, l);
    }
  }

  /** A default brings the used credit down by the loss, as far as there are debts to write off. */
  lemma DefaultUsed(v: VaultState, q: Position, total: int)
    requires SoundDebts(v) && total > 0 && Distinct(ChildrenOf(v, q))
    ensures Used(ResolveParentDefault(v, q, total), q) ==
            SaturatingSub(Used(v, q), Min(total, Owed(v, q.user, ChildrenOf(v, q))))
  {
    var v1 := WrittenOff(v, q, total);
    var list := ChildrenOf(v, q);
    forall c: nat ensures ChildDebt(v1, Leg(c, q.user)) == ChildDebt(v, Leg(c, q.user)) {
      WrittenOffReads(v, q, total, q, Leg(c, q.user));
    }
    WrittenOffReads(v, q, total, q, Leg(0, q.user));
    WrittenOffNonNegative(v, q, total);
    OwedSame(v, v1, q.user, list);
    ClearUsed(v1, q, list, total);
  }

  lemma {:induction false} ClearSigns(v: VaultState, q: Position, list: seq<nat>, remaining: int)
    requires DebtorsSign(v) && q.user.Account?
    ensures DebtorsSign(ClearChildren(v, q, list, remaining))
    decreases |list|
  {
    if list != [] && remaining != 0 {
      var leg := Leg(list[0], q.user);
      var owed := ChildDebt(v, leg);
      if owed == 0 {
        ClearSigns(v, q, list[1..], remaining);
      } else {
        var cleared := Min(owed, remaining);
        ClearSigns(ClearOne(v, q, leg, cleared), q, list[1..], remaining - cleared);
      }
    }
  }

  lemma DefaultSigns(v: VaultState, q: Position, total: int)
    requires DebtorsSign(v) && (total > 0 ==> q.user.Account?)
    ensures DebtorsSign(ResolveParentDefault(v, q, total))
  {
    if total > 0 {
      ClearSigns(WrittenOff(v, q, total), q, ChildrenOf(v, q), total);
    }
  }

  lemma DefaultSound(v: VaultState, q: Position, total: int)
    requires SoundDebts(v) && (total > 0 ==> q.user.Account?)
    ensures SoundDebts(ResolveParentDefault(v, q, total))
  {
    hide DebtorsSign;
    DefaultSigns(v, q, total);
    if total > 0 {
      var v' := ResolveParentDefault(v, q, total);
      DefaultFrame(v, q, total);
      forall p ensures 0 <= ParentDebt(v', p) <= Used(v', p) {
        DefaultReads(v, q, total, p, Leg(0, q.user));
      }
      forall l ensures ChildDebt(v', l) >= 0 {
        DefaultReads(v, q, total, q, l);
      }
    }
  }

  lemma DefaultOneLender(v: VaultState, q: Position, total: int)
    requires OneLender(v) && (total > 0 ==> q.user.Account?)
    ensures OneLender(ResolveParentDefault(v, q, total))
  {
    hide DebtorsSign;
    var v' := ResolveParentDefault(v, q, total);
    DefaultSound(v, q, total);
    DefaultFrame(v, q, total);
    forall p | total > 0 ensures ParentDebt(v', p) <= Owed(v', p.user, ChildrenOf(v', p)) {
      var list := ChildrenOf(v, p);
      DefaultReads(v, q, total, p, Leg(0, q.user));
      OwedNonNegative(v', p.user, list);
      if p != q {
        forall c | c in list ensures ChildDebt(v', Leg(c, p.user)) == ChildDebt(v, Leg(c, p.user)) {
          assert LendsTo(v, p, Leg(c, p.user));
          DefaultReads(v, q, total, p, Leg(c, p.user));
        }
        OwedSame(v, v', p.user, list);
      }
    }
  }

  /** A loss keeps used credit equal to debt exactly when it is all that the position owed, or more. */
  lemma DefaultMatched(v: VaultState, q: Position, total: int)
    requires OneLender(v) && Matched(v) && total > 0
    ensures Matched(ResolveParentDefault(v, q, total)) <==> total >= ParentDebt(v, q)
  {
    var v' := ResolveParentDefault(v, q, total);
    DefaultUsed(v, q, total);
    DefaultReads(v, q, total, q, Leg(0, q.user));
    assert Used(v', q) == SaturatingSub(Used(v, q), total);
    forall p | p != q ensures Used(v', p) == ParentDebt(v', p) {
      DefaultReads(v, q, total, p, Leg(0, q.user));
    }
  }

  // ---------------------------------------------------------------- the liquidation waterfall

  lemma {:induction false} SettleChildrenSound(v: VaultState, user: Address, list: seq<nat>, pool: int)
    requires SoundDebts(v) && pool >= 0
    ensures var (v', repaid) := SettleChildren(v, user, list, pool);
            SoundDebts(v') && v'.credit == v.credit && 0 <= repaid <= pool
    decreases |list|
  {
    hide SettleChildDebt, SoundDebts;
    if list != [] && pool != 0 {
      var leg := Leg(list[0], user);
      SettleStep(v, leg, pool);
      var (v1, applied) := SettleChildDebt(v, leg, pool);
      SettleChildrenSound(v1, user, list[1..], pool - applied);
    }
  }

  lemma SettleStep(v: VaultState, leg: Leg, pool: int)
    requires SoundDebts(v) && pool >= 0
    ensures var (v', x) := SettleChildDebt(v, leg, pool);
            SoundDebts(v') && v'.credit == v.credit && 0 <= x <= pool
  {
    SettleSound(v, leg, pool);
    SettleFrame(v, leg, pool);
    SettleReads(v, leg, pool, Position(0, leg.user, Yes));
  }

  lemma {:induction false} SettleChildrenOneLender(v: VaultState, user: Address, list: seq<nat>, pool: int)
    requires OneLender(v) && pool >= 0
    ensures OneLender(SettleChildren(v, user, list, pool).0)
    ensures Matched(v) ==> Matched(SettleChildren(v, user, list, pool).0)
    decreases |list|
  {
    hide SettleChildDebt, Matched;
    if list != [] && pool != 0 {
      var leg := Leg(list[0], user);
      SettleStep(v, leg, pool);
      SettleOneLender(v, leg, pool);
      var (v1, applied) := SettleChildDebt(v, leg, pool);
      SettleChildrenOneLender(v1, user, list[1..], pool - applied);
    }
  }

  /** Settling never raises a debt. */
  lemma {:induction false} SettleChildrenFalls(
    v: VaultState, user: Address, list: seq<nat>, pool: int, q: Position, l: Leg)
    requires SoundDebts(v) && pool >= 0
    ensures var v' := SettleChildren(v, user, list, pool).0;
            ParentDebt(v', q) <= ParentDebt(v, q) && ChildDebt(v', l) <= ChildDebt(v, l)
    decreases |list|
  {
    hide SettleChildDebt, SoundDebts;
    if list != [] && pool != 0 {
      var leg := Leg(list[0], user);
      SettleStep(v, leg, pool);
      SettleReads(v, leg, pool, q);
      SettleLegReads(v, leg, pool, l);
      SettleLegReads(v, leg, pool, leg);
      var (v1, applied) := SettleChildDebt(v, leg, pool);
      SettleChildrenFalls(v1, user, list[1..], pool - applied, q, l);
    }
  }

  /** A settlement that leaves money over leaves nothing to pay, here or upstream. */
  lemma SettleExhausts(v: VaultState, leg: Leg, pool: int, q: Position)
    requires SoundDebts(v) && LendsTo(v, q, leg)
    ensures var (v', applied) := SettleChildDebt(v, leg, pool);
            applied < pool ==> ParentDebt(v', q) == 0 || ChildDebt(v', leg) == 0
  {
  }

  lemma {:induction false} SettleChildrenExhausts(v: VaultState, q: Position, list: seq<nat>, pool: int)
    requires SoundDebts(v) && pool >= 0
    requires forall c :: c in list ==> LendsTo(v, q, Leg(c, q.user))
    ensures var (v', repaid) := SettleChildren(v, q.user, list, pool);
            repaid < pool ==> ParentDebt(v', q) == 0 || Owed(v', q.user, list) == 0
    decreases |list|
  {
    hide SettleChildDebt;
    if list != [] && pool != 0 {
      var leg := Leg(list[0], q.user);
      assert list[0] in list;
      SettleStep(v, leg, pool);
      SettleExhausts(v, leg, pool, q);
      SettleReads(v, leg, pool, q);
      SettleLegReads(v, leg, pool, leg);
      var (v1, applied) := SettleChildDebt(v, leg, pool);
      SettleChildrenExhausts(v1, q, list[1..], pool - applied);
      SettleChildrenSound(v1, q.user, list[1..], pool - applied);
      SettleChildrenFalls(v1, q.user, list[1..], pool - applied, q, leg);
    }
  }

  /** What the listed legs pay comes off the position's debt. */
  lemma {:induction false} SettleChildrenTotal(v: VaultState, q: Position, list: seq<nat>, pool: int)
    requires SoundDebts(v) && pool >= 0
    requires forall c :: c in list ==> LendsTo(v, q, Leg(c, q.user))
    ensures var (v', repaid) := SettleChildren(v, q.user, list, pool);
            ParentDebt(v', q) == ParentDebt(v, q) - repaid && Used(v', q) == Used(v, q) - repaid
    decreases |list|
  {
    hide SettleChildDebt, SoundDebts;
    if list != [] && pool != 0 {
      var leg := Leg(list[0], q.user);
      assert list[0] in list;
      SettleStep(v, leg, pool);
      SettleReads(v, leg, pool, q);
      var (v1, applied) := SettleChildDebt(v, leg, pool);
      SettleChildrenTotal(v1, q, list[1..], pool - applied);
    }
  }

  /** Paying out of a pool, with each leg drawn against one position: money is left over only if the
      position owes nothing any more. */
  lemma WaterfallSettles(v: VaultState, q: Position, pool: int)
    requires OneLender(v) && pool >= 0
    ensures var (v', repaid) := SettleChildren(v, q.user, ChildrenOf(v, q), pool);
            && OneLender(v') && (Matched(v) ==> Matched(v'))
            && 0 <= repaid <= pool
            && ParentDebt(v', q) == ParentDebt(v, q) - repaid
            && (repaid < pool ==> ParentDebt(v', q) == 0)
  {
    var list := ChildrenOf(v, q);
    assert forall c :: c in list ==> LendsTo(v, q, Leg(c, q.user));
    SettleChildrenSound(v, q.user, list, pool);
    SettleChildrenOneLender(v, q.user, list, pool);
    SettleChildrenExhausts(v, q, list, pool);
    SettleChildrenTotal(v, q, list, pool);
    var v' := SettleChildren(v, q.user, list, pool).0;
    assert ChildrenOf(v', q) == list;
  }

  /** Writing off all that a position used leaves it with nothing used and nothing owed. */
  lemma DefaultClears(v: VaultState, q: Position)
    requires OneLender(v) && Matched(v)
    ensures var v' := ResolveParentDefault(v, q, Used(v, q));
            OneLender(v') && Matched(v') && ParentDebt(v', q) == 0 && Used(v', q) == 0
  {
    DefaultOneLender(v, q, Used(v, q));
    if Used(v, q) > 0 {
      DefaultMatched(v, q, Used(v, q));
      DefaultReads(v, q, Used(v, q), q, Leg(0, q.user));
    }
  }

  /** The waterfall, with every leg drawn against one position and used credit equal to debt: afterwards the
      position owes nothing and has used nothing. */
  lemma RouteProceedsClears(v: VaultState, q: Position, pool: int)
    requires OneLender(v) && Matched(v) && pool >= 0
    ensures var v' := RouteProceeds(v, q, pool).0;
            OneLender(v') && Matched(v') && ParentDebt(v', q) == 0 && Used(v', q) == 0
  {
    WaterfallSettles(v, q, pool);
    DefaultClears(SettleChildren(v, q.user, ChildrenOf(v, q), pool).0, q);
  }

  /** Money is left for the user only after the whole debt was repaid out of the pool; then no default is
      booked and the insurance reserve is not touched. */
  lemma RemainderMeansRepaid(v: VaultState, q: Position, pool: int)
    requires OneLender(v) && Matched(v) && pool >= 0
    ensures var (v', repaid) := RouteProceeds(v, q, pool);
            repaid < pool ==>
              && repaid == ParentDebt(v, q)
              && v'.purse == v.purse
              && forall m: nat :: AccountOf(v', m).loans.defaulted == AccountOf(v, m).loans.defaulted
  {
    WaterfallSettles(v, q, pool);
    SettleChildrenLosesNothing(v, q.user, ChildrenOf(v, q), pool);
  }

  lemma {:induction false} SettleChildrenLosesNothing(v: VaultState, user: Address, list: seq<nat>, pool: int)
    ensures var v' := SettleChildren(v, user, list, pool).0;
            && v'.purse == v.purse
            && forall m: nat :: AccountOf(v', m).loans.defaulted == AccountOf(v, m).loans.defaulted
    decreases |list|
  {
    if list != [] && pool != 0 {
      var leg := Leg(list[0], user);
      var (v1, applied) := SettleChildDebt(v, leg, pool);
      forall m: nat ensures AccountOf(v1, m).loans.defaulted == AccountOf(v, m).loans.defaulted {
        SettleLoans(v, leg, pool, m);
      }
      SettleChildrenLosesNothing(v1, user, list[1..], pool - applied);
    }
  }

  // ---------------------------------------------------------------- closing one leg

  /** Closing a leg keeps used credit equal to debt exactly when the pool covers the leg's debt or that debt
      covers the parent position's. Otherwise the rest of the parent's debt is dropped without being booked. */
  lemma CloseLegMatched(v: VaultState, leg: Leg, pool: int)
    requires OneLender(v) && Matched(v) && pool >= 0 && HasParent(v, leg)
    ensures OneLender(CloseLeg(v, leg, pool).0)
    ensures Matched(CloseLeg(v, leg, pool).0) <==>
            pool >= ChildDebt(v, leg) || ChildDebt(v, leg) >= ParentDebt(v, Lender(v, leg))
  {
    hide DebtorsSign, ResolveParentDefault;
    var q := Lender(v, leg);
    var (v1, applied) := SettleChildDebt(v, leg, pool);
    SettleOneLender(v, leg, pool);
    SettleFrame(v, leg, pool);
    SettleLegReads(v, leg, pool, leg);
    SettleReads(v, leg, pool, q);
    LenderSigns(v, leg);
    var left := ChildDebt(v1, leg);
    DefaultOneLender(v1, q, left);
    if left > 0 {
      DefaultMatched(v1, q, left);
    }
  }

  lemma CloseLegSound(v: VaultState, leg: Leg, pool: int)
    requires SoundDebts(v) && pool >= 0
    ensures SoundDebts(CloseLeg(v, leg, pool).0)
    ensures OneLender(v) ==> OneLender(CloseLeg(v, leg, pool).0)
  {
    var v1 := SettleChildDebt(v, leg, pool).0;
    SettleSound(v, leg, pool);
    SettleFrame(v, leg, pool);
    if ChildDebt(v1, leg) > 0 {
      DefaultSound(v1, Lender(v1, leg), ChildDebt(v1, leg));
    }
    if OneLender(v) {
      SettleOneLender(v, leg, pool);
      if ChildDebt(v1, leg) > 0 {
        DefaultOneLender(v1, Lender(v1, leg), ChildDebt(v1, leg));
      }
    }
  }

  /** The default booked on the parent when a leg is closed. */
  function Charged(v: VaultState, leg: Leg, pool: int): int
    requires HasParent(v, leg)
  {
    var m := Lender(v, leg).market;
    AccountOf(CloseLeg(v, leg, pool).0, m).loans.defaulted - AccountOf(v, m).loans.defaulted
  }

  /** Closing a leg books exactly the debt that was lost, unless the leg's record exceeds what its parent
      position still owed: then the parent is charged the excess too, although nobody lost it. */
  lemma CloseLegCharge(v: VaultState, leg: Leg, pool: int)
    requires SoundDebts(v) && HasParent(v, leg) && pool > 0
    ensures var debt, upstream := ChildDebt(v, leg), ParentDebt(v, Lender(v, leg));
            && (Charged(v, leg, pool) == Min(debt, upstream) - CloseLeg(v, leg, pool).1
                <==> upstream == 0 || debt <= upstream)
            && (upstream > 0 ==> Charged(v, leg, pool) == debt - CloseLeg(v, leg, pool).1)
  {
    var q := Lender(v, leg);
    var (v1, applied) := SettleChildDebt(v, leg, pool);
    SettleFrame(v, leg, pool);
    SettleLoans(v, leg, pool, q.market);
    DefaultLoans(v1, q, ChildDebt(v1, leg));
    SettleSound(v, leg, pool);
    SettleLegReads(v, leg, pool, leg);
  }

  lemma SettleLoans(v: VaultState, leg: Leg, repayment: int, m: nat)
    ensures AccountOf(SettleChildDebt(v, leg, repayment).0, m).loans.defaulted == AccountOf(v, m).loans.defaulted
  {
  }

  lemma DefaultLoans(v: VaultState, q: Position, total: int)
    ensures AccountOf(ResolveParentDefault(v, q, total), q.market).loans.defaulted ==
            AccountOf(v, q.market).loans.defaulted + (if total > 0 then total else 0)
  {
    if total > 0 {
      ClearChildrenBooks(WrittenOff(v, q, total), q, ChildrenOf(v, q), total);
    }
  }

  // ---------------------------------------------------------------- every operation

  /** A step that leaves the debt records and their links alone. */
  ghost predicate SameDebts(v: VaultState, v': VaultState) {
    v'.debts == v.debts && v'.credit.lender == v.credit.lender && v'.credit.children == v.credit.children
  }

  lemma SameDebtsKeeps(v: VaultState, v': VaultState)
    requires SoundDebts(v) && SameDebts(v, v')
    ensures Keeps(v, v')
  {
    assert forall q :: ParentDebt(v', q) == ParentDebt(v, q) && Used(v', q) == Used(v, q);
    assert forall l :: ChildDebt(v', l) == ChildDebt(v, l);
    assert forall q :: ChildrenOf(v', q) == ChildrenOf(v, q);
    forall q | OneLender(v) ensures ParentDebt(v', q) <= Owed(v', q.user, ChildrenOf(v', q)) {
      OwedSame(v, v', q.user, ChildrenOf(v, q));
    }
  }

  lemma SettleKeeps(v: VaultState, leg: Leg, repayment: int)
    requires SoundDebts(v)
    ensures Keeps(v, SettleChildDebt(v, leg, repayment).0)
  {
    SettleSound(v, leg, repayment);
    if OneLender(v) {
      SettleOneLender(v, leg, repayment);
    }
  }

  lemma RouteProceedsKeeps(v: VaultState, q: Position, pool: int)
    requires SoundDebts(v) && pool >= 0
    ensures Keeps(v, RouteProceeds(v, q, pool).0)
  {
    SettleChildrenSound(v, q.user, ChildrenOf(v, q), pool);
    var v1 := SettleChildren(v, q.user, ChildrenOf(v, q), pool).0;
    DefaultSound(v1, q, Used(v1, q));
    if OneLender(v) {
      SettleChildrenOneLender(v, q.user, ChildrenOf(v, q), pool);
      DefaultOneLender(v1, q, Used(v1, q));
      if Matched(v) {
        RouteProceedsClears(v, q, pool);
      }
    }
  }

  lemma WithholdKeeps(v: VaultState, q: Position, claim: int)
    requires SoundDebts(v) && claim >= 0
    ensures Keeps(v, Withhold(v, q, claim).0)
  {
    var kept := Min(claim, ParentDebt(v, q));
    if ParentDebt(v, q) > 0 && kept > 0 {
      RepayKeeps(v, q, kept);
      SameDebtsKeeps(RepayLender(v, q, kept), Withhold(v, q, claim).0);
    }
  }

  lemma DefaultIfWorthlessKeeps(v: VaultState, q: Position, gross: int)
    requires SoundDebts(v)
    ensures Keeps(v, DefaultIfWorthless(v, q, gross))
  {
    var total := ParentDebt(v, q);
    if gross == 0 && total > 0 {
      DefaultSound(v, q, total);
      if OneLender(v) {
        DefaultOneLender(v, q, total);
        if Matched(v) {
          DefaultMatched(v, q, total);
        }
      }
    }
  }

  lemma ReleaseKeeps(v: VaultState, reg: RegistryState, q: Position, tokensSold: int, payout: int)
    requires SoundDebts(v) && ReleaseTradePayout(v, reg, q, tokensSold, payout).Ok?
    ensures Keeps(v, ReleaseTradePayout(v, reg, q, tokensSold, payout).value)
  {
    SameDebtsKeeps(v, ReleaseTradePayout(v, reg, q, tokensSold, payout).value);
  }

  lemma OpenCreditKeeps(v: VaultState, reg: RegistryState, q: Position, c: nat, amount: int)
    requires SoundDebts(v) && OpenCredit(v, reg, q, c, amount).Ok? && q.user.Account?
    ensures var v' := OpenCredit(v, reg, q, c, amount).value;
            SoundDebts(v') && (DrawsFrom(v, q, c) ==> Keeps(v, v'))
  {
    var v1 := RecordCredit(v, q, c, amount);
    RecordCreditSound(v, q, c, amount);
    if OneLender(v) && DrawsFrom(v, q, c) {
      RecordCreditOneLender(v, q, c, amount);
    }
    SameDebtsKeeps(v1, OpenCredit(v, reg, q, c, amount).value);
  }

  /** The leg into c either has no lender yet or already draws from q. */
  predicate DrawsFrom(v: VaultState, q: Position, c: nat) {
    HasParent(v, Leg(c, q.user)) ==> Lender(v, Leg(c, q.user)) == q
  }

  lemma RepayChildCollateralKeeps(v: VaultState, reg: RegistryState, leg: Leg, amount: int)
    requires SoundDebts(v) && RepayChildCollateral(v, reg, leg, amount).Ok?
    ensures Keeps(v, RepayChildCollateral(v, reg, leg, amount).value.0)
  {
    var v0 := Receive(v, amount);
    SameDebtsKeeps(v, v0);
    SettleKeeps(v0, leg, amount);
    SameDebtsKeeps(SettleChildDebt(v0, leg, amount).0, RepayChildCollateral(v, reg, leg, amount).value.0);
  }

  lemma PayOutKeeps(routed: (VaultState, int), proceeds: int, bonus: int)
    requires SoundDebts(routed.0) && PayOut(routed, proceeds, bonus).Ok?
    ensures Keeps(routed.0, PayOut(routed, proceeds, bonus).value.0)
  {
    SameDebtsKeeps(routed.0, PayOut(routed, proceeds, bonus).value.0);
  }

  lemma LiquidateReleaseKeeps(v: VaultState, reg: RegistryState, q: Position, tokensSold: int, proceeds: int)
    requires SoundDebts(v) && LiquidateRelease(v, reg, q, tokensSold, proceeds).Ok?
    ensures Keeps(v, LiquidateRelease(v, reg, q, tokensSold, proceeds).value.0)
  {
    hide ShareProceeds;
    var v1 := ExtractProceeds(v, q, tokensSold, proceeds).value;
    SameDebtsKeeps(v, v1);
    BpsBounds(proceeds, LIQUIDATION_BONUS_BPS);
    ShareProceedsKeeps(v1, q, proceeds, Bps(proceeds, LIQUIDATION_BONUS_BPS));
  }

  lemma ShareProceedsKeeps(v: VaultState, q: Position, proceeds: int, bonus: int)
    requires SoundDebts(v) && bonus <= proceeds && ShareProceeds(v, q, proceeds, bonus).Ok?
    ensures Keeps(v, ShareProceeds(v, q, proceeds, bonus).value.0)
  {
    hide RouteProceeds, PayOut;
    RouteProceedsKeeps(v, q, proceeds - bonus);
    PayOutKeeps(RouteProceeds(v, q, proceeds - bonus), proceeds, bonus);
  }

  lemma LiquidateChildReleaseSound(
    v: VaultState, reg: RegistryState, q: Position, tokensSold: int, proceeds: int)
    requires SoundDebts(v) && LiquidateChildRelease(v, reg, q, tokensSold, proceeds).Ok?
    ensures var v' := LiquidateChildRelease(v, reg, q, tokensSold, proceeds).value.0;
            SoundDebts(v') && (OneLender(v) ==> OneLender(v'))
  {
    hide ShareLegProceeds;
    var leg := Leg(q.market, q.user);
    var v1 := ExtractProceeds(v, q, tokensSold, proceeds).value;
    SameDebtsKeeps(v, v1);
    BpsBounds(proceeds, LIQUIDATION_BONUS_BPS);
    ShareLegProceedsSound(v1, leg, proceeds, Bps(proceeds, LIQUIDATION_BONUS_BPS));
  }

  lemma ShareLegProceedsSound(v: VaultState, leg: Leg, proceeds: int, bonus: int)
    requires SoundDebts(v) && bonus <= proceeds && ShareLegProceeds(v, leg, proceeds, bonus).Ok?
    ensures var v' := ShareLegProceeds(v, leg, proceeds, bonus).value.0;
            SoundDebts(v') && (OneLender(v) ==> OneLender(v'))
  {
    hide CloseLeg, PayOut;
    CloseLegSound(v, leg, proceeds - bonus);
    PayOutKeeps(CloseLeg(v, leg, proceeds - bonus), proceeds, bonus);
  }

  lemma PayUpstreamKeeps(v: VaultState, leg: Leg, claim: int)
    requires SoundDebts(v)
    ensures var (v', paid) := PayUpstream(v, leg, claim);
            Keeps(v, v') && (claim >= 0 ==> 0 <= paid <= claim)
  {
    var v1 := SettleChildDebt(v, leg, claim).0;
    SettleKeeps(v, leg, claim);
    SettleFrame(v, leg, claim);
    SettleReads(v, leg, claim, Position(0, leg.user, Yes));
    SameDebtsKeeps(v1, PayUpstream(v, leg, claim).0);
  }

  lemma ClaimAfterUpstreamKeeps(v: VaultState, q: Position, gross: int, upstream: int)
    requires SoundDebts(v) && upstream <= gross
    ensures Keeps(v, ClaimAfterUpstream(v, q, gross, upstream).0)
  {
    WithholdKeeps(v, q, gross - upstream);
    DefaultIfWorthlessKeeps(Withhold(v, q, gross - upstream).0, q, gross);
  }

  lemma ClaimAfterDebtKeeps(v: VaultState, q: Position, gross: int)
    requires SoundDebts(v) && gross >= 0
    ensures Keeps(v, ClaimAfterDebt(v, q, gross).0)
  {
    PayUpstreamKeeps(v, Leg(q.market, q.user), gross);
    var (v1, upstream) := PayUpstream(v, Leg(q.market, q.user), gross);
    ClaimAfterUpstreamKeeps(v1, q, gross, upstream);
  }

  lemma SettleClaimKeeps(v: VaultState, q: Position, gross: int)
    requires SoundDebts(v) && gross >= 0 && SettleClaim(v, q, gross).Ok?
    ensures Keeps(v, SettleClaim(v, q, gross).value.0)
  {
    ClaimAfterDebtKeeps(v, q, gross);
    SettleClaimFrame(v, q, gross);
    SameDebtsKeeps(ClaimAfterDebt(v, q, gross).0, SettleClaim(v, q, gross).value.0);
  }

  lemma SettleClaimFrame(v: VaultState, q: Position, gross: int)
    requires SettleClaim(v, q, gross).Ok?
    ensures SameDebts(ClaimAfterDebt(v, q, gross).0, SettleClaim(v, q, gross).value.0)
  {
  }

  lemma SettleRefundKeeps(v: VaultState, q: Position, gross: int)
    requires SoundDebts(v) && gross >= 0 && SettleRefund(v, q, gross).Ok?
    ensures Keeps(v, SettleRefund(v, q, gross).value.0)
  {
    WithholdKeeps(v, q, gross);
    var v1 := Withhold(v, q, gross).0;
    DefaultIfWorthlessKeeps(v1, q, gross);
    SameDebtsKeeps(DefaultIfWorthless(v1, q, gross), SettleRefund(v, q, gross).value.0);
  }

  // ---------------------------------------------------------------- a leg drawn against two positions

  /** A leg listed by one position but drawn first on another pays that other position's debt. */
  lemma LiquidateTheOther(v: VaultState, first: Position, second: Position, c: nat, d1: int, d2: int, pool: int)
    requires first != second && first.market == second.market && 0 < d1 < pool && d2 > 0
    requires ChildrenOf(v, second) == [c] && Used(v, second) == d2
    requires LendsTo(v, first, Leg(c, second.user))
    requires ParentDebt(v, first) == d1 && ChildDebt(v, Leg(c, second.user)) >= d1
    ensures var (v', repaid) := RouteProceeds(v, second, pool);
            && repaid == d1
            && ParentDebt(v', first) == 0
            && AccountOf(v', first.market).loans.defaulted == AccountOf(v, first.market).loans.defaulted + d2
  {
    PayTheOther(v, first, second, c, d1, pool);
    var v1 := SettleChildren(v, second.user, [c], pool).0;
    DefaultLoans(v1, second, d2);
    SettleLoans(v, Leg(c, second.user), pool, first.market);
    DefaultKeepsOther(v1, second, d2, first);
  }

  lemma PayTheOther(v: VaultState, first: Position, second: Position, c: nat, d: int, pool: int)
    requires first != second && 0 < d < pool && LendsTo(v, first, Leg(c, second.user))
    requires ParentDebt(v, first) == d && ChildDebt(v, Leg(c, second.user)) >= d
    ensures var (v', x) := SettleChildren(v, second.user, [c], pool);
            && v' == SettleChildDebt(v, Leg(c, second.user), pool).0 && x == d
            && ParentDebt(v', first) == 0 && Used(v', second) == Used(v, second)
  {
    var (v1, x) := SettleChildDebt(v, Leg(c, second.user), pool);
    assert SettleChildren(v1, second.user, [], pool - x) == (v1, 0);
    assert [c][1..] == [];
  }

  lemma DefaultKeepsOther(v: VaultState, q: Position, total: int, p: Position)
    requires p != q
    ensures ParentDebt(ResolveParentDefault(v, q, total), p) == ParentDebt(v, p)
  {
    if total > 0 {
      ClearParentDebts(WrittenOff(v, q, total), q, ChildrenOf(v, q), total);
    }
  }

  lemma {:induction false} ClearParentDebts(v: VaultState, q: Position, list: seq<nat>, remaining: int)
    ensures ClearChildren(v, q, list, remaining).debts.parentDebt == v.debts.parentDebt
    decreases |list|
  {
    if list != [] && remaining != 0 {
      var leg := Leg(list[0], q.user);
      var owed := ChildDebt(v, leg);
      if owed == 0 {
        ClearParentDebts(v, q, list[1..], remaining);
      } else {
        var cleared := Min(owed, remaining);
        ClearParentDebts(ClearOne(v, q, leg, cleared), q, list[1..], remaining - cleared);
      }
    }
  }
}
