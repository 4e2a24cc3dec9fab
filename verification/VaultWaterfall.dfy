// The liquidation waterfall without any assumption on how legs were drawn: what it pays a position, and exactly
// when money that is left over means that nothing was lost.

module VaultWaterfall {
  import opened Basics
  import opened DikeTypes
  import opened VaultLedger
  import opened VaultDebts

  /** What the listed legs that draw on this very position owe together. */
  function OwedTo(v: VaultState, q: Position, list: seq<nat>): int {
    if list == [] then 0
    else
      (if LendsTo(v, q, Leg(list[0], q.user)) then ChildDebt(v, Leg(list[0], q.user)) else 0)
      + OwedTo(v, q, list[1..])
  }

  lemma {:induction false} OwedToSame(v: VaultState, v': VaultState, q: Position, list: seq<nat>)
    requires v'.credit.lender == v.credit.lender
    requires forall c :: c in list ==> ChildDebt(v', Leg(c, q.user)) == ChildDebt(v, Leg(c, q.user))
    ensures OwedTo(v', q, list) == OwedTo(v, q, list)
    decreases |list|
  {
    if list != [] {
      assert list[0] in list;
      OwedToSame(v, v', q, list[1..]);
    }
  }

  lemma {:induction false} OwedToNonNegative(v: VaultState, q: Position, list: seq<nat>)
    requires LegsNonNegative(v)
    ensures 0 <= OwedTo(v, q, list) <= Owed(v, q.user, list)
    decreases |list|
  {
    if list != [] {
      OwedToNonNegative(v, q, list[1..]);
    }
  }

  // ---------------------------------------------------------------- what the loop pays

  /** What one leg pays of a position's debt. */
  lemma SettlePays(v: VaultState, leg: Leg, pool: int, q: Position)
    requires SoundDebts(v) && pool >= 0
    ensures var (v', applied) := SettleChildDebt(v, leg, pool);
            var paid := ParentDebt(v, q) - ParentDebt(v', q);
            && Used(v', q) == Used(v, q) - paid
            && (!LendsTo(v, q, leg) ==> paid == 0)
            && (LendsTo(v, q, leg) ==>
                  paid == applied <= Min(ParentDebt(v, q), ChildDebt(v, leg))
                  && (applied < pool ==> paid == Min(ParentDebt(v, q), ChildDebt(v, leg))))
  {
    SettleReads(v, leg, pool, q);
  }

  /** The loop over the child list takes no more off a position than it owes and than the legs that draw on it owe,
      and exactly the smaller of the two when money is left over. */
  lemma {:induction false} WaterfallPays(v: VaultState, q: Position, list: seq<nat>, pool: int)
    requires SoundDebts(v) && pool >= 0 && Distinct(list)
    ensures var (v', repaid) := SettleChildren(v, q.user, list, pool);
            var paid := ParentDebt(v, q) - ParentDebt(v', q);
            && Used(v', q) == Used(v, q) - paid
            && 0 <= paid <= Min(ParentDebt(v, q), OwedTo(v, q, list))
            && (repaid < pool ==> paid == Min(ParentDebt(v, q), OwedTo(v, q, list)))
    decreases |list|
  {
    hide SettleChildDebt, LendsTo;
    PositionSound(v, q);
    LegsSound(v);
    OwedToNonNegative(v, q, list);
    if list != [] && pool != 0 {
      var leg, rest := Leg(list[0], q.user), list[1..];
      SettleStep(v, leg, pool);
      SettlePays(v, leg, pool, q);
      var (v1, applied) := SettleChildDebt(v, leg, pool);
      RestUntouched(v, leg, pool, q, rest);
      SettleChildrenSound(v1, q.user, rest, pool - applied);
      WaterfallPays(v1, q, rest, pool - applied);
    }
  }

  lemma PositionSound(v: VaultState, q: Position)
    requires SoundDebts(v)
    ensures 0 <= ParentDebt(v, q) <= Used(v, q)
  {
  }

  lemma LegsSound(v: VaultState)
    requires SoundDebts(v)
    ensures LegsNonNegative(v)
  {
  }

  lemma RestUntouched(v: VaultState, leg: Leg, pool: int, q: Position, rest: seq<nat>)
    requires SoundDebts(v) && leg.user == q.user && leg.market !in rest
    ensures OwedTo(SettleChildDebt(v, leg, pool).0, q, rest) == OwedTo(v, q, rest)
  {
    hide SettleChildDebt, SoundDebts;
    var v1 := SettleChildDebt(v, leg, pool).0;
    forall c | c in rest ensures ChildDebt(v1, Leg(c, q.user)) == ChildDebt(v, Leg(c, q.user)) {
      SettleLegReads(v, leg, pool, Leg(c, q.user));
    }
    SettleLegReads(v, leg, pool, leg);
    OwedToSame(v, v1, q, rest);
  }

  lemma {:induction false} PaysNoMoreThanOwed(v: VaultState, user: Address, list: seq<nat>, pool: int)
    requires SoundDebts(v) && pool >= 0
    ensures SettleChildren(v, user, list, pool).1 <= Owed(v, user, list)
    decreases |list|
  {
    hide SettleChildDebt;
    if list != [] {
      OwedNonNegative(v, user, list);
      if pool != 0 {
        var leg, rest := Leg(list[0], user), list[1..];
        SettleStep(v, leg, pool);
        SettleReads(v, leg, pool, Position(0, user, Yes));
        var (v1, applied) := SettleChildDebt(v, leg, pool);
        SettleLegReads(v, leg, pool, leg);
        PaysNoMoreThanOwed(v1, user, rest, pool - applied);
        OwedFalls(v, v1, user, rest, leg, pool);
      }
    }
  }

  lemma {:induction false} OwedFalls(v: VaultState, v1: VaultState, user: Address, list: seq<nat>, leg: Leg, pool: int)
    requires SoundDebts(v) && v1 == SettleChildDebt(v, leg, pool).0
    ensures Owed(v1, user, list) <= Owed(v, user, list)
    decreases |list|
  {
    hide SettleChildDebt, SoundDebts;
    if list != [] {
      SettleLegReads(v, leg, pool, Leg(list[0], user));
      SettleLegReads(v, leg, pool, leg);
      SettleReads(v, leg, pool, Position(0, user, Yes));
      OwedFalls(v, v1, user, list[1..], leg, pool);
    }
  }

  // ---------------------------------------------------------------- what is lost

  /** No market's defaults grew. */
  ghost predicate NothingLost(v: VaultState, v': VaultState) {
    forall m: nat :: AccountOf(v', m).loans.defaulted == AccountOf(v, m).loans.defaulted
  }

  /** The credit a position uses is all owed, and legs that draw on it owe at least that much. */
  predicate Recoverable(v: VaultState, q: Position) {
    Used(v, q) == ParentDebt(v, q) && ParentDebt(v, q) <= OwedTo(v, q, ChildrenOf(v, q))
  }

  /** When money is left of the pool, nothing was lost if and only if the position was recoverable before. */
  lemma LeftoverExactly(v: VaultState, q: Position, pool: int)
    requires SoundDebts(v) && Distinct(ChildrenOf(v, q)) && pool >= 0
    requires RouteProceeds(v, q, pool).1 < pool
    ensures NothingLost(v, RouteProceeds(v, q, pool).0) <==> Recoverable(v, q)
  {
    hide SettleChildren, ResolveParentDefault, SoundDebts, Distinct;
    var list := ChildrenOf(v, q);
    WaterfallPays(v, q, list, pool);
    PositionSound(v, q);
    var v1 := SettleChildren(v, q.user, list, pool).0;
    SettleChildrenLosesNothing(v, q.user, list, pool);
    var v' := RouteProceeds(v, q, pool).0;
    DefaultLoans(v1, q, Used(v1, q));
    if Used(v1, q) > 0 {
      assert AccountOf(v', q.market).loans.defaulted > AccountOf(v, q.market).loans.defaulted;
    } else {
      assert v' == v1 by {
        NoLossNoChange(v1, q, Used(v1, q));
      }
    }
  }

  lemma NoLossNoChange(v: VaultState, q: Position, total: int)
    requires total <= 0
    ensures ResolveParentDefault(v, q, total) == v
  {
  }

  /** The promise of the waterfall, for every amount of proceeds: whatever is left over is left after all losses
      were made good. It is kept if and only if the position is recoverable. */
  lemma LeftoverPromise(v: VaultState, q: Position)
    requires SoundDebts(v) && Distinct(ChildrenOf(v, q))
    ensures (forall pool: nat :: RouteProceeds(v, q, pool).1 < pool ==> NothingLost(v, RouteProceeds(v, q, pool).0))
            <==> Recoverable(v, q)
  {
    hide SoundDebts, Distinct, Recoverable, NothingLost;
    var list := ChildrenOf(v, q);
    forall pool: nat | RouteProceeds(v, q, pool).1 < pool
      ensures NothingLost(v, RouteProceeds(v, q, pool).0) <==> Recoverable(v, q)
    {
      LeftoverExactly(v, q, pool);
    }
    LegsSound(v);
    OwedToNonNegative(v, q, list);
    var ample := Owed(v, q.user, list) + 1;
    PaysNoMoreThanOwed(v, q.user, list, ample);
    assert RouteProceeds(v, q, ample).1 < ample;
  }

  /** What a position is left with in any case: no debt, and of its used credit what neither the pool nor a write-off
      of the listed legs reached. */
  lemma RouteLeaves(v: VaultState, q: Position, pool: int)
    requires SoundDebts(v) && Distinct(ChildrenOf(v, q)) && pool >= 0
    ensures var list := ChildrenOf(v, q);
            var (v1, v') := (SettleChildren(v, q.user, list, pool).0, RouteProceeds(v, q, pool).0);
            && ParentDebt(v', q) == 0
            && (Used(v', q) == 0 <==> Used(v1, q) <= Owed(v1, q.user, list))
  {
    hide SettleChildren, ResolveParentDefault, Distinct;
    var list := ChildrenOf(v, q);
    SettleChildrenSound(v, q.user, list, pool);
    var v1 := SettleChildren(v, q.user, list, pool).0;
    PositionSound(v1, q);
    OwedNonNegative(v1, q.user, list);
    assert ChildrenOf(v1, q) == list;
    if Used(v1, q) > 0 {
      DefaultReads(v1, q, Used(v1, q), q, Leg(0, q.user));
      DefaultUsed(v1, q, Used(v1, q));
    } else {
      NoLossNoChange(v1, q, Used(v1, q));
    }
  }

  /** The used credit that neither the pool nor a write-off of the listed legs reaches. */
  function LeftUsed(v: VaultState, q: Position, pool: int): int {
    var list := ChildrenOf(v, q);
    var v1 := SettleChildren(v, q.user, list, pool).0;
    SaturatingSub(Used(v1, q), Owed(v1, q.user, list))
  }

  /** A liquidation leaves exactly that much in use. */
  lemma RouteLeavesUsed(v: VaultState, q: Position, pool: int)
    requires SoundDebts(v) && Distinct(ChildrenOf(v, q)) && pool >= 0
    ensures Used(RouteProceeds(v, q, pool).0, q) == LeftUsed(v, q, pool)
  {
    hide SettleChildren, ResolveParentDefault, Distinct;
    var list := ChildrenOf(v, q);
    SettleChildrenSound(v, q.user, list, pool);
    var v1 := SettleChildren(v, q.user, list, pool).0;
    PositionSound(v1, q);
    OwedNonNegative(v1, q.user, list);
    assert ChildrenOf(v1, q) == list;
    if Used(v1, q) > 0 {
      DefaultUsed(v1, q, Used(v1, q));
    } else {
      NoLossNoChange(v1, q, Used(v1, q));
    }
  }

  /** As long as the position still owes, its legs owe what they owed less what was paid. */
  lemma {:induction false} LegsStillOwe(v: VaultState, q: Position, list: seq<nat>, pool: int)
    requires SoundDebts(v) && pool >= 0 && Distinct(list)
    ensures var v' := SettleChildren(v, q.user, list, pool).0;
            ParentDebt(v', q) > 0 ==>
              OwedTo(v', q, list) == OwedTo(v, q, list) - (ParentDebt(v, q) - ParentDebt(v', q))
    decreases |list|
  {
    hide SettleChildDebt, LendsTo, SoundDebts;
    if list != [] && pool != 0 {
      var leg, rest := Leg(list[0], q.user), list[1..];
      SettleStep(v, leg, pool);
      var (v1, applied) := SettleChildDebt(v, leg, pool);
      RestUntouched(v, leg, pool, q, rest);
      LegsStillOwe(v1, q, rest, pool - applied);
      WaterfallPays(v1, q, rest, pool - applied);
      OwingLegPays(v, leg, pool, q);
      var v' := SettleChildren(v1, q.user, rest, pool - applied).0;
      LegDone(v1, q, leg, rest, pool - applied);
      SettleChildrenSound(v1, q.user, rest, pool - applied);
      SameLender(v, v1, v', q, leg);
    }
  }

  /** While the position it draws on owes, a leg loses what it pays. */
  lemma OwingLegPays(v: VaultState, leg: Leg, pool: int, q: Position)
    requires SoundDebts(v) && pool >= 0
    ensures var v' := SettleChildDebt(v, leg, pool).0;
            LendsTo(v, q, leg) && ParentDebt(v', q) > 0 ==>
              ChildDebt(v', leg) == ChildDebt(v, leg) - (ParentDebt(v, q) - ParentDebt(v', q))
    ensures !LendsTo(v, q, leg) ==> ParentDebt(SettleChildDebt(v, leg, pool).0, q) == ParentDebt(v, q)
  {
    SettleReads(v, leg, pool, q);
  }

  lemma SameLender(v: VaultState, v1: VaultState, v2: VaultState, q: Position, leg: Leg)
    requires v1.credit == v.credit && v2.credit == v1.credit
    ensures LendsTo(v2, q, leg) == LendsTo(v, q, leg)
  {
  }

  /** A leg that the rest of the list does not name keeps its debt. */
  lemma {:induction false} LegDone(v: VaultState, q: Position, leg: Leg, rest: seq<nat>, pool: int)
    requires SoundDebts(v) && pool >= 0 && leg.user == q.user && leg.market !in rest
    ensures ChildDebt(SettleChildren(v, q.user, rest, pool).0, leg) == ChildDebt(v, leg)
    decreases |rest|
  {
    hide SettleChildDebt, SoundDebts;
    if rest != [] && pool != 0 {
      var first := Leg(rest[0], q.user);
      SettleStep(v, first, pool);
      SettleLegReads(v, first, pool, leg);
      var (v1, applied) := SettleChildDebt(v, first, pool);
      LegDone(v1, q, leg, rest[1..], pool - applied);
    }
  }

  /** Nothing stays in use of a recoverable position, whatever the sale brought. */
  lemma RecoverableLeaves(v: VaultState, q: Position, pool: int)
    requires SoundDebts(v) && Distinct(ChildrenOf(v, q)) && pool >= 0 && Recoverable(v, q)
    ensures LeftUsed(v, q, pool) == 0
  {
    hide SettleChildren, Distinct, SoundDebts;
    var list := ChildrenOf(v, q);
    WaterfallPays(v, q, list, pool);
    LegsStillOwe(v, q, list, pool);
    SettleChildrenSound(v, q.user, list, pool);
    var v1 := SettleChildren(v, q.user, list, pool).0;
    LegsSound(v1);
    OwedToNonNegative(v1, q, list);
    PositionSound(v1, q);
  }

  /** The loop reads debts and links only. */
  lemma SettleSame(v: VaultState, w: VaultState, leg: Leg, pool: int)
    requires w.debts == v.debts && w.credit.lender == v.credit.lender
    ensures var ((v', x), (w', y)) := (SettleChildDebt(v, leg, pool), SettleChildDebt(w, leg, pool));
            x == y && w'.debts == v'.debts && w'.credit == w.credit && v'.credit == v.credit
  {
  }

  lemma {:induction false} SettleChildrenSame(v: VaultState, w: VaultState, user: Address, list: seq<nat>, pool: int)
    requires w.debts == v.debts && w.credit.lender == v.credit.lender
    ensures SettleChildren(w, user, list, pool).0.debts == SettleChildren(v, user, list, pool).0.debts
    decreases |list|
  {
    hide SettleChildDebt;
    if list != [] && pool != 0 {
      SettleSame(v, w, Leg(list[0], user), pool);
      var (v1, applied) := SettleChildDebt(v, Leg(list[0], user), pool);
      SettleChildrenSame(v1, SettleChildDebt(w, Leg(list[0], user), pool).0, user, list[1..], pool - applied);
    }
  }

  lemma LeftUsedSame(v: VaultState, w: VaultState, q: Position, pool: int)
    requires w.debts == v.debts && w.credit.lender == v.credit.lender && w.credit.children == v.credit.children
    ensures LeftUsed(w, q, pool) == LeftUsed(v, q, pool)
  {
    hide SettleChildren;
    var list := ChildrenOf(v, q);
    assert ChildrenOf(w, q) == list;
    SettleChildrenSame(v, w, q.user, list, pool);
    OwedSame(SettleChildren(v, q.user, list, pool).0, SettleChildren(w, q.user, list, pool).0, q.user, list);
  }

  /** After a default the used credit equals the debt exactly when the loss and the listed legs both cover it. */
  lemma DefaultMatchesAt(v: VaultState, q: Position, total: int)
    requires SoundDebts(v) && Distinct(ChildrenOf(v, q)) && total > 0
    ensures var v' := ResolveParentDefault(v, q, total);
            && ParentDebt(v', q) == 0
            && (Used(v', q) == ParentDebt(v', q) <==>
                  Used(v, q) <= total && Used(v, q) <= Owed(v, q.user, ChildrenOf(v, q)))
  {
    hide ResolveParentDefault, Distinct;
    PositionSound(v, q);
    OwedNonNegative(v, q.user, ChildrenOf(v, q));
    DefaultReads(v, q, total, q, Leg(0, q.user));
    DefaultUsed(v, q, total);
  }

  /** Closing one leg keeps the used credit of its parent position equal to the debt: as before when the pool covered
      the leg, and otherwise exactly when both the rest of the leg and the listed legs cover what is still used. */
  lemma CloseLegMatchesAt(v: VaultState, leg: Leg, pool: int)
    requires SoundDebts(v) && HasParent(v, leg) && Distinct(ChildrenOf(v, Lender(v, leg))) && pool >= 0
    ensures var q := Lender(v, leg);
            var (v1, v') := (SettleChildDebt(v, leg, pool).0, CloseLeg(v, leg, pool).0);
            Used(v', q) == ParentDebt(v', q) <==>
              if ChildDebt(v1, leg) == 0 then Used(v, q) == ParentDebt(v, q)
              else Used(v1, q) <= ChildDebt(v1, leg) && Used(v1, q) <= Owed(v1, q.user, ChildrenOf(v, q))
  {
    hide SettleChildDebt, ResolveParentDefault, Distinct;
    var q := Lender(v, leg);
    SettleStep(v, leg, pool);
    SettlePays(v, leg, pool, q);
    var v1 := SettleChildDebt(v, leg, pool).0;
    assert ChildrenOf(v1, q) == ChildrenOf(v, q) && HasParent(v1, leg) && Lender(v1, leg) == q;
    if ChildDebt(v1, leg) > 0 {
      DefaultMatchesAt(v1, q, ChildDebt(v1, leg));
    }
  }
}
