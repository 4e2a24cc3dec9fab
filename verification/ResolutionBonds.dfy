// The bonds kept under a request's number, over every run. Locking a bond is a public call of the vault, so they
// are the oracle's own exactly as long as nobody locks one past the oracle.

module ResolutionBonds {
  import opened Basics
  import opened DikeTypes
  import opened MarketRegistry
  import opened CouncilVoting
  import opened CodOracle
  import opened ResolutionLaws
  import V = VaultLedger

  /** All bonds under a request's number. */
  function BondsUnder(id: nat, bonds: map<V.BondKey, V.Bond>): map<V.BondKey, V.Bond> {
    map key | key in bonds && key.request == id :: bonds[key]
  }

  /** The bonds a request should hold: none while requested, the proposer's once proposed, both sides' once
      disputed, each of exactly the agreed amount; and nothing of them is left once it is finalized. */
  function BondsDue(id: nat, r: Request): map<V.BondKey, V.Bond>
    requires WellStated(r)
  {
    var amount := if r.status == OracleStatus.Finalized then 0 else r.question.bond;
    var bond := V.Bond(amount, r.question.market);
    if r.proposal.None? then map[]
    else if r.dispute.None? then map[ProposalKey(id, r.proposal.value) := bond]
    else map[ProposalKey(id, r.proposal.value) := bond, DisputeKey(id, r.dispute.value) := bond]
  }

  /** Somewhere in the run a bond is locked under the number without the oracle. */
  predicate LockedPast(w: World, turns: seq<Turn>, id: nat)
    decreases |turns|
  {
    turns != [] &&
    (Intrudes(w, turns[0], id) || LockedPast(Step(w, turns[0].now, turns[0].move), turns[1..], id))
  }

  predicate Intrudes(w: World, turn: Turn, id: nat) {
    turn.move.DirectLock? && turn.move.key.request == id && Apply(w, turn.now, turn.move).Ok?
  }

  /** Every bond under the number is one of a side of the request. */
  ghost predicate OnlySides(w: World, id: nat) {
    forall key :: key in w.vault.escrow.bonds && key.request == id ==> OfASide(w.oracle, key)
  }

  predicate OfASide(o: OracleState, key: V.BondKey) {
    key.request in o.requests && !NobodysKey(o, key)
  }

  lemma ReportedSides(w: World, id: nat, outcome: Outcome, key: V.BondKey)
    requires Orderly(w, false) && ReportOutcome(w, id, outcome).Ok?
    ensures var w' := ReportOutcome(w, id, outcome).value;
            && (key in w'.vault.escrow.bonds <==> key in w.vault.escrow.bonds)
            && (OfASide(w.oracle, key) ==> OfASide(w'.oracle, key))
  {
    hide ReportOutcome, TidyRequest, TidyMarket, TidyCase, TidyReferral;
    ReportedRequest(w, id, outcome);
    ReportTidy(w, id, outcome, false);
    ReportedLocks(w, id);
  }

  lemma ReportedLocks(w: World, id: nat)
    requires id in w.oracle.requests && TidyRequest(w, id, false)
    requires w.oracle.requests[id].proposal.Some? && w.oracle.requests[id].dispute.Some?
    ensures var r := w.oracle.requests[id];
            ProposalKey(id, r.proposal.value) in w.vault.escrow.bonds
            && DisputeKey(id, r.dispute.value) in w.vault.escrow.bonds
  {
  }

  lemma StepSides(w: World, now: nat, move: Move, id: nat, key: V.BondKey)
    requires Orderly(w, false) && OnlySides(w, id) && key.request == id && !Intrudes(w, Turn(now, move), id)
    ensures key in Step(w, now, move).vault.escrow.bonds ==> OfASide(Step(w, now, move).oracle, key)
  {
    hide Orderly, RegisterMarket, Transition, CloseTrading, CloseForRequest, MarkResolutionRequested, SetFinalOutcome,
         V.LockBond, V.UnlockBond, ReportOutcome, FinalizeCase, Perform, OpenCase;
    if Apply(w, now, move).Ok? {
      match move
      case Ask(m, terms) => NotTheNextAny(w);
      case Assert(who, other, outcome, evidence) =>
        var r := w.oracle.requests[other];
        var q := r.question;
        WellStatedRequest(w, other);
        LockEscrow(w.vault, w.reg, ProposalKey(other, Statement(who, outcome, evidence, now)), q.market, q.bond);
      case Contest(who, other, outcome, evidence) =>
        var q := w.oracle.requests[other].question;
        WellStatedRequest(w, other);
        LockEscrow(w.vault, w.reg, DisputeKey(other, Statement(who, outcome, evidence, now)), q.market, q.bond);
      case Settle(other) =>
        var r := w.oracle.requests[other];
        UnlockEscrow(w.vault, ProposalKey(other, r.proposal.value), r.proposal.value.who, r.question.bond);
      case Report(caseId) =>
        FinalizeFrame(w.council, now, caseId);
        var (council, outcome) := FinalizeCase(w.council, now, caseId).value;
        CouncilOrderly(w, council, false);
        ReportedSides(w.(council := council), w.council.cases[caseId].request, outcome, key);
      case DirectLock(other, m, amount) =>
        LockEscrow(w.vault, w.reg, other, m, amount);
      case _ =>
    }
  }

  lemma NotTheNextAny(w: World)
    requires Orderly(w, false)
    ensures w.oracle.nextId !in w.oracle.requests
  {
    hide TidyMarket, TidyCase, TidyReferral;
    if w.oracle.nextId in w.oracle.requests {
      NotTheNext(w, w.oracle.nextId, false);
    }
  }

  lemma WellStatedRequest(w: World, id: nat)
    requires Orderly(w, false) && id in w.oracle.requests
    ensures WellStated(w.oracle.requests[id])
  {
    hide TidyMarket, TidyCase, TidyReferral, WellStated, HoldsBonds;
    assert TidyRequest(w, id, false);
  }

  lemma {:induction false} RunSides(w: World, turns: seq<Turn>, id: nat)
    requires Orderly(w, false) && OnlySides(w, id) && !LockedPast(w, turns, id)
    ensures OnlySides(Run(w, turns), id)
    decreases |turns|
  {
    hide Orderly, Step, Intrudes, OfASide;
    if turns != [] {
      var w' := Step(w, turns[0].now, turns[0].move);
      forall key | key in w'.vault.escrow.bonds && key.request == id
        ensures OfASide(w'.oracle, key)
      {
        StepSides(w, turns[0].now, turns[0].move, id, key);
      }
      StepOrderly(w, turns[0].now, turns[0].move);
      RunSides(w', turns[1..], id);
    }
  }

  lemma StepOrderly(w: World, now: nat, move: Move)
    requires Orderly(w, false)
    ensures Orderly(Step(w, now, move), false)
  {
    hide Orderly, Apply;
    if Apply(w, now, move).Ok? {
      ApplyOrderly(w, now, move, false);
    }
  }

  /** A bond that gets past the oracle is nobody's and stays. */
  lemma IntruderStrays(w: World, turn: Turn, id: nat) returns (key: V.BondKey, bond: V.Bond)
    requires Orderly(w, false) && Intrudes(w, turn, id)
    ensures key.request == id && bond.amount > 0 && Stray(Step(w, turn.now, turn.move), key, bond)
  {
    hide TidyMarket, TidyCase, TidyReferral, V.LockBond;
    key, bond := turn.move.key, V.Bond(turn.move.amount, turn.move.market);
    LockEscrow(w.vault, w.reg, key, turn.move.market, turn.move.amount);
    LockedAmount(w.vault, w.reg, key, turn.move.market, turn.move.amount);
    if id in w.oracle.requests {
      assert TidyRequest(w, id, false);
    }
  }

  lemma LockedAmount(v: V.VaultState, reg: RegistryState, key: V.BondKey, m: nat, amount: int)
    requires V.LockBond(v, reg, key, m, amount).Ok?
    ensures amount > 0
  {
  }

  lemma {:induction false} RunIntruded(w: World, turns: seq<Turn>, id: nat) returns (key: V.BondKey, bond: V.Bond)
    requires Orderly(w, false) && LockedPast(w, turns, id)
    ensures key.request == id && bond.amount > 0 && Stray(Run(w, turns), key, bond)
    decreases |turns|
  {
    hide Orderly, Step, Intrudes, Stray;
    var w' := Step(w, turns[0].now, turns[0].move);
    if Intrudes(w, turns[0], id) {
      key, bond := IntruderStrays(w, turns[0], id);
      RunStray(w', turns[1..], key, bond);
    } else {
      StepOrderly(w, turns[0].now, turns[0].move);
      key, bond := RunIntruded(w', turns[1..], id);
    }
  }

  /** In every run, whatever governance does: the bonds under a request's number are exactly those its status
      calls for if and only if nobody locked one under it past the oracle. */
  lemma BondsAreExact(turns: seq<Turn>, id: nat)
    ensures var w := Run(BEGINNING, turns);
            id in w.oracle.requests ==>
              && WellStated(w.oracle.requests[id])
              && (BondsUnder(id, w.vault.escrow.bonds) == BondsDue(id, w.oracle.requests[id])
                  <==> !LockedPast(BEGINNING, turns, id))
  {
    hide Run, Orderly, HoldsBonds, LockedPast;
    BeginningOrderly();
    RunOrderly(BEGINNING, turns, false);
    var w := Run(BEGINNING, turns);
    if id in w.oracle.requests {
      WellStatedRequest(w, id);
      BondLifecycle(turns, id);
      if LockedPast(BEGINNING, turns, id) {
        var key, bond := RunIntruded(BEGINNING, turns, id);
        StrayIsNotDue(w, id, key, bond);
      } else {
        RunSides(BEGINNING, turns, id);
        SidesAreDue(w, id);
      }
    }
  }

  lemma StrayIsNotDue(w: World, id: nat, key: V.BondKey, bond: V.Bond)
    requires id in w.oracle.requests && WellStated(w.oracle.requests[id])
    requires key.request == id && Stray(w, key, bond)
    ensures BondsUnder(id, w.vault.escrow.bonds) != BondsDue(id, w.oracle.requests[id])
  {
    assert key in BondsUnder(id, w.vault.escrow.bonds);
    assert key !in BondsDue(id, w.oracle.requests[id]);
  }

  lemma SidesAreDue(w: World, id: nat)
    requires id in w.oracle.requests && WellStated(w.oracle.requests[id])
    requires HoldsBonds(id, w.oracle.requests[id], w.vault.escrow.bonds) && OnlySides(w, id)
    ensures BondsUnder(id, w.vault.escrow.bonds) == BondsDue(id, w.oracle.requests[id])
  {
    var r := w.oracle.requests[id];
    var under, due := BondsUnder(id, w.vault.escrow.bonds), BondsDue(id, r);
    forall key ensures key in under <==> key in due {
      if key in under {
        assert OfASide(w.oracle, key);
      }
    }
    forall key | key in due ensures under[key] == due[key] {
    }
  }

  /** A stranger's bond under number 1, locked before the first request is even made, stays there next to the
      none that the request calls for. */
  lemma StrangersBondStays(terms: Terms, user: Address, isDispute: bool, amount: int)
    requires terms.rulesUri != "" && terms.bondAmount > 0 && terms.disputeWindow > 0 && terms.expiry > 0
    requires user.Account? && amount > 0
    ensures var key := V.BondKey(1, user, isDispute);
            var turns := [Turn(0, Move.Market(terms)), Turn(0, DirectLock(key, 1, amount)),
                          Turn(terms.expiry, Ask(1, terms))];
            var w := Run(BEGINNING, turns);
            && 1 in w.oracle.requests && w.oracle.requests[1].status == OracleStatus.Requested
            && BondsUnder(1, w.vault.escrow.bonds) == map[key := V.Bond(amount, 1)]
  {
    hide Step, BondsUnder;
    var key := V.BondKey(1, user, isDispute);
    var t1, t2 := Turn(0, Move.Market(terms)), Turn(0, DirectLock(key, 1, amount));
    var t3 := Turn(terms.expiry, Ask(1, terms));
    ThreeTurns(BEGINNING, t1, t2, t3);
    var w1 := Step(BEGINNING, t1.now, t1.move);
    MarketOpens(terms);
    StrangerLocks(w1, key, amount);
    var w2 := Step(w1, t2.now, t2.move);
    RequestFollows(w2, terms, key, amount);
  }

  lemma ThreeTurns(w: World, t1: Turn, t2: Turn, t3: Turn)
    ensures Run(w, [t1, t2, t3]) ==
            Step(Step(Step(w, t1.now, t1.move), t2.now, t2.move), t3.now, t3.move)
  {
    hide Step;
    assert [t1, t2, t3][1..] == [t2, t3] && [t2, t3][1..] == [t3] && [t3][1..] == [];
    var w1 := Step(w, t1.now, t1.move);
    var w2 := Step(w1, t2.now, t2.move);
    assert Run(w, [t1, t2, t3]) == Run(w1, [t2, t3]);
    assert Run(w1, [t2, t3]) == Run(w2, [t3]);
  }

  lemma StrangerLocks(w: World, key: V.BondKey, amount: int)
    requires 1 in w.reg.markets && w.vault == V.EMPTY_VAULT && key.user.Account? && amount > 0
    ensures var w' := Step(w, 0, DirectLock(key, 1, amount));
            w'.reg == w.reg && w'.oracle == w.oracle && w'.vault.escrow.bonds == map[key := V.Bond(amount, 1)]
  {
    hide V.AddBonds, V.AccountOf;
    LockEscrow(w.vault, w.reg, key, 1, amount);
  }

  lemma RequestFollows(w: World, terms: Terms, key: V.BondKey, amount: int)
    requires terms.rulesUri != "" && terms.bondAmount > 0 && terms.disputeWindow > 0
    requires 1 in w.reg.markets && w.reg.markets[1].status == Live && w.reg.markets[1].terms == terms
    requires !w.reg.markets[1].hasFinal && w.oracle == BEGINNING.oracle && key.request == 1
    requires w.vault.escrow.bonds == map[key := V.Bond(amount, 1)]
    ensures var w' := Step(w, terms.expiry, Ask(1, terms));
            && 1 in w'.oracle.requests && w'.oracle.requests[1].status == OracleStatus.Requested
            && BondsUnder(1, w'.vault.escrow.bonds) == map[key := V.Bond(amount, 1)]
  {
  }

  lemma MarketOpens(terms: Terms)
    requires terms.rulesUri != "" && terms.bondAmount > 0 && terms.disputeWindow > 0 && terms.expiry > 0
    ensures var w := Step(BEGINNING, 0, Move.Market(terms));
            && w.reg.markets == map[1 := w.reg.markets[1]] && 1 in w.reg.markets
            && w.reg.markets[1].status == Live && w.reg.markets[1].terms == terms && !w.reg.markets[1].hasFinal
            && w.reg.paused == false && w.vault == V.EMPTY_VAULT && w.oracle == BEGINNING.oracle
  {
  }
}
