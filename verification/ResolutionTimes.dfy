// Time in the resolution: nothing is asked before a market has expired, nobody is heard after his window, and no
// outcome is final before its windows are over, in every run with a forward clock.

module ResolutionTimes {
  import opened Basics
  import opened DikeTypes
  import opened MarketRegistry
  import opened BondSplits
  import opened CouncilVoting
  import opened CodOracle
  import opened ResolutionLaws
  import opened ResolutionVerdict
  import opened ResolutionCouncil
  import V = VaultLedger

  // ---------------------------------------------------------------- what moves keep

  /** A market keeps its terms. */
  ghost predicate KeepsTerms(reg: RegistryState, reg': RegistryState) {
    forall m :: m in reg.markets ==> m in reg'.markets && reg'.markets[m].terms == reg.markets[m].terms
  }

  lemma FreshMarket(w: World, strict: bool)
    requires Orderly(w, strict)
    ensures w.reg.nextId !in w.reg.markets
  {
    hide TidyRequest, TidyCase, TidyReferral;
    assert w.reg.nextId in w.reg.markets ==> TidyMarket(w, w.reg.nextId, strict);
  }

  lemma MoveKeepsTerms(w: World, now: nat, move: Move)
    requires Orderly(w, false) && Apply(w, now, move).Ok?
    ensures KeepsTerms(w.reg, Apply(w, now, move).value.reg)
  {
    hide Orderly, V.LockBond, V.UnlockBond, PayBonds, FinalizeCase, Perform, OpenCase;
    FreshMarket(w, false);
  }

  /** A case keeps its request and its windows, and a request its case. */
  ghost predicate KeepsWindows(c: CouncilState, c': CouncilState) {
    && (forall k :: k in c.cases ==>
          k in c'.cases && c'.cases[k].window == c.cases[k].window && c'.cases[k].request == c.cases[k].request)
    && (forall id :: id in c.byRequest ==> id in c'.byRequest && c'.byRequest[id] == c.byRequest[id])
  }

  lemma ActKeepsWindows(c: CouncilState, clock: nat, now: nat, act: Act)
    requires FairCouncil(c, clock) && Perform(c, now, act).Ok?
    ensures KeepsWindows(c, Perform(c, now, act).value)
  {
    hide FairVote, FairReward, Verdict, RewardShare;
  }

  lemma {:induction false} ActsKeepWindows(c: CouncilState, clock: nat, acts: seq<Moment>)
    requires FairCouncil(c, clock) && Ordered(clock, acts)
    ensures KeepsWindows(c, PerformAll(c, acts))
    decreases |acts|
  {
    hide FairCouncil, Perform;
    if acts != [] {
      var now, act := acts[0].now, acts[0].act;
      LaterFair(c, clock, now);
      if Perform(c, now, act).Ok? {
        ActKeepsWindows(c, clock, now, act);
        PerformFair(c, clock, now, act);
        ActsKeepWindows(Perform(c, now, act).value, now, acts[1..]);
      } else {
        ActsKeepWindows(c, now, acts[1..]);
      }
    }
  }

  lemma {:induction false} SameMoment(clock: nat, now: nat, acts: seq<Moment>)
    requires clock <= now && forall i :: 0 <= i < |acts| ==> acts[i].now == now
    ensures Ordered(clock, acts)
    decreases |acts|
  {
    if acts != [] {
      assert forall i :: 0 <= i < |acts[1..]| ==> acts[1..][i] == acts[i + 1];
      SameMoment(now, now, acts[1..]);
    }
  }

  lemma MoveKeepsWindows(w: World, clock: nat, now: nat, move: Move)
    requires Orderly(w, false) && FairCouncil(w.council, clock) && clock <= now && Apply(w, now, move).Ok?
    ensures KeepsWindows(w.council, Apply(w, now, move).value.council)
  {
    hide Orderly, FairCouncil, Apply, ActsOf, PerformAll;
    MoveActs(w, now, move);
    SameMoment(clock, now, ActsOf(w, now, move));
    ActsKeepWindows(w.council, clock, ActsOf(w, now, move));
  }

  // ---------------------------------------------------------------- the invariant

  /** The times of a request fit the terms of its market: asked after expiry, disputed within the window, and final
      without a dispute only after it. */
  predicate OnTime(w: World, clock: nat, id: nat)
    requires id in w.oracle.requests
  {
    var r := w.oracle.requests[id];
    var (q, m) := (r.question, r.question.market);
    && m in w.reg.markets
    && var terms := w.reg.markets[m].terms;
    && q.bond == terms.bondAmount && q.window == terms.disputeWindow && terms.expiry <= clock
    && (r.proposal.Some? ==> terms.expiry <= r.proposal.value.at <= clock)
    && (r.dispute.Some? ==>
          r.proposal.Some? && r.proposal.value.at <= r.dispute.value.at <= r.proposal.value.at + q.window
          && r.dispute.value.at <= clock)
    && (r.status == OracleStatus.Finalized && r.dispute.None? ==>
          r.proposal.Some? && r.proposal.value.at + q.window < clock)
  }

  /** The windows of its case: one to commit, starting after the dispute, and one as long to reveal. */
  predicate CaseOnTime(w: World, id: nat)
    requires id in w.oracle.requests
  {
    var r := w.oracle.requests[id];
    id in w.council.byRequest && w.council.byRequest[id] in w.council.cases ==>
      r.dispute.Some?
      && var window := w.council.cases[w.council.byRequest[id]].window;
      && r.dispute.value.at + r.question.window <= window.commitEnd
      && window.revealEnd == window.commitEnd + r.question.window
  }

  ghost predicate AllOnTime(w: World, clock: nat) {
    forall id :: id in w.oracle.requests ==> OnTime(w, clock, id) && CaseOnTime(w, id)
  }

  lemma RequestKept(w: World, clock: nat, w': World, now: nat, id: nat)
    requires id in w.oracle.requests && OnTime(w, clock, id) && clock <= now && KeepsTerms(w.reg, w'.reg)
    requires id in w'.oracle.requests && w'.oracle.requests[id] == w.oracle.requests[id]
    ensures OnTime(w', now, id)
  {
  }

  lemma CaseKept(w: World, w': World, id: nat)
    requires id in w.oracle.requests && CaseOnTime(w, id) && KeepsWindows(w.council, w'.council)
    requires id in w'.oracle.requests && w'.oracle.requests[id].question == w.oracle.requests[id].question
    requires w'.oracle.requests[id].dispute == w.oracle.requests[id].dispute
    requires id in w'.council.byRequest ==> id in w.council.byRequest
    requires id in w.council.byRequest ==> w.council.byRequest[id] in w.council.cases
    ensures CaseOnTime(w', id)
  {
  }

  lemma ReferredCase(w: World, id: nat)
    requires Orderly(w, false)
    ensures id in w.council.byRequest ==> w.council.byRequest[id] in w.council.cases
    ensures id in w.oracle.requests && id in w.council.byRequest ==> w.oracle.requests[id].dispute.Some?
    ensures id in w.oracle.requests && w.oracle.requests[id].status in {OracleStatus.Requested, OracleStatus.Proposed}
            ==> id !in w.council.byRequest && w.oracle.requests[id].dispute.None?
  {
    hide TidyMarket, TidyCase, HoldsBonds;
    assert id in w.council.byRequest ==> TidyReferral(w, id);
    assert id in w.oracle.requests ==> TidyRequest(w, id, false);
  }

  // ---------------------------------------------------------------- the moves

  lemma AskOnTime(w: World, clock: nat, now: nat, m: nat, terms: Terms)
    requires RequestResolution(w, now, m, terms).Ok? && clock <= now
    ensures var w' := RequestResolution(w, now, m, terms).value;
            && w'.oracle.requests.Keys == w.oracle.requests.Keys + {w.oracle.nextId}
            && (forall id :: id in w.oracle.requests && id != w.oracle.nextId ==>
                  w'.oracle.requests[id] == w.oracle.requests[id])
            && OnTime(w', now, w.oracle.nextId)
            && w'.council == w.council
  {
  }

  lemma AssertOnTime(w: World, clock: nat, now: nat, who: Address, id: nat, outcome: Outcome, evidence: string)
    requires Propose(w, now, who, id, outcome, evidence).Ok? && clock <= now
    requires id in w.oracle.requests && OnTime(w, clock, id) && w.oracle.requests[id].dispute.None?
    ensures var w' := Propose(w, now, who, id, outcome, evidence).value;
            && w'.oracle.requests == w.oracle.requests[id := w'.oracle.requests[id]] && OnTime(w', now, id)
            && w'.council == w.council && w'.oracle.requests[id].question == w.oracle.requests[id].question
  {
    hide V.LockBond;
  }

  lemma ContestOnTime(w: World, clock: nat, now: nat, who: Address, id: nat, outcome: Outcome, evidence: string)
    requires Dispute(w, now, who, id, outcome, evidence).Ok? && clock <= now
    requires id in w.oracle.requests && OnTime(w, clock, id)
    ensures var w' := Dispute(w, now, who, id, outcome, evidence).value;
            && w'.oracle.requests == w.oracle.requests[id := w'.oracle.requests[id]] && OnTime(w', now, id)
            && w'.council == w.council
  {
    hide V.LockBond;
  }

  lemma SettleOnTime(w: World, clock: nat, now: nat, id: nat)
    requires FinalizeUndisputed(w, now, id).Ok? && clock <= now
    requires id in w.oracle.requests && OnTime(w, clock, id) && w.oracle.requests[id].dispute.None?
    ensures var w' := FinalizeUndisputed(w, now, id).value.0;
            && w'.oracle.requests == w.oracle.requests[id := w'.oracle.requests[id]] && OnTime(w', now, id)
            && w'.council == w.council && w'.oracle.requests[id].question == w.oracle.requests[id].question
            && w'.oracle.requests[id].dispute == w.oracle.requests[id].dispute
  {
    hide V.UnlockBond;
  }

  /** A referral opens a case whose windows start now: one dispute window to commit, and one more to reveal. */
  lemma ReferralOpens(w: World, now: nat, id: nat)
    requires Escalate(w, now, id).Ok?
    ensures var w' := Escalate(w, now, id).value;
            && id in w.oracle.requests && w.oracle.requests[id].status == OracleStatus.Disputed
            && id !in w.council.byRequest && id in w'.council.byRequest
            && w'.council.byRequest[id] in w'.council.cases
            && var (r, x) := (w.oracle.requests[id], w'.council.cases[w'.council.byRequest[id]]);
            && x.request == id && x.final.None? && x.ballots == Ballots(map[], map[], map[])
            && (forall o :: x.tally.Of(o) == 0) && x.reward.pool == 0
            && x.window.commitEnd == now + r.question.window && x.window.revealEnd == now + 2 * r.question.window
            && w'.oracle.requests == w.oracle.requests[id := r.(status := OracleStatus.Escalated)]
            && r.question.market in w'.reg.markets && w'.reg.markets[r.question.market].status == CouncilVoting
            && w'.vault == w.vault
  {
  }

  lemma ReferOnTime(w: World, clock: nat, now: nat, id: nat)
    requires Escalate(w, now, id).Ok? && clock <= now && Orderly(w, false)
    requires id in w.oracle.requests && OnTime(w, clock, id)
    ensures var w' := Escalate(w, now, id).value;
            && w'.oracle.requests == w.oracle.requests[id := w'.oracle.requests[id]]
            && OnTime(w', now, id) && CaseOnTime(w', id)
            && (forall k :: k in w'.council.byRequest && k != id ==> k in w.council.byRequest)
  {
    hide Orderly;
    MoveKeepsTerms(w, now, Refer(id));
    ReferralOpens(w, now, id);
    OpenedCases(w, now, id);
  }

  lemma OpenedCases(w: World, now: nat, id: nat)
    requires Escalate(w, now, id).Ok?
    ensures forall k :: k in Escalate(w, now, id).value.council.byRequest && k != id ==> k in w.council.byRequest
  {
    hide Transition;
  }

  lemma ReportOnTime(w: World, clock: nat, now: nat, caseId: nat, id: nat)
    requires FinalizeAndReport(w, now, caseId).Ok? && clock <= now && Orderly(w, false)
    requires id in w.oracle.requests && OnTime(w, clock, id)
    requires KeepsTerms(w.reg, FinalizeAndReport(w, now, caseId).value.reg)
    ensures var w' := FinalizeAndReport(w, now, caseId).value;
            && w'.oracle.requests.Keys == w.oracle.requests.Keys && OnTime(w', now, id)
            && w'.oracle.requests[id].question == w.oracle.requests[id].question
            && w'.oracle.requests[id].dispute == w.oracle.requests[id].dispute
            && w'.council.byRequest == w.council.byRequest
  {
    hide Orderly, ReportOutcome, FinalizeCase;
    var (council, outcome) := FinalizeCase(w.council, now, caseId).value;
    FinalizeFrame(w.council, now, caseId);
    CouncilOrderly(w, council, false);
    var w1 := w.(council := council);
    var other := w.council.cases[caseId].request;
    ReportedRequests(w1, other, outcome);
    Disputed(w1, other, outcome);
  }

  lemma Disputed(w: World, id: nat, outcome: Outcome)
    requires ReportOutcome(w, id, outcome).Ok?
    ensures id in w.oracle.requests && w.oracle.requests[id].dispute.Some?
  {
    hide PayBonds, SetFinalOutcome;
  }

  /** Every accepted move leaves every request on time. */
  lemma StepOnTime(w: World, clock: nat, now: nat, move: Move, id: nat)
    requires Orderly(w, false) && FairCouncil(w.council, clock) && clock <= now && AllOnTime(w, clock)
    requires Apply(w, now, move).Ok? && id in Apply(w, now, move).value.oracle.requests
    ensures var w' := Apply(w, now, move).value; OnTime(w', now, id) && CaseOnTime(w', id)
  {
    hide Orderly, FairCouncil, KeepsWindows, KeepsTerms, Perform, RegisterMarket, Transition, CloseTrading, Escalate,
         FinalizeAndReport, RequestResolution, Propose, Dispute, FinalizeUndisputed, V.LockBond, OnTime, CaseOnTime;
    var w' := Apply(w, now, move).value;
    MoveKeepsTerms(w, now, move);
    MoveKeepsWindows(w, clock, now, move);
    ReferredCase(w, id);
    if id in w.oracle.requests {
      assert OnTime(w, clock, id) && CaseOnTime(w, id);
    }
    match move
    case Ask(m, terms) =>
      AskOnTime(w, clock, now, m, terms);
      NewRequestId(w, w.oracle.nextId);
      if id != w.oracle.nextId {
        RequestKept(w, clock, w', now, id);
        CaseKept(w, w', id);
      } else {
        NoCase(w', id);
      }
    case Assert(who, other, outcome, evidence) =>
      RequestThere(w, now, move, other);
      ReferredCase(w, other);
      if id == other {
        AssertOnTime(w, clock, now, who, other, outcome, evidence);
        NoCase(w', id);
      } else {
        OneRequestOnly(w, now, move, other);
        RequestKept(w, clock, w', now, id);
        CaseKept(w, w', id);
      }
    case Contest(who, other, outcome, evidence) =>
      RequestThere(w, now, move, other);
      ReferredCase(w, other);
      if id == other {
        ContestOnTime(w, clock, now, who, other, outcome, evidence);
        NoCase(w', id);
      } else {
        OneRequestOnly(w, now, move, other);
        RequestKept(w, clock, w', now, id);
        CaseKept(w, w', id);
      }
    case Settle(other) =>
      RequestThere(w, now, move, other);
      ReferredCase(w, other);
      if id == other {
        SettleOnTime(w, clock, now, other);
        CaseKept(w, w', id);
      } else {
        OneRequestOnly(w, now, move, other);
        RequestKept(w, clock, w', now, id);
        CaseKept(w, w', id);
      }
    case Refer(other) =>
      ReferralOpens(w, now, other);
      OpenedCases(w, now, other);
      if id == other {
        ReferOnTime(w, clock, now, other);
      } else {
        RequestKept(w, clock, w', now, id);
        CaseKept(w, w', id);
      }
    case Report(caseId) =>
      ReportedCases(w, now, caseId);
      ReportOnTime(w, clock, now, caseId, id);
      CaseKept(w, w', id);
    case Council(act) =>
      CouncilActFrame(w.council, now, act);
      RequestKept(w, clock, w', now, id);
      CaseKept(w, w', id);
    case _ =>
      RequestKept(w, clock, w', now, id);
      CaseKept(w, w', id);
  }

  lemma NewRequestId(w: World, id: nat)
    requires Orderly(w, false) && id == w.oracle.nextId
    ensures id !in w.oracle.requests && id !in w.council.byRequest
  {
    hide TidyMarket, TidyCase, WellStated, InLockstep, HoldsBonds;
    assert id in w.oracle.requests ==> TidyRequest(w, id, false);
    assert id in w.council.byRequest ==> TidyReferral(w, id);
  }

  lemma NoCase(w: World, id: nat)
    requires id in w.oracle.requests && id !in w.council.byRequest
    ensures CaseOnTime(w, id)
  {
  }

  lemma RequestThere(w: World, now: nat, move: Move, id: nat)
    requires Apply(w, now, move).Ok? && (move.Assert? || move.Contest? || move.Settle?) && move.request == id
    ensures id in w.oracle.requests
    ensures w.oracle.requests[id].status in {OracleStatus.Requested, OracleStatus.Proposed}
  {
    hide V.LockBond, V.UnlockBond, Transition, SetFinalOutcome;
  }

  lemma OneRequestOnly(w: World, now: nat, move: Move, id: nat)
    requires Apply(w, now, move).Ok? && (move.Assert? || move.Contest? || move.Settle?) && move.request == id
    ensures var w' := Apply(w, now, move).value;
            && w'.council == w.council
            && (forall k :: k != id && k in w'.oracle.requests ==>
                  k in w.oracle.requests && w'.oracle.requests[k] == w.oracle.requests[k])
  {
    hide V.LockBond, V.UnlockBond, Transition, SetFinalOutcome;
  }

  lemma ReportedCases(w: World, now: nat, caseId: nat)
    requires Orderly(w, false) && FinalizeAndReport(w, now, caseId).Ok?
    ensures FinalizeAndReport(w, now, caseId).value.oracle.requests.Keys == w.oracle.requests.Keys
  {
    hide Orderly, ReportOutcome, FinalizeCase;
    var (council, outcome) := FinalizeCase(w.council, now, caseId).value;
    FinalizeFrame(w.council, now, caseId);
    CouncilOrderly(w, council, false);
    ReportedRequests(w.(council := council), w.council.cases[caseId].request, outcome);
  }

  // ---------------------------------------------------------------- runs

  lemma {:induction false} RunOnTime(w: World, clock: nat, turns: seq<Turn>)
    requires Orderly(w, false) && FairCouncil(w.council, clock) && AllOnTime(w, clock) && Clocked(clock, turns)
    ensures AllOnTime(Run(w, turns), Latest(clock, turns))
    decreases |turns|
  {
    hide Orderly, FairCouncil, Apply, OnTime, CaseOnTime;
    if turns != [] {
      var now, move := turns[0].now, turns[0].move;
      LaterFair(w.council, clock, now);
      LaterOnTime(w, clock, now);
      if Apply(w, now, move).Ok? {
        var w' := Apply(w, now, move).value;
        ApplyFair(w, clock, now, move);
        ApplyOrderly(w, now, move, false);
        forall id | id in w'.oracle.requests
          ensures OnTime(w', now, id) && CaseOnTime(w', id)
        {
          StepOnTime(w, clock, now, move, id);
        }
      }
      RunOnTime(Step(w, now, move), now, turns[1..]);
    }
  }

  lemma LaterOnTime(w: World, clock: nat, now: nat)
    requires AllOnTime(w, clock) && clock <= now
    ensures AllOnTime(w, now)
  {
    forall id | id in w.oracle.requests ensures OnTime(w, now, id) {
      assert OnTime(w, clock, id) && CaseOnTime(w, id);
    }
  }

  lemma NothingAsked()
    ensures AllOnTime(BEGINNING, 0)
  {
  }

  /** Over every run, whatever governance does: a request stands on its market's own terms and was made after expiry; a
      proposal can be disputed only within the window; without a dispute the outcome is final only when the window is
      over, and with one only when two more windows are. */
  lemma NothingBeforeItsTime(turns: seq<Turn>, id: nat)
    requires Clocked(0, turns) && id in Run(BEGINNING, turns).oracle.requests
    ensures var (w, clock) := (Run(BEGINNING, turns), Latest(0, turns));
            var r := w.oracle.requests[id];
            var window := r.question.window;
            && r.question.market in w.reg.markets
            && var terms := w.reg.markets[r.question.market].terms;
            && r.question.bond == terms.bondAmount && window == terms.disputeWindow && terms.expiry <= clock
            && (r.proposal.Some? ==> terms.expiry <= r.proposal.value.at)
            && (r.dispute.Some? ==>
                  r.proposal.Some? && r.proposal.value.at <= r.dispute.value.at <= r.proposal.value.at + window)
            && (r.final.Some? ==>
                  r.proposal.Some?
                  && clock > (if r.dispute.Some? then r.dispute.value.at + 2 * window
                              else r.proposal.value.at + window))
  {
    hide Run, Orderly, FairCouncil, FairVote, HasVerdict;
    var w := ReachableDecisive(turns);
    BeginningOrderly();
    EmptyFair();
    NothingAsked();
    RunOnTime(BEGINNING, 0, turns);
    assert OnTime(w, Latest(0, turns), id) && CaseOnTime(w, id);
    var r := w.oracle.requests[id];
    FinalIsFinalized(w, id);
    if r.final.Some? && r.dispute.Some? {
      RevealsOver(w, Latest(0, turns), id);
    }
  }

  lemma FinalIsFinalized(w: World, id: nat)
    requires Orderly(w, false) && id in w.oracle.requests
    ensures var r := w.oracle.requests[id];
            && (r.final.Some? <==> r.status == OracleStatus.Finalized)
            && (r.final.Some? && r.dispute.None? ==> r.proposal.Some?)
  {
    hide TidyMarket, TidyCase, TidyReferral, HoldsBonds, InLockstep;
    assert TidyRequest(w, id, false);
  }

  lemma RevealsOver(w: World, clock: nat, id: nat)
    requires Decisive(w) && FairCouncil(w.council, clock) && id in w.oracle.requests
    requires w.oracle.requests[id].status == OracleStatus.Finalized && w.oracle.requests[id].dispute.Some?
    ensures id in w.council.byRequest && w.council.byRequest[id] in w.council.cases
    ensures clock > w.council.cases[w.council.byRequest[id]].window.revealEnd
  {
    hide FairVote;
    assert HasVerdict(w, id);
    assert FairReward(w.council.cases[w.council.byRequest[id]], clock);
  }

  // ---------------------------------------------------------------- who is heard when

  /** A proposal is settled exactly after its window, when the vault has the bond and the market still takes an outcome;
      up to the end of the window the answer is that it is open. */
  lemma SettlesExactly(turns: seq<Turn>, now: nat, id: nat)
    requires var w := Run(BEGINNING, turns);
             id in w.oracle.requests && w.oracle.requests[id].status == OracleStatus.Proposed
    ensures var w := Run(BEGINNING, turns);
            var r := w.oracle.requests[id];
            && r.proposal.Some?
            && var open := now <= r.proposal.value.at + r.question.window;
            && (FinalizeUndisputed(w, now, id).Ok? <==>
                  !open && Undecided(w.reg, r.question.market) && w.vault.purse.balance >= r.question.bond)
            && (FinalizeUndisputed(w, now, id) == Err(DisputeWindowOpen) <==> open)
  {
    hide Run, TidyMarket, TidyCase, TidyReferral, InLockstep, V.UnlockBond;
    BeginningOrderly();
    RunOrderly(BEGINNING, turns, false);
    var w := Run(BEGINNING, turns);
    assert TidyRequest(w, id, false);
    var r := w.oracle.requests[id];
    UnlockSucceeds(w.vault, ProposalKey(id, r.proposal.value), r.proposal.value.who, r.question.bond);
    NeverOpen(w.vault, ProposalKey(id, r.proposal.value), r.proposal.value.who, r.question.bond);
  }

  lemma NeverOpen(v: V.VaultState, key: V.BondKey, to: Address, amount: int)
    ensures V.UnlockBond(v, key, to, amount) != Err(DisputeWindowOpen)
  {
  }

  /** A settled proposal becomes the market's outcome, and its bond goes back to the one who made it. */
  lemma SettlingPaysProposer(w: World, now: nat, id: nat)
    requires FinalizeUndisputed(w, now, id).Ok?
    ensures var (w', outcome) := FinalizeUndisputed(w, now, id).value;
            && id in w.oracle.requests && w.oracle.requests[id].proposal.Some?
            && var (r, who) := (w.oracle.requests[id], w.oracle.requests[id].proposal.value.who);
            && outcome == r.proposal.value.outcome && w'.oracle.requests[id].final == Some(outcome)
            && r.question.market in w'.reg.markets && w'.reg.markets[r.question.market].final == outcome
            && w'.reg.markets[r.question.market].hasFinal
            && w'.vault.purse.balance == w.vault.purse.balance - r.question.bond
            && (forall a :: Read(w'.vault.escrow.paid, a) ==
                  Read(w.vault.escrow.paid, a) + (if a == who then r.question.bond else 0))
  {
  }

  /** A dispute by someone who signs, with evidence and another outcome, is refused for its time exactly after the
      window; within it, it is accepted exactly when the bond can be locked and the market stands at the proposal. */
  lemma ContestsExactly(turns: seq<Turn>, now: nat, who: Address, id: nat, outcome: Outcome, evidence: string)
    requires var w := Run(BEGINNING, turns);
             && id in w.oracle.requests && w.oracle.requests[id].status == OracleStatus.Proposed
             && who.Account? && evidence != "" && w.oracle.requests[id].proposal.Some?
             && w.oracle.requests[id].proposal.value.outcome != outcome
    ensures var w := Run(BEGINNING, turns);
            var r := w.oracle.requests[id];
            var late := now > r.proposal.value.at + r.question.window;
            && (Dispute(w, now, who, id, outcome, evidence) == Err(DisputeWindowClosed) <==> late)
            && (Dispute(w, now, who, id, outcome, evidence).Ok? <==>
                  && !late && V.BondKey(id, who, true) !in w.vault.escrow.bonds
                  && r.question.market in w.reg.markets
                  && w.reg.markets[r.question.market].status == MarketStatus.Proposed)
  {
    hide Run, TidyMarket, TidyCase, TidyReferral, InLockstep;
    BeginningOrderly();
    RunOrderly(BEGINNING, turns, false);
    assert TidyRequest(Run(BEGINNING, turns), id, false);
  }

  /** A question is accepted exactly when the oracle runs, the terms are the market's own, the market has expired and is
      closed or still live without an outcome, and nobody asked before. */
  lemma AsksExactly(turns: seq<Turn>, now: nat, m: nat, terms: Terms)
    requires m in Run(BEGINNING, turns).reg.markets
    ensures var w := Run(BEGINNING, turns);
            RequestResolution(w, now, m, terms).Ok? <==>
            && !w.oracle.paused && terms == w.reg.markets[m].terms && terms.expiry <= now
            && terms.rulesUri != "" && terms.bondAmount > 0 && terms.disputeWindow > 0
            && m !in w.oracle.byMarket && !w.reg.markets[m].hasFinal
            && w.reg.markets[m].status in {Live, TradingClosed}
  {
    hide Run, Orderly;
  }

  /** A proposal is accepted exactly from someone who signs, with evidence, for an open question, when the bond can be
      locked and the market waits for it. */
  lemma AssertsExactly(turns: seq<Turn>, now: nat, who: Address, id: nat, outcome: Outcome, evidence: string)
    requires id in Run(BEGINNING, turns).oracle.requests
    ensures var w := Run(BEGINNING, turns);
            var r := w.oracle.requests[id];
            Propose(w, now, who, id, outcome, evidence).Ok? <==>
            && who.Account? && evidence != "" && r.status == OracleStatus.Requested
            && V.BondKey(id, who, false) !in w.vault.escrow.bonds
            && r.question.market in w.reg.markets
            && w.reg.markets[r.question.market].status == ResolutionRequested
  {
    hide Run, TidyMarket, TidyCase, TidyReferral, InLockstep;
    BeginningOrderly();
    RunOrderly(BEGINNING, turns, false);
    assert TidyRequest(Run(BEGINNING, turns), id, false);
  }
}
