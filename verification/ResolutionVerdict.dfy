// From the votes to the market: over every run with a forward clock the council inside the oracle's world keeps
// its laws, and what the oracle and the registry receive as the outcome of a disputed request is the plurality
// of the revealed votes.

module ResolutionVerdict {
  import opened Basics
  import opened DikeTypes
  import opened MapSums
  import opened MarketRegistry
  import opened BondSplits
  import opened CouncilVoting
  import opened CodOracle
  import opened ResolutionLaws
  import V = VaultLedger

  /** The clock never goes back. */
  predicate Clocked(clock: nat, turns: seq<Turn>)
    decreases |turns|
  {
    turns == [] || (clock <= turns[0].now && Clocked(turns[0].now, turns[1..]))
  }

  function Latest(clock: nat, turns: seq<Turn>): nat
    decreases |turns|
  {
    if turns == [] then clock else Latest(turns[0].now, turns[1..])
  }

  /** Verdicts are never changed or lost. */
  ghost predicate KeepsVerdicts(c: CouncilState, c': CouncilState) {
    forall k :: k in c.cases && c.cases[k].final.Some? ==> k in c'.cases && c'.cases[k].final == c.cases[k].final
  }

  lemma KeepsTwice(c: CouncilState, c1: CouncilState, c2: CouncilState)
    requires KeepsVerdicts(c, c1) && KeepsVerdicts(c1, c2)
    ensures KeepsVerdicts(c, c2)
  {
  }

  lemma ActKeepsVerdicts(c: CouncilState, clock: nat, now: nat, act: Act)
    requires FairCouncil(c, clock) && clock <= now && Perform(c, now, act).Ok?
    ensures KeepsVerdicts(c, Perform(c, now, act).value)
  {
    hide FairCouncil, Perform;
    forall k | k in c.cases && c.cases[k].final.Some?
      ensures k in Perform(c, now, act).value.cases
      ensures Perform(c, now, act).value.cases[k].final == c.cases[k].final
    {
      FrozenByAct(c, clock, now, act, k);
    }
  }

  // ---------------------------------------------------------------- the council inside the world

  /** Paying bonds changes the council at most by one entry into a pool. */
  lemma PaidFair(w: World, clock: nat, id: nat, r: Request, outcome: Outcome)
    requires r.proposal.Some? && r.dispute.Some? && PayBonds(w, id, r, outcome).Ok? && FairCouncil(w.council, clock)
    ensures var c' := PayBonds(w, id, r, outcome).value.council;
            FairCouncil(c', clock) && KeepsVerdicts(w.council, c')
  {
    hide V.UnlockBond, SlashLoser, LosingBondSplit, FairCouncil, Perform, PayWinner;
    var p, d := ProposalKey(id, r.proposal.value), DisputeKey(id, r.dispute.value);
    WinnerInParts(w, id, p, d, r.question.bond);
    WinnerInParts(w, id, d, p, r.question.bond);
    if outcome == r.proposal.value.outcome || outcome == r.dispute.value.outcome {
      var amount := LosingBondSplit(w.shares, r.question.bond).value.council;
      if amount > 0 {
        PoolPerformed(w.council, clock, id, amount);
      }
    }
  }

  lemma PoolPerformed(c: CouncilState, clock: nat, id: nat, amount: int)
    requires RewardCouncil(c, id, amount).Ok? && amount > 0 && FairCouncil(c, clock)
    ensures var c' := RewardCouncil(c, id, amount).value;
            FairCouncil(c', clock) && KeepsVerdicts(c, c')
  {
    hide FairCouncil, RecordReward;
    PerformFair(c, clock, clock, Pool(c.byRequest[id], amount));
    ActKeepsVerdicts(c, clock, clock, Pool(c.byRequest[id], amount));
  }

  lemma ReportedFair(w: World, clock: nat, id: nat, outcome: Outcome)
    requires ReportOutcome(w, id, outcome).Ok? && FairCouncil(w.council, clock)
    ensures var c' := ReportOutcome(w, id, outcome).value.council;
            FairCouncil(c', clock) && KeepsVerdicts(w.council, c')
  {
    hide PayBonds, FairCouncil, SetFinalOutcome;
    PaidFair(w, clock, id, w.oracle.requests[id], outcome);
  }

  lemma FinalizePerformed(c: CouncilState, clock: nat, now: nat, caseId: nat)
    requires FinalizeCase(c, now, caseId).Ok? && FairCouncil(c, clock) && clock <= now
    ensures var (c', outcome) := FinalizeCase(c, now, caseId).value;
            && FairCouncil(c', now) && KeepsVerdicts(c, c')
            && caseId in c.cases && c.cases[caseId].final.None? && now > c.cases[caseId].window.revealEnd
            && caseId in c'.cases && c'.cases[caseId].final == Some(outcome)
            && outcome == Verdict(c.cases[caseId].tally)
  {
    PerformFair(c, clock, now, Finalize(caseId));
    ActKeepsVerdicts(c, clock, now, Finalize(caseId));
  }

  lemma OpenPerformed(w: World, clock: nat, now: nat, id: nat)
    requires Escalate(w, now, id).Ok? && FairCouncil(w.council, clock) && clock <= now
    ensures var c' := Escalate(w, now, id).value.council;
            FairCouncil(c', now) && KeepsVerdicts(w.council, c')
  {
    hide FairCouncil, OpenCase, Transition;
    var r := w.oracle.requests[id];
    var q, p, d := r.question, r.proposal.value, r.dispute.value;
    var act := Open(id, p.outcome, d.outcome, p.evidence, d.evidence, q.bond, q.window);
    PerformFair(w.council, clock, now, act);
    ActKeepsVerdicts(w.council, clock, now, act);
  }

  /** Every move of the world keeps the council fair and its verdicts. */
  lemma ApplyFair(w: World, clock: nat, now: nat, move: Move)
    requires Apply(w, now, move).Ok? && FairCouncil(w.council, clock) && clock <= now
    ensures var c' := Apply(w, now, move).value.council;
            FairCouncil(c', now) && KeepsVerdicts(w.council, c')
  {
    hide FairCouncil, Perform, RegisterMarket, Transition, CloseTrading, CloseForRequest, MarkResolutionRequested,
         SetFinalOutcome, V.LockBond, V.UnlockBond, FinalizeCase, ReportOutcome, Escalate;
    LaterFair(w.council, clock, now);
    match move
    case Refer(id) => OpenPerformed(w, clock, now, id);
    case Report(caseId) =>
      FinalizePerformed(w.council, clock, now, caseId);
      var (council, outcome) := FinalizeCase(w.council, now, caseId).value;
      ReportedFair(w.(council := council), now, w.council.cases[caseId].request, outcome);
    case Council(act) =>
      PerformFair(w.council, clock, now, act);
      ActKeepsVerdicts(w.council, clock, now, act);
    case _ =>
  }

  // ---------------------------------------------------------------- from the case to the request

  /** A request that was disputed and is finalized has the verdict of its own case. */
  predicate HasVerdict(w: World, id: nat)
    requires id in w.oracle.requests
  {
    var r := w.oracle.requests[id];
    r.status == OracleStatus.Finalized && r.dispute.Some? ==>
      id in w.council.byRequest && w.council.byRequest[id] in w.council.cases
      && w.council.cases[w.council.byRequest[id]].final == r.final && r.final.Some?
  }

  ghost predicate Decisive(w: World) {
    forall id :: id in w.oracle.requests ==> HasVerdict(w, id)
  }

  /** A move that leaves a request as it is leaves its verdict. */
  lemma VerdictKept(w: World, w': World, id: nat)
    requires id in w.oracle.requests && HasVerdict(w, id) && KeepsVerdicts(w.council, w'.council)
    requires id in w'.oracle.requests && w'.oracle.requests[id] == w.oracle.requests[id]
    requires id in w.council.byRequest ==> id in w'.council.byRequest
                                           && w'.council.byRequest[id] == w.council.byRequest[id]
    ensures HasVerdict(w', id)
  {
  }

  lemma StepVerdict(w: World, clock: nat, now: nat, move: Move, id: nat)
    requires Orderly(w, false) && FairCouncil(w.council, clock) && clock <= now && Decisive(w)
    requires Apply(w, now, move).Ok? && id in Apply(w, now, move).value.oracle.requests
    ensures HasVerdict(Apply(w, now, move).value, id)
  {
    hide Orderly, FairCouncil, KeepsVerdicts, Perform, RegisterMarket, Transition, CloseTrading, CloseForRequest,
         MarkResolutionRequested, SetFinalOutcome, V.LockBond, V.UnlockBond, FinalizeCase, ReportOutcome, OpenCase;
    ApplyFair(w, clock, now, move);
    var w' := Apply(w, now, move).value;
    match move
    case Refer(other) =>
      ReferredCases(w, now, other);
      if id != other {
        VerdictKept(w, w', id);
      }
    case Report(caseId) => ReportVerdict(w, clock, now, caseId, id);
    case Council(act) =>
      CouncilActFrame(w.council, now, act);
      VerdictKept(w, w', id);
    case Ask(m, terms) =>
      if id != w.oracle.nextId {
        VerdictKept(w, w', id);
      }
    case Assert(_, other, _, _) =>
      if id != other {
        VerdictKept(w, w', id);
      }
    case Contest(_, other, _, _) =>
      if id != other {
        VerdictKept(w, w', id);
      }
    case Settle(other) =>
      if id != other {
        VerdictKept(w, w', id);
      } else {
        UndisputedSettles(w, id);
      }
    case _ => VerdictKept(w, w', id);
  }

  lemma UndisputedSettles(w: World, id: nat)
    requires Orderly(w, false) && id in w.oracle.requests && w.oracle.requests[id].status == OracleStatus.Proposed
    ensures w.oracle.requests[id].dispute.None?
  {
    hide TidyMarket, TidyCase, TidyReferral, HoldsBonds;
    assert TidyRequest(w, id, false);
  }

  lemma ReferredCases(w: World, now: nat, id: nat)
    requires Escalate(w, now, id).Ok?
    ensures var w' := Escalate(w, now, id).value;
            && (forall j :: j in w.council.byRequest && j != id ==>
                              j in w'.council.byRequest && w'.council.byRequest[j] == w.council.byRequest[j])
            && (forall j :: j in w.oracle.requests && j != id ==>
                              j in w'.oracle.requests && w'.oracle.requests[j] == w.oracle.requests[j])
            && id in w'.oracle.requests && w'.oracle.requests[id].status == OracleStatus.Escalated
            && w'.oracle.requests.Keys == w.oracle.requests.Keys
  {
    hide Transition;
  }

  lemma ReportVerdict(w: World, clock: nat, now: nat, caseId: nat, id: nat)
    requires Orderly(w, false) && FairCouncil(w.council, clock) && clock <= now && Decisive(w)
    requires FinalizeAndReport(w, now, caseId).Ok? && id in FinalizeAndReport(w, now, caseId).value.oracle.requests
    ensures HasVerdict(FinalizeAndReport(w, now, caseId).value, id)
  {
    hide Orderly, FairCouncil, KeepsVerdicts, FinalizeCase, ReportOutcome;
    var w' := FinalizeAndReport(w, now, caseId).value;
    FinalizePerformed(w.council, clock, now, caseId);
    var (council, outcome) := FinalizeCase(w.council, now, caseId).value;
    var w1 := w.(council := council);
    FinalizeFrame(w.council, now, caseId);
    CouncilOrderly(w, council, false);
    var other := w.council.cases[caseId].request;
    CaseOfRequest(w, caseId);
    ReportedFair(w1, now, other, outcome);
    ReportedRequests(w1, other, outcome);
    KeepsTwice(w.council, council, w'.council);
    if id != other {
      VerdictKept(w, w', id);
    } else {
      VerdictSurvives(council, w'.council, caseId);
    }
  }

  lemma VerdictSurvives(c: CouncilState, c': CouncilState, caseId: nat)
    requires KeepsVerdicts(c, c') && caseId in c.cases && c.cases[caseId].final.Some?
    ensures caseId in c'.cases && c'.cases[caseId].final == c.cases[caseId].final
  {
  }

  lemma CaseOfRequest(w: World, caseId: nat)
    requires Orderly(w, false) && caseId in w.council.cases
    ensures w.council.cases[caseId].request in w.council.byRequest
    ensures w.council.byRequest[w.council.cases[caseId].request] == caseId
  {
    hide TidyRequest, TidyMarket, TidyReferral;
    assert TidyCase(w.council, caseId);
  }

  lemma ReportedRequests(w: World, id: nat, outcome: Outcome)
    requires Orderly(w, false) && ReportOutcome(w, id, outcome).Ok?
    ensures var w' := ReportOutcome(w, id, outcome).value;
            && id in w.oracle.requests
            && w'.oracle.requests == w.oracle.requests[id :=
                 w.oracle.requests[id].(status := OracleStatus.Finalized, final := Some(outcome))]
            && w'.council.byRequest == w.council.byRequest
  {
    hide ReportOutcome, TidyRequest, TidyMarket, TidyCase, TidyReferral;
    ReportedRequest(w, id, outcome);
    ReportTidy(w, id, outcome, false);
  }

  // ---------------------------------------------------------------- runs

  lemma {:induction false} RunDecisive(w: World, clock: nat, turns: seq<Turn>)
    requires Orderly(w, false) && FairCouncil(w.council, clock) && Decisive(w) && Clocked(clock, turns)
    ensures var w' := Run(w, turns);
            Orderly(w', false) && FairCouncil(w'.council, Latest(clock, turns)) && Decisive(w')
    decreases |turns|
  {
    hide Orderly, FairCouncil, Apply, HasVerdict;
    if turns != [] {
      var now, move := turns[0].now, turns[0].move;
      LaterFair(w.council, clock, now);
      if Apply(w, now, move).Ok? {
        var w' := Apply(w, now, move).value;
        ApplyFair(w, clock, now, move);
        ApplyOrderly(w, now, move, false);
        forall id | id in w'.oracle.requests
          ensures HasVerdict(w', id)
        {
          StepVerdict(w, clock, now, move, id);
        }
      }
      RunDecisive(Step(w, now, move), now, turns[1..]);
    }
  }

  lemma ReachableDecisive(turns: seq<Turn>) returns (w: World)
    requires Clocked(0, turns)
    ensures w == Run(BEGINNING, turns)
    ensures Orderly(w, false) && FairCouncil(w.council, Latest(0, turns)) && Decisive(w)
  {
    hide Orderly, FairCouncil, Run;
    BeginningOrderly();
    EmptyFair();
    w := Run(BEGINNING, turns);
    RunDecisive(BEGINNING, 0, turns);
  }

  /** The laws of the council hold where the oracle opens its cases and fills their pools: in every run of the
      whole resolution, whatever governance does. */
  lemma CouncilLawsInWorld(turns: seq<Turn>, caseId: nat)
    requires Clocked(0, turns)
    ensures var c := Run(BEGINNING, turns).council;
            && c.balance >= SumBy(c.cases, UnpaidOf) >= 0
            && (caseId in c.cases ==>
                  var x := c.cases[caseId];
                  && (forall o :: x.tally.Of(o) == |VotersFor(x.ballots.revealed, o)|)
                  && x.ballots.revealed.Keys <= x.ballots.commits.Keys
                  && 0 <= x.reward.paid <= x.reward.pool)
  {
    hide Orderly, Decisive, Run;
    var w := ReachableDecisive(turns);
    FairPools(w.council, Latest(0, turns));
    if caseId in w.council.cases {
      PaidWithinPool(w.council.cases[caseId], Latest(0, turns));
    }
  }

  lemma FairPools(c: CouncilState, clock: nat)
    requires FairCouncil(c, clock)
    ensures c.balance >= SumBy(c.cases, UnpaidOf) >= 0
  {
    forall j | j in c.cases ensures UnpaidOf(c.cases[j]) >= 0 {
      PaidWithinPool(c.cases[j], clock);
    }
    SumByNonNegative(c.cases, UnpaidOf);
  }

  /** More voters revealed this outcome than each other one. */
  predicate MostVoters(revealed: map<Address, Outcome>, o: Outcome) {
    forall other: Outcome :: other != o ==> |VotersFor(revealed, o)| > |VotersFor(revealed, other)|
  }

  /** The end of the council's work: a disputed request that has an outcome has the verdict of its own case, so
      the market's final outcome is YES, or NO, exactly when more voters revealed it than each other outcome. */
  lemma OutcomeIsThePlurality(turns: seq<Turn>, id: nat)
    requires Clocked(0, turns)
    ensures var w := Run(BEGINNING, turns);
            id in w.oracle.requests && w.oracle.requests[id].dispute.Some? && w.oracle.requests[id].final.Some? ==>
              && id in w.council.byRequest && w.council.byRequest[id] in w.council.cases
              && var x := w.council.cases[w.council.byRequest[id]];
              var final := w.oracle.requests[id].final.value;
              var m := w.oracle.requests[id].question.market;
              && x.request == id && final == Verdict(x.tally)
              && m in w.reg.markets && w.reg.markets[m].hasFinal && w.reg.markets[m].final == final
              && forall o :: o != Invalid ==>
                   (w.reg.markets[m].final == o <==> MostVoters(x.ballots.revealed, o))
  {
    hide Run, TidyMarket, TidyCase, HoldsBonds;
    var w := ReachableDecisive(turns);
    if id in w.oracle.requests && w.oracle.requests[id].dispute.Some? && w.oracle.requests[id].final.Some? {
      assert HasVerdict(w, id) && TidyRequest(w, id, false);
      assert TidyReferral(w, id);
      var x := w.council.cases[w.council.byRequest[id]];
      assert FairVote(x, Latest(0, turns)) && FairReward(x, Latest(0, turns));
      PluralityOfVotes(x, Latest(0, turns), w.oracle.requests[id].final.value);
    }
  }

  lemma PluralityOfVotes(x: Case, clock: nat, final: Outcome)
    requires FairVote(x, clock) && final == Verdict(x.tally)
    ensures forall o :: o != Invalid ==> (final == o <==> MostVoters(x.ballots.revealed, o))
  {
    hide MostVoters;
    forall o | o != Invalid
      ensures final == o <==> MostVoters(x.ballots.revealed, o)
    {
      PluralityOf(x, clock, o);
    }
  }

  lemma PluralityOf(x: Case, clock: nat, o: Outcome)
    requires FairVote(x, clock) && o != Invalid
    ensures Verdict(x.tally) == o <==> MostVoters(x.ballots.revealed, o)
  {
    VerdictIsPlurality(x.tally, o);
    assert x.tally.Of(o) == |VotersFor(x.ballots.revealed, o)|;
    if StrictPlurality(x.tally, o) {
      forall other | other != o
        ensures |VotersFor(x.ballots.revealed, o)| > |VotersFor(x.ballots.revealed, other)|
      {
        assert x.tally.Of(other) == |VotersFor(x.ballots.revealed, other)|;
      }
    } else {
      var other :| other != o && x.tally.Of(o) <= x.tally.Of(other);
      assert x.tally.Of(other) == |VotersFor(x.ballots.revealed, other)|;
    }
  }

  // ---------------------------------------------------------------- when a case gets its request a verdict

  /** The one way for a referred request to get its verdict, and exactly when it works, whatever governance did and
      whatever the host allows: the case has none yet, voting is over, the vault has both bonds, the verdict agrees with
      neither side or leaves the winner at least one unit of the losing bond, the market still takes an outcome, and the
      host lets the oracle call back or the oracle has nothing to enter in the council's pool. */
  lemma VerdictReportable(turns: seq<Turn>, now: nat, caseId: nat, reentry: bool)
    requires Clocked(0, turns) && Latest(0, turns) <= now
    requires caseId in Run(BEGINNING, turns).council.cases
    ensures var w := Run(BEGINNING, turns);
            var id := w.council.cases[caseId].request;
            id in w.oracle.requests && w.oracle.requests[id].proposal.Some? && w.oracle.requests[id].dispute.Some?
    ensures var w := Run(BEGINNING, turns);
            var x := w.council.cases[caseId];
            var r := w.oracle.requests[x.request];
            FinalizeAndReportOn(w, now, caseId, reentry).Ok? <==>
              && x.final.None? && now > x.window.revealEnd
              && Payable(w, r, Verdict(x.tally)) && Undecided(w.reg, r.question.market)
              && (reentry || EntersNothing(w, r, Verdict(x.tally)))
  {
    hide Run, Orderly, FairCouncil, Decisive, FinalizeAndReportOn, Payable;
    var w := ReachableDecisive(turns);
    CaseOfRequest(w, caseId);
    ReferredRequest(w, w.council.cases[caseId].request);
    ReportableAt(w, Latest(0, turns), now, caseId, reentry);
  }

  lemma ReportableAt(w: World, clock: nat, now: nat, caseId: nat, reentry: bool)
    requires Orderly(w, false) && FairCouncil(w.council, clock) && Decisive(w) && clock <= now
    requires caseId in w.council.cases && w.council.cases[caseId].request in w.oracle.requests
    requires var r := w.oracle.requests[w.council.cases[caseId].request]; r.proposal.Some? && r.dispute.Some?
    ensures var x := w.council.cases[caseId];
            var r := w.oracle.requests[x.request];
            FinalizeAndReportOn(w, now, caseId, reentry).Ok? <==>
              && x.final.None? && now > x.window.revealEnd
              && Payable(w, r, Verdict(x.tally)) && Undecided(w.reg, r.question.market)
              && (reentry || EntersNothing(w, r, Verdict(x.tally)))
  {
    hide Orderly, FairCouncil, Decisive, ReportOutcome, Payable, EntersNothing;
    if FinalizeCase(w.council, now, caseId).Ok? {
      var id := w.council.cases[caseId].request;
      var (council, outcome) := FinalizeCase(w.council, now, caseId).value;
      var w1 := w.(council := council);
      CaseOfRequest(w, caseId);
      ReferredRequest(w, id);
      FinalizePerformed(w.council, clock, now, caseId);
      FinalizeFrame(w.council, now, caseId);
      CouncilOrderly(w, council, false);
      UndecidedIsEscalated(w, id);
      EscalatedReport(w1, id, outcome);
      PayableSame(w, w1, w.oracle.requests[id], outcome);
      if ReportOutcome(w1, id, outcome).Ok? {
        OrderlyShares(w1, false);
        ReportedCouncil(w1, id, outcome);
      }
    }
  }

  lemma PayableSame(w: World, w': World, r: Request, outcome: Outcome)
    requires w'.vault == w.vault && w'.shares == w.shares && r.proposal.Some? && r.dispute.Some?
    ensures Payable(w, r, outcome) == Payable(w', r, outcome)
    ensures EntersNothing(w, r, outcome) == EntersNothing(w', r, outcome)
  {
  }

  lemma ReferredRequest(w: World, id: nat)
    requires Orderly(w, false) && id in w.council.byRequest
    ensures id in w.oracle.requests && WentToCouncil(w.oracle.requests[id])
    ensures w.oracle.requests[id].proposal.Some? && w.oracle.requests[id].dispute.Some?
  {
    hide TidyMarket, TidyCase, HoldsBonds;
    assert TidyReferral(w, id);
    assert TidyRequest(w, id, false);
  }

  lemma UndecidedIsEscalated(w: World, id: nat)
    requires Decisive(w) && id in w.oracle.requests && WentToCouncil(w.oracle.requests[id])
    requires id in w.council.byRequest && w.council.byRequest[id] in w.council.cases
    requires w.council.cases[w.council.byRequest[id]].final.None?
    ensures w.oracle.requests[id].status == OracleStatus.Escalated
  {
    assert HasVerdict(w, id);
  }
}
