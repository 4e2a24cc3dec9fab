// The council inside the resolution: what it does in a run of the oracle's world is a run of the council by itself,
// with a forward clock, so every law of the council's own runs holds there.

module ResolutionCouncil {
  import opened Basics
  import opened DikeTypes
  import opened MarketRegistry
  import opened BondSplits
  import opened CouncilVoting
  import opened CodOracle
  import opened ResolutionVerdict
  import opened CouncilRewards
  import V = VaultLedger
  import Laws = ResolutionLaws

  /** What an accepted move does in the council: votes, claims and sweeps are acts themselves; a referral opens a case;
      a report finalizes it and, when the council has a portion, fills its pool. */
  function ActsOf(w: World, now: nat, move: Move): seq<Moment> {
    if Apply(w, now, move).Err? then []
    else
      match move
      case Council(act) => [Moment(now, act)]
      case Refer(id) => if id in w.oracle.requests then Opened(w, now, w.oracle.requests[id], id) else []
      case Report(caseId) => Reported(w, now, caseId, Apply(w, now, move).value)
      case _ => []
  }

  function Opened(w: World, now: nat, r: Request, id: nat): seq<Moment> {
    if r.proposal.None? || r.dispute.None? then []
    else
      var q, p, d := r.question, r.proposal.value, r.dispute.value;
      [Moment(now, Open(id, p.outcome, d.outcome, p.evidence, d.evidence, q.bond, q.window))]
  }

  function Reported(w: World, now: nat, caseId: nat, w': World): seq<Moment> {
    var portion := w'.council.balance - w.council.balance;
    [Moment(now, Finalize(caseId))] + (if portion > 0 then [Moment(now, Pool(caseId, portion))] else [])
  }

  lemma {:induction false} ActsTwo(c: CouncilState, first: seq<Moment>, second: seq<Moment>)
    ensures PerformAll(c, first + second) == PerformAll(PerformAll(c, first), second)
    decreases |first|
  {
    hide Perform;
    if first == [] {
      assert [] + second == second;
    } else {
      assert (first + second)[1..] == first[1..] + second;
      var r := Perform(c, first[0].now, first[0].act);
      ActsTwo(if r.Ok? then r.value else c, first[1..], second);
    }
  }

  lemma ActOne(c: CouncilState, now: nat, act: Act)
    requires Perform(c, now, act).Ok?
    ensures PerformAll(c, [Moment(now, act)]) == Perform(c, now, act).value
  {
    hide Perform;
    assert [Moment(now, act)][1..] == [];
  }

  lemma NoAct(c: CouncilState)
    ensures PerformAll(c, []) == c
  {
  }

  /** The portion that a report enters in the pool. */
  lemma PaidPortion(w: World, id: nat, r: Request, outcome: Outcome)
    requires r.proposal.Some? && r.dispute.Some? && PayBonds(w, id, r, outcome).Ok?
    ensures var c' := PayBonds(w, id, r, outcome).value.council;
            var portion := c'.balance - w.council.balance;
            portion >= 0
            && (if portion > 0 then RewardCouncil(w.council, id, portion) == Ok(c') else c' == w.council)
  {
    hide V.UnlockBond, SlashIfAny, LosingBondSplit;
  }

  lemma ReportActs(w: World, now: nat, caseId: nat)
    requires FinalizeAndReport(w, now, caseId).Ok? && caseId in w.council.cases
    requires var id := w.council.cases[caseId].request;
             id in w.council.byRequest && w.council.byRequest[id] == caseId
    ensures var w' := FinalizeAndReport(w, now, caseId).value;
            PerformAll(w.council, Reported(w, now, caseId, w')) == w'.council
  {
    hide PayBonds, SetFinalOutcome, PerformAll, RecordReward;
    var w' := FinalizeAndReport(w, now, caseId).value;
    var (council, outcome) := FinalizeCase(w.council, now, caseId).value;
    var id := w.council.cases[caseId].request;
    var w1 := w.(council := council);
    assert council.balance == w.council.balance && council.byRequest == w.council.byRequest;
    var r := w.oracle.requests[id];
    PaidPortion(w1, id, r, outcome);
    var portion := w'.council.balance - w.council.balance;
    ActOne(w.council, now, Finalize(caseId));
    if portion > 0 {
      ActOne(council, now, Pool(caseId, portion));
      ActsTwo(w.council, [Moment(now, Finalize(caseId))], [Moment(now, Pool(caseId, portion))]);
    } else {
      assert [Moment(now, Finalize(caseId))] + [] == [Moment(now, Finalize(caseId))];
    }
  }

  lemma ReferActs(w: World, now: nat, id: nat)
    requires Escalate(w, now, id).Ok? && id in w.oracle.requests
    ensures PerformAll(w.council, Opened(w, now, w.oracle.requests[id], id)) == Escalate(w, now, id).value.council
  {
    hide OpenCase, Transition, PerformAll;
    var r := w.oracle.requests[id];
    var q, p, d := r.question, r.proposal.value, r.dispute.value;
    ActOne(w.council, now, Open(id, p.outcome, d.outcome, p.evidence, d.evidence, q.bond, q.window));
  }

  /** One move of the world, as acts of the council. */
  lemma MoveActs(w: World, now: nat, move: Move)
    requires Laws.Orderly(w, false)
    ensures PerformAll(w.council, ActsOf(w, now, move)) == Step(w, now, move).council
    ensures forall i :: 0 <= i < |ActsOf(w, now, move)| ==> ActsOf(w, now, move)[i].now == now
  {
    hide Laws.Orderly, RegisterMarket, Transition, CloseTrading, RequestResolution, Propose, Dispute,
         FinalizeUndisputed, Escalate, FinalizeAndReport, Perform, V.LockBond, PerformAll;
    NoAct(w.council);
    if Apply(w, now, move).Ok? {
      match move
      case Council(act) => ActOne(w.council, now, act);
      case Refer(id) =>
        ReferredRequestExists(w, now, id);
        ReferActs(w, now, id);
      case Report(caseId) =>
        ReportedCaseExists(w, now, caseId);
        CaseOfRequest(w, caseId);
        ReportActs(w, now, caseId);
      case Market(_) => Untouched(w, now, move);
      case Govern(_, _) => Untouched(w, now, move);
      case Close(_) => Untouched(w, now, move);
      case Ask(_, _) => Untouched(w, now, move);
      case Assert(_, _, _, _) => Untouched(w, now, move);
      case Contest(_, _, _, _) => Untouched(w, now, move);
      case Settle(_) => Untouched(w, now, move);
      case DirectLock(_, _, _) => Untouched(w, now, move);
      case Reshare(_) => Untouched(w, now, move);
      case PauseOracle(_) => Untouched(w, now, move);
      case PauseRegistry(_) => Untouched(w, now, move);
      case Elsewhere(_) => Untouched(w, now, move);
    }
  }

  /** No other move reaches the council. */
  lemma Untouched(w: World, now: nat, move: Move)
    requires Apply(w, now, move).Ok? && !move.Council? && !move.Refer? && !move.Report?
    ensures Apply(w, now, move).value.council == w.council
  {
    hide RegisterMarket, Transition, CloseTrading, CloseForRequest, MarkResolutionRequested, SetFinalOutcome,
         V.LockBond, V.UnlockBond;
  }

  lemma ReferredRequestExists(w: World, now: nat, id: nat)
    requires Escalate(w, now, id).Ok?
    ensures id in w.oracle.requests
  {
    hide OpenCase, Transition;
  }

  lemma ReportedCaseExists(w: World, now: nat, caseId: nat)
    requires FinalizeAndReport(w, now, caseId).Ok?
    ensures caseId in w.council.cases
  {
    hide ReportOutcome;
  }

  // ---------------------------------------------------------------- runs

  /** The council's own view of a run. */
  function MomentsOf(w: World, turns: seq<Turn>): seq<Moment>
    decreases |turns|
  {
    if turns == [] then []
    else ActsOf(w, turns[0].now, turns[0].move) + MomentsOf(Step(w, turns[0].now, turns[0].move), turns[1..])
  }

  lemma {:induction false} OrderedTwo(clock: nat, now: nat, first: seq<Moment>, rest: seq<Moment>)
    requires clock <= now && Ordered(now, rest)
    requires forall i :: 0 <= i < |first| ==> first[i].now == now
    ensures Ordered(clock, first + rest)
    ensures ClockAfter(clock, first + rest) <= ClockAfter(now, rest)
    decreases |first|
  {
    if first == [] {
      assert [] + rest == rest;
    } else {
      assert (first + rest)[1..] == first[1..] + rest;
      OrderedTwo(now, now, first[1..], rest);
    }
  }

  lemma {:induction false} RunCouncil(w: World, clock: nat, turns: seq<Turn>)
    requires Laws.Orderly(w, false) && Clocked(clock, turns)
    ensures Run(w, turns).council == PerformAll(w.council, MomentsOf(w, turns))
    ensures Ordered(clock, MomentsOf(w, turns)) && ClockAfter(clock, MomentsOf(w, turns)) <= Latest(clock, turns)
    decreases |turns|
  {
    hide Laws.Orderly, Step, ActsOf, PerformAll;
    if turns == [] {
      NoAct(w.council);
    } else {
      var now, move := turns[0].now, turns[0].move;
      var w1 := Step(w, now, move);
      MoveActs(w, now, move);
      StepOrderly(w, now, move);
      RunCouncil(w1, now, turns[1..]);
      ActsTwo(w.council, ActsOf(w, now, move), MomentsOf(w1, turns[1..]));
      OrderedTwo(clock, now, ActsOf(w, now, move), MomentsOf(w1, turns[1..]));
    }
  }

  lemma StepOrderly(w: World, now: nat, move: Move)
    requires Laws.Orderly(w, false)
    ensures Laws.Orderly(Step(w, now, move), false)
  {
    hide Laws.Orderly, Apply;
    if Apply(w, now, move).Ok? {
      Laws.ApplyOrderly(w, now, move, false);
    }
  }

  /** The council of a run of the resolution is that of a run of its own, with a clock that never goes back. */
  lemma CouncilIsRun(turns: seq<Turn>)
    requires Clocked(0, turns)
    ensures var acts := MomentsOf(BEGINNING, turns);
            && Run(BEGINNING, turns).council == PerformAll(NO_COUNCIL, acts)
            && Ordered(0, acts) && ClockAfter(0, acts) <= Latest(0, turns)
  {
    hide Laws.Orderly, Run, PerformAll, MomentsOf;
    Laws.BeginningOrderly();
    RunCouncil(BEGINNING, 0, turns);
  }

  /** In the resolution, too, no vote is committed once one was revealed. */
  lemma NoCommitAfterRevealInWorld(turns: seq<Turn>, now: nat, voter: Address, id: nat, commitment: Commitment)
    requires Clocked(0, turns) && Latest(0, turns) <= now
    requires var c := Run(BEGINNING, turns).council; id in c.cases && c.cases[id].ballots.revealed != map[]
    ensures Apply(Run(BEGINNING, turns), now, Council(Commit(voter, id, commitment))).Err?
  {
    hide Run, PerformAll, MomentsOf, CommitVote;
    CouncilIsRun(turns);
    NoCommitAfterReveal(MomentsOf(BEGINNING, turns), now, voter, id, commitment);
  }

  /** And a verdict is final over every later run of the resolution. */
  lemma VerdictIsFinalInWorld(turns: seq<Turn>, later: seq<Turn>, id: nat)
    requires Clocked(0, turns) && Clocked(Latest(0, turns), later)
    requires var c := Run(BEGINNING, turns).council; id in c.cases && c.cases[id].final.Some?
    ensures var (c, c') := (Run(BEGINNING, turns).council, Run(Run(BEGINNING, turns), later).council);
            && id in c'.cases
            && c'.cases[id].final == c.cases[id].final && c'.cases[id].tally == c.cases[id].tally
            && c'.cases[id].ballots.revealed == c.cases[id].ballots.revealed
            && c.cases[id].ballots.claimed.Keys <= c'.cases[id].ballots.claimed.Keys
  {
    hide Run, PerformAll, MomentsOf, Laws.Orderly, FairCouncil, Decisive;
    var w := ReachableDecisive(turns);
    RunCouncil(w, Latest(0, turns), later);
    VerdictIsFinal(w.council, Latest(0, turns), MomentsOf(w, later), id);
  }

  /** How often a voter's claim on a case is accepted in a run of the resolution. */
  function ClaimsIn(w: World, turns: seq<Turn>, voter: Address, id: nat): nat
    decreases |turns|
  {
    if turns == [] then 0
    else
      var now, move := turns[0].now, turns[0].move;
      (if move == Council(Claim(voter, id)) && Apply(w, now, move).Ok? then 1 else 0)
      + ClaimsIn(Step(w, now, move), turns[1..], voter, id)
  }

  lemma {:induction false} ClaimsTwo(c: CouncilState, first: seq<Moment>, second: seq<Moment>, voter: Address, id: nat)
    ensures ClaimsOf(c, first + second, voter, id) ==
            ClaimsOf(c, first, voter, id) + ClaimsOf(PerformAll(c, first), second, voter, id)
    decreases |first|
  {
    hide Perform;
    if first == [] {
      assert [] + second == second;
    } else {
      assert (first + second)[1..] == first[1..] + second;
      var r := Perform(c, first[0].now, first[0].act);
      ClaimsTwo(if r.Ok? then r.value else c, first[1..], second, voter, id);
    }
  }

  lemma ClaimsOfMove(w: World, now: nat, move: Move, voter: Address, id: nat)
    ensures ClaimsOf(w.council, ActsOf(w, now, move), voter, id) ==
            if move == Council(Claim(voter, id)) && Apply(w, now, move).Ok? then 1 else 0
  {
    hide Perform, Escalate, FinalizeAndReport, RegisterMarket, Transition, CloseTrading, RequestResolution, Propose,
         Dispute, FinalizeUndisputed, V.LockBond;
    var acts := ActsOf(w, now, move);
    assert |acts| <= 2;
    assert forall i :: 0 <= i < |acts| && acts[i].act.Claim? ==> move == Council(acts[i].act);
    if move.Council? && |acts| == 1 {
      assert acts[1..] == [];
    } else {
      NoClaims(w.council, acts, voter, id);
    }
  }

  lemma {:induction false} NoClaims(c: CouncilState, acts: seq<Moment>, voter: Address, id: nat)
    requires forall i :: 0 <= i < |acts| ==> !acts[i].act.Claim?
    ensures ClaimsOf(c, acts, voter, id) == 0
    decreases |acts|
  {
    hide Perform;
    if acts != [] {
      assert !acts[0].act.Claim?;
      var r := Perform(c, acts[0].now, acts[0].act);
      NoClaims(if r.Ok? then r.value else c, acts[1..], voter, id);
    }
  }

  lemma {:induction false} RunClaims(w: World, clock: nat, turns: seq<Turn>, voter: Address, id: nat)
    requires Laws.Orderly(w, false) && Clocked(clock, turns)
    ensures ClaimsIn(w, turns, voter, id) == ClaimsOf(w.council, MomentsOf(w, turns), voter, id)
    decreases |turns|
  {
    hide Laws.Orderly, Apply, Step, ActsOf, PerformAll;
    if turns != [] {
      var now, move := turns[0].now, turns[0].move;
      var w1 := Step(w, now, move);
      MoveActs(w, now, move);
      StepOrderly(w, now, move);
      ClaimsOfMove(w, now, move, voter, id);
      RunClaims(w1, now, turns[1..], voter, id);
      ClaimsTwo(w.council, ActsOf(w, now, move), MomentsOf(w1, turns[1..]), voter, id);
    }
  }

  /** Over every run of the resolution at most one claim of a voter on a case is accepted. */
  lemma ClaimOnceInWorld(turns: seq<Turn>, voter: Address, id: nat)
    requires Clocked(0, turns)
    ensures ClaimsIn(BEGINNING, turns, voter, id) <= 1
  {
    hide Laws.Orderly, ClaimsIn, MomentsOf, FairCouncil;
    Laws.BeginningOrderly();
    EmptyFair();
    CouncilIsRun(turns);
    RunClaims(BEGINNING, 0, turns, voter, id);
    ClaimOnce(NO_COUNCIL, 0, MomentsOf(BEGINNING, turns), voter, id);
  }

  // ---------------------------------------------------------------- rewards

  /** The oracle fills a pool in the transaction that gives the case its verdict, so before anyone can claim. */
  lemma MoveInTime(w: World, clock: nat, now: nat, move: Move)
    requires Laws.Orderly(w, false) && FairCouncil(w.council, clock)
    ensures AllInTime(w.council, ActsOf(w, now, move))
  {
    hide Laws.Orderly, FairVote, RegisterMarket, Transition, CloseTrading, RequestResolution, Propose, Dispute,
         FinalizeUndisputed, Escalate, FinalizeAndReport, V.LockBond, OpenCase, CommitVote, RevealVote, ClaimReward,
         SweepReward, RecordReward;
    if Apply(w, now, move).Ok? && move.Report? {
      ReportedCaseExists(w, now, move.caseId);
      ReportInTime(w, clock, now, move.caseId);
    }
  }

  lemma ReportInTime(w: World, clock: nat, now: nat, caseId: nat)
    requires FinalizeAndReport(w, now, caseId).Ok? && caseId in w.council.cases && FairCouncil(w.council, clock)
    ensures AllInTime(w.council, Reported(w, now, caseId, FinalizeAndReport(w, now, caseId).value))
  {
    hide ReportOutcome, FairVote, FairReward, Perform, AllInTime;
    var w' := FinalizeAndReport(w, now, caseId).value;
    assert FairReward(w.council.cases[caseId], clock);
    var portion := w'.council.balance - w.council.balance;
    FinalizedInTime(w.council, clock, now, caseId, portion);
    assert [Moment(now, Finalize(caseId))] + [] == [Moment(now, Finalize(caseId))];
  }

  lemma FinalizedInTime(c: CouncilState, clock: nat, now: nat, id: nat, portion: int)
    requires id in c.cases && FairReward(c.cases[id], clock) && FinalizeCase(c, now, id).Ok?
    ensures AllInTime(c, [Moment(now, Finalize(id))])
    ensures AllInTime(c, [Moment(now, Finalize(id))] + [Moment(now, Pool(id, portion))])
  {
    hide AllInTime, PerformAll, Verdict, RewardShare;
    OneInTime(c, Moment(now, Finalize(id)));
    ActOne(c, now, Finalize(id));
    OneInTime(FinalizeCase(c, now, id).value.0, Moment(now, Pool(id, portion)));
    InTimeTwo(c, [Moment(now, Finalize(id))], [Moment(now, Pool(id, portion))]);
  }

  lemma OneInTime(c: CouncilState, moment: Moment)
    requires InTime(c, moment.act)
    ensures AllInTime(c, [moment])
  {
    hide Perform;
    assert [moment][1..] == [];
  }

  lemma {:induction false} InTimeTwo(c: CouncilState, first: seq<Moment>, second: seq<Moment>)
    requires AllInTime(c, first) && AllInTime(PerformAll(c, first), second)
    ensures AllInTime(c, first + second)
    decreases |first|
  {
    hide Perform, InTime;
    if first == [] {
      assert [] + second == second;
    } else {
      assert (first + second)[1..] == first[1..] + second;
      var r := Perform(c, first[0].now, first[0].act);
      InTimeTwo(if r.Ok? then r.value else c, first[1..], second);
    }
  }

  lemma {:induction false} RunInTime(w: World, clock: nat, turns: seq<Turn>)
    requires Laws.Orderly(w, false) && FairCouncil(w.council, clock) && Clocked(clock, turns)
    ensures AllInTime(w.council, MomentsOf(w, turns))
    decreases |turns|
  {
    hide Laws.Orderly, FairCouncil, Apply, ActsOf, PerformAll, AllInTime;
    if turns == [] {
      NothingInTime(w.council);
    } else {
      var now, move := turns[0].now, turns[0].move;
      var w1 := Step(w, now, move);
      MoveInTime(w, clock, now, move);
      MoveActs(w, now, move);
      StepOrderly(w, now, move);
      LaterFair(w.council, clock, now);
      if Apply(w, now, move).Ok? {
        ApplyFair(w, clock, now, move);
      }
      RunInTime(w1, now, turns[1..]);
      InTimeTwo(w.council, ActsOf(w, now, move), MomentsOf(w1, turns[1..]));
    }
  }

  lemma NothingInTime(c: CouncilState)
    ensures AllInTime(c, [])
  {
  }

  /** Over every run of the resolution: what a case has paid is one and the same share of its pool to each voter who was
      right and has claimed, the pool divided by those who were right, rounded down. Once all of them have claimed, less
      than one unit for each is left. */
  lemma RewardsInWorld(turns: seq<Turn>, id: nat)
    requires Clocked(0, turns)
    requires var c := Run(BEGINNING, turns).council;
             id in c.cases && c.cases[id].final.Some? && Winners(c.cases[id]) > 0
    ensures var x := Run(BEGINNING, turns).council.cases[id];
            var (n, paid) := (Winners(x), PaidVoters(x.ballots.claimed));
            && paid <= VotersFor(x.ballots.revealed, x.final.value)
            && (exists share: int :: share * n <= x.reward.pool < (share + 1) * n && x.reward.paid == |paid| * share)
            && (VotersFor(x.ballots.revealed, x.final.value) <= x.ballots.claimed.Keys ==>
                  0 <= x.reward.pool - x.reward.paid < n)
  {
    hide Run, PerformAll, MomentsOf, Laws.Orderly, FairCouncil, AllInTime, EvenCouncil, Decisive;
    Laws.BeginningOrderly();
    EmptyFair();
    CouncilIsRun(turns);
    RunInTime(BEGINNING, 0, turns);
    var w := ReachableDecisive(turns);
    NobodyEven();
    ActsEven(NO_COUNCIL, 0, MomentsOf(BEGINNING, turns));
    CaseEven(w.council, Latest(0, turns), id);
  }

  lemma NobodyEven()
    ensures EvenCouncil(NO_COUNCIL)
  {
  }

  lemma CaseEven(c: CouncilState, clock: nat, id: nat)
    requires FairCouncil(c, clock) && EvenCouncil(c)
    requires id in c.cases && c.cases[id].final.Some? && Winners(c.cases[id]) > 0
    ensures var x := c.cases[id];
            var (n, paid) := (Winners(x), PaidVoters(x.ballots.claimed));
            && paid <= VotersFor(x.ballots.revealed, x.final.value)
            && (exists share: int :: share * n <= x.reward.pool < (share + 1) * n && x.reward.paid == |paid| * share)
            && (VotersFor(x.ballots.revealed, x.final.value) <= x.ballots.claimed.Keys ==>
                  0 <= x.reward.pool - x.reward.paid < n)
  {
    hide Winners, FairVote, Verdict;
    var x := c.cases[id];
    assert EvenReward(x) && FairVote(x, clock) && FairReward(x, clock);
    Shared(x.reward.pool, Winners(x));
    if VotersFor(x.ballots.revealed, x.final.value) <= x.ballots.claimed.Keys {
      PoolPaidOut(x, clock);
    }
  }
}
