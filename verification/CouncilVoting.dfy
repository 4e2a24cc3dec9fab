// The council of Dike: commit and reveal votes on a disputed request, the verdict, and the voters' rewards.

module CouncilVoting {
  import opened Basics
  import opened DikeTypes
  import opened DikeMath
  import opened MapSums

  /** The hash of a vote. It is modelled as ideal: it equals only the hash of the same vote with the same
      salt; anything else a member may submit is an unopenable value. */
  datatype Commitment = Hash(caseId: nat, voter: Address, outcome: Outcome, salt: nat) | Unopenable(bytes: nat)

  datatype Window = Window(commitEnd: nat, revealEnd: nat)
  datatype Tally = Tally(yes: nat, no: nat, invalid: nat)
  {
    function Of(outcome: Outcome): nat {
      match outcome
      case Yes => yes
      case No => no
      case Invalid => invalid
    }

    function Add(outcome: Outcome): Tally {
      match outcome
      case Yes => this.(yes := yes + 1)
      case No => this.(no := no + 1)
      case Invalid => this.(invalid := invalid + 1)
    }
  }

  datatype Ballots = Ballots(
    commits: map<Address, Commitment>, revealed: map<Address, Outcome>, claimed: map<Address, bool>)

  /** `paid` is history: what voters were paid so far. The contract does not store it. */
  datatype Reward = Reward(pool: int, paid: int)

  datatype Case = Case(
    request: nat, window: Window, final: Option<Outcome>, tally: Tally, ballots: Ballots, reward: Reward)

  datatype Roll = Roll(members: set<Address>, paused: bool)

  datatype CouncilState = CouncilState(
    cases: map<nat, Case>, byRequest: map<nat, nat>, nextId: nat, roll: Roll, balance: int)

  const NO_COUNCIL := CouncilState(map[], map[], 1, Roll({}, false), 0)

  function GetCase(c: CouncilState, id: nat): Result<Case> {
    if id in c.cases then Ok(c.cases[id]) else Err(CaseNotFound)
  }

  function SetCase(c: CouncilState, id: nat, case': Case): CouncilState {
    c.(cases := c.cases[id := case'])
  }

  function RequireMember(c: CouncilState, voter: Address): Result<()> {
    if c.roll.paused then Err(InvalidStatus)
    else if voter !in c.roll.members then Err(Unauthorized)
    else RequireAuth(voter)
  }

  // ---------------------------------------------------------------- the operations

  function NewCase(request: nat, now: nat, window: nat): Case {
    Case(request, Window(now + window, now + window + window), None, Tally(0, 0, 0),
         Ballots(map[], map[], map[]), Reward(0, 0))
  }

  function OpenCase(c: CouncilState, now: nat, request: nat, proposed: Outcome, disputed: Outcome,
                    proposalEvidence: string, disputeEvidence: string, bond: int, window: nat)
    : Result<(CouncilState, nat)>
  {
    if proposalEvidence == "" || disputeEvidence == "" then Err(EvidenceRequired)
    else if proposed == disputed || bond <= 0 || window == 0 then Err(InvalidInput)
    else if request in c.byRequest then Err(InvalidStatus)
    else
      var id := c.nextId;
      Ok((c.(cases := c.cases[id := NewCase(request, now, window)],
             byRequest := c.byRequest[request := id], nextId := id + 1), id))
  }

  function CommitVote(c: CouncilState, now: nat, voter: Address, id: nat, commitment: Commitment)
    : Result<CouncilState>
  {
    var _ :- RequireMember(c, voter);
    var case' :- GetCase(c, id);
    if case'.final.Some? || now > case'.window.commitEnd then Err(InvalidStatus)
    else if voter in case'.ballots.commits then Err(VoteAlreadyCommitted)
    else
      var ballots := case'.ballots.(commits := case'.ballots.commits[voter := commitment]);
      Ok(SetCase(c, id, case'.(ballots := ballots)))
  }

  function RevealVote(c: CouncilState, now: nat, voter: Address, id: nat, outcome: Outcome, salt: nat)
    : Result<CouncilState>
  {
    var _ :- RequireMember(c, voter);
    var case' :- GetCase(c, id);
    if now <= case'.window.commitEnd || now > case'.window.revealEnd then Err(InvalidStatus)
    else if voter !in case'.ballots.commits then Err(VoteNotCommitted)
    else if case'.ballots.commits[voter] != Hash(id, voter, outcome, salt) then Err(InvalidReveal)
    else if voter in case'.ballots.revealed then Err(InvalidReveal)
    else
      var ballots := case'.ballots.(revealed := case'.ballots.revealed[voter := outcome]);
      Ok(SetCase(c, id, case'.(tally := case'.tally.Add(outcome), ballots := ballots)))
  }

  /** The strict plurality of the reveals; Invalid when neither YES nor NO has one. */
  function Verdict(t: Tally): Outcome {
    if t.yes > t.no && t.yes > t.invalid then Yes
    else if t.no > t.yes && t.no > t.invalid then No
    else Invalid
  }

  /** More votes than every other outcome. */
  predicate StrictPlurality(t: Tally, outcome: Outcome) {
    forall other: Outcome :: other != outcome ==> t.Of(outcome) > t.Of(other)
  }

  /** YES or NO is reported exactly when it has the strict plurality. */
  lemma VerdictIsPlurality(t: Tally, outcome: Outcome)
    requires outcome != Invalid
    ensures Verdict(t) == outcome <==> StrictPlurality(t, outcome)
  {
    if StrictPlurality(t, outcome) {
      assert t.Of(outcome) > t.Of(Invalid) && t.Of(outcome) > t.Of(if outcome == Yes then No else Yes);
    }
  }

  function FinalizeCase(c: CouncilState, now: nat, id: nat): Result<(CouncilState, Outcome)> {
    var case' :- GetCase(c, id);
    if case'.final.Some? then Err(AlreadyResolved)
    else if now <= case'.window.revealEnd then Err(TooEarly)
    else
      var outcome := Verdict(case'.tally);
      Ok((SetCase(c, id, case'.(final := Some(outcome))), outcome))
  }

  /** The oracle's transfer of slashed collateral together with the entry in the case's pool. */
  function RecordReward(c: CouncilState, id: nat, amount: int): Result<CouncilState> {
    if amount <= 0 then Err(InvalidAmount)
    else
      var case' :- GetCase(c, id);
      var reward := case'.reward.(pool := case'.reward.pool + amount);
      Ok(SetCase(c.(balance := c.balance + amount), id, case'.(reward := reward)))
  }

  /** What one correct voter is paid now. */
  function RewardShare(case': Case, outcome: Outcome): int {
    var votes := case'.tally.Of(outcome);
    if case'.reward.pool > 0 && votes > 0 then case'.reward.pool / votes else 0
  }

  function ClaimReward(c: CouncilState, voter: Address, id: nat): Result<(CouncilState, int)> {
    var _ :- RequireAuth(voter);
    var case' :- GetCase(c, id);
    if case'.final.None? then Err(InvalidStatus)
    else if voter !in case'.ballots.revealed then Err(VoteNotCommitted)
    else if voter in case'.ballots.claimed then Err(ActionConsumed)
    else
      var correct := case'.ballots.revealed[voter] == case'.final.value;
      var payout := if correct then RewardShare(case', case'.final.value) else 0;
      if c.balance < payout then Err(TransferTrapped)
      else Ok((SetCase(c.(balance := c.balance - payout), id, Claimed(case', voter, correct, payout)), payout))
  }

  function Claimed(case': Case, voter: Address, correct: bool, payout: int): Case {
    case'.(ballots := case'.ballots.(claimed := case'.ballots.claimed[voter := correct]),
           reward := case'.reward.(paid := case'.reward.paid + payout))
  }

  function SweepReward(c: CouncilState, id: nat): Result<(CouncilState, int)> {
    var case' :- GetCase(c, id);
    if case'.final.None? then Err(InvalidStatus)
    else if case'.tally.Of(case'.final.value) > 0 then Err(InvalidStatus)
    else if case'.reward.pool <= 0 then Err(InvalidAmount)
    else if c.balance < case'.reward.pool then Err(TransferTrapped)
    else
      var pool := case'.reward.pool;
      Ok((SetCase(c.(balance := c.balance - pool), id, case'.(reward := case'.reward.(pool := 0))), pool))
  }

  // ---------------------------------------------------------------- what every state keeps

  /** Who revealed an outcome. */
  function VotersFor(revealed: map<Address, Outcome>, outcome: Outcome): set<Address> {
    set v | v in revealed && revealed[v] == outcome
  }

  /** Who was paid as a correct voter. */
  function PaidVoters(claimed: map<Address, bool>): set<Address> {
    set v | v in claimed && claimed[v]
  }

  /** The tally counts the reveals, every reveal has its commit, and voting follows the clock. */
  ghost predicate FairVote(case': Case, clock: nat) {
    && (forall o :: case'.tally.Of(o) == |VotersFor(case'.ballots.revealed, o)|)
    && (forall v :: v in case'.ballots.revealed ==> v in case'.ballots.commits)
    && (case'.ballots.revealed != map[] ==> clock > case'.window.commitEnd)
    && case'.window.commitEnd <= case'.window.revealEnd
  }

  /** The verdict is the plurality of a tally that can no longer change, and rewards stay within the pool. */
  ghost predicate FairReward(case': Case, clock: nat) {
    && (case'.final.None? ==> case'.ballots.claimed == map[] && case'.reward.paid == 0)
    && (case'.final.Some? ==>
          && clock > case'.window.revealEnd
          && case'.final.value == Verdict(case'.tally)
          && PaidVoters(case'.ballots.claimed) <= VotersFor(case'.ballots.revealed, case'.final.value)
          && 0 <= case'.reward.paid <=
             |PaidVoters(case'.ballots.claimed)| * RewardShare(case', case'.final.value))
    && case'.reward.pool >= 0
  }

  function UnpaidOf(case': Case): int {
    case'.reward.pool - case'.reward.paid
  }

  ghost predicate FairCouncil(c: CouncilState, clock: nat) {
    && (forall id :: id in c.cases ==> id < c.nextId && FairVote(c.cases[id], clock) && FairReward(c.cases[id], clock))
    && c.balance >= SumBy(c.cases, UnpaidOf)
  }

  // ---------------------------------------------------------------- one case at a time

  lemma CountAdd(revealed: map<Address, Outcome>, voter: Address, outcome: Outcome, o: Outcome)
    requires voter !in revealed
    ensures |VotersFor(revealed[voter := outcome], o)| == |VotersFor(revealed, o)| + (if o == outcome then 1 else 0)
  {
    if o == outcome {
      assert VotersFor(revealed[voter := outcome], o) == VotersFor(revealed, o) + {voter};
    } else {
      assert VotersFor(revealed[voter := outcome], o) == VotersFor(revealed, o);
    }
  }

  lemma RevealFair(case': Case, clock: nat, now: nat, voter: Address, outcome: Outcome)
    requires FairVote(case', clock) && voter in case'.ballots.commits && voter !in case'.ballots.revealed
    requires now > case'.window.commitEnd
    ensures FairVote(case'.(tally := case'.tally.Add(outcome),
                            ballots := case'.ballots.(revealed := case'.ballots.revealed[voter := outcome])), now)
  {
    var tally := case'.tally.Add(outcome);
    var revealed := case'.ballots.revealed[voter := outcome];
    forall o ensures tally.Of(o) == |VotersFor(revealed, o)| {
      CountAdd(case'.ballots.revealed, voter, outcome, o);
    }
  }

  /** No more is ever paid than the pool holds. */
  lemma PaidWithinPool(case': Case, clock: nat)
    requires FairVote(case', clock) && FairReward(case', clock)
    ensures 0 <= case'.reward.paid <= case'.reward.pool
  {
    if case'.final.Some? {
      var o := case'.final.value;
      var votes := case'.tally.Of(o);
      CountWithin(PaidVoters(case'.ballots.claimed), VotersFor(case'.ballots.revealed, o));
      if case'.reward.pool > 0 && votes > 0 {
        SharesWithinPool(|PaidVoters(case'.ballots.claimed)|, votes, case'.reward.pool);
      }
    }
  }

  lemma CountWithin<X>(a: set<X>, b: set<X>)
    requires a <= b
    ensures |a| <= |b|
  {
    assert b == a + (b - a);
  }

  lemma SharesWithinPool(n: nat, votes: nat, pool: int)
    requires n <= votes && votes > 0 && pool > 0
    ensures n * (pool / votes) <= pool
  {
    var share := pool / votes;
    assert pool == votes * share + pool % votes;
    assert n * share <= votes * share;
  }

  /** A correct voter who claims for the first time is paid one more share. */
  lemma ClaimFair(case': Case, clock: nat, voter: Address)
    requires FairVote(case', clock) && FairReward(case', clock) && case'.final.Some?
    requires voter in case'.ballots.revealed && voter !in case'.ballots.claimed
    ensures var correct := case'.ballots.revealed[voter] == case'.final.value;
            var payout := if correct then RewardShare(case', case'.final.value) else 0;
            && payout >= 0
            && FairReward(Claimed(case', voter, correct, payout), clock)
            && FairVote(Claimed(case', voter, correct, payout), clock)
  {
    var o := case'.final.value;
    var correct := case'.ballots.revealed[voter] == o;
    var share := RewardShare(case', o);
    var before, after := case'.ballots.claimed, case'.ballots.claimed[voter := correct];
    if correct {
      assert PaidVoters(after) == PaidVoters(before) + {voter};
      OneMore(|PaidVoters(before)|, share);
    } else {
      assert PaidVoters(after) == PaidVoters(before);
    }
  }

  lemma OneMore(n: nat, share: int)
    ensures (n + 1) * share == n * share + share
  {
  }

  /** A growing pool only makes every share larger. */
  lemma GrowFair(case': Case, clock: nat, amount: int)
    requires FairReward(case', clock) && amount > 0
    ensures FairReward(case'.(reward := case'.reward.(pool := case'.reward.pool + amount)), clock)
  {
    if case'.final.Some? {
      var o := case'.final.value;
      var votes := case'.tally.Of(o);
      var grown := case'.(reward := case'.reward.(pool := case'.reward.pool + amount));
      var n := |PaidVoters(case'.ballots.claimed)|;
      if votes > 0 {
        DivisionMonotone(case'.reward.pool, case'.reward.pool + amount, votes);
        MoreEach(n, RewardShare(case', o), RewardShare(grown, o));
      }
    }
  }

  lemma DivisionMonotone(a: int, b: int, d: nat)
    requires 0 <= a <= b && d > 0
    ensures 0 <= a / d <= b / d
  {
    Euclid(a, d);
    QuotientAtLeast(a, d, 0);
    QuotientAtLeast(b, d, a / d);
  }

  lemma MoreEach(n: nat, x: int, y: int)
    requires x <= y
    ensures n * x <= n * y
  {
  }

  // ---------------------------------------------------------------- runs of the council

  datatype Act =
    | Open(request: nat, proposed: Outcome, disputed: Outcome, proposalEvidence: string, disputeEvidence: string,
           bond: int, window: nat)
    | Commit(voter: Address, caseId: nat, commitment: Commitment)
    | Reveal(voter: Address, caseId: nat, outcome: Outcome, salt: nat)
    | Finalize(caseId: nat)
    | Pool(caseId: nat, amount: int)
    | Claim(voter: Address, caseId: nat)
    | Sweep(caseId: nat)
    | Seat(member: Address, approved: bool)
    | Halt(paused: bool)

  function Perform(c: CouncilState, now: nat, act: Act): Result<CouncilState> {
    match act
    case Open(request, proposed, disputed, proposalEvidence, disputeEvidence, bond, window) =>
      var (c1, _) :- OpenCase(c, now, request, proposed, disputed, proposalEvidence, disputeEvidence, bond, window);
      Ok(c1)
    case Commit(voter, id, commitment) => CommitVote(c, now, voter, id, commitment)
    case Reveal(voter, id, outcome, salt) => RevealVote(c, now, voter, id, outcome, salt)
    case Finalize(id) =>
      var (c1, _) :- FinalizeCase(c, now, id);
      Ok(c1)
    case Pool(id, amount) => RecordReward(c, id, amount)
    case Claim(voter, id) =>
      var (c1, _) :- ClaimReward(c, voter, id);
      Ok(c1)
    case Sweep(id) =>
      var (c1, _) :- SweepReward(c, id);
      Ok(c1)
    case Seat(member, approved) =>
      Ok(c.(roll := c.roll.(members := if approved then c.roll.members + {member} else c.roll.members - {member})))
    case Halt(paused) => Ok(c.(roll := c.roll.(paused := paused)))
  }

  lemma SetCaseFair(c: CouncilState, c': CouncilState, clock: nat, now: nat, id: nat, case': Case)
    requires FairCouncil(c, clock) && clock <= now && id in c.cases
    requires c'.cases == c.cases[id := case'] && c'.nextId == c.nextId
    requires FairVote(case', now) && FairReward(case', now)
    requires c'.balance - UnpaidOf(case') >= c.balance - UnpaidOf(c.cases[id])
    ensures FairCouncil(c', now)
  {
    SumByUpdate(c.cases, UnpaidOf, id, case');
    forall j | j in c'.cases ensures j < c'.nextId && FairVote(c'.cases[j], now) && FairReward(c'.cases[j], now) {
      if j != id {
        assert FairVote(c.cases[j], clock) && FairReward(c.cases[j], clock);
      }
    }
  }

  lemma OpenFair(c: CouncilState, clock: nat, now: nat, request: nat, window: nat)
    requires FairCouncil(c, clock) && clock <= now
    ensures FairCouncil(c.(cases := c.cases[c.nextId := NewCase(request, now, window)],
                           byRequest := c.byRequest[request := c.nextId], nextId := c.nextId + 1), now)
  {
    var opening := NewCase(request, now, window);
    var cases := c.cases[c.nextId := opening];
    assert c.nextId !in c.cases;
    SumByUpdate(c.cases, UnpaidOf, c.nextId, opening);
    forall o ensures opening.tally.Of(o) == |VotersFor(opening.ballots.revealed, o)| {
      assert VotersFor(opening.ballots.revealed, o) == {};
    }
    forall j | j in cases ensures FairVote(cases[j], now) && FairReward(cases[j], now) {
      if j != c.nextId {
        assert FairVote(c.cases[j], clock) && FairReward(c.cases[j], clock);
      }
    }
  }

  lemma FinalizeFair(case': Case, clock: nat, now: nat)
    requires FairVote(case', clock) && FairReward(case', clock) && clock <= now
    requires case'.final.None? && now > case'.window.revealEnd
    ensures FairReward(case'.(final := Some(Verdict(case'.tally))), now)
    ensures FairVote(case'.(final := Some(Verdict(case'.tally))), now)
  {
    assert PaidVoters(case'.ballots.claimed) == {};
  }

  /** A swept pool belonged to a verdict nobody voted for. */
  lemma SweepFair(case': Case, clock: nat)
    requires FairVote(case', clock) && FairReward(case', clock) && case'.final.Some?
    requires case'.tally.Of(case'.final.value) == 0
    ensures case'.reward.paid == 0
    ensures FairReward(case'.(reward := case'.reward.(pool := 0)), clock)
  {
  }

  /** Every act keeps the council fair, as long as the clock does not go back. */
  lemma PerformFair(c: CouncilState, clock: nat, now: nat, act: Act)
    requires FairCouncil(c, clock) && clock <= now && Perform(c, now, act).Ok?
    ensures FairCouncil(Perform(c, now, act).value, now)
  {
    hide FairVote, FairReward;
    var c' := Perform(c, now, act).value;
    LaterFair(c, clock, now);
    match act
    case Open(request, _, _, _, _, _, window) => OpenFair(c, clock, now, request, window);
    case Commit(voter, id, commitment) =>
      CommitFair(c.cases[id], now, voter, commitment);
      SetCaseFair(c, c', now, now, id, c'.cases[id]);
    case Reveal(voter, id, outcome, salt) =>
      RevealFair(c.cases[id], now, now, voter, outcome);
      RevealOpen(c.cases[id], now, c'.cases[id]);
      SetCaseFair(c, c', now, now, id, c'.cases[id]);
    case Finalize(id) =>
      FinalizeFair(c.cases[id], now, now);
      SetCaseFair(c, c', now, now, id, c'.cases[id]);
    case Pool(id, amount) =>
      GrowFair(c.cases[id], now, amount);
      SameVote(c.cases[id], now, c'.cases[id]);
      SetCaseFair(c, c', now, now, id, c'.cases[id]);
    case Claim(voter, id) =>
      ClaimFair(c.cases[id], now, voter);
      SetCaseFair(c, c', now, now, id, c'.cases[id]);
    case Sweep(id) =>
      SweepFair(c.cases[id], now);
      SameVote(c.cases[id], now, c'.cases[id]);
      SetCaseFair(c, c', now, now, id, c'.cases[id]);
    case Seat(_, _) =>
    case Halt(_) =>
  }

  lemma LaterFair(c: CouncilState, clock: nat, now: nat)
    requires FairCouncil(c, clock) && clock <= now
    ensures FairCouncil(c, now)
  {
    forall j | j in c.cases ensures FairVote(c.cases[j], now) && FairReward(c.cases[j], now) {
      assert FairVote(c.cases[j], clock) && FairReward(c.cases[j], clock);
    }
  }

  lemma CommitFair(case': Case, now: nat, voter: Address, commitment: Commitment)
    requires FairVote(case', now) && FairReward(case', now)
    ensures var ballots := case'.ballots.(commits := case'.ballots.commits[voter := commitment]);
            FairVote(case'.(ballots := ballots), now) && FairReward(case'.(ballots := ballots), now)
  {
  }

  /** A reveal happens before the verdict. */
  lemma RevealOpen(case': Case, now: nat, after: Case)
    requires FairReward(case', now) && now <= case'.window.revealEnd
    requires after.final == case'.final && after.reward == case'.reward
             && after.ballots.claimed == case'.ballots.claimed
    ensures FairReward(after, now)
  {
  }

  lemma SameVote(case': Case, now: nat, after: Case)
    requires FairVote(case', now)
    requires after.tally == case'.tally && after.ballots == case'.ballots && after.window == case'.window
    ensures FairVote(after, now)
  {
  }

  datatype Moment = Moment(now: nat, act: Act)

  function PerformAll(c: CouncilState, acts: seq<Moment>): CouncilState
    decreases |acts|
  {
    if acts == [] then c
    else
      var r := Perform(c, acts[0].now, acts[0].act);
      PerformAll(if r.Ok? then r.value else c, acts[1..])
  }

  /** The clock never goes back. */
  predicate Ordered(clock: nat, acts: seq<Moment>)
    decreases |acts|
  {
    acts == [] || (clock <= acts[0].now && Ordered(acts[0].now, acts[1..]))
  }

  function ClockAfter(clock: nat, acts: seq<Moment>): nat
    decreases |acts|
  {
    if acts == [] then clock else ClockAfter(acts[0].now, acts[1..])
  }

  lemma {:induction false} PerformAllFair(c: CouncilState, clock: nat, acts: seq<Moment>)
    requires FairCouncil(c, clock) && Ordered(clock, acts)
    ensures FairCouncil(PerformAll(c, acts), ClockAfter(clock, acts))
    decreases |acts|
  {
    hide FairCouncil, Perform;
    if acts != [] {
      var now, act := acts[0].now, acts[0].act;
      LaterFair(c, clock, now);
      if Perform(c, now, act).Ok? {
        PerformFair(c, clock, now, act);
        PerformAllFair(Perform(c, now, act).value, now, acts[1..]);
      } else {
        PerformAllFair(c, now, acts[1..]);
      }
    }
  }

  lemma EmptyFair()
    ensures FairCouncil(NO_COUNCIL, 0)
  {
  }

  /** In every run of the council: tallies count the reveals, reveals are among the commits, the verdict is
      the strict plurality, payouts stay within the pool of their case, and the council's collateral covers
      what all pools still owe. */
  lemma CouncilLaws(acts: seq<Moment>, id: nat)
    requires Ordered(0, acts)
    ensures var c := PerformAll(NO_COUNCIL, acts);
            && c.balance >= SumBy(c.cases, UnpaidOf) >= 0
            && (id in c.cases ==>
                  var x := c.cases[id];
                  && (forall o :: x.tally.Of(o) == |VotersFor(x.ballots.revealed, o)|)
                  && x.ballots.revealed.Keys <= x.ballots.commits.Keys
                  && (x.final.Some? ==> forall o :: o != Invalid ==>
                        (x.final.value == o <==> StrictPlurality(x.tally, o)))
                  && 0 <= x.reward.paid <= x.reward.pool)
  {
    EmptyFair();
    PerformAllFair(NO_COUNCIL, 0, acts);
    var c := PerformAll(NO_COUNCIL, acts);
    var clock := ClockAfter(0, acts);
    forall j | j in c.cases ensures UnpaidOf(c.cases[j]) >= 0 {
      PaidWithinPool(c.cases[j], clock);
    }
    SumByNonNegative(c.cases, UnpaidOf);
    if id in c.cases {
      PaidWithinPool(c.cases[id], clock);
      VerdictIsPlurality(c.cases[id].tally, Yes);
      VerdictIsPlurality(c.cases[id].tally, No);
    }
  }

  /** No vote is committed once a vote was revealed. */
  lemma NoCommitAfterReveal(acts: seq<Moment>, now: nat, voter: Address, id: nat, commitment: Commitment)
    requires Ordered(0, acts) && ClockAfter(0, acts) <= now
    requires var c := PerformAll(NO_COUNCIL, acts);
             id in c.cases && c.cases[id].ballots.revealed != map[]
    ensures CommitVote(PerformAll(NO_COUNCIL, acts), now, voter, id, commitment).Err?
  {
    EmptyFair();
    PerformAllFair(NO_COUNCIL, 0, acts);
    var c := PerformAll(NO_COUNCIL, acts);
    assert FairVote(c.cases[id], ClockAfter(0, acts));
  }

  /** Once a case has its verdict, no run changes the verdict or the tally, and nobody is paid twice. */
  lemma {:induction false} VerdictIsFinal(c: CouncilState, clock: nat, acts: seq<Moment>, id: nat)
    requires FairCouncil(c, clock) && Ordered(clock, acts) && id in c.cases && c.cases[id].final.Some?
    ensures var c' := PerformAll(c, acts);
            && id in c'.cases
            && c'.cases[id].final == c.cases[id].final
            && c'.cases[id].tally == c.cases[id].tally
            && c'.cases[id].ballots.revealed == c.cases[id].ballots.revealed
            && c.cases[id].ballots.claimed.Keys <= c'.cases[id].ballots.claimed.Keys
    decreases |acts|
  {
    if acts != [] {
      var now, act := acts[0].now, acts[0].act;
      LaterFair(c, clock, now);
      if Perform(c, now, act).Ok? {
        PerformFair(c, clock, now, act);
        FrozenByAct(c, clock, now, act, id);
        VerdictIsFinal(Perform(c, now, act).value, now, acts[1..], id);
      } else {
        VerdictIsFinal(c, now, acts[1..], id);
      }
    }
  }

  lemma FrozenByAct(c: CouncilState, clock: nat, now: nat, act: Act, id: nat)
    requires FairCouncil(c, clock) && clock <= now && Perform(c, now, act).Ok?
    requires id in c.cases && c.cases[id].final.Some?
    ensures var c' := Perform(c, now, act).value;
            && id in c'.cases
            && c'.cases[id].final == c.cases[id].final
            && c'.cases[id].tally == c.cases[id].tally
            && c'.cases[id].ballots.revealed == c.cases[id].ballots.revealed
            && c.cases[id].ballots.claimed.Keys <= c'.cases[id].ballots.claimed.Keys
  {
    hide FairVote;
    assert FairReward(c.cases[id], clock);
  }

  /** How often a voter's claim on a case succeeds in a run. */
  function ClaimsOf(c: CouncilState, acts: seq<Moment>, voter: Address, id: nat): nat
    decreases |acts|
  {
    if acts == [] then 0
    else
      var r := Perform(c, acts[0].now, acts[0].act);
      (if r.Ok? && acts[0].act == Claim(voter, id) then 1 else 0)
      + ClaimsOf(if r.Ok? then r.value else c, acts[1..], voter, id)
  }

  /** The record of a claim is never lost. */
  lemma ClaimStays(c: CouncilState, clock: nat, now: nat, act: Act, voter: Address, id: nat)
    requires FairCouncil(c, clock) && Perform(c, now, act).Ok?
    requires id in c.cases && voter in c.cases[id].ballots.claimed
    ensures var c' := Perform(c, now, act).value;
            id in c'.cases && voter in c'.cases[id].ballots.claimed && act != Claim(voter, id)
  {
    hide FairVote, FairReward;
  }

  lemma ClaimRecorded(c: CouncilState, now: nat, voter: Address, id: nat)
    requires Perform(c, now, Claim(voter, id)).Ok?
    ensures var c' := Perform(c, now, Claim(voter, id)).value;
            id in c'.cases && voter in c'.cases[id].ballots.claimed
  {
  }

  lemma {:induction false} ClaimsAreOver(c: CouncilState, clock: nat, acts: seq<Moment>, voter: Address, id: nat)
    requires FairCouncil(c, clock) && Ordered(clock, acts)
    requires id in c.cases && voter in c.cases[id].ballots.claimed
    ensures ClaimsOf(c, acts, voter, id) == 0
    decreases |acts|
  {
    hide FairCouncil, Perform;
    if acts != [] {
      var now, act := acts[0].now, acts[0].act;
      LaterFair(c, clock, now);
      if Perform(c, now, act).Ok? {
        ClaimStays(c, clock, now, act, voter, id);
        PerformFair(c, clock, now, act);
        ClaimsAreOver(Perform(c, now, act).value, now, acts[1..], voter, id);
      } else {
        ClaimsAreOver(c, now, acts[1..], voter, id);
      }
    }
  }

  /** Over any run at most one claim of a voter on a case succeeds. */
  lemma {:induction false} ClaimOnce(c: CouncilState, clock: nat, acts: seq<Moment>, voter: Address, id: nat)
    requires FairCouncil(c, clock) && Ordered(clock, acts)
    ensures ClaimsOf(c, acts, voter, id) <= 1
    decreases |acts|
  {
    hide FairCouncil, Perform;
    if acts != [] {
      var now, act := acts[0].now, acts[0].act;
      LaterFair(c, clock, now);
      if Perform(c, now, act).Ok? {
        var c' := Perform(c, now, act).value;
        PerformFair(c, clock, now, act);
        if act == Claim(voter, id) {
          ClaimRecorded(c, now, voter, id);
          ClaimsAreOver(c', now, acts[1..], voter, id);
        } else {
          ClaimOnce(c', now, acts[1..], voter, id);
        }
      } else {
        ClaimOnce(c, now, acts[1..], voter, id);
      }
    }
  }
}
