// What a vote is worth: who may vote and when, that every revealed vote is the one committed, and what a correct voter
// is paid, over every run of the council.

module CouncilRewards {
  import opened Basics
  import opened DikeTypes
  import opened DikeMath
  import opened MapSums
  import opened CouncilVoting

  // ---------------------------------------------------------------- voting

  /** A commitment opens to the revealed vote. */
  predicate Opens(x: Case, id: nat, voter: Address)
    requires voter in x.ballots.revealed
  {
    voter in x.ballots.commits
    && var c := x.ballots.commits[voter];
    c.Hash? && c == Hash(id, voter, x.ballots.revealed[voter], c.salt)
  }

  ghost predicate OpensAll(c: CouncilState) {
    forall id, voter :: id in c.cases && voter in c.cases[id].ballots.revealed ==> Opens(c.cases[id], id, voter)
  }

  lemma ActOpens(c: CouncilState, clock: nat, now: nat, act: Act)
    requires FairCouncil(c, clock) && OpensAll(c) && Perform(c, now, act).Ok?
    ensures OpensAll(Perform(c, now, act).value)
  {
    hide FairVote, FairReward, Verdict, RewardShare;
    var c' := Perform(c, now, act).value;
    forall id, voter | id in c'.cases && voter in c'.cases[id].ballots.revealed
      ensures Opens(c'.cases[id], id, voter)
    {
      if id in c.cases && voter in c.cases[id].ballots.revealed {
        assert Opens(c.cases[id], id, voter);
      }
    }
  }

  lemma {:induction false} ActsOpen(c: CouncilState, clock: nat, acts: seq<Moment>)
    requires FairCouncil(c, clock) && OpensAll(c) && Ordered(clock, acts)
    ensures OpensAll(PerformAll(c, acts))
    decreases |acts|
  {
    hide FairCouncil, OpensAll, Perform;
    if acts != [] {
      var now, act := acts[0].now, acts[0].act;
      LaterFair(c, clock, now);
      if Perform(c, now, act).Ok? {
        ActOpens(c, now, now, act);
        PerformFair(c, clock, now, act);
        ActsOpen(Perform(c, now, act).value, now, acts[1..]);
      } else {
        ActsOpen(c, now, acts[1..]);
      }
    }
  }

  /** In every run: a revealed vote is the one its voter committed to, whatever the others did. */
  lemma RevealsMatchCommits(acts: seq<Moment>, id: nat, voter: Address)
    requires Ordered(0, acts)
    requires var c := PerformAll(NO_COUNCIL, acts); id in c.cases && voter in c.cases[id].ballots.revealed
    ensures var x := PerformAll(NO_COUNCIL, acts).cases[id];
            voter in x.ballots.commits
            && exists salt :: x.ballots.commits[voter] == Hash(id, voter, x.ballots.revealed[voter], salt)
  {
    hide PerformAll, FairCouncil;
    EmptyFair();
    ActsOpen(NO_COUNCIL, 0, acts);
    assert Opens(PerformAll(NO_COUNCIL, acts).cases[id], id, voter);
  }

  /** A commit is accepted exactly from a seated member who signs, up to the end of the commit window of a case without
      a verdict, once. It adds that commitment and changes nothing else. */
  lemma CommitsExactly(c: CouncilState, now: nat, voter: Address, id: nat, commitment: Commitment)
    ensures CommitVote(c, now, voter, id, commitment).Ok? <==>
            && !c.roll.paused && voter in c.roll.members && voter.Account? && id in c.cases
            && c.cases[id].final.None? && now <= c.cases[id].window.commitEnd && voter !in c.cases[id].ballots.commits
    ensures CommitVote(c, now, voter, id, commitment).Ok? ==>
              var c' := CommitVote(c, now, voter, id, commitment).value;
              && c'.cases.Keys == c.cases.Keys && (forall k :: k in c.cases && k != id ==> c'.cases[k] == c.cases[k])
              && c'.balance == c.balance
              && var (x, x') := (c.cases[id], c'.cases[id]);
              && x'.ballots.commits == x.ballots.commits[voter := commitment]
              && x'.ballots.revealed == x.ballots.revealed && x'.tally == x.tally && x'.window == x.window
  {
  }

  /** A reveal is accepted exactly from a seated member who signs, after the commit window and up to the end of the
      reveal window, when it opens the voter's commitment, once. It counts for the revealed outcome and no other. */
  lemma RevealsExactly(c: CouncilState, now: nat, voter: Address, id: nat, outcome: Outcome, salt: nat)
    ensures RevealVote(c, now, voter, id, outcome, salt).Ok? <==>
            && !c.roll.paused && voter in c.roll.members && voter.Account? && id in c.cases
            && c.cases[id].window.commitEnd < now <= c.cases[id].window.revealEnd
            && voter in c.cases[id].ballots.commits && voter !in c.cases[id].ballots.revealed
            && c.cases[id].ballots.commits[voter] == Hash(id, voter, outcome, salt)
    ensures RevealVote(c, now, voter, id, outcome, salt).Ok? ==>
              var c' := RevealVote(c, now, voter, id, outcome, salt).value;
              && c'.cases.Keys == c.cases.Keys && (forall k :: k in c.cases && k != id ==> c'.cases[k] == c.cases[k])
              && c'.balance == c.balance
              && var (x, x') := (c.cases[id], c'.cases[id]);
              && x'.ballots.revealed == x.ballots.revealed[voter := outcome]
              && x'.ballots.commits == x.ballots.commits && x'.window == x.window
              && forall o :: x'.tally.Of(o) == x.tally.Of(o) + (if o == outcome then 1 else 0)
  {
  }

  // ---------------------------------------------------------------- one claim

  /** How many voters were right. */
  function Winners(x: Case): nat
    requires x.final.Some?
  {
    |VotersFor(x.ballots.revealed, x.final.value)|
  }

  /** An accepted claim pays a voter who was right the pool divided by those who were right, rounded down, and a voter
      who was wrong nothing; and that much leaves the council. */
  lemma ClaimPaysShare(c: CouncilState, clock: nat, voter: Address, id: nat)
    requires FairCouncil(c, clock) && ClaimReward(c, voter, id).Ok?
    ensures var (c', p) := ClaimReward(c, voter, id).value;
            && id in c.cases && id in c'.cases
            && var x := c.cases[id];
            && x.final.Some? && voter in x.ballots.revealed && voter.Account?
            && (if x.ballots.revealed[voter] == x.final.value
                then Winners(x) > 0 && p * Winners(x) <= x.reward.pool < (p + 1) * Winners(x)
                else p == 0)
            && c'.balance == c.balance - p && c'.cases[id].reward.paid == x.reward.paid + p
            && c'.cases[id].reward.pool == x.reward.pool
  {
    hide Verdict;
    var x := c.cases[id];
    assert FairVote(x, clock) && FairReward(x, clock);
    var o := x.final.value;
    assert x.tally.Of(o) == Winners(x);
    if x.ballots.revealed[voter] == o {
      CountMember(VotersFor(x.ballots.revealed, o), voter);
      Euclid(x.reward.pool, Winners(x));
      Shared(x.reward.pool, Winners(x));
    }
  }

  lemma CountMember<X>(s: set<X>, x: X)
    requires x in s
    ensures |s| > 0
  {
  }

  lemma Shared(pool: int, n: nat)
    requires pool >= 0 && n > 0
    ensures (pool / n) * n <= pool < (pool / n + 1) * n
  {
    Euclid(pool, n);
  }

  /** The council always has the money for the next share. */
  lemma ShareIsThere(c: CouncilState, clock: nat, voter: Address, id: nat)
    requires FairCouncil(c, clock) && id in c.cases && c.cases[id].final.Some?
    requires voter in c.cases[id].ballots.revealed && voter !in c.cases[id].ballots.claimed
    ensures var x := c.cases[id];
            (if x.ballots.revealed[voter] == x.final.value then RewardShare(x, x.final.value) else 0) <= c.balance
  {
    hide FairVote, FairReward, RewardShare;
    var x := c.cases[id];
    assert FairVote(x, clock) && FairReward(x, clock);
    var correct := x.ballots.revealed[voter] == x.final.value;
    ClaimFair(x, clock, voter);
    PaidWithinPool(Claimed(x, voter, correct, if correct then RewardShare(x, x.final.value) else 0), clock);
    UnpaidIsThere(c, clock, id);
  }

  lemma UnpaidIsThere(c: CouncilState, clock: nat, id: nat)
    requires FairCouncil(c, clock) && id in c.cases
    ensures UnpaidOf(c.cases[id]) <= c.balance
  {
    forall j | j in c.cases ensures UnpaidOf(c.cases[j]) >= 0 {
      PaidWithinPool(c.cases[j], clock);
    }
    SumByMember(c.cases, UnpaidOf, id);
  }

  /** A claim is heard exactly from someone who signs and revealed a vote, in a case with a verdict, once; the money is
      always there. It marks the claim and touches nothing else of the case but what was paid. */
  lemma ClaimsExactly(c: CouncilState, clock: nat, voter: Address, id: nat)
    requires FairCouncil(c, clock)
    ensures ClaimReward(c, voter, id).Ok? <==>
            && voter.Account? && id in c.cases && c.cases[id].final.Some?
            && voter in c.cases[id].ballots.revealed && voter !in c.cases[id].ballots.claimed
    ensures ClaimReward(c, voter, id).Ok? ==>
              var c' := ClaimReward(c, voter, id).value.0;
              && id in c'.cases && voter in c'.cases[id].ballots.claimed
              && c'.cases[id].final == c.cases[id].final && c'.cases[id].tally == c.cases[id].tally
              && c'.cases[id].ballots.revealed == c.cases[id].ballots.revealed
              && (forall k :: k in c.cases && k != id ==> k in c'.cases && c'.cases[k] == c.cases[k])
  {
    hide Verdict, RewardShare, FairCouncil;
    if && id in c.cases && c.cases[id].final.Some?
       && voter in c.cases[id].ballots.revealed && voter !in c.cases[id].ballots.claimed {
      ShareIsThere(c, clock, voter, id);
    }
  }

  /** A pool is swept exactly when nobody voted for the verdict and there is something in it; all of it leaves, and is
      always there. */
  lemma SweepsExactly(c: CouncilState, clock: nat, id: nat)
    requires FairCouncil(c, clock)
    ensures SweepReward(c, id).Ok? <==>
            && id in c.cases && c.cases[id].final.Some? && Winners(c.cases[id]) == 0 && c.cases[id].reward.pool > 0
    ensures SweepReward(c, id).Ok? ==>
              var (c', swept) := SweepReward(c, id).value;
              && swept == c.cases[id].reward.pool && c'.balance == c.balance - swept
              && id in c'.cases && c'.cases[id].reward.pool == 0
              && (forall k :: k in c.cases && k != id ==> k in c'.cases && c'.cases[k] == c.cases[k])
  {
    hide Verdict, RewardShare;
    if id in c.cases && c.cases[id].final.Some? {
      assert FairVote(c.cases[id], clock) && FairReward(c.cases[id], clock);
      assert c.cases[id].tally.Of(c.cases[id].final.value) == Winners(c.cases[id]);
      if Winners(c.cases[id]) == 0 {
        SweepFair(c.cases[id], clock);
        UnpaidIsThere(c, clock, id);
      }
    }
  }

  /** A case gets its verdict exactly once, after its reveal window, and nothing else of it changes. */
  lemma FinalizesExactly(c: CouncilState, now: nat, id: nat)
    ensures FinalizeCase(c, now, id).Ok? <==>
            id in c.cases && c.cases[id].final.None? && c.cases[id].window.revealEnd < now
    ensures FinalizeCase(c, now, id).Ok? ==>
              var (c', outcome) := FinalizeCase(c, now, id).value;
              && c' == c.(cases := c.cases[id := c.cases[id].(final := Some(outcome))])
              && forall o :: o != Invalid ==> (outcome == o <==> StrictPlurality(c.cases[id].tally, o))
  {
    if id in c.cases {
      VerdictIsPlurality(c.cases[id].tally, Yes);
      VerdictIsPlurality(c.cases[id].tally, No);
    }
  }

  // ---------------------------------------------------------------- all claims on a case

  /** A claim is marked as that of a voter who was right exactly when he was, and everyone so marked received the same
      share of the pool. */
  ghost predicate EvenReward(x: Case) {
    x.final.Some? ==>
      && (forall v :: v in x.ballots.claimed ==>
            v in x.ballots.revealed && (x.ballots.claimed[v] <==> x.ballots.revealed[v] == x.final.value))
      && (Winners(x) > 0 ==> x.reward.paid == |PaidVoters(x.ballots.claimed)| * (x.reward.pool / Winners(x)))
  }

  ghost predicate EvenCouncil(c: CouncilState) {
    forall id :: id in c.cases ==> EvenReward(c.cases[id])
  }

  /** A pool grows only before anyone has claimed from it. */
  predicate InTime(c: CouncilState, act: Act) {
    act.Pool? && act.caseId in c.cases ==> c.cases[act.caseId].ballots.claimed == map[]
  }

  predicate AllInTime(c: CouncilState, acts: seq<Moment>)
    decreases |acts|
  {
    acts != [] ==>
      && InTime(c, acts[0].act)
      && var r := Perform(c, acts[0].now, acts[0].act);
      AllInTime(if r.Ok? then r.value else c, acts[1..])
  }

  lemma ClaimEven(x: Case, clock: nat, voter: Address)
    requires FairVote(x, clock) && FairReward(x, clock) && EvenReward(x) && x.final.Some?
    requires voter in x.ballots.revealed && voter !in x.ballots.claimed
    ensures var correct := x.ballots.revealed[voter] == x.final.value;
            EvenReward(Claimed(x, voter, correct, if correct then RewardShare(x, x.final.value) else 0))
  {
    hide Verdict;
    var o := x.final.value;
    var correct := x.ballots.revealed[voter] == o;
    var before, after := x.ballots.claimed, x.ballots.claimed[voter := correct];
    assert x.tally.Of(o) == Winners(x);
    if correct {
      CountMember(VotersFor(x.ballots.revealed, o), voter);
      assert PaidVoters(after) == PaidVoters(before) + {voter};
      NoPoolNoShare(x.reward.pool, Winners(x));
      OneMore(|PaidVoters(before)|, x.reward.pool / Winners(x));
    } else {
      assert PaidVoters(after) == PaidVoters(before);
    }
  }

  lemma NoPoolNoShare(pool: int, n: nat)
    requires n > 0
    ensures pool == 0 ==> pool / n == 0
  {
  }

  /** A case nobody has claimed from is even whatever its pool. */
  lemma FreshEven(x: Case, clock: nat)
    requires FairVote(x, clock) && FairReward(x, clock) && x.ballots.claimed == map[]
    ensures EvenReward(x)
  {
    hide Verdict;
    assert PaidVoters(x.ballots.claimed) == {};
  }

  lemma ActEven(c: CouncilState, clock: nat, now: nat, act: Act)
    requires FairCouncil(c, clock) && EvenCouncil(c) && clock <= now && Perform(c, now, act).Ok? && InTime(c, act)
    ensures EvenCouncil(Perform(c, now, act).value)
  {
    var c' := Perform(c, now, act).value;
    PerformFair(c, clock, now, act);
    forall id | id in c'.cases ensures EvenReward(c'.cases[id]) {
      ActEvenAt(c, clock, now, act, id);
    }
  }

  lemma ActEvenAt(c: CouncilState, clock: nat, now: nat, act: Act, id: nat)
    requires FairCouncil(c, clock) && EvenCouncil(c) && clock <= now && Perform(c, now, act).Ok? && InTime(c, act)
    requires var c' := Perform(c, now, act).value; FairCouncil(c', now) && id in c'.cases
    ensures EvenReward(Perform(c, now, act).value.cases[id])
  {
    hide FairVote, FairReward, EvenReward, Verdict, RewardShare, Claimed;
    var c' := Perform(c, now, act).value;
    if id in c.cases && c'.cases[id] == c.cases[id] {
    } else if act.Claim? {
      ClaimEven(c.cases[id], clock, act.voter);
    } else if act.Sweep? {
      SweepEven(c.cases[id], clock);
    } else if act.Commit? {
      CommitEven(c.cases[id], c'.cases[id]);
    } else {
      assert FairVote(c'.cases[id], now) && FairReward(c'.cases[id], now);
      Unclaimed(c, clock, now, act, id);
      FreshEven(c'.cases[id], now);
    }
  }

  lemma CommitEven(x: Case, after: Case)
    requires EvenReward(x) && after == x.(ballots := x.ballots.(commits := after.ballots.commits))
    ensures EvenReward(after)
  {
  }

  lemma Unclaimed(c: CouncilState, clock: nat, now: nat, act: Act, id: nat)
    requires FairCouncil(c, clock) && clock <= now && Perform(c, now, act).Ok? && InTime(c, act)
    requires id in Perform(c, now, act).value.cases
    requires !(id in c.cases && Perform(c, now, act).value.cases[id] == c.cases[id])
    requires !act.Claim? && !act.Sweep? && !act.Commit?
    ensures Perform(c, now, act).value.cases[id].ballots.claimed == map[]
  {
    hide FairVote, Verdict, RewardShare;
    if id in c.cases {
      assert FairReward(c.cases[id], clock);
    }
  }

  lemma SweepEven(x: Case, clock: nat)
    requires FairVote(x, clock) && FairReward(x, clock) && EvenReward(x)
    requires x.final.Some? && x.tally.Of(x.final.value) == 0
    ensures EvenReward(x.(reward := x.reward.(pool := 0)))
  {
    assert x.tally.Of(x.final.value) == Winners(x);
  }

  lemma {:induction false} ActsEven(c: CouncilState, clock: nat, acts: seq<Moment>)
    requires FairCouncil(c, clock) && EvenCouncil(c) && Ordered(clock, acts) && AllInTime(c, acts)
    ensures EvenCouncil(PerformAll(c, acts))
    decreases |acts|
  {
    hide FairCouncil, EvenCouncil, Perform, InTime;
    if acts != [] {
      var now, act := acts[0].now, acts[0].act;
      LaterFair(c, clock, now);
      if Perform(c, now, act).Ok? {
        ActEven(c, clock, now, act);
        PerformFair(c, clock, now, act);
        ActsEven(Perform(c, now, act).value, now, acts[1..]);
      } else {
        ActsEven(c, now, acts[1..]);
      }
    }
  }

  /** When everyone who was right has claimed, less than one unit for each of them is left of the pool. */
  lemma PoolPaidOut(x: Case, clock: nat)
    requires FairVote(x, clock) && FairReward(x, clock) && EvenReward(x) && x.final.Some? && Winners(x) > 0
    requires VotersFor(x.ballots.revealed, x.final.value) <= x.ballots.claimed.Keys
    ensures 0 <= x.reward.pool - x.reward.paid < Winners(x)
  {
    hide Verdict;
    assert PaidVoters(x.ballots.claimed) == VotersFor(x.ballots.revealed, x.final.value);
    Shared(x.reward.pool, Winners(x));
  }
}
