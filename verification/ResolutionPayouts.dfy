// Who is paid what when a disputed request gets its verdict: the side that was right has its bond back and its share of
// the other, the council and the treasury have theirs; a verdict for neither side gives both bonds back.

module ResolutionPayouts {
  import opened Basics
  import opened DikeTypes
  import opened MarketRegistry
  import opened BondSplits
  import opened CouncilVoting
  import opened CodOracle
  import opened ResolutionLaws
  import opened ResolutionVerdict
  import V = VaultLedger
  import T = VaultTerms

  /** What an address has received out of bonds. */
  function Received(w: World, who: Address): int {
    Read(w.vault.escrow.paid, who)
  }

  /** The losing bond in three: the winner's and the council's shares rounded down, the rest for the treasury. */
  predicate Divides(p: BondPortions, shares: BondShares, bond: int) {
    && p.winner + p.council + p.treasury == bond && p.winner > 0 && p.council >= 0 && p.treasury >= 0
    && 10_000 * p.winner <= shares.winner * bond < 10_000 * (p.winner + 1)
    && 10_000 * p.council <= shares.council * bond < 10_000 * (p.council + 1)
  }

  /** What a verdict for one side pays each address. */
  function Award(winner: Address, p: BondPortions, bond: int, who: Address): int {
    (if who == winner then bond + p.winner else 0)
    + (if who == CouncilContract then p.council else 0)
    + (if who == Treasury then p.treasury else 0)
  }

  // ---------------------------------------------------------------- one side was right

  lemma SlashPays(v: V.VaultState, loser: V.BondKey, to: Address, p: BondPortions, who: Address)
    requires SlashLoser(v, loser, to, p).Ok? && p.council >= 0 && p.treasury >= 0
    ensures Read(SlashLoser(v, loser, to, p).value.escrow.paid, who) ==
            Read(v.escrow.paid, who) + (if who == to then p.winner else 0)
            + (if who == CouncilContract then p.council else 0) + (if who == Treasury then p.treasury else 0)
  {
    hide V.UnlockBond;
    T.UnlockTerms(v, loser, to, p.winner);
    var v1 := V.UnlockBond(v, loser, to, p.winner).value;
    if p.council > 0 {
      T.UnlockTerms(v1, loser, CouncilContract, p.council);
    }
    var v2 := SlashIfAny(v1, loser, CouncilContract, p.council).value;
    if p.treasury > 0 {
      T.UnlockTerms(v2, loser, Treasury, p.treasury);
    }
  }

  lemma WinnerReceives(w: World, id: nat, winner: V.BondKey, loser: V.BondKey, bond: int, m: nat)
    requires BothLocked(w.vault, winner, loser, bond, m) && w.shares.Valid()
    requires PayWinner(w, id, winner, loser, bond).Ok?
    ensures var w' := PayWinner(w, id, winner, loser, bond).value;
            LosingBondSplit(w.shares, bond).Ok?
            && var p := LosingBondSplit(w.shares, bond).value;
            && Divides(p, w.shares, bond)
            && (forall who :: Received(w', who) == Received(w, who) + Award(winner.user, p, bond, who))
            && w'.council.balance == w.council.balance + p.council
            && PaidOut(w.vault, w'.vault, winner, loser, bond, m)
  {
    hide V.UnlockBond, SlashLoser, PayWinner, RewardCouncil;
    WinnerInParts(w, id, winner, loser, bond);
    WinnerPaid(w, id, winner, loser, bond, m);
    SplitIsExact(w.shares, bond);
    var p := LosingBondSplit(w.shares, bond).value;
    T.UnlockTerms(w.vault, winner, winner.user, bond);
    var v1 := V.UnlockBond(w.vault, winner, winner.user, bond).value;
    SlashedInFull(v1, loser, winner.user, p, bond);
    forall who
      ensures Received(PayWinner(w, id, winner, loser, bond).value, who) ==
              Received(w, who) + Award(winner.user, p, bond, who)
    {
      SlashPays(v1, loser, winner.user, p, who);
    }
    CouncilReceives(w.council, id, p.council);
  }

  lemma CouncilReceives(c: CouncilState, id: nat, amount: int)
    requires RewardCouncil(c, id, amount).Ok? && amount >= 0
    ensures var c' := RewardCouncil(c, id, amount).value;
            && c'.balance == c.balance + amount
            && (amount > 0 ==>
                  id in c.byRequest && c.byRequest[id] in c.cases && c.byRequest[id] in c'.cases
                  && c'.cases[c.byRequest[id]].reward.pool == c.cases[c.byRequest[id]].reward.pool + amount)
  {
  }

  lemma BothReceive(w: World, p: V.BondKey, d: V.BondKey, bond: int, m: nat)
    requires BothLocked(w.vault, p, d, bond, m) && PayBoth(w, p, d, bond).Ok?
    ensures var w' := PayBoth(w, p, d, bond).value;
            && (forall who :: Received(w', who) ==
                  Received(w, who) + (if who == p.user then bond else 0) + (if who == d.user then bond else 0))
            && PaidOut(w.vault, w'.vault, p, d, bond, m) && w'.council == w.council
  {
    hide V.UnlockBond;
    BothPaid(w, p, d, bond, m);
    T.UnlockTerms(w.vault, p, p.user, bond);
    T.UnlockTerms(V.UnlockBond(w.vault, p, p.user, bond).value, d, d.user, bond);
  }

  // ---------------------------------------------------------------- the verdict

  /** The side a verdict agrees with. */
  function WinnerOf(r: Request, outcome: Outcome): Address
    requires r.proposal.Some? && r.dispute.Some?
  {
    if outcome == r.proposal.value.outcome then r.proposal.value.who else r.dispute.value.who
  }

  /** The payouts of a verdict on a request, from the two worlds. */
  ghost predicate PaysVerdict(w: World, w': World, r: Request, outcome: Outcome)
    requires r.proposal.Some? && r.dispute.Some?
  {
    var (p, d, bond) := (r.proposal.value, r.dispute.value, r.question.bond);
    && w'.vault.purse.balance == w.vault.purse.balance - 2 * bond
    && if outcome != p.outcome && outcome != d.outcome then
         && (forall who :: Received(w', who) ==
               Received(w, who) + (if who == p.who then bond else 0) + (if who == d.who then bond else 0))
         && w'.council.balance == w.council.balance
       else
         exists portions: BondPortions ::
           PaysWinner(w, w', WinnerOf(r, outcome), portions, bond)
  }

  ghost predicate PaysWinner(w: World, w': World, winner: Address, portions: BondPortions, bond: int) {
    && Divides(portions, w.shares, bond)
    && (forall who :: Received(w', who) == Received(w, who) + Award(winner, portions, bond, who))
    && w'.council.balance == w.council.balance + portions.council
  }

  lemma BondsPaid(w: World, id: nat, r: Request, outcome: Outcome)
    requires r.proposal.Some? && r.dispute.Some? && w.shares.Valid() && PayBonds(w, id, r, outcome).Ok?
    requires BothLocked(w.vault, ProposalKey(id, r.proposal.value), DisputeKey(id, r.dispute.value), r.question.bond,
                        r.question.market)
    ensures PaysVerdict(w, PayBonds(w, id, r, outcome).value, r, outcome)
  {
    hide PayWinner, PayBoth, LosingBondSplit, Award, Divides;
    var p, d := ProposalKey(id, r.proposal.value), DisputeKey(id, r.dispute.value);
    var bond, m := r.question.bond, r.question.market;
    var w' := PayBonds(w, id, r, outcome).value;
    if outcome == r.proposal.value.outcome {
      WinnerReceives(w, id, p, d, bond, m);
      assert PaysWinner(w, w', WinnerOf(r, outcome), LosingBondSplit(w.shares, bond).value, bond);
    } else if outcome == r.dispute.value.outcome {
      WinnerReceives(w, id, d, p, bond, m);
      assert PaysWinner(w, w', WinnerOf(r, outcome), LosingBondSplit(w.shares, bond).value, bond);
    } else {
      BothReceive(w, p, d, bond, m);
    }
  }

  /** In every run with a forward clock: a reported verdict pays the bonds of its request so. */
  lemma VerdictPays(turns: seq<Turn>, now: nat, caseId: nat)
    requires Clocked(0, turns) && Latest(0, turns) <= now
    requires FinalizeAndReport(Run(BEGINNING, turns), now, caseId).Ok?
    ensures var w := Run(BEGINNING, turns);
            && caseId in w.council.cases && w.council.cases[caseId].request in w.oracle.requests
            && var r := w.oracle.requests[w.council.cases[caseId].request];
            && r.proposal.Some? && r.dispute.Some?
            && PaysVerdict(w, FinalizeAndReport(w, now, caseId).value, r, Verdict(w.council.cases[caseId].tally))
  {
    hide Run, Orderly, FairCouncil, Decisive, FinalizeCase, ReportOutcome, PaysVerdict;
    var w := ReachableDecisive(turns);
    FinalizePerformed(w.council, Latest(0, turns), now, caseId);
    FinalizeFrame(w.council, now, caseId);
    var (council, outcome) := FinalizeCase(w.council, now, caseId).value;
    CouncilOrderly(w, council, false);
    var id := w.council.cases[caseId].request;
    var w1 := w.(council := council);
    ReportPays(w1, id, outcome);
    FinalizedBalance(w.council, now, caseId);
    PaysFromSame(w, w1, FinalizeAndReport(w, now, caseId).value, w.oracle.requests[id], outcome);
  }

  lemma FinalizedBalance(c: CouncilState, now: nat, id: nat)
    requires FinalizeCase(c, now, id).Ok?
    ensures FinalizeCase(c, now, id).value.0.balance == c.balance
  {
  }

  lemma PaysFromSame(w: World, w1: World, w': World, r: Request, outcome: Outcome)
    requires r.proposal.Some? && r.dispute.Some? && PaysVerdict(w1, w', r, outcome)
    requires w1.vault == w.vault && w1.shares == w.shares && w1.council.balance == w.council.balance
    ensures PaysVerdict(w, w', r, outcome)
  {
    hide Award, Divides;
    var (p, d, bond) := (r.proposal.value, r.dispute.value, r.question.bond);
    forall who ensures Received(w1, who) == Received(w, who) {
    }
    if outcome == p.outcome || outcome == d.outcome {
      var winner := WinnerOf(r, outcome);
      var portions: BondPortions :| PaysWinner(w1, w', winner, portions, bond);
      assert PaysWinner(w, w', winner, portions, bond);
    }
  }

  lemma ReportPays(w: World, id: nat, outcome: Outcome)
    requires Orderly(w, false) && ReportOutcome(w, id, outcome).Ok?
    ensures id in w.oracle.requests && w.oracle.requests[id].proposal.Some? && w.oracle.requests[id].dispute.Some?
    ensures PaysVerdict(w, ReportOutcome(w, id, outcome).value, w.oracle.requests[id], outcome)
  {
    hide PayBonds, SetFinalOutcome, TidyMarket, TidyCase, TidyReferral, PaysVerdict, InLockstep;
    assert TidyRequest(w, id, false);
    var r := w.oracle.requests[id];
    BondsPaid(w, id, r, outcome);
    PaysToSame(w, PayBonds(w, id, r, outcome).value, ReportOutcome(w, id, outcome).value, r, outcome);
  }

  lemma PaysToSame(w: World, w1: World, w': World, r: Request, outcome: Outcome)
    requires r.proposal.Some? && r.dispute.Some? && PaysVerdict(w, w1, r, outcome)
    requires w'.vault == w1.vault && w'.council == w1.council
    ensures PaysVerdict(w, w', r, outcome)
  {
    hide Award, Divides;
    var (p, d, bond) := (r.proposal.value, r.dispute.value, r.question.bond);
    forall who ensures Received(w', who) == Received(w1, who) {
    }
    if outcome == p.outcome || outcome == d.outcome {
      var winner := WinnerOf(r, outcome);
      var portions: BondPortions :| PaysWinner(w, w1, winner, portions, bond);
      assert PaysWinner(w, w', winner, portions, bond);
    }
  }
}
