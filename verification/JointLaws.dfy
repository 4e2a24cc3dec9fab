// Laws of the whole system: what the collateral side and the resolution promise each other.

module JointLaws {
  import opened Basics
  import opened DikeTypes
  import opened TokenLedger
  import opened BondSplits
  import opened CouncilVoting
  import opened JointRuns
  import V = VaultLedger
  import C = LedgerCalls
  import O = CodOracle
  import Cash = LedgerCash
  import Cover = LedgerCover
  import Pay = LedgerPayable
  import Laws = ResolutionLaws
  import W = ResolutionVerdict

  // ---------------------------------------------------------------- the money for a verdict

  lemma EscalatedBonds(w: O.World, id: nat)
    requires Laws.Orderly(w, false)
    requires id in w.oracle.requests && w.oracle.requests[id].status == O.OracleStatus.Escalated
    ensures var r := w.oracle.requests[id];
            && r.proposal.Some? && r.dispute.Some?
            && var bond := V.Bond(r.question.bond, r.question.market);
            && Laws.Locked(w.vault.escrow.bonds, O.ProposalKey(id, r.proposal.value), bond)
            && Laws.Locked(w.vault.escrow.bonds, O.DisputeKey(id, r.dispute.value), bond)
  {
    hide Laws.TidyMarket, Laws.TidyCase, Laws.TidyReferral;
    assert Laws.TidyRequest(w, id, false);
  }

  /** In a run of the whole that leaves the vault covered, the verdict on an escalated request never fails for lack of
      money: it is accepted exactly when voting is over, the case has none yet, the winner's portion is at least one
      unit, the market still takes an outcome, and the host lets the oracle call back if it has to. */
  lemma VerdictNeverLacksMoney(entries: seq<Entry>, caseId: nat, reentry: bool)
    requires var s := Run(BIRTH, entries); Cover.Covered(s.ledger.vault) && caseId in s.council.cases
    ensures var s := Run(BIRTH, entries);
            var x := s.council.cases[caseId];
            && x.request in s.oracle.requests
            && var r := s.oracle.requests[x.request];
            && r.proposal.Some? && r.dispute.Some?
            && (O.FinalizeAndReportOn(WorldOf(s), s.clock, caseId, reentry).Ok? <==>
                  && x.final.None? && s.clock > x.window.revealEnd
                  && (Verdict(x.tally) in {r.proposal.value.outcome, r.dispute.value.outcome} ==>
                        r.question.bond * s.shares.winner >= BPS_DENOMINATOR)
                  && Laws.Undecided(s.ledger.reg, r.question.market)
                  && (reentry || Laws.EntersNothing(WorldOf(s), r, Verdict(x.tally))))
  {
    hide Run, O.Run, C.Run, Events, Turns, W.Clocked, W.Latest, Cover.Covered, O.FinalizeAndReportOn, Laws.Undecided,
         Laws.EntersNothing, Laws.Orderly, FairCouncil, W.Decisive;
    var s := Run(BIRTH, entries);
    var w := WorldOf(s);
    JointIsBoth(entries);
    var turns := Turns(BIRTH, entries);
    W.VerdictReportable(turns, s.clock, caseId, reentry);
    var x := s.council.cases[caseId];
    var r := s.oracle.requests[x.request];
    if x.final.None? {
      var reached := W.ReachableDecisive(turns);
      W.CaseOfRequest(w, caseId);
      W.ReferredRequest(w, x.request);
      W.UndecidedIsEscalated(w, x.request);
      EscalatedBonds(w, x.request);
      Pay.BothBondsHeld(Events(BIRTH, entries), O.ProposalKey(x.request, r.proposal.value),
                        O.DisputeKey(x.request, r.dispute.value), V.Bond(r.question.bond, r.question.market));
    }
  }

  // ---------------------------------------------------------------- runs without credit

  predicate DrawsNothing(entries: seq<Entry>) {
    forall i :: 0 <= i < |entries| && entries[i].deed.Trade? ==> Cash.NoCredit(entries[i].deed.call)
  }

  lemma PlainEvents(s: Joint, deed: Deed)
    requires deed.Trade? ==> Cash.NoCredit(deed.call)
    ensures Cash.NoCredits(EventsOf(s, deed))
  {
    hide Apply, LosingBondSplit, FinalizeCase;
  }

  lemma {:induction false} DrawnEvents(s: Joint, entries: seq<Entry>)
    requires DrawsNothing(entries)
    ensures Cash.NoCredits(Events(s, entries))
    decreases |entries|
  {
    hide Step, EventsOf;
    if entries != [] {
      PlainEvents(Tick(s, entries[0].wait), entries[0].deed);
      assert forall i :: 0 <= i < |entries[1..]| ==> entries[1..][i] == entries[i + 1];
      DrawnEvents(Step(s, entries[0]), entries[1..]);
    }
  }

  /** Without credit the vault is covered in every run of the whole. */
  lemma NothingDrawnCovered(entries: seq<Entry>)
    requires DrawsNothing(entries)
    ensures Cover.Covered(Run(BIRTH, entries).ledger.vault)
  {
    hide Run, O.Run, C.Run, Events, Turns, W.Clocked, W.Latest, Cover.Covered;
    JointIsBoth(entries);
    DrawnEvents(BIRTH, entries);
    Pay.NoCreditCovered(Events(BIRTH, entries));
  }

  /** From the votes to the money: when a disputed market ended YES or NO in a run of the whole without credit, more
      voters revealed that outcome than each other one, and every holder of its tokens is paid one unit for each. */
  lemma PluralityIsPaid(entries: seq<Entry>, id: nat, user: Address, amount: int)
    requires DrawsNothing(entries)
    requires var s := Run(BIRTH, entries);
             && id in s.oracle.requests && s.oracle.requests[id].dispute.Some? && s.oracle.requests[id].final.Some?
             && var (m, o) := (s.oracle.requests[id].question.market, s.oracle.requests[id].final.value);
             && o != Invalid && 0 < amount <= Balance(s.ledger.tokens, user, Side(m, o))
    ensures var s := Run(BIRTH, entries);
            var (m, o) := (s.oracle.requests[id].question.market, s.oracle.requests[id].final.value);
            && id in s.council.byRequest && s.council.byRequest[id] in s.council.cases
            && W.MostVoters(s.council.cases[s.council.byRequest[id]].ballots.revealed, o)
            && var r := V.RedeemResolved(s.ledger.vault, s.ledger.reg, s.ledger.tokens, V.Position(m, user, o), amount);
            && r.Ok? && r.value.2 == amount
  {
    hide Run, O.Run, C.Run, Events, Turns, W.Clocked, W.Latest, V.RedeemResolved, W.MostVoters;
    JointIsBoth(entries);
    DrawnEvents(BIRTH, entries);
    W.OutcomeIsThePlurality(Turns(BIRTH, entries), id);
    Cash.WinnersPaidInFull(Events(BIRTH, entries), user, Run(BIRTH, entries).oracle.requests[id].question.market,
                           amount);
  }

  // ---------------------------------------------------------------- covered runs

  /** The same in every run of the whole that leaves the vault covered, credit or not, for a holder nothing is kept
      back from: the outcome had the most voters, and he receives his tokens' worth less what his leg in the market
      owes, capped by what the market's book then holds. */
  lemma PluralityIsPaidWhenCovered(entries: seq<Entry>, id: nat, user: Address, amount: int)
    requires var s := Run(BIRTH, entries);
             && Cover.Covered(s.ledger.vault)
             && id in s.oracle.requests && s.oracle.requests[id].dispute.Some? && s.oracle.requests[id].final.Some?
             && var (m, o) := (s.oracle.requests[id].question.market, s.oracle.requests[id].final.value);
             && o != Invalid && 0 < amount <= Balance(s.ledger.tokens, user, Side(m, o))
             && Cover.KeptOf(s.ledger, C.Redemption(user, m, o, amount)) <= 0
    ensures var s := Run(BIRTH, entries);
            var (m, o) := (s.oracle.requests[id].question.market, s.oracle.requests[id].final.value);
            && id in s.council.byRequest && s.council.byRequest[id] in s.council.cases
            && W.MostVoters(s.council.cases[s.council.byRequest[id]].ballots.revealed, o)
            && var up := V.Applicable(s.ledger.vault, V.Leg(m, user), amount);
            && var r := V.RedeemResolved(s.ledger.vault, s.ledger.reg, s.ledger.tokens, V.Position(m, user, o), amount);
            && r.Ok?
            && r.value.2 == V.CappedPayout(V.AccountOf(s.ledger.vault, m).Fund(-up), amount - up)
  {
    hide Run, O.Run, C.Run, Events, Turns, W.Clocked, W.Latest, V.RedeemResolved, W.MostVoters, V.CappedPayout,
         V.Applicable, Cover.Covered, Cover.KeptOf;
    JointIsBoth(entries);
    W.OutcomeIsThePlurality(Turns(BIRTH, entries), id);
    var s := Run(BIRTH, entries);
    var (m, o) := (s.oracle.requests[id].question.market, s.oracle.requests[id].final.value);
    Pay.ClaimsPaid(Events(BIRTH, entries), C.Redemption(user, m, o, amount));
  }
}
