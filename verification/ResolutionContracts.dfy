// The oracle and the council as contracts: stored requests and cases updated in place, calling the registry,
// the vault, the fee manager and each other in the source's order. Proved against CodOracle and CouncilVoting.

module ResolutionContracts {
  import opened Basics
  import opened DikeTypes
  import opened MarketRegistry
  import opened BondSplits
  import opened CollateralVault
  import V = VaultLedger
  import O = CodOracle
  import C = CouncilVoting

  class Council {
    var cases: map<nat, C.Case>
    var byRequest: map<nat, nat>
    var nextId: nat
    var members: set<Address>
    var paused: bool
    var balance: int  // the collateral token's entry for the council

    ghost function State(): C.CouncilState
      reads this
    {
      C.CouncilState(cases, byRequest, nextId, C.Roll(members, paused), balance)
    }

    constructor ()
      ensures State() == C.NO_COUNCIL
    {
      cases, byRequest, nextId, members, paused, balance := map[], map[], 1, {}, false, 0;
    }

    method OpenCase(now: nat, request: nat, proposed: Outcome, disputed: Outcome, proposalEvidence: string,
                    disputeEvidence: string, bond: int, window: nat) returns (r: Result<nat>)
      modifies this
      ensures match C.OpenCase(old(State()), now, request, proposed, disputed, proposalEvidence, disputeEvidence, bond,
                               window)
              case Ok((s, id)) => r == Ok(id) && State() == s
              case Err(e) => r == Err(e)
    {
      if proposalEvidence == "" || disputeEvidence == "" {
        return Err(EvidenceRequired);
      }
      if proposed == disputed || bond <= 0 || window == 0 {
        return Err(InvalidInput);
      }
      if request in byRequest {
        return Err(InvalidStatus);
      }
      var id := nextId;
      cases := cases[id := C.NewCase(request, now, window)];
      byRequest := byRequest[request := id];
      nextId := id + 1;
      return Ok(id);
    }

    method RequireMember(voter: Address) returns (r: Result<()>)
      ensures r == C.RequireMember(State(), voter)
    {
      if paused {
        return Err(InvalidStatus);
      }
      if voter !in members {
        return Err(Unauthorized);
      }
      r := RequireAuth(voter);
    }

    method CommitVote(now: nat, voter: Address, id: nat, commitment: C.Commitment) returns (r: Result<()>)
      modifies this
      ensures match C.CommitVote(old(State()), now, voter, id, commitment)
              case Ok(s) => r == Ok(()) && State() == s
              case Err(e) => r == Err(e)
    {
      var _ :- RequireMember(voter);
      if id !in cases {
        return Err(CaseNotFound);
      }
      var data := cases[id];
      if data.final.Some? || now > data.window.commitEnd {
        return Err(InvalidStatus);
      }
      if voter in data.ballots.commits {
        return Err(VoteAlreadyCommitted);
      }
      var ballots := data.ballots.(commits := data.ballots.commits[voter := commitment]);
      cases := cases[id := data.(ballots := ballots)];
      return Ok(());
    }

    method RevealVote(now: nat, voter: Address, id: nat, outcome: Outcome, salt: nat) returns (r: Result<()>)
      modifies this
      ensures match C.RevealVote(old(State()), now, voter, id, outcome, salt)
              case Ok(s) => r == Ok(()) && State() == s
              case Err(e) => r == Err(e)
    {
      var _ :- RequireMember(voter);
      if id !in cases {
        return Err(CaseNotFound);
      }
      var data := cases[id];
      if now <= data.window.commitEnd || now > data.window.revealEnd {
        return Err(InvalidStatus);
      }
      if voter !in data.ballots.commits {
        return Err(VoteNotCommitted);
      }
      if data.ballots.commits[voter] != C.Hash(id, voter, outcome, salt) {
        return Err(InvalidReveal);
      }
      if voter in data.ballots.revealed {
        return Err(InvalidReveal);
      }
      var tally := data.tally;
      match outcome {
        case Yes => tally := tally.(yes := tally.yes + 1);
        case No => tally := tally.(no := tally.no + 1);
        case Invalid => tally := tally.(invalid := tally.invalid + 1);
      }
      var ballots := data.ballots.(revealed := data.ballots.revealed[voter := outcome]);
      cases := cases[id := data.(tally := tally, ballots := ballots)];
      return Ok(());
    }

    method FinalizeCase(now: nat, id: nat) returns (r: Result<Outcome>)
      modifies this
      ensures match C.FinalizeCase(old(State()), now, id)
              case Ok((s, outcome)) => r == Ok(outcome) && State() == s
              case Err(e) => r == Err(e)
    {
      if id !in cases {
        return Err(CaseNotFound);
      }
      var data := cases[id];
      if data.final.Some? {
        return Err(AlreadyResolved);
      }
      if now <= data.window.revealEnd {
        return Err(TooEarly);
      }
      var votes := data.tally;
      var outcome := Invalid;
      if votes.yes > votes.no && votes.yes > votes.invalid {
        outcome := Yes;
      } else if votes.no > votes.yes && votes.no > votes.invalid {
        outcome := No;
      }
      cases := cases[id := data.(final := Some(outcome))];
      return Ok(outcome);
    }

    /** Verdict and report in one transaction. */
    method FinalizeAndReportCase(oracle: Oracle, registry: Registry, vault: Vault, fees: FeeManager, now: nat, id: nat)
      returns (r: Result<Outcome>)
      modifies this, oracle, registry, vault
      ensures match O.FinalizeAndReport(old(oracle.World(registry, vault, this, fees)), now, id)
              case Ok(w) => r.Ok? && oracle.World(registry, vault, this, fees) == w
              case Err(e) => r == Err(e)
    {
      hide C.FinalizeCase, O.ReportOutcome;
      if id !in cases {
        FinalizeNothing(State(), now, id);
        return Err(CaseNotFound);
      }
      var request := cases[id].request;
      var outcome :- FinalizeCase(now, id);
      var _ :- oracle.ReportCouncilOutcome(registry, vault, this, fees, request, outcome);
      return Ok(outcome);
    }

    static lemma FinalizeNothing(c: C.CouncilState, now: nat, id: nat)
      ensures id !in c.cases ==> C.FinalizeCase(c, now, id) == Err(CaseNotFound)
    {
    }

    /** Slashed collateral arrives and is entered in the case's pool. */
    method RecordCaseReward(id: nat, amount: int) returns (r: Result<()>)
      modifies this
      ensures match C.RecordReward(old(State()), id, amount)
              case Ok(s) => r == Ok(()) && State() == s
              case Err(e) => r == Err(e)
    {
      if amount <= 0 {
        return Err(InvalidAmount);
      }
      if id !in cases {
        return Err(CaseNotFound);
      }
      var data := cases[id];
      balance := balance + amount;
      cases := cases[id := data.(reward := data.reward.(pool := data.reward.pool + amount))];
      return Ok(());
    }

    method ClaimReward(voter: Address, id: nat) returns (r: Result<int>)
      modifies this
      ensures match C.ClaimReward(old(State()), voter, id)
              case Ok((s, payout)) => r == Ok(payout) && State() == s
              case Err(e) => r == Err(e)
    {
      var _ :- RequireAuth(voter);
      if id !in cases {
        return Err(CaseNotFound);
      }
      var data := cases[id];
      if data.final.None? {
        return Err(InvalidStatus);
      }
      if voter !in data.ballots.revealed {
        return Err(VoteNotCommitted);
      }
      if voter in data.ballots.claimed {
        return Err(ActionConsumed);
      }
      var correct := data.ballots.revealed[voter] == data.final.value;
      var payout := 0;
      if correct {
        var votes := data.tally.Of(data.final.value);
        if data.reward.pool > 0 && votes > 0 {
          payout := data.reward.pool / votes;
        }
      }
      if balance < payout {
        return Err(TransferTrapped);
      }
      balance := balance - payout;
      cases := cases[id := C.Claimed(data, voter, correct, payout)];
      return Ok(payout);
    }

    method SweepCaseReward(id: nat) returns (r: Result<int>)
      modifies this
      ensures match C.SweepReward(old(State()), id)
              case Ok((s, pool)) => r == Ok(pool) && State() == s
              case Err(e) => r == Err(e)
    {
      if id !in cases {
        return Err(CaseNotFound);
      }
      var data := cases[id];
      if data.final.None? || data.tally.Of(data.final.value) > 0 {
        return Err(InvalidStatus);
      }
      var pool := data.reward.pool;
      if pool <= 0 {
        return Err(InvalidAmount);
      }
      if balance < pool {
        return Err(TransferTrapped);
      }
      balance := balance - pool;
      cases := cases[id := data.(reward := data.reward.(pool := 0))];
      return Ok(pool);
    }
  }

  class Oracle {
    var requests: map<nat, O.Request>
    var byMarket: map<nat, nat>
    var nextId: nat
    var paused: bool

    ghost function State(): O.OracleState
      reads this
    {
      O.OracleState(requests, byMarket, nextId, paused)
    }

    ghost function World(registry: Registry, vault: Vault, council: Council, fees: FeeManager): O.World
      reads this, registry, vault, council, fees
    {
      O.World(registry.State(), vault.State(), State(), council.State(), fees.shares)
    }

    constructor ()
      ensures State() == O.OracleState(map[], map[], 1, false)
    {
      requests, byMarket, nextId, paused := map[], map[], 1, false;
    }

    method RequestResolution(registry: Registry, vault: Vault, council: Council, fees: FeeManager, now: nat, m: nat,
                             terms: Terms) returns (r: Result<nat>)
      modifies this, registry
      ensures match O.RequestResolution(old(World(registry, vault, council, fees)), now, m, terms)
              case Ok(w) => r == Ok(old(nextId)) && World(registry, vault, council, fees) == w
              case Err(e) => r == Err(e)
    {
      if paused {
        return Err(InvalidStatus);
      }
      if terms.rulesUri == "" || terms.bondAmount <= 0 || terms.disputeWindow == 0 {
        return Err(InvalidInput);
      }
      if m !in registry.markets {
        return Err(MarketNotFound);
      }
      if registry.markets[m].terms != terms {
        return Err(InvalidInput);
      }
      var _ :- CloseForRequest(registry, now, m);
      if m in byMarket {
        return Err(InvalidStatus);
      }
      var id := nextId;
      requests := requests[id := O.NewRequest(m, terms)];
      byMarket := byMarket[m := id];
      nextId := id + 1;
      var _ :- registry.MarkRequested(m, id);
      return Ok(id);
    }

    /** Trading must be over; a market still live is closed on the way. */
    method CloseForRequest(registry: Registry, now: nat, m: nat) returns (r: Result<()>)
      modifies registry
      ensures match O.CloseForRequest(old(registry.State()), now, m)
              case Ok(s) => r == Ok(()) && registry.State() == s
              case Err(e) => r == Err(e)
    {
      if m !in registry.markets {
        return Err(MarketNotFound);
      }
      var market := registry.markets[m];
      if now < market.terms.expiry {
        return Err(NotExpired);
      }
      if market.hasFinal || market.status == Resolved || market.status == Cancelled {
        return Err(InvalidStatus);
      }
      if market.status == Live {
        r := registry.Close(now, m);
      } else if market.status != TradingClosed {
        return Err(InvalidStatus);
      } else {
        return Ok(());
      }
    }

    method ProposeOutcome(registry: Registry, vault: Vault, council: Council, fees: FeeManager, now: nat,
                          proposer: Address, id: nat, outcome: Outcome, evidence: string) returns (r: Result<()>)
      modifies this, registry, vault
      ensures match O.Propose(old(World(registry, vault, council, fees)), now, proposer, id, outcome, evidence)
              case Ok(w) => r == Ok(()) && World(registry, vault, council, fees) == w
              case Err(e) => r == Err(e)
    {
      hide V.LockBond, Transition;
      var _ :- RequireAuth(proposer);
      if evidence == "" {
        return Err(EvidenceRequired);
      }
      if id !in requests {
        return Err(RequestNotFound);
      }
      var request := requests[id];
      if request.status != O.Requested {
        return Err(InvalidStatus);
      }
      var q := request.question;
      var statement := O.Statement(proposer, outcome, evidence, now);
      var _ :- vault.LockBond(registry, V.BondKey(id, proposer, false), q.market, q.bond);
      requests := requests[id := request.(status := O.OracleStatus.Proposed, proposal := Some(statement))];
      var _ :- registry.TransitionTo(q.market, MarketStatus.Proposed);
      return Ok(());
    }

    method DisputeOutcome(registry: Registry, vault: Vault, council: Council, fees: FeeManager, now: nat,
                          disputer: Address, id: nat, outcome: Outcome, evidence: string) returns (r: Result<()>)
      modifies this, registry, vault
      ensures match O.Dispute(old(World(registry, vault, council, fees)), now, disputer, id, outcome, evidence)
              case Ok(w) => r == Ok(()) && World(registry, vault, council, fees) == w
              case Err(e) => r == Err(e)
    {
      hide V.LockBond, Transition;
      var _ :- RequireAuth(disputer);
      if evidence == "" {
        return Err(EvidenceRequired);
      }
      if id !in requests {
        return Err(RequestNotFound);
      }
      var request := requests[id];
      if request.status != O.OracleStatus.Proposed || request.proposal.None? {
        return Err(InvalidStatus);
      }
      var q := request.question;
      if now > request.proposal.value.at + q.window {
        return Err(DisputeWindowClosed);
      }
      if request.proposal.value.outcome == outcome {
        return Err(InvalidInput);
      }
      var statement := O.Statement(disputer, outcome, evidence, now);
      var _ :- vault.LockBond(registry, V.BondKey(id, disputer, true), q.market, q.bond);
      requests := requests[id := request.(status := O.OracleStatus.Disputed, dispute := Some(statement))];
      var _ :- registry.TransitionTo(q.market, MarketStatus.Disputed);
      return Ok(());
    }

    method FinalizeUndisputed(registry: Registry, vault: Vault, council: Council, fees: FeeManager, now: nat, id: nat)
      returns (r: Result<Outcome>)
      modifies this, registry, vault
      ensures match O.FinalizeUndisputed(old(World(registry, vault, council, fees)), now, id)
              case Ok((w, outcome)) => r == Ok(outcome) && World(registry, vault, council, fees) == w
              case Err(e) => r == Err(e)
    {
      hide V.UnlockBond, SetFinalOutcome;
      if id !in requests {
        return Err(RequestNotFound);
      }
      var request := requests[id];
      if request.status != O.OracleStatus.Proposed || request.proposal.None? {
        return Err(InvalidStatus);
      }
      var q, statement := request.question, request.proposal.value;
      if now <= statement.at + q.window {
        return Err(DisputeWindowOpen);
      }
      var _ :- registry.Finalize(q.market, statement.outcome);
      var _ :- vault.UnlockBond(V.BondKey(id, statement.who, false), statement.who, q.bond);
      requests := requests[id := request.(status := O.OracleStatus.Finalized, final := Some(statement.outcome))];
      return Ok(statement.outcome);
    }

    method EscalateToCouncil(registry: Registry, vault: Vault, council: Council, fees: FeeManager, now: nat, id: nat)
      returns (r: Result<()>)
      modifies this, registry, council
      ensures match O.Escalate(old(World(registry, vault, council, fees)), now, id)
              case Ok(w) => r == Ok(()) && World(registry, vault, council, fees) == w
              case Err(e) => r == Err(e)
    {
      hide C.OpenCase, Transition;
      if id !in requests {
        return Err(RequestNotFound);
      }
      var request := requests[id];
      if request.status != O.OracleStatus.Disputed || request.proposal.None? || request.dispute.None? {
        return Err(InvalidStatus);
      }
      var q, p, d := request.question, request.proposal.value, request.dispute.value;
      var _ :- council.OpenCase(now, id, p.outcome, d.outcome, p.evidence, d.evidence, q.bond, q.window);
      var _ :- registry.TransitionTo(q.market, MarketStatus.CouncilVoting);
      requests := requests[id := request.(status := O.Escalated)];
      return Ok(());
    }

    /** The winner's bond is released and the loser's divided; a verdict for neither side releases both. */
    method DistributeBonds(registry: Registry, vault: Vault, council: Council, fees: FeeManager, id: nat,
                           request: O.Request, outcome: Outcome) returns (r: Result<()>)
      requires request.proposal.Some? && request.dispute.Some?
      modifies vault, council
      ensures match O.PayBonds(old(World(registry, vault, council, fees)), id, request, outcome)
              case Ok(w) => r == Ok(()) && World(registry, vault, council, fees) == w
              case Err(e) => r == Err(e)
    {
      hide O.PayWinner, V.UnlockBond;
      var p, d, bond := request.proposal.value, request.dispute.value, request.question.bond;
      var proposer, disputer := V.BondKey(id, p.who, false), V.BondKey(id, d.who, true);
      if outcome == p.outcome {
        r := PayWinner(registry, vault, council, fees, id, proposer, disputer, bond);
      } else if outcome == d.outcome {
        r := PayWinner(registry, vault, council, fees, id, disputer, proposer, bond);
      } else {
        var _ :- vault.UnlockBond(proposer, proposer.user, bond);
        r := vault.UnlockBond(disputer, disputer.user, bond);
      }
    }

    method PayWinner(registry: Registry, vault: Vault, council: Council, fees: FeeManager, id: nat, winner: V.BondKey,
                     loser: V.BondKey, bond: int) returns (r: Result<()>)
      modifies vault, council
      ensures match O.PayWinner(old(World(registry, vault, council, fees)), id, winner, loser, bond)
              case Ok(w) => r == Ok(()) && World(registry, vault, council, fees) == w
              case Err(e) => r == Err(e)
    {
      hide V.UnlockBond, LosingBondSplit, O.RewardCouncil;
      var _ :- vault.UnlockBond(winner, winner.user, bond);
      var portions :- fees.Split(bond);
      var _ :- vault.UnlockBond(loser, winner.user, portions.winner);
      if portions.council > 0 {
        var _ :- vault.UnlockBond(loser, CouncilContract, portions.council);
      }
      var _ :- RewardCouncil(council, id, portions.council);
      if portions.treasury > 0 {
        var _ :- vault.UnlockBond(loser, Treasury, portions.treasury);
      }
      return Ok(());
    }

    method RewardCouncil(council: Council, id: nat, amount: int) returns (r: Result<()>)
      modifies council
      ensures match O.RewardCouncil(old(council.State()), id, amount)
              case Ok(s) => r == Ok(()) && council.State() == s
              case Err(e) => r == Err(e)
    {
      if amount <= 0 {
        return Ok(());
      }
      if id !in council.byRequest {
        return Err(CaseNotFound);
      }
      r := council.RecordCaseReward(council.byRequest[id], amount);
    }

    method ReportCouncilOutcome(registry: Registry, vault: Vault, council: Council, fees: FeeManager, id: nat,
                                outcome: Outcome) returns (r: Result<()>)
      modifies this, registry, vault, council
      ensures match O.ReportOutcome(old(World(registry, vault, council, fees)), id, outcome)
              case Ok(w) => r == Ok(()) && World(registry, vault, council, fees) == w
              case Err(e) => r == Err(e)
    {
      hide O.PayBonds, SetFinalOutcome;
      if id !in requests {
        return Err(RequestNotFound);
      }
      var request := requests[id];
      if request.status != O.Escalated || request.proposal.None? || request.dispute.None? {
        return Err(InvalidStatus);
      }
      if request.final.Some? {
        return Err(AlreadyResolved);
      }
      var _ :- DistributeBonds(registry, vault, council, fees, id, request, outcome);
      var _ :- registry.Finalize(request.question.market, outcome);
      requests := requests[id := request.(status := O.Finalized, final := Some(outcome))];
      return Ok(());
    }
  }
}
