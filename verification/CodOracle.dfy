// The resolution oracle: request, proposal, dispute, escalation, verdict, with the bonds it locks in the
// vault and the statuses it drives in the registry.

module CodOracle {
  import opened Basics
  import opened DikeTypes
  import opened MarketRegistry
  import opened BondSplits
  import opened CouncilVoting
  import V = VaultLedger

  datatype OracleStatus = Requested | Proposed | Disputed | Escalated | Finalized

  /** One side of a request. */
  datatype Statement = Statement(who: Address, outcome: Outcome, evidence: string, at: nat)

  datatype Question = Question(market: nat, bond: int, window: nat)

  datatype Request = Request(
    question: Question, status: OracleStatus, proposal: Option<Statement>, dispute: Option<Statement>,
    final: Option<Outcome>)

  datatype OracleState = OracleState(requests: map<nat, Request>, byMarket: map<nat, nat>, nextId: nat, paused: bool)

  /** The contracts that resolve markets. */
  datatype World = World(
    reg: RegistryState, vault: V.VaultState, oracle: OracleState, council: CouncilState, shares: BondShares)

  function GetRequest(o: OracleState, id: nat): Result<Request> {
    if id in o.requests then Ok(o.requests[id]) else Err(RequestNotFound)
  }

  function SetRequest(o: OracleState, id: nat, request: Request): OracleState {
    o.(requests := o.requests[id := request])
  }

  function ProposalKey(id: nat, s: Statement): V.BondKey {
    V.BondKey(id, s.who, false)
  }

  function DisputeKey(id: nat, s: Statement): V.BondKey {
    V.BondKey(id, s.who, true)
  }

  // ---------------------------------------------------------------- the operations

  /** Trading must be over: a market still live is closed on the way. */
  function CloseForRequest(reg: RegistryState, now: nat, m: nat): Result<RegistryState> {
    var market :- GetMarket(reg, m);
    if now < market.terms.expiry then Err(NotExpired)
    else if market.hasFinal || market.status == Resolved || market.status == Cancelled then Err(InvalidStatus)
    else if market.status == Live then CloseTrading(reg, now, m)
    else if market.status != TradingClosed then Err(InvalidStatus)
    else Ok(reg)
  }

  function NewRequest(m: nat, terms: Terms): Request {
    Request(Question(m, terms.bondAmount, terms.disputeWindow), OracleStatus.Requested, None, None, None)
  }

  function RequestResolution(w: World, now: nat, m: nat, terms: Terms): Result<World> {
    if w.oracle.paused then Err(InvalidStatus)
    else if terms.rulesUri == "" || terms.bondAmount <= 0 || terms.disputeWindow == 0 then Err(InvalidInput)
    else
      var market :- GetMarket(w.reg, m);
      if market.terms != terms then Err(InvalidInput)
      else
        var closed :- CloseForRequest(w.reg, now, m);
        if m in w.oracle.byMarket then Err(InvalidStatus)
        else
          var id := w.oracle.nextId;
          var reg :- MarkResolutionRequested(closed, m, id);
          var oracle := OracleState(w.oracle.requests[id := NewRequest(m, terms)],
                                    w.oracle.byMarket[m := id], id + 1, w.oracle.paused);
          Ok(w.(reg := reg, oracle := oracle))
  }

  function Propose(w: World, now: nat, proposer: Address, id: nat, outcome: Outcome, evidence: string): Result<World> {
    var _ :- RequireAuth(proposer);
    if evidence == "" then Err(EvidenceRequired)
    else
      var request :- GetRequest(w.oracle, id);
      if request.status != OracleStatus.Requested then Err(InvalidStatus)
      else
        var q := request.question;
        var statement := Statement(proposer, outcome, evidence, now);
        var vault :- V.LockBond(w.vault, w.reg, ProposalKey(id, statement), q.market, q.bond);
        var reg :- Transition(w.reg, q.market, MarketStatus.Proposed);
        var proposed := request.(status := OracleStatus.Proposed, proposal := Some(statement));
        Ok(w.(reg := reg, vault := vault, oracle := SetRequest(w.oracle, id, proposed)))
  }

  function Dispute(w: World, now: nat, disputer: Address, id: nat, outcome: Outcome, evidence: string): Result<World> {
    var _ :- RequireAuth(disputer);
    if evidence == "" then Err(EvidenceRequired)
    else
      var request :- GetRequest(w.oracle, id);
      if request.status != OracleStatus.Proposed || request.proposal.None? then Err(InvalidStatus)
      else
        var q := request.question;
        if now > request.proposal.value.at + q.window then Err(DisputeWindowClosed)
        else if request.proposal.value.outcome == outcome then Err(InvalidInput)
        else
          var statement := Statement(disputer, outcome, evidence, now);
          var vault :- V.LockBond(w.vault, w.reg, DisputeKey(id, statement), q.market, q.bond);
          var reg :- Transition(w.reg, q.market, MarketStatus.Disputed);
          var disputed := request.(status := OracleStatus.Disputed, dispute := Some(statement));
          Ok(w.(reg := reg, vault := vault, oracle := SetRequest(w.oracle, id, disputed)))
  }

  function FinalizeUndisputed(w: World, now: nat, id: nat): Result<(World, Outcome)> {
    var request :- GetRequest(w.oracle, id);
    if request.status != OracleStatus.Proposed || request.proposal.None? then Err(InvalidStatus)
    else
      var q := request.question;
      var statement := request.proposal.value;
      if now <= statement.at + q.window then Err(DisputeWindowOpen)
      else
        var reg :- SetFinalOutcome(w.reg, q.market, statement.outcome);
        var vault :- V.UnlockBond(w.vault, ProposalKey(id, statement), statement.who, q.bond);
        var done := request.(status := OracleStatus.Finalized, final := Some(statement.outcome));
        Ok((w.(reg := reg, vault := vault, oracle := SetRequest(w.oracle, id, done)), statement.outcome))
  }

  function Escalate(w: World, now: nat, id: nat): Result<World> {
    var request :- GetRequest(w.oracle, id);
    if request.status != OracleStatus.Disputed || request.proposal.None? || request.dispute.None?
    then Err(InvalidStatus)
    else
      var q, p, d := request.question, request.proposal.value, request.dispute.value;
      var (council, _) :- OpenCase(w.council, now, id, p.outcome, d.outcome, p.evidence, d.evidence, q.bond, q.window);
      var reg :- Transition(w.reg, q.market, MarketStatus.CouncilVoting);
      var escalated := request.(status := OracleStatus.Escalated);
      Ok(w.(reg := reg, council := council, oracle := SetRequest(w.oracle, id, escalated)))
  }

  /** An optional slash: empty portions are skipped. */
  function SlashIfAny(v: V.VaultState, key: V.BondKey, to: Address, amount: int): Result<V.VaultState> {
    if amount > 0 then V.UnlockBond(v, key, to, amount) else Ok(v)
  }

  /** The losing bond is slashed in three portions. */
  function SlashLoser(v: V.VaultState, loser: V.BondKey, winner: Address, p: BondPortions): Result<V.VaultState> {
    var v1 :- V.UnlockBond(v, loser, winner, p.winner);
    var v2 :- SlashIfAny(v1, loser, CouncilContract, p.council);
    SlashIfAny(v2, loser, Treasury, p.treasury)
  }

  /** The council's portion enters the pool of the request's case. */
  function RewardCouncil(c: CouncilState, id: nat, amount: int): Result<CouncilState> {
    if amount <= 0 then Ok(c)
    else if id !in c.byRequest then Err(CaseNotFound)
    else RecordReward(c, c.byRequest[id], amount)
  }

  /** One side was right: its bond is released, the other's divided. The council's portion is entered in its pool
      before the treasury's is paid. */
  function PayWinner(w: World, id: nat, winner: V.BondKey, loser: V.BondKey, bond: int): Result<World> {
    var v1 :- V.UnlockBond(w.vault, winner, winner.user, bond);
    var portions :- LosingBondSplit(w.shares, bond);
    var v2 :- V.UnlockBond(v1, loser, winner.user, portions.winner);
    var v3 :- SlashIfAny(v2, loser, CouncilContract, portions.council);
    var council :- RewardCouncil(w.council, id, portions.council);
    var v4 :- SlashIfAny(v3, loser, Treasury, portions.treasury);
    Ok(w.(vault := v4, council := council))
  }

  /** Neither side was right: both bonds are released. */
  function PayBoth(w: World, proposer: V.BondKey, disputer: V.BondKey, bond: int): Result<World> {
    var v1 :- V.UnlockBond(w.vault, proposer, proposer.user, bond);
    var v2 :- V.UnlockBond(v1, disputer, disputer.user, bond);
    Ok(w.(vault := v2))
  }

  function PayBonds(w: World, id: nat, request: Request, outcome: Outcome): Result<World>
    requires request.proposal.Some? && request.dispute.Some?
  {
    var p, d := request.proposal.value, request.dispute.value;
    var bond := request.question.bond;
    if outcome == p.outcome then PayWinner(w, id, ProposalKey(id, p), DisputeKey(id, d), bond)
    else if outcome == d.outcome then PayWinner(w, id, DisputeKey(id, d), ProposalKey(id, p), bond)
    else PayBoth(w, ProposalKey(id, p), DisputeKey(id, d), bond)
  }

  function ReportOutcome(w: World, id: nat, outcome: Outcome): Result<World> {
    var request :- GetRequest(w.oracle, id);
    if request.status != OracleStatus.Escalated || request.proposal.None? || request.dispute.None?
    then Err(InvalidStatus)
    else if request.final.Some? then Err(AlreadyResolved)
    else
      var paid :- PayBonds(w, id, request, outcome);
      var reg :- SetFinalOutcome(w.reg, request.question.market, outcome);
      var done := request.(status := OracleStatus.Finalized, final := Some(outcome));
      Ok(paid.(reg := reg, oracle := SetRequest(w.oracle, id, done)))
  }

  /** The council's only way to report: verdict and report in one transaction. */
  function FinalizeAndReport(w: World, now: nat, caseId: nat): Result<World> {
    var (council, outcome) :- FinalizeCase(w.council, now, caseId);
    ReportOutcome(w.(council := council), w.council.cases[caseId].request, outcome)
  }

  /** The same on a host that may forbid a contract to be entered again while it runs. The only call the oracle makes
      back into the council is the entry of the council's portion, so that is what such a host refuses. */
  function FinalizeAndReportOn(w: World, now: nat, caseId: nat, reentry: bool): Result<World> {
    var (council, _) :- FinalizeCase(w.council, now, caseId);
    var reported :- FinalizeAndReport(w, now, caseId);
    if !reentry && reported.council != council then Err(ReentryTrapped) else Ok(reported)
  }

  // ---------------------------------------------------------------- runs

  datatype Move =
    | Market(terms: Terms)
    | Govern(market: nat, next: MarketStatus)
    | Close(market: nat)
    | Ask(market: nat, terms: Terms)
    | Assert(who: Address, request: nat, outcome: Outcome, evidence: string)
    | Contest(who: Address, request: nat, outcome: Outcome, evidence: string)
    | Settle(request: nat)
    | Refer(request: nat)
    | Report(caseId: nat)
    | Council(act: Act)
    | DirectLock(key: V.BondKey, market: nat, amount: int)
    | Reshare(shares: BondShares)
    | PauseOracle(paused: bool)
    | PauseRegistry(paused: bool)
    | Elsewhere(vault: V.VaultState)

  /** `Elsewhere` stands for everything else that happens in the vault: trades, credit, redemptions, fees.
      None of it touches a bond. Only the oracle opens cases and funds their pools. */
  function Apply(w: World, now: nat, move: Move): Result<World> {
    match move
    case Market(terms) =>
      var (reg, m) :- RegisterMarket(w.reg, now, terms);
      var live :- Transition(reg, m, Live);
      Ok(w.(reg := live))
    case Govern(m, next) =>
      var reg :- Transition(w.reg, m, next);
      Ok(w.(reg := reg))
    case Close(m) =>
      var reg :- CloseTrading(w.reg, now, m);
      Ok(w.(reg := reg))
    case Ask(m, terms) => RequestResolution(w, now, m, terms)
    case Assert(who, id, outcome, evidence) => Propose(w, now, who, id, outcome, evidence)
    case Contest(who, id, outcome, evidence) => Dispute(w, now, who, id, outcome, evidence)
    case Settle(id) =>
      var (w1, _) :- FinalizeUndisputed(w, now, id);
      Ok(w1)
    case Refer(id) => Escalate(w, now, id)
    case Report(caseId) => FinalizeAndReport(w, now, caseId)
    case Council(act) =>
      if act.Open? || act.Pool? then Err(Unauthorized)
      else
        var council :- Perform(w.council, now, act);
        Ok(w.(council := council))
    case DirectLock(key, m, amount) =>
      var _ :- RequireAuth(key.user);
      var vault :- V.LockBond(w.vault, w.reg, key, m, amount);
      Ok(w.(vault := vault))
    case Reshare(shares) => if shares.Valid() then Ok(w.(shares := shares)) else Err(InvalidInput)
    case PauseOracle(paused) => Ok(w.(oracle := w.oracle.(paused := paused)))
    case PauseRegistry(paused) => Ok(w.(reg := w.reg.(paused := paused)))
    case Elsewhere(vault) => if vault.escrow == w.vault.escrow then Ok(w.(vault := vault)) else Err(Unauthorized)
  }

  function Step(w: World, now: nat, move: Move): World {
    var r := Apply(w, now, move);
    if r.Ok? then r.value else w
  }

  datatype Turn = Turn(now: nat, move: Move)

  function Run(w: World, turns: seq<Turn>): World
    decreases |turns|
  {
    if turns == [] then w else Run(Step(w, turns[0].now, turns[0].move), turns[1..])
  }

  const BEGINNING := World(
    RegistryState(map[], 1, false), V.EMPTY_VAULT, OracleState(map[], map[], 1, false), NO_COUNCIL, DEFAULT_SHARES)
}
