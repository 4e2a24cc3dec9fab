// The whole system on one clock: the calls of LedgerCalls and the moves of CodOracle act on the same registry and the
// same vault. Every run of the whole is a run of either machine, so the laws of both hold in it together.

module JointRuns {
  import opened Basics
  import opened DikeTypes
  import opened MarketRegistry
  import opened BondSplits
  import opened CouncilVoting
  import opened AmmPools
  import V = VaultLedger
  import C = LedgerCalls
  import O = CodOracle
  import R = LedgerRecord
  import E = LedgerEscrow
  import W = ResolutionVerdict

  datatype Joint = Joint(
    ledger: Ledger, oracle: O.OracleState, council: CouncilState, shares: BondShares, clock: nat)

  /** A transaction of either kind. */
  datatype Deed = Trade(call: C.Call) | Resolve(move: O.Move)

  /** A transaction some time after the one before it. */
  datatype Entry = After(wait: nat, deed: Deed)

  function WorldOf(s: Joint): O.World {
    O.World(s.ledger.reg, s.ledger.vault, s.oracle, s.council, s.shares)
  }

  function WithWorld(s: Joint, w: O.World): Joint {
    Joint(s.ledger.(reg := w.reg, vault := w.vault), w.oracle, w.council, w.shares, s.clock)
  }

  /** Registry moves and bonds belong to the resolution side, where their callers are checked. */
  predicate Direct(call: C.Call) {
    !call.RegistryMove? && !call.BondLock? && !call.BondUnlock?
  }

  /** Markets are created by the factory with their pool, and the rest of the vault moves by calls. */
  predicate OfResolution(move: O.Move) {
    !move.Market? && !move.Elsewhere? && !move.PauseRegistry?
  }

  function Apply(s: Joint, deed: Deed): Result<Joint> {
    match deed
    case Trade(call) =>
      if !Direct(call) then Err(Unauthorized)
      else
        var l :- C.Apply(s.ledger, s.clock, call);
        Ok(s.(ledger := l))
    case Resolve(move) =>
      if !OfResolution(move) then Err(Unauthorized)
      else
        var w :- O.Apply(WorldOf(s), s.clock, move);
        Ok(WithWorld(s, w))
  }

  function Tick(s: Joint, wait: nat): Joint {
    s.(clock := s.clock + wait)
  }

  /** A failed transaction leaves nothing behind but the time it took. */
  function Step(s: Joint, e: Entry): Joint {
    var r := Apply(Tick(s, e.wait), e.deed);
    if r.Ok? then r.value else Tick(s, e.wait)
  }

  function Run(s: Joint, entries: seq<Entry>): Joint
    decreases |entries|
  {
    if entries == [] then s else Run(Step(s, entries[0]), entries[1..])
  }

  const BIRTH := Joint(C.GENESIS, O.BEGINNING.oracle, NO_COUNCIL, DEFAULT_SHARES, 0)

  // ---------------------------------------------------------------- the collateral side of a deed

  /** What a move of the resolution does to registry and bonds, as calls of the collateral side. */
  function AsEvents(w: O.World, now: nat, move: O.Move): seq<C.Event> {
    match move
    case Govern(m, next) => [Reg(now, C.Status(m, next))]
    case Close(m) => [Reg(now, C.Close(m))]
    case Ask(m, _) =>
      (if m in w.reg.markets && w.reg.markets[m].status == Live then [Reg(now, C.Close(m))] else [])
      + [Reg(now, C.Requested(m, w.oracle.nextId))]
    case Assert(who, id, _, _) =>
      if id in w.oracle.requests then Stated(w, now, V.BondKey(id, who, false), Proposed) else []
    case Contest(who, id, _, _) =>
      if id in w.oracle.requests then Stated(w, now, V.BondKey(id, who, true), Disputed) else []
    case Settle(id) => if id in w.oracle.requests then Undisputed(w, now, id) else []
    case Refer(id) =>
      if id in w.oracle.requests then [Reg(now, C.Status(w.oracle.requests[id].question.market, CouncilVoting))] else []
    case Report(caseId) => if caseId in w.council.cases then Reported(w, now, caseId) else []
    case DirectLock(key, m, amount) => [C.At(now, C.BondLock(key, m, amount))]
    case _ => []
  }

  function Reg(now: nat, move: C.RegistryMove): C.Event {
    C.At(now, C.RegistryMove(move))
  }

  /** One side of a request: its bond, then the status. */
  function Stated(w: O.World, now: nat, key: V.BondKey, status: MarketStatus): seq<C.Event>
    requires key.request in w.oracle.requests
  {
    var q := w.oracle.requests[key.request].question;
    [C.At(now, C.BondLock(key, q.market, q.bond))] + [Reg(now, C.Status(q.market, status))]
  }

  function Undisputed(w: O.World, now: nat, id: nat): seq<C.Event>
    requires id in w.oracle.requests
  {
    var r := w.oracle.requests[id];
    if r.proposal.None? then []
    else [Reg(now, C.Final(r.question.market, r.proposal.value.outcome))]
         + Unlock(now, O.ProposalKey(id, r.proposal.value), r.proposal.value.who, r.question.bond)
  }

  function Unlock(now: nat, key: V.BondKey, to: Address, amount: int): seq<C.Event> {
    [C.At(now, C.BondUnlock(key, to, amount))]
  }

  function UnlockIfAny(now: nat, key: V.BondKey, to: Address, amount: int): seq<C.Event> {
    if amount > 0 then Unlock(now, key, to, amount) else []
  }

  /** The bonds of a verdict, then the final outcome. */
  function Reported(w: O.World, now: nat, caseId: nat): seq<C.Event>
    requires caseId in w.council.cases
  {
    var id := w.council.cases[caseId].request;
    var verdict := FinalizeCase(w.council, now, caseId);
    if verdict.Err? || id !in w.oracle.requests then []
    else
      var r := w.oracle.requests[id];
      Paid(w, now, id, r, verdict.value.1) + [Reg(now, C.Final(r.question.market, verdict.value.1))]
  }

  function Paid(w: O.World, now: nat, id: nat, r: O.Request, outcome: Outcome): seq<C.Event> {
    if r.proposal.None? || r.dispute.None? then []
    else
      var p, d := O.ProposalKey(id, r.proposal.value), O.DisputeKey(id, r.dispute.value);
      var bond := r.question.bond;
      if outcome == r.proposal.value.outcome then WinnerPaid(w, now, p, d, bond)
      else if outcome == r.dispute.value.outcome then WinnerPaid(w, now, d, p, bond)
      else Unlock(now, p, p.user, bond) + Unlock(now, d, d.user, bond)
  }

  function WinnerPaid(w: O.World, now: nat, winner: V.BondKey, loser: V.BondKey, bond: int): seq<C.Event> {
    var split := LosingBondSplit(w.shares, bond);
    if split.Err? then []
    else Unlock(now, winner, winner.user, bond) + Unlock(now, loser, winner.user, split.value.winner)
         + UnlockIfAny(now, loser, CouncilContract, split.value.council)
         + UnlockIfAny(now, loser, Treasury, split.value.treasury)
  }

  // ---------------------------------------------------------------- and back

  lemma RunTwo(l: Ledger, first: seq<C.Event>, second: seq<C.Event>)
    ensures C.Run(l, first + second) == C.Run(C.Run(l, first), second)
    decreases |first|
  {
    hide C.Step;
    if first == [] {
      assert [] + second == second;
    } else {
      assert (first + second)[1..] == first[1..] + second;
      RunTwo(C.Step(l, first[0].now, first[0].call), first[1..], second);
    }
  }

  lemma RunOne(l: Ledger, e: C.Event)
    ensures C.Run(l, [e]) == C.Step(l, e.now, e.call)
  {
    hide C.Step;
    assert [e][1..] == [];
  }

  lemma RegistryEvent(l: Ledger, now: nat, move: C.RegistryMove)
    requires C.ApplyRegistry(l.reg, now, move).Ok?
    ensures C.Run(l, [Reg(now, move)]) == l.(reg := C.ApplyRegistry(l.reg, now, move).value)
  {
    hide C.ApplyRegistry, C.Run;
    RunOne(l, Reg(now, move));
  }

  lemma LockEvent(l: Ledger, now: nat, key: V.BondKey, m: nat, amount: int)
    requires key.user.Account? && V.LockBond(l.vault, l.reg, key, m, amount).Ok?
    ensures C.Run(l, [C.At(now, C.BondLock(key, m, amount))]) ==
            l.(vault := V.LockBond(l.vault, l.reg, key, m, amount).value)
  {
    hide V.LockBond, C.Run;
    RunOne(l, C.At(now, C.BondLock(key, m, amount)));
  }

  lemma UnlockEvent(l: Ledger, now: nat, key: V.BondKey, to: Address, amount: int)
    requires V.UnlockBond(l.vault, key, to, amount).Ok?
    ensures C.Run(l, Unlock(now, key, to, amount)) == l.(vault := V.UnlockBond(l.vault, key, to, amount).value)
  {
    hide V.UnlockBond, C.Run;
    RunOne(l, C.At(now, C.BondUnlock(key, to, amount)));
  }

  lemma UnlockAnyEvent(l: Ledger, now: nat, key: V.BondKey, to: Address, amount: int)
    requires O.SlashIfAny(l.vault, key, to, amount).Ok?
    ensures C.Run(l, UnlockIfAny(now, key, to, amount)) == l.(vault := O.SlashIfAny(l.vault, key, to, amount).value)
  {
    hide V.UnlockBond, Unlock;
    if amount > 0 {
      UnlockEvent(l, now, key, to, amount);
    }
  }

  lemma WinnerEvents(s: Joint, w: O.World, id: nat, winner: V.BondKey, loser: V.BondKey, bond: int)
    requires w.vault == s.ledger.vault && O.PayWinner(w, id, winner, loser, bond).Ok?
    ensures C.Run(s.ledger, WinnerPaid(w, s.clock, winner, loser, bond)) ==
            s.ledger.(vault := O.PayWinner(w, id, winner, loser, bond).value.vault)
  {
    hide V.UnlockBond, O.SlashIfAny, LosingBondSplit, O.RewardCouncil, Unlock, UnlockIfAny, C.Run;
    var l, now := s.ledger, s.clock;
    var split := LosingBondSplit(w.shares, bond).value;
    var e1, e2 := Unlock(now, winner, winner.user, bond), Unlock(now, loser, winner.user, split.winner);
    var e3 := UnlockIfAny(now, loser, CouncilContract, split.council);
    var e4 := UnlockIfAny(now, loser, Treasury, split.treasury);
    var l1 := l.(vault := V.UnlockBond(l.vault, winner, winner.user, bond).value);
    var l2 := l.(vault := V.UnlockBond(l1.vault, loser, winner.user, split.winner).value);
    var l3 := l.(vault := O.SlashIfAny(l2.vault, loser, CouncilContract, split.council).value);
    UnlockEvent(l, now, winner, winner.user, bond);
    UnlockEvent(l1, now, loser, winner.user, split.winner);
    UnlockAnyEvent(l2, now, loser, CouncilContract, split.council);
    UnlockAnyEvent(l3, now, loser, Treasury, split.treasury);
    RunTwo(l, e1, e2);
    RunTwo(l, e1 + e2, e3);
    RunTwo(l, e1 + e2 + e3, e4);
  }

  lemma PaidEvents(s: Joint, w: O.World, id: nat, r: O.Request, outcome: Outcome)
    requires w.vault == s.ledger.vault && r.proposal.Some? && r.dispute.Some?
    requires O.PayBonds(w, id, r, outcome).Ok?
    ensures C.Run(s.ledger, Paid(w, s.clock, id, r, outcome)) ==
            s.ledger.(vault := O.PayBonds(w, id, r, outcome).value.vault)
  {
    hide O.PayWinner, WinnerPaid, V.UnlockBond, Unlock, C.Run;
    var p, d := O.ProposalKey(id, r.proposal.value), O.DisputeKey(id, r.dispute.value);
    var bond := r.question.bond;
    if outcome == r.proposal.value.outcome {
      WinnerEvents(s, w, id, p, d, bond);
    } else if outcome == r.dispute.value.outcome {
      WinnerEvents(s, w, id, d, p, bond);
    } else {
      UnlockEvent(s.ledger, s.clock, p, p.user, bond);
      var l1 := s.ledger.(vault := V.UnlockBond(s.ledger.vault, p, p.user, bond).value);
      UnlockEvent(l1, s.clock, d, d.user, bond);
      RunTwo(s.ledger, Unlock(s.clock, p, p.user, bond), Unlock(s.clock, d, d.user, bond));
    }
  }

  lemma ReportEvents(s: Joint, caseId: nat)
    requires O.FinalizeAndReport(WorldOf(s), s.clock, caseId).Ok? && caseId in s.council.cases
    ensures var w' := O.FinalizeAndReport(WorldOf(s), s.clock, caseId).value;
            C.Run(s.ledger, Reported(WorldOf(s), s.clock, caseId)) == s.ledger.(reg := w'.reg, vault := w'.vault)
  {
    hide FinalizeCase, O.PayBonds, Paid, SetFinalOutcome, C.Run;
    var w := WorldOf(s);
    var (council, outcome) := FinalizeCase(w.council, s.clock, caseId).value;
    var id := w.council.cases[caseId].request;
    var r := w.oracle.requests[id];
    var w1 := w.(council := council);
    PaidEvents(s, w1, id, r, outcome);
    SamePaid(w, w1, s.clock, id, r, outcome);
    PaidRegistry(w1, id, r, outcome);
    var l1 := s.ledger.(vault := O.PayBonds(w1, id, r, outcome).value.vault);
    RegistryEvent(l1, s.clock, C.Final(r.question.market, outcome));
    RunTwo(s.ledger, Paid(w, s.clock, id, r, outcome), [Reg(s.clock, C.Final(r.question.market, outcome))]);
  }

  lemma SamePaid(w: O.World, w1: O.World, now: nat, id: nat, r: O.Request, outcome: Outcome)
    requires w1.shares == w.shares
    ensures Paid(w1, now, id, r, outcome) == Paid(w, now, id, r, outcome)
  {
    hide LosingBondSplit;
  }

  lemma PaidRegistry(w: O.World, id: nat, r: O.Request, outcome: Outcome)
    requires r.proposal.Some? && r.dispute.Some? && O.PayBonds(w, id, r, outcome).Ok?
    ensures O.PayBonds(w, id, r, outcome).value.reg == w.reg
  {
    hide V.UnlockBond, LosingBondSplit, O.SlashIfAny, O.RewardCouncil;
  }

  lemma AskEvents(s: Joint, m: nat, terms: Terms)
    requires O.RequestResolution(WorldOf(s), s.clock, m, terms).Ok?
    ensures var w' := O.RequestResolution(WorldOf(s), s.clock, m, terms).value;
            C.Run(s.ledger, AsEvents(WorldOf(s), s.clock, O.Ask(m, terms))) ==
            s.ledger.(reg := w'.reg, vault := w'.vault)
  {
    hide CloseTrading, MarkResolutionRequested, C.Run;
    var l, w := s.ledger, WorldOf(s);
    var asked := [Reg(s.clock, C.Requested(m, s.oracle.nextId))];
    if l.reg.markets[m].status == Live {
      RegistryEvent(l, s.clock, C.Close(m));
      var l1 := l.(reg := CloseTrading(l.reg, s.clock, m).value);
      RegistryEvent(l1, s.clock, C.Requested(m, s.oracle.nextId));
      RunTwo(l, [Reg(s.clock, C.Close(m))], asked);
    } else {
      RegistryEvent(l, s.clock, C.Requested(m, s.oracle.nextId));
      assert [] + asked == asked;
    }
  }

  lemma StatedEvents(l: Ledger, w: O.World, now: nat, key: V.BondKey, status: MarketStatus)
    requires w.reg == l.reg && w.vault == l.vault && key.user.Account? && key.request in w.oracle.requests
    requires var q := w.oracle.requests[key.request].question;
             V.LockBond(w.vault, w.reg, key, q.market, q.bond).Ok? && Transition(w.reg, q.market, status).Ok?
    ensures var q := w.oracle.requests[key.request].question;
            C.Run(l, Stated(w, now, key, status)) ==
            l.(reg := Transition(w.reg, q.market, status).value,
               vault := V.LockBond(w.vault, w.reg, key, q.market, q.bond).value)
  {
    hide V.LockBond, Transition, C.Run;
    var q := w.oracle.requests[key.request].question;
    LockEvent(l, now, key, q.market, q.bond);
    var l1 := l.(vault := V.LockBond(w.vault, w.reg, key, q.market, q.bond).value);
    RegistryEvent(l1, now, C.Status(q.market, status));
    RunTwo(l, [C.At(now, C.BondLock(key, q.market, q.bond))], [Reg(now, C.Status(q.market, status))]);
  }

  lemma SettleEvents(s: Joint, id: nat)
    requires O.FinalizeUndisputed(WorldOf(s), s.clock, id).Ok? && id in s.oracle.requests
    ensures var w' := O.FinalizeUndisputed(WorldOf(s), s.clock, id).value.0;
            C.Run(s.ledger, Undisputed(WorldOf(s), s.clock, id)) == s.ledger.(reg := w'.reg, vault := w'.vault)
  {
    hide SetFinalOutcome, V.UnlockBond, Unlock, C.Run;
    var l, now := s.ledger, s.clock;
    var r := s.oracle.requests[id];
    var m, statement := r.question.market, r.proposal.value;
    RegistryEvent(l, now, C.Final(m, statement.outcome));
    var l1 := l.(reg := SetFinalOutcome(l.reg, m, statement.outcome).value);
    var key := O.ProposalKey(id, statement);
    UnlockEvent(l1, now, key, statement.who, r.question.bond);
    RunTwo(l, [Reg(now, C.Final(m, statement.outcome))], Unlock(now, key, statement.who, r.question.bond));
  }

  /** Every move of the resolution is, for the collateral side, a sequence of registry moves and bond calls. */
  lemma MoveIsCalls(s: Joint, move: O.Move)
    requires OfResolution(move) && O.Apply(WorldOf(s), s.clock, move).Ok?
    ensures var w' := O.Apply(WorldOf(s), s.clock, move).value;
            C.Run(s.ledger, AsEvents(WorldOf(s), s.clock, move)) == s.ledger.(reg := w'.reg, vault := w'.vault)
  {
    hide C.Run, Transition, CloseTrading, O.RequestResolution, V.LockBond, FinalizeCase, O.ReportOutcome, Perform,
         O.FinalizeUndisputed, Stated, Undisputed, Reported, OpenCase;
    var l := s.ledger;
    match move
    case Govern(m, next) => RegistryEvent(l, s.clock, C.Status(m, next));
    case Close(m) => RegistryEvent(l, s.clock, C.Close(m));
    case Ask(m, terms) => AskEvents(s, m, terms);
    case Assert(who, id, _, _) => StatedEvents(l, WorldOf(s), s.clock, V.BondKey(id, who, false), Proposed);
    case Contest(who, id, _, _) => StatedEvents(l, WorldOf(s), s.clock, V.BondKey(id, who, true), Disputed);
    case Settle(id) =>
      SettledRequest(WorldOf(s), s.clock, id);
      SettleEvents(s, id);
    case Refer(id) => RegistryEvent(l, s.clock, C.Status(s.oracle.requests[id].question.market, CouncilVoting));
    case Report(caseId) =>
      ReportedCase(s.council, s.clock, caseId);
      ReportEvents(s, caseId);
    case DirectLock(key, m, amount) => LockEvent(l, s.clock, key, m, amount);
    case Council(_) => NoEvents(l);
    case Reshare(_) => NoEvents(l);
    case PauseOracle(_) => NoEvents(l);
  }

  lemma NoEvents(l: Ledger)
    ensures C.Run(l, []) == l
  {
  }

  lemma SettledRequest(w: O.World, now: nat, id: nat)
    requires O.FinalizeUndisputed(w, now, id).Ok?
    ensures id in w.oracle.requests
  {
    hide SetFinalOutcome, V.UnlockBond;
  }

  lemma ReportedCase(c: CouncilState, now: nat, caseId: nat)
    requires FinalizeCase(c, now, caseId).Ok?
    ensures caseId in c.cases
  {
  }

  // ---------------------------------------------------------------- the resolution side of a deed

  /** What a call of the collateral side is for the resolution. */
  function AsTurns(l: Ledger, now: nat, call: C.Call, l': Ledger): seq<O.Turn> {
    match call
    case Creation(_, terms, _, _) => [O.Turn(now, O.Market(terms))] + [O.Turn(now, O.Elsewhere(l'.vault))]
    case Pause(contract, paused) =>
      if contract == C.TheRegistry then [O.Turn(now, O.PauseRegistry(paused))] else [O.Turn(now, O.Elsewhere(l'.vault))]
    case _ => [O.Turn(now, O.Elsewhere(l'.vault))]
  }

  lemma TurnsTwo(w: O.World, first: seq<O.Turn>, second: seq<O.Turn>)
    ensures O.Run(w, first + second) == O.Run(O.Run(w, first), second)
    decreases |first|
  {
    hide O.Step;
    if first == [] {
      assert [] + second == second;
    } else {
      assert (first + second)[1..] == first[1..] + second;
      TurnsTwo(O.Step(w, first[0].now, first[0].move), first[1..], second);
    }
  }

  lemma TurnOne(w: O.World, t: O.Turn)
    ensures O.Run(w, [t]) == O.Step(w, t.now, t.move)
  {
    hide O.Step;
    assert [t][1..] == [];
  }

  lemma ElsewhereTurn(w: O.World, now: nat, v: V.VaultState)
    requires v.escrow == w.vault.escrow
    ensures O.Run(w, [O.Turn(now, O.Elsewhere(v))]) == w.(vault := v)
  {
    hide O.Run;
    TurnOne(w, O.Turn(now, O.Elsewhere(v)));
  }

  lemma RegistryKept(l: Ledger, now: nat, call: C.Call)
    requires Direct(call) && !call.Creation? && !call.Pause? && C.Apply(l, now, call).Ok?
    ensures C.Apply(l, now, call).value.reg == l.reg
  {
    hide BuyVault, BuyTokens, SellVault, SellTokens, ForceTokens, V.CollectFee, V.LiquidateRelease,
         V.LiquidateChildRelease, RequireLive, PriceBuy, PriceSell, PriceLiquidation, C.ApplyVault, C.ApplyTokens,
         V.Deposit, V.PayLpFees, PayPending, RequireSeedable, RequireTradeable, RequireRemovable, SharesFor,
         Withdrawal, HandOut, FeesOwed, V.RedeemResolved, V.RedeemCancelled;
  }

  lemma CreatedRegistry(l: Ledger, now: nat, call: C.Call)
    requires call.Creation? && C.Apply(l, now, call).Ok?
    ensures var r := RegisterMarket(l.reg, now, call.terms);
            && r.Ok? && Transition(r.value.0, r.value.1, Live).Ok?
            && C.Apply(l, now, call).value.reg == Transition(r.value.0, r.value.1, Live).value
  {
    hide Seed, CreatePool, RegisterMarket, Transition;
    R.CreationCall(l, now, call);
    var (reg, m) := RegisterMarket(l.reg, now, call.terms).value;
    var (amm, id) := CreatePool(l.amm, m, call.fee).value;
    R.SeedRegistry(l.(reg := reg, amm := amm), now, call.creator, id, call.liquidity);
  }

  /** Every call of the collateral side is, for the resolution, a market created and a change elsewhere in the vault. */
  lemma CallIsMoves(s: Joint, call: C.Call)
    requires Direct(call) && C.Apply(s.ledger, s.clock, call).Ok?
    ensures var l' := C.Apply(s.ledger, s.clock, call).value;
            O.Run(WorldOf(s), AsTurns(s.ledger, s.clock, call, l')) == WorldOf(s.(ledger := l'))
  {
    hide C.Apply, O.Run, RegisterMarket, Transition;
    var l, l', w := s.ledger, C.Apply(s.ledger, s.clock, call).value, WorldOf(s);
    E.ApplyEscrow(l, s.clock, call);
    if call.Creation? {
      CreatedRegistry(l, s.clock, call);
      var created := O.Turn(s.clock, O.Market(call.terms));
      TurnOne(w, created);
      ElsewhereTurn(w.(reg := l'.reg), s.clock, l'.vault);
      TurnsTwo(w, [created], [O.Turn(s.clock, O.Elsewhere(l'.vault))]);
    } else if call.Pause? {
      PausedParts(l, s.clock, call);
      if call.contract == C.TheRegistry {
        TurnOne(w, O.Turn(s.clock, O.PauseRegistry(call.paused)));
      } else {
        ElsewhereTurn(w, s.clock, l'.vault);
      }
    } else {
      RegistryKept(l, s.clock, call);
      ElsewhereTurn(w, s.clock, l'.vault);
    }
  }

  lemma PausedParts(l: Ledger, now: nat, call: C.Call)
    requires call.Pause? && C.Apply(l, now, call).Ok?
    ensures var l' := C.Apply(l, now, call).value;
            if call.contract == C.TheRegistry then l'.reg == l.reg.(paused := call.paused) && l'.vault == l.vault
            else l'.reg == l.reg
  {
  }

  // ---------------------------------------------------------------- runs

  function EventsOf(s: Joint, deed: Deed): seq<C.Event> {
    match deed
    case Trade(call) => if Direct(call) then [C.At(s.clock, call)] else []
    case Resolve(move) => if Apply(s, deed).Ok? then AsEvents(WorldOf(s), s.clock, move) else []
  }

  function TurnsOf(s: Joint, deed: Deed): seq<O.Turn> {
    match deed
    case Trade(call) => if Apply(s, deed).Ok? then AsTurns(s.ledger, s.clock, call, Apply(s, deed).value.ledger) else []
    case Resolve(move) => if OfResolution(move) then [O.Turn(s.clock, move)] else []
  }

  /** The run as the collateral side sees it. */
  function Events(s: Joint, entries: seq<Entry>): seq<C.Event>
    decreases |entries|
  {
    if entries == [] then []
    else EventsOf(Tick(s, entries[0].wait), entries[0].deed) + Events(Step(s, entries[0]), entries[1..])
  }

  /** The run as the resolution sees it. */
  function Turns(s: Joint, entries: seq<Entry>): seq<O.Turn>
    decreases |entries|
  {
    if entries == [] then []
    else TurnsOf(Tick(s, entries[0].wait), entries[0].deed) + Turns(Step(s, entries[0]), entries[1..])
  }

  lemma StepLedger(s: Joint, e: Entry)
    ensures Step(s, e).ledger == C.Run(s.ledger, EventsOf(Tick(s, e.wait), e.deed))
  {
    hide C.Run, C.Apply, O.Apply, AsEvents;
    var s1 := Tick(s, e.wait);
    NoEvents(s.ledger);
    match e.deed
    case Trade(call) => RunOne(s.ledger, C.At(s1.clock, call));
    case Resolve(move) =>
      if Apply(s1, e.deed).Ok? {
        MoveIsCalls(s1, move);
      }
  }

  lemma StepWorld(s: Joint, e: Entry)
    ensures WorldOf(Step(s, e)) == O.Run(WorldOf(s), TurnsOf(Tick(s, e.wait), e.deed))
  {
    hide O.Run, C.Apply, O.Apply, AsTurns;
    var s1 := Tick(s, e.wait);
    NoTurns(WorldOf(s));
    match e.deed
    case Trade(call) =>
      if Apply(s1, e.deed).Ok? {
        CallIsMoves(s1, call);
      }
    case Resolve(move) => TurnOne(WorldOf(s), O.Turn(s1.clock, move));
  }

  lemma NoTurns(w: O.World)
    ensures O.Run(w, []) == w
  {
  }

  lemma {:induction false} RunLedger(s: Joint, entries: seq<Entry>)
    ensures Run(s, entries).ledger == C.Run(s.ledger, Events(s, entries))
    decreases |entries|
  {
    hide C.Run, Step, EventsOf;
    if entries == [] {
      NoEvents(s.ledger);
    } else {
      StepLedger(s, entries[0]);
      RunLedger(Step(s, entries[0]), entries[1..]);
      RunTwo(s.ledger, EventsOf(Tick(s, entries[0].wait), entries[0].deed), Events(Step(s, entries[0]), entries[1..]));
    }
  }

  lemma {:induction false} RunWorld(s: Joint, entries: seq<Entry>)
    ensures WorldOf(Run(s, entries)) == O.Run(WorldOf(s), Turns(s, entries))
    ensures W.Clocked(s.clock, Turns(s, entries)) && W.Latest(s.clock, Turns(s, entries)) <= Run(s, entries).clock
    decreases |entries|
  {
    hide O.Run, Step, TurnsOf, WorldOf;
    if entries == [] {
      NoTurns(WorldOf(s));
    } else {
      var first, rest := TurnsOf(Tick(s, entries[0].wait), entries[0].deed), Turns(Step(s, entries[0]), entries[1..]);
      var s1 := Step(s, entries[0]);
      StepWorld(s, entries[0]);
      StepClock(s, entries[0]);
      RunWorld(s1, entries[1..]);
      TurnsTwo(WorldOf(s), first, rest);
      ClockedTwo(s.clock, s1.clock, first, rest);
    }
  }

  lemma StepClock(s: Joint, e: Entry)
    ensures Step(s, e).clock == s.clock + e.wait
    ensures var turns := TurnsOf(Tick(s, e.wait), e.deed);
            forall i :: 0 <= i < |turns| ==> turns[i].now == s.clock + e.wait
  {
    hide C.Apply, O.Apply;
  }

  lemma {:induction false} ClockedTwo(clock: nat, now: nat, first: seq<O.Turn>, rest: seq<O.Turn>)
    requires clock <= now && W.Clocked(now, rest)
    requires forall i :: 0 <= i < |first| ==> first[i].now == now
    ensures W.Clocked(clock, first + rest)
    ensures W.Latest(clock, first + rest) <= W.Latest(now, rest)
    decreases |first|
  {
    if first == [] {
      assert [] + rest == rest;
      EarlierClock(clock, now, rest);
    } else {
      assert (first + rest)[1..] == first[1..] + rest;
      ClockedTwo(now, now, first[1..], rest);
    }
  }

  lemma EarlierClock(clock: nat, now: nat, turns: seq<O.Turn>)
    requires clock <= now && W.Clocked(now, turns)
    ensures W.Clocked(clock, turns) && W.Latest(clock, turns) <= W.Latest(now, turns)
  {
  }

  /** A run of the whole is a run of the collateral side, and its resolution is a run of the resolution with a forward
      clock: what is proved of either holds of the whole. */
  lemma JointIsBoth(entries: seq<Entry>)
    ensures var s := Run(BIRTH, entries);
            && s.ledger == C.Run(C.GENESIS, Events(BIRTH, entries))
            && WorldOf(s) == O.Run(O.BEGINNING, Turns(BIRTH, entries))
            && W.Clocked(0, Turns(BIRTH, entries)) && W.Latest(0, Turns(BIRTH, entries)) <= s.clock
  {
    hide C.Run, O.Run, Run, Events, Turns;
    RunLedger(BIRTH, entries);
    RunWorld(BIRTH, entries);
    assert WorldOf(BIRTH) == O.BEGINNING;
  }

  // ---------------------------------------------------------------- runs in which nothing fails

  predicate Accepted(s: Joint, entries: seq<Entry>)
    decreases |entries|
  {
    entries != [] ==>
      Apply(Tick(s, entries[0].wait), entries[0].deed).Ok? && Accepted(Step(s, entries[0]), entries[1..])
  }

  /** The contracts accept every transaction of the run, and it ends in s. */
  ghost predicate Reaches(entries: seq<Entry>, s: Joint) {
    Accepted(BIRTH, entries) && Run(BIRTH, entries) == s
  }

  lemma {:induction false} OneMore(s: Joint, entries: seq<Entry>, e: Entry)
    requires Accepted(s, entries) && Apply(Tick(Run(s, entries), e.wait), e.deed).Ok?
    ensures Accepted(s, entries + [e])
    ensures Run(s, entries + [e]) == Apply(Tick(Run(s, entries), e.wait), e.deed).value
    decreases |entries|
  {
    hide Apply;
    if entries == [] {
      assert ([] + [e])[1..] == [];
    } else {
      assert (entries + [e])[1..] == entries[1..] + [e];
      OneMore(Step(s, entries[0]), entries[1..], e);
    }
  }

  /** One more accepted transaction. */
  lemma Onward(before: seq<Entry>, s: Joint, wait: nat, deed: Deed, s': Joint)
    requires Reaches(before, s) && Apply(Tick(s, wait), deed) == Ok(s')
    ensures Reaches(before + [After(wait, deed)], s')
  {
    hide Apply, Accepted, Run;
    OneMore(BIRTH, before, After(wait, deed));
  }

  lemma NotYet()
    ensures Reaches([], BIRTH)
  {
  }
}
