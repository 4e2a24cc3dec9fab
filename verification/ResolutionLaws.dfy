// The laws of resolution over every run: the oracle and the registry move in lockstep, every bond is where
// the request's status says, and a verdict pays both bonds out completely.

module ResolutionLaws {
  import opened Basics
  import opened DikeTypes
  import opened MarketRegistry
  import opened BondSplits
  import opened CouncilVoting
  import opened CodOracle
  import V = VaultLedger

  /** The registry's name for a request's status. */
  function StatusOf(s: OracleStatus): MarketStatus {
    match s
    case Requested => ResolutionRequested
    case Proposed => MarketStatus.Proposed
    case Disputed => MarketStatus.Disputed
    case Escalated => CouncilVoting
    case Finalized => Resolved
  }

  predicate Locked(bonds: map<V.BondKey, V.Bond>, key: V.BondKey, bond: V.Bond) {
    key in bonds && bonds[key] == bond
  }

  /** The bonds a request holds: none, one, two of exactly the agreed amount, and in the end nothing. */
  predicate HoldsBonds(id: nat, r: Request, bonds: map<V.BondKey, V.Bond>) {
    var full, empty := V.Bond(r.question.bond, r.question.market), V.Bond(0, r.question.market);
    match r.status
    case Requested => true
    case Proposed => r.proposal.Some? && Locked(bonds, ProposalKey(id, r.proposal.value), full)
    case Finalized =>
      && r.proposal.Some? && Locked(bonds, ProposalKey(id, r.proposal.value), empty)
      && (r.dispute.Some? ==> Locked(bonds, DisputeKey(id, r.dispute.value), empty))
    case _ =>
      && r.proposal.Some? && Locked(bonds, ProposalKey(id, r.proposal.value), full)
      && r.dispute.Some? && Locked(bonds, DisputeKey(id, r.dispute.value), full)
  }

  /** The statements match the status, and the two sides disagree. */
  predicate WellStated(r: Request) {
    && r.question.bond > 0 && r.question.window > 0
    && (r.proposal.Some? <==> r.status != OracleStatus.Requested)
    && (r.status == OracleStatus.Requested || r.status == OracleStatus.Proposed ==> r.dispute.None?)
    && (r.status == OracleStatus.Disputed || r.status == OracleStatus.Escalated ==> r.dispute.Some?)
    && (r.proposal.Some? ==> r.proposal.value.evidence != "")
    && (r.dispute.Some? ==> r.proposal.Some? && r.dispute.value.evidence != ""
                            && r.dispute.value.outcome != r.proposal.value.outcome)
    && (r.final.Some? <==> r.status == OracleStatus.Finalized)
  }

  /** The registry's record of the market agrees with the request. */
  predicate InLockstep(r: Request, market: Market, strict: bool) {
    && (strict ==> market.status == StatusOf(r.status))
    && (market.hasFinal <==> r.final.Some?)
    && (r.final.Some? ==> market.final == r.final.value)
  }

  /** Whether the request went to the council. */
  predicate WentToCouncil(r: Request) {
    r.status == OracleStatus.Escalated || (r.status == OracleStatus.Finalized && r.dispute.Some?)
  }

  predicate TidyRequest(w: World, id: nat, strict: bool)
    requires id in w.oracle.requests
  {
    var r := w.oracle.requests[id];
    var m := r.question.market;
    && id < w.oracle.nextId
    && m in w.reg.markets && m in w.oracle.byMarket && w.oracle.byMarket[m] == id
    && WellStated(r)
    && InLockstep(r, w.reg.markets[m], strict)
    && HoldsBonds(id, r, w.vault.escrow.bonds)
    && (id in w.council.byRequest <==> WentToCouncil(r))
  }

  /** A market nobody asked about has not ended; one that was asked about has its request. */
  predicate TidyMarket(w: World, m: nat, strict: bool)
    requires m in w.reg.markets
  {
    var market := w.reg.markets[m];
    && m < w.reg.nextId
    && (m !in w.oracle.byMarket ==>
          !market.hasFinal && (strict ==> market.status in {Created, Live, Paused, TradingClosed, Cancelled}))
    && (m in w.oracle.byMarket ==>
          w.oracle.byMarket[m] in w.oracle.requests
          && w.oracle.requests[w.oracle.byMarket[m]].question.market == m)
  }

  /** Cases and requests point at each other. */
  predicate TidyCase(c: CouncilState, id: nat)
    requires id in c.cases
  {
    id < c.nextId && c.cases[id].request in c.byRequest && c.byRequest[c.cases[id].request] == id
  }

  predicate TidyReferral(w: World, id: nat)
    requires id in w.council.byRequest
  {
    && w.council.byRequest[id] in w.council.cases
    && w.council.cases[w.council.byRequest[id]].request == id
    && id in w.oracle.requests
  }

  /** Requests, markets, bonds and cases fit together; when `strict`, statuses correspond as well, which governance
      can undo. */
  ghost predicate Orderly(w: World, strict: bool) {
    && (forall id :: id in w.oracle.requests ==> TidyRequest(w, id, strict))
    && (forall m :: m in w.reg.markets ==> TidyMarket(w, m, strict))
    && (forall m :: m in w.oracle.byMarket ==> m in w.reg.markets)
    && (forall id :: id in w.council.cases ==> TidyCase(w.council, id))
    && (forall id :: id in w.council.byRequest ==> TidyReferral(w, id))
    && w.shares.Valid()
  }

  // ---------------------------------------------------------------- bonds

  lemma LockEscrow(v: V.VaultState, reg: RegistryState, key: V.BondKey, m: nat, amount: int)
    requires V.LockBond(v, reg, key, m, amount).Ok?
    ensures key !in v.escrow.bonds
    ensures V.LockBond(v, reg, key, m, amount).value.escrow.bonds == v.escrow.bonds[key := V.Bond(amount, m)]
  {
  }

  lemma UnlockEscrow(v: V.VaultState, key: V.BondKey, to: Address, amount: int)
    requires V.UnlockBond(v, key, to, amount).Ok?
    ensures key in v.escrow.bonds && amount > 0 && v.escrow.bonds[key].amount >= amount
    ensures var b := v.escrow.bonds[key];
            V.UnlockBond(v, key, to, amount).value.escrow.bonds ==
            v.escrow.bonds[key := V.Bond(b.amount - amount, b.market)]
    ensures V.UnlockBond(v, key, to, amount).value.purse.balance == v.purse.balance - amount
  {
  }

  /** An unlock succeeds exactly when the bond and the vault both have the amount. */
  lemma UnlockSucceeds(v: V.VaultState, key: V.BondKey, to: Address, amount: int)
    requires key in v.escrow.bonds && amount > 0
    ensures V.UnlockBond(v, key, to, amount).Ok? <==> v.escrow.bonds[key].amount >= amount && v.purse.balance >= amount
  {
  }

  /** Writing a bond of another request, or one that did not exist, leaves a request's bonds alone. */
  lemma OtherBonds(id: nat, r: Request, bonds: map<V.BondKey, V.Bond>, key: V.BondKey, bond: V.Bond)
    requires HoldsBonds(id, r, bonds) && (key.request != id || key !in bonds)
    ensures HoldsBonds(id, r, bonds[key := bond])
  {
  }

  // ---------------------------------------------------------------- frames

  /** A move that touches one request, its market, bonds under its number and its case keeps all others. */
  lemma OneRequest(w: World, w': World, id: nat, strict: bool)
    requires Orderly(w, strict)
    requires id in w'.oracle.requests && TidyRequest(w', id, strict)
    requires w'.oracle.requests == w.oracle.requests[id := w'.oracle.requests[id]]
    requires var m := w'.oracle.requests[id].question.market;
             && (id in w.oracle.requests ==> w.oracle.requests[id].question.market == m)
             && (id !in w.oracle.requests ==> m !in w.oracle.byMarket && id == w.oracle.nextId)
             && m in w'.reg.markets && w'.reg.markets == w.reg.markets[m := w'.reg.markets[m]] && m in w.reg.markets
             && w'.reg.nextId == w.reg.nextId
             && w'.oracle.byMarket == w.oracle.byMarket[m := id]
    requires w'.oracle.nextId >= w.oracle.nextId
    requires forall key: V.BondKey :: key.request != id ==>
               (key in w'.vault.escrow.bonds <==> key in w.vault.escrow.bonds)
               && (key in w.vault.escrow.bonds ==> w'.vault.escrow.bonds[key] == w.vault.escrow.bonds[key])
    requires w'.shares == w.shares
    requires forall j :: j != id ==> (j in w'.council.byRequest <==> j in w.council.byRequest)
    requires forall c :: c in w'.council.cases ==> TidyCase(w'.council, c)
    requires forall j :: j in w'.council.byRequest ==>
               w'.council.byRequest[j] in w'.council.cases && w'.council.cases[w'.council.byRequest[j]].request == j
    ensures Orderly(w', strict)
  {
    hide WellStated, InLockstep;
    forall j | j in w'.oracle.requests ensures TidyRequest(w', j, strict) {
      if j != id {
        assert TidyRequest(w, j, strict);
        SameBonds(j, w.oracle.requests[j], w.vault.escrow.bonds, w'.vault.escrow.bonds, id);
      }
    }
    forall k | k in w'.reg.markets ensures TidyMarket(w', k, strict) {
      assert TidyMarket(w, k, strict);
    }
    forall j | j in w'.council.byRequest ensures TidyReferral(w', j) {
      if j != id {
        assert TidyReferral(w, j);
      }
    }
  }

  lemma SameBonds(j: nat, r: Request, bonds: map<V.BondKey, V.Bond>, bonds': map<V.BondKey, V.Bond>, id: nat)
    requires HoldsBonds(j, r, bonds) && j != id
    requires forall key: V.BondKey :: key.request != id ==>
               (key in bonds' <==> key in bonds) && (key in bonds ==> bonds'[key] == bonds[key])
    ensures HoldsBonds(j, r, bonds')
  {
  }

  /** The same when the council is not involved. */
  lemma OneRequestQuietCouncil(w: World, w': World, id: nat, strict: bool)
    requires Orderly(w, strict)
    requires id in w'.oracle.requests && TidyRequest(w', id, strict)
    requires w'.oracle.requests == w.oracle.requests[id := w'.oracle.requests[id]]
    requires var m := w'.oracle.requests[id].question.market;
             && id in w.oracle.requests && w.oracle.requests[id].question.market == m
             && m in w'.reg.markets && w'.reg.markets == w.reg.markets[m := w'.reg.markets[m]]
             && w'.reg.nextId == w.reg.nextId
    requires w'.oracle.byMarket == w.oracle.byMarket && w'.oracle.nextId == w.oracle.nextId
    requires forall key: V.BondKey :: key.request != id ==>
               (key in w'.vault.escrow.bonds <==> key in w.vault.escrow.bonds)
               && (key in w.vault.escrow.bonds ==> w'.vault.escrow.bonds[key] == w.vault.escrow.bonds[key])
    requires w'.shares == w.shares && w'.council.byRequest == w.council.byRequest
    requires w'.council.nextId == w.council.nextId && w'.council.cases.Keys == w.council.cases.Keys
    requires forall c :: c in w.council.cases ==> w'.council.cases[c].request == w.council.cases[c].request
    ensures Orderly(w', strict)
  {
    hide WellStated, InLockstep, HoldsBonds;
    assert TidyRequest(w, id, strict);
    var m := w'.oracle.requests[id].question.market;
    assert w'.oracle.byMarket == w.oracle.byMarket[m := id];
    forall c | c in w'.council.cases ensures TidyCase(w'.council, c) {
      assert TidyCase(w.council, c);
    }
    forall j | j in w'.council.byRequest
      ensures w'.council.byRequest[j] in w'.council.cases && w'.council.cases[w'.council.byRequest[j]].request == j
    {
      assert TidyReferral(w, j);
    }
    OneRequest(w, w', id, strict);
  }

  // ---------------------------------------------------------------- the oracle's own steps

  lemma AskOrderly(w: World, now: nat, m: nat, terms: Terms, strict: bool)
    requires Orderly(w, strict) && RequestResolution(w, now, m, terms).Ok?
    ensures Orderly(RequestResolution(w, now, m, terms).value, strict)
  {
    var w' := RequestResolution(w, now, m, terms).value;
    var id := w.oracle.nextId;
    ClosedForRequest(w.reg, now, m);
    var closed := CloseForRequest(w.reg, now, m).value;
    assert w'.reg.markets == w.reg.markets[m := w'.reg.markets[m]];
    assert id !in w.oracle.requests;
    assert id !in w.council.byRequest;
    assert TidyMarket(w, m, strict);
    forall c | c in w'.council.cases ensures TidyCase(w'.council, c) {
      assert TidyCase(w.council, c);
    }
    forall j | j in w'.council.byRequest
      ensures w'.council.byRequest[j] in w'.council.cases && w'.council.cases[w'.council.byRequest[j]].request == j
    {
      assert TidyReferral(w, j);
    }
    OneRequest(w, w', id, strict);
  }

  lemma ClosedForRequest(reg: RegistryState, now: nat, m: nat)
    requires CloseForRequest(reg, now, m).Ok?
    ensures m in reg.markets && !reg.markets[m].hasFinal
    ensures var closed := CloseForRequest(reg, now, m).value;
            && closed.nextId == reg.nextId
            && closed.markets == reg.markets[m := reg.markets[m].(status := TradingClosed)]
  {
    if reg.markets[m].status == TradingClosed {
      assert reg.markets[m].(status := TradingClosed) == reg.markets[m];
      assert reg.markets == reg.markets[m := reg.markets[m]];
    }
  }

  lemma TransitionExactly(reg: RegistryState, m: nat, next: MarketStatus)
    requires Transition(reg, m, next).Ok?
    ensures m in reg.markets && ValidTransition(reg.markets[m].status, next)
    ensures Transition(reg, m, next).value ==
            reg.(markets := reg.markets[m := reg.markets[m].(status := next)])
  {
  }

  lemma AssertOrderly(w: World, now: nat, who: Address, id: nat, outcome: Outcome, evidence: string, strict: bool)
    requires Orderly(w, strict) && Propose(w, now, who, id, outcome, evidence).Ok?
    ensures Orderly(Propose(w, now, who, id, outcome, evidence).value, strict)
  {
    hide V.LockBond, Transition;
    var w' := Propose(w, now, who, id, outcome, evidence).value;
    var r := w.oracle.requests[id];
    assert TidyRequest(w, id, strict);
    LockEscrow(w.vault, w.reg, ProposalKey(id, Statement(who, outcome, evidence, now)), r.question.market,
               r.question.bond);
    TransitionExactly(w.reg, r.question.market, MarketStatus.Proposed);
    OneRequestQuietCouncil(w, w', id, strict);
  }

  lemma ContestOrderly(w: World, now: nat, who: Address, id: nat, outcome: Outcome, evidence: string, strict: bool)
    requires Orderly(w, strict) && Dispute(w, now, who, id, outcome, evidence).Ok?
    ensures Orderly(Dispute(w, now, who, id, outcome, evidence).value, strict)
  {
    hide V.LockBond, Transition;
    var w' := Dispute(w, now, who, id, outcome, evidence).value;
    var r := w.oracle.requests[id];
    assert TidyRequest(w, id, strict);
    LockEscrow(w.vault, w.reg, DisputeKey(id, Statement(who, outcome, evidence, now)), r.question.market,
               r.question.bond);
    TransitionExactly(w.reg, r.question.market, MarketStatus.Disputed);
    OneRequestQuietCouncil(w, w', id, strict);
  }

  lemma SettleOrderly(w: World, now: nat, id: nat, strict: bool)
    requires Orderly(w, strict) && FinalizeUndisputed(w, now, id).Ok?
    ensures Orderly(FinalizeUndisputed(w, now, id).value.0, strict)
  {
    hide V.UnlockBond;
    var w' := FinalizeUndisputed(w, now, id).value.0;
    var r := w.oracle.requests[id];
    assert TidyRequest(w, id, strict);
    UnlockEscrow(w.vault, ProposalKey(id, r.proposal.value), r.proposal.value.who, r.question.bond);
    OneRequestQuietCouncil(w, w', id, strict);
  }

  lemma ReferOrderly(w: World, now: nat, id: nat, strict: bool)
    requires Orderly(w, strict) && Escalate(w, now, id).Ok?
    ensures Orderly(Escalate(w, now, id).value, strict)
  {
    hide Transition, TidyMarket;
    var w' := Escalate(w, now, id).value;
    var r := w.oracle.requests[id];
    assert TidyRequest(w, id, strict);
    TransitionExactly(w.reg, r.question.market, MarketStatus.CouncilVoting);
    assert w.council.nextId !in w.council.cases by {
      assert w.council.nextId in w.council.cases ==> TidyCase(w.council, w.council.nextId);
    }
    var m := r.question.market;
    assert w'.oracle.byMarket == w.oracle.byMarket[m := id];
    forall c | c in w'.council.cases ensures TidyCase(w'.council, c) {
      if c != w.council.nextId {
        assert TidyCase(w.council, c);
      }
    }
    forall j | j in w'.council.byRequest
      ensures w'.council.byRequest[j] in w'.council.cases && w'.council.cases[w'.council.byRequest[j]].request == j
    {
      if j != id {
        assert TidyReferral(w, j);
      }
    }
    OneRequest(w, w', id, strict);
  }

  // ---------------------------------------------------------------- the verdict

  /** The losing bond goes out in three portions that add up to it. */
  lemma SlashedInFull(v: V.VaultState, loser: V.BondKey, to: Address, p: BondPortions, bond: int)
    requires SlashLoser(v, loser, to, p).Ok?
    requires loser in v.escrow.bonds && v.escrow.bonds[loser].amount == bond
    requires p.winner + p.council + p.treasury == bond && p.council >= 0 && p.treasury >= 0
    ensures SlashLoser(v, loser, to, p).value.escrow.bonds ==
            v.escrow.bonds[loser := V.Bond(0, v.escrow.bonds[loser].market)]
    ensures SlashLoser(v, loser, to, p).value.purse.balance == v.purse.balance - bond
    ensures p.winner > 0
  {
    hide V.UnlockBond;
    UnlockEscrow(v, loser, to, p.winner);
    var v1 := V.UnlockBond(v, loser, to, p.winner).value;
    if p.council > 0 {
      UnlockEscrow(v1, loser, CouncilContract, p.council);
    }
    var v2 := SlashIfAny(v1, loser, CouncilContract, p.council).value;
    if p.treasury > 0 {
      UnlockEscrow(v2, loser, Treasury, p.treasury);
    }
  }

  /** Slashing a bond in portions succeeds exactly when the vault has the money and the winner's portion is not
      empty. */
  lemma SlashSucceeds(v: V.VaultState, loser: V.BondKey, to: Address, p: BondPortions, bond: int)
    requires loser in v.escrow.bonds && v.escrow.bonds[loser].amount == bond
    requires p.winner + p.council + p.treasury == bond && p.winner >= 0 && p.council >= 0 && p.treasury >= 0
    ensures SlashLoser(v, loser, to, p).Ok? <==> p.winner > 0 && v.purse.balance >= bond
  {
    hide V.UnlockBond;
    if p.winner > 0 {
      UnlockSucceeds(v, loser, to, p.winner);
      if V.UnlockBond(v, loser, to, p.winner).Ok? {
        UnlockEscrow(v, loser, to, p.winner);
        var v1 := V.UnlockBond(v, loser, to, p.winner).value;
        if p.council > 0 {
          UnlockSucceeds(v1, loser, CouncilContract, p.council);
        }
        if SlashIfAny(v1, loser, CouncilContract, p.council).Ok? {
          if p.council > 0 {
            UnlockEscrow(v1, loser, CouncilContract, p.council);
          }
          if p.treasury > 0 {
            UnlockSucceeds(SlashIfAny(v1, loser, CouncilContract, p.council).value, loser, Treasury, p.treasury);
          }
        }
      }
    } else {
      UnlockNothing(v, loser, to, p.winner);
    }
  }

  lemma UnlockNothing(v: V.VaultState, key: V.BondKey, to: Address, amount: int)
    ensures amount <= 0 ==> V.UnlockBond(v, key, to, amount).Err?
  {
  }

  /** Both bonds are gone and their whole sum has left the vault. */
  predicate PaidOut(v: V.VaultState, v': V.VaultState, p: V.BondKey, d: V.BondKey, bond: int, m: nat) {
    && v'.escrow.bonds == v.escrow.bonds[p := V.Bond(0, m)][d := V.Bond(0, m)]
    && v'.purse.balance == v.purse.balance - 2 * bond
  }

  predicate BothLocked(v: V.VaultState, p: V.BondKey, d: V.BondKey, bond: int, m: nat) {
    p != d && Locked(v.escrow.bonds, p, V.Bond(bond, m)) && Locked(v.escrow.bonds, d, V.Bond(bond, m)) && bond > 0
  }

  /** Paying the winner is a release, a complete slash and an entry in the council's pool. */
  lemma WinnerInParts(w: World, id: nat, winner: V.BondKey, loser: V.BondKey, bond: int)
    ensures var (v1, p) := (V.UnlockBond(w.vault, winner, winner.user, bond), LosingBondSplit(w.shares, bond));
            PayWinner(w, id, winner, loser, bond).Ok? <==>
              && v1.Ok? && p.Ok? && SlashLoser(v1.value, loser, winner.user, p.value).Ok?
              && RewardCouncil(w.council, id, p.value.council).Ok?
    ensures PayWinner(w, id, winner, loser, bond).Ok? ==>
              var v1 := V.UnlockBond(w.vault, winner, winner.user, bond).value;
              var p := LosingBondSplit(w.shares, bond).value;
              PayWinner(w, id, winner, loser, bond).value ==
              w.(vault := SlashLoser(v1, loser, winner.user, p).value,
                 council := RewardCouncil(w.council, id, p.council).value)
  {
    hide V.UnlockBond, LosingBondSplit, RewardCouncil;
  }

  lemma WinnerPaid(w: World, id: nat, winner: V.BondKey, loser: V.BondKey, bond: int, m: nat)
    requires BothLocked(w.vault, winner, loser, bond, m) && w.shares.Valid()
    requires PayWinner(w, id, winner, loser, bond).Ok?
    ensures var w' := PayWinner(w, id, winner, loser, bond).value;
            && PaidOut(w.vault, w'.vault, winner, loser, bond, m)
            && w'.council.byRequest == w.council.byRequest && w'.council.nextId == w.council.nextId
            && w'.council.cases.Keys == w.council.cases.Keys
            && (forall c :: c in w.council.cases ==> w'.council.cases[c].request == w.council.cases[c].request)
            && w'.reg == w.reg && w'.oracle == w.oracle && w'.shares == w.shares
  {
    hide V.UnlockBond, SlashLoser, PayWinner;
    WinnerInParts(w, id, winner, loser, bond);
    UnlockEscrow(w.vault, winner, winner.user, bond);
    var v1 := V.UnlockBond(w.vault, winner, winner.user, bond).value;
    SplitIsExact(w.shares, bond);
    SlashedInFull(v1, loser, winner.user, LosingBondSplit(w.shares, bond).value, bond);
  }

  lemma BothPaid(w: World, proposer: V.BondKey, disputer: V.BondKey, bond: int, m: nat)
    requires BothLocked(w.vault, proposer, disputer, bond, m)
    requires PayBoth(w, proposer, disputer, bond).Ok?
    ensures var w' := PayBoth(w, proposer, disputer, bond).value;
            && PaidOut(w.vault, w'.vault, proposer, disputer, bond, m)
            && w' == w.(vault := w'.vault)
  {
    hide V.UnlockBond;
    UnlockEscrow(w.vault, proposer, proposer.user, bond);
    UnlockEscrow(V.UnlockBond(w.vault, proposer, proposer.user, bond).value, disputer, disputer.user, bond);
  }

  /** In each of the three verdicts both bonds leave the vault completely. */
  lemma BondsPaidOut(w: World, id: nat, r: Request, outcome: Outcome)
    requires r.proposal.Some? && r.dispute.Some? && w.shares.Valid() && PayBonds(w, id, r, outcome).Ok?
    requires BothLocked(w.vault, ProposalKey(id, r.proposal.value), DisputeKey(id, r.dispute.value),
                        r.question.bond, r.question.market)
    ensures var w' := PayBonds(w, id, r, outcome).value;
            && PaidOut(w.vault, w'.vault, ProposalKey(id, r.proposal.value), DisputeKey(id, r.dispute.value),
                       r.question.bond, r.question.market)
            && w'.council.byRequest == w.council.byRequest && w'.council.nextId == w.council.nextId
            && w'.council.cases.Keys == w.council.cases.Keys
            && (forall c :: c in w.council.cases ==> w'.council.cases[c].request == w.council.cases[c].request)
            && w'.reg == w.reg && w'.oracle == w.oracle && w'.shares == w.shares
  {
    hide PayWinner, PayBoth;
    var p, d := ProposalKey(id, r.proposal.value), DisputeKey(id, r.dispute.value);
    var bond, m := r.question.bond, r.question.market;
    if outcome == r.proposal.value.outcome {
      WinnerPaid(w, id, p, d, bond, m);
    } else if outcome == r.dispute.value.outcome {
      WinnerPaid(w, id, d, p, bond, m);
      SwapWrites(w.vault.escrow.bonds, p, d, V.Bond(0, m));
    } else {
      BothPaid(w, p, d, bond, m);
    }
  }

  lemma SwapWrites(bonds: map<V.BondKey, V.Bond>, p: V.BondKey, d: V.BondKey, b: V.Bond)
    requires p != d
    ensures bonds[d := b][p := b] == bonds[p := b][d := b]
  {
  }

  lemma ReportTidy(w: World, id: nat, outcome: Outcome, strict: bool)
    requires id in w.oracle.requests && TidyRequest(w, id, strict) && w.shares.Valid()
             && ReportOutcome(w, id, outcome).Ok?
    ensures var w', r := ReportOutcome(w, id, outcome).value, w.oracle.requests[id];
            && id in w'.oracle.requests && TidyRequest(w', id, strict)
            && w'.oracle == SetRequest(w.oracle, id, r.(status := OracleStatus.Finalized, final := Some(outcome)))
            && w'.reg.markets == w.reg.markets[r.question.market := w'.reg.markets[r.question.market]]
            && w'.reg.nextId == w.reg.nextId
            && PaidOut(w.vault, w'.vault, ProposalKey(id, r.proposal.value), DisputeKey(id, r.dispute.value),
                       r.question.bond, r.question.market)
            && w'.council.byRequest == w.council.byRequest && w'.council.nextId == w.council.nextId
            && w'.council.cases.Keys == w.council.cases.Keys
            && (forall c :: c in w.council.cases ==> w'.council.cases[c].request == w.council.cases[c].request)
            && w'.shares == w.shares
  {
    hide PayBonds;
    BondsPaidOut(w, id, w.oracle.requests[id], outcome);
  }

  lemma ReportOrderly(w: World, id: nat, outcome: Outcome, strict: bool)
    requires Orderly(w, strict) && ReportOutcome(w, id, outcome).Ok?
    ensures Orderly(ReportOutcome(w, id, outcome).value, strict)
  {
    hide ReportOutcome, TidyRequest, TidyMarket, TidyCase, TidyReferral;
    ReportedRequest(w, id, outcome);
    ReportTidy(w, id, outcome, strict);
    RequestMarket(w, id, strict);
    OneRequestQuietCouncil(w, ReportOutcome(w, id, outcome).value, id, strict);
  }

  lemma ReportedRequest(w: World, id: nat, outcome: Outcome)
    requires ReportOutcome(w, id, outcome).Ok?
    ensures id in w.oracle.requests && w.oracle.requests[id].proposal.Some? && w.oracle.requests[id].dispute.Some?
  {
    hide PayBonds;
  }

  lemma RequestMarket(w: World, id: nat, strict: bool)
    requires id in w.oracle.requests && TidyRequest(w, id, strict)
    ensures w.oracle.requests[id].question.market in w.reg.markets
  {
  }

  // ---------------------------------------------------------------- everybody else

  /** A market changes status; nothing else does. */
  lemma OtherMarket(w: World, w': World, m: nat, strict: bool)
    requires Orderly(w, strict) && m in w.reg.markets
    requires w' == w.(reg := w'.reg) && w'.reg.nextId == w.reg.nextId
    requires m in w'.reg.markets && w'.reg.markets == w.reg.markets[m := w'.reg.markets[m]] && TidyMarket(w', m, strict)
    requires m in w.oracle.byMarket && w.oracle.byMarket[m] in w.oracle.requests ==>
               TidyRequest(w', w.oracle.byMarket[m], strict)
    ensures Orderly(w', strict)
  {
    hide WellStated, InLockstep, HoldsBonds;
    forall j | j in w'.oracle.requests ensures TidyRequest(w', j, strict) {
      assert TidyRequest(w, j, strict);
    }
    forall k | k in w'.reg.markets ensures TidyMarket(w', k, strict) {
      assert TidyMarket(w, k, strict);
    }
    forall j | j in w'.council.byRequest ensures TidyReferral(w', j) {
      assert TidyReferral(w, j);
    }
  }

  lemma MarketOrderly(w: World, now: nat, terms: Terms, strict: bool)
    requires Orderly(w, strict) && RegisterMarket(w.reg, now, terms).Ok?
    ensures Orderly(w.(reg := RegisterMarket(w.reg, now, terms).value.0), strict)
  {
    hide WellStated, InLockstep, HoldsBonds;
    var w' := w.(reg := RegisterMarket(w.reg, now, terms).value.0);
    assert w.reg.nextId !in w.reg.markets by {
      assert w.reg.nextId in w.reg.markets ==> TidyMarket(w, w.reg.nextId, strict);
    }
    forall j | j in w'.oracle.requests ensures TidyRequest(w', j, strict) {
      assert TidyRequest(w, j, strict);
    }
    forall k | k in w'.reg.markets ensures TidyMarket(w', k, strict) {
      if k != w.reg.nextId {
        assert TidyMarket(w, k, strict);
      }
    }
    forall j | j in w'.council.byRequest ensures TidyReferral(w', j) {
      assert TidyReferral(w, j);
    }
  }

  /** The statuses governance may set without leaving the oracle behind. */
  predicate BeforeResolution(s: MarketStatus) {
    s in {Live, Paused, TradingClosed, Cancelled}
  }

  /** Governance can move a market without the oracle: a status it sets keeps the two in lockstep exactly
      when it is one that precedes resolution. Everything else stays in order whatever it sets. */
  lemma GovernOrderly(w: World, m: nat, next: MarketStatus, strict: bool)
    requires Orderly(w, strict) && Transition(w.reg, m, next).Ok?
    ensures Orderly(w.(reg := Transition(w.reg, m, next).value), strict) <==> (strict ==> BeforeResolution(next))
  {
    hide Transition, WellStated, HoldsBonds;
    var w' := w.(reg := Transition(w.reg, m, next).value);
    TransitionExactly(w.reg, m, next);
    assert TidyMarket(w, m, strict);
    if m in w.oracle.byMarket {
      var id := w.oracle.byMarket[m];
      assert TidyRequest(w, id, strict);
      RequestMoved(w, w', m, id, next, strict);
      if !strict {
        OtherMarket(w, w', m, strict);
      }
    } else if strict ==> BeforeResolution(next) {
      OtherMarket(w, w', m, strict);
    } else {
      assert Orderly(w', strict) ==> TidyMarket(w', m, strict);
    }
  }

  /** A market with a request leaves its status only for a later one, and its request does not follow. */
  lemma RequestMoved(w: World, w': World, m: nat, id: nat, next: MarketStatus, strict: bool)
    requires id in w.oracle.requests && TidyRequest(w, id, strict) && w.oracle.requests[id].question.market == m
    requires m in w.reg.markets && ValidTransition(w.reg.markets[m].status, next)
    requires w' == w.(reg := w.reg.(markets := w.reg.markets[m := w.reg.markets[m].(status := next)]))
    ensures if strict then !BeforeResolution(next) && !TidyRequest(w', id, strict) else TidyRequest(w', id, strict)
  {
    hide WellStated, HoldsBonds;
  }

  lemma CloseOrderly(w: World, now: nat, m: nat, strict: bool)
    requires Orderly(w, strict) && CloseTrading(w.reg, now, m).Ok?
    ensures Orderly(w.(reg := CloseTrading(w.reg, now, m).value), strict)
  {
    hide Transition;
    GovernOrderly(w, m, TradingClosed, strict);
  }

  lemma CouncilActFrame(c: CouncilState, now: nat, act: Act)
    requires !act.Open? && Perform(c, now, act).Ok?
    ensures var c' := Perform(c, now, act).value;
            && c'.byRequest == c.byRequest && c'.nextId == c.nextId && c'.cases.Keys == c.cases.Keys
            && (forall k :: k in c.cases ==> c'.cases[k].request == c.cases[k].request)
  {
  }

  /** The council changes inside its cases. */
  lemma CouncilOrderly(w: World, c': CouncilState, strict: bool)
    requires Orderly(w, strict)
    requires c'.byRequest == w.council.byRequest && c'.nextId == w.council.nextId
    requires c'.cases.Keys == w.council.cases.Keys
    requires forall k :: k in w.council.cases ==> c'.cases[k].request == w.council.cases[k].request
    ensures Orderly(w.(council := c'), strict)
  {
    hide WellStated, InLockstep, HoldsBonds;
    var w' := w.(council := c');
    forall j | j in w'.oracle.requests ensures TidyRequest(w', j, strict) {
      assert TidyRequest(w, j, strict);
    }
    forall k | k in w'.reg.markets ensures TidyMarket(w', k, strict) {
      assert TidyMarket(w, k, strict);
    }
    forall k | k in w'.council.cases ensures TidyCase(w'.council, k) {
      assert TidyCase(w.council, k);
    }
    forall j | j in w'.council.byRequest ensures TidyReferral(w', j) {
      assert TidyReferral(w, j);
    }
  }

  lemma VaultOrderly(w: World, v': V.VaultState, strict: bool)
    requires Orderly(w, strict)
    requires forall id :: id in w.oracle.requests && HoldsBonds(id, w.oracle.requests[id], w.vault.escrow.bonds) ==>
               HoldsBonds(id, w.oracle.requests[id], v'.escrow.bonds)
    ensures Orderly(w.(vault := v'), strict)
  {
    hide WellStated, InLockstep, HoldsBonds;
    var w' := w.(vault := v');
    forall j | j in w'.oracle.requests ensures TidyRequest(w', j, strict) {
      assert TidyRequest(w, j, strict);
    }
    forall k | k in w'.reg.markets ensures TidyMarket(w', k, strict) {
      assert TidyMarket(w, k, strict);
    }
    forall j | j in w'.council.byRequest ensures TidyReferral(w', j) {
      assert TidyReferral(w, j);
    }
  }

  lemma DirectLockOrderly(w: World, key: V.BondKey, m: nat, amount: int, strict: bool)
    requires Orderly(w, strict) && V.LockBond(w.vault, w.reg, key, m, amount).Ok?
    ensures Orderly(w.(vault := V.LockBond(w.vault, w.reg, key, m, amount).value), strict)
  {
    hide Orderly, V.LockBond, HoldsBonds;
    LockEscrow(w.vault, w.reg, key, m, amount);
    forall id | id in w.oracle.requests && HoldsBonds(id, w.oracle.requests[id], w.vault.escrow.bonds)
      ensures HoldsBonds(id, w.oracle.requests[id], V.LockBond(w.vault, w.reg, key, m, amount).value.escrow.bonds)
    {
      OtherBonds(id, w.oracle.requests[id], w.vault.escrow.bonds, key, V.Bond(amount, m));
    }
    VaultOrderly(w, V.LockBond(w.vault, w.reg, key, m, amount).value, strict);
  }

  /** The owner of the oracle contract's parameters changes nothing about requests. */
  lemma ParametersOrderly(w: World, shares: BondShares, paused: bool, strict: bool)
    requires Orderly(w, strict) && shares.Valid()
    ensures Orderly(w.(shares := shares), strict) && Orderly(w.(oracle := w.oracle.(paused := paused)), strict)
    ensures Orderly(w.(reg := w.reg.(paused := paused)), strict)
  {
    hide WellStated, InLockstep, HoldsBonds;
    forall w' |
      || w' == w.(shares := shares)
      || w' == w.(oracle := w.oracle.(paused := paused))
      || w' == w.(reg := w.reg.(paused := paused))
      ensures Orderly(w', strict)
    {
      forall j | j in w'.oracle.requests ensures TidyRequest(w', j, strict) {
        assert TidyRequest(w, j, strict);
      }
      forall k | k in w'.reg.markets ensures TidyMarket(w', k, strict) {
        assert TidyMarket(w, k, strict);
      }
      forall j | j in w'.council.byRequest ensures TidyReferral(w', j) {
        assert TidyReferral(w, j);
      }
    }
  }

  // ---------------------------------------------------------------- runs

  /** Governance keeps to statuses that precede resolution. */
  predicate Restrained(move: Move) {
    move.Govern? ==> BeforeResolution(move.next)
  }

  lemma ApplyOrderly(w: World, now: nat, move: Move, strict: bool)
    requires Orderly(w, strict) && Apply(w, now, move).Ok? && (strict ==> Restrained(move))
    ensures Orderly(Apply(w, now, move).value, strict)
  {
    hide Orderly, RegisterMarket, Transition, CloseTrading, RequestResolution, Propose, Dispute, FinalizeUndisputed,
         Escalate, ReportOutcome, FinalizeCase, Perform, V.LockBond, HoldsBonds;
    match move
    case Market(terms) =>
      MarketOrderly(w, now, terms, strict);
      GovernOrderly(w.(reg := RegisterMarket(w.reg, now, terms).value.0), RegisterMarket(w.reg, now, terms).value.1,
                    Live, strict);
    case Govern(m, next) => GovernOrderly(w, m, next, strict);
    case Close(m) => CloseOrderly(w, now, m, strict);
    case Ask(m, terms) => AskOrderly(w, now, m, terms, strict);
    case Assert(who, id, outcome, evidence) => AssertOrderly(w, now, who, id, outcome, evidence, strict);
    case Contest(who, id, outcome, evidence) => ContestOrderly(w, now, who, id, outcome, evidence, strict);
    case Settle(id) => SettleOrderly(w, now, id, strict);
    case Refer(id) => ReferOrderly(w, now, id, strict);
    case Report(caseId) =>
      var (council, outcome) := FinalizeCase(w.council, now, caseId).value;
      FinalizeFrame(w.council, now, caseId);
      CouncilOrderly(w, council, strict);
      ReportOrderly(w.(council := council), w.council.cases[caseId].request, outcome, strict);
    case Council(act) =>
      CouncilActFrame(w.council, now, act);
      CouncilOrderly(w, Perform(w.council, now, act).value, strict);
    case DirectLock(key, m, amount) => DirectLockOrderly(w, key, m, amount, strict);
    case Reshare(shares) => ParametersOrderly(w, shares, false, strict);
    case PauseOracle(paused) =>
      OrderlyShares(w, strict);
      ParametersOrderly(w, w.shares, paused, strict);
    case PauseRegistry(paused) =>
      OrderlyShares(w, strict);
      ParametersOrderly(w, w.shares, paused, strict);
    case Elsewhere(vault) => VaultOrderly(w, vault, strict);
  }

  lemma OrderlyShares(w: World, strict: bool)
    requires Orderly(w, strict)
    ensures w.shares.Valid()
  {
    hide TidyRequest, TidyMarket, TidyCase, TidyReferral;
  }

  lemma FinalizeFrame(c: CouncilState, now: nat, id: nat)
    requires FinalizeCase(c, now, id).Ok?
    ensures var c' := FinalizeCase(c, now, id).value.0;
            && id in c.cases
            && c'.byRequest == c.byRequest && c'.nextId == c.nextId && c'.cases.Keys == c.cases.Keys
            && (forall k :: k in c.cases ==> c'.cases[k].request == c.cases[k].request)
  {
  }

  predicate AllRestrained(turns: seq<Turn>) {
    forall i :: 0 <= i < |turns| ==> Restrained(turns[i].move)
  }

  lemma {:induction false} RunOrderly(w: World, turns: seq<Turn>, strict: bool)
    requires Orderly(w, strict) && (strict ==> AllRestrained(turns))
    ensures Orderly(Run(w, turns), strict)
    decreases |turns|
  {
    hide Orderly, Apply, Restrained;
    if turns != [] {
      var now, move := turns[0].now, turns[0].move;
      assert strict ==> Restrained(move);
      if Apply(w, now, move).Ok? {
        ApplyOrderly(w, now, move, strict);
      }
      RunOrderly(Step(w, now, move), turns[1..], strict);
    }
  }

  lemma BeginningOrderly()
    ensures forall strict :: Orderly(BEGINNING, strict)
  {
  }

  /** Oracle and registry in lockstep, in every run in which governance sets no status of the resolution path
      itself: a market has at most one request, their statuses correspond, final outcomes agree, and a market
      with a request was not cancelled. */
  lemma Lockstep(turns: seq<Turn>, id: nat)
    requires AllRestrained(turns)
    ensures var w := Run(BEGINNING, turns);
            id in w.oracle.requests ==>
              var r := w.oracle.requests[id];
              var m := r.question.market;
              && m in w.reg.markets && m in w.oracle.byMarket && w.oracle.byMarket[m] == id
              && w.reg.markets[m].status == StatusOf(r.status)
              && (w.reg.markets[m].hasFinal <==> r.status == OracleStatus.Finalized)
              && (r.final.Some? ==> w.reg.markets[m].final == r.final.value)
  {
    hide Run, HoldsBonds, TidyMarket, TidyCase, TidyReferral;
    BeginningOrderly();
    RunOrderly(BEGINNING, turns, true);
    var w := Run(BEGINNING, turns);
    assert id in w.oracle.requests ==> TidyRequest(w, id, true);
  }

  /** The bonds of a request over its life. */
  lemma BondLifecycle(turns: seq<Turn>, id: nat)
    ensures var w := Run(BEGINNING, turns);
            id in w.oracle.requests ==> HoldsBonds(id, w.oracle.requests[id], w.vault.escrow.bonds)
  {
    hide Run, HoldsBonds, TidyMarket, TidyCase, TidyReferral, InLockstep, WellStated;
    BeginningOrderly();
    RunOrderly(BEGINNING, turns, false);
    var w := Run(BEGINNING, turns);
    assert id in w.oracle.requests ==> TidyRequest(w, id, false);
  }

  // ---------------------------------------------------------------- when a verdict can be reported

  lemma WinnerPayable(w: World, id: nat, winner: V.BondKey, loser: V.BondKey, bond: int, m: nat)
    requires BothLocked(w.vault, winner, loser, bond, m) && w.shares.Valid()
    requires id in w.council.byRequest && w.council.byRequest[id] in w.council.cases
    ensures PayWinner(w, id, winner, loser, bond).Ok?
            <==> w.vault.purse.balance >= 2 * bond && bond * w.shares.winner >= BPS_DENOMINATOR
  {
    hide V.UnlockBond, SlashLoser, LosingBondSplit, PayWinner;
    WinnerInParts(w, id, winner, loser, bond);
    UnlockSucceeds(w.vault, winner, winner.user, bond);
    SplitIsExact(w.shares, bond);
    if V.UnlockBond(w.vault, winner, winner.user, bond).Ok? {
      UnlockEscrow(w.vault, winner, winner.user, bond);
      SlashSucceeds(V.UnlockBond(w.vault, winner, winner.user, bond).value, loser, winner.user,
                    LosingBondSplit(w.shares, bond).value, bond);
    }
  }

  lemma BothPayable(w: World, p: V.BondKey, d: V.BondKey, bond: int, m: nat)
    requires BothLocked(w.vault, p, d, bond, m)
    ensures PayBoth(w, p, d, bond).Ok? <==> w.vault.purse.balance >= 2 * bond
  {
    hide V.UnlockBond;
    UnlockSucceeds(w.vault, p, p.user, bond);
    if V.UnlockBond(w.vault, p, p.user, bond).Ok? {
      UnlockEscrow(w.vault, p, p.user, bond);
      UnlockSucceeds(V.UnlockBond(w.vault, p, p.user, bond).value, d, d.user, bond);
    }
  }

  /** The bonds of an escalated request can be paid out under a verdict. */
  predicate Payable(w: World, r: Request, outcome: Outcome)
    requires r.proposal.Some? && r.dispute.Some?
  {
    && w.vault.purse.balance >= 2 * r.question.bond
    && ((outcome != r.proposal.value.outcome && outcome != r.dispute.value.outcome)
        || r.question.bond * w.shares.winner >= BPS_DENOMINATOR)
  }

  /** The registry still takes a final outcome for the market. */
  predicate Undecided(reg: RegistryState, m: nat) {
    && m in reg.markets && !reg.markets[m].hasFinal
    && (reg.markets[m].status == MarketStatus.Proposed || reg.markets[m].status == CouncilVoting)
  }

  /** A verdict on an escalated request can be reported exactly when the vault has both bonds, the verdict agrees with
      neither side or leaves the winner at least one unit of the losing bond, and the market still takes an outcome,
      which it does unless governance moved it on. Reporting pays both bonds out completely; failing leaves the market
      without an outcome. */
  lemma ReportSucceeds(turns: seq<Turn>, id: nat, outcome: Outcome)
    requires var w := Run(BEGINNING, turns);
             id in w.oracle.requests && w.oracle.requests[id].status == OracleStatus.Escalated
    ensures var w := Run(BEGINNING, turns);
            var r := w.oracle.requests[id];
            && r.proposal.Some? && r.dispute.Some?
            && (ReportOutcome(w, id, outcome).Ok? <==> Payable(w, r, outcome) && Undecided(w.reg, r.question.market))
            && (AllRestrained(turns) ==> Undecided(w.reg, r.question.market))
            && (ReportOutcome(w, id, outcome).Ok? ==>
                  var v' := ReportOutcome(w, id, outcome).value.vault;
                  && v'.purse.balance == w.vault.purse.balance - 2 * r.question.bond
                  && Locked(v'.escrow.bonds, ProposalKey(id, r.proposal.value), V.Bond(0, r.question.market))
                  && Locked(v'.escrow.bonds, DisputeKey(id, r.dispute.value), V.Bond(0, r.question.market)))
  {
    hide Run, Orderly, ReportOutcome, Payable, AllRestrained;
    BeginningOrderly();
    RunOrderly(BEGINNING, turns, false);
    EscalatedReport(Run(BEGINNING, turns), id, outcome);
    if AllRestrained(turns) {
      RunOrderly(BEGINNING, turns, true);
      EscalatedVoting(Run(BEGINNING, turns), id);
    }
  }

  lemma EscalatedVoting(w: World, id: nat)
    requires Orderly(w, true)
    requires id in w.oracle.requests && w.oracle.requests[id].status == OracleStatus.Escalated
    ensures Undecided(w.reg, w.oracle.requests[id].question.market)
  {
    hide TidyMarket, TidyCase, TidyReferral, HoldsBonds;
    assert TidyRequest(w, id, true);
  }

  lemma EscalatedReport(w: World, id: nat, outcome: Outcome)
    requires Orderly(w, false)
    requires id in w.oracle.requests && w.oracle.requests[id].status == OracleStatus.Escalated
    ensures var r := w.oracle.requests[id];
            && r.proposal.Some? && r.dispute.Some?
            && (ReportOutcome(w, id, outcome).Ok? <==> Payable(w, r, outcome) && Undecided(w.reg, r.question.market))
            && (ReportOutcome(w, id, outcome).Ok? ==>
                  var v' := ReportOutcome(w, id, outcome).value.vault;
                  && v'.purse.balance == w.vault.purse.balance - 2 * r.question.bond
                  && Locked(v'.escrow.bonds, ProposalKey(id, r.proposal.value), V.Bond(0, r.question.market))
                  && Locked(v'.escrow.bonds, DisputeKey(id, r.dispute.value), V.Bond(0, r.question.market)))
  {
    hide PayWinner, PayBoth, TidyMarket, TidyCase;
    var r := w.oracle.requests[id];
    assert TidyRequest(w, id, false) && TidyReferral(w, id);
    var p, d := ProposalKey(id, r.proposal.value), DisputeKey(id, r.dispute.value);
    var bond, m := r.question.bond, r.question.market;
    WinnerPayable(w, id, p, d, bond, m);
    WinnerPayable(w, id, d, p, bond, m);
    BothPayable(w, p, d, bond, m);
    if ReportOutcome(w, id, outcome).Ok? {
      BondsPaidOut(w, id, r, outcome);
    }
  }

  /** Whether reporting this verdict enters nothing in the council's pool: it is neither side's, or the council's
      portion of the losing bond is less than one unit. */
  predicate EntersNothing(w: World, r: Request, outcome: Outcome)
    requires r.proposal.Some? && r.dispute.Some?
  {
    || (outcome != r.proposal.value.outcome && outcome != r.dispute.value.outcome)
    || r.question.bond * w.shares.council < BPS_DENOMINATOR
  }

  /** A successful report leaves the council as it was exactly when nothing is entered in its pool. */
  lemma ReportedCouncil(w: World, id: nat, outcome: Outcome)
    requires ReportOutcome(w, id, outcome).Ok? && w.shares.Valid()
    ensures var r := w.oracle.requests[id];
            id in w.oracle.requests && r.proposal.Some? && r.dispute.Some?
            && (ReportOutcome(w, id, outcome).value.council == w.council <==> EntersNothing(w, r, outcome))
  {
    hide V.UnlockBond, SlashIfAny, PayWinner, SetFinalOutcome, LosingBondSplit, RewardCouncil;
    var r := w.oracle.requests[id];
    var p, d := ProposalKey(id, r.proposal.value), DisputeKey(id, r.dispute.value);
    if outcome == r.proposal.value.outcome {
      WinnersCouncil(w, id, p, d, r.question.bond);
    } else if outcome == r.dispute.value.outcome {
      WinnersCouncil(w, id, d, p, r.question.bond);
    }
  }

  lemma WinnersCouncil(w: World, id: nat, winner: V.BondKey, loser: V.BondKey, bond: int)
    requires PayWinner(w, id, winner, loser, bond).Ok? && w.shares.Valid()
    ensures PayWinner(w, id, winner, loser, bond).value.council == w.council <==>
            bond * w.shares.council < BPS_DENOMINATOR
  {
    hide V.UnlockBond, SlashIfAny, LosingBondSplit;
    PositiveBond(w.vault, winner, winner.user, bond);
    SplitIsExact(w.shares, bond);
    var portions := LosingBondSplit(w.shares, bond).value;
    if portions.council > 0 {
      var k := w.council.byRequest[id];
      assert RewardCouncil(w.council, id, portions.council).value.balance == w.council.balance + portions.council;
    }
  }

  lemma PositiveBond(v: V.VaultState, key: V.BondKey, to: Address, amount: int)
    requires V.UnlockBond(v, key, to, amount).Ok?
    ensures amount > 0
  {
  }

  // ---------------------------------------------------------------- the stranded request

  /** The case of an escalated request has its verdict, but the request does not. */
  predicate Stranded(w: World, id: nat) {
    && id in w.oracle.requests && w.oracle.requests[id].status == OracleStatus.Escalated
    && id in w.council.byRequest && w.council.byRequest[id] in w.council.cases
    && w.council.cases[w.council.byRequest[id]].final.Some?
  }

  /** The public call that only finalizes a case strands its request. */
  lemma FinalizeAloneStrands(w: World, now: nat, caseId: nat, strict: bool)
    requires Orderly(w, strict) && Apply(w, now, Council(Finalize(caseId))).Ok?
    requires var id := w.council.cases[caseId].request;
             id in w.oracle.requests && w.oracle.requests[id].status == OracleStatus.Escalated
    ensures caseId in w.council.cases
    ensures Stranded(Apply(w, now, Council(Finalize(caseId))).value, w.council.cases[caseId].request)
  {
    hide TidyRequest, TidyMarket;
    assert TidyCase(w.council, caseId);
  }

  lemma CaseStaysFinal(c: CouncilState, now: nat, act: Act, id: nat)
    requires !act.Open? && Perform(c, now, act).Ok? && id in c.cases && c.cases[id].final.Some?
    ensures var c' := Perform(c, now, act).value;
            id in c'.cases && c'.cases[id].final.Some? && c'.byRequest == c.byRequest
  {
  }

  lemma RewardKeepsFinal(c: CouncilState, id: nat, amount: int, k: nat)
    requires RewardCouncil(c, id, amount).Ok? && k in c.cases && c.cases[k].final.Some?
    ensures var c' := RewardCouncil(c, id, amount).value;
            k in c'.cases && c'.cases[k].final.Some? && c'.byRequest == c.byRequest
  {
  }

  lemma PayBondsKeepsFinal(w: World, id: nat, r: Request, outcome: Outcome, k: nat)
    requires r.proposal.Some? && r.dispute.Some? && PayBonds(w, id, r, outcome).Ok?
    requires k in w.council.cases && w.council.cases[k].final.Some?
    ensures var w' := PayBonds(w, id, r, outcome).value;
            && k in w'.council.cases && w'.council.cases[k].final.Some?
            && w'.council.byRequest == w.council.byRequest && w'.oracle == w.oracle
  {
    hide V.UnlockBond, SlashLoser, LosingBondSplit, RewardCouncil, PayWinner;
    var p, d := ProposalKey(id, r.proposal.value), DisputeKey(id, r.dispute.value);
    WinnerInParts(w, id, p, d, r.question.bond);
    WinnerInParts(w, id, d, p, r.question.bond);
    if outcome == r.proposal.value.outcome || outcome == r.dispute.value.outcome {
      RewardKeepsFinal(w.council, id, LosingBondSplit(w.shares, r.question.bond).value.council, k);
    }
  }

  lemma StepStranded(w: World, now: nat, move: Move, id: nat, strict: bool)
    requires Orderly(w, strict) && Stranded(w, id)
    ensures Stranded(Step(w, now, move), id)
  {
    hide Orderly, RegisterMarket, Transition, CloseTrading, CloseForRequest, MarkResolutionRequested, SetFinalOutcome,
         V.LockBond, V.UnlockBond, PayBonds, FinalizeCase, Perform, OpenCase;
    NotTheNext(w, id, strict);
    if Apply(w, now, move).Ok? {
      if move.Council? {
        CaseStaysFinal(w.council, now, move.act, w.council.byRequest[id]);
      } else if move.Report? {
        ReportOther(w, now, move.caseId, id, strict);
      } else if move.Refer? {
        ReferOther(w, now, move.request, id, strict);
      }
    }
  }

  lemma NotTheNext(w: World, id: nat, strict: bool)
    requires Orderly(w, strict) && id in w.oracle.requests
    ensures id != w.oracle.nextId
  {
    hide TidyMarket, TidyCase, TidyReferral;
    assert TidyRequest(w, id, strict);
  }

  lemma ReportOther(w: World, now: nat, caseId: nat, id: nat, strict: bool)
    requires Orderly(w, strict) && Stranded(w, id) && FinalizeAndReport(w, now, caseId).Ok?
    ensures Stranded(FinalizeAndReport(w, now, caseId).value, id)
  {
    hide TidyRequest, TidyMarket, PayBonds, SetFinalOutcome;
    assert TidyCase(w.council, caseId);
    var (council, outcome) := FinalizeCase(w.council, now, caseId).value;
    var w1 := w.(council := council);
    var other := w.council.cases[caseId].request;
    PayBondsKeepsFinal(w1, other, w.oracle.requests[other], outcome, w.council.byRequest[id]);
  }

  lemma ReferOther(w: World, now: nat, other: nat, id: nat, strict: bool)
    requires Orderly(w, strict) && Stranded(w, id) && Escalate(w, now, other).Ok?
    ensures Stranded(Escalate(w, now, other).value, id)
  {
    hide TidyRequest, TidyMarket, Transition;
    assert TidyCase(w.council, w.council.byRequest[id]);
  }

  lemma {:induction false} RunStranded(w: World, turns: seq<Turn>, id: nat, strict: bool)
    requires Orderly(w, strict) && Stranded(w, id) && (strict ==> AllRestrained(turns))
    ensures Stranded(Run(w, turns), id) && Orderly(Run(w, turns), strict)
    decreases |turns|
  {
    hide Orderly, Apply, Restrained, Stranded;
    if turns != [] {
      var now, move := turns[0].now, turns[0].move;
      assert strict ==> Restrained(move);
      StepStranded(w, now, move, id, strict);
      if Apply(w, now, move).Ok? {
        ApplyOrderly(w, now, move, strict);
      }
      RunStranded(Step(w, now, move), turns[1..], id, strict);
    }
  }

  /** A stranded request stays so in every later run: its market never gets an outcome and both bonds stay
      locked in full. */
  lemma StrandedForever(turns: seq<Turn>, later: seq<Turn>, id: nat)
    requires Stranded(Run(BEGINNING, turns), id)
    ensures var w := Run(Run(BEGINNING, turns), later);
            && id in w.oracle.requests
            && var r := w.oracle.requests[id];
               && r.status == OracleStatus.Escalated && r.proposal.Some? && r.dispute.Some?
               && r.question.market in w.reg.markets && !w.reg.markets[r.question.market].hasFinal
               && Locked(w.vault.escrow.bonds, ProposalKey(id, r.proposal.value),
                         V.Bond(r.question.bond, r.question.market))
               && Locked(w.vault.escrow.bonds, DisputeKey(id, r.dispute.value),
                         V.Bond(r.question.bond, r.question.market))
  {
    hide Run, TidyMarket, TidyCase, TidyReferral;
    BeginningOrderly();
    RunOrderly(BEGINNING, turns, false);
    RunStranded(Run(BEGINNING, turns), later, id, false);
    assert TidyRequest(Run(Run(BEGINNING, turns), later), id, false);
  }

  // ---------------------------------------------------------------- bonds locked directly

  /** The key belongs to neither side of its request. */
  predicate NobodysKey(o: OracleState, key: V.BondKey) {
    key.request in o.requests ==>
      var r := o.requests[key.request];
      && (r.proposal.Some? ==> ProposalKey(key.request, r.proposal.value) != key)
      && (r.dispute.Some? ==> DisputeKey(key.request, r.dispute.value) != key)
  }

  predicate Stray(w: World, key: V.BondKey, bond: V.Bond) {
    Locked(w.vault.escrow.bonds, key, bond) && NobodysKey(w.oracle, key)
  }

  lemma SlashKeeps(v: V.VaultState, loser: V.BondKey, to: Address, p: BondPortions, key: V.BondKey, bond: V.Bond)
    requires SlashLoser(v, loser, to, p).Ok? && loser != key && Locked(v.escrow.bonds, key, bond)
    ensures Locked(SlashLoser(v, loser, to, p).value.escrow.bonds, key, bond)
  {
    hide V.UnlockBond;
    UnlockEscrow(v, loser, to, p.winner);
    var v1 := V.UnlockBond(v, loser, to, p.winner).value;
    if p.council > 0 {
      UnlockEscrow(v1, loser, CouncilContract, p.council);
    }
    var v2 := SlashIfAny(v1, loser, CouncilContract, p.council).value;
    if p.treasury > 0 {
      UnlockEscrow(v2, loser, Treasury, p.treasury);
    }
  }

  lemma PayBondsKeeps(w: World, id: nat, r: Request, outcome: Outcome, key: V.BondKey, bond: V.Bond)
    requires r.proposal.Some? && r.dispute.Some? && PayBonds(w, id, r, outcome).Ok?
    requires ProposalKey(id, r.proposal.value) != key && DisputeKey(id, r.dispute.value) != key
    requires Locked(w.vault.escrow.bonds, key, bond)
    ensures Locked(PayBonds(w, id, r, outcome).value.vault.escrow.bonds, key, bond)
    ensures PayBonds(w, id, r, outcome).value.oracle == w.oracle
  {
    hide V.UnlockBond, SlashLoser, LosingBondSplit, RewardCouncil, PayWinner;
    var p, d := ProposalKey(id, r.proposal.value), DisputeKey(id, r.dispute.value);
    var amount := r.question.bond;
    WinnerInParts(w, id, p, d, amount);
    WinnerInParts(w, id, d, p, amount);
    if outcome == r.proposal.value.outcome {
      UnlockEscrow(w.vault, p, p.user, amount);
      SlashKeeps(V.UnlockBond(w.vault, p, p.user, amount).value, d, p.user,
                 LosingBondSplit(w.shares, amount).value, key, bond);
    } else if outcome == r.dispute.value.outcome {
      UnlockEscrow(w.vault, d, d.user, amount);
      SlashKeeps(V.UnlockBond(w.vault, d, d.user, amount).value, p, d.user,
                 LosingBondSplit(w.shares, amount).value, key, bond);
    } else {
      UnlockEscrow(w.vault, p, p.user, amount);
      UnlockEscrow(V.UnlockBond(w.vault, p, p.user, amount).value, d, d.user, amount);
    }
  }

  lemma StepStray(w: World, now: nat, move: Move, key: V.BondKey, bond: V.Bond)
    requires Stray(w, key, bond)
    ensures Stray(Step(w, now, move), key, bond)
  {
    hide RegisterMarket, Transition, CloseTrading, CloseForRequest, MarkResolutionRequested, SetFinalOutcome,
         V.LockBond, V.UnlockBond, PayBonds, FinalizeCase, Perform, OpenCase;
    if Apply(w, now, move).Ok? {
      match move
      case Assert(who, id, outcome, evidence) =>
        var q := w.oracle.requests[id].question;
        LockEscrow(w.vault, w.reg, ProposalKey(id, Statement(who, outcome, evidence, now)), q.market, q.bond);
      case Contest(who, id, outcome, evidence) =>
        var q := w.oracle.requests[id].question;
        LockEscrow(w.vault, w.reg, DisputeKey(id, Statement(who, outcome, evidence, now)), q.market, q.bond);
      case Settle(id) =>
        var r := w.oracle.requests[id];
        UnlockEscrow(w.vault, ProposalKey(id, r.proposal.value), r.proposal.value.who, r.question.bond);
      case Report(caseId) =>
        FinalizeFrame(w.council, now, caseId);
        var (council, outcome) := FinalizeCase(w.council, now, caseId).value;
        var id := w.council.cases[caseId].request;
        StrayReported(w.(council := council), id, outcome, key, bond);
      case DirectLock(other, m, amount) =>
        LockEscrow(w.vault, w.reg, other, m, amount);
      case _ =>
    }
  }

  lemma StrayReported(w: World, id: nat, outcome: Outcome, key: V.BondKey, bond: V.Bond)
    requires Stray(w, key, bond) && ReportOutcome(w, id, outcome).Ok?
    ensures Stray(ReportOutcome(w, id, outcome).value, key, bond)
  {
    hide PayBonds, SetFinalOutcome;
    var r := w.oracle.requests[id];
    var p, d := ProposalKey(id, r.proposal.value), DisputeKey(id, r.dispute.value);
    PayBondsKeeps(w, id, r, outcome, key, bond);
  }

  lemma {:induction false} RunStray(w: World, turns: seq<Turn>, key: V.BondKey, bond: V.Bond)
    requires Stray(w, key, bond)
    ensures Stray(Run(w, turns), key, bond)
    decreases |turns|
  {
    hide Step, Stray;
    if turns != [] {
      StepStray(w, turns[0].now, turns[0].move, key, bond);
      RunStray(Step(w, turns[0].now, turns[0].move), turns[1..], key, bond);
    }
  }

  /** Anyone may lock a bond for a request without stating anything. Such a bond is in no one's reach: no
      later run, whatever governance does, returns or spends it. */
  lemma StrayForever(w: World, turns: seq<Turn>, key: V.BondKey, bond: V.Bond)
    requires Stray(w, key, bond)
    ensures Locked(Run(w, turns).vault.escrow.bonds, key, bond)
  {
    hide Run, Stray;
    RunStray(w, turns, key, bond);
    StrayLocked(Run(w, turns), key, bond);
  }

  lemma StrayLocked(w: World, key: V.BondKey, bond: V.Bond)
    requires Stray(w, key, bond)
    ensures Locked(w.vault.escrow.bonds, key, bond)
  {
  }

  // ---------------------------------------------------------------- outcomes are final

  predicate IdsBelow(reg: RegistryState) {
    forall m :: m in reg.markets ==> m < reg.nextId
  }

  predicate Decided(reg: RegistryState, m: nat, outcome: Outcome) {
    m in reg.markets && reg.markets[m].hasFinal && reg.markets[m].final == outcome
  }

  /** What every registry operation keeps. */
  predicate KeepsOutcome(reg: RegistryState, reg': RegistryState, m: nat, outcome: Outcome) {
    (IdsBelow(reg) ==> IdsBelow(reg')) && (IdsBelow(reg) && Decided(reg, m, outcome) ==> Decided(reg', m, outcome))
  }

  lemma TransitionKeeps(reg: RegistryState, k: nat, next: MarketStatus, m: nat, outcome: Outcome)
    requires Transition(reg, k, next).Ok?
    ensures KeepsOutcome(reg, Transition(reg, k, next).value, m, outcome)
  {
  }

  lemma RegisterKeeps(reg: RegistryState, now: nat, terms: Terms, m: nat, outcome: Outcome)
    requires RegisterMarket(reg, now, terms).Ok?
    ensures KeepsOutcome(reg, RegisterMarket(reg, now, terms).value.0, m, outcome)
  {
  }

  lemma FinalKeeps(reg: RegistryState, k: nat, final: Outcome, m: nat, outcome: Outcome)
    requires SetFinalOutcome(reg, k, final).Ok?
    ensures KeepsOutcome(reg, SetFinalOutcome(reg, k, final).value, m, outcome)
  {
  }

  lemma MarkKeeps(reg: RegistryState, k: nat, request: nat, m: nat, outcome: Outcome)
    requires MarkResolutionRequested(reg, k, request).Ok?
    ensures KeepsOutcome(reg, MarkResolutionRequested(reg, k, request).value, m, outcome)
  {
  }

  lemma CloseKeeps(reg: RegistryState, now: nat, k: nat, m: nat, outcome: Outcome)
    requires CloseForRequest(reg, now, k).Ok?
    ensures KeepsOutcome(reg, CloseForRequest(reg, now, k).value, m, outcome)
  {
    ClosedForRequest(reg, now, k);
  }

  lemma StepKeepsOutcome(w: World, now: nat, move: Move, m: nat, outcome: Outcome)
    ensures KeepsOutcome(w.reg, Step(w, now, move).reg, m, outcome)
  {
    hide RegisterMarket, Transition, CloseForRequest, MarkResolutionRequested, SetFinalOutcome, V.LockBond,
         V.UnlockBond, FinalizeCase, Perform, OpenCase, SlashLoser, LosingBondSplit, RewardCouncil;
    if Apply(w, now, move).Ok? {
      match move
      case Market(terms) =>
        var (reg, k) := RegisterMarket(w.reg, now, terms).value;
        RegisterKeeps(w.reg, now, terms, m, outcome);
        TransitionKeeps(reg, k, Live, m, outcome);
      case Govern(k, next) => TransitionKeeps(w.reg, k, next, m, outcome);
      case Close(k) => TransitionKeeps(w.reg, k, TradingClosed, m, outcome);
      case Ask(k, terms) =>
        CloseKeeps(w.reg, now, k, m, outcome);
        MarkKeeps(CloseForRequest(w.reg, now, k).value, k, w.oracle.nextId, m, outcome);
      case Assert(_, id, _, _) =>
        TransitionKeeps(w.reg, w.oracle.requests[id].question.market, MarketStatus.Proposed, m, outcome);
      case Contest(_, id, _, _) =>
        TransitionKeeps(w.reg, w.oracle.requests[id].question.market, MarketStatus.Disputed, m, outcome);
      case Settle(id) =>
        var r := w.oracle.requests[id];
        FinalKeeps(w.reg, r.question.market, r.proposal.value.outcome, m, outcome);
      case Refer(id) =>
        TransitionKeeps(w.reg, w.oracle.requests[id].question.market, MarketStatus.CouncilVoting, m, outcome);
      case Report(caseId) =>
        FinalizeFrame(w.council, now, caseId);
        var (council, verdict) := FinalizeCase(w.council, now, caseId).value;
        var id := w.council.cases[caseId].request;
        FinalKeeps(w.reg, w.oracle.requests[id].question.market, verdict, m, outcome);
      case _ =>
    }
  }

  lemma {:induction false} RunKeepsOutcome(w: World, turns: seq<Turn>, m: nat, outcome: Outcome)
    ensures KeepsOutcome(w.reg, Run(w, turns).reg, m, outcome)
    decreases |turns|
  {
    hide Step, IdsBelow, Decided;
    if turns != [] {
      var w1 := Step(w, turns[0].now, turns[0].move);
      StepKeepsOutcome(w, turns[0].now, turns[0].move, m, outcome);
      RunKeepsOutcome(w1, turns[1..], m, outcome);
    }
  }

  /** Whatever governance does, a market's final outcome is written at most once: every later run reads the
      same. */
  lemma OutcomeIsFinal(turns: seq<Turn>, later: seq<Turn>, m: nat)
    requires var reg := Run(BEGINNING, turns).reg;
             m in reg.markets && reg.markets[m].hasFinal
    ensures var reg := Run(BEGINNING, turns).reg;
            var reg' := Run(Run(BEGINNING, turns), later).reg;
            m in reg'.markets && reg'.markets[m].hasFinal && reg'.markets[m].final == reg.markets[m].final
  {
    hide Run;
    var w := Run(BEGINNING, turns);
    RunKeepsOutcome(BEGINNING, turns, m, w.reg.markets[m].final);
    RunKeepsOutcome(w, later, m, w.reg.markets[m].final);
  }
}
