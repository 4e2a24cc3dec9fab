// The registry's moves in terms of the path a market takes.

module RegistryTerms {
  import opened DikeTypes
  import opened MarketRegistry

  /** The main path of a market, from creation to its outcome. A pause stands beside trading, and a cancellation ends
      it. */
  function Stage(s: MarketStatus): int {
    match s
    case Created => 0
    case Live => 1
    case Paused => 1
    case TradingClosed => 2
    case ResolutionRequested => 3
    case Proposed => 4
    case Disputed => 5
    case CouncilVoting => 6
    case Resolved => 7
    case Cancelled => -1
  }

  /** A status is reached from the one before it on the path; trading can pause and resume; only a market that has not
      closed can be cancelled; and trading is never paused from anywhere else. */
  lemma TransitionsFollowPath(from: MarketStatus, to: MarketStatus)
    ensures ValidTransition(from, to) <==>
            || (to != Paused && to != Cancelled && from != Cancelled && Stage(to) == Stage(from) + 1)
            || {from, to} == {Live, Paused}
            || (to == Cancelled && 0 <= Stage(from) <= 1)
  {
    match from {
      case Paused => assert {from, to} == {Live, Paused} <==> to == Live;
      case Live => assert {from, to} == {Live, Paused} <==> to == Paused;
      case _ => assert from !in {Live, Paused};
    }
  }

  /** Where a market has ended nothing moves it. */
  lemma EndsStay(reg: RegistryState, now: nat, m: nat, next: MarketStatus, request: nat, outcome: Outcome)
    requires m in reg.markets && reg.markets[m].status in {Resolved, Cancelled}
    ensures Transition(reg, m, next).Err? && CloseTrading(reg, now, m).Err?
    ensures MarkResolutionRequested(reg, m, request).Err? && SetFinalOutcome(reg, m, outcome).Err?
  {
  }

  /** A market is registered exactly with rules, an expiry ahead, a positive bond and a window; it starts created,
      without an outcome, under the next number, and no other market changes. */
  lemma RegistersExactly(reg: RegistryState, now: nat, terms: Terms)
    requires reg.nextId !in reg.markets
    ensures var r := RegisterMarket(reg, now, terms);
            && (r.Ok? <==>
                  terms.rulesUri != "" && now < terms.expiry && terms.bondAmount > 0 && terms.disputeWindow > 0)
            && (r.Ok? ==>
                  var (reg', m) := r.value;
                  && m == reg.nextId && reg'.nextId == m + 1 && reg'.paused == reg.paused
                  && reg'.markets.Keys == reg.markets.Keys + {m}
                  && reg'.markets[m].terms == terms && reg'.markets[m].status == Created && !reg'.markets[m].hasFinal
                  && (forall k :: k in reg.markets ==> reg'.markets[k] == reg.markets[k]))
  {
  }

  /** What a move writes: the status it names, and the outcome only where one is set, once, from a proposal or a vote.
      */
  lemma MovesExactly(reg: RegistryState, now: nat, m: nat, next: MarketStatus, request: nat, outcome: Outcome)
    requires m in reg.markets
    ensures Transition(reg, m, next).Ok? ==>
              Written(reg, Transition(reg, m, next).value, m, reg.markets[m].(status := next))
    ensures CloseTrading(reg, now, m).Ok? <==>
              reg.markets[m].terms.expiry <= now && reg.markets[m].status in {Live, Paused}
    ensures CloseTrading(reg, now, m).Ok? ==>
              Written(reg, CloseTrading(reg, now, m).value, m, reg.markets[m].(status := TradingClosed))
    ensures MarkResolutionRequested(reg, m, request).Ok? <==> reg.markets[m].status == TradingClosed
    ensures MarkResolutionRequested(reg, m, request).Ok? ==>
              Written(reg, MarkResolutionRequested(reg, m, request).value, m,
                      reg.markets[m].(status := ResolutionRequested, hasRequest := true, requestId := request))
    ensures SetFinalOutcome(reg, m, outcome).Ok? <==>
              !reg.markets[m].hasFinal && reg.markets[m].status in {Proposed, CouncilVoting}
    ensures SetFinalOutcome(reg, m, outcome).Ok? ==>
              Written(reg, SetFinalOutcome(reg, m, outcome).value, m,
                      reg.markets[m].(hasFinal := true, final := outcome, status := Resolved))
  {
  }

  predicate Written(reg: RegistryState, reg': RegistryState, m: nat, market: Market) {
    reg' == reg.(markets := reg.markets[m := market])
  }
}
