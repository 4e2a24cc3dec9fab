// The market registry: the status machine of a market and its final outcome.

module MarketRegistry {
  import opened DikeTypes

  /** The immutable terms a resolution request has to repeat. */
  datatype Terms = Terms(questionHash: nat, rulesUri: string, expiry: nat, bondAmount: int, disputeWindow: nat)

  datatype Market = Market(
    terms: Terms,
    status: MarketStatus,
    hasFinal: bool,
    final: Outcome,
    hasRequest: bool,
    requestId: nat)

  datatype RegistryState = RegistryState(markets: map<nat, Market>, nextId: nat, paused: bool)

  predicate ValidTransition(from: MarketStatus, to: MarketStatus) {
    match (from, to)
    case (Created, Live) => true
    case (Live, Paused) => true
    case (Paused, Live) => true
    case (Live, TradingClosed) => true
    case (Paused, TradingClosed) => true
    case (TradingClosed, ResolutionRequested) => true
    case (ResolutionRequested, Proposed) => true
    case (Proposed, Disputed) => true
    case (Disputed, CouncilVoting) => true
    case (CouncilVoting, Resolved) => true
    case (Created, Cancelled) => true
    case (Live, Cancelled) => true
    case (Paused, Cancelled) => true
    case _ => false
  }

  function GetMarket(reg: RegistryState, m: nat): Result<Market> {
    if m in reg.markets then Ok(reg.markets[m]) else Err(MarketNotFound)
  }

  function GetFinalOutcome(reg: RegistryState, m: nat): Result<Outcome> {
    var market :- GetMarket(reg, m);
    if market.hasFinal then Ok(market.final) else Err(InvalidStatus)
  }

  function IsTradeable(reg: RegistryState, now: nat, m: nat): Result<bool> {
    var market :- GetMarket(reg, m);
    Ok(!reg.paused && market.status == Live && now < market.terms.expiry)
  }

  function SetMarket(reg: RegistryState, m: nat, market: Market): RegistryState {
    reg.(markets := reg.markets[m := market])
  }

  function RegisterMarket(reg: RegistryState, now: nat, terms: Terms): Result<(RegistryState, nat)> {
    if terms.rulesUri == "" || terms.expiry <= now then Err(InvalidInput)
    else if terms.bondAmount <= 0 || terms.disputeWindow == 0 then Err(InvalidAmount)
    else
      var market := Market(terms, Created, false, Invalid, false, 0);
      Ok((SetMarket(reg, reg.nextId, market).(nextId := reg.nextId + 1), reg.nextId))
  }

  function Transition(reg: RegistryState, m: nat, next: MarketStatus): Result<RegistryState> {
    var market :- GetMarket(reg, m);
    if !ValidTransition(market.status, next) then Err(InvalidTransition)
    else Ok(SetMarket(reg, m, market.(status := next)))
  }

  function CloseTrading(reg: RegistryState, now: nat, m: nat): Result<RegistryState> {
    var market :- GetMarket(reg, m);
    if now < market.terms.expiry then Err(NotExpired)
    else Transition(reg, m, TradingClosed)
  }

  function MarkResolutionRequested(reg: RegistryState, m: nat, request: nat): Result<RegistryState> {
    var market :- GetMarket(reg, m);
    if !ValidTransition(market.status, ResolutionRequested) then Err(InvalidTransition)
    else Ok(SetMarket(reg, m, market.(status := ResolutionRequested, hasRequest := true, requestId := request)))
  }

  function SetFinalOutcome(reg: RegistryState, m: nat, outcome: Outcome): Result<RegistryState> {
    var market :- GetMarket(reg, m);
    if market.hasFinal || market.status == Resolved then Err(AlreadyResolved)
    else if market.status != Proposed && market.status != CouncilVoting then Err(InvalidStatus)
    else Ok(SetMarket(reg, m, market.(hasFinal := true, final := outcome, status := Resolved)))
  }

  // ---------------------------------------------------------------- the contract

  class Registry {
    var markets: map<nat, Market>
    var nextId: nat
    var paused: bool

    ghost function State(): RegistryState
      reads this
    {
      RegistryState(markets, nextId, paused)
    }

    constructor ()
      ensures State() == RegistryState(map[], 1, false)
    {
      markets, nextId, paused := map[], 1, false;
    }

    /** Puts the storage back to a snapshot, as the host does when a transaction fails. */
    method Restore(ghost s: RegistryState, m: map<nat, Market>, n: nat, p: bool)
      requires s == RegistryState(m, n, p)
      modifies this
      ensures State() == s
    {
      markets, nextId, paused := m, n, p;
    }

    method Register(now: nat, terms: Terms) returns (r: Result<nat>)
      modifies this
      ensures match RegisterMarket(old(State()), now, terms)
              case Ok((s, id)) => r == Ok(id) && State() == s
              case Err(e) => r == Err(e) && State() == old(State())
    {
      if terms.rulesUri == "" || terms.expiry <= now {
        return Err(InvalidInput);
      }
      if terms.bondAmount <= 0 || terms.disputeWindow == 0 {
        return Err(InvalidAmount);
      }
      var id := nextId;
      markets := markets[id := Market(terms, Created, false, Invalid, false, 0)];
      nextId := id + 1;
      return Ok(id);
    }

    method TransitionTo(m: nat, next: MarketStatus) returns (r: Result<()>)
      modifies this
      ensures match Transition(old(State()), m, next)
              case Ok(s) => r == Ok(()) && State() == s
              case Err(e) => r == Err(e) && State() == old(State())
    {
      if m !in markets {
        return Err(MarketNotFound);
      }
      var market := markets[m];
      if !ValidTransition(market.status, next) {
        return Err(InvalidTransition);
      }
      markets := markets[m := market.(status := next)];
      return Ok(());
    }

    method Close(now: nat, m: nat) returns (r: Result<()>)
      modifies this
      ensures match CloseTrading(old(State()), now, m)
              case Ok(s) => r == Ok(()) && State() == s
              case Err(e) => r == Err(e) && State() == old(State())
    {
      if m !in markets {
        return Err(MarketNotFound);
      }
      if now < markets[m].terms.expiry {
        return Err(NotExpired);
      }
      r := TransitionTo(m, TradingClosed);
    }

    method MarkRequested(m: nat, request: nat) returns (r: Result<()>)
      modifies this
      ensures match MarkResolutionRequested(old(State()), m, request)
              case Ok(s) => r == Ok(()) && State() == s
              case Err(e) => r == Err(e) && State() == old(State())
    {
      if m !in markets {
        return Err(MarketNotFound);
      }
      var market := markets[m];
      if !ValidTransition(market.status, ResolutionRequested) {
        return Err(InvalidTransition);
      }
      markets := markets[m := market.(status := ResolutionRequested, hasRequest := true, requestId := request)];
      return Ok(());
    }

    method Finalize(m: nat, outcome: Outcome) returns (r: Result<()>)
      modifies this
      ensures match SetFinalOutcome(old(State()), m, outcome)
              case Ok(s) => r == Ok(()) && State() == s
              case Err(e) => r == Err(e) && State() == old(State())
    {
      if m !in markets {
        return Err(MarketNotFound);
      }
      var market := markets[m];
      if market.hasFinal || market.status == Resolved {
        return Err(AlreadyResolved);
      }
      if market.status != Proposed && market.status != CouncilVoting {
        return Err(InvalidStatus);
      }
      markets := markets[m := market.(hasFinal := true, final := outcome, status := Resolved)];
      return Ok(());
    }
  }
}
