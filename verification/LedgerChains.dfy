// Chains of credit: when one market is, for one user, both a parent that lent and a child that owes.

module LedgerChains {
  import opened DikeTypes
  import opened MarketRegistry
  import opened VaultLedger
  import opened AmmPools
  import opened LedgerCalls
  import opened LedgerEscrow

  /** A position of the user in market m has lent. */
  predicate LendsIn(v: VaultState, m: nat, u: Address) {
    exists o :: ChildrenOf(v, Position(m, u, o)) != []
  }

  /** The middle of a chain: the user's leg in market m has a parent, and a position of the user there has lent. */
  predicate InChain(v: VaultState, m: nat, u: Address) {
    HasParent(v, Leg(m, u)) && LendsIn(v, m, u)
  }

  /** The chain rule stops a draw from a market that is a child. It does not stop one into a market that is a parent,
      and that is the only way into the middle of a chain. */
  lemma DrawChains(v: VaultState, reg: RegistryState, q: Position, c: nat, amount: int, m: nat, u: Address)
    requires CreditAllowed(v, reg, q, c, amount).Ok?
    ensures InChain(RecordCredit(v, q, c, amount), m, u) <==>
            InChain(v, m, u) || (m == c && u == q.user && LendsIn(v, c, u))
  {
    hide CreditAllowed;
    DrawGuards(v, reg, q, c, amount);
    var v' := RecordCredit(v, q, c, amount);
    forall o ensures ChildrenOf(v', Position(m, u, o)) != [] <==>
                     ChildrenOf(v, Position(m, u, o)) != [] || Position(m, u, o) == q
    {
    }
    assert HasParent(v', Leg(m, u)) <==> HasParent(v, Leg(m, u)) || Leg(m, u) == Leg(c, q.user);
    if LendsIn(v, m, u) {
      var o :| ChildrenOf(v, Position(m, u, o)) != [];
      assert ChildrenOf(v', Position(m, u, o)) != [];
    }
    if LendsIn(v', m, u) && !LendsIn(v, m, u) {
      var o :| ChildrenOf(v', Position(m, u, o)) != [];
      assert Position(m, u, o) == q;
    }
  }

  lemma DrawGuards(v: VaultState, reg: RegistryState, q: Position, c: nat, amount: int)
    requires CreditAllowed(v, reg, q, c, amount).Ok?
    ensures q.market != c && !HasParent(v, Leg(q.market, q.user))
  {
  }

  /** What happens to the middle of a chain in one call. */
  predicate ClosesChain(l: Ledger, call: Call, m: nat, u: Address) {
    && Draws(call) && call.trader == u && call.pool in l.amm.pools && l.amm.pools[call.pool].market == m
    && LendsIn(l.vault, m, u)
  }

  lemma DrawnInto(l: Ledger, now: nat, call: Call)
    requires Draws(call) && Apply(l, now, call).Ok?
    ensures call.pool in l.amm.pools
    ensures var q := Position(call.parent.position.market, call.trader, call.parent.position.outcome);
            var m := l.amm.pools[call.pool].market;
            && CreditAllowed(l.vault, l.reg, q, m, call.amountIn).Ok?
            && Apply(l, now, call).value.vault.credit.lender == RecordCredit(l.vault, q, m, call.amountIn).credit.lender
            && Apply(l, now, call).value.vault.credit.children
               == RecordCredit(l.vault, q, m, call.amountIn).credit.children
  {
    hide RecordCredit, CreditAllowed, CollectFee, BuyTokens, PriceBuy, RequireLive, SplitTradingFee, AfterBuy;
    var pool := l.amm.pools[call.pool];
    assert PriceBuy(pool, call.amountIn, SideOf(call.yes)).value.amountIn == call.amountIn by {
      PricedAmount(pool, call.amountIn, SideOf(call.yes));
    }
    var q := Position(call.parent.position.market, call.trader, call.parent.position.outcome);
    PaidIn(l.vault, l.reg, q, pool.market, call.amountIn);
    FeeCredit(Apply(l, now, call).value.vault);
  }

  lemma FeeCredit(v': VaultState)
    ensures forall v: VaultState, m: nat, lp: int, protocol: int, cod: int ::
              CollectFee(v, m, lp, protocol, cod) == Ok(v') ==> v'.credit == v.credit
  {
  }

  lemma PricedAmount(pool: Pool, amountIn: int, outcome: Outcome)
    requires PriceBuy(pool, amountIn, outcome).Ok?
    ensures PriceBuy(pool, amountIn, outcome).value.amountIn == amountIn
  {
  }

  lemma PaidIn(v: VaultState, reg: RegistryState, q: Position, c: nat, amount: int)
    requires OpenCredit(v, reg, q, c, amount).Ok?
    ensures OpenCredit(v, reg, q, c, amount).value.credit == RecordCredit(v, q, c, amount).credit
  {
  }

  lemma SameChain(v: VaultState, v': VaultState, m: nat, u: Address)
    requires v'.credit.lender == v.credit.lender && v'.credit.children == v.credit.children
    ensures InChain(v', m, u) == InChain(v, m, u)
  {
    assert forall q :: ChildrenOf(v', q) == ChildrenOf(v, q);
  }

  lemma BondLinks(l: Ledger, now: nat, call: Call)
    requires (call.BondLock? || call.BondUnlock?) && Apply(l, now, call).Ok?
    ensures Apply(l, now, call).value.vault.credit == l.vault.credit
  {
  }

  lemma StepChain(l: Ledger, now: nat, call: Call, m: nat, u: Address)
    requires Apply(l, now, call).Ok?
    ensures InChain(Apply(l, now, call).value.vault, m, u) <==> InChain(l.vault, m, u) || ClosesChain(l, call, m, u)
  {
    hide Apply, InChain, LendsIn, RecordCredit, CreditAllowed;
    var v' := Apply(l, now, call).value.vault;
    if Draws(call) {
      DrawnInto(l, now, call);
      var q := Position(call.parent.position.market, call.trader, call.parent.position.outcome);
      var c := l.amm.pools[call.pool].market;
      DrawChains(l.vault, l.reg, q, c, call.amountIn, m, u);
      SameChain(RecordCredit(l.vault, q, c, call.amountIn), v', m, u);
    } else {
      if call.BondLock? || call.BondUnlock? {
        BondLinks(l, now, call);
      } else {
        ApplyEscrow(l, now, call);
      }
      SameChain(l.vault, v', m, u);
    }
  }

  /** Some accepted draw of the run went into market m after the user had drawn on it. */
  predicate ChainsIn(l: Ledger, events: seq<Event>, m: nat, u: Address)
    decreases |events|
  {
    events != [] &&
      var now, call := events[0].now, events[0].call;
      (Apply(l, now, call).Ok? && ClosesChain(l, call, m, u)) || ChainsIn(Step(l, now, call), events[1..], m, u)
  }

  lemma {:induction false} RunChains(l: Ledger, events: seq<Event>, m: nat, u: Address)
    ensures InChain(Run(l, events).vault, m, u) <==> InChain(l.vault, m, u) || ChainsIn(l, events, m, u)
    decreases |events|
  {
    hide Apply, InChain, ClosesChain;
    if events != [] {
      var now, call := events[0].now, events[0].call;
      if Apply(l, now, call).Ok? {
        StepChain(l, now, call, m, u);
      }
      RunChains(Step(l, now, call), events[1..], m, u);
    }
  }

  /** Over whole runs: a market is in the middle of a user's chain exactly when the user drew into it after drawing on
      it. */
  lemma ChainsExactly(events: seq<Event>, m: nat, u: Address)
    ensures InChain(Run(GENESIS, events).vault, m, u) <==> ChainsIn(GENESIS, events, m, u)
  {
    hide Run, ChainsIn;
    RunChains(GENESIS, events, m, u);
  }
}
