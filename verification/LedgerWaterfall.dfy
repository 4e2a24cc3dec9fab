// The promise of the liquidation waterfall over every run: a user is paid a remainder only after the debts. Whether it
// is kept can be read off the position before the call.

module LedgerWaterfall {
  import opened DikeTypes
  import opened DikeMath
  import opened MarketRegistry
  import opened TokenLedger
  import opened VaultLedger
  import opened VaultBooks
  import opened VaultDebts
  import opened VaultWaterfall
  import opened AmmPools
  import opened LedgerCalls
  import opened LedgerLaws
  import opened LedgerDebts
  import opened LedgerParties

  /** What the waterfall reads is the same. */
  predicate SameRecovery(v: VaultState, v': VaultState) {
    && v'.debts == v.debts && v'.credit.lender == v.credit.lender && v'.credit.children == v.credit.children
  }

  lemma RecoverableSame(v: VaultState, v': VaultState, q: Position)
    requires SameRecovery(v, v')
    ensures Recoverable(v', q) == Recoverable(v, q) && ChildrenOf(v', q) == ChildrenOf(v, q)
  {
    OwedToSame(v, v', q, ChildrenOf(v, q));
  }

  lemma SaleSame(l: Ledger, user: Address, id: nat, pool: Pool, trade: Trade)
    requires ForceSell(l, user, id, pool, trade).Ok?
    ensures var v := ForceSell(l, user, id, pool, trade).value.vault;
            && SameRecovery(l.vault, v) && v.credit == l.vault.credit && NothingLost(l.vault, v)
  {
    hide ForceTokens, SplitTradingFee;
  }

  lemma ExtractSame(v: VaultState, q: Position, tokensSold: int, proceeds: int)
    requires ExtractProceeds(v, q, tokensSold, proceeds).Ok?
    ensures var v' := ExtractProceeds(v, q, tokensSold, proceeds).value;
            SameRecovery(v, v') && NothingLost(v, v')
  {
  }

  lemma SameSound(v: VaultState, v': VaultState)
    requires SoundDebts(v) && SameRecovery(v, v')
    ensures SoundDebts(v')
  {
    forall q ensures 0 <= ParentDebt(v', q) <= Used(v', q) {
      assert 0 <= ParentDebt(v, q) <= Used(v, q);
    }
    forall leg ensures ChildDebt(v', leg) >= 0 {
      assert ChildDebt(v, leg) >= 0;
    }
    assert LegsHaveParents(v);
  }

  lemma LossesAdd(v: VaultState, v1: VaultState, v2: VaultState)
    requires NothingLost(v, v1)
    ensures NothingLost(v, v2) <==> NothingLost(v1, v2)
  {
    if NothingLost(v, v2) {
      forall m: nat ensures AccountOf(v2, m).loans.defaulted == AccountOf(v1, m).loans.defaulted {
        assert AccountOf(v2, m).loans.defaulted == AccountOf(v, m).loans.defaulted;
      }
    }
  }

  lemma SameBooksLose(v: VaultState, v1: VaultState, v2: VaultState)
    requires v2.books == v1.books
    ensures NothingLost(v, v1) <==> NothingLost(v, v2)
  {
  }

  lemma ReleaseExactly(v: VaultState, reg: RegistryState, q: Position, tokensSold: int, proceeds: int)
    requires SoundDebts(v) && Distinct(ChildrenOf(v, q))
    requires LiquidateRelease(v, reg, q, tokensSold, proceeds).Ok?
    requires LiquidateRelease(v, reg, q, tokensSold, proceeds).value.1.remainder > 0
    ensures NothingLost(v, LiquidateRelease(v, reg, q, tokensSold, proceeds).value.0) <==> Recoverable(v, q)
  {
    hide SoundDebts, Distinct, NothingLost, Recoverable, RouteProceeds, ExtractProceeds, SameRecovery;
    var v1 := ExtractProceeds(v, q, tokensSold, proceeds).value;
    ExtractSame(v, q, tokensSold, proceeds);
    SameSound(v, v1);
    RecoverableSame(v, v1, q);
    BpsBounds(proceeds, LIQUIDATION_BONUS_BPS);
    var bonus := Bps(proceeds, LIQUIDATION_BONUS_BPS);
    var routed := RouteProceeds(v1, q, proceeds - bonus);
    PayOutFrame(routed, proceeds, bonus);
    LeftoverExactly(v1, q, proceeds - bonus);
    var v2 := LiquidateRelease(v, reg, q, tokensSold, proceeds).value.0;
    LossesAdd(v, v1, v2);
    SameBooksLose(v1, routed.0, v2);
  }

  lemma LinksDistinct(v: VaultState, q: Position)
    requires OwnLegs(v)
    ensures Distinct(ChildrenOf(v, q))
  {
  }

  lemma LawfulSound(l: Ledger)
    requires Lawful(l)
    ensures SoundDebts(l.vault)
  {
    hide SoundDebts;
  }

  lemma GenesisOwnLegs()
    ensures OwnLegs(GENESIS.vault)
  {
  }

  /** After any run whatever, a liquidation that pays the user a remainder loses nothing if and only if, before the
      call, all credit that the position used was owed upstream and the legs drawn on this very position owed at least
      that much. */
  lemma RemainderExactly(events: seq<Event>, now: nat, liquidator: Address, user: Address, id: nat, outcome: Outcome)
    requires Liquidate(Run(GENESIS, events), now, liquidator, user, id, outcome).Ok?
    requires Liquidate(Run(GENESIS, events), now, liquidator, user, id, outcome).value.1.remainder > 0
    ensures var l := Run(GENESIS, events);
            id in l.amm.pools
            && var q := Position(l.amm.pools[id].market, user, outcome);
            NothingLost(l.vault, Liquidate(l, now, liquidator, user, id, outcome).value.0.vault) <==>
            Recoverable(l.vault, q)
  {
    hide Run, Lawful, OwnLegs, ForceSell, LiquidateRelease, PriceSell, RequireLive, NothingLost, Recoverable,
         SoundDebts, Distinct, SameRecovery;
    var l := Reachable(events);
    GenesisOwnLegs();
    RunOwnLegs(GENESIS, events);
    var (pool, trade) := PriceLiquidation(l, now, liquidator, user, id, outcome, false).value;
    var q := Position(pool.market, user, outcome);
    var l1 := ForceSell(l, user, id, pool, trade).value;
    LawfulSound(l);
    LinksDistinct(l.vault, q);
    SaleSame(l, user, id, pool, trade);
    SameSound(l.vault, l1.vault);
    RecoverableSame(l.vault, l1.vault, q);
    ReleaseExactly(l1.vault, l1.reg, q, trade.amountIn, trade.gross - trade.fee);
    LossesAdd(l.vault, l1.vault, Liquidate(l, now, liquidator, user, id, outcome).value.0.vault);
  }

  /** And the promise for every amount the position might be sold for, again read before the call. */
  lemma PromiseExactly(events: seq<Event>, q: Position)
    ensures var v := Run(GENESIS, events).vault;
            (forall pool: nat :: RouteProceeds(v, q, pool).1 < pool ==> NothingLost(v, RouteProceeds(v, q, pool).0))
            <==> Recoverable(v, q)
  {
    hide Run, Lawful, OwnLegs, RouteProceeds, NothingLost, Recoverable, SoundDebts, Distinct;
    var l := Reachable(events);
    GenesisOwnLegs();
    RunOwnLegs(GENESIS, events);
    LawfulSound(l);
    LinksDistinct(l.vault, q);
    LeftoverPromise(l.vault, q);
  }
}
