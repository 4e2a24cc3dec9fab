// Redemption across every call: what the redemptions of a market did so far, against its final outcome.

module LedgerRecord {
  import opened DikeTypes
  import opened MarketRegistry
  import opened TokenLedger
  import opened VaultLedger
  import opened VaultClaims
  import opened VaultDebts
  import opened AmmPools
  import opened LedgerCalls
  import opened LedgerMoney
  import opened LedgerTokens

  /** Ids are handed out in order, and only a resolved market has a final outcome. */
  ghost predicate RegistrySane(reg: RegistryState) {
    forall m :: m in reg.markets ==> m < reg.nextId && (reg.markets[m].hasFinal ==> reg.markets[m].status == Resolved)
  }

  datatype Ending = Open | Decided(outcome: Outcome)

  /** How a market ended: a cancelled market redeems like an invalid one. */
  function EndingOf(reg: RegistryState, m: nat): Ending {
    if m !in reg.markets then Open
    else if reg.markets[m].hasFinal then Decided(reg.markets[m].final)
    else if reg.markets[m].status == Cancelled then Decided(Invalid)
    else Open
  }

  function Burned(t: TokenState, m: nat, outcome: Outcome): int {
    Read(t.burned, Side(m, outcome))
  }

  /** The part of a market's record that its ending governs. */
  ghost predicate RecordFits(ending: Ending, h: History, carry: int, yesBurned: int, noBurned: int) {
    match ending
    case Open => h.gross == 0 && h.retired == 0 && carry == 0
    case Decided(Yes) => h.gross <= yesBurned && carry == 0
    case Decided(No) => h.gross <= noBurned && carry == 0
    case Decided(Invalid) => 2 * h.gross + carry == h.retired <= yesBurned + noBurned
  }

  ghost predicate Recorded(reg: RegistryState, v: VaultState, t: TokenState, k: nat) {
    var h := HistoryOf(v, k);
    && RecordFits(EndingOf(reg, k), h, AccountOf(v, k).dustCarry, Burned(t, k, Yes), Burned(t, k, No))
    && Unpaid(v, k) >= 0
    && h.upstream >= 0 && h.withheld >= 0 && AccountOf(v, k).cash.redeemed >= 0
  }

  // ---------------------------------------------------------------- calls that redeem nothing

  lemma SameTrailRecorded(reg: RegistryState, v: VaultState, t: TokenState, v': VaultState, t': TokenState, k: nat)
    requires Recorded(reg, v, t, k) && SameTrail(v, v', k) && TokensKept(t, t')
    ensures Recorded(reg, v', t', k)
  {
    hide ValidTokens;
    assert Burned(t', k, Yes) >= Burned(t, k, Yes);
    assert Burned(t', k, No) >= Burned(t, k, No);
  }

  /** A registry move decides a market at most once, and leaves a decided market as it is. */
  lemma RegistryEndings(reg: RegistryState, now: nat, move: RegistryMove, k: nat)
    requires ApplyRegistry(reg, now, move).Ok? && RegistrySane(reg)
    ensures var reg' := ApplyRegistry(reg, now, move).value;
            RegistrySane(reg') && (EndingOf(reg, k) == Open || EndingOf(reg', k) == EndingOf(reg, k))
  {
  }

  lemma OpenRecordFits(ending: Ending, h: History, carry: int, yesBurned: int, noBurned: int)
    requires RecordFits(Open, h, carry, yesBurned, noBurned) && yesBurned >= 0 && noBurned >= 0
    ensures RecordFits(ending, h, carry, yesBurned, noBurned)
  {
  }

  lemma BurnedNonNegative(t: TokenState, m: nat)
    requires ValidTokens(t)
    ensures Burned(t, m, Yes) >= 0 && Burned(t, m, No) >= 0
  {
  }

  /** Deciding a market that nobody redeemed from starts its record. */
  lemma EndingRecorded(reg: RegistryState, reg': RegistryState, v: VaultState, t: TokenState, k: nat)
    requires Recorded(reg, v, t, k) && ValidTokens(t)
    requires EndingOf(reg, k) == Open || EndingOf(reg', k) == EndingOf(reg, k)
    ensures Recorded(reg', v, t, k)
  {
    hide ValidTokens, RecordFits, EndingOf, Burned;
    BurnedNonNegative(t, k);
    if EndingOf(reg, k) == Open {
      OpenRecordFits(EndingOf(reg', k), HistoryOf(v, k), AccountOf(v, k).dustCarry, Burned(t, k, Yes),
                     Burned(t, k, No));
    }
  }

  // ---------------------------------------------------------------- redemption

  /** One redemption on the record of a decided market. */
  lemma RedeemFits(final: Outcome, redeemed: Outcome, amount: int, h: History, carry: int, yesBurned: int,
                   noBurned: int)
    requires RecordFits(Decided(final), h, carry, yesBurned, noBurned)
    requires redeemed != Invalid && amount > 0 && 0 <= carry <= 1
    ensures var (gross, carry') := Entitlement(final, redeemed, amount, carry);
            RecordFits(Decided(final), h.Claimed(gross, amount), carry',
                       yesBurned + (if redeemed == Yes then amount else 0),
                       noBurned + (if redeemed == No then amount else 0))
  {
    hide Entitlement;
    EntitlementSane(final, redeemed, amount, carry);
  }

  /** After the claim is opened and settled. */
  lemma SettledRecord(reg: RegistryState, v: VaultState, t: TokenState, q: Position, final: Outcome, amount: int,
                      v1: VaultState, gross: int, v2: VaultState, t2: TokenState, k: nat)
    requires Recorded(reg, v, t, k) && amount > 0 && q.outcome != Invalid
    requires EndingOf(reg, q.market) == Decided(final)
    requires Balanced(v, t, q.market)
    requires (v1, gross) == OpenClaim(v, q.market, final, q.outcome, amount)
    requires SatisfiesWithin(v1, v2, k, if k == q.market then gross else 0)
    requires forall o ::
               Burned(t2, k, o) == Burned(t, k, o) + (if Side(k, o) == Side(q.market, q.outcome) then amount else 0)
    ensures Recorded(reg, v2, t2, k)
  {
    hide OpenClaim, Entitlement, Burned, RecordFits, EndingOf, Answers, ClaimSide;
    OpenClaimClaims(v, q.market, final, q.outcome, amount, k);
    if k == q.market {
      RedeemFits(final, q.outcome, amount, HistoryOf(v, k), AccountOf(v, k).dustCarry, Burned(t, k, Yes),
                 Burned(t, k, No));
      SameRecord(Decided(final), HistoryOf(v1, k), HistoryOf(v2, k), AccountOf(v2, k).dustCarry, Burned(t2, k, Yes),
                 Burned(t2, k, No));
    } else {
      SameRecord(EndingOf(reg, k), HistoryOf(v1, k), HistoryOf(v2, k), AccountOf(v2, k).dustCarry,
                     Burned(t2, k, Yes), Burned(t2, k, No));
    }
  }

  lemma SameRecord(ending: Ending, h: History, h': History, carry: int, yesBurned: int, noBurned: int)
    requires RecordFits(ending, h, carry, yesBurned, noBurned)
    requires h'.gross == h.gross && h'.retired == h.retired
    ensures RecordFits(ending, h', carry, yesBurned, noBurned)
  {
  }

  lemma RedeemRecorded(l: Ledger, call: Call, k: nat)
    requires (call.Redemption? || call.Refund?) && ApplyRedeem(l, call).Ok?
    requires RegistrySane(l.reg) && SoundDebts(l.vault) && ValidTokens(l.tokens)
    requires Recorded(l.reg, l.vault, l.tokens, k) && Balanced(l.vault, l.tokens, call.market)
    ensures var l' := ApplyRedeem(l, call).value;
            Recorded(l.reg, l'.vault, l'.tokens, k)
  {
    hide OpenClaim, SettleClaim, SettleRefund, Burn, SoundDebts, Balanced, Keeps, SatisfiesWithin, ValidTokens,
         Recorded, TokensKept, Burned, SoundAt;
    var q := Position(call.market, call.user, call.outcome);
    var final := RedeemedUnder(l, call);
    RedeemTokens(l, call);
    RedeemBurned(l, call, k);
    OpenClaimBalanced(l.vault, l.tokens, q, final, call.amount, q.market);
    OpenClaimSound(l.vault, q.market, final, q.outcome, call.amount);
    var (v1, gross) := OpenClaim(l.vault, q.market, final, q.outcome, call.amount);
    KeepsSound(l.vault, v1);
    SoundDebtsAt(v1, q);
    assert AccountOf(v1, q.market).cash.shortfall >= 0 by { BalancedShortfall(v1, l.tokens, q.market); }
    var l' := ApplyRedeem(l, call).value;
    if call.Redemption? {
      SettleClaimClaims(v1, q, gross, k);
    } else {
      SettleRefundClaims(v1, q, gross, k);
    }
    SettledRecord(l.reg, l.vault, l.tokens, q, final, call.amount, v1, gross, l'.vault, l'.tokens, k);
  }

  lemma BalancedShortfall(v: VaultState, t: TokenState, k: nat)
    requires Balanced(v, t, k)
    ensures AccountOf(v, k).cash.shortfall >= 0
  {
  }

  /** The outcome a redemption is paid under is the market's ending. */
  lemma RedeemedUnder(l: Ledger, call: Call) returns (final: Outcome)
    requires (call.Redemption? || call.Refund?) && ApplyRedeem(l, call).Ok? && RegistrySane(l.reg)
    ensures EndingOf(l.reg, call.market) == Decided(final)
    ensures call.Redemption? ==> final == l.reg.markets[call.market].final
    ensures call.Refund? ==> final == Invalid
  {
    hide OpenClaim, SettleClaim, SettleRefund, Burn;
    final := if call.Redemption? then l.reg.markets[call.market].final else Invalid;
  }

  lemma RedeemBurned(l: Ledger, call: Call, k: nat)
    requires (call.Redemption? || call.Refund?) && ApplyRedeem(l, call).Ok?
    ensures forall o :: Burned(ApplyRedeem(l, call).value.tokens, k, o) ==
              Burned(l.tokens, k, o) + (if Side(k, o) == Side(call.market, call.outcome) then call.amount else 0)
  {
    hide OpenClaim, SettleClaim, SettleRefund;
  }

  lemma CreationSane(l: Ledger, now: nat, creator: Address, terms: Terms, fee: FeeConfig, liquidity: int, k: nat)
    requires CreateMarket(l, now, creator, terms, fee, liquidity).Ok? && RegistrySane(l.reg)
    ensures var reg' := CreateMarket(l, now, creator, terms, fee, liquidity).value.0.reg;
            RegistrySane(reg') && (EndingOf(l.reg, k) == Open || EndingOf(reg', k) == EndingOf(l.reg, k))
  {
    hide Seed, CreatePool, RegisterMarket, EndingOf, RegistrySane;
    var (reg, m) := RegisterMarket(l.reg, now, terms).value;
    var (amm, id) := CreatePool(l.amm, m, fee).value;
    RegisterSane(l.reg, now, terms, k);
    SeedRegistry(l.(reg := reg, amm := amm), now, creator, id, liquidity);
    RegistryEndings(reg, now, Status(m, Live), k);
  }

  lemma RegisterSane(reg: RegistryState, now: nat, terms: Terms, k: nat)
    requires RegisterMarket(reg, now, terms).Ok? && RegistrySane(reg)
    ensures var reg' := RegisterMarket(reg, now, terms).value.0;
            RegistrySane(reg') && EndingOf(reg', k) == EndingOf(reg, k)
  {
  }

  lemma SeedRegistry(l: Ledger, now: nat, lp: Address, id: nat, amount: int)
    requires Seed(l, now, lp, id, amount).Ok?
    ensures Seed(l, now, lp, id, amount).value.reg == l.reg
  {
    hide Deposit, MintCompleteSet;
  }

  /** Trades and positions do not touch the registry. */
  lemma SameRegistry(l: Ledger, now: nat, call: Call)
    requires !call.Creation? && !call.RegistryMove? && Apply(l, now, call).Ok?
    ensures Apply(l, now, call).value.reg.markets == l.reg.markets
    ensures Apply(l, now, call).value.reg.nextId == l.reg.nextId
  {
    hide BuyVault, BuyTokens, SellVault, SellTokens, ForceTokens, CollectFee, LiquidateRelease, LiquidateChildRelease,
         RequireLive, PriceBuy, PriceSell, PriceLiquidation, ApplyVault, ApplyTokens, Deposit, MintCompleteSet,
         PayLpFees, PayPending, RequireSeedable, RequireTradeable, RequireRemovable, SharesFor, Withdrawal, HandOut,
         FeesOwed, RedeemResolved, RedeemCancelled;
  }

  /** Every successful call keeps every market's record in step with its ending. */
  lemma ApplyRecorded(l: Ledger, now: nat, call: Call, k: nat)
    requires Apply(l, now, call).Ok? && RegistrySane(l.reg) && SoundDebts(l.vault) && ValidTokens(l.tokens)
    requires forall m: nat :: Balanced(l.vault, l.tokens, m)
    requires Recorded(l.reg, l.vault, l.tokens, k)
    ensures var l' := Apply(l, now, call).value;
            RegistrySane(l'.reg) && Recorded(l'.reg, l'.vault, l'.tokens, k)
  {
    hide ApplyTrade, ApplyLiquidity, ApplyRedeem, ApplyVault, ApplyTokens, ApplyRegistry, Balanced, SoundDebts,
         ValidTokens, Recorded, SameTrail, TokensKept;
    var l' := Apply(l, now, call).value;
    if call.Redemption? || call.Refund? {
      SameRegistry(l, now, call);
      RedeemRecorded(l, call, k);
      assert l'.reg == l.reg by { RedeemRegistry(l, call); }
    } else {
      ApplyBalanced(l, now, call, k);
      ApplyTokensKept(l, now, call);
      SameTrailRecorded(l.reg, l.vault, l.tokens, l'.vault, l'.tokens, k);
      TokensStayValid(l.tokens, l'.tokens);
      if call.RegistryMove? {
        RegistryEndings(l.reg, now, call.move, k);
      } else if call.Creation? {
        var Creation(creator, terms, fee, liquidity) := call;
        CreationCall(l, now, call);
        CreationSane(l, now, creator, terms, fee, liquidity, k);
      } else {
        SameRegistry(l, now, call);
      }
      EndingRecorded(l.reg, l'.reg, l'.vault, l'.tokens, k);
    }
  }

  lemma CreationCall(l: Ledger, now: nat, call: Call)
    requires call.Creation? && Apply(l, now, call).Ok?
    ensures var r := CreateMarket(l, now, call.creator, call.terms, call.fee, call.liquidity);
            r.Ok? && r.value.0 == Apply(l, now, call).value
  {
    hide CreateMarket;
  }

  lemma TokensStayValid(t: TokenState, t': TokenState)
    requires TokensKept(t, t')
    ensures ValidTokens(t')
  {
    hide ValidTokens;
  }

  lemma RedeemRegistry(l: Ledger, call: Call)
    requires (call.Redemption? || call.Refund?) && ApplyRedeem(l, call).Ok?
    ensures ApplyRedeem(l, call).value.reg == l.reg
  {
    hide RedeemResolved, RedeemCancelled;
  }
}
