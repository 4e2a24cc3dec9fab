// Two runs after which the vault can not pay a claim that its books allow: one for each way in which the cover is lost.
// Credit is drawn from one market into another; both markets are decided by the oracle after they have expired.

module CoverStories {
  import opened Basics
  import opened DikeTypes
  import opened MarketRegistry
  import opened PoolQuotes
  import opened TokenLedger
  import opened VaultLedger
  import opened VaultDebts
  import opened AmmPools
  import opened LedgerCash
  import opened LedgerEffects
  import opened Stage
  import LedgerCover
  import J = JointRuns

  // ---------------------------------------------------------------- who owes

  /** A position that used d of credit in market m, and its user's legs in both markets. */
  predicate Owes(v: VaultState, q: Position, m: nat, d: int) {
    && Used(v, q) == d && ParentDebt(v, q) == d
    && ChildDebt(v, Leg(q.market, q.user)) == 0 && !HasParent(v, Leg(q.market, q.user))
    && ChildDebt(v, Leg(m, q.user)) == d
    && (if d > 0 then LendsTo(v, q, Leg(m, q.user)) else !HasParent(v, Leg(m, q.user)))
  }

  /** Someone without any debt. */
  ghost predicate DebtFree(v: VaultState, c: Address) {
    && (forall q: Position :: q.user == c ==> ParentDebt(v, q) == 0)
    && (forall leg: Leg :: leg.user == c ==> ChildDebt(v, leg) == 0)
  }

  lemma NobodyOwes(v: VaultState, q: Position, m: nat, c: Address)
    requires v.debts == EMPTY_VAULT.debts && v.credit == EMPTY_VAULT.credit
    ensures Owes(v, q, m, 0) && DebtFree(v, c) && Stake(v, q) == 0
  {
  }

  lemma SameOwes(v: VaultState, v': VaultState, q: Position, m: nat, d: int)
    requires Owes(v, q, m, d) && v'.debts == v.debts && v'.credit.lender == v.credit.lender
    ensures Owes(v', q, m, d)
  {
  }

  lemma SameFree(v: VaultState, v': VaultState, c: Address)
    requires DebtFree(v, c) && v'.debts == v.debts
    ensures DebtFree(v', c)
  {
    forall q: Position | q.user == c ensures ParentDebt(v', q) == 0 {
      assert ParentDebt(v, q) == 0;
    }
    forall leg: Leg | leg.user == c ensures ChildDebt(v', leg) == 0 {
      assert ChildDebt(v, leg) == 0;
    }
  }

  lemma DrawnOwes(v: VaultState, v': VaultState, q: Position, m: nat, amount: int)
    requires Owes(v, q, m, 0) && amount > 0 && q.market != m
    requires v'.debts == RecordCredit(v, q, m, amount).debts && v'.credit == RecordCredit(v, q, m, amount).credit
    ensures Owes(v', q, m, amount)
  {
  }

  lemma DrawnOthers(v: VaultState, v': VaultState, q: Position, m: nat, amount: int, p: Position, k: nat, d: int)
    requires Owes(v, p, k, d) && p.user != q.user
    requires v'.debts == RecordCredit(v, q, m, amount).debts && v'.credit == RecordCredit(v, q, m, amount).credit
    ensures Owes(v', p, k, d) && Stake(v', p) == Stake(v, p)
  {
  }

  lemma DrawnFree(v: VaultState, v': VaultState, q: Position, m: nat, amount: int, c: Address)
    requires DebtFree(v, c) && c != q.user
    requires v'.debts == RecordCredit(v, q, m, amount).debts
    ensures DebtFree(v', c)
  {
    forall p: Position | p.user == c ensures ParentDebt(v', p) == 0 {
      assert ParentDebt(v, p) == 0;
    }
    forall leg: Leg | leg.user == c ensures ChildDebt(v', leg) == 0 {
      assert ChildDebt(v, leg) == 0;
    }
  }

  lemma DrawnElsewhere(v: VaultState, v': VaultState, q: Position, m: nat, amount: int, p: Position)
    requires v'.debts == RecordCredit(v, q, m, amount).debts && p != q
    ensures ParentDebt(v', p) == ParentDebt(v, p)
  {
  }

  /** A redemption by someone else. */
  lemma SettledOwes(v: VaultState, v': VaultState, own: Position, gross: int, q: Position, m: nat, d: int)
    requires Owes(v, q, m, d) && Settled(v, v', own, gross) && own.user != q.user
    ensures Owes(v', q, m, d)
  {
    assert ParentDebt(v', q) == ParentDebt(v, q) && Used(v', q) == Used(v, q);
  }

  lemma SettledFree(v: VaultState, v': VaultState, own: Position, gross: int, c: Address)
    requires DebtFree(v, c) && Settled(v, v', own, gross) && (own.user != c || gross >= 0)
    ensures DebtFree(v', c)
  {
    forall p: Position | p.user == c ensures ParentDebt(v', p) == 0 {
      assert ParentDebt(v, p) == 0 && ParentDebt(v, own) == ParentDebt(v, own);
      assert p != own ==> ParentDebt(v', p) == ParentDebt(v, p);
    }
    forall leg: Leg | leg.user == c ensures ChildDebt(v', leg) == 0 {
      assert ChildDebt(v, leg) == 0;
    }
  }

  lemma FreeAt(v: VaultState, c: Address, m: nat, outcome: Outcome)
    requires DebtFree(v, c)
    ensures ParentDebt(v, Position(m, c, outcome)) == 0 && ChildDebt(v, Leg(m, c)) == 0
  {
  }

  // ---------------------------------------------------------------- a claim refused

  /** Market m ended in this outcome; the book allows c to be paid for all of n tokens, and c owes nothing, but the
      vault holds less. */
  ghost predicate Short(l: Ledger, c: Address, m: nat, outcome: Outcome, n: int) {
    && m in l.reg.markets && l.reg.markets[m].hasFinal && l.reg.markets[m].final == outcome
    && n == Balance(l.tokens, c, Side(m, outcome)) && DebtFree(l.vault, c)
    && var cash := AccountOf(l.vault, m).cash;
       0 <= l.vault.purse.balance < n <= cash.refundable == cash.backing - cash.redeemed
       && cash.shortfall == 0 && cash.redeemed >= 0
  }

  lemma ShortRefuses(l: Ledger, c: Address, m: nat, outcome: Outcome, n: int)
    requires Short(l, c, m, outcome, n) && outcome != Invalid
    ensures RedeemResolved(l.vault, l.reg, l.tokens, Position(m, c, outcome), n) == Err(TransferTrapped)
  {
    hide SettleClaim, OpenClaim, CappedPayout;
    var q := Position(m, c, outcome);
    ClaimOpened(l.vault, m, outcome, n);
    var v1 := OpenClaim(l.vault, m, outcome, outcome, n).0;
    SameReads(l.vault, v1, q, m);
    FreeAt(l.vault, c, m, outcome);
    CappedAtClaim(AccountOf(v1, m), n);
    SettleClaimPlainDebts(v1, q, n);
  }

  // ---------------------------------------------------------------- after the provider has left

  /** The provider's tokens that will win. */
  predicate Owns(s: J.Joint, c: Address, first: int, second: int) {
    Balance(s.ledger.tokens, c, Side(1, Yes)) == first && Balance(s.ledger.tokens, c, Side(2, No)) == second
  }

  /** Both markets are live and nothing was asked yet. */
  ghost predicate Standing(s: J.Joint, t1: Terms, k1: int, lent1: int, t2: Terms, k2: int, lent2: int, held: int) {
    && Holding(s.ledger, held) && Asked(s, 1, {}) && Fine(t1) && Fine(t2) && LedgerCover.NothingKept(s.ledger.vault)
    && Book(s.ledger, 1, LiveMarket(t1), Cash(k1, k1, 0, 0), Loans(lent1, 0, 0))
    && Book(s.ledger, 2, LiveMarket(t2), Cash(k2, k2, 0, 0), Loans(lent2, 0, 0))
  }

  lemma LeavesBoth(before: seq<J.Entry>, s: J.Joint, c: Address, b: map<nat, Stall>, held: int, x1: Stall, x2: Stall)
    returns (s': J.Joint)
    requires J.Reaches(before, s) && Scene(s, c, b, held) && 1 in b && 2 in b && b[1] == x1 && b[2] == x2
    requires s.ledger.vault.books.history == map[]
    requires x1.reserves.yes > 0 && x1.reserves.no > 0 && x2.reserves.yes > 0 && x2.reserves.no > 0
    ensures J.Reaches(before + [Leave(c, 2)] + [Leave(c, 1)], s')
    ensures Standing(s', x1.terms, x1.funds, x1.lent, x2.terms, x2.funds, x2.lent, held)
    ensures s'.ledger.vault == s.ledger.vault
    ensures forall owner: Address, x: Side :: owner.Account? ==>
              Balance(s'.ledger.tokens, owner, x) == Balance(s.ledger.tokens, owner, x)
                + (if owner != c then 0
                   else if x.market == 1 then (if x.outcome == Invalid then 0 else x1.reserves.Of(x.outcome))
                   else if x.market == 2 then (if x.outcome == Invalid then 0 else x2.reserves.Of(x.outcome)) else 0)
  {
    hide J.Reaches, Fine;
    assert Open(s.ledger, c, 1, x1) && Open(s.ledger, c, 2, x2);
    var s1 := Leaves(before, s, c, b, held, 2);
    s' := Leaves(before + [Leave(c, 2)], s1, c, b - {2}, held, 1);
  }

  // ---------------------------------------------------------------- a claim kept back

  function First(u: Address): Position {
    Position(1, u, Yes)
  }

  function Second(u: Address): Position {
    Position(1, u, No)
  }

  lemma QuotesOfTheBorrowers()
    ensures QuoteBuy(100, 100, 100) == Ok(150) && QuoteBuy(200, 50, 50) == Ok(150)
    ensures QuoteBuy(100, 100, 60) == Ok(98) && QuoteBuy(62, 160, 30) == Ok(40)
  {
  }

  /** A borrower stakes 100 on YES, another 50 on NO; they draw 60 and 30 into YES of market 2. */
  function BorrowersRun(c: Address, a: Address, f: Address, t1: Terms, t2: Terms): seq<J.Entry> {
    Opening(c, [t1, t2]) + [BuyIn(a, 1, 100, true)] + [BuyIn(f, 1, 50, false)]
    + [Draw(First(a), 2, 60, true)] + [Draw(Second(f), 2, 30, true)]
  }

  /** The provider leaves both markets. Market 2 is decided NO and the provider redeems 190; market 1 is decided YES,
      and the YES borrower redeems 150. */
  function CreditStory(c: Address, a: Address, f: Address, t1: Terms, t2: Terms): seq<J.Entry> {
    BorrowersRun(c, a, f, t1, t2) + [Leave(c, 2)] + [Leave(c, 1)]
    + Decision(c, 2, t2, No, 1) + [Redeem(c, 2, No, 190)] + Decision(c, 1, t1, Yes, 2) + [Redeem(a, 1, Yes, 150)]
  }

  lemma BorrowersStake(c: Address, a: Address, f: Address, t1: Terms, t2: Terms)
    returns (s: J.Joint, b: map<nat, Stall>)
    requires Fine(t1) && Fine(t2) && c.Account? && a.Account? && f.Account? && a != f && c != a && c != f
    ensures J.Reaches(Opening(c, [t1, t2]) + [BuyIn(a, 1, 100, true)] + [BuyIn(f, 1, 50, false)], s)
    ensures Scene(s, c, b, 350) && 1 in b && 2 in b
    ensures b[1] == Stall(t1, Reserves(100, 100), 250, 0) && b[2] == Stall(t2, Reserves(100, 100), 100, 0)
    ensures Owes(s.ledger.vault, First(a), 2, 0) && Stake(s.ledger.vault, First(a)) == 100
    ensures Owes(s.ledger.vault, Second(f), 2, 0) && Stake(s.ledger.vault, Second(f)) == 50
    ensures DebtFree(s.ledger.vault, c)
    ensures Owns(s, c, 0, 0) && Balance(s.ledger.tokens, a, Side(1, Yes)) == 150
    ensures s.ledger.vault.books.history == map[]
  {
    hide J.Reaches, Scene, Owes, DebtFree, QuoteBuy, Fine;
    QuotesOfTheBorrowers();
    TwoStalls(t1, t2);
    var e0 := Opening(c, [t1, t2]);
    var b0 := Board([t1, t2]);
    var s0 := Opens(c, [t1, t2]);
    var v0 := s0.ledger.vault;
    NobodyOwes(v0, First(a), 2, c);
    NobodyOwes(v0, Second(f), 2, c);
    var s1 := Buys(e0, s0, c, b0, 200, a, 1, 100, true, 150);
    var b1 := b0[1 := b0[1].Sold(Yes, 100, 150)];
    s := Buys(e0 + [BuyIn(a, 1, 100, true)], s1, c, b1, 300, f, 1, 50, false, 150);
    b := b1[1 := b1[1].Sold(No, 50, 150)];
    SameOwes(v0, s.ledger.vault, First(a), 2, 0);
    SameOwes(v0, s.ledger.vault, Second(f), 2, 0);
    SameFree(v0, s.ledger.vault, c);
  }

  lemma BorrowersDraw(c: Address, a: Address, f: Address, t1: Terms, t2: Terms) returns (s: J.Joint, b: map<nat, Stall>)
    requires Fine(t1) && Fine(t2) && c.Account? && a.Account? && f.Account? && a != f && c != a && c != f
    ensures J.Reaches(BorrowersRun(c, a, f, t1, t2), s)
    ensures Scene(s, c, b, 350) && 1 in b && 2 in b
    ensures b[1] == Stall(t1, Reserves(100, 100), 160, 90) && b[2] == Stall(t2, Reserves(52, 190), 190, 0)
    ensures Owes(s.ledger.vault, First(a), 2, 60) && DebtFree(s.ledger.vault, c)
    ensures Owns(s, c, 0, 0) && Balance(s.ledger.tokens, a, Side(1, Yes)) == 150
    ensures s.ledger.vault.books.history == map[]
  {
    hide J.Reaches, Scene, Owes, DebtFree, QuoteBuy, Fine, CreditAllowed;
    QuotesOfTheBorrowers();
    var s2, b2 := BorrowersStake(c, a, f, t1, t2);
    var e2 := Opening(c, [t1, t2]) + [BuyIn(a, 1, 100, true)] + [BuyIn(f, 1, 50, false)];
    var v2 := s2.ledger.vault;
    OwesDraws(s2, c, b2, 350, First(a), 2, 100, 60);
    var s3 := Draws(e2, s2, c, b2, 350, First(a), 2, 60, true, 98);
    var b3 := b2[1 := b2[1].Lends(60)][2 := b2[2].Sold(Yes, 60, 98)];
    var v3 := s3.ledger.vault;
    DrawnOwes(v2, v3, First(a), 2, 60);
    DrawnOthers(v2, v3, First(a), 2, 60, Second(f), 2, 0);
    DrawnFree(v2, v3, First(a), 2, 60, c);
    OwesDraws(s3, c, b3, 350, Second(f), 2, 50, 30);
    s := Draws(e2 + [Draw(First(a), 2, 60, true)], s3, c, b3, 350, Second(f), 2, 30, true, 40);
    b := b3[1 := b3[1].Lends(30)][2 := b3[2].Sold(Yes, 30, 40)];
    DrawnOthers(v3, s.ledger.vault, Second(f), 2, 30, First(a), 2, 60);
    DrawnFree(v3, s.ledger.vault, Second(f), 2, 30, c);
  }

  /** Whoever owes nothing yet may draw sixty per cent of the stake. */
  lemma OwesDraws(s: J.Joint, c: Address, b: map<nat, Stall>, held: int, q: Position, m: nat, stake: int, amount: int)
    requires Scene(s, c, b, held) && q.market in b && Owes(s.ledger.vault, q, m, 0) && q.market != m
    requires Stake(s.ledger.vault, q) == stake && 0 < amount <= b[q.market].funds
    requires amount * BPS_DENOMINATOR <= stake * CHILD_COLLATERAL_BPS
    ensures CreditAllowed(s.ledger.vault, s.ledger.reg, q, m, amount).Ok?
  {
    hide CreditAllowed;
    MayDraw(s.ledger, c, b[q.market], q, m, amount);
  }

  /** The borrower's 60 are booked as refundable again without any money coming in. */
  lemma CreditStoryEnds(c: Address, a: Address, f: Address, t1: Terms, t2: Terms) returns (s: J.Joint)
    requires Fine(t1) && Fine(t2) && c.Account? && a.Account? && f.Account? && a != f && c != a && c != f
    ensures J.Reaches(CreditStory(c, a, f, t1, t2), s)
    ensures Short(s.ledger, c, 1, Yes, 100) && s.ledger.vault.purse.balance == 70
    ensures AccountOf(s.ledger.vault, 1).cash.refundable == 130 && HistoryOf(s.ledger.vault, 1).withheld == 60
  {
    hide J.Reaches, Scene, Owes, DebtFree, Fine, Decision, Settled;
    var e0 := BorrowersRun(c, a, f, t1, t2);
    var s0, b := BorrowersDraw(c, a, f, t1, t2);
    var s1 := LeavesBoth(e0, s0, c, b, 350, b[1], b[2]);
    var e1 := e0 + [Leave(c, 2)] + [Leave(c, 1)];
    var s3 := SecondRedeemed(e1, s1, c, t1, 160, 90, t2, 190, 0, 350, 190, First(a), 60);
    var e3 := e1 + Decision(c, 2, t2, No, 1) + [Redeem(c, 2, No, 190)];
    var s4 := Decides(e3, s3, 1, t1, 2, {2}, c, Yes);
    DecidedKept(s3.ledger, s4.ledger, 1, Decided(t1, Yes, 2));
    BookDecided(s3.ledger, s4.ledger, 1, Decided(t1, Yes, 2), 1, LiveMarket(t1), Cash(160, 160, 0, 0), Loans(90, 0, 0));
    SameOwes(s3.ledger.vault, s4.ledger.vault, First(a), 2, 60);
    SameFree(s3.ledger.vault, s4.ledger.vault, c);
    OwesReads(s4.ledger.vault, First(a), 2, 60);
    s := Redeems(e3 + Decision(c, 1, t1, Yes, 2), s4, a, 1, Yes, 150);
    BookSettled(s4.ledger, s.ledger, First(a), 150, 1, Decided(t1, Yes, 2), Cash(160, 160, 0, 0), Loans(90, 0, 0));
    SettledPurse(s4.ledger.vault, s.ledger.vault, First(a), 150);
    SettledHistory(s4.ledger.vault, s.ledger.vault, First(a), 150);
    SettledFree(s4.ledger.vault, s.ledger.vault, First(a), 150, c);
  }

  lemma OwesReads(v: VaultState, q: Position, m: nat, d: int)
    requires Owes(v, q, m, d)
    ensures ParentDebt(v, q) == d && ChildDebt(v, Leg(q.market, q.user)) == 0
    ensures ChildDebt(v, Leg(m, q.user)) == d
    ensures d > 0 ==> HasParent(v, Leg(m, q.user)) && Lender(v, Leg(m, q.user)) == q
  {
  }

  lemma SettledPurse(v: VaultState, v': VaultState, q: Position, gross: int)
    requires Settled(v, v', q, gross)
    ensures v'.purse == v.purse.(balance := v.purse.balance - (gross - Min(gross, ParentDebt(v, q))))
  {
  }

  lemma SettledHistory(v: VaultState, v': VaultState, q: Position, gross: int)
    requires Settled(v, v', q, gross)
    ensures HistoryOf(v', q.market).withheld == HistoryOf(v, q.market).withheld + Min(gross, ParentDebt(v, q))
    ensures LedgerCover.NothingKept(v) && Min(gross, ParentDebt(v, q)) == 0 ==> LedgerCover.NothingKept(v')
  {
  }

  lemma DecidedKept(l: Ledger, l': Ledger, m: nat, market: Market)
    requires OnlyDecided(l, l', m, market) && LedgerCover.NothingKept(l.vault)
    ensures LedgerCover.NothingKept(l'.vault)
  {
    forall k: nat ensures HistoryOf(l'.vault, k).withheld == 0 {
      assert HistoryOf(l.vault, k).withheld == 0;
    }
  }

  /** Market 2 is decided NO and the provider, who owes nothing, redeems n tokens. */
  lemma SecondRedeemed(before: seq<J.Entry>, s: J.Joint, c: Address, t1: Terms, k1: int, lent1: int, t2: Terms, k2: int,
                       lent2: int, held: int, n: int, q: Position, d: int) returns (s': J.Joint)
    requires J.Reaches(before, s) && Standing(s, t1, k1, lent1, t2, k2, lent2, held) && c.Account? && c != q.user
    requires DebtFree(s.ledger.vault, c) && Owes(s.ledger.vault, q, 2, d)
    requires 0 < n == Balance(s.ledger.tokens, c, Side(2, No)) && n <= k2 && n <= held
    ensures J.Reaches(before + Decision(c, 2, t2, No, 1) + [Redeem(c, 2, No, n)], s')
    ensures Holding(s'.ledger, held - n) && Asked(s', 2, {2})
    ensures Book(s'.ledger, 1, LiveMarket(t1), Cash(k1, k1, 0, 0), Loans(lent1, 0, 0))
    ensures DebtFree(s'.ledger.vault, c) && Owes(s'.ledger.vault, q, 2, d) && LedgerCover.NothingKept(s'.ledger.vault)
    ensures forall owner: Address, x: Side :: owner.Account? && x.market == 1 ==>
              Balance(s'.ledger.tokens, owner, x) == Balance(s.ledger.tokens, owner, x)
  {
    hide J.Reaches, Owes, DebtFree, Fine, Decision, Settled, LedgerCover.NothingKept;
    var s1 := Decides(before, s, 2, t2, 1, {}, c, No);
    DecidedKept(s.ledger, s1.ledger, 2, Decided(t2, No, 1));
    BookDecided(s.ledger, s1.ledger, 2, Decided(t2, No, 1), 1, LiveMarket(t1), Cash(k1, k1, 0, 0), Loans(lent1, 0, 0));
    BookDecided(s.ledger, s1.ledger, 2, Decided(t2, No, 1), 2, LiveMarket(t2), Cash(k2, k2, 0, 0), Loans(lent2, 0, 0));
    SameOwes(s.ledger.vault, s1.ledger.vault, q, 2, d);
    SameFree(s.ledger.vault, s1.ledger.vault, c);
    var own := Position(2, c, No);
    FreeAt(s1.ledger.vault, c, 2, No);
    s' := Redeems(before + Decision(c, 2, t2, No, 1), s1, c, 2, No, n);
    BookSettled(s1.ledger, s'.ledger, own, n, 1, LiveMarket(t1), Cash(k1, k1, 0, 0), Loans(lent1, 0, 0));
    SettledPurse(s1.ledger.vault, s'.ledger.vault, own, n);
    SettledHistory(s1.ledger.vault, s'.ledger.vault, own, n);
    SettledFree(s1.ledger.vault, s'.ledger.vault, own, n, c);
    SettledOwes(s1.ledger.vault, s'.ledger.vault, own, n, q, 2, d);
  }

  /** The documented claim that the vault's collateral covers every redeemable claim fails in a run that the contracts
      accept, once part of a claim was kept back: the book of market 1 allows 130 more and knows no shortfall, a holder
      of 100 winning tokens without any debt claims 100, and the vault, which holds 70, refuses. */
  lemma CreditBreaksFullCover(c: Address, a: Address, f: Address, t1: Terms, t2: Terms)
    requires Fine(t1) && Fine(t2) && c.Account? && a.Account? && f.Account? && a != f && c != a && c != f
    ensures J.Accepted(J.BIRTH, CreditStory(c, a, f, t1, t2))
    ensures var l := J.Run(J.BIRTH, CreditStory(c, a, f, t1, t2)).ledger;
            && Short(l, c, 1, Yes, 100) && l.vault.purse.balance == 70
            && AccountOf(l.vault, 1).cash.refundable == 130 && HistoryOf(l.vault, 1).withheld == 60
            && RedeemResolved(l.vault, l.reg, l.tokens, Position(1, c, Yes), 100) == Err(TransferTrapped)
  {
    hide J.Run, J.Accepted, Short, CreditStory, RedeemResolved;
    var s := CreditStoryEnds(c, a, f, t1, t2);
    ShortRefuses(s.ledger, c, 1, Yes, 100);
  }

  // ---------------------------------------------------------------- a market overdrawn

  lemma QuotesOfTheOverdraft()
    ensures QuoteBuy(100, 100, 100) == Ok(150) && QuoteBuy(200, 50, 60) == Ok(170)
    ensures QuoteBuy(200, 50, 100) == Ok(234) && QuoteBuy(66, 150, 60) == Ok(79)
  {
  }

  /** One borrower stakes 100 on YES of market 1, another 100 on NO of market 2. The second draws 60 into market 1; then
      someone buys YES of market 2 for 100, and the first borrower draws 60 into it. */
  function CrossRun(c: Address, a: Address, b: Address, w: Address, t1: Terms, t2: Terms): seq<J.Entry> {
    Opening(c, [t1, t2]) + [BuyIn(a, 1, 100, true)] + [BuyIn(b, 2, 100, false)]
    + [Draw(Third(b), 1, 60, false)] + [BuyIn(w, 2, 100, true)] + [Draw(First(a), 2, 60, true)]
  }

  function Third(u: Address): Position {
    Position(2, u, No)
  }

  /** The provider leaves both markets. Market 2 is decided YES; the provider, the buyer and the first borrower redeem
      all its YES tokens, the borrower last. Market 1 is decided YES, and the borrower redeems there too. */
  function OverdraftStory(c: Address, a: Address, b: Address, w: Address, t1: Terms, t2: Terms): seq<J.Entry> {
    CrossRun(c, a, b, w, t1, t2) + [Leave(c, 2)] + [Leave(c, 1)]
    + Decision(c, 2, t2, Yes, 1) + [Redeem(c, 2, Yes, 47)] + [Redeem(w, 2, Yes, 234)] + [Redeem(a, 2, Yes, 79)]
    + Decision(c, 1, t1, Yes, 2) + [Redeem(a, 1, Yes, 150)]
  }

  predicate Apart(c: Address, a: Address, b: Address, w: Address) {
    && c.Account? && a.Account? && b.Account? && w.Account?
    && c != a && c != b && c != w && a != b && a != w && b != w
  }

  lemma CrossStakes(c: Address, a: Address, b: Address, w: Address, t1: Terms, t2: Terms)
    returns (s: J.Joint, x: map<nat, Stall>)
    requires Fine(t1) && Fine(t2) && Apart(c, a, b, w)
    ensures J.Reaches(Opening(c, [t1, t2]) + [BuyIn(a, 1, 100, true)] + [BuyIn(b, 2, 100, false)], s)
    ensures Scene(s, c, x, 400) && 1 in x && 2 in x && s.ledger.vault.books.history == map[]
    ensures x[1] == Stall(t1, Reserves(50, 200), 200, 0) && x[2] == Stall(t2, Reserves(200, 50), 200, 0)
    ensures Owes(s.ledger.vault, First(a), 2, 0) && Stake(s.ledger.vault, First(a)) == 100
    ensures Owes(s.ledger.vault, Third(b), 1, 0) && Stake(s.ledger.vault, Third(b)) == 100
    ensures DebtFree(s.ledger.vault, c) && DebtFree(s.ledger.vault, w)
    ensures Winners(s, c, a, w, 0, 0, 150, 0, 0) && ParentDebt(s.ledger.vault, Position(2, a, Yes)) == 0
  {
    hide J.Reaches, Scene, Owes, DebtFree, QuoteBuy, Fine;
    QuotesOfTheOverdraft();
    TwoStalls(t1, t2);
    var e0 := Opening(c, [t1, t2]);
    var x0 := Board([t1, t2]);
    var s0 := Opens(c, [t1, t2]);
    var v0 := s0.ledger.vault;
    NobodyOwes(v0, First(a), 2, c);
    NobodyOwes(v0, Third(b), 1, w);
    var s1 := Buys(e0, s0, c, x0, 200, a, 1, 100, true, 150);
    var x1 := x0[1 := x0[1].Sold(Yes, 100, 150)];
    s := Buys(e0 + [BuyIn(a, 1, 100, true)], s1, c, x1, 300, b, 2, 100, false, 150);
    x := x1[2 := x1[2].Sold(No, 100, 150)];
    SameOwes(v0, s.ledger.vault, First(a), 2, 0);
    SameOwes(v0, s.ledger.vault, Third(b), 1, 0);
    SameFree(v0, s.ledger.vault, c);
    SameFree(v0, s.ledger.vault, w);
  }

  /** The YES tokens that will win: the provider's in both markets, the first borrower's in both, the buyer's. */
  predicate Winners(s: J.Joint, c: Address, a: Address, w: Address, c1: int, c2: int, a1: int, a2: int, w2: int) {
    var t := s.ledger.tokens;
    && Balance(t, c, Side(1, Yes)) == c1 && Balance(t, c, Side(2, Yes)) == c2
    && Balance(t, a, Side(1, Yes)) == a1 && Balance(t, a, Side(2, Yes)) == a2
    && Balance(t, w, Side(2, Yes)) == w2
  }

  lemma CrossDraws(c: Address, a: Address, b: Address, w: Address, t1: Terms, t2: Terms)
    returns (s: J.Joint, x: map<nat, Stall>)
    requires Fine(t1) && Fine(t2) && Apart(c, a, b, w)
    ensures J.Reaches(CrossRun(c, a, b, w, t1, t2), s)
    ensures Scene(s, c, x, 500) && 1 in x && 2 in x && s.ledger.vault.books.history == map[]
    ensures x[1] == Stall(t1, Reserves(110, 90), 200, 60) && x[2] == Stall(t2, Reserves(47, 210), 300, 60)
    ensures Owes(s.ledger.vault, First(a), 2, 60) && DebtFree(s.ledger.vault, c) && DebtFree(s.ledger.vault, w)
    ensures Winners(s, c, a, w, 0, 0, 150, 79, 234) && ParentDebt(s.ledger.vault, Position(2, a, Yes)) == 0
  {
    hide J.Reaches, Scene, Owes, DebtFree, QuoteBuy, Fine, CreditAllowed;
    QuotesOfTheOverdraft();
    var s2, x2 := CrossStakes(c, a, b, w, t1, t2);
    var e2 := Opening(c, [t1, t2]) + [BuyIn(a, 1, 100, true)] + [BuyIn(b, 2, 100, false)];
    var v2 := s2.ledger.vault;
    OwesDraws(s2, c, x2, 400, Third(b), 1, 100, 60);
    var s3 := Draws(e2, s2, c, x2, 400, Third(b), 1, 60, false, 170);
    var x3 := x2[2 := x2[2].Lends(60)][1 := x2[1].Sold(No, 60, 170)];
    var v3 := s3.ledger.vault;
    DrawnOthers(v2, v3, Third(b), 1, 60, First(a), 2, 0);
    DrawnElsewhere(v2, v3, Third(b), 1, 60, Position(2, a, Yes));
    DrawnFree(v2, v3, Third(b), 1, 60, c);
    DrawnFree(v2, v3, Third(b), 1, 60, w);
    var e3 := e2 + [Draw(Third(b), 1, 60, false)];
    var s4 := Buys(e3, s3, c, x3, 400, w, 2, 100, true, 234);
    var x4 := x3[2 := x3[2].Sold(Yes, 100, 234)];
    var v4 := s4.ledger.vault;
    SameOwes(v3, v4, First(a), 2, 0);
    SameFree(v3, v4, c);
    SameFree(v3, v4, w);
    OwesDraws(s4, c, x4, 500, First(a), 2, 100, 60);
    s := Draws(e3 + [BuyIn(w, 2, 100, true)], s4, c, x4, 500, First(a), 2, 60, true, 79);
    x := x4[1 := x4[1].Lends(60)][2 := x4[2].Sold(Yes, 60, 79)];
    DrawnOwes(v4, s.ledger.vault, First(a), 2, 60);
    DrawnElsewhere(v4, s.ledger.vault, First(a), 2, 60, Position(2, a, Yes));
    DrawnFree(v4, s.ledger.vault, First(a), 2, 60, c);
    DrawnFree(v4, s.ledger.vault, First(a), 2, 60, w);
  }

  /** A user without debts redeems in market 2 while market 1 still trades. */
  lemma FreeRedeems(before: seq<J.Entry>, s: J.Joint, u: Address, n: int, t1: Terms, t2: Terms, k: int, left: int,
                    held: int, a: Address, c: Address) returns (s': J.Joint)
    requires J.Reaches(before, s) && u.Account? && DebtFree(s.ledger.vault, u) && u != a
    requires Holding(s.ledger, held) && Asked(s, 2, {2}) && LedgerCover.NothingKept(s.ledger.vault)
    requires Book(s.ledger, 1, LiveMarket(t1), Cash(200, 200, 0, 0), Loans(60, 0, 0))
    requires Book(s.ledger, 2, Decided(t2, Yes, 1), Cash(k, left, k - left, 0), Loans(60, 0, 0)) && left <= k
    requires DebtFree(s.ledger.vault, c) && Owes(s.ledger.vault, First(a), 2, 60)
    requires 0 < n == Balance(s.ledger.tokens, u, Side(2, Yes)) && n <= left <= held
    ensures J.Reaches(before + [Redeem(u, 2, Yes, n)], s')
    ensures Holding(s'.ledger, held - n) && Asked(s', 2, {2}) && LedgerCover.NothingKept(s'.ledger.vault)
    ensures Book(s'.ledger, 1, LiveMarket(t1), Cash(200, 200, 0, 0), Loans(60, 0, 0))
    ensures Book(s'.ledger, 2, Decided(t2, Yes, 1), Cash(k, left - n, k - left + n, 0), Loans(60, 0, 0))
    ensures DebtFree(s'.ledger.vault, c) && Owes(s'.ledger.vault, First(a), 2, 60)
    ensures Gains(s.ledger.tokens, s'.ledger.tokens, u, Side(2, Yes), -n)
    ensures s'.ledger.vault.credit.lender == s.ledger.vault.credit.lender
    ensures forall p: Position :: p.user != u ==> ParentDebt(s'.ledger.vault, p) == ParentDebt(s.ledger.vault, p)
    ensures forall w :: DebtFree(s.ledger.vault, w) ==> DebtFree(s'.ledger.vault, w)
  {
    hide J.Reaches, Owes, DebtFree, Settled, Gains, LedgerCover.NothingKept;
    var own := Position(2, u, Yes);
    FreeAt(s.ledger.vault, u, 2, Yes);
    s' := Redeems(before, s, u, 2, Yes, n);
    BookSettled(s.ledger, s'.ledger, own, n, 1, LiveMarket(t1), Cash(200, 200, 0, 0), Loans(60, 0, 0));
    BookSettled(s.ledger, s'.ledger, own, n, 2, Decided(t2, Yes, 1), Cash(k, left, k - left, 0), Loans(60, 0, 0));
    SettledPurse(s.ledger.vault, s'.ledger.vault, own, n);
    SettledHistory(s.ledger.vault, s'.ledger.vault, own, n);
    forall w | DebtFree(s.ledger.vault, w) ensures DebtFree(s'.ledger.vault, w) {
      SettledFree(s.ledger.vault, s'.ledger.vault, own, n, w);
    }
    SettledOwes(s.ledger.vault, s'.ledger.vault, own, n, First(a), 2, 60);
    SettledLinks(s.ledger.vault, s'.ledger.vault, own, n);
  }

  lemma SettledLinks(v: VaultState, v': VaultState, q: Position, gross: int)
    requires Settled(v, v', q, gross)
    ensures v'.credit.lender == v.credit.lender
    ensures forall p :: p != q ==> ParentDebt(v', p) == ParentDebt(v, p)
  {
  }

  /** Market 2 pays its provider and the buyer in full, 19 are left, and the borrower's 60 still go upstream. */
  lemma SecondOverdrawn(before: seq<J.Entry>, s: J.Joint, c: Address, a: Address, b: Address, w: Address,
                        t1: Terms, t2: Terms) returns (s': J.Joint)
    requires J.Reaches(before, s) && Standing(s, t1, 200, 60, t2, 300, 60, 500) && Apart(c, a, b, w)
    requires DebtFree(s.ledger.vault, c) && DebtFree(s.ledger.vault, w) && Owes(s.ledger.vault, First(a), 2, 60)
    requires ParentDebt(s.ledger.vault, Position(2, a, Yes)) == 0
    requires Winners(s, c, a, w, 110, 47, 150, 79, 234)
    ensures J.Reaches(before + Decision(c, 2, t2, Yes, 1) + [Redeem(c, 2, Yes, 47)] + [Redeem(w, 2, Yes, 234)]
                      + [Redeem(a, 2, Yes, 79)], s')
    ensures Holding(s'.ledger, 219) && Asked(s', 2, {2}) && LedgerCover.NothingKept(s'.ledger.vault)
    ensures Book(s'.ledger, 1, LiveMarket(t1), Cash(260, 260, 0, 0), Loans(60, 60, 0))
    ensures Book(s'.ledger, 2, Decided(t2, Yes, 1), Cash(240, -41, 281, 0), Loans(60, 0, 0))
    ensures DebtFree(s'.ledger.vault, c)
    ensures ParentDebt(s'.ledger.vault, First(a)) == 0 && ChildDebt(s'.ledger.vault, Leg(1, a)) == 0
    ensures Winners(s', c, a, w, 110, 0, 150, 0, 0)
  {
    hide J.Reaches, Owes, DebtFree, Fine, Decision, PaidUp, Gains, LedgerCover.NothingKept;
    var s1 := Decides(before, s, 2, t2, 1, {}, c, Yes);
    BookDecided(s.ledger, s1.ledger, 2, Decided(t2, Yes, 1), 1, LiveMarket(t1), Cash(200, 200, 0, 0), Loans(60, 0, 0));
    BookDecided(s.ledger, s1.ledger, 2, Decided(t2, Yes, 1), 2, LiveMarket(t2), Cash(300, 300, 0, 0), Loans(60, 0, 0));
    DecidedKept(s.ledger, s1.ledger, 2, Decided(t2, Yes, 1));
    SameOwes(s.ledger.vault, s1.ledger.vault, First(a), 2, 60);
    SameFree(s.ledger.vault, s1.ledger.vault, c);
    SameFree(s.ledger.vault, s1.ledger.vault, w);
    var e1 := before + Decision(c, 2, t2, Yes, 1);
    var s2 := FreeRedeems(e1, s1, c, 47, t1, t2, 300, 300, 500, a, c);
    FirstWinners(s1, s2, c, a, w);
    var e2 := e1 + [Redeem(c, 2, Yes, 47)];
    var s3 := FreeRedeems(e2, s2, w, 234, t1, t2, 300, 253, 453, a, c);
    OwesReads(s3.ledger.vault, First(a), 2, 60);
    NextWinners(s2, s3, c, a, w);
    s' := RedeemsUpstream(e2 + [Redeem(w, 2, Yes, 234)], s3, Position(2, a, Yes), First(a), 60, 79);
    BookPaidUp(s3.ledger, s'.ledger, Position(2, a, Yes), First(a), 60, 79, 1, LiveMarket(t1),
               Cash(200, 200, 0, 0), Loans(60, 0, 0));
    BookPaidUp(s3.ledger, s'.ledger, Position(2, a, Yes), First(a), 60, 79, 2, Decided(t2, Yes, 1),
               Cash(300, 19, 281, 0), Loans(60, 0, 0));
    PaidUpRest(s3.ledger.vault, s'.ledger.vault, Position(2, a, Yes), First(a), 60, 79, c);
    LastWinners(s3, s', c, a, w);
  }

  lemma FirstWinners(s: J.Joint, s': J.Joint, c: Address, a: Address, w: Address)
    requires Winners(s, c, a, w, 110, 47, 150, 79, 234) && c.Account? && a.Account? && w.Account? && c != a && c != w
    requires Gains(s.ledger.tokens, s'.ledger.tokens, c, Side(2, Yes), -47)
    ensures Winners(s', c, a, w, 110, 0, 150, 79, 234)
  {
  }

  lemma NextWinners(s: J.Joint, s': J.Joint, c: Address, a: Address, w: Address)
    requires Winners(s, c, a, w, 110, 0, 150, 79, 234) && c.Account? && a.Account? && w.Account? && c != w && a != w
    requires Gains(s.ledger.tokens, s'.ledger.tokens, w, Side(2, Yes), -234)
    ensures Winners(s', c, a, w, 110, 0, 150, 79, 0)
  {
  }

  lemma LastWinners(s: J.Joint, s': J.Joint, c: Address, a: Address, w: Address)
    requires Winners(s, c, a, w, 110, 0, 150, 79, 0) && c.Account? && a.Account? && w.Account? && c != a && a != w
    requires Gains(s.ledger.tokens, s'.ledger.tokens, a, Side(2, Yes), -79)
    ensures Winners(s', c, a, w, 110, 0, 150, 0, 0)
  {
  }

  lemma PaidUpRest(v: VaultState, v': VaultState, own: Position, q: Position, d: int, gross: int, c: Address)
    requires PaidUp(v, v', own, q, d, gross) && own.user == q.user != c && DebtFree(v, c)
    requires ParentDebt(v, q) == d && ChildDebt(v, Leg(q.market, q.user)) == 0 && q.market != own.market
    ensures DebtFree(v', c) && v'.purse == v.purse && v'.escrow == v.escrow
    ensures ParentDebt(v', q) == 0 && ChildDebt(v', Leg(q.market, q.user)) == 0
    ensures LedgerCover.NothingKept(v) ==> LedgerCover.NothingKept(v')
  {
    forall p: Position | p.user == c ensures ParentDebt(v', p) == 0 {
      assert ParentDebt(v, p) == 0;
    }
    forall leg: Leg | leg.user == c ensures ChildDebt(v', leg) == 0 {
      assert ChildDebt(v, leg) == 0;
    }
  }

  /** Market 2 paid 41 more than it had, out of the money of market 1. */
  lemma OverdraftStoryEnds(c: Address, a: Address, b: Address, w: Address, t1: Terms, t2: Terms) returns (s: J.Joint)
    requires Fine(t1) && Fine(t2) && Apart(c, a, b, w)
    ensures J.Reaches(OverdraftStory(c, a, b, w, t1, t2), s)
    ensures Short(s.ledger, c, 1, Yes, 110) && s.ledger.vault.purse.balance == 69
    ensures AccountOf(s.ledger.vault, 2).cash.refundable == -41 && LedgerCover.NothingKept(s.ledger.vault)
  {
    hide J.Reaches, Scene, Owes, DebtFree, Fine, Decision, Settled, LedgerCover.NothingKept;
    var e0 := CrossRun(c, a, b, w, t1, t2);
    var s0, x := CrossDraws(c, a, b, w, t1, t2);
    var s1 := LeavesBoth(e0, s0, c, x, 500, x[1], x[2]);
    var e1 := e0 + [Leave(c, 2)] + [Leave(c, 1)];
    var s2 := SecondOverdrawn(e1, s1, c, a, b, w, t1, t2);
    var e2 := e1 + Decision(c, 2, t2, Yes, 1) + [Redeem(c, 2, Yes, 47)] + [Redeem(w, 2, Yes, 234)]
              + [Redeem(a, 2, Yes, 79)];
    var s3 := Decides(e2, s2, 1, t1, 2, {2}, c, Yes);
    DecidedKept(s2.ledger, s3.ledger, 1, Decided(t1, Yes, 2));
    BookDecided(s2.ledger, s3.ledger, 1, Decided(t1, Yes, 2), 1, LiveMarket(t1), Cash(260, 260, 0, 0),
                Loans(60, 60, 0));
    BookDecided(s2.ledger, s3.ledger, 1, Decided(t1, Yes, 2), 2, Decided(t2, Yes, 1), Cash(240, -41, 281, 0),
                Loans(60, 0, 0));
    SameFree(s2.ledger.vault, s3.ledger.vault, c);
    s := Redeems(e2 + Decision(c, 1, t1, Yes, 2), s3, a, 1, Yes, 150);
    BookSettled(s3.ledger, s.ledger, First(a), 150, 1, Decided(t1, Yes, 2), Cash(260, 260, 0, 0), Loans(60, 60, 0));
    BookSettled(s3.ledger, s.ledger, First(a), 150, 2, Decided(t2, Yes, 1), Cash(240, -41, 281, 0), Loans(60, 0, 0));
    SettledPurse(s3.ledger.vault, s.ledger.vault, First(a), 150);
    SettledHistory(s3.ledger.vault, s.ledger.vault, First(a), 150);
    SettledFree(s3.ledger.vault, s.ledger.vault, First(a), 150, c);
  }

  /** The same promise fails without anything kept back: a market that paid its own winners sends a borrower's debt
      upstream that it has no money for, so its refundable money is negative, and the vault, which holds 69, refuses a
      claim of 110 that the book of the other market allows. */
  lemma OverdraftBreaksFullCover(c: Address, a: Address, b: Address, w: Address, t1: Terms, t2: Terms)
    requires Fine(t1) && Fine(t2) && Apart(c, a, b, w)
    ensures J.Accepted(J.BIRTH, OverdraftStory(c, a, b, w, t1, t2))
    ensures var l := J.Run(J.BIRTH, OverdraftStory(c, a, b, w, t1, t2)).ledger;
            && Short(l, c, 1, Yes, 110) && l.vault.purse.balance == 69
            && AccountOf(l.vault, 2).cash.refundable == -41 && LedgerCover.NothingKept(l.vault)
            && RedeemResolved(l.vault, l.reg, l.tokens, Position(1, c, Yes), 110) == Err(TransferTrapped)
  {
    hide J.Run, J.Accepted, Short, OverdraftStory, RedeemResolved, LedgerCover.NothingKept;
    var s := OverdraftStoryEnds(c, a, b, w, t1, t2);
    ShortRefuses(s.ledger, c, 1, Yes, 110);
  }
}
