// What single calls do in a market without fees, as plain equations between the ledger before and after. The runs
// on the Stage are put together from these.

module LedgerEffects {
  import opened Basics
  import opened DikeTypes
  import opened DikeMath
  import opened MarketRegistry
  import opened PoolQuotes
  import opened TokenLedger
  import opened VaultLedger
  import opened VaultDebts
  import opened AmmPools
  import opened LpLaws
  import opened LedgerCalls
  import opened LedgerPools
  import opened LedgerLaws

  /** No trading fee. */
  const FREE := FeeConfig(0, 10_000, 0, 0)

  /** Terms the registry accepts at the beginning of time. */
  predicate Fine(terms: Terms) {
    terms.rulesUri != "" && terms.bondAmount > 0 && terms.disputeWindow > 0 && terms.expiry > 0
  }

  /** A market and its pool are open and take no fee. */
  predicate Trading(l: Ledger, now: nat, m: nat, reserves: Reserves) {
    && !l.reg.paused && !l.amm.paused && !l.vault.purse.paused
    && m in l.reg.markets && l.reg.markets[m].status == Live && !l.reg.markets[m].hasFinal
    && now < l.reg.markets[m].terms.expiry
    && m in l.amm.pools && l.amm.pools[m].market == m && l.amm.pools[m].reserves == reserves
    && l.amm.pools[m].live && l.amm.pools[m].fee == FREE
    && AccountOf(l.vault, m).cash.backing >= 0 && AccountOf(l.vault, m).cash.refundable >= 0
  }

  lemma NoFee(amount: int)
    ensures SplitFee(amount, 0) == (0, amount)
  {
    assert amount * 0 == 0;
  }

  lemma NoParts(config: FeeConfig)
    ensures SplitTradingFee(0, config) == FeeSplit(0, 0, 0)
  {
    assert 0 * config.lpShareBps == 0 && 0 * config.treasuryShareBps == 0;
  }

  lemma NothingCollected(v: VaultState, m: nat)
    requires m in v.books.accounts && AccountOf(v, m).cash.backing >= 0 && AccountOf(v, m).cash.refundable >= 0
    ensures CollectFee(v, m, 0, 0, 0) == Ok(v)
  {
    var a := AccountOf(v, m);
    assert a.TakeFees(0, 0, 0) == a;
    assert v.books.accounts[m := a] == v.books.accounts;
  }

  // ---------------------------------------------------------------- buying

  /** The cash side of a purchase. */
  function Bought(v: VaultState, q: Position, amount: int): VaultState {
    SetStake(SetAccount(Receive(v, amount), q.market, AccountOf(v, q.market).Fund(amount)), q, Stake(v, q) + amount)
  }

  lemma FreePrice(pool: Pool, amount: int, outcome: Outcome)
    requires pool.fee.tradingFeeBps == 0
    requires QuoteBuy(pool.reserves.Of(outcome), pool.reserves.Of(Opposite(outcome)), amount).Ok?
    ensures PriceBuy(pool, amount, outcome) ==
            Ok(Trade(outcome, amount,
                     QuoteBuy(pool.reserves.Of(outcome), pool.reserves.Of(Opposite(outcome)), amount).value, 0))
  {
    hide QuoteBuy, SplitFee;
    NoFee(amount);
  }

  /** The pool can always hand over what it sold. */
  lemma PoolDelivers(l: Ledger, now: nat, v: VaultState, trader: Address, m: nat, reserves: Reserves, outcome: Outcome,
                     amount: int)
    requires Lawful(l) && Trading(l, now, m, reserves) && outcome != Invalid && amount > 0 && trader.Account?
    requires QuoteBuy(reserves.Of(outcome), reserves.Of(Opposite(outcome)), amount).Ok?
    requires ChildDebt(v, Leg(m, AmmContract)) == 0 && ParentDebt(v, Position(m, AmmContract, outcome)) == 0
    ensures var out := QuoteBuy(reserves.Of(outcome), reserves.Of(Opposite(outcome)), amount).value;
            var r := BuyTokens(v, l.tokens, trader, m, Trade(outcome, amount, out, 0));
            r.Ok? && Gains(l.tokens, r.value, trader, Side(m, outcome), out)
  {
    hide Lawful, QuoteBuy, MintCompleteSet, MovePosition, Gains;
    var out := QuoteBuy(reserves.Of(outcome), reserves.Of(Opposite(outcome)), amount).value;
    Quoted(reserves.Of(outcome), reserves.Of(Opposite(outcome)), amount);
    PoolHolds(l, m);
    MintedMoves(l.tokens, trader, Side(m, outcome), amount, out);
  }

  lemma MintedMoves(t: TokenState, trader: Address, s: Side, amount: int, out: int)
    requires trader.Account? && s.outcome != Invalid && amount > 0
    requires 0 < out <= Balance(t, AmmContract, s) + amount
    ensures MintCompleteSet(t, AmmContract, s.market, amount).Ok?
    ensures var r := MovePosition(MintCompleteSet(t, AmmContract, s.market, amount).value, AmmContract, trader, s, out);
            r.Ok? && Gains(t, r.value, trader, s, out)
  {
    MintExactly(t, AmmContract, s.market, amount, AmmContract, s);
    MintPositiveOk(t, s.market, amount);
    var t1 := MintCompleteSet(t, AmmContract, s.market, amount).value;
    hide MintCompleteSet;
    MoveExactly(t1, AmmContract, trader, s, out);
    forall owner: Address, x: Side | owner.Account?
      ensures Balance(MovePosition(t1, AmmContract, trader, s, out).value, owner, x) ==
              Balance(t, owner, x) + (if owner == trader && x == s then out else 0)
    {
      assert Gains(t, t1, trader, s, 0);
    }
  }

  lemma Quoted(own: int, other: int, amount: int)
    requires QuoteBuy(own, other, amount).Ok?
    ensures amount < QuoteBuy(own, other, amount).value <= own + amount
  {
    BuyAgainstProduct(own, other, amount);
  }

  lemma PoolHolds(l: Ledger, m: nat)
    requires Lawful(l) && m in l.amm.pools
    ensures l.amm.pools[m].reserves.yes <= Balance(l.tokens, AmmContract, Side(m, Yes))
    ensures l.amm.pools[m].reserves.no <= Balance(l.tokens, AmmContract, Side(m, No))
  {
    hide ValidBook, FeesCovered;
    assert PoolSoundIn(l, m);
  }

  lemma AmmOwesNothing(l: Ledger, m: nat, outcome: Outcome)
    requires Lawful(l)
    ensures ChildDebt(l.vault, Leg(m, AmmContract)) == 0
    ensures ParentDebt(l.vault, Position(m, AmmContract, outcome)) == 0
  {
    ContractsOweNothing(l.vault, Position(m, AmmContract, outcome), Leg(m, AmmContract));
  }

  /** The tokens of every user after one of them got n of one side. */
  ghost predicate Gains(t: TokenState, t': TokenState, who: Address, side: Side, n: int) {
    forall owner: Address, s: Side :: owner.Account? ==>
      Balance(t', owner, s) == Balance(t, owner, s) + (if owner == who && s == side then n else 0)
  }

  /** The ledger after a purchase. */
  ghost predicate AfterPurchase(l: Ledger, l': Ledger, v: VaultState, trader: Address, m: nat, outcome: Outcome,
                                amount: int, out: int) {
    && l'.reg == l.reg && l'.vault == v
    && Gains(l.tokens, l'.tokens, trader, Side(m, outcome), out)
    && m in l.amm.pools
    && l'.amm == SetPool(l.amm, m, l.amm.pools[m].(
         reserves := l.amm.pools[m].reserves.Move(outcome, amount - out, amount)))
  }

  lemma CashPurchase(l: Ledger, now: nat, trader: Address, m: nat, reserves: Reserves, amount: int, yes: bool)
    requires Lawful(l) && Trading(l, now, m, reserves) && trader.Account? && amount > 0
    requires QuoteBuy(reserves.Of(SideOf(yes)), reserves.Of(Opposite(SideOf(yes))), amount).Ok?
    ensures var r := Apply(l, now, Purchase(trader, m, amount, 0, now, yes, NoParent));
            var out := QuoteBuy(reserves.Of(SideOf(yes)), reserves.Of(Opposite(SideOf(yes))), amount).value;
            r.Ok? && AfterPurchase(l, r.value, Bought(l.vault, Position(m, trader, SideOf(yes)), amount),
                                   trader, m, SideOf(yes), amount, out)
  {
    hide Lawful, QuoteBuy, BuyTokens, PriceBuy, SplitTradingFee, CollectFee;
    var pool, outcome := l.amm.pools[m], SideOf(yes);
    var out := QuoteBuy(reserves.Of(outcome), reserves.Of(Opposite(outcome)), amount).value;
    var trade := Trade(outcome, amount, out, 0);
    FreePrice(pool, amount, outcome);
    Quoted(reserves.Of(outcome), reserves.Of(Opposite(outcome)), amount);
    NoParts(pool.fee);
    var q := Position(m, trader, outcome);
    var v := Bought(l.vault, q, amount);
    assert PayIn(l.vault, l.reg, trader, m, NoParent, trade) == Ok(v);
    NothingCollected(v, m);
    AmmOwesNothing(l, m, outcome);
    PoolDelivers(l, now, v, trader, m, reserves, outcome, amount);
    assert AfterBuy(pool, trade, FeeSplit(0, 0, 0)) == pool.(reserves := reserves.Move(outcome, amount - out, amount));
  }

  /** The vault after a draw. */
  function Drawn(v: VaultState, q: Position, c: nat, amount: int): VaultState {
    MoveBacking(RecordCredit(v, q, c, amount), q.market, c, amount)
  }

  lemma CreditPurchase(l: Ledger, now: nat, q: Position, m: nat, reserves: Reserves, amount: int, yes: bool)
    requires Lawful(l) && Trading(l, now, m, reserves) && q.user.Account? && amount > 0
    requires QuoteBuy(reserves.Of(SideOf(yes)), reserves.Of(Opposite(SideOf(yes))), amount).Ok?
    requires CreditAllowed(l.vault, l.reg, q, m, amount).Ok?
    ensures var r := Apply(l, now, Purchase(q.user, m, amount, 0, now, yes, FromParent(q)));
            var out := QuoteBuy(reserves.Of(SideOf(yes)), reserves.Of(Opposite(SideOf(yes))), amount).value;
            r.Ok? && AfterPurchase(l, r.value, Drawn(l.vault, q, m, amount), q.user, m, SideOf(yes), amount, out)
  {
    hide Lawful, QuoteBuy, BuyTokens, PriceBuy, SplitTradingFee, CollectFee, CreditAllowed, RecordCredit;
    var pool, outcome := l.amm.pools[m], SideOf(yes);
    var out := QuoteBuy(reserves.Of(outcome), reserves.Of(Opposite(outcome)), amount).value;
    var trade := Trade(outcome, amount, out, 0);
    FreePrice(pool, amount, outcome);
    Quoted(reserves.Of(outcome), reserves.Of(Opposite(outcome)), amount);
    NoParts(pool.fee);
    var v := Drawn(l.vault, q, m, amount);
    assert Position(q.market, q.user, q.outcome) == q;
    assert PayIn(l.vault, l.reg, q.user, m, FromParent(q), trade) == Ok(v);
    DrawnCash(l.vault, l.reg, q, m, amount);
    NothingCollected(v, m);
    AmmOwesNothing(l, m, outcome);
    DrawnDebts(l.vault, q, m, amount, Position(m, AmmContract, outcome));
    PoolDelivers(l, now, v, q.user, m, reserves, outcome, amount);
    assert AfterBuy(pool, trade, FeeSplit(0, 0, 0)) == pool.(reserves := reserves.Move(outcome, amount - out, amount));
  }

  lemma DrawnCash(v: VaultState, reg: RegistryState, q: Position, m: nat, amount: int)
    requires CreditAllowed(v, reg, q, m, amount).Ok?
    requires AccountOf(v, m).cash.backing >= 0 && AccountOf(v, m).cash.refundable >= 0
    ensures var v' := Drawn(v, q, m, amount);
            && q.market != m && m in v'.books.accounts && amount > 0
            && AccountOf(v', m) == AccountOf(v, m).Fund(amount)
            && AccountOf(v', q.market) == AccountOf(v, q.market).Lent(amount)
            && (forall k: nat :: k != m && k != q.market ==> AccountOf(v', k) == AccountOf(v, k))
            && v'.purse == v.purse
  {
    hide RecordCredit;
    assert RecordCredit(v, q, m, amount).books == v.books && RecordCredit(v, q, m, amount).purse == v.purse by {
      RecordCreditBooks(v, q, m, amount);
    }
  }

  lemma RecordCreditBooks(v: VaultState, q: Position, m: nat, amount: int)
    ensures RecordCredit(v, q, m, amount).books == v.books && RecordCredit(v, q, m, amount).purse == v.purse
  {
  }

  lemma DrawnDebts(v: VaultState, q: Position, m: nat, amount: int, p: Position)
    requires p.user != q.user
    ensures var v' := Drawn(v, q, m, amount);
            ChildDebt(v', Leg(p.market, p.user)) == ChildDebt(v, Leg(p.market, p.user))
            && ParentDebt(v', p) == ParentDebt(v, p)
  {
  }

  // ---------------------------------------------------------------- opening and leaving a market

  /** A pool just seeded by one provider. */
  function FirstPool(m: nat, lp: Address, amount: int): Pool {
    Pool(m, Reserves(amount, amount), LpBook(amount, 0, map[][lp := LpPosition(amount, 0)]), true, FREE)
  }

  lemma OpenMarket(l: Ledger, creator: Address, terms: Terms, amount: int)
    requires Fine(terms) && creator.Account? && amount > 0
    requires !l.vault.purse.paused && l.reg.nextId == l.amm.nextPoolId
    ensures var r := Apply(l, 0, Creation(creator, terms, FREE, amount));
            var m := l.reg.nextId;
            && r.Ok?
            && r.value.reg == RegistryState(l.reg.markets[m := Market(terms, Live, false, Invalid, false, 0)],
                                            m + 1, l.reg.paused)
            && r.value.amm == AmmState(l.amm.pools[m := FirstPool(m, creator, amount)], m + 1, l.amm.paused)
            && r.value.vault == SetAccount(Receive(l.vault, amount), m, AccountOf(l.vault, m).Fund(amount))
            && Gains(l.tokens, r.value.tokens, creator, Side(m, Yes), 0)
  {
    hide SetAccount, Receive, MintCompleteSet;
    var (reg, m) := RegisterMarket(l.reg, 0, terms).value;
    var (amm, id) := CreatePool(l.amm, m, FREE).value;
    var l1 := l.(reg := reg, amm := amm);
    MintPositiveOk(l.tokens, m, amount);
    assert l1.amm.pools[m].lp == LpBook(0, 0, map[]);
    assert Seed(l1, 0, creator, id, amount).Ok?;
    var l2 := Seed(l1, 0, creator, id, amount).value;
    assert l2.amm.pools == l.amm.pools[m := FirstPool(m, creator, amount)];
    assert l2.reg.markets[m] == Market(terms, Created, false, Invalid, false, 0);
    var live := Transition(l2.reg, m, Live);
    assert live.Ok? && live.value.markets == l.reg.markets[m := Market(terms, Live, false, Invalid, false, 0)];
  }

  lemma MintPositiveOk(t: TokenState, m: nat, amount: int)
    requires amount > 0
    ensures MintCompleteSet(t, AmmContract, m, amount).Ok?
    ensures forall who, side :: Gains(t, MintCompleteSet(t, AmmContract, m, amount).value, who, side, 0)
  {
  }

  /** The tokens of every user after one of them got the reserves of market m. */
  ghost predicate GetsBoth(t: TokenState, t': TokenState, who: Address, m: nat, out: Reserves) {
    forall owner: Address, s: Side :: owner.Account? ==>
      Balance(t', owner, s) == Balance(t, owner, s)
        + (if owner == who && s == Side(m, Yes) then out.yes else 0)
        + (if owner == who && s == Side(m, No) then out.no else 0)
  }

  /** The only provider takes everything out, before any fee was earned. */
  lemma LeavePool(l: Ledger, now: nat, lp: Address, m: nat, reserves: Reserves)
    requires Lawful(l) && Trading(l, now, m, reserves) && lp.Account? && reserves.yes > 0 && reserves.no > 0
    requires var book := l.amm.pools[m].lp;
             book.feePerShare == 0 && book.total > 0 && LpOf(book, lp) == LpPosition(book.total, 0)
    ensures var r := Apply(l, now, Removal(lp, m, l.amm.pools[m].lp.total));
            && r.Ok? && r.value.reg == l.reg && r.value.vault == l.vault
            && r.value.amm.paused == l.amm.paused
            && r.value.amm.pools.Keys == l.amm.pools.Keys
            && (forall k :: k in l.amm.pools && k != m ==> r.value.amm.pools[k] == l.amm.pools[k])
            && GetsBoth(l.tokens, r.value.tokens, lp, m, reserves)
  {
    hide Lawful, HandOut, SetLp;
    var pool := l.amm.pools[m];
    assert FeesOwed(pool.lp, lp) == 0;
    RemoveAllEmpties(pool, lp);
    PoolHolds(l, m);
    AmmOwesNothing(l, m, Yes);
    AmmOwesNothing(l, m, No);
    HandedOut(l.vault, l.tokens, lp, m, reserves);
  }

  lemma HandedOut(v: VaultState, t: TokenState, lp: Address, m: nat, out: Reserves)
    requires ChildDebt(v, Leg(m, AmmContract)) == 0 && lp.Account? && out.yes > 0 && out.no > 0
    requires ParentDebt(v, Position(m, AmmContract, Yes)) == 0 && ParentDebt(v, Position(m, AmmContract, No)) == 0
    requires out.yes <= Balance(t, AmmContract, Side(m, Yes)) && out.no <= Balance(t, AmmContract, Side(m, No))
    ensures HandOut(v, t, lp, m, out).Ok?
    ensures GetsBoth(t, HandOut(v, t, lp, m, out).value, lp, m, out)
  {
    MoveExactly(t, AmmContract, lp, Side(m, Yes), out.yes);
    var t1 := MovePosition(t, AmmContract, lp, Side(m, Yes), out.yes).value;
    assert Balance(t1, AmmContract, Side(m, No)) == Balance(t, AmmContract, Side(m, No));
    MoveExactly(t1, AmmContract, lp, Side(m, No), out.no);
  }

  // ---------------------------------------------------------------- redeeming

  /** What paying such a claim changes. */
  ghost predicate Settled(v: VaultState, v': VaultState, q: Position, gross: int) {
    var kept := Min(gross, ParentDebt(v, q));
    && AccountOf(v', q.market).cash == AccountOf(v, q.market).RepaidBy(kept).Redeem(gross - kept).cash
    && AccountOf(v', q.market).loans == AccountOf(v, q.market).RepaidBy(kept).loans
    && (forall k: nat :: k != q.market ==> AccountOf(v', k) == AccountOf(v, k))
    && v'.purse == v.purse.(balance := v.purse.balance - (gross - kept))
    && ParentDebt(v', q) == ParentDebt(v, q) - kept
    && v'.debts.childDebt == v.debts.childDebt && v'.credit.lender == v.credit.lender
    && v'.credit.children == v.credit.children
    && (forall p :: p != q ==> ParentDebt(v', p) == ParentDebt(v, p) && Used(v', p) == Used(v, p))
    && Used(v', q) == (if kept > 0 then SaturatingSub(Used(v, q), kept) else Used(v, q))
    && (forall k: nat :: HistoryOf(v', k).withheld == HistoryOf(v, k).withheld + (if k == q.market then kept else 0))
  }

  /** A claim of a user who owes nothing as a leg: as much as the position owes is kept back, the rest is paid. */
  lemma ClaimSettled(v: VaultState, q: Position, gross: int)
    requires gross > 0 && ChildDebt(v, Leg(q.market, q.user)) == 0 && ParentDebt(v, q) >= 0
    requires var (cash, kept) := (AccountOf(v, q.market).cash, Min(gross, ParentDebt(v, q)));
             && cash.shortfall == 0 && cash.redeemed >= 0
             && gross <= cash.backing - cash.redeemed + kept && gross - kept <= v.purse.balance
    ensures var r := SettleClaim(v, q, gross);
            r.Ok? && r.value.1 == gross - Min(gross, ParentDebt(v, q)) && Settled(v, r.value.0, q, gross)
  {
    hide CappedPayout, Withhold;
    assert PayUpstream(v, Leg(q.market, q.user), gross) == (v, 0);
    KeptBack(v, q, gross);
    var (v1, kept) := Withhold(v, q, gross);
    assert DefaultIfWorthless(v1, q, gross) == v1;
    CappedAtClaim(AccountOf(v1, q.market), gross - kept);
  }

  lemma KeptBack(v: VaultState, q: Position, claim: int)
    requires claim > 0 && ParentDebt(v, q) >= 0
    ensures var ((v', kept), owed) := (Withhold(v, q, claim), ParentDebt(v, q));
            && kept == Min(claim, owed)
            && AccountOf(v', q.market).cash == AccountOf(v, q.market).RepaidBy(kept).cash
            && AccountOf(v', q.market).loans == AccountOf(v, q.market).RepaidBy(kept).loans
            && (forall k: nat :: k != q.market ==> AccountOf(v', k) == AccountOf(v, k))
            && v'.purse == v.purse && v'.credit == v.credit && v'.debts.childDebt == v.debts.childDebt
            && ParentDebt(v', q) == owed - kept
            && (forall p :: p != q ==> ParentDebt(v', p) == ParentDebt(v, p) && Used(v', p) == Used(v, p))
            && Used(v', q) == (if kept > 0 then SaturatingSub(Used(v, q), kept) else Used(v, q))
            && (forall k: nat ::
                  HistoryOf(v', k).withheld == HistoryOf(v, k).withheld + (if k == q.market then kept else 0))
  {
  }

  lemma CappedAtClaim(a: Accounting, claim: int)
    requires a.cash.shortfall == 0 && a.cash.redeemed >= 0 && 0 <= claim <= a.cash.backing - a.cash.redeemed
    ensures CappedPayout(a, claim) == claim
  {
  }

  /** What an opened claim changes: the record of redemptions only. */
  lemma ClaimOpened(v: VaultState, m: nat, final: Outcome, amount: int)
    requires final != Invalid
    ensures var (v', gross) := OpenClaim(v, m, final, final, amount);
            && gross == amount
            && v'.books.accounts == v.books.accounts && v'.debts == v.debts && v'.credit == v.credit
            && v'.purse == v.purse && v'.escrow == v.escrow
            && forall k: nat :: HistoryOf(v', k).withheld == HistoryOf(v, k).withheld
  {
  }

  // ---------------------------------------------------------------- forced sales

  lemma FreeSale(pool: Pool, amount: int, outcome: Outcome)
    requires pool.fee.tradingFeeBps == 0
    requires QuoteSell(pool.reserves.Of(outcome), pool.reserves.Of(Opposite(outcome)), amount).Ok?
    ensures PriceSell(pool, amount, outcome) ==
            Ok(Trade(outcome, amount,
                     QuoteSell(pool.reserves.Of(outcome), pool.reserves.Of(Opposite(outcome)), amount).value, 0))
  {
    hide QuoteSell, SplitFee;
    NoFee(QuoteSell(pool.reserves.Of(outcome), pool.reserves.Of(Opposite(outcome)), amount).value);
  }

  /** A whole balance sold for its owner: the vault does not notice. */
  lemma ForcedSale(l: Ledger, now: nat, user: Address, m: nat, reserves: Reserves, outcome: Outcome, amount: int,
                   gross: int)
    requires Lawful(l) && Trading(l, now, m, reserves) && outcome != Invalid && user.Account?
             && m in l.vault.books.accounts
    requires 0 < amount == Balance(l.tokens, user, Side(m, outcome)) && gross > 0
    requires QuoteSell(reserves.Of(outcome), reserves.Of(Opposite(outcome)), amount) == Ok(gross)
    ensures var r := ForceSell(l, user, m, l.amm.pools[m], Trade(outcome, amount, gross, 0));
            r.Ok? && r.value.vault == l.vault && r.value.reg == l.reg
  {
    hide Lawful, QuoteSell, ForceTokens, SplitTradingFee, AfterSell, CollectFee;
    NoParts(l.amm.pools[m].fee);
    NothingCollected(l.vault, m);
    SoldWithin(reserves.Of(outcome), reserves.Of(Opposite(outcome)), amount);
    PoolHolds(l, m);
    TokensSound(l);
    ForcedTokensMove(l.tokens, user, m, outcome, amount, gross);
  }

  lemma SoldWithin(own: int, other: int, amount: int)
    requires QuoteSell(own, other, amount).Ok?
    ensures QuoteSell(own, other, amount).value <= other && QuoteSell(own, other, amount).value < own + amount
  {
    SellWithinReserves(own, other, amount);
  }

  lemma TokensSound(l: Ledger)
    requires Lawful(l)
    ensures ValidTokens(l.tokens)
  {
    hide ValidTokens;
  }

  lemma ForcedTokensMove(t: TokenState, user: Address, m: nat, outcome: Outcome, amount: int, gross: int)
    requires ValidTokens(t) && user != AmmContract && outcome != Invalid && gross > 0
    requires 0 < amount <= Balance(t, user, Side(m, outcome))
    requires gross <= Balance(t, AmmContract, Side(m, outcome)) + amount
    requires gross <= Balance(t, AmmContract, Side(m, Opposite(outcome)))
    ensures ForceTokens(t, user, m, Trade(outcome, amount, gross, 0)).Ok?
  {
    hide ValidTokens, MergePositions;
    var s := Side(m, outcome);
    MoveExactly(t, user, AmmContract, s, amount);
    MoveKeeps(t, user, AmmContract, s, amount);
    var t1 := MovePosition(t, user, AmmContract, s, amount).value;
    assert Balance(t1, AmmContract, s) == Balance(t, AmmContract, s) + amount;
    assert Balance(t1, AmmContract, Side(m, Opposite(outcome))) == Balance(t, AmmContract, Side(m, Opposite(outcome)));
    MergeNeverLacksBacking(t1, AmmContract, m, gross);
  }

  /** Redeeming winning tokens, by a user who owes nothing as a leg. */
  lemma WinnerRedeems(l: Ledger, now: nat, user: Address, m: nat, outcome: Outcome, amount: int)
    requires Lawful(l) && user.Account? && outcome != Invalid
    requires m in l.reg.markets && l.reg.markets[m].hasFinal && l.reg.markets[m].final == outcome
    requires 0 < amount <= Balance(l.tokens, user, Side(m, outcome))
    requires var q := Position(m, user, outcome);
             var (cash, kept) := (AccountOf(l.vault, m).cash, Min(amount, ParentDebt(l.vault, q)));
             && ChildDebt(l.vault, Leg(m, user)) == 0
             && cash.shortfall == 0 && cash.redeemed >= 0
             && amount <= cash.backing - cash.redeemed + kept && amount - kept <= l.vault.purse.balance
    ensures var r := Apply(l, now, Redemption(user, m, outcome, amount));
            && r.Ok? && r.value.reg == l.reg && r.value.amm == l.amm
            && Settled(l.vault, r.value.vault, Position(m, user, outcome), amount)
            && Gains(l.tokens, r.value.tokens, user, Side(m, outcome), -amount)
            && r.value.vault.books.accounts.Keys >= l.vault.books.accounts.Keys
            && Lawful(r.value)
  {
    hide Lawful, SettleClaim, OpenClaim, Settled;
    var q := Position(m, user, outcome);
    PositionOwes(l, q);
    ClaimOpened(l.vault, m, outcome, amount);
    var v1 := OpenClaim(l.vault, m, outcome, outcome, amount).0;
    SameReads(l.vault, v1, q, m);
    ClaimSettled(v1, q, amount);
    SettledFrom(l.vault, v1, SettleClaim(v1, q, amount).value.0, q, amount);
    StepLawful(l, now, Redemption(user, m, outcome, amount));
    AccountsStay(v1, q, amount);
  }

  lemma PositionOwes(l: Ledger, q: Position)
    requires Lawful(l)
    ensures ParentDebt(l.vault, q) >= 0
  {
  }

  lemma SameReads(v: VaultState, v1: VaultState, q: Position, m: nat)
    requires v1.books.accounts == v.books.accounts && v1.debts == v.debts
    ensures AccountOf(v1, m) == AccountOf(v, m) && ParentDebt(v1, q) == ParentDebt(v, q)
    ensures ChildDebt(v1, Leg(m, q.user)) == ChildDebt(v, Leg(m, q.user))
  {
  }

  lemma SettledFrom(v: VaultState, v1: VaultState, v2: VaultState, q: Position, gross: int)
    requires Settled(v1, v2, q, gross)
    requires v1.books.accounts == v.books.accounts && v1.debts == v.debts && v1.credit == v.credit
             && v1.purse == v.purse
    requires forall k: nat :: HistoryOf(v1, k).withheld == HistoryOf(v, k).withheld
    ensures Settled(v, v2, q, gross)
  {
    forall k: nat | k != q.market ensures AccountOf(v2, k) == AccountOf(v, k) {
      assert AccountOf(v1, k) == AccountOf(v, k);
    }
  }

  lemma AccountsStay(v: VaultState, q: Position, gross: int)
    requires ChildDebt(v, Leg(q.market, q.user)) == 0 && gross > 0 && SettleClaim(v, q, gross).Ok?
    ensures SettleClaim(v, q, gross).value.0.books.accounts.Keys >= v.books.accounts.Keys
  {
    hide CappedPayout;
    assert PayUpstream(v, Leg(q.market, q.user), gross) == (v, 0);
    assert DefaultIfWorthless(Withhold(v, q, gross).0, q, gross) == Withhold(v, q, gross).0;
  }

  // ---------------------------------------------------------------- a claim that goes upstream

  /** The books and debts after a leg of the redeemer's paid d upstream to q. */
  ghost predicate MovedUp(v: VaultState, v': VaultState, own: Position, q: Position, d: int) {
    var m, leg := own.market, Leg(own.market, own.user);
    && AccountOf(v', m).cash == AccountOf(v, m).Fund(-d).cash && AccountOf(v', m).loans == AccountOf(v, m).loans
    && AccountOf(v', q.market).cash == AccountOf(v, q.market).RepaidBy(d).cash
    && AccountOf(v', q.market).loans == AccountOf(v, q.market).RepaidBy(d).loans
    && (forall k: nat :: k != m && k != q.market ==> AccountOf(v', k) == AccountOf(v, k))
    && (forall k: nat :: HistoryOf(v', k).withheld == HistoryOf(v, k).withheld)
    && v'.purse == v.purse
    && (forall p :: ParentDebt(v', p) == ParentDebt(v, p) - (if p == q then d else 0))
    && (forall p :: p != q ==> Used(v', p) == Used(v, p))
    && (forall x :: ChildDebt(v', x) == ChildDebt(v, x) - (if x == leg then d else 0))
    && v'.books.accounts.Keys >= v.books.accounts.Keys && v'.escrow == v.escrow
  }

  /** What such a claim changes when nothing is left of it or of the market's money. */
  ghost predicate PaidUp(v: VaultState, v': VaultState, own: Position, q: Position, d: int, gross: int) {
    && MovedUp(v, v', own, q, d)
    && v'.credit == v.credit.(stake := v.credit.stake[own := SaturatingSub(Stake(v, own), gross)])
  }

  /** The whole debt of a leg is paid out of its claim, and then the claim or the market's money is used up. */
  lemma ClaimPaysUp(v: VaultState, own: Position, q: Position, d: int, gross: int)
    requires d > 0 && gross >= d && q.market != own.market
    requires var leg := Leg(own.market, own.user);
             HasParent(v, leg) && Lender(v, leg) == q && ChildDebt(v, leg) == d && ParentDebt(v, q) == d
    requires ParentDebt(v, own) == 0 || (ParentDebt(v, own) > 0 && gross == d)
    requires gross == d || AccountOf(v, own.market).cash.backing - d <= AccountOf(v, own.market).cash.redeemed
    ensures var r := SettleClaim(v, own, gross);
            r.Ok? && r.value.1 == 0 && PaidUp(v, r.value.0, own, q, d, gross)
  {
    hide CappedPayout, PayUpstream, MovedUp;
    UpstreamPaid(v, own, q, d, gross);
    var v1 := PayUpstream(v, Leg(own.market, own.user), gross).0;
    MovedReads(v, v1, own, q, d);
    assert Withhold(v1, own, gross - d) == (v1, 0);
    NothingLeft(AccountOf(v1, own.market), gross - d);
    var v2 := RetireStake(v1, own, gross);
    MovedSame(v, v1, v2, own, q, d);
    assert AccountOf(v2, own.market) == AccountOf(v1, own.market);
  }

  lemma UpstreamPaid(v: VaultState, own: Position, q: Position, d: int, gross: int)
    requires d > 0 && gross >= d && q.market != own.market
    requires var leg := Leg(own.market, own.user);
             HasParent(v, leg) && Lender(v, leg) == q && ChildDebt(v, leg) == d && ParentDebt(v, q) == d
    ensures var (v1, paid) := PayUpstream(v, Leg(own.market, own.user), gross);
            paid == d && v1.credit == v.credit && MovedUp(v, v1, own, q, d)
  {
    var leg := Leg(own.market, own.user);
    var (v1, paid) := SettleChildDebt(v, leg, gross);
    assert paid == d && v1 == RepayLender(SetChildDebt(v, leg, 0), q, d);
  }

  lemma MovedReads(v: VaultState, v1: VaultState, own: Position, q: Position, d: int)
    requires MovedUp(v, v1, own, q, d) && own != q
    ensures ParentDebt(v1, own) == ParentDebt(v, own)
    ensures AccountOf(v1, own.market).cash == AccountOf(v, own.market).Fund(-d).cash
  {
  }

  /** Stakes are no part of it. */
  lemma MovedSame(v: VaultState, v1: VaultState, v2: VaultState, own: Position, q: Position, d: int)
    requires MovedUp(v, v1, own, q, d)
    requires v2.books == v1.books && v2.debts == v1.debts && v2.escrow == v1.escrow && v2.purse == v1.purse
    ensures MovedUp(v, v2, own, q, d)
  {
    forall k: nat ensures AccountOf(v2, k) == AccountOf(v1, k) && HistoryOf(v2, k) == HistoryOf(v1, k) {
    }
  }

  lemma NothingLeft(a: Accounting, claim: int)
    requires claim <= 0 || a.cash.backing <= a.cash.redeemed
    ensures CappedPayout(a, claim) == 0
  {
  }

  lemma LegRedeems(l: Ledger, now: nat, own: Position, q: Position, d: int, amount: int)
    requires own.user.Account? && own.outcome != Invalid && d > 0 && amount >= d && q.market != own.market
    requires own.market in l.reg.markets && l.reg.markets[own.market].hasFinal
    requires l.reg.markets[own.market].final == own.outcome
    requires amount <= Balance(l.tokens, own.user, Side(own.market, own.outcome))
    requires var leg := Leg(own.market, own.user);
             && HasParent(l.vault, leg) && Lender(l.vault, leg) == q
             && ChildDebt(l.vault, leg) == d && ParentDebt(l.vault, q) == d
    requires ParentDebt(l.vault, own) == 0 || (ParentDebt(l.vault, own) > 0 && amount == d)
    requires var cash := AccountOf(l.vault, own.market).cash; amount == d || cash.backing - d <= cash.redeemed
    ensures var r := Apply(l, now, Redemption(own.user, own.market, own.outcome, amount));
            && r.Ok? && r.value.reg == l.reg && r.value.amm == l.amm
            && PaidUp(l.vault, r.value.vault, own, q, d, amount)
            && Gains(l.tokens, r.value.tokens, own.user, Side(own.market, own.outcome), -amount)
  {
    hide SettleClaim, OpenClaim, PaidUp;
    ClaimOpened(l.vault, own.market, own.outcome, amount);
    var v1 := OpenClaim(l.vault, own.market, own.outcome, own.outcome, amount).0;
    ClaimPaysUp(v1, own, q, d, amount);
    PaidUpFrom(l.vault, v1, SettleClaim(v1, own, amount).value.0, own, q, d, amount);
    assert Position(own.market, own.user, own.outcome) == own;
  }

  lemma PaidUpFrom(v: VaultState, v1: VaultState, v2: VaultState, own: Position, q: Position, d: int, gross: int)
    requires PaidUp(v1, v2, own, q, d, gross)
    requires v1.books.accounts == v.books.accounts && v1.debts == v.debts && v1.credit == v.credit
             && v1.purse == v.purse
    requires v1.escrow == v.escrow
    requires forall k: nat :: HistoryOf(v1, k).withheld == HistoryOf(v, k).withheld
    ensures PaidUp(v, v2, own, q, d, gross)
  {
    forall k: nat | k != own.market && k != q.market ensures AccountOf(v2, k) == AccountOf(v, k) {
      assert AccountOf(v1, k) == AccountOf(v, k);
    }
    forall p ensures ParentDebt(v2, p) == ParentDebt(v, p) - (if p == q then d else 0) {
      assert ParentDebt(v1, p) == ParentDebt(v, p);
    }
    forall p | p != q ensures Used(v2, p) == Used(v, p) {
      assert Used(v1, p) == Used(v, p);
    }
    forall x ensures ChildDebt(v2, x) == ChildDebt(v, x) - (if x == Leg(own.market, own.user) then d else 0) {
      assert ChildDebt(v1, x) == ChildDebt(v, x);
    }
  }
}
