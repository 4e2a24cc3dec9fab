// A stage for short runs of the whole system in which every transaction is accepted: one provider opens markets that
// take no fee, users trade in them at once, the provider leaves, and later the oracle decides them.

module Stage {
  import opened Basics
  import opened DikeTypes
  import opened DikeMath
  import opened MarketRegistry
  import opened PoolQuotes
  import opened TokenLedger
  import opened VaultLedger
  import opened AmmPools
  import opened LedgerCalls
  import opened LedgerLaws
  import opened LedgerParties
  import opened LedgerWaterfall
  import opened LedgerEffects
  import J = JointRuns
  import O = CodOracle
  import LedgerEscrow

  // ---------------------------------------------------------------- what stands on it

  function LiveMarket(terms: Terms): Market {
    Market(terms, Live, false, Invalid, false, 0)
  }

  /** The registry's record of a market and the money of its account. */
  ghost predicate Book(l: Ledger, m: nat, market: Market, cash: Cash, loans: Loans) {
    && m in l.reg.markets && l.reg.markets[m] == market
    && m in l.vault.books.accounts && AccountOf(l.vault, m).cash == cash && AccountOf(l.vault, m).loans == loans
  }

  /** A market that trades: its reserves, its money, and what it lent. */
  datatype Stall = Stall(terms: Terms, reserves: Reserves, funds: int, lent: int)
  {
    function Sold(outcome: Outcome, amount: int, out: int): Stall {
      Stall(terms, reserves.Move(outcome, amount - out, amount), funds + amount, lent)
    }

    function Lends(amount: int): Stall {
      Stall(terms, reserves, funds - amount, lent + amount)
    }

    function Cash(): Cash {
      VaultLedger.Cash(funds, funds, 0, 0)
    }

    function Loans(): Loans {
      VaultLedger.Loans(lent, 0, 0)
    }
  }

  ghost predicate Open(l: Ledger, c: Address, m: nat, x: Stall) {
    && Book(l, m, LiveMarket(x.terms), x.Cash(), x.Loans()) && Fine(x.terms) && x.funds >= 0
    && m in l.amm.pools && l.amm.pools[m] == FirstPool(m, c, 100).(reserves := x.reserves)
  }

  /** The oracle has handed out the numbers below n, for these markets, and nobody locked a bond ahead of it. */
  ghost predicate Asked(s: J.Joint, n: nat, asked: set<nat>) {
    && !s.oracle.paused && s.oracle.nextId == n && s.oracle.byMarket.Keys == asked
    && forall key :: key in s.ledger.vault.escrow.bonds ==> key.request < n
  }

  /** Nothing is paused, and the vault holds this much. */
  predicate Holding(l: Ledger, held: int) {
    !l.reg.paused && !l.amm.paused && l.vault.purse == Purse(held, 0, false)
  }

  /** The provider is c, no time has passed, and these markets trade. */
  ghost predicate Scene(s: J.Joint, c: Address, board: map<nat, Stall>, held: int) {
    && s.clock == 0 && c.Account? && Holding(s.ledger, held) && Asked(s, 1, {})
    && forall m :: m in board ==> Open(s.ledger, c, m, board[m])
  }

  /** What holds in every state that is reached. */
  lemma Reached(before: seq<J.Entry>, s: J.Joint)
    requires J.Reaches(before, s)
    ensures Lawful(s.ledger) && OwnLegs(s.ledger.vault)
  {
    hide Run, J.Run, J.Accepted, Lawful, OwnLegs, J.Events, J.Turns, O.Run;
    J.JointIsBoth(before);
    var l := Reachable(J.Events(J.BIRTH, before));
    GenesisOwnLegs();
    RunOwnLegs(GENESIS, J.Events(J.BIRTH, before));
  }

  lemma TradeAccepted(s: J.Joint, call: Call, l: Ledger)
    requires J.Direct(call) && Apply(s.ledger, s.clock, call) == Ok(l)
    ensures J.Apply(J.Tick(s, 0), J.Trade(call)) == Ok(s.(ledger := l))
  {
    hide Apply;
    assert J.Tick(s, 0) == s;
  }

  // ---------------------------------------------------------------- opening markets

  function Opening(c: Address, terms: seq<Terms>): seq<J.Entry> {
    if terms == [] then []
    else Opening(c, terms[..|terms| - 1])
         + [J.After(0, J.Trade(Creation(c, terms[|terms| - 1], FREE, 100)))]
  }

  function Board(terms: seq<Terms>): map<nat, Stall> {
    if terms == [] then map[]
    else Board(terms[..|terms| - 1])[|terms| := Stall(terms[|terms| - 1], Reserves(100, 100), 100, 0)]
  }

  lemma TwoStalls(t1: Terms, t2: Terms)
    ensures Board([t1, t2]) ==
            map[1 := Stall(t1, Reserves(100, 100), 100, 0), 2 := Stall(t2, Reserves(100, 100), 100, 0)]
  {
    assert [t1, t2][..1] == [t1] && [t1][..0] == [];
    assert Board([t1]) == map[1 := Stall(t1, Reserves(100, 100), 100, 0)];
  }

  lemma ThreeStalls(t1: Terms, t2: Terms, t3: Terms)
    ensures Board([t1, t2, t3]) == map[1 := Stall(t1, Reserves(100, 100), 100, 0),
                                       2 := Stall(t2, Reserves(100, 100), 100, 0),
                                       3 := Stall(t3, Reserves(100, 100), 100, 0)]
  {
    assert [t1, t2, t3][..2] == [t1, t2];
    TwoStalls(t1, t2);
  }

  /** The markets on the board are the first ones. */
  ghost predicate BoardIsShort(terms: seq<Terms>) {
    forall m :: m in Board(terms) ==> m <= |terms|
  }

  predicate AllFine(terms: seq<Terms>) {
    forall i :: 0 <= i < |terms| ==> Fine(terms[i])
  }

  /** Nobody owes, lends or owns anything. */
  ghost predicate Untouched(l: Ledger) {
    && l.vault.debts == EMPTY_VAULT.debts && l.vault.credit == EMPTY_VAULT.credit && l.vault.books.history == map[]
    && forall owner: Address, s: Side :: owner.Account? ==> Balance(l.tokens, owner, s) == 0
  }

  ghost predicate NextIs(l: Ledger, n: nat) {
    && l.reg.nextId == n && l.amm.nextPoolId == n
    && forall m :: m in l.vault.books.accounts ==> m < n
  }

  lemma Opens(c: Address, terms: seq<Terms>) returns (s: J.Joint)
    requires c.Account? && AllFine(terms)
    ensures J.Reaches(Opening(c, terms), s) && Scene(s, c, Board(terms), 100 * |terms|)
    ensures Untouched(s.ledger) && NextIs(s.ledger, |terms| + 1) && BoardIsShort(terms)
    decreases |terms|
  {
    hide J.Reaches, J.Apply, Apply, Open;
    if terms == [] {
      J.NotYet();
      s := J.BIRTH;
      Birth();
    } else {
      var n := |terms|;
      var first, last := terms[..n - 1], terms[n - 1];
      var s0 := Opens(c, first);
      s := OpensOne(Opening(c, first), s0, c, Board(first), 100 * (n - 1), last, n);
    }
  }

  lemma Birth()
    ensures var s := J.BIRTH;
            && s.clock == 0 && Holding(s.ledger, 0) && Asked(s, 1, {}) && Untouched(s.ledger) && NextIs(s.ledger, 1)
  {
  }

  lemma OpensOne(before: seq<J.Entry>, s: J.Joint, c: Address, board: map<nat, Stall>, held: int, terms: Terms, n: nat)
    returns (s': J.Joint)
    requires J.Reaches(before, s) && Scene(s, c, board, held) && Untouched(s.ledger) && NextIs(s.ledger, n)
    requires Fine(terms) && n !in board
    ensures J.Reaches(before + [J.After(0, J.Trade(Creation(c, terms, FREE, 100)))], s')
    ensures Scene(s', c, board[n := Stall(terms, Reserves(100, 100), 100, 0)], held + 100)
    ensures Untouched(s'.ledger) && NextIs(s'.ledger, n + 1)
  {
    hide J.Reaches, J.Apply, Apply, Lawful, OwnLegs;
    var call := Creation(c, terms, FREE, 100);
    OpenMarket(s.ledger, c, terms, 100);
    var l' := Apply(s.ledger, 0, call).value;
    TradeAccepted(s, call, l');
    s' := s.(ledger := l');
    J.Onward(before, s, 0, J.Trade(call), s');
    assert s'.ledger.vault.escrow == s.ledger.vault.escrow;
  }

  // ---------------------------------------------------------------- trading

  function BuyIn(u: Address, m: nat, amount: int, yes: bool): J.Entry {
    J.After(0, J.Trade(Purchase(u, m, amount, 0, 0, yes, NoParent)))
  }

  function Draw(q: Position, m: nat, amount: int, yes: bool): J.Entry {
    J.After(0, J.Trade(Purchase(q.user, m, amount, 0, 0, yes, FromParent(q))))
  }

  /** What the pool of a stall gives for an amount of collateral. */
  predicate Sells(x: Stall, yes: bool, amount: int, out: int) {
    QuoteBuy(x.reserves.Of(SideOf(yes)), x.reserves.Of(Opposite(SideOf(yes))), amount) == Ok(out)
  }

  lemma OpenTrades(l: Ledger, now: nat, c: Address, m: nat, x: Stall, held: int)
    requires Open(l, c, m, x) && Holding(l, held) && now < x.terms.expiry
    ensures Trading(l, now, m, x.reserves)
  {
  }

  /** Someone buys for cash. */
  lemma Buys(before: seq<J.Entry>, s: J.Joint, c: Address, board: map<nat, Stall>, held: int,
             u: Address, m: nat, amount: int, yes: bool, out: int) returns (s': J.Joint)
    requires J.Reaches(before, s) && Scene(s, c, board, held) && m in board
    requires u.Account? && amount > 0 && Sells(board[m], yes, amount, out)
    ensures J.Reaches(before + [BuyIn(u, m, amount, yes)], s')
    ensures Scene(s', c, board[m := board[m].Sold(SideOf(yes), amount, out)], held + amount)
    ensures Gains(s.ledger.tokens, s'.ledger.tokens, u, Side(m, SideOf(yes)), out)
    ensures s'.ledger.vault.debts == s.ledger.vault.debts
    ensures s'.ledger.vault.books.history == s.ledger.vault.books.history
    ensures var q := Position(m, u, SideOf(yes));
            s'.ledger.vault.credit == s.ledger.vault.credit.(
              stake := s.ledger.vault.credit.stake[q := Stake(s.ledger.vault, q) + amount])
  {
    hide J.Reaches, J.Apply, Apply, Lawful, OwnLegs, QuoteBuy, Gains;
    var l, x := s.ledger, board[m];
    var call := Purchase(u, m, amount, 0, 0, yes, NoParent);
    Reached(before, s);
    OpenTrades(l, 0, c, m, x, held);
    CashPurchase(l, 0, u, m, x.reserves, amount, yes);
    var l' := Apply(l, 0, call).value;
    TradeAccepted(s, call, l');
    s' := s.(ledger := l');
    J.Onward(before, s, 0, J.Trade(call), s');
    assert Open(l', c, m, x.Sold(SideOf(yes), amount, out));
  }

  /** Someone draws on a position and spends the credit in another market. */
  lemma Draws(before: seq<J.Entry>, s: J.Joint, c: Address, board: map<nat, Stall>, held: int,
              q: Position, m: nat, amount: int, yes: bool, out: int) returns (s': J.Joint)
    requires J.Reaches(before, s) && Scene(s, c, board, held) && q.market in board && m in board
    requires q.user.Account? && 0 < amount <= board[q.market].funds && Sells(board[m], yes, amount, out)
    requires CreditAllowed(s.ledger.vault, s.ledger.reg, q, m, amount).Ok?
    ensures J.Reaches(before + [Draw(q, m, amount, yes)], s')
    ensures Scene(s', c, board[q.market := board[q.market].Lends(amount)][m := board[m].Sold(SideOf(yes), amount, out)],
                  held)
    ensures Gains(s.ledger.tokens, s'.ledger.tokens, q.user, Side(m, SideOf(yes)), out)
    ensures s'.ledger.vault.debts == RecordCredit(s.ledger.vault, q, m, amount).debts
    ensures s'.ledger.vault.credit == RecordCredit(s.ledger.vault, q, m, amount).credit
    ensures s'.ledger.vault.books.history == s.ledger.vault.books.history
  {
    hide J.Reaches, J.Apply, Apply, Lawful, OwnLegs, QuoteBuy, Gains, RecordCredit, CreditAllowed;
    var l, x := s.ledger, board[m];
    var call := Purchase(q.user, m, amount, 0, 0, yes, FromParent(q));
    Reached(before, s);
    OpenTrades(l, 0, c, m, x, held);
    CreditPurchase(l, 0, q, m, x.reserves, amount, yes);
    var l' := Apply(l, 0, call).value;
    DrawnCash(l.vault, l.reg, q, m, amount);
    DrawnRest(l.vault, q, m, amount);
    TradeAccepted(s, call, l');
    s' := s.(ledger := l');
    J.Onward(before, s, 0, J.Trade(call), s');
    assert Open(l', c, m, x.Sold(SideOf(yes), amount, out));
    assert Open(l', c, q.market, board[q.market].Lends(amount));
    forall k | k in board && k != m && k != q.market ensures Open(l', c, k, board[k]) {
      assert Open(l, c, k, board[k]);
    }
  }

  lemma DrawnRest(v: VaultState, q: Position, m: nat, amount: int)
    ensures var v' := Drawn(v, q, m, amount);
            && v'.escrow == v.escrow && v'.books.accounts.Keys == v.books.accounts.Keys + {q.market, m}
            && v'.debts == RecordCredit(v, q, m, amount).debts && v'.credit == RecordCredit(v, q, m, amount).credit
            && v'.books.history == v.books.history
  {
  }

  /** When a draw is within the limit and the chain rule lets it pass. */
  lemma MayDraw(l: Ledger, c: Address, x: Stall, q: Position, m: nat, amount: int)
    requires Open(l, c, q.market, x) && q.market != m && 0 < amount <= x.funds
    requires !HasParent(l.vault, Leg(q.market, q.user))
    requires HasParent(l.vault, Leg(m, q.user)) ==> Lender(l.vault, Leg(m, q.user)).market == q.market
    requires Stake(l.vault, q) >= 0
    requires (Used(l.vault, q) + amount) * BPS_DENOMINATOR <= Stake(l.vault, q) * CHILD_COLLATERAL_BPS
    ensures CreditAllowed(l.vault, l.reg, q, m, amount).Ok?
  {
    BpsBounds(Stake(l.vault, q), CHILD_COLLATERAL_BPS);
  }

  // ---------------------------------------------------------------- leaving

  function Leave(c: Address, m: nat): J.Entry {
    J.After(0, J.Trade(Removal(c, m, 100)))
  }

  /** The provider takes everything out of a market. */
  lemma Leaves(before: seq<J.Entry>, s: J.Joint, c: Address, board: map<nat, Stall>, held: int, m: nat)
    returns (s': J.Joint)
    requires J.Reaches(before, s) && Scene(s, c, board, held) && m in board
    requires board[m].reserves.yes > 0 && board[m].reserves.no > 0
    ensures J.Reaches(before + [Leave(c, m)], s')
    ensures Scene(s', c, board - {m}, held)
    ensures s'.ledger.reg == s.ledger.reg && s'.ledger.vault == s.ledger.vault
    ensures GetsBoth(s.ledger.tokens, s'.ledger.tokens, c, m, board[m].reserves)
  {
    hide J.Reaches, J.Apply, Apply, Lawful, OwnLegs, GetsBoth;
    var l, x := s.ledger, board[m];
    var call := Removal(c, m, 100);
    Reached(before, s);
    OpenTrades(l, 0, c, m, x, held);
    LeavePool(l, 0, c, m, x.reserves);
    var l' := Apply(l, 0, call).value;
    TradeAccepted(s, call, l');
    s' := s.(ledger := l');
    J.Onward(before, s, 0, J.Trade(call), s');
    forall k | k in board - {m} ensures Open(l', c, k, board[k]) {
      assert Open(l, c, k, board[k]);
    }
  }

  // ---------------------------------------------------------------- deciding

  function Decided(terms: Terms, outcome: Outcome, n: nat): Market {
    Market(terms, Resolved, true, outcome, true, n)
  }

  /** The market is asked about when it has expired, someone states its outcome under a bond, and nobody disputes it in
      the window. */
  function Decision(who: Address, m: nat, terms: Terms, outcome: Outcome, n: nat): seq<J.Entry> {
    [J.After(terms.expiry, J.Resolve(O.Ask(m, terms)))]
    + [J.After(0, J.Resolve(O.Assert(who, n, outcome, "evidence")))]
    + [J.After(terms.disputeWindow + 1, J.Resolve(O.Settle(n)))]
  }

  /** Everything but the registry's record of market m, the oracle's and the bonds stays. */
  ghost predicate OnlyDecided(l: Ledger, l': Ledger, m: nat, market: Market) {
    && l'.reg.markets == l.reg.markets[m := market] && l'.reg.paused == l.reg.paused
    && l'.tokens == l.tokens && l'.amm == l.amm
    && l'.vault.purse == l.vault.purse && l'.vault.debts == l.vault.debts && l'.vault.credit == l.vault.credit
    && l'.vault.books.history == l.vault.books.history
    && l'.vault.books.accounts.Keys >= l.vault.books.accounts.Keys
    && forall k: nat :: AccountOf(l'.vault, k).cash == AccountOf(l.vault, k).cash
                        && AccountOf(l'.vault, k).loans == AccountOf(l.vault, k).loans
  }

  lemma Asks(s: J.Joint, m: nat, terms: Terms, n: nat, asked: set<nat>)
    requires Asked(s, n, asked) && m !in asked && m in s.ledger.reg.markets && Fine(terms)
    requires s.ledger.reg.markets[m] == LiveMarket(terms) && s.clock >= terms.expiry
    ensures var r := J.Apply(s, J.Resolve(O.Ask(m, terms)));
            && r.Ok?
            && r.value.ledger == s.ledger.(reg := r.value.ledger.reg) && r.value.clock == s.clock
            && r.value.ledger.reg == s.ledger.reg.(
                 markets := s.ledger.reg.markets[m := Market(terms, ResolutionRequested, false, Invalid, true, n)])
            && Asked(r.value, n + 1, asked + {m})
            && n in r.value.oracle.requests
            && r.value.oracle.requests[n] ==
               O.Request(O.Question(m, terms.bondAmount, terms.disputeWindow), O.OracleStatus.Requested, None, None,
                         None)
  {
  }

  lemma States(s: J.Joint, m: nat, terms: Terms, n: nat, asked: set<nat>, who: Address, outcome: Outcome)
    requires Asked(s, n + 1, asked) && m in s.ledger.reg.markets && Fine(terms) && who.Account?
    requires s.ledger.reg.markets[m] == Market(terms, ResolutionRequested, false, Invalid, true, n)
    requires n in s.oracle.requests && BondKey(n, who, false) !in s.ledger.vault.escrow.bonds
    requires s.oracle.requests[n] ==
             O.Request(O.Question(m, terms.bondAmount, terms.disputeWindow), O.OracleStatus.Requested, None, None, None)
    ensures var r := J.Apply(s, J.Resolve(O.Assert(who, n, outcome, "evidence")));
            && r.Ok?
            && r.value.ledger == s.ledger.(reg := r.value.ledger.reg, vault := r.value.ledger.vault)
            && r.value.clock == s.clock
            && r.value.ledger.reg == s.ledger.reg.(
                 markets := s.ledger.reg.markets[m := Market(terms, MarketStatus.Proposed, false, Invalid, true, n)])
            && LockBond(s.ledger.vault, s.ledger.reg, BondKey(n, who, false), m, terms.bondAmount)
               == Ok(r.value.ledger.vault)
            && Asked(r.value, n + 1, asked)
            && n in r.value.oracle.requests
            && r.value.oracle.requests[n] ==
               O.Request(O.Question(m, terms.bondAmount, terms.disputeWindow), O.OracleStatus.Proposed,
                         Some(O.Statement(who, outcome, "evidence", s.clock)), None, None)
  {
    assert "evidence" != "";
  }

  lemma Settles(s: J.Joint, m: nat, terms: Terms, n: nat, asked: set<nat>, who: Address, outcome: Outcome, at: nat,
                v: VaultState)
    requires Asked(s, n + 1, asked) && m in s.ledger.reg.markets && Fine(terms) && who.Account?
    requires s.ledger.reg.markets[m] == Market(terms, MarketStatus.Proposed, false, Invalid, true, n)
    requires s.clock > at + terms.disputeWindow && v.purse.balance >= 0
    requires LockBond(v, s.ledger.reg, BondKey(n, who, false), m, terms.bondAmount) == Ok(s.ledger.vault)
    requires n in s.oracle.requests
    requires s.oracle.requests[n] ==
             O.Request(O.Question(m, terms.bondAmount, terms.disputeWindow), O.OracleStatus.Proposed,
                       Some(O.Statement(who, outcome, "evidence", at)), None, None)
    ensures var r := J.Apply(s, J.Resolve(O.Settle(n)));
            && r.Ok?
            && r.value.ledger == s.ledger.(reg := r.value.ledger.reg, vault := r.value.ledger.vault)
            && r.value.clock == s.clock
            && r.value.ledger.reg == s.ledger.reg.(markets := s.ledger.reg.markets[m := Decided(terms, outcome, n)])
            && Released(v, r.value.ledger.vault)
            && Asked(r.value, n + 1, asked)
  {
    hide LockBond, UnlockBond;
    var key := BondKey(n, who, false);
    LockedReleased(v, s.ledger.reg, key, m, terms.bondAmount);
    var r := J.Apply(s, J.Resolve(O.Settle(n)));
  }

  /** A vault that got a bond and gave it back. */
  ghost predicate Released(v: VaultState, v': VaultState) {
    && v'.purse == v.purse && v'.debts == v.debts && v'.credit == v.credit && v'.books.history == v.books.history
    && v'.books.accounts.Keys >= v.books.accounts.Keys
    && forall k: nat :: AccountOf(v', k).cash == AccountOf(v, k).cash && AccountOf(v', k).loans == AccountOf(v, k).loans
  }

  lemma LockedReleased(v: VaultState, reg: RegistryState, key: BondKey, m: nat, amount: int)
    requires LockBond(v, reg, key, m, amount).Ok? && v.purse.balance >= 0
    ensures var v1 := LockBond(v, reg, key, m, amount).value;
            var r := UnlockBond(v1, key, key.user, amount);
            && r.Ok? && Released(v, r.value)
            && r.value.escrow.bonds.Keys == v1.escrow.bonds.Keys
  {
  }

  lemma Decides(before: seq<J.Entry>, s: J.Joint, m: nat, terms: Terms, n: nat, asked: set<nat>, who: Address,
                outcome: Outcome) returns (s': J.Joint)
    requires J.Reaches(before, s) && Asked(s, n, asked) && m !in asked && Fine(terms) && who.Account?
    requires m in s.ledger.reg.markets && s.ledger.reg.markets[m] == LiveMarket(terms)
    requires s.ledger.vault.purse.balance >= 0
    ensures J.Reaches(before + Decision(who, m, terms, outcome, n), s')
    ensures OnlyDecided(s.ledger, s'.ledger, m, Decided(terms, outcome, n)) && Asked(s', n + 1, asked + {m})
    ensures s'.clock == s.clock + terms.expiry + terms.disputeWindow + 1
  {
    hide J.Reaches, J.Apply, Fine, LockBond;
    var s0 := J.Tick(s, terms.expiry);
    Asks(s0, m, terms, n, asked);
    var s1 := J.Apply(s0, J.Resolve(O.Ask(m, terms))).value;
    J.Onward(before, s, terms.expiry, J.Resolve(O.Ask(m, terms)), s1);
    var e1 := before + [J.After(terms.expiry, J.Resolve(O.Ask(m, terms)))];
    assert J.Tick(s1, 0) == s1;
    States(s1, m, terms, n, asked + {m}, who, outcome);
    var s2 := J.Apply(s1, J.Resolve(O.Assert(who, n, outcome, "evidence"))).value;
    J.Onward(e1, s1, 0, J.Resolve(O.Assert(who, n, outcome, "evidence")), s2);
    var e2 := e1 + [J.After(0, J.Resolve(O.Assert(who, n, outcome, "evidence")))];
    var s3 := J.Tick(s2, terms.disputeWindow + 1);
    LockedRegistry(s1.ledger.vault, s1.ledger.reg, s2.ledger.reg, BondKey(n, who, false), m, terms.bondAmount);
    Settles(s3, m, terms, n, asked + {m}, who, outcome, s2.clock, s1.ledger.vault);
    s' := J.Apply(s3, J.Resolve(O.Settle(n))).value;
    J.Onward(e2, s2, terms.disputeWindow + 1, J.Resolve(O.Settle(n)), s');
    assert before + Decision(who, m, terms, outcome, n) ==
           e2 + [J.After(terms.disputeWindow + 1, J.Resolve(O.Settle(n)))];
  }

  lemma LockedRegistry(v: VaultState, reg: RegistryState, reg': RegistryState, key: BondKey, m: nat, amount: int)
    requires m in reg.markets && m in reg'.markets
    ensures LockBond(v, reg', key, m, amount) == LockBond(v, reg, key, m, amount)
  {
  }

  // ---------------------------------------------------------------- redeeming

  function Redeem(u: Address, m: nat, outcome: Outcome, amount: int): J.Entry {
    J.After(0, J.Trade(Redemption(u, m, outcome, amount)))
  }

  /** A user who owes nothing as a leg redeems winning tokens. */
  lemma Redeems(before: seq<J.Entry>, s: J.Joint, u: Address, m: nat, outcome: Outcome, amount: int)
    returns (s': J.Joint)
    requires J.Reaches(before, s) && u.Account? && outcome != Invalid
    requires m in s.ledger.reg.markets && s.ledger.reg.markets[m].hasFinal && s.ledger.reg.markets[m].final == outcome
    requires 0 < amount <= Balance(s.ledger.tokens, u, Side(m, outcome))
    requires var q := Position(m, u, outcome);
             var (cash, kept) := (AccountOf(s.ledger.vault, m).cash, Min(amount, ParentDebt(s.ledger.vault, q)));
             && ChildDebt(s.ledger.vault, Leg(m, u)) == 0
             && cash.shortfall == 0 && cash.redeemed >= 0
             && amount <= cash.backing - cash.redeemed + kept && amount - kept <= s.ledger.vault.purse.balance
    ensures J.Reaches(before + [Redeem(u, m, outcome, amount)], s')
    ensures s' == s.(ledger := s'.ledger) && s'.ledger.reg == s.ledger.reg && s'.ledger.amm == s.ledger.amm
    ensures Settled(s.ledger.vault, s'.ledger.vault, Position(m, u, outcome), amount)
    ensures Gains(s.ledger.tokens, s'.ledger.tokens, u, Side(m, outcome), -amount)
    ensures s'.ledger.vault.books.accounts.Keys >= s.ledger.vault.books.accounts.Keys
    ensures s'.ledger.vault.escrow == s.ledger.vault.escrow
  {
    hide J.Reaches, J.Apply, Apply, Lawful, OwnLegs, Settled, Gains;
    var call := Redemption(u, m, outcome, amount);
    Reached(before, s);
    WinnerRedeems(s.ledger, s.clock, u, m, outcome, amount);
    var l' := Apply(s.ledger, s.clock, call).value;
    LedgerEscrow.ApplyEscrow(s.ledger, s.clock, call);
    TradeAccepted(s, call, l');
    s' := s.(ledger := l');
    J.Onward(before, s, 0, J.Trade(call), s');
  }

  /** A user whose leg owes all that its parent position owes redeems; the debt uses up the claim or the market's
      money. */
  lemma RedeemsUpstream(before: seq<J.Entry>, s: J.Joint, own: Position, q: Position, d: int, amount: int)
    returns (s': J.Joint)
    requires J.Reaches(before, s)
    requires own.user.Account? && own.outcome != Invalid && d > 0 && amount >= d && q.market != own.market
    requires own.market in s.ledger.reg.markets && s.ledger.reg.markets[own.market].hasFinal
    requires s.ledger.reg.markets[own.market].final == own.outcome
    requires amount <= Balance(s.ledger.tokens, own.user, Side(own.market, own.outcome))
    requires var (v, leg) := (s.ledger.vault, Leg(own.market, own.user));
             && HasParent(v, leg) && Lender(v, leg) == q && ChildDebt(v, leg) == d && ParentDebt(v, q) == d
             && (ParentDebt(v, own) == 0 || (ParentDebt(v, own) > 0 && amount == d))
    requires var cash := AccountOf(s.ledger.vault, own.market).cash; amount == d || cash.backing - d <= cash.redeemed
    ensures J.Reaches(before + [Redeem(own.user, own.market, own.outcome, amount)], s')
    ensures s' == s.(ledger := s'.ledger) && s'.ledger.reg == s.ledger.reg && s'.ledger.amm == s.ledger.amm
    ensures PaidUp(s.ledger.vault, s'.ledger.vault, own, q, d, amount)
    ensures Gains(s.ledger.tokens, s'.ledger.tokens, own.user, Side(own.market, own.outcome), -amount)
  {
    hide J.Reaches, J.Apply, Apply, PaidUp, Gains;
    var call := Redemption(own.user, own.market, own.outcome, amount);
    LegRedeems(s.ledger, s.clock, own, q, d, amount);
    var l' := Apply(s.ledger, s.clock, call).value;
    TradeAccepted(s, call, l');
    s' := s.(ledger := l');
    J.Onward(before, s, 0, J.Trade(call), s');
  }

  // ---------------------------------------------------------------- books afterwards

  lemma BookDecided(l: Ledger, l': Ledger, m: nat, decided: Market, k: nat, market: Market, cash: Cash, loans: Loans)
    requires OnlyDecided(l, l', m, decided) && Book(l, k, market, cash, loans)
    ensures Book(l', k, if k == m then decided else market, cash, loans)
  {
  }

  lemma BookSettled(l: Ledger, l': Ledger, q: Position, gross: int, k: nat, market: Market, cash: Cash, loans: Loans)
    requires Settled(l.vault, l'.vault, q, gross) && Book(l, k, market, cash, loans)
    requires l'.reg == l.reg && l'.vault.books.accounts.Keys >= l.vault.books.accounts.Keys
    ensures var kept := Min(gross, ParentDebt(l.vault, q));
            var paid := gross - kept;
            Book(l', k, market,
                 if k == q.market then Cash(cash.backing + kept, cash.refundable + kept - paid, cash.redeemed + paid,
                                            cash.shortfall) else cash,
                 if k == q.market then Loans(loans.issued, loans.repaid + kept, loans.defaulted) else loans)
  {
  }

  /** A market that still trades is not touched by the end of another. */
  lemma OpenElsewhere(l: Ledger, l': Ledger, m: nat, decided: Market, c: Address, k: nat, x: Stall)
    requires OnlyDecided(l, l', m, decided) && Open(l, c, k, x) && k != m
    ensures Open(l', c, k, x)
  {
  }

  lemma OpenSettled(l: Ledger, l': Ledger, q: Position, gross: int, c: Address, k: nat, x: Stall)
    requires Settled(l.vault, l'.vault, q, gross) && Open(l, c, k, x) && k != q.market
    requires l'.reg == l.reg && l'.amm == l.amm && l'.vault.books.accounts.Keys >= l.vault.books.accounts.Keys
    ensures Open(l', c, k, x)
  {
  }

  lemma BookPaidUp(l: Ledger, l': Ledger, own: Position, q: Position, d: int, gross: int, k: nat, market: Market,
                   cash: Cash, loans: Loans)
    requires PaidUp(l.vault, l'.vault, own, q, d, gross) && Book(l, k, market, cash, loans) && l'.reg == l.reg
    requires own.market != q.market
    ensures var x := if k == own.market then -d else if k == q.market then d else 0;
            Book(l', k, market, Cash(cash.backing + x, cash.refundable + x, cash.redeemed, cash.shortfall),
                 if k == q.market then Loans(loans.issued, loans.repaid + d, loans.defaulted) else loans)
  {
  }
}
