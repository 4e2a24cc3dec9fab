// The terms of a purchase and of a sale in numbers: when they are accepted, what the fee is and where it goes, how the
// reserves and the vault's book move, and what is recorded for the trader.

module LedgerTerms {
  import opened DikeTypes
  import opened DikeMath
  import opened MarketRegistry
  import opened PoolQuotes
  import opened TokenLedger
  import opened VaultLedger
  import opened AmmPools
  import opened LedgerCalls
  import opened LedgerPools
  import opened LedgerTrades
  import opened LedgerFlows
  import opened LedgerLiquidations

  // ---------------------------------------------------------------- fees

  /** x is `rate` basis points of `amount`, rounded down. */
  predicate IsBps(x: int, amount: int, rate: nat) {
    10_000 * x <= rate * amount < 10_000 * (x + 1)
  }

  lemma BpsIs(amount: int, rate: nat)
    requires amount >= 0
    ensures IsBps(Bps(amount, rate), amount, rate) && Bps(amount, rate) >= 0
  {
    ProductNonNegative(amount, rate);
    FloorBounds(amount * rate, BPS_DENOMINATOR);
  }

  /** Each of the three parts goes to its own bucket: the providers' and the treasury's rounded down, the rest to the
      oracle, nothing lost. */
  predicate FeeShared(before: Fees, after: Fees, fee: int, config: FeeConfig) {
    && IsBps(after.lp - before.lp, fee, config.lpShareBps)
    && IsBps(after.protocol - before.protocol, fee, config.treasuryShareBps)
    && after.lp - before.lp + after.protocol - before.protocol + after.cod - before.cod == fee
    && after.cod >= before.cod
  }

  lemma SplitShares(fees: Fees, fee: int, config: FeeConfig)
    requires fee >= 0 && SplitTradingFee(fee, config).cod >= 0
    ensures var split := SplitTradingFee(fee, config);
            FeeShared(fees, Fees(fees.lp + split.lp, fees.protocol + split.protocol, fees.cod + split.cod), fee, config)
  {
    BpsIs(fee, config.lpShareBps);
    BpsIs(fee, config.treasuryShareBps);
  }

  /** The book of the traded market: the fee leaves the backing for the buckets, and `x` comes in or goes out. */
  ghost predicate BookMoved(v: VaultState, v': VaultState, m: nat, x: int, fee: int, config: FeeConfig) {
    var (a, a') := (AccountOf(v, m), AccountOf(v', m));
    && a'.cash.backing == a.cash.backing + x - fee && a'.cash.refundable == a.cash.refundable + x - fee
    && a'.cash.redeemed == a.cash.redeemed && a'.cash.shortfall == a.cash.shortfall
    && FeeShared(a.fees, a'.fees, fee, config)
  }

  // ---------------------------------------------------------------- purchases

  /** The quote: the fee is rounded down, the net amount goes into both reserves, and the tokens leave the bought one
      with as much of the old product as whole tokens allow. */
  predicate QuotedBuy(pool: Pool, amountIn: int, fee: int, out: int, outcome: Outcome, after: Reserves) {
    var (own, other, net) := (pool.reserves.Of(outcome), pool.reserves.Of(Opposite(outcome)), amountIn - fee);
    && IsBps(fee, amountIn, pool.fee.tradingFeeBps) && net > 0 && own > 0 && other > 0
    && after.Of(Opposite(outcome)) == other + net && after.Of(outcome) == own + net - out
    && after.Of(outcome) * (other + net) <= own * other < (after.Of(outcome) + 1) * (other + net)
  }

  lemma PricedQuote(pool: Pool, amountIn: int, outcome: Outcome)
    requires PriceBuy(pool, amountIn, outcome).Ok? && amountIn > 0 && outcome != Invalid
    ensures var trade := PriceBuy(pool, amountIn, outcome).value;
            && trade.fee >= 0 && trade.amountIn == amountIn && trade.outcome == outcome
            && QuotedBuy(pool, amountIn, trade.fee, trade.gross, outcome,
                         AfterBuy(pool, trade, SplitTradingFee(trade.fee, pool.fee)).reserves)
  {
    hide QuoteBuy, Bps, SplitTradingFee, AccrueFees;
    BpsIs(amountIn, pool.fee.tradingFeeBps);
    var trade := PriceBuy(pool, amountIn, outcome).value;
    BuyPositive(pool.reserves.Of(outcome), pool.reserves.Of(Opposite(outcome)), amountIn - trade.fee);
    BuyAgainstProduct(pool.reserves.Of(outcome), pool.reserves.Of(Opposite(outcome)), amountIn - trade.fee);
  }

  lemma BuyPositive(own: int, other: int, net: int)
    requires QuoteBuy(own, other, net).Ok?
    ensures own > 0 && other > 0 && net > 0
  {
  }

  /** The vault's side of a purchase in cash: the amount paid is held, booked, and recorded as stake. */
  lemma CashBought(v: VaultState, reg: RegistryState, trader: Address, m: nat, trade: Trade, config: FeeConfig)
    requires trade.fee >= 0
    requires BuyVault(v, reg, trader, m, NoParent, trade, SplitTradingFee(trade.fee, config)).Ok?
    ensures var v' := BuyVault(v, reg, trader, m, NoParent, trade, SplitTradingFee(trade.fee, config)).value;
            && BookMoved(v, v', m, trade.amountIn, trade.fee, config)
            && (forall p :: Stake(v', p) == Stake(v, p) +
                  (if p == Position(m, trader, trade.outcome) then trade.amountIn else 0))
            && v'.debts == v.debts && v'.purse.balance == v.purse.balance + trade.amountIn && !v.purse.paused
  {
    hide SplitTradingFee;
    SplitShares(AccountOf(v, m).fees, trade.fee, config);
  }

  /** And of one on credit: the parent market's book lends the amount, and the draw is recorded three times. */
  lemma CreditBought(v: VaultState, reg: RegistryState, trader: Address, m: nat, parent: Parent, trade: Trade,
                     config: FeeConfig)
    requires parent.FromParent? && trade.fee >= 0
    requires BuyVault(v, reg, trader, m, parent, trade, SplitTradingFee(trade.fee, config)).Ok?
    ensures var v' := BuyVault(v, reg, trader, m, parent, trade, SplitTradingFee(trade.fee, config)).value;
            var q := Position(parent.position.market, trader, parent.position.outcome);
            && q.market != m && BookMoved(v, v', m, trade.amountIn, trade.fee, config)
            && Lent(AccountOf(v, q.market), AccountOf(v', q.market), trade.amountIn)
            && Drawn(v, v', q, Leg(m, trader), trade.amountIn)
            && v'.credit.stake == v.credit.stake && v'.purse == v.purse
  {
    hide SplitTradingFee, CreditAllowed, RecordCredit;
    var q := Position(parent.position.market, trader, parent.position.outcome);
    ParentElsewhere(v, reg, q, m, trade.amountIn);
    SplitShares(AccountOf(v, m).fees, trade.fee, config);
    DrawRecorded(v, q, m, trade.amountIn);
  }

  lemma DrawRecorded(v: VaultState, q: Position, c: nat, amount: int)
    ensures var v' := RecordCredit(v, q, c, amount);
            && Drawn(v, v', q, Leg(c, q.user), amount) && v'.books == v.books && v'.purse == v.purse
            && v'.credit.stake == v.credit.stake
  {
  }

  lemma ParentElsewhere(v: VaultState, reg: RegistryState, q: Position, m: nat, amount: int)
    requires CreditAllowed(v, reg, q, m, amount).Ok?
    ensures q.market != m
  {
  }

  predicate Lent(a: Accounting, a': Accounting, amount: int) {
    && a'.cash.backing == a.cash.backing - amount && a'.cash.refundable == a.cash.refundable - amount
    && a'.cash.redeemed == a.cash.redeemed && a'.cash.shortfall == a.cash.shortfall
    && a'.loans.issued == a.loans.issued + amount && a'.loans.repaid == a.loans.repaid && a'.fees == a.fees
  }

  /** A draw raises the position's used credit and debt and the leg's debt by its amount, and nobody else's. */
  ghost predicate Drawn(v: VaultState, v': VaultState, q: Position, leg: Leg, amount: int) {
    && (forall p :: Used(v', p) == Used(v, p) + (if p == q then amount else 0))
    && (forall p :: ParentDebt(v', p) == ParentDebt(v, p) + (if p == q then amount else 0))
    && (forall x :: ChildDebt(v', x) == ChildDebt(v, x) + (if x == leg then amount else 0))
    && HasParent(v', leg) && Lender(v', leg) == (if HasParent(v, leg) then Lender(v, leg) else q)
    && leg.market in ChildrenOf(v', q)
  }

  /** What a purchase moves, with that fee: reserves, the market's book, tokens, and what is recorded for the trader. */
  ghost predicate Bought(l: Ledger, l': Ledger, trader: Address, id: nat, amountIn: int, fee: int, out: int, o: Outcome,
                         parent: Parent)
    requires id in l.amm.pools && id in l'.amm.pools
  {
    var (pool, m) := (l.amm.pools[id], l.amm.pools[id].market);
    && QuotedBuy(pool, amountIn, fee, out, o, l'.amm.pools[id].reserves)
    && BookMoved(l.vault, l'.vault, m, amountIn, fee, pool.fee)
    && Balance(l'.tokens, trader, Side(m, o)) == Balance(l.tokens, trader, Side(m, o)) + out
    && Read(l'.tokens.backing, m) == Read(l.tokens.backing, m) + amountIn - fee
    && match parent
       case NoParent =>
         && l'.vault.debts == l.vault.debts && l'.vault.purse.balance == l.vault.purse.balance + amountIn
         && forall p :: Stake(l'.vault, p) == Stake(l.vault, p) + (if p == Position(m, trader, o) then amountIn else 0)
       case FromParent(from) =>
         var q := Position(from.market, trader, from.outcome);
         && Lent(AccountOf(l.vault, q.market), AccountOf(l'.vault, q.market), amountIn)
         && Drawn(l.vault, l'.vault, q, Leg(m, trader), amountIn)
         && l'.vault.credit.stake == l.vault.credit.stake && l'.vault.purse == l.vault.purse
  }

  /** A purchase, from the state before: it happens only while the pool trades and before the deadline, delivers at
      least the minimum, and moves reserves, book and records by exactly the amounts of the quote. */
  lemma BuyTerms(l: Ledger, now: nat, trader: Address, id: nat, amountIn: int, minOut: int, deadline: nat,
                 yes: bool, parent: Parent)
    requires Buy(l, now, trader, id, amountIn, minOut, deadline, yes, parent).Ok?
    ensures var (l', out) := Buy(l, now, trader, id, amountIn, minOut, deadline, yes, parent).value;
            && Trading(l, now, id) && now <= deadline && trader.Account? && amountIn > 0 && out >= minOut
            && id in l'.amm.pools
            && exists fee: int :: Bought(l, l', trader, id, amountIn, fee, out, SideOf(yes), parent)
  {
    hide RequireLive, PriceBuy, BuyVault, BuyTokens, SplitTradingFee, AfterBuy, Trading, BookMoved, QuotedBuy, Lent,
         Drawn;
    var (pool, o) := (l.amm.pools[id], SideOf(yes));
    var (l', out) := Buy(l, now, trader, id, amountIn, minOut, deadline, yes, parent).value;
    var trade := PriceBuy(pool, amountIn, o).value;
    LiveMeansTrading(l, now, deadline, id);
    PricedQuote(pool, amountIn, o);
    BuyTokensGot(l'.vault, l.tokens, trader, pool.market, trade, Side(pool.market, o));
    BackingMinted(l'.vault, l.tokens, trader, pool.market, trade);
    match parent {
      case NoParent => CashBought(l.vault, l.reg, trader, pool.market, trade, pool.fee);
      case FromParent(_) => CreditBought(l.vault, l.reg, trader, pool.market, parent, trade, pool.fee);
    }
    assert Bought(l, l', trader, id, amountIn, trade.fee, out, o, parent);
  }

  lemma BackingMinted(v: VaultState, t: TokenState, trader: Address, m: nat, trade: Trade)
    requires BuyTokens(v, t, trader, m, trade).Ok?
    ensures Read(BuyTokens(v, t, trader, m, trade).value.backing, m) ==
            Read(t.backing, m) + trade.amountIn - trade.fee
  {
  }

  // ---------------------------------------------------------------- sales

  /** The quote of a sale: the tokens go into their reserve, `gross` sets leave both, as many as keep the old product up
      to rounding, and the fee is taken of those. */
  predicate QuotedSell(pool: Pool, amountIn: int, gross: int, fee: int, outcome: Outcome, after: Reserves) {
    var (own, other) := (pool.reserves.Of(outcome), pool.reserves.Of(Opposite(outcome)));
    && amountIn > 0 && own > 0 && other > 0 && 0 <= gross <= other
    && after.Of(outcome) == own + amountIn - gross && after.Of(Opposite(outcome)) == other - gross
    && (after.Of(outcome) - 1) * (after.Of(Opposite(outcome)) - 1) < own * other
    && 2 * (own * other - after.Of(outcome) * after.Of(Opposite(outcome))) <= own + amountIn + other
    && IsBps(fee, gross, pool.fee.tradingFeeBps)
  }

  lemma PricedSaleQuote(pool: Pool, amountIn: int, outcome: Outcome)
    requires PriceSell(pool, amountIn, outcome).Ok? && outcome != Invalid
    ensures var trade := PriceSell(pool, amountIn, outcome).value;
            && trade.fee >= 0 && trade.amountIn == amountIn && trade.outcome == outcome
            && QuotedSell(pool, amountIn, trade.gross, trade.fee, outcome,
                          AfterSell(pool, trade, SplitTradingFee(trade.fee, pool.fee)).reserves)
  {
    hide QuoteSell, Bps, SplitTradingFee, AccrueFees, IsBps;
    var trade := PriceSell(pool, amountIn, outcome).value;
    var (own, other) := (pool.reserves.Of(outcome), pool.reserves.Of(Opposite(outcome)));
    SalePositive(own, other, amountIn);
    BpsIs(trade.gross, pool.fee.tradingFeeBps);
    SellRoots(own, other, amountIn);
  }

  lemma SalePositive(own: int, other: int, amountIn: int)
    requires QuoteSell(own, other, amountIn).Ok?
    ensures own > 0 && other > 0 && amountIn > 0 && QuoteSell(own, other, amountIn).value >= 0
  {
    SellWithinReserves(own, other, amountIn);
  }

  lemma SellRoots(o: int, p: int, a: int)
    requires o > 0 && p > 0 && a > 0
    ensures QuoteSell(o, p, a).Ok?
    ensures var c := QuoteSell(o, p, a).value;
            && 0 <= c <= p
            && (o + a - c - 1) * (p - c - 1) < o * p
            && 2 * (o * p - (o + a - c) * (p - c)) <= o + a + p
  {
    SellWithinReserves(o, p, a);
    SellAgainstProduct(o, p, a);
    var c, s, d := SellQuote(o, p, a);
    assert s <= o + a + p;
  }

  /** The vault's side of a sale: the proceeds are paid, the fee is kept in the buckets, the stake falls by the tokens.
      */
  lemma VaultSold(v: VaultState, reg: RegistryState, q: Position, trade: Trade, config: FeeConfig)
    requires trade.fee >= 0 && SellVault(v, reg, q, trade, SplitTradingFee(trade.fee, config)).Ok?
    ensures var v' := SellVault(v, reg, q, trade, SplitTradingFee(trade.fee, config)).value;
            && BookMoved(v, v', q.market, trade.fee - trade.gross, trade.fee, config)
            && (forall p :: Stake(v', p) == if p == q then SaturatingSub(Stake(v, q), trade.amountIn) else Stake(v, p))
            && v'.debts == v.debts && v'.purse.balance == v.purse.balance - (trade.gross - trade.fee)
            && ChildDebt(v, Leg(q.market, q.user)) <= 0 && ParentDebt(v, q) <= 0
  {
    hide SplitTradingFee;
    SplitShares(AccountOf(v, q.market).fees, trade.fee, config);
  }

  lemma BackingMerged(v: VaultState, t: TokenState, trader: Address, m: nat, trade: Trade)
    requires SellTokens(v, t, trader, m, trade).Ok?
    ensures Read(SellTokens(v, t, trader, m, trade).value.backing, m) == Read(t.backing, m) - trade.gross
  {
  }

  /** What a sale moves, with that fee. */
  ghost predicate Sold(l: Ledger, l': Ledger, trader: Address, id: nat, amountIn: int, fee: int, paid: int, o: Outcome)
    requires id in l.amm.pools && id in l'.amm.pools
  {
    var (pool, m) := (l.amm.pools[id], l.amm.pools[id].market);
    && QuotedSell(pool, amountIn, paid + fee, fee, o, l'.amm.pools[id].reserves)
    && BookMoved(l.vault, l'.vault, m, -paid, fee, pool.fee)
    && l'.vault.purse.balance == l.vault.purse.balance - paid
    && Balance(l'.tokens, trader, Side(m, o)) == Balance(l.tokens, trader, Side(m, o)) - amountIn
    && Read(l'.tokens.backing, m) == Read(l.tokens.backing, m) - paid - fee
    && l'.vault.debts == l.vault.debts
    && forall p :: Stake(l'.vault, p) ==
         if p == Position(m, trader, o) then SaturatingSub(Stake(l.vault, p), amountIn) else Stake(l.vault, p)
  }

  /** A sale, from the state before: only while the pool trades, before the deadline, for at least the minimum, free of
      debt, and by exactly the amounts of the quote. */
  lemma SellTerms(l: Ledger, now: nat, trader: Address, id: nat, amountIn: int, minOut: int, deadline: nat, yes: bool)
    requires Sell(l, now, trader, id, amountIn, minOut, deadline, yes).Ok?
    ensures var (l', paid) := Sell(l, now, trader, id, amountIn, minOut, deadline, yes).value;
            && Trading(l, now, id) && now <= deadline && trader.Account? && paid >= minOut && id in l'.amm.pools
            && var m := l.amm.pools[id].market;
            && ChildDebt(l.vault, Leg(m, trader)) <= 0 && ParentDebt(l.vault, Position(m, trader, SideOf(yes))) <= 0
            && exists fee: int :: Sold(l, l', trader, id, amountIn, fee, paid, SideOf(yes))
  {
    hide RequireLive, PriceSell, SellVault, SellTokens, SplitTradingFee, AfterSell, Trading, BookMoved, QuotedSell;
    var (pool, o) := (l.amm.pools[id], SideOf(yes));
    var (l', paid) := Sell(l, now, trader, id, amountIn, minOut, deadline, yes).value;
    var trade := PriceSell(pool, amountIn, o).value;
    LiveMeansTrading(l, now, deadline, id);
    PricedSaleQuote(pool, amountIn, o);
    SellTokensGone(l.vault, l.tokens, trader, pool.market, trade, Side(pool.market, o));
    BackingMerged(l.vault, l.tokens, trader, pool.market, trade);
    VaultSold(l.vault, l.reg, Position(pool.market, trader, o), trade, pool.fee);
    assert Sold(l, l', trader, id, amountIn, trade.fee, paid, o);
  }

  // ---------------------------------------------------------------- transfers

  /** Tokens are transferred exactly in a positive amount that the sender has, while neither his leg in the market nor
      the position of that outcome owes anything; the receiver has them afterwards, and nobody else's balance
      changes. */
  lemma TransfersExactly(v: VaultState, t: TokenState, from: Address, to: Address, s: Side, amount: int)
    ensures TransferPosition(v, t, from, to, s, amount).Ok? <==>
            && amount > 0 && amount <= Balance(t, from, s)
            && ChildDebt(v, Leg(s.market, from)) <= 0 && ParentDebt(v, Position(s.market, from, s.outcome)) <= 0
    ensures TransferPosition(v, t, from, to, s, amount).Ok? ==>
              var t' := TransferPosition(v, t, from, to, s, amount).value;
              && t'.backing == t.backing && t'.burned == t.burned
              && forall owner, side ::
                   Balance(t', owner, side) == Balance(t, owner, side)
                   + (if side == s && owner == to then amount else 0)
                   - (if side == s && owner == from then amount else 0)
  {
    if TransferPosition(v, t, from, to, s, amount).Ok? {
      var t' := TransferPosition(v, t, from, to, s, amount).value;
      forall owner, side
        ensures Balance(t', owner, side) == Balance(t, owner, side)
                + (if side == s && owner == to then amount else 0) - (if side == s && owner == from then amount else 0)
      {
        TransferExactly(v, t, from, to, s, amount, owner, side);
      }
    }
  }
}
