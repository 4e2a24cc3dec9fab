// What each operation of the collateral vault does to its records. Amounts are exact integers.

module VaultLedger {
  import opened Basics
  import opened DikeTypes
  import opened DikeMath
  import opened MarketRegistry
  import opened TokenLedger

  const INSURANCE_RESERVE_BPS := 2_000
  const LIQUIDATION_BONUS_BPS := 300

  datatype Cash = Cash(backing: int, refundable: int, redeemed: int, shortfall: int)
  datatype Loans = Loans(issued: int, repaid: int, defaulted: int)
  datatype Fees = Fees(lp: int, protocol: int, cod: int)
  datatype BondTotals = BondTotals(proposal: int, dispute: int)

  /** The account of one market. `dustCarry`, the odd unit an invalid refund leaves, has a storage key of
      its own in the contract. */
  datatype Accounting = Accounting(
    market: nat, cash: Cash, loans: Loans, fees: Fees, bonds: BondTotals, dustCarry: int)
  {
    /** Real backing moves together with what is refundable. */
    function Fund(x: int): Accounting {
      this.(cash := cash.(backing := cash.backing + x, refundable := cash.refundable + x))
    }

    function Lent(x: int): Accounting {
      Fund(-x).(loans := loans.(issued := loans.issued + x))
    }

    function RepaidBy(x: int): Accounting {
      Fund(x).(loans := loans.(repaid := loans.repaid + x))
    }

    /** A loss of `total`, of which insurance replaces `draw` and the rest becomes shortfall. */
    function Defaulted(total: int, draw: int): Accounting {
      this.(cash := cash.(backing := cash.backing + draw,
                          refundable := cash.refundable + draw,
                          shortfall := cash.shortfall + (total - draw)),
            loans := loans.(defaulted := loans.defaulted + total))
    }

    function Redeem(x: int): Accounting {
      this.(cash := cash.(redeemed := cash.redeemed + x, refundable := cash.refundable - x))
    }

    function TakeFees(lp: int, protocol: int, cod: int): Accounting {
      Fund(-(lp + protocol + cod)).(fees := Fees(fees.lp + lp, fees.protocol + protocol, fees.cod + cod))
    }
  }

  function NewAccount(m: nat): Accounting {
    Accounting(m, Cash(0, 0, 0, 0), Loans(0, 0, 0), Fees(0, 0, 0), BondTotals(0, 0), 0)
  }

  /** A user's stake on one outcome of a parent market. */
  datatype Position = Position(market: nat, user: Address, outcome: Outcome)

  /** A user's borrowed leg in a child market. */
  datatype Leg = Leg(market: nat, user: Address)

  datatype BondKey = BondKey(request: nat, user: Address, isDispute: bool)
  datatype Bond = Bond(amount: int, market: nat)

  /** What a market's redemptions did so far. The contract does not store it; the laws speak about it. */
  datatype History = History(
    upstream: int,  // claims paid into the parent market's book as child debt
    withheld: int,  // claims kept back against the redeemer's own parent debt
    gross: int,     // claims before any debt or haircut
    retired: int)   // tokens burned
  {
    function Claimed(g: int, tokens: int): History {
      this.(gross := gross + g, retired := retired + tokens)
    }
  }

  const NO_HISTORY := History(0, 0, 0, 0)

  /** The per-market records. */
  datatype Books = Books(accounts: map<nat, Accounting>, history: map<nat, History>)

  /** The three places where a draw is recorded. */
  datatype Debts = Debts(used: map<Position, int>, parentDebt: map<Position, int>, childDebt: map<Leg, int>)

  /** What a draw is made against: stakes, the parent position of each leg, and the legs of each position. */
  datatype Credit = Credit(stake: map<Position, int>, lender: map<Leg, Position>, children: map<Position, seq<nat>>)

  /** `paid` is history: what was paid out of bonds to whom. The contract does not store it. */
  datatype Escrow = Escrow(bonds: map<BondKey, Bond>, paid: map<Address, int>)

  /** The collateral the vault holds and the insurance slice of it. */
  datatype Purse = Purse(balance: int, reserve: int, paused: bool)

  datatype VaultState = VaultState(books: Books, debts: Debts, credit: Credit, escrow: Escrow, purse: Purse)

  const EMPTY_VAULT := VaultState(
    Books(map[], map[]), Debts(map[], map[], map[]), Credit(map[], map[], map[]), Escrow(map[], map[]),
    Purse(0, 0, false))

  // ---------------------------------------------------------------- reads

  function AccountOf(v: VaultState, m: nat): Accounting {
    if m in v.books.accounts then v.books.accounts[m] else NewAccount(m)
  }

  function HistoryOf(v: VaultState, m: nat): History {
    if m in v.books.history then v.books.history[m] else NO_HISTORY
  }

  function Stake(v: VaultState, q: Position): int {
    Read(v.credit.stake, q)
  }

  function Used(v: VaultState, q: Position): int {
    Read(v.debts.used, q)
  }

  function ParentDebt(v: VaultState, q: Position): int {
    Read(v.debts.parentDebt, q)
  }

  function ChildDebt(v: VaultState, leg: Leg): int {
    Read(v.debts.childDebt, leg)
  }

  /** Whether a leg was ever drawn. */
  predicate HasParent(v: VaultState, leg: Leg) {
    leg in v.credit.lender
  }

  /** The parent position a leg owes to: the market and outcome of its first draw. */
  function Lender(v: VaultState, leg: Leg): Position
    requires HasParent(v, leg)
  {
    v.credit.lender[leg]
  }

  function ChildrenOf(v: VaultState, q: Position): seq<nat> {
    if q in v.credit.children then v.credit.children[q] else []
  }

  function SaturatingSub(current: int, amount: int): int {
    if current > amount then current - amount else 0
  }

  // ---------------------------------------------------------------- writes

  function SetAccount(v: VaultState, m: nat, a: Accounting): VaultState {
    v.(books := v.books.(accounts := v.books.accounts[m := a]))
  }

  function SetHistory(v: VaultState, m: nat, h: History): VaultState {
    v.(books := v.books.(history := v.books.history[m := h]))
  }

  function SetChildDebt(v: VaultState, leg: Leg, x: int): VaultState {
    v.(debts := v.debts.(childDebt := v.debts.childDebt[leg := x]))
  }

  function SetParentDebt(v: VaultState, q: Position, x: int): VaultState {
    v.(debts := v.debts.(parentDebt := v.debts.parentDebt[q := x]))
  }

  function SetUsed(v: VaultState, q: Position, x: int): VaultState {
    v.(debts := v.debts.(used := v.debts.used[q := x]))
  }

  function SetStake(v: VaultState, q: Position, x: int): VaultState {
    v.(credit := v.credit.(stake := v.credit.stake[q := x]))
  }

  /** Collateral comes in (or, with a negative amount, goes out). */
  function Receive(v: VaultState, amount: int): VaultState {
    v.(purse := v.purse.(balance := v.purse.balance + amount))
  }

  /** Collateral leaves the vault; the token refuses when there is not enough. */
  function Pay(v: VaultState, amount: int): Result<VaultState> {
    if amount <= 0 then Ok(v)
    else if v.purse.balance < amount then Err(TransferTrapped)
    else Ok(Receive(v, -amount))
  }

  // ---------------------------------------------------------------- trading

  function Deposit(v: VaultState, reg: RegistryState, m: nat, amount: int): Result<VaultState> {
    if amount <= 0 then Err(InvalidAmount)
    else if v.purse.paused then Err(InvalidStatus)
    else if m !in reg.markets then Err(MarketNotFound)
    else
      var a := AccountOf(v, m);
      Ok(SetAccount(Receive(v, amount), m, a.Fund(amount)))
  }

  function RecordCashStake(v: VaultState, q: Position, collateralIn: int, tokensOut: int): Result<VaultState> {
    if collateralIn <= 0 || tokensOut <= 0 then Err(InvalidAmount)
    else Ok(SetStake(v, q, Stake(v, q) + collateralIn))
  }

  /** Whether `q.user` may draw `amount` against position q into market c. */
  function CreditAllowed(v: VaultState, reg: RegistryState, q: Position, c: nat, amount: int): Result<()> {
    if amount <= 0 then Err(InvalidAmount)
    else if q.market == c then Err(InvalidInput)
    else
      var market :- GetMarket(reg, q.market);
      if market.status != Live then Err(InvalidStatus)
      else if HasParent(v, Leg(q.market, q.user)) then Err(ChainDepthExceeded)
      else if HasParent(v, Leg(c, q.user)) && Lender(v, Leg(c, q.user)).market != q.market then Err(InvalidInput)
      else
        var limit :- CollateralLimit(Stake(v, q));
        if Used(v, q) + amount > limit then Err(ChildCollateralLimitExceeded)
        else
          var a := AccountOf(v, q.market);
          if a.cash.backing < amount || a.cash.refundable < amount then Err(InsufficientCollateral) else Ok(())
  }

  /** The three debt records of a draw, and the leg's link to its parent. */
  function RecordCredit(v: VaultState, q: Position, c: nat, amount: int): VaultState {
    var leg := Leg(c, q.user);
    var list := ChildrenOf(v, q);
    var v1 := SetUsed(v, q, Used(v, q) + amount);
    var v2 := SetChildDebt(v1, leg, ChildDebt(v, leg) + amount);
    var v3 := SetParentDebt(v2, q, ParentDebt(v, q) + amount);
    v3.(credit := v3.credit.(
          lender := if HasParent(v, leg) then v.credit.lender else v.credit.lender[leg := q],
          children := v.credit.children[q := if c in list then list else list + [c]]))
  }

  /** Credit reallocates the parent's own real backing; it conjures nothing. */
  function MoveBacking(v: VaultState, parent: nat, child: nat, amount: int): VaultState {
    var v1 := SetAccount(v, parent, AccountOf(v, parent).Lent(amount));
    SetAccount(v1, child, AccountOf(v1, child).Fund(amount))
  }

  function OpenCredit(v: VaultState, reg: RegistryState, q: Position, c: nat, amount: int): Result<VaultState> {
    var _ :- CreditAllowed(v, reg, q, c, amount);
    Ok(MoveBacking(RecordCredit(v, q, c, amount), q.market, c, amount))
  }

  function ReleaseTradePayout(v: VaultState, reg: RegistryState, q: Position, tokensSold: int, payout: int)
    : Result<VaultState>
  {
    if tokensSold <= 0 || payout <= 0 then Err(InvalidAmount)
    else if q.market !in reg.markets then Err(MarketNotFound)
    else if ChildDebt(v, Leg(q.market, q.user)) > 0 || ParentDebt(v, q) > 0 then Err(EncumberedPosition)
    else
      var v1 :- ExtractProceeds(v, q, tokensSold, payout);
      Pay(v1, payout)
  }

  function Unstake(v: VaultState, q: Position, amount: int): VaultState {
    SetStake(v, q, SaturatingSub(Stake(v, q), amount))
  }

  /** Proceeds of a sale leave a market's book. */
  function ExtractProceeds(v: VaultState, q: Position, tokensSold: int, proceeds: int): Result<VaultState> {
    var a := AccountOf(v, q.market);
    if a.cash.backing < proceeds || a.cash.refundable < proceeds then Err(InsufficientCollateral)
    else Ok(SetAccount(Unstake(v, q, tokensSold), q.market, a.Fund(-proceeds)))
  }

  function AssertTransferAllowed(v: VaultState, from: Address, s: Side, amount: int): Result<()> {
    if amount <= 0 then Err(InvalidAmount)
    else if ChildDebt(v, Leg(s.market, from)) > 0 || ParentDebt(v, Position(s.market, from, s.outcome)) > 0
    then Err(EncumberedPosition)
    else Ok(())
  }

  // ---------------------------------------------------------------- settling debt

  /** Part of a position's debt is repaid: both records fall and the parent's book is made whole. */
  function RepayLender(v: VaultState, q: Position, amount: int): VaultState {
    var a := AccountOf(v, q.market);
    var v1 := SetParentDebt(v, q, ParentDebt(v, q) - amount);
    var v2 := SetUsed(v1, q, SaturatingSub(Used(v, q), amount));
    SetAccount(v2, q.market, a.RepaidBy(amount))
  }

  /** What `repayment` can still pay off: no more than is owed here and upstream. */
  function Applicable(v: VaultState, leg: Leg, repayment: int): int {
    var debt := ChildDebt(v, leg);
    if repayment <= 0 || debt == 0 then 0
    else if !HasParent(v, leg) then Min(repayment, debt)
    else Min(repayment, Min(debt, ParentDebt(v, Lender(v, leg))))
  }

  function SettleChildDebt(v: VaultState, leg: Leg, repayment: int): (VaultState, int) {
    var debt := ChildDebt(v, leg);
    var applied := Applicable(v, leg, repayment);
    if repayment <= 0 || debt == 0 then (v, 0)
    else if HasParent(v, leg) && ParentDebt(v, Lender(v, leg)) == 0 then (SetChildDebt(v, leg, 0), 0)
    else if applied == 0 then (v, 0)
    else
      var v1 := SetChildDebt(v, leg, debt - applied);
      (if HasParent(v, leg) then RepayLender(v1, Lender(v, leg), applied) else v1, applied)
  }

  function RepayChildCollateral(v: VaultState, reg: RegistryState, leg: Leg, amount: int)
    : Result<(VaultState, int)>
  {
    if amount <= 0 then Err(InvalidAmount)
    else if leg.market !in reg.markets then Err(MarketNotFound)
    else
      var (v1, applied) := SettleChildDebt(Receive(v, amount), leg, amount);
      var v2 :- Pay(v1, amount - applied);
      Ok((v2, applied))
  }

  /** Default: first the insurance reserve, then the market's shortfall, take the loss. */
  function AbsorbDefault(v: VaultState, m: nat, total: int): VaultState {
    var draw := Min(total, v.purse.reserve);
    var v1 := SetAccount(v, m, AccountOf(v, m).Defaulted(total, draw));
    v1.(purse := v.purse.(reserve := v.purse.reserve - draw))
  }

  /** Writes the defaulted amount off the listed children, in list order. */
  function ClearChildren(v: VaultState, q: Position, list: seq<nat>, remaining: int): VaultState
    decreases |list|
  {
    if list == [] || remaining == 0 then v
    else
      var leg := Leg(list[0], q.user);
      var owed := ChildDebt(v, leg);
      if owed == 0 then ClearChildren(v, q, list[1..], remaining)
      else
        var cleared := Min(owed, remaining);
        ClearChildren(ClearOne(v, q, leg, cleared), q, list[1..], remaining - cleared)
  }

  function ClearOne(v: VaultState, q: Position, leg: Leg, cleared: int): VaultState {
    SetUsed(SetChildDebt(v, leg, ChildDebt(v, leg) - cleared), q, SaturatingSub(Used(v, q), cleared))
  }

  function ResolveParentDefault(v: VaultState, q: Position, total: int): VaultState {
    if total <= 0 then v
    else
      var v1 := AbsorbDefault(v, q.market, total);
      ClearChildren(SetParentDebt(v1, q, 0), q, ChildrenOf(v, q), total)
  }

  // ---------------------------------------------------------------- liquidation

  datatype Receipt = Receipt(proceeds: int, bonus: int, debtRepaid: int, remainder: int)

  /** Settles the listed children in order until the pool is spent. */
  function SettleChildren(v: VaultState, user: Address, list: seq<nat>, pool: int): (VaultState, int)
    decreases |list|
  {
    if list == [] || pool == 0 then (v, 0)
    else
      var (v1, applied) := SettleChildDebt(v, Leg(list[0], user), pool);
      var (v2, rest) := SettleChildren(v1, user, list[1..], pool - applied);
      (v2, applied + rest)
  }

  /** The bonus goes to the liquidator and what the debts left of the proceeds to the user. */
  function PayOut(routed: (VaultState, int), proceeds: int, bonus: int): Result<(VaultState, Receipt)> {
    var r := Receipt(proceeds, bonus, routed.1, proceeds - bonus - routed.1);
    var v1 :- Pay(routed.0, r.bonus);
    var v2 :- Pay(v1, r.remainder);
    Ok((v2, r))
  }

  /** The pool goes to the children's debts; what the position still owes is a default. */
  function RouteProceeds(v: VaultState, q: Position, pool: int): (VaultState, int) {
    var (v1, repaid) := SettleChildren(v, q.user, ChildrenOf(v, q), pool);
    (ResolveParentDefault(v1, q, Used(v1, q)), repaid)
  }

  function LiquidateRelease(v: VaultState, reg: RegistryState, q: Position, tokensSold: int, proceeds: int)
    : Result<(VaultState, Receipt)>
  {
    if tokensSold <= 0 || proceeds <= 0 then Err(InvalidAmount)
    else if q.market !in reg.markets then Err(MarketNotFound)
    else if Used(v, q) == 0 then Err(InvalidInput)
    else
      var v1 :- ExtractProceeds(v, q, tokensSold, proceeds);
      ShareProceeds(v1, q, proceeds, Bps(proceeds, LIQUIDATION_BONUS_BPS))
  }

  function ShareProceeds(v: VaultState, q: Position, proceeds: int, bonus: int): Result<(VaultState, Receipt)> {
    PayOut(RouteProceeds(v, q, proceeds - bonus), proceeds, bonus)
  }

  /** The same for one leg: its own debt first; what it still owes is a default of its parent position. */
  function CloseLeg(v: VaultState, leg: Leg, pool: int): (VaultState, int) {
    var (v1, applied) := SettleChildDebt(v, leg, pool);
    (DefaultLeg(v1, leg), applied)
  }

  function LiquidateChildRelease(v: VaultState, reg: RegistryState, q: Position, tokensSold: int, proceeds: int)
    : Result<(VaultState, Receipt)>
  {
    if tokensSold <= 0 || proceeds <= 0 then Err(InvalidAmount)
    else if q.market !in reg.markets then Err(MarketNotFound)
    else if ChildDebt(v, Leg(q.market, q.user)) == 0 then Err(InvalidInput)
    else
      var v1 :- ExtractProceeds(v, q, tokensSold, proceeds);
      ShareLegProceeds(v1, Leg(q.market, q.user), proceeds, Bps(proceeds, LIQUIDATION_BONUS_BPS))
  }

  function ShareLegProceeds(v: VaultState, leg: Leg, proceeds: int, bonus: int): Result<(VaultState, Receipt)> {
    PayOut(CloseLeg(v, leg, proceeds - bonus), proceeds, bonus)
  }

  /** What a closed leg still owes lands on its parent's book. */
  function DefaultLeg(v: VaultState, leg: Leg): VaultState {
    var stillOwed := ChildDebt(v, leg);
    if stillOwed > 0 && HasParent(v, leg) then ResolveParentDefault(v, Lender(v, leg), stillOwed) else v
  }

  // ---------------------------------------------------------------- redemption

  /** A claim against real backing: scaled by the haircut ratio, never above what is left. */
  function CappedPayout(a: Accounting, gross: int): int {
    var remaining := a.cash.backing - a.cash.redeemed;
    if gross <= 0 || a.cash.backing <= 0 || remaining <= 0 then 0
    else
      // backing + shortfall is positive here whenever the shortfall is not negative
      var claim := if a.cash.shortfall == 0 || a.cash.backing + a.cash.shortfall == 0 then gross
                   else TruncDiv(gross * a.cash.backing, a.cash.backing + a.cash.shortfall);
      Min(claim, remaining)
  }

  /** What `amount` tokens of `redeemed` are worth under the final outcome, and the new dust carry. */
  function Entitlement(final: Outcome, redeemed: Outcome, amount: int, carry: int): (int, int) {
    if final == Invalid then HalfRefund(amount, carry)
    else (if redeemed == final then amount else 0, carry)
  }

  function HalfRefund(amount: int, carry: int): (int, int) {
    var effective := carry + amount;
    var refund := InvalidRefund(effective);
    (refund, effective - 2 * refund)
  }

  /** A redeeming leg first pays its own debt out of its claim: this book is debited, the parent's credited. */
  function PayUpstream(v: VaultState, leg: Leg, claim: int): (VaultState, int) {
    var (v1, paid) := SettleChildDebt(v, leg, claim);
    (if paid > 0 then DebitUpstream(v1, leg.market, paid) else v1, paid)
  }

  function DebitUpstream(v: VaultState, m: nat, paid: int): VaultState {
    NoteUpstream(SetAccount(v, m, AccountOf(v, m).Fund(-paid)), m, paid)
  }

  function NoteUpstream(v: VaultState, m: nat, paid: int): VaultState {
    var h := HistoryOf(v, m);
    SetHistory(v, m, h.(upstream := h.upstream + paid))
  }

  function NoteWithheld(v: VaultState, m: nat, kept: int): VaultState {
    var h := HistoryOf(v, m);
    SetHistory(v, m, h.(withheld := h.withheld + kept))
  }

  /** A redeemer who is also a borrower has the claim kept back against that debt. */
  function Withhold(v: VaultState, q: Position, claim: int): (VaultState, int) {
    var kept := Min(claim, ParentDebt(v, q));
    if ParentDebt(v, q) > 0 && kept > 0 then (NoteWithheld(RepayLender(v, q, kept), q.market, kept), kept)
    else (v, kept)
  }

  /** A worthless claim leaves the borrower's debt uncollectable. */
  function DefaultIfWorthless(v: VaultState, q: Position, gross: int): VaultState {
    if gross == 0 && ParentDebt(v, q) > 0 then ResolveParentDefault(v, q, ParentDebt(v, q)) else v
  }

  /** Cash leaves the book and the vault. */
  function PayClaim(v: VaultState, m: nat, payout: int): Result<VaultState> {
    if payout <= 0 then Ok(v)
    else
      var a := AccountOf(v, m);
      Pay(SetAccount(v, m, a.Redeem(payout)), payout)
  }

  function NoteClaim(v: VaultState, m: nat, gross: int, retired: int): VaultState {
    SetHistory(v, m, HistoryOf(v, m).Claimed(gross, retired))
  }

  function SetDust(v: VaultState, m: nat, carry: int): VaultState {
    SetAccount(v, m, AccountOf(v, m).(dustCarry := carry))
  }

  /** The debts of a redeemer come out of the claim before any cash: own debt upstream, then as a borrower.
      Returns what is left of the claim. */
  function ClaimAfterDebt(v: VaultState, q: Position, gross: int): (VaultState, int) {
    var (v1, upstream) := PayUpstream(v, Leg(q.market, q.user), gross);
    ClaimAfterUpstream(v1, q, gross, upstream)
  }

  function ClaimAfterUpstream(v: VaultState, q: Position, gross: int, upstream: int): (VaultState, int) {
    var (v1, kept) := Withhold(v, q, gross - upstream);
    (DefaultIfWorthless(v1, q, gross), gross - upstream - kept)
  }

  /** A claim is opened: the tokens count as retired, the dust carry moves, the gross value is fixed. */
  function OpenClaim(v: VaultState, m: nat, final: Outcome, redeemed: Outcome, amount: int): (VaultState, int) {
    var (gross, carry) := Entitlement(final, redeemed, amount, AccountOf(v, m).dustCarry);
    (NoteClaim(if final == Invalid then SetDust(v, m, carry) else v, m, gross, amount), gross)
  }

  /** A claim that is worth something retires the stake behind it. */
  function RetireStake(v: VaultState, q: Position, gross: int): VaultState {
    if gross > 0 then Unstake(v, q, gross) else v
  }

  /** What is left of a claim is capped and paid in cash. */
  function SettleClaim(v: VaultState, q: Position, gross: int): Result<(VaultState, int)> {
    var (v1, rest) := ClaimAfterDebt(v, q, gross);
    var payout := CappedPayout(AccountOf(v1, q.market), rest);
    var v2 :- PayClaim(RetireStake(v1, q, gross), q.market, payout);
    Ok((v2, payout))
  }

  function RedeemResolved(v: VaultState, reg: RegistryState, t: TokenState, q: Position, amount: int)
    : Result<(VaultState, TokenState, int)>
  {
    if amount <= 0 then Err(InvalidAmount)
    else
      var _ :- GetMarket(reg, q.market);
      var final :- GetFinalOutcome(reg, q.market);
      var t1 :- Burn(t, q.user, Side(q.market, q.outcome), amount);
      var (v1, gross) := OpenClaim(v, q.market, final, q.outcome, amount);
      var (v2, payout) :- SettleClaim(v1, q, gross);
      Ok((v2, t1, payout))
  }

  /** A refund of a cancelled market: no upstream debt is settled and no stake is released. */
  function SettleRefund(v: VaultState, q: Position, gross: int): Result<(VaultState, int)> {
    var (v1, kept) := Withhold(v, q, gross);
    var v2 := DefaultIfWorthless(v1, q, gross);
    var payout := CappedPayout(AccountOf(v2, q.market), gross - kept);
    var v3 :- PayClaim(v2, q.market, payout);
    Ok((v3, payout))
  }

  function RedeemCancelled(v: VaultState, reg: RegistryState, t: TokenState, q: Position, amount: int)
    : Result<(VaultState, TokenState, int)>
  {
    if amount <= 0 then Err(InvalidAmount)
    else
      var market :- GetMarket(reg, q.market);
      if market.status != Cancelled then Err(InvalidStatus)
      else
        var t1 :- Burn(t, q.user, Side(q.market, q.outcome), amount);
        var (v1, gross) := OpenClaim(v, q.market, Invalid, q.outcome, amount);
        var (v2, payout) :- SettleRefund(v1, q, gross);
        Ok((v2, t1, payout))
  }

  // ---------------------------------------------------------------- bonds and fees

  function AddBonds(a: Accounting, isDispute: bool, amount: int): Accounting {
    if isDispute then a.(bonds := a.bonds.(dispute := a.bonds.dispute + amount))
    else a.(bonds := a.bonds.(proposal := a.bonds.proposal + amount))
  }

  function SetBond(v: VaultState, key: BondKey, bond: Bond): VaultState {
    v.(escrow := v.escrow.(bonds := v.escrow.bonds[key := bond]))
  }

  function LockBond(v: VaultState, reg: RegistryState, key: BondKey, m: nat, amount: int): Result<VaultState> {
    if amount <= 0 then Err(InvalidAmount)
    else if m !in reg.markets then Err(MarketNotFound)
    else if key in v.escrow.bonds then Err(InvalidInput)
    else
      var v1 := SetBond(Receive(v, amount), key, Bond(amount, m));
      Ok(SetAccount(v1, m, AddBonds(AccountOf(v, m), key.isDispute, amount)))
  }

  /** Part of a bond is paid out: `release_bond` pays the one who locked it, `slash_bond` somebody else. */
  function UnlockBond(v: VaultState, key: BondKey, to: Address, amount: int): Result<VaultState> {
    if amount <= 0 then Err(InvalidAmount)
    else if key !in v.escrow.bonds then Err(InsufficientBalance)
    else
      var bond := v.escrow.bonds[key];
      if bond.amount < amount then Err(InsufficientBalance)
      else Pay(NotePaid(DebitBond(v, key, bond, amount), to, amount), amount)
  }

  function NotePaid(v: VaultState, to: Address, amount: int): VaultState {
    v.(escrow := v.escrow.(paid := v.escrow.paid[to := Read(v.escrow.paid, to) + amount]))
  }

  function DebitBond(v: VaultState, key: BondKey, bond: Bond, amount: int): VaultState {
    SetAccount(SetBond(v, key, Bond(bond.amount - amount, bond.market)), bond.market,
               AddBonds(AccountOf(v, bond.market), key.isDispute, -amount))
  }

  function CollectFee(v: VaultState, m: nat, lp: int, protocol: int, cod: int): Result<VaultState> {
    if lp < 0 || protocol < 0 || cod < 0 then Err(InvalidAmount)
    else
      var total := lp + protocol + cod;
      var a := AccountOf(v, m);
      if a.cash.backing < total || a.cash.refundable < total then Err(InsufficientCollateral)
      else Ok(SetAccount(v, m, a.TakeFees(lp, protocol, cod)))
  }

  function PayLpFees(v: VaultState, reg: RegistryState, m: nat, amount: int): Result<VaultState> {
    if amount <= 0 then Err(InvalidAmount)
    else if m !in reg.markets then Err(MarketNotFound)
    else
      var a := AccountOf(v, m);
      if a.fees.lp < amount then Err(InsufficientBalance)
      else Pay(SetAccount(v, m, a.(fees := a.fees.(lp := a.fees.lp - amount))), amount)
  }

  function SweepProtocolFees(v: VaultState, reg: RegistryState, m: nat): Result<(VaultState, int)> {
    if m !in reg.markets then Err(MarketNotFound)
    else
      var a := AccountOf(v, m);
      var amount := a.fees.protocol + a.fees.cod;
      var v1 := SetAccount(v, m, a.(fees := a.fees.(protocol := 0, cod := 0)));
      if amount <= 0 then Ok((v1, amount))
      else
        var cut := Bps(amount, INSURANCE_RESERVE_BPS);
        var v2 :- Pay(v1.(purse := v1.purse.(reserve := v1.purse.reserve + cut)), amount - cut);
        Ok((v2, amount))
  }
}
