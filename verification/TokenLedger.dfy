// The conditional-token ledger: YES/NO balances, the backing counter, and the complete-set law.

module TokenLedger {
  import opened DikeTypes
  import opened MapSums

  datatype Side = Side(market: nat, outcome: Outcome)

  /** `burned` is history: what redemption and losing burns removed. The contract does not store it. */
  datatype TokenState = TokenState(
    balances: map<Side, map<Address, int>>,
    backing: map<nat, int>,
    burned: map<Side, int>)

  const NO_TOKENS := TokenState(map[], map[], map[])

  function Holders(t: TokenState, s: Side): map<Address, int> {
    if s in t.balances then t.balances[s] else map[]
  }

  function Balance(t: TokenState, owner: Address, s: Side): int {
    Read(Holders(t, s), owner)
  }

  function AddBalance(t: TokenState, owner: Address, s: Side, amount: int): TokenState {
    t.(balances := t.balances[s := Holders(t, s)[owner := Balance(t, owner, s) + amount]])
  }

  function SubBalance(t: TokenState, owner: Address, s: Side, amount: int): Result<TokenState> {
    if Balance(t, owner, s) < amount then Err(InsufficientBalance)
    else Ok(AddBalance(t, owner, s, -amount))
  }

  function MintCompleteSet(t: TokenState, to: Address, m: nat, amount: int): Result<TokenState> {
    if amount <= 0 then Err(InvalidAmount)
    else
      var t1 := AddBalance(t, to, Side(m, Yes), amount);
      var t2 := AddBalance(t1, to, Side(m, No), amount);
      Ok(t2.(backing := t2.backing[m := Read(t2.backing, m) + amount]))
  }

  function MergePositions(t: TokenState, user: Address, m: nat, amount: int): Result<TokenState> {
    if amount <= 0 then Err(InvalidAmount)
    else
      var t1 :- SubBalance(t, user, Side(m, Yes), amount);
      var t2 :- SubBalance(t1, user, Side(m, No), amount);
      if Read(t2.backing, m) < amount then Err(InsufficientCollateral)
      else Ok(t2.(backing := t2.backing[m := Read(t2.backing, m) - amount]))
  }

  /** What every transfer does once it is allowed. */
  function MovePosition(t: TokenState, from: Address, to: Address, s: Side, amount: int): Result<TokenState> {
    if amount <= 0 then Err(InvalidAmount)
    else
      var t1 :- SubBalance(t, from, s, amount);
      Ok(AddBalance(t1, to, s, amount))
  }

  /** `burn_for_redeem` and `burn_losing` change the ledger alike: the backing stays. */
  function Burn(t: TokenState, owner: Address, s: Side, amount: int): Result<TokenState> {
    if amount <= 0 then Err(InvalidAmount)
    else
      var t1 :- SubBalance(t, owner, s, amount);
      Ok(t1.(burned := t1.burned[s := Read(t1.burned, s) + amount]))
  }

  // ---------------------------------------------------------------- the complete-set law

  ghost function Supply(t: TokenState, s: Side): int {
    SumBy(Holders(t, s), Identity)
  }

  ghost predicate NonNegative(t: TokenState) {
    && (forall s, owner :: s in t.balances && owner in t.balances[s] ==> t.balances[s][owner] >= 0)
    && (forall s :: s in t.burned ==> t.burned[s] >= 0)
  }

  /** Every unit of backing stands behind one YES and one NO, outstanding or burned; nothing else exists. */
  ghost predicate CompleteSets(t: TokenState, m: nat) {
    && Supply(t, Side(m, Yes)) + Read(t.burned, Side(m, Yes)) == Read(t.backing, m)
    && Supply(t, Side(m, No)) + Read(t.burned, Side(m, No)) == Read(t.backing, m)
    && Supply(t, Side(m, Invalid)) == 0
  }

  ghost predicate ValidTokens(t: TokenState) {
    NonNegative(t) && forall m: nat :: CompleteSets(t, m)
  }

  lemma AddBalanceSupply(t: TokenState, owner: Address, s: Side, amount: int, s': Side)
    ensures Supply(AddBalance(t, owner, s, amount), s') == Supply(t, s') + (if s' == s then amount else 0)
  {
    if s' == s {
      SumByUpdate(Holders(t, s), Identity, owner, Balance(t, owner, s) + amount);
      assert Holders(AddBalance(t, owner, s, amount), s) == Holders(t, s)[owner := Balance(t, owner, s) + amount];
    } else {
      assert Holders(AddBalance(t, owner, s, amount), s') == Holders(t, s');
    }
  }

  /** A holder never owns more than exists. */
  lemma BalanceWithinSupply(t: TokenState, owner: Address, s: Side)
    requires NonNegative(t)
    ensures 0 <= Balance(t, owner, s) <= Supply(t, s)
  {
    var h := Holders(t, s);
    forall k | k in h
      ensures Identity(h[k]) >= 0
    {
    }
    if owner in h {
      SumByMember(h, Identity, owner);
    } else {
      SumByNonNegative(h, Identity);
    }
  }

  lemma MintKeeps(t: TokenState, to: Address, m: nat, amount: int)
    requires ValidTokens(t) && MintCompleteSet(t, to, m, amount).Ok?
    ensures ValidTokens(MintCompleteSet(t, to, m, amount).value)
  {
    var t1 := AddBalance(t, to, Side(m, Yes), amount);
    var t2 := AddBalance(t1, to, Side(m, No), amount);
    var t3 := MintCompleteSet(t, to, m, amount).value;
    BalanceWithinSupply(t, to, Side(m, Yes));
    BalanceWithinSupply(t1, to, Side(m, No));
    forall k: nat
      ensures CompleteSets(t3, k)
    {
      assert CompleteSets(t, k);
      SuppliesAfterPair(t, to, m, amount, amount, k);
      SuppliesIgnoreCounters(t2, t3, k);
    }
  }

  /** The three supplies of market k after a YES and a NO adjustment in market m. */
  lemma SuppliesAfterPair(t: TokenState, owner: Address, m: nat, yes: int, no: int, k: nat)
    ensures var t2 := AddBalance(AddBalance(t, owner, Side(m, Yes), yes), owner, Side(m, No), no);
            && Supply(t2, Side(k, Yes)) == Supply(t, Side(k, Yes)) + (if k == m then yes else 0)
            && Supply(t2, Side(k, No)) == Supply(t, Side(k, No)) + (if k == m then no else 0)
            && Supply(t2, Side(k, Invalid)) == Supply(t, Side(k, Invalid))
  {
    var t1 := AddBalance(t, owner, Side(m, Yes), yes);
    forall o: Outcome
      ensures Supply(t1, Side(k, o)) == Supply(t, Side(k, o)) + (if k == m && o == Yes then yes else 0)
      ensures Supply(AddBalance(t1, owner, Side(m, No), no), Side(k, o))
           == Supply(t1, Side(k, o)) + (if k == m && o == No then no else 0)
    {
      AddBalanceSupply(t, owner, Side(m, Yes), yes, Side(k, o));
      AddBalanceSupply(t1, owner, Side(m, No), no, Side(k, o));
    }
  }

  lemma SuppliesIgnoreCounters(t: TokenState, t': TokenState, k: nat)
    requires t.balances == t'.balances
    ensures forall o: Outcome :: Supply(t', Side(k, o)) == Supply(t, Side(k, o))
  {
  }

  lemma MergeKeeps(t: TokenState, user: Address, m: nat, amount: int)
    requires ValidTokens(t) && MergePositions(t, user, m, amount).Ok?
    ensures ValidTokens(MergePositions(t, user, m, amount).value)
  {
    var t1 := AddBalance(t, user, Side(m, Yes), -amount);
    var t2 := AddBalance(t1, user, Side(m, No), -amount);
    var t3 := MergePositions(t, user, m, amount).value;
    forall k: nat
      ensures CompleteSets(t3, k)
    {
      assert CompleteSets(t, k);
      SuppliesAfterPair(t, user, m, -amount, -amount, k);
      SuppliesIgnoreCounters(t2, t3, k);
    }
  }

  /** The backing check of a merge is redundant: it never fails once both balances suffice. */
  lemma MergeNeverLacksBacking(t: TokenState, user: Address, m: nat, amount: int)
    requires ValidTokens(t) && amount > 0
    ensures MergePositions(t, user, m, amount).Ok?
       <==> Balance(t, user, Side(m, Yes)) >= amount && Balance(t, user, Side(m, No)) >= amount
    ensures MergePositions(t, user, m, amount) != Err(InsufficientCollateral)
  {
    assert CompleteSets(t, m);
    BalanceWithinSupply(t, user, Side(m, Yes));
  }

  lemma MoveKeeps(t: TokenState, from: Address, to: Address, s: Side, amount: int)
    requires ValidTokens(t) && MovePosition(t, from, to, s, amount).Ok?
    ensures ValidTokens(MovePosition(t, from, to, s, amount).value)
  {
    var t1 := AddBalance(t, from, s, -amount);
    var t2 := MovePosition(t, from, to, s, amount).value;
    BalanceWithinSupply(t1, to, s) by {
      assert NonNegative(t1);
    }
    forall k: nat
      ensures CompleteSets(t2, k)
    {
      assert CompleteSets(t, k);
      forall o: Outcome
        ensures Supply(t2, Side(k, o)) == Supply(t, Side(k, o))
      {
        AddBalanceSupply(t, from, s, -amount, Side(k, o));
        AddBalanceSupply(t1, to, s, amount, Side(k, o));
      }
    }
  }

  /** A transfer to oneself changes nothing, and otherwise exactly two balances change. */
  lemma MoveExactly(t: TokenState, from: Address, to: Address, s: Side, amount: int)
    requires MovePosition(t, from, to, s, amount).Ok?
    ensures var t' := MovePosition(t, from, to, s, amount).value;
            && (from == to ==> t' == t)
            && (forall owner, s' :: Balance(t', owner, s') == Balance(t, owner, s')
                  - (if owner == from && s' == s then amount else 0)
                  + (if owner == to && s' == s then amount else 0))
  {
    var t' := MovePosition(t, from, to, s, amount).value;
    if from == to {
      assert t'.balances[s] == t.balances[s];
      assert t'.balances == t.balances;
    }
  }

  lemma BurnKeeps(t: TokenState, owner: Address, s: Side, amount: int)
    requires ValidTokens(t) && Burn(t, owner, s, amount).Ok?
    ensures ValidTokens(Burn(t, owner, s, amount).value)
    ensures s.outcome != Invalid
  {
    var t1 := AddBalance(t, owner, s, -amount);
    var t2 := Burn(t, owner, s, amount).value;
    assert CompleteSets(t, s.market);
    BalanceWithinSupply(t, owner, s);
    forall k: nat
      ensures CompleteSets(t2, k)
    {
      assert CompleteSets(t, k);
      forall o: Outcome
        ensures Supply(t2, Side(k, o)) == Supply(t, Side(k, o)) - (if Side(k, o) == s then amount else 0)
      {
        AddBalanceSupply(t, owner, s, -amount, Side(k, o));
        SuppliesIgnoreCounters(t1, t2, k);
      }
    }
  }
}
