// The shared vocabulary of the contracts: outcomes, statuses, errors, fee configuration.

module DikeTypes {

  datatype Outcome = Yes | No | Invalid

  datatype MarketStatus =
    | Created
    | Live
    | Paused
    | TradingClosed
    | ResolutionRequested
    | Proposed
    | Disputed
    | CouncilVoting
    | Resolved
    | Cancelled

  datatype Error =
    | Unauthorized
    | InvalidAmount
    | InvalidInput
    | InvalidStatus
    | InvalidTransition
    | MarketNotFound
    | PoolNotFound
    | RequestNotFound
    | CaseNotFound
    | AlreadyResolved
    | InsufficientBalance
    | InsufficientCollateral
    | SlippageExceeded
    | DeadlineExpired
    | NotExpired
    | DisputeWindowOpen
    | DisputeWindowClosed
    | EvidenceRequired
    | InvalidReveal
    | VoteAlreadyCommitted
    | VoteNotCommitted
    | TooEarly
    | ActionConsumed
    | ArithmeticError
    | ChainDepthExceeded
    | ChildCollateralLimitExceeded
    | EncumberedPosition
    | NotLiquidatable
    | TransferTrapped  // the collateral token refused to move more than the sender holds
    | ReentryTrapped  // the host refused to enter a contract that is still running

  /** The outcome of a contract call: a value, or the error that reverts the transaction. */
  datatype Result<+T> = Ok(value: T) | Err(error: Error) {

    predicate IsFailure() {
      Err?
    }

    function PropagateFailure<U>(): Result<U>
      requires Err?
    {
      Err(error)
    }

    function Extract(): T
      requires Ok?
    {
      value
    }
  }

  /** Whoever can hold collateral or positions, the vault itself excepted.
      Only an `Account` can sign a top-level call. */
  datatype Address =
    | Account(id: nat)
    | AmmContract
    | CouncilContract
    | Treasury

  /** `require_auth` on a top-level call. */
  function RequireAuth(who: Address): Result<()> {
    if who.Account? then Ok(()) else Err(Unauthorized)
  }

  const BPS_DENOMINATOR := 10_000
  const CHILD_COLLATERAL_BPS := 6_000

  datatype FeeConfig = FeeConfig(
    tradingFeeBps: nat,
    lpShareBps: nat,
    treasuryShareBps: nat,
    codShareBps: nat)
  {
    /** The three shares split the fee completely and the fee itself is at most ten per cent. */
    predicate Valid() {
      && lpShareBps + treasuryShareBps + codShareBps == BPS_DENOMINATOR
      && tradingFeeBps <= 1_000
    }
  }

  /** A storage read with the default zero. */
  function Read<K>(m: map<K, int>, k: K): int {
    if k in m then m[k] else 0
  }
}
