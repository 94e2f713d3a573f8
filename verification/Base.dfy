/** Machine integers, addresses and the failure types shared by every contract model. */
module Base {

  const U32_MAX: int := 0xFFFF_FFFF
  const U64_MAX: int := 0xFFFF_FFFF_FFFF_FFFF
  const I128_MAX: int := 0x7FFF_FFFF_FFFF_FFFF_FFFF_FFFF_FFFF_FFFF

  type u32 = n: int | 0 <= n <= U32_MAX
  type u64 = n: int | 0 <= n <= U64_MAX
  type i128 = n: int | -I128_MAX - 1 <= n <= I128_MAX
  type Positive = n: int | 0 < n <= I128_MAX witness 1

  /** Accounts and contracts alike; only equality matters. */
  type Address = nat

  datatype Option<+T> = None | Some(value: T)

  /** Why a transaction is reverted: the panic messages and error codes of the
      contracts, plus the host's own reasons (overflow checks are on in the
      release profile, contracts/Cargo.toml:21). */
  datatype Error =
    | Overflow | NotAuthorized | Paused | TransferRefused | InvocationFailed
    | AmountNotPositive | NegativeMinimum | LimitNotPositive | LimitExceedsDeposit
    | ChannelNotFound | ChannelClosed | NotAgent | NotOwner
    | SpendLimitExceeded | InsufficientCollateral
    | QuoteExpired | RouteNotEmpty | RouteEmpty | RouteTooLong | RouteDiscontinuity
    | HopKeepsAsset | NegativeMinOut | VenueIsSelf | RouteCycle | RouteMissesDestination
    | MinimumNotMet | NotConfigured | PriceUnavailable | PriceStale | SlippageTooLarge | NoRate
    | WindowTooShort | VouchersDisabled | NoAllocation | VoucherNotPositive
    | ExceedsAllocation | AlreadySettled | BadSignature | CloseInFlight | NoClose
    | ChallengeOver | NotSuperseding | WindowOpen | NothingOwed
    | NotAdmin | AlreadyInitialized | NotInitialized
    | WrongStatus | NotFound | BadDeadline | NotParty | NoArbiter
    | Duplicate | TooMany | NotDue | QuorumNotReached | Cooldown
    | EmptyOwners | InvalidThreshold | AlreadyApproved | Expired
    | TimelockNotElapsed | ThresholdNotMet | SelfCallOnly | InvalidTtl | InvalidTimelock

  /** The outcome of a transaction: a panic or a returned `Err` reverts it. */
  datatype Result<+T> = Ok(value: T) | Err(error: Error) {
    predicate IsFailure() { Err? }

    function PropagateFailure<U>(): Result<U>
      requires Err?
    {
      Err(error)
    }

    function Extract(): T
      requires Ok?
    {
      value
    }
  }

  /** A guard: either passes or says why the transaction is reverted. */
  function Need(condition: bool, error: Error): Result<()> {
    if condition then Ok(()) else Err(error)
  }

  function Min(a: int, b: int): int { if a < b then a else b }

  function Max(a: int, b: int): int { if a < b then b else a }

  /** The state a transaction leaves: unchanged when it is reverted. */
  function After<S, V>(before: S, outcome: Result<(S, V)>): S {
    if outcome.Ok? then outcome.value.0 else before
  }

  /** What the caller sees of a transaction. */
  function Seen<S, V>(outcome: Result<(S, V)>): Result<V> {
    if outcome.Ok? then Ok(outcome.value.1) else Err(outcome.error)
  }
}
