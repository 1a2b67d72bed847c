/** Machine integers, errors and results shared by every module. */
module Types {
  import opened Arithmetic

  const U64_MAX: int := 0xFFFF_FFFF_FFFF_FFFF
  const U128_MAX: int := 0xFFFF_FFFF_FFFF_FFFF_FFFF_FFFF_FFFF_FFFF
  const I64_MIN: int := -0x8000_0000_0000_0000
  const I64_MAX: int := 0x7FFF_FFFF_FFFF_FFFF

  type u64 = x: int | 0 <= x <= U64_MAX
  type u128 = x: int | 0 <= x <= U128_MAX
  type i64 = x: int | I64_MIN <= x <= I64_MAX

  /** A public key, as far as the ledgers are concerned: only equality matters. */
  type Pubkey = nat

  /**
   * The program's error codes, followed by the failures raised by the framework
   * (AccountInUse, AccountMissing), by the token and system programs (TokenError,
   * SystemError) and by the Pump programs (ForeignError).
   */
  datatype Error =
    | ZeroAmount
    | InvalidLockDuration
    | MathOverflow
    | NoActiveStake
    | NoRewards
    | PositionLocked
    | InsufficientRewardReserve
    | UnclaimedCreatorFees
    | CannotShortenLock
    | InvalidMainRewardPool
    | InvalidPumpAccount
    | InvalidTokenAccount
    | AccountInUse
    | AccountMissing
    | TokenError
    | SystemError
    | ForeignError

  datatype Option<+T> = None | Some(value: T)

  datatype Result<+T> = Ok(value: T) | Err(error: Error) {
    predicate IsFailure() {
      Err?
    }

    /** Total, so that a check that can never fail may still be written as one. */
    function PropagateFailure<U>(): Result<U> {
      Err(if Err? then error else MathOverflow)
    }

    function Extract(): T
      requires Ok?
    {
      value
    }
  }

  /** What an instruction handler returns. */
  type Status = Result<()>

  // The `checked_*` operations of the machine integers; None of them wraps.

  function CheckedAdd64(a: u64, b: u64): Result<u64> {
    if a + b <= U64_MAX then Ok(a + b) else Err(MathOverflow)
  }

  function CheckedSub64(a: u64, b: u64): Result<u64> {
    if b <= a then Ok(a - b) else Err(MathOverflow)
  }

  function CheckedMul64(a: u64, b: u64): Result<u64> {
    if a * b <= U64_MAX then Ok(a * b) else Err(MathOverflow)
  }

  function CheckedAdd128(a: u128, b: u128): Result<u128> {
    if a + b <= U128_MAX then Ok(a + b) else Err(MathOverflow)
  }

  function CheckedSub128(a: u128, b: u128): Result<u128> {
    if b <= a then Ok(a - b) else Err(MathOverflow)
  }

  function CheckedMul128(a: u128, b: u128): Result<u128> {
    if a * b <= U128_MAX then Ok(a * b) else Err(MathOverflow)
  }

  function CheckedDiv128(a: u128, b: u128): Result<u128> {
    if b == 0 then
      Err(MathOverflow)
    else
      assert 0 <= a / b <= a by { DivBounds(a, b); }
      Ok(a / b)
  }

  function ToU64(a: u128): Result<u64> {
    if a <= U64_MAX then Ok(a) else Err(MathOverflow)
  }
}
