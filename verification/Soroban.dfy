/** What the contracts take from the host: machine integers with checked
    arithmetic, addresses, optional storage entries and the ways a call fails. */
module Soroban {

  const U32_MAX: int := 0xFFFF_FFFF
  const U64_MAX: int := 0xFFFF_FFFF_FFFF_FFFF
  const I128_MAX: int := 0x7FFF_FFFF_FFFF_FFFF_FFFF_FFFF_FFFF_FFFF
  const I128_MIN: int := -0x8000_0000_0000_0000_0000_0000_0000_0000

  type U32 = x: int | 0 <= x <= U32_MAX
  type U64 = x: int | 0 <= x <= U64_MAX
  type I128 = x: int | I128_MIN <= x <= I128_MAX

  datatype Address = Address(key: nat)

  datatype Option<+T> = None | Some(value: T)

  datatype StreamError =
    | StreamNotInitialized
    | StreamUnauthorized
    | StreamInvalidAmount
    | InvalidTimeRange
    | InvalidCliff
    | StreamNotFound
    | ExceedsWithdrawable
    | NotCancellable
    | AlreadyFinalized
    | StreamMathOverflow
    | Paused

  datatype VaultError =
    | VaultNotInitialized
    | VaultUnauthorized
    | VaultInvalidAmount
    | InsufficientBalance
    | VaultMathOverflow
    | TokenMismatch

  datatype RegistryError =
    | RegistryAlreadyInitialized
    | RegistryInvalidAmount
    | AlreadyRegistered
    | RecordNotFound
    | RegistryMathOverflow

  /** Every way an invocation can end without effect. A vault error reaches the
      caller of the stream contract as a trap of the nested call. */
  datatype Failure =
    | StreamFailure(streamError: StreamError)
    | VaultFailure(vaultError: VaultError)
    | RegistryFailure(registryError: RegistryError)
    | AuthFailure
    | TokenFailure
    | HostTrap

  datatype Outcome<+T> = Ok(value: T) | Err(error: Failure) {
    predicate IsFailure() {
      Err?
    }

    function PropagateFailure<U>(): Outcome<U>
      requires Err?
    {
      Err(error)
    }

    function Extract(): T
      requires Ok?
    {
      value
    }
  }

  datatype Unit = Unit

  /** A guard: continue, or fail with the given reason. */
  datatype Guard = Pass | Fail(failure: Failure) {
    predicate IsFailure() {
      Fail?
    }

    function PropagateFailure<U>(): Outcome<U>
      requires Fail?
    {
      Err(failure)
    }
  }

  function Check(condition: bool, failure: Failure): Guard {
    if condition then Pass else Fail(failure)
  }

  predicate FitsI128(x: int) {
    I128_MIN <= x <= I128_MAX
  }

  function Checked(x: int, failure: Failure): Outcome<I128> {
    if FitsI128(x) then Ok(x) else Err(failure)
  }

  /** Rust's `/`: truncation toward zero. */
  function TruncatedQuotient(n: int, d: int): int
    requires d != 0
  {
    if n >= 0 then n / d else -((-n) / d)
  }

  function CheckedDiv(n: I128, d: I128, failure: Failure): Outcome<I128> {
    if d == 0 then Err(failure) else Checked(TruncatedQuotient(n, d), failure)
  }

  function Min(a: int, b: int): int {
    if a <= b then a else b
  }

  function Max(a: int, b: int): int {
    if a >= b then a else b
  }

  function SaturatingAdd32(a: U32, b: U32): U32 {
    Min(a + b, U32_MAX)
  }

  /** A storage read with `unwrap_or`. */
  function GetOr<K, V>(m: map<K, V>, k: K, default: V): V {
    if k in m then m[k] else default
  }

  ghost predicate Distinct<T>(list: seq<T>) {
    forall i, j :: 0 <= i < j < |list| ==> list[i] != list[j]
  }

  function Lookup<K, V>(m: map<K, V>, k: K): Option<V> {
    if k in m then Some(m[k]) else None
  }
}
