/** Shared value types: options, results with the settlement error kinds, identifiers and 64-bit checked arithmetic. */
module Prelude {

  datatype Option<+T> = None | Some(value: T)

  /** The kinds of SettlementError; the message text is not modelled. */
  datatype Error =
    | InvalidArgument
    | NotFound
    | Conflict
    | FailedPrecondition
    | PermissionDenied
    | InsufficientFunds
    | InsufficientQuantity
    | DatabaseError

  datatype Result<+T> = Ok(value: T) | Err(error: Error) {
    predicate IsFailure() { Err? }
    function PropagateFailure<U>(): Result<U>
      requires Err?
    { Err(error) }
    function Extract(): T
      requires Ok?
    { value }
  }

  /** A check that must pass before the rest of a computation is looked at. */
  datatype Guard = Pass | Fail(error: Error) {
    predicate IsFailure() { Fail? }
    function PropagateFailure<U>(): Result<U>
      requires Fail?
    { Err(error) }
  }

  function Need(condition: bool, error: Error): Guard {
    if condition then Pass else Fail(error)
  }

  /** What a plan builder derives an identifier for. */
  datatype Purpose = TradeInstance | ItemStackEscrow | BuyerDestination | BuyerWalletEscrow

  /**
   * Identifiers. `Derived` is the deterministic identifier computed by hashing an
   * idempotency key and a purpose; being a constructor it is injective.
   */
  datatype Uuid = Given(number: nat) | Derived(key: string, purpose: Purpose)

  const MAX_I64: int := 0x7FFF_FFFF_FFFF_FFFF
  const MIN_I64: int := -0x8000_0000_0000_0000

  predicate FitsI64(x: int) { MIN_I64 <= x <= MAX_I64 }

  function CheckedAdd(left: int, right: int): Result<int> {
    if FitsI64(left + right) then Ok(left + right) else Err(FailedPrecondition)
  }

  function CheckedSub(left: int, right: int): Result<int> {
    if FitsI64(left - right) then Ok(left - right) else Err(FailedPrecondition)
  }

  /** White space as text trimming sees it: the Unicode property White_Space. */
  predicate IsWhiteSpace(c: char) {
    var n := c as int;
    || 0x9 <= n <= 0xD || n == 0x20 || n == 0x85 || n == 0xA0 || n == 0x1680 || 0x2000 <= n <= 0x200A
    || n == 0x2028 || n == 0x2029 || n == 0x202F || n == 0x205F || n == 0x3000
  }

  /** Text that trimming makes empty. */
  predicate Blank(text: string) {
    forall i :: 0 <= i < |text| ==> IsWhiteSpace(text[i])
  }

  /** The non_blank_string rule: some character outside the regular expression class \s. */
  predicate NonBlank(text: string) {
    exists i :: 0 <= i < |text| && text[i] !in {'\t', '\n', 0xC as char, '\r', ' '}
  }
}
