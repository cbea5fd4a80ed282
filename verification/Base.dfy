/** Shared vocabulary: optional values, results, the errors of the service and 64-bit bounds. */
module Base {

  datatype Option<+T> = None | Some(value: T)

  /** The error values that domain, store and services return. */
  datatype Error =
    | InvalidMoney
    | CurrencyMismatch
    | MoneyOverflow
    | InsufficientFunds
    | InvalidWallet
    | InvalidTransaction
    | InvalidTransition
    | InvalidLedgerEntry
    | ReferenceNotProcessedError
    | NotFound
    | Conflict
    | IdempotencyPayloadConflict
    | ExternalTransactionConflict
    | InboxPayloadConflict
      // An expression over bigint columns left the int64 range.
    | IntegerOutOfRange
      // A CHECK, foreign key or trigger of the schema refused a row.
    | SchemaGuard

  datatype Result<+T> = Ok(value: T) | Err(error: Error) {
    predicate IsFailure() {
      Err?
    }

    function PropagateFailure<U>(): (r: Result<U>)
      requires Err?
    {
      Err(this.error)
    }

    function Extract(): T
      requires Ok?
    {
      value
    }
  }

  const MAX_INT64: int := 0x7fff_ffff_ffff_ffff
  const MIN_INT64: int := -0x8000_0000_0000_0000
  const MAX_UINT64: int := 0xffff_ffff_ffff_ffff

  type Int64 = x: int | MIN_INT64 <= x <= MAX_INT64

  /** A UUID. NO_ID stands for the empty string that an unset identifier holds. */
  type Uuid = nat

  const NO_ID: Uuid := 0

  /** An instant in nanoseconds. ZERO_TIME is the zero time that IsZero reports. */
  type Time = nat

  const ZERO_TIME: Time := 0
}
