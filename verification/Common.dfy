/** Vocabulary shared by every part of the model. */
module Common {

  datatype Option<+T> = None | Some(value: T)

  datatype Result<+T, +E> = Ok(value: T) | Err(error: E)

  // BIGINT columns and Go's int64.
  const MAX_INT64: int := 0x7fff_ffff_ffff_ffff
  const MIN_INT64: int := -0x8000_0000_0000_0000
  type Int64 = x: int | MIN_INT64 <= x <= MAX_INT64

  // Instants and durations, in the resolution the database stores.
  type Time = int
  const SECOND: int := 1_000_000

  // A wallet's UUID in canonical form.
  type WalletId = nat

  // The identity of a wager row. Rows are never deleted, so a row's position in
  // the table serves as the fresh value that uuid.New() draws for it.
  type TxId = nat

  datatype Error =
    | InvalidMoneyFormat
    | MoneyOverflow
    | CurrencyMismatch
    | InsufficientFunds
    | InvalidAmount
    | InvalidWalletPlayer
    | InvalidWalletCurrency
    | InvalidWalletBalance
    | InvalidWalletVersion
    | WalletVersionOverflow
    | InvalidWagerKind
    | InvalidLossAmount
    | ReferenceNotAllowed
    | ReferenceRequired
    | IdempotencyKeyRequired
    | IdempotencyConflict
    | ExternalTransactionExists
    | WalletNotFound
    | WalletPlayerMismatch
    | WalletAlreadyExists
    | ReferenceMismatch
    | InvalidReferenceKind
    | ReferenceAmountMismatch
    | PayloadConflict
}
