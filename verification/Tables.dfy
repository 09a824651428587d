/** The tables the services share, their CHECK constraints and their lookups. */
module Tables {
  import opened Common
  import opened Amounts
  import opened Wallets
  import opened Wagers

  datatype FailureCode =
    | INSUFFICIENT_FUNDS
    | REVERSAL_INSUFFICIENT_FUNDS
    | REFERENCE_MISMATCH
    | REFERENCE_AMOUNT_MISMATCH
    | INVALID_REFERENCE_KIND
    | INVALID_REFERENCE
    | REFERENCE_TERMINAL_UNSUCCESSFUL
    | ALREADY_REVERSED
    | REFERENCE_EXPIRED

  /** One row of wager_transactions; a nullable column is an Option. */
  datatype WagerRow = WagerRow(
    providerId: Option<string>, externalId: Option<string>,
    idempotencyKey: Option<string>, payloadHash: Option<Payload>,
    walletId: WalletId, playerId: string, roundId: Option<string>, gameId: Option<string>,
    kind: Kind, state: State, amount: Int64, currency: string,
    referenceExternalId: Option<string>, referencedId: Option<TxId>,
    failureCode: Option<FailureCode>, resultBalance: Option<Int64>,
    attempts: nat, nextAttemptAt: Option<Time>, expiresAt: Option<Time>,
    createdAt: Time, updatedAt: Time)

  /** One row of ledger_entries. */
  datatype LedgerEntry = LedgerEntry(
    id: int, walletId: WalletId, txId: TxId, direction: Direction, amount: Int64,
    balanceBefore: Int64, balanceAfter: Int64, createdAt: Time)

  /** The business content of one outbox row. */
  datatype Event =
    | TransactionProcessed(txId: TxId, walletId: WalletId, kind: Kind)
    | TransactionRejected(txId: TxId, walletId: WalletId, providerId: string, kind: Kind, failureCode: FailureCode)
    | TransactionPendingReference(txId: TxId, providerId: string, externalId: string, referenceExternalId: string)
    | BalanceChanged(txId: TxId, walletId: WalletId, direction: Direction, money: Money,
                     balanceBefore: Money, balanceAfter: Money, walletVersion: Int64)

  datatype Db = Db(
    wallets: map<WalletId, WalletRow>,
    wagers: seq<WagerRow>,
    ledger: seq<LedgerEntry>,
    outbox: seq<Event>)

  const EMPTY := Db(map[], [], [], [])

  // ---- CHECK constraints

  function Text(column: Option<string>): string {
    if column.Some? then column.value else ""
  }

  predicate NonEmpty(column: Option<string>) {
    column.Some? && column.value != ""
  }

  predicate OriginMetadataCheck(w: WagerRow) {
    if w.kind.Opening? then
      && w.state.Processed?
      && w.providerId.None? && w.externalId.None? && w.idempotencyKey.None? && w.payloadHash.None?
      && w.roundId.None? && w.gameId.None?
      && w.referenceExternalId.None? && w.referencedId.None? && w.failureCode.None?
      && w.resultBalance == Some(w.amount)
      && w.playerId != "" && !Blank(w.currency)
    else
      && NonEmpty(w.providerId) && NonEmpty(w.externalId)
      && NonEmpty(w.idempotencyKey) && w.payloadHash.Some?
      && w.playerId != "" && NonEmpty(w.roundId) && NonEmpty(w.gameId) && !Blank(w.currency)
  }

  predicate AmountByKindCheck(w: WagerRow) {
    if w.kind.Loss? then w.amount == 0 else w.amount > 0
  }

  predicate ReferenceApplicabilityCheck(w: WagerRow) {
    match w.kind
    case Opening => w.referenceExternalId.None? && w.referencedId.None?
    case Bet | Loss => Text(w.referenceExternalId) == "" && w.referencedId.None?
    case Win => w.referencedId.Some? ==> NonEmpty(w.referenceExternalId)
    case Refund | Rollback => NonEmpty(w.referenceExternalId)
  }

  predicate ReferenceKindCheck(w: WagerRow) {
    w.referencedId.Some? ==> w.kind.Win? || w.kind.Refund? || w.kind.Rollback?
  }

  predicate ResultBalanceCheck(w: WagerRow) {
    w.resultBalance.Some? ==> w.resultBalance.value >= 0
  }

  predicate WagerChecks(w: WagerRow) {
    && OriginMetadataCheck(w)
    && AmountByKindCheck(w)
    && ReferenceApplicabilityCheck(w)
    && ReferenceKindCheck(w)
    && ResultBalanceCheck(w)
  }

  predicate WalletChecks(w: WalletRow) {
    w.balance >= 0 && w.version >= 1
  }

  predicate LedgerChecks(e: LedgerEntry) {
    && e.amount > 0 && e.balanceBefore >= 0 && e.balanceAfter >= 0
    && e.balanceAfter == e.balanceBefore + SignedAmount(e.direction, e.amount)
  }

  // ---- Lookups

  predicate HasExternal(w: WagerRow, providerId: string, externalId: string) {
    w.providerId == Some(providerId) && w.externalId == Some(externalId)
  }

  predicate HasKey(w: WagerRow, providerId: string, key: string) {
    w.providerId == Some(providerId) && w.idempotencyKey == Some(key)
  }

  function FindByExternal(wagers: seq<WagerRow>, providerId: string, externalId: string): (r: Option<TxId>)
    ensures r.Some? ==> r.value < |wagers| && HasExternal(wagers[r.value], providerId, externalId)
    ensures forall i :: 0 <= i < (if r.Some? then r.value else |wagers|) ==> !HasExternal(wagers[i], providerId, externalId)
  {
    if wagers == [] then None
    else
      var n := |wagers| - 1;
      var earlier := FindByExternal(wagers[..n], providerId, externalId);
      if earlier.Some? then earlier
      else if HasExternal(wagers[n], providerId, externalId) then Some(n)
      else None
  }

  function FindByKey(wagers: seq<WagerRow>, providerId: string, key: string): (r: Option<TxId>)
    ensures r.Some? ==> r.value < |wagers| && HasKey(wagers[r.value], providerId, key)
    ensures forall i :: 0 <= i < (if r.Some? then r.value else |wagers|) ==> !HasKey(wagers[i], providerId, key)
  {
    if wagers == [] then None
    else
      var n := |wagers| - 1;
      var earlier := FindByKey(wagers[..n], providerId, key);
      if earlier.Some? then earlier
      else if HasKey(wagers[n], providerId, key) then Some(n)
      else None
  }

  /** A processed REFUND or ROLLBACK of the given wager. */
  predicate Reverses(w: WagerRow, id: TxId) {
    w.referencedId == Some(id) && w.state.Processed? && (w.kind.Refund? || w.kind.Rollback?)
  }

  predicate AlreadyReversed(wagers: seq<WagerRow>, id: TxId) {
    exists i :: 0 <= i < |wagers| && Reverses(wagers[i], id)
  }

  predicate Terminal(s: State) {
    s.Processed? || s.Rejected? || s.Failed?
  }

  /** The request a stored row was made from, as the resolver reads it back. */
  function RequestOf(w: WagerRow): WagerRequest {
    WagerRequest(Text(w.providerId), Text(w.externalId), w.playerId, w.walletId,
                 Text(w.roundId), Text(w.gameId), w.kind, Money(w.amount, w.currency),
                 Text(w.referenceExternalId))
  }

  /** Insert the row at the end of the table, or overwrite the one at k. */
  function Put(wagers: seq<WagerRow>, k: TxId, row: WagerRow): (r: seq<WagerRow>)
    requires k <= |wagers|
    ensures |r| == (if k == |wagers| then k + 1 else |wagers|)
    ensures r[k] == row
    ensures forall i :: 0 <= i < |wagers| && i != k ==> r[i] == wagers[i]
  {
    if k == |wagers| then wagers + [row] else wagers[k := row]
  }
}
