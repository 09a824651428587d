/** What the two writers decide and write: the synchronous path of process.go and
    the asynchronous path of pending_reference_resolver.go, each from its own tree. */
module Decisions {
  import opened Common
  import opened Amounts
  import opened Wallets
  import opened Wagers
  import opened Tables
  import opened Backoff

  // ---- reference.go and reversal.go

  function FindReference(wagers: seq<WagerRow>, r: WagerRequest): Result<Option<TxId>, Error> {
    if r.referenceExternalId == "" then Err(ReferenceMismatch)
    else Ok(FindByExternal(wagers, r.providerId, r.referenceExternalId))
  }

  function ValidateReference(r: WagerRequest, ref: WagerRow): Option<Error> {
    if || Text(ref.providerId) != r.providerId
       || ref.playerId != r.playerId
       || ref.walletId != r.walletId
       || Text(ref.roundId) != r.roundId
       || ref.currency != r.amount.currency
    then Some(ReferenceMismatch)
    else match r.kind
      case Win => if !ref.kind.Bet? then Some(InvalidReferenceKind) else None
      case Refund =>
        if !ref.kind.Bet? then Some(InvalidReferenceKind)
        else if ref.amount != r.amount.amount then Some(ReferenceAmountMismatch)
        else None
      case Rollback =>
        if !(ref.kind.Bet? || ref.kind.Win? || ref.kind.Refund?) then Some(InvalidReferenceKind)
        else if ref.amount != r.amount.amount then Some(ReferenceAmountMismatch)
        else None
      case _ => Some(InvalidReferenceKind)
  }

  function ReferenceFailureCode(e: Error): FailureCode {
    match e
    case ReferenceMismatch => REFERENCE_MISMATCH
    case ReferenceAmountMismatch => REFERENCE_AMOUNT_MISMATCH
    case InvalidReferenceKind => INVALID_REFERENCE_KIND
    case _ => INVALID_REFERENCE
  }

  /** Which movement undoes the referenced wager. */
  function ReversalDirection(kind: Kind, referenceKind: Kind): Result<Direction, Error> {
    match kind
    case Refund => if !referenceKind.Bet? then Err(InvalidReferenceKind) else Ok(Credit)
    case Rollback =>
      (match referenceKind
       case Bet => Ok(Credit)
       case Win => Ok(Debit)
       case Refund => Ok(Debit)
       case _ => Err(InvalidReferenceKind))
    case _ => Err(InvalidReferenceKind)
  }

  // ---- Outcomes

  /** Fail rolls the transaction back; the other three commit. */
  datatype Outcome =
    | Fail(error: Error)
    | Unresolved
    | Refuse(code: FailureCode, reference: Option<TxId>)
    | Post(wallet: WalletRow, movement: Option<Direction>, reference: Option<TxId>)

  /** What reading the referenced row tells before anything is reversed or moved. */
  datatype Reading = Settled(outcome: Outcome) | Usable(id: TxId)

  // ---- process.go

  predicate NeedsReference(r: WagerRequest) {
    r.kind.Refund? || r.kind.Rollback? || (r.kind.Win? && r.referenceExternalId != "")
  }

  function ReadReference(wagers: seq<WagerRow>, r: WagerRequest): (reading: Reading)
    ensures reading.Usable? ==> reading.id < |wagers|
  {
    match FindReference(wagers, r)
    case Err(e) => Settled(Fail(e))
    case Ok(None) => Settled(Unresolved)
    case Ok(Some(id)) =>
      match wagers[id].state
      case Pending | PendingReference => Settled(Unresolved)
      case Rejected | Failed => Settled(Refuse(REFERENCE_TERMINAL_UNSUCCESSFUL, Some(id)))
      case Processed =>
        match ValidateReference(r, wagers[id])
        case Some(e) => Settled(Refuse(ReferenceFailureCode(e), Some(id)))
        case None => Usable(id)
  }

  /** Debit or credit the locked wallet; reference is the usable referenced row. */
  function Move(wallet: WalletRow, r: WagerRequest, reference: Option<TxId>, referenceKind: Kind, now: Time): Outcome {
    match r.kind
    case Bet =>
      (match Moved(wallet, Debit, r.amount, now)
       case Ok(w) => Post(w, None, reference)
       case Err(e) => if e.InsufficientFunds? then Refuse(INSUFFICIENT_FUNDS, None) else Fail(e))
    case Win =>
      (match Moved(wallet, Credit, r.amount, now)
       case Ok(w) => Post(w, None, reference)
       case Err(e) => Fail(e))
    case Loss => Post(wallet, None, reference)
    case Refund | Rollback =>
      (match ReversalDirection(r.kind, referenceKind)
       case Err(e) => Fail(e)
       case Ok(Credit) =>
         (match Moved(wallet, Credit, r.amount, now)
          case Ok(w) => Post(w, Some(Credit), reference)
          case Err(e) => Fail(e))
       case Ok(Debit) =>
         (match Moved(wallet, Debit, r.amount, now)
          case Ok(w) => Post(w, Some(Debit), reference)
          case Err(e) => if e.InsufficientFunds? then Refuse(REVERSAL_INSUFFICIENT_FUNDS, reference) else Fail(e)))
    case Opening => Fail(InvalidWagerKind)
  }

  /** The decision once a usable reference has been read. */
  function Finish(wagers: seq<WagerRow>, wallet: WalletRow, r: WagerRequest, id: TxId, now: Time): Outcome
    requires id < |wagers|
  {
    if !r.kind.Win? && AlreadyReversed(wagers, id) then Refuse(ALREADY_REVERSED, Some(id))
    else Move(wallet, r, Some(id), wagers[id].kind, now)
  }

  function Decide(wagers: seq<WagerRow>, wallet: WalletRow, r: WagerRequest, now: Time): Outcome {
    if !NeedsReference(r) then Move(wallet, r, None, Bet, now)
    else match ReadReference(wagers, r)
      case Settled(outcome) => outcome
      case Usable(id) => Finish(wagers, wallet, r, id, now)
  }

  // ---- pending_reference_resolver.go

  predicate Expired(row: WagerRow, now: Time) {
    row.expiresAt.Some? && now >= row.expiresAt.value
  }

  /** What a pass makes of the reference, before anything is reversed or moved. */
  function ResolverReading(wagers: seq<WagerRow>, r: WagerRequest): (reading: Reading)
    ensures reading == ReadReference(wagers, r)
  {
    if r.referenceExternalId == "" then Settled(Fail(ReferenceMismatch))
    else
      var found := FindByExternal(wagers, r.providerId, r.referenceExternalId);
      if found.None? then Settled(Unresolved)
      else
        var reference := wagers[found.value];
        if reference.state.Pending? || reference.state.PendingReference? then Settled(Unresolved)
        else if reference.state.Rejected? || reference.state.Failed? then
          Settled(Refuse(REFERENCE_TERMINAL_UNSUCCESSFUL, found))
        else
          var mismatch := ValidateReference(r, reference);
          if mismatch.Some? then Settled(Refuse(ReferenceFailureCode(mismatch.value), found))
          else Usable(found.value)
  }

  function ResolverMove(wallet: WalletRow, r: WagerRequest, id: TxId, direction: Direction, now: Time): Outcome {
    match direction
    case Credit =>
      (match Moved(wallet, Credit, r.amount, now)
       case Ok(w) => Post(w, Some(direction), Some(id))
       case Err(e) => Fail(e))
    case Debit =>
      (match Moved(wallet, Debit, r.amount, now)
       case Ok(w) => Post(w, Some(direction), Some(id))
       case Err(e) => if e.InsufficientFunds? then Refuse(REVERSAL_INSUFFICIENT_FUNDS, Some(id)) else Fail(e))
  }

  function ResolverFinish(wagers: seq<WagerRow>, wallet: WalletRow, r: WagerRequest, id: TxId, now: Time): Outcome
    requires id < |wagers|
  {
    if r.kind.Win? then ResolverMove(wallet, r, id, Credit, now)
    else if AlreadyReversed(wagers, id) then Refuse(ALREADY_REVERSED, Some(id))
    else match ReversalDirection(r.kind, wagers[id].kind)
      case Err(e) => Fail(e)
      case Ok(direction) => ResolverMove(wallet, r, id, direction, now)
  }

  function Resolve(wagers: seq<WagerRow>, wallet: WalletRow, row: WagerRow, now: Time): Outcome {
    if Expired(row, now) then Refuse(REFERENCE_EXPIRED, None)
    else match ResolverReading(wagers, RequestOf(row))
      case Settled(outcome) => outcome
      case Usable(id) => ResolverFinish(wagers, wallet, RequestOf(row), id, now)
  }

  // ---- What is written

  /** The new row at its position, the wallet, and the rows appended elsewhere. */
  datatype Writes = Writes(row: WagerRow, wallet: WalletRow, entries: seq<LedgerEntry>, events: seq<Event>)

  const REFERENCE_RETRY_DELAY: int := BASE
  const REFERENCE_TTL: int := 300 * SECOND

  function InsertedRow(cmd: Command, state: State, reference: Option<TxId>, code: Option<FailureCode>,
                       balance: Int64, now: Time): WagerRow
  {
    var r := cmd.request;
    WagerRow(Some(r.providerId), Some(r.externalId), Some(cmd.idempotencyKey), Some(PayloadHash(r)),
             r.walletId, r.playerId, Some(r.roundId), Some(r.gameId),
             r.kind, state, r.amount.amount, r.amount.currency,
             Some(r.referenceExternalId), reference, code, Some(balance),
             0, None, None, now, now)
  }

  function PendingRow(cmd: Command, balance: Int64, now: Time): WagerRow {
    InsertedRow(cmd, PendingReference, None, None, balance, now)
      .(nextAttemptAt := Some(now + REFERENCE_RETRY_DELAY), expiresAt := Some(now + REFERENCE_TTL))
  }

  function PendingEvent(id: TxId, r: WagerRequest): Event {
    TransactionPendingReference(id, r.providerId, r.externalId, r.referenceExternalId)
  }

  function RejectedEvent(id: TxId, r: WagerRequest, code: FailureCode): Event {
    TransactionRejected(id, r.walletId, r.providerId, r.kind, code)
  }

  function ProcessedEvents(id: TxId, r: WagerRequest, before: WalletRow, after: WalletRow, direction: Direction): seq<Event> {
    [TransactionProcessed(id, r.walletId, r.kind)] +
    if r.kind.Loss? then []
    else [BalanceChanged(id, r.walletId, direction, r.amount,
                         Money(before.balance, before.currency), Money(after.balance, after.currency),
                         after.version)]
  }

  /** process.go names the ledger direction from the kind, not from the movement made. */
  function LedgerDirection(kind: Kind, movement: Option<Direction>): Direction {
    if kind.Bet? then Debit
    else if kind.Rollback? && movement == Some(Debit) then Debit
    else Credit
  }

  function SyncWrites(cmd: Command, id: TxId, wallet: WalletRow, outcome: Outcome, now: Time, entryId: int): Writes
    requires !outcome.Fail?
  {
    var r := cmd.request;
    match outcome
    case Unresolved =>
      Writes(PendingRow(cmd, wallet.balance, now), wallet, [], [PendingEvent(id, r)])
    case Refuse(code, reference) =>
      Writes(InsertedRow(cmd, Rejected, reference, Some(code), wallet.balance, now), wallet, [],
             [RejectedEvent(id, r, code)])
    case Post(w, movement, reference) =>
      var direction := LedgerDirection(r.kind, movement);
      Writes(InsertedRow(cmd, Processed, reference, None, w.balance, now), w,
             if r.kind.Loss? then []
             else [LedgerEntry(entryId, r.walletId, id, direction, r.amount.amount, wallet.balance, w.balance, now)],
             ProcessedEvents(id, r, wallet, w, direction))
  }

  function NextAttempt(row: WagerRow, now: Time): Time {
    var next := now + Delay(row.attempts + 1);
    if row.expiresAt.Some? && next > row.expiresAt.value then row.expiresAt.value else next
  }

  function ResolverWrites(row: WagerRow, id: TxId, wallet: WalletRow, outcome: Outcome, now: Time, entryId: int): Writes
    requires !outcome.Fail?
  {
    var r := RequestOf(row);
    match outcome
    case Unresolved =>
      Writes(row.(attempts := row.attempts + 1, nextAttemptAt := Some(NextAttempt(row, now)), updatedAt := now),
             wallet, [], [])
    case Refuse(code, reference) =>
      Writes(row.(state := Rejected, failureCode := Some(code), resultBalance := Some(wallet.balance),
                  referencedId := reference, nextAttemptAt := None, updatedAt := now),
             wallet, [], [RejectedEvent(id, r, code)])
    case Post(w, movement, reference) =>
      var direction := if movement == Some(Debit) then Debit else Credit;
      Writes(row.(state := Processed, referencedId := reference, resultBalance := Some(w.balance),
                  failureCode := None, nextAttemptAt := None, updatedAt := now),
             w,
             [LedgerEntry(entryId, r.walletId, id, direction, r.amount.amount, wallet.balance, w.balance, now)],
             ProcessedEvents(id, r, wallet, w, direction))
  }

  /** Commit the writes of one transaction on the row at id. */
  function Apply(db: Db, id: TxId, w: Writes): Db
    requires id <= |db.wagers|
  {
    Db(db.wallets[w.row.walletId := w.wallet], Put(db.wagers, id, w.row), db.ledger + w.entries, db.outbox + w.events)
  }

  // ---- Whole transactions, run alone

  datatype ProcessResult = ProcessResult(
    txId: TxId, state: State, balance: Money, replay: bool, failureCode: Option<FailureCode>)

  /** What a replay reports: the row as it stands. */
  function ReplayResult(id: TxId, row: WagerRow): ProcessResult {
    ProcessResult(id, row.state,
                  Money(if row.resultBalance.Some? then row.resultBalance.value else 0, row.currency),
                  true, row.failureCode)
  }

  function FindReplay(wagers: seq<WagerRow>, cmd: Command): Result<Option<ProcessResult>, Error> {
    match FindByKey(wagers, cmd.request.providerId, cmd.idempotencyKey)
    case None => Ok(None)
    case Some(id) =>
      if wagers[id].payloadHash != Some(PayloadHash(cmd.request)) then Err(IdempotencyConflict)
      else Ok(Some(ReplayResult(id, wagers[id])))
  }

  function LockWallet(db: Db, id: WalletId): Result<WalletRow, Error> {
    if id !in db.wallets then Err(WalletNotFound)
    else match ValidateWallet(db.wallets[id])
      case Some(e) => Err(e)
      case None => Ok(db.wallets[id])
  }

  function NewResult(id: TxId, w: Writes): ProcessResult {
    ProcessResult(id, w.row.state, Money(w.wallet.balance, w.wallet.currency), false, w.row.failureCode)
  }

  function CheckOwner(wallet: WalletRow, r: WagerRequest): Option<Error> {
    if wallet.playerId != r.playerId then Some(WalletPlayerMismatch)
    else if wallet.currency != r.amount.currency then Some(CurrencyMismatch)
    else None
  }

  /** The request is refused before anything is read from the database. */
  function Precheck(cmd: Command): Option<Error> {
    match ValidateExternal(cmd.request)
    case Some(e) => Some(e)
    case None => if cmd.idempotencyKey == "" then Some(IdempotencyKeyRequired) else None
  }

  /** ProcessTx of a command that is not a replay, on the wallet row it locked. */
  function ProcessNew(db: Db, cmd: Command, wallet: WalletRow, now: Time, entryId: int): Result<(Db, ProcessResult), Error> {
    var r := cmd.request;
    if FindByExternal(db.wagers, r.providerId, r.externalId).Some? then Err(ExternalTransactionExists)
    else match CheckOwner(wallet, r)
      case Some(e) => Err(e)
      case None =>
        match Decide(db.wagers, wallet, r, now)
        case Fail(e) => Err(e)
        case outcome =>
          var w := SyncWrites(cmd, |db.wagers|, wallet, outcome, now, entryId);
          Ok((Apply(db, |db.wagers|, w), NewResult(|db.wagers|, w)))
  }

  /** One call of Process, alone on the database. */
  function Process(db: Db, cmd: Command, now: Time, entryId: int): Result<(Db, ProcessResult), Error> {
    match Precheck(cmd)
    case Some(e) => Err(e)
    case None =>
      match FindReplay(db.wagers, cmd)
      case Err(e) => Err(e)
      case Ok(Some(result)) => Ok((db, result))
      case Ok(None) =>
        match LockWallet(db, cmd.request.walletId)
        case Err(e) => Err(e)
        case Ok(wallet) => ProcessNew(db, cmd, wallet, now, entryId)
  }

  predicate Due(row: WagerRow, now: Time) {
    row.state.PendingReference? && (row.nextAttemptAt.None? || row.nextAttemptAt.value <= now)
  }

  /** One pass of the resolver over the row it claimed. */
  function ResolvePass(db: Db, id: TxId, now: Time, entryId: int): Result<Db, Error>
    requires id < |db.wagers|
  {
    var row := db.wagers[id];
    match LockWallet(db, row.walletId)
    case Err(e) => Err(e)
    case Ok(wallet) =>
      match Resolve(db.wagers, wallet, row, now)
      case Fail(e) => Err(e)
      case outcome => Ok(Apply(db, id, ResolverWrites(row, id, wallet, outcome, now, entryId)))
  }

  // ---- wallet/create.go

  function OpeningRow(walletId: WalletId, playerId: string, initial: Money, now: Time): WagerRow {
    WagerRow(None, None, None, None, walletId, playerId, None, None,
             Opening, Processed, initial.amount, initial.currency,
             None, None, None, Some(initial.amount), 0, None, None, now, now)
  }

  function OpeningWrites(walletId: WalletId, wallet: WalletRow, id: TxId, now: Time, entryId: int): Writes {
    var initial := Money(wallet.balance, wallet.currency);
    Writes(OpeningRow(walletId, wallet.playerId, initial, now), wallet,
           [LedgerEntry(entryId, walletId, id, Credit, wallet.balance, 0, wallet.balance, now)],
           [TransactionProcessed(id, walletId, Opening),
            BalanceChanged(id, walletId, Credit, initial, Money(0, wallet.currency), initial, 1)])
  }

  predicate PlayerHasWallet(db: Db, playerId: string, currency: string) {
    exists w :: w in db.wallets && db.wallets[w].playerId == playerId && db.wallets[w].currency == currency
  }

  function Create(db: Db, walletId: WalletId, playerId: string, initial: Money, now: Time, entryId: int): Result<Db, Error>
    requires walletId !in db.wallets
  {
    var wallet := WalletRow(playerId, initial.currency, initial.amount, 1, now, now);
    match ValidateWallet(wallet)
    case Some(e) => Err(e)
    case None =>
      if PlayerHasWallet(db, playerId, initial.currency) then Err(WalletAlreadyExists)
      else if initial.amount == 0 then Ok(db.(wallets := db.wallets[walletId := wallet]))
      else Ok(Apply(db, |db.wagers|, OpeningWrites(walletId, wallet, |db.wagers|, now, entryId)))
  }
}
