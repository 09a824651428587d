/** The services as they run: statements on shared tables, one transaction at a time. */
module Services {
  import opened Common
  import opened Amounts
  import opened Wallets
  import opened Wagers
  import opened Tables
  import opened Backoff
  import opened Decisions
  import opened Invariant
  import Preservation
  import opened Answers
  import Protocol

  /** The due row created first: what findDuePendingReference selects. */
  function FirstDue(wagers: seq<WagerRow>, now: Time): (r: Option<TxId>)
    ensures r.Some? ==> r.value < |wagers| && Due(wagers[r.value], now)
    ensures r.Some? ==> forall i :: 0 <= i < |wagers| && Due(wagers[i], now) ==> wagers[r.value].createdAt <= wagers[i].createdAt
    ensures r.None? ==> forall i :: 0 <= i < |wagers| ==> !Due(wagers[i], now)
  {
    if wagers == [] then None
    else
      var n := |wagers| - 1;
      var earlier := FirstDue(wagers[..n], now);
      if !Due(wagers[n], now) then earlier
      else if earlier.Some? && wagers[earlier.value].createdAt <= wagers[n].createdAt then earlier
      else Some(n)
  }

  class Service {
    var wallets: map<WalletId, WalletRow>
    var wagers: seq<WagerRow>
    var ledger: seq<LedgerEntry>
    var outbox: seq<Event>
    var inbox: map<string, Protocol.InboxRow>

    function Db(): Db
      reads this
    {
      Tables.Db(wallets, wagers, ledger, outbox)
    }

    constructor ()
      ensures Db() == EMPTY && inbox == map[]
    {
      wallets, wagers, ledger, outbox, inbox := map[], [], [], [], map[];
    }

    // ---- persistence.go, results.go, pending_reference.go

    method LoadWallet(id: WalletId) returns (r: Result<Wallet, Error>)
      ensures match LockWallet(Db(), id)
              case Err(e) => r == Err(e)
              case Ok(row) => r.Ok? && fresh(r.value) && r.value.id == id && r.value.Row() == row
    {
      if id !in wallets { return Err(WalletNotFound); }
      var invalid := ValidateWallet(wallets[id]);
      if invalid.Some? { return Err(invalid.value); }
      var wallet := new Wallet.Reconstitute(id, wallets[id]);
      return Ok(wallet);
    }

    method PersistPendingReference(cmd: Command, balance: Money, now: Time) returns (result: ProcessResult)
      modifies this`wagers, this`outbox
      ensures wagers == old(wagers) + [PendingRow(cmd, balance.amount, now)]
      ensures outbox == old(outbox) + [PendingEvent(|old(wagers)|, cmd.request)]
      ensures result == ProcessResult(|old(wagers)|, PendingReference, balance, false, None)
    {
      var id := |wagers|;
      var nextAttemptAt, expiresAt := now + REFERENCE_RETRY_DELAY, now + REFERENCE_TTL;
      var r := cmd.request;
      wagers := wagers + [WagerRow(
        Some(r.providerId), Some(r.externalId), Some(cmd.idempotencyKey), Some(PayloadHash(r)),
        r.walletId, r.playerId, Some(r.roundId), Some(r.gameId), r.kind, PendingReference,
        r.amount.amount, r.amount.currency, Some(r.referenceExternalId), None, None, Some(balance.amount),
        0, Some(nextAttemptAt), Some(expiresAt), now, now)];
      outbox := outbox + [TransactionPendingReference(id, r.providerId, r.externalId, r.referenceExternalId)];
      result := ProcessResult(id, PendingReference, balance, false, None);
    }

    method PersistRejectedTransaction(cmd: Command, balance: Money, code: FailureCode, reference: Option<TxId>, now: Time)
      returns (result: ProcessResult)
      modifies this`wagers, this`outbox
      ensures wagers == old(wagers) + [InsertedRow(cmd, Rejected, reference, Some(code), balance.amount, now)]
      ensures outbox == old(outbox) + [RejectedEvent(|old(wagers)|, cmd.request, code)]
      ensures result == ProcessResult(|old(wagers)|, Rejected, balance, false, Some(code))
    {
      var id := |wagers|;
      var r := cmd.request;
      wagers := wagers + [WagerRow(
        Some(r.providerId), Some(r.externalId), Some(cmd.idempotencyKey), Some(PayloadHash(r)),
        r.walletId, r.playerId, Some(r.roundId), Some(r.gameId), r.kind, Rejected,
        r.amount.amount, r.amount.currency, Some(r.referenceExternalId), reference, Some(code), Some(balance.amount),
        0, None, None, now, now)];
      outbox := outbox + [TransactionRejected(id, r.walletId, r.providerId, r.kind, code)];
      result := ProcessResult(id, Rejected, balance, false, Some(code));
    }

    method InsertProcessedEvents(id: TxId, r: WagerRequest, before: WalletRow, wallet: Wallet, direction: Direction)
      requires wallet.id == r.walletId && wallet.balance.currency == before.currency
      modifies this`outbox
      ensures outbox == old(outbox) + ProcessedEvents(id, r, before, wallet.Row(), direction)
    {
      outbox := outbox + [TransactionProcessed(id, wallet.id, r.kind)];
      if r.kind.Loss? { return; }
      outbox := outbox + [BalanceChanged(id, wallet.id, direction, r.amount, Money(before.balance, before.currency),
                                         wallet.balance, wallet.version)];
    }

    // ---- process.go

    /** The four inserts and updates of an accepted request, on the wallet as moved. */
    method PersistProcessedTransaction(cmd: Command, wallet: Wallet, before: WalletRow, reference: Option<TxId>,
                                       reversal: Option<Direction>, now: Time, entryId: int)
      returns (result: ProcessResult)
      requires wallet.id == cmd.request.walletId && wallet.id in wallets && wallets[wallet.id] == before
      requires wallet.balance.currency == before.currency
      requires cmd.request.kind.Loss? ==> wallet.Row() == before
      modifies this
      ensures inbox == old(inbox)
      ensures var w := SyncWrites(cmd, |old(wagers)|, before, Post(wallet.Row(), reversal, reference), now, entryId);
              Db() == Apply(old(Db()), |old(wagers)|, w) && result == NewResult(|old(wagers)|, w)
    {
      var request := cmd.request;
      var id := |wagers|;
      wagers := wagers + [WagerRow(
        Some(request.providerId), Some(request.externalId), Some(cmd.idempotencyKey), Some(PayloadHash(request)),
        request.walletId, request.playerId, Some(request.roundId), Some(request.gameId), request.kind, Processed,
        request.amount.amount, request.amount.currency, Some(request.referenceExternalId), reference, None,
        Some(wallet.balance.amount), 0, None, None, now, now)];
      var direction := Credit;
      if request.kind.Bet? {
        direction := Debit;
      } else if request.kind.Rollback? && reversal == Some(Debit) {
        direction := Debit;
      }
      if !request.kind.Loss? {
        wallets := wallets[wallet.id := wallet.Row()];
        ledger := ledger + [LedgerEntry(entryId, wallet.id, id, direction, request.amount.amount,
                                        before.balance, wallet.balance.amount, now)];
      } else {
        assert wallets == wallets[wallet.id := wallet.Row()] && ledger == ledger + [];
      }
      InsertProcessedEvents(id, request, before, wallet, direction);
      result := ProcessResult(id, Processed, wallet.balance, false, None);
    }

    /** The movement and the writes of an accepted request. */
    method PostMovement(cmd: Command, wallet: Wallet, reference: Option<TxId>, ghost referenceKind: Kind,
                        reversal: Option<Direction>, now: Time, entryId: int)
      returns (r: Result<ProcessResult, Error>)
      requires wallet.id == cmd.request.walletId && LockWallet(Db(), wallet.id) == Ok(wallet.Row())
      requires !cmd.request.kind.Opening?
      requires if cmd.request.kind.Refund? || cmd.request.kind.Rollback?
               then reversal.Some? && ReversalDirection(cmd.request.kind, referenceKind) == Ok(reversal.value)
               else reversal.None?
      modifies this, wallet
      ensures inbox == old(inbox)
      ensures match Move(old(wallet.Row()), cmd.request, reference, referenceKind, now)
              case Fail(e) => r == Err(e) && Db() == old(Db())
              case outcome =>
                var w := SyncWrites(cmd, |old(wagers)|, old(wallet.Row()), outcome, now, entryId);
                Db() == Apply(old(Db()), |old(wagers)|, w) && r == Ok(NewResult(|old(wagers)|, w))
    {
      var request := cmd.request;
      var before := wallet.Row();
      var error: Option<Error> := None;
      if request.kind.Bet? {
        error := wallet.Debit(request.amount, now);
      } else if request.kind.Win? {
        error := wallet.Credit(request.amount, now);
      } else if !request.kind.Loss? {
        if reversal == Some(Credit) {
          error := wallet.Credit(request.amount, now);
        } else {
          error := wallet.Debit(request.amount, now);
        }
      }
      if error == Some(InsufficientFunds) && !request.kind.Win? && reversal != Some(Credit) {
        var result := PersistRejectedTransaction(
          cmd, wallet.balance,
          if request.kind.Bet? then INSUFFICIENT_FUNDS else REVERSAL_INSUFFICIENT_FUNDS,
          if request.kind.Bet? then None else reference, now);
        assert ledger == old(ledger) + [] && wallets == wallets[wallet.id := wallet.Row()];
        return Ok(result);
      }
      if error.Some? { return Err(error.value); }

      assert Move(before, request, reference, referenceKind, now) == Post(wallet.Row(), reversal, reference);
      var result := PersistProcessedTransaction(cmd, wallet, before, reference, reversal, now, entryId);
      r := Ok(result);
    }

    /** ProcessTx, after the checks that need no reference. */
    method ProcessReferenced(cmd: Command, wallet: Wallet, now: Time, entryId: int)
      returns (r: Result<ProcessResult, Error>)
      requires wallet.id == cmd.request.walletId && LockWallet(Db(), wallet.id) == Ok(wallet.Row())
      requires !cmd.request.kind.Opening?
      modifies this, wallet
      ensures inbox == old(inbox)
      ensures match Decide(old(wagers), old(wallet.Row()), cmd.request, now)
              case Fail(e) => r == Err(e) && Db() == old(Db())
              case outcome =>
                var w := SyncWrites(cmd, |old(wagers)|, old(wallet.Row()), outcome, now, entryId);
                Db() == Apply(old(Db()), |old(wagers)|, w) && r == Ok(NewResult(|old(wagers)|, w))
    {
      var request := cmd.request;
      if !NeedsReference(request) {
        r := PostMovement(cmd, wallet, None, Bet, None, now, entryId);
        return;
      }
      assert ledger == ledger + [] && wallets == wallets[wallet.id := wallet.Row()];
      if request.referenceExternalId == "" { return Err(ReferenceMismatch); }
      var found := FindByExternal(wagers, request.providerId, request.referenceExternalId);
      if found.None? {
        var result := PersistPendingReference(cmd, wallet.balance, now);
        return Ok(result);
      }
      var id := found.value;
      var reference := wagers[id];
      match reference.state {
        case Pending | PendingReference =>
          var result := PersistPendingReference(cmd, wallet.balance, now);
          return Ok(result);
        case Rejected | Failed =>
          var result := PersistRejectedTransaction(cmd, wallet.balance, REFERENCE_TERMINAL_UNSUCCESSFUL, found, now);
          return Ok(result);
        case Processed =>
      }
      var mismatch := ValidateReference(request, reference);
      if mismatch.Some? {
        var result := PersistRejectedTransaction(cmd, wallet.balance, ReferenceFailureCode(mismatch.value), found, now);
        return Ok(result);
      }
      if request.kind.Win? {
        r := PostMovement(cmd, wallet, found, reference.kind, None, now, entryId);
        return;
      }
      if AlreadyReversed(wagers, id) {
        var result := PersistRejectedTransaction(cmd, wallet.balance, ALREADY_REVERSED, found, now);
        return Ok(result);
      }
      var direction := ReversalDirection(request.kind, reference.kind);
      if direction.Err? { return Err(direction.error); }
      r := PostMovement(cmd, wallet, found, reference.kind, Some(direction.value), now, entryId);
    }

    /** One call has the effect that Process specifies, or none at all. */
    method ProcessTx(cmd: Command, now: Time, entryId: int) returns (r: Result<ProcessResult, Error>)
      modifies this
      ensures inbox == old(inbox)
      ensures match Process(old(Db()), cmd, now, entryId)
              case Err(e) => r == Err(e) && Db() == old(Db())
              case Ok(done) => r == Ok(done.1) && Db() == done.0
      ensures r.Ok? && !KeyUsed(old(wagers), cmd) ==> FreshAnswer(old(Db()), cmd, now, entryId, Db(), r.value)
      ensures Valid(old(Db())) && r.Ok? && KeyUsed(old(wagers), cmd) ==>
                Db() == old(Db()) && KnownAnswer(Db(), cmd, r.value)
      ensures Valid(old(Db())) && TransportValid(cmd) ==> Valid(Db())
    {
      hide Valid, FreshAnswer, KnownAnswer, KeyUsed;
      if Process(Db(), cmd, now, entryId).Ok? {
        if !KeyUsed(wagers, cmd) {
          ProcessAnswers(Db(), cmd, now, entryId);
        } else if Valid(Db()) {
          KnownAnswered(Db(), cmd, now, entryId);
        }
      }
      if Valid(Db()) && TransportValid(cmd) && Process(Db(), cmd, now, entryId).Ok? {
        Preservation.ProcessValid(Db(), cmd, now, entryId);
      }
      var request := cmd.request;
      var invalid := ValidateExternal(request);
      if invalid.Some? { return Err(invalid.value); }
      if cmd.idempotencyKey == "" { return Err(IdempotencyKeyRequired); }

      var replay := FindReplay(wagers, cmd);
      if replay.Err? { return Err(replay.error); }
      if replay.value.Some? { return Ok(replay.value.value); }

      var loaded := LoadWallet(request.walletId);
      if loaded.Err? { return Err(loaded.error); }
      var wallet := loaded.value;

      // Another request may have committed while this one waited for the lock.
      replay := FindReplay(wagers, cmd);
      assert replay == Ok(None);

      if FindByExternal(wagers, request.providerId, request.externalId).Some? { return Err(ExternalTransactionExists); }
      if wallet.playerId != request.playerId { return Err(WalletPlayerMismatch); }
      if wallet.balance.currency != request.amount.currency { return Err(CurrencyMismatch); }
      r := ProcessReferenced(cmd, wallet, now, entryId);
    }

    // ---- message_processor.go and inbox.go

    /** Register the delivery and say whether it was completed before. */
    method Register(message: Protocol.Message) returns (r: Result<bool, Error>)
      modifies this`inbox
      ensures message.id !in old(inbox) ==>
                r == Ok(false) && inbox == old(inbox)[message.id := Protocol.InboxRow(message.body, false)]
      ensures message.id in old(inbox) ==> inbox == old(inbox)
      ensures message.id in old(inbox) ==>
                r == if old(inbox)[message.id].body != message.body then Err(PayloadConflict)
                     else Ok(old(inbox)[message.id].completed)
    {
      if message.id !in inbox {
        inbox := inbox[message.id := Protocol.InboxRow(message.body, false)];
        return Ok(false);
      }
      var existing := inbox[message.id];
      if existing.body != message.body { return Err(PayloadConflict); }
      return Ok(existing.completed);
    }

    /** The inbox row and the wager commit together or not at all; a message that
        is already complete is acknowledged without effect. */
    method ProcessMessage(message: Protocol.Message, cmd: Command, now: Time, entryId: int)
      returns (r: Result<Option<ProcessResult>, Error>)
      modifies this
      ensures r.Err? || r == Ok(None) ==> Db() == old(Db()) && inbox == old(inbox)
      ensures r == Err(PayloadConflict) <==> message.id in old(inbox) && old(inbox)[message.id].body != message.body
      ensures r == Ok(None) <==> message.id in old(inbox) && old(inbox)[message.id] == Protocol.InboxRow(message.body, true)
      ensures message.id !in old(inbox) || old(inbox)[message.id] == Protocol.InboxRow(message.body, false) ==>
                match Process(old(Db()), cmd, now, entryId)
                case Err(e) => r == Err(e)
                case Ok(done) =>
                  && r == Ok(Some(done.1)) && Db() == done.0
                  && inbox == old(inbox)[message.id := Protocol.InboxRow(message.body, true)]
      ensures Valid(old(Db())) && TransportValid(cmd) ==> Valid(Db())
    {
      hide Valid, FreshAnswer, KnownAnswer, Process;
      NoConflict(Db(), cmd, now, entryId);
      var before := inbox;
      var registered := Register(message);
      if registered.Err? { return Err(registered.error); }
      if registered.value { return Ok(None); }
      var result := ProcessTx(cmd, now, entryId);
      if result.Err? {
        inbox := before;  // rollback
        return Err(result.error);
      }
      inbox := inbox[message.id := Protocol.InboxRow(message.body, true)];
      return Ok(Some(result.value));
    }

    // ---- pending_reference_resolver.go

    method SchedulePendingReferenceRetry(id: TxId, now: Time)
      requires id < |wagers|
      modifies this`wagers
      ensures wagers == old(wagers)[id := old(wagers)[id].(attempts := old(wagers)[id].attempts + 1,
                                                          nextAttemptAt := Some(NextAttempt(old(wagers)[id], now)),
                                                          updatedAt := now)]
    {
      var pending := wagers[id];
      var nextAttempts := pending.attempts + 1;
      var delay := ReferenceRetryBackoff(nextAttempts);
      var nextAttemptAt := now + delay;
      if pending.expiresAt.Some? && nextAttemptAt > pending.expiresAt.value {
        nextAttemptAt := pending.expiresAt.value;
      }
      wagers := wagers[id := pending.(attempts := nextAttempts, nextAttemptAt := Some(nextAttemptAt), updatedAt := now)];
    }

    method RejectPendingReference(id: TxId, balance: Int64, code: FailureCode, now: Time, reference: Option<TxId>)
      requires id < |wagers|
      modifies this`wagers, this`outbox
      ensures wagers == old(wagers)[id := old(wagers)[id].(state := Rejected, failureCode := Some(code),
                                                          resultBalance := Some(balance), referencedId := reference,
                                                          nextAttemptAt := None, updatedAt := now)]
      ensures outbox == old(outbox) + [RejectedEvent(id, RequestOf(old(wagers)[id]), code)]
    {
      var pending := wagers[id];
      wagers := wagers[id := pending.(state := Rejected, failureCode := Some(code), resultBalance := Some(balance),
                                      referencedId := reference, nextAttemptAt := None, updatedAt := now)];
      outbox := outbox + [TransactionRejected(id, pending.walletId, Text(pending.providerId), pending.kind, code)];
    }

    method ResolveMovement(id: TxId, wallet: Wallet, reference: TxId, direction: Direction, now: Time, entryId: int)
      returns (error: Option<Error>)
      requires id < |wagers| && wallet.id == wagers[id].walletId && LockWallet(Db(), wallet.id) == Ok(wallet.Row())
      modifies this, wallet
      ensures inbox == old(inbox)
      ensures match ResolverMove(old(wallet.Row()), RequestOf(old(wagers)[id]), reference, direction, now)
              case Fail(e) => error == Some(e) && Db() == old(Db())
              case outcome =>
                && error == None
                && Db() == Apply(old(Db()), id, ResolverWrites(old(wagers)[id], id, old(wallet.Row()), outcome, now, entryId))
    {
      var pending := wagers[id];
      var request := RequestOf(pending);
      var before := wallet.Row();
      var balanceBefore := wallet.balance;
      if direction.Credit? {
        error := wallet.Credit(request.amount, now);
        if error.Some? { return; }
      } else {
        error := wallet.Debit(request.amount, now);
        if error == Some(InsufficientFunds) {
          RejectPendingReference(id, wallet.balance.amount, REVERSAL_INSUFFICIENT_FUNDS, now, Some(reference));
          assert ledger == old(ledger) + [] && wallets == wallets[wallet.id := wallet.Row()];
          return None;
        }
        if error.Some? { return; }
      }
      wallets := wallets[wallet.id := wallet.Row()];
      wagers := wagers[id := pending.(state := Processed, referencedId := Some(reference),
                                      resultBalance := Some(wallet.balance.amount), failureCode := None,
                                      nextAttemptAt := None, updatedAt := now)];
      ledger := ledger + [LedgerEntry(entryId, wallet.id, id, direction, request.amount.amount,
                                      balanceBefore.amount, wallet.balance.amount, now)];
      InsertProcessedEvents(id, request, before, wallet, direction);
    }

    method ResolveClaimed(id: TxId, now: Time, entryId: int) returns (error: Option<Error>)
      requires id < |wagers|
      modifies this
      ensures inbox == old(inbox)
      ensures match ResolvePass(old(Db()), id, now, entryId)
              case Err(e) => error == Some(e) && Db() == old(Db())
              case Ok(db) => error == None && Db() == db
    {
      var pending := wagers[id];
      var loaded := LoadWallet(pending.walletId);
      if loaded.Err? { return Some(loaded.error); }
      var wallet := loaded.value;
      assert ledger == ledger + [] && outbox == outbox + [] && wallets == wallets[wallet.id := wallet.Row()];

      // An expired wager is rejected before its reference is even looked at.
      if pending.expiresAt.Some? && now >= pending.expiresAt.value {
        RejectPendingReference(id, wallet.balance.amount, REFERENCE_EXPIRED, now, None);
        return None;
      }
      var request := RequestOf(pending);
      if request.referenceExternalId == "" { return Some(ReferenceMismatch); }
      var found := FindByExternal(wagers, request.providerId, request.referenceExternalId);
      if found.None? {
        SchedulePendingReferenceRetry(id, now);
        return None;
      }
      var reference := wagers[found.value];
      match reference.state {
        case Pending | PendingReference =>
          SchedulePendingReferenceRetry(id, now);
          return None;
        case Rejected | Failed =>
          RejectPendingReference(id, wallet.balance.amount, REFERENCE_TERMINAL_UNSUCCESSFUL, now, found);
          return None;
        case Processed =>
      }
      var mismatch := ValidateReference(request, reference);
      if mismatch.Some? {
        RejectPendingReference(id, wallet.balance.amount, ReferenceFailureCode(mismatch.value), now, found);
        return None;
      }
      var direction := Credit;
      if !request.kind.Win? {
        if AlreadyReversed(wagers, found.value) {
          RejectPendingReference(id, wallet.balance.amount, ALREADY_REVERSED, now, found);
          return None;
        }
        var reversal := ReversalDirection(request.kind, reference.kind);
        if reversal.Err? { return Some(reversal.error); }
        direction := reversal.value;
      }
      error := ResolveMovement(id, wallet, found.value, direction, now, entryId);
    }

    /** One pass over the first due row: nothing due, a failed pass that leaves no
        trace, or the pass that ResolvePass specifies. */
    method ResolveOne(selectedAt: Time, now: Time, entryId: int) returns (r: Result<bool, Error>)
      requires selectedAt <= now
      modifies this
      ensures inbox == old(inbox)
      ensures match FirstDue(old(wagers), selectedAt)
              case None => r == Ok(false) && Db() == old(Db())
              case Some(id) =>
                match ResolvePass(old(Db()), id, now, entryId)
                case Err(e) => r == Err(e) && Db() == old(Db())
                case Ok(db) => r == Ok(true) && Db() == db
      ensures Valid(old(Db())) ==> Valid(Db())
    {
      hide Valid, ResolvePass;
      var due := FirstDue(wagers, selectedAt);
      if due.None? { return Ok(false); }
      if Valid(Db()) && ResolvePass(Db(), due.value, now, entryId).Ok? {
        Preservation.ResolveValid(Db(), due.value, now, entryId);
      }
      var error := ResolveClaimed(due.value, now, entryId);
      if error.Some? { return Err(error.value); }
      return Ok(true);
    }

    // ---- wallet/create.go

    method CreateOpeningTransaction(walletId: WalletId, playerId: string, initial: Money, now: Time, entryId: int)
      modifies this`wagers, this`ledger, this`outbox
      ensures var w := OpeningWrites(walletId, WalletRow(playerId, initial.currency, initial.amount, 1, now, now),
                                     |old(wagers)|, now, entryId);
              wagers == old(wagers) + [w.row] && ledger == old(ledger) + w.entries && outbox == old(outbox) + w.events
    {
      var id := |wagers|;
      wagers := wagers + [WagerRow(None, None, None, None, walletId, playerId, None, None, Opening, Processed,
                                   initial.amount, initial.currency, None, None, None, Some(initial.amount),
                                   0, None, None, now, now)];
      ledger := ledger + [LedgerEntry(entryId, walletId, id, Credit, initial.amount, 0, initial.amount, now)];
      outbox := outbox + [TransactionProcessed(id, walletId, Opening)];
      outbox := outbox + [BalanceChanged(id, walletId, Credit, initial, Money(0, initial.currency), initial, 1)];
    }

    method CreateWallet(walletId: WalletId, playerId: string, initial: Money, now: Time, entryId: int)
      returns (error: Option<Error>)
      requires walletId !in wallets
      modifies this
      ensures inbox == old(inbox)
      ensures match Create(old(Db()), walletId, playerId, initial, now, entryId)
              case Err(e) => error == Some(e) && Db() == old(Db())
              case Ok(db) => error == None && Db() == db
      ensures Valid(old(Db())) && !Blank(initial.currency) ==> Valid(Db())
    {
      hide Valid;
      if Valid(Db()) && !Blank(initial.currency) && Create(Db(), walletId, playerId, initial, now, entryId).Ok? {
        Preservation.CreateValid(Db(), walletId, playerId, initial, now, entryId);
      }
      var wallet := WalletRow(playerId, initial.currency, initial.amount, 1, now, now);
      error := ValidateWallet(wallet);
      if error.Some? { return; }
      if PlayerHasWallet(Db(), playerId, initial.currency) { return Some(WalletAlreadyExists); }
      wallets := wallets[walletId := wallet];
      if initial.amount != 0 {
        CreateOpeningTransaction(walletId, playerId, initial, now, entryId);
      }
    }
  }
}
