/** What callers are told: who is let in, why a command is refused, and what the
    answer to an accepted one says, the first time and every time after. */
module Answers {
  import opened Common
  import opened Amounts
  import opened Wallets
  import opened Wagers
  import opened Tables
  import opened Decisions
  import opened Agreement
  import opened Invariant

  // ---- Who is let in

  /** The rules of wagers: a bet or a win stakes money, a loss none, a reversal
      names what it reverses, and only a win may do either. */
  predicate Proper(r: WagerRequest) {
    match r.kind
    case Bet => r.amount.amount > 0 && r.referenceExternalId == ""
    case Win => r.amount.amount > 0
    case Loss => r.amount.amount == 0 && r.referenceExternalId == ""
    case Refund | Rollback => r.amount.amount > 0 && r.referenceExternalId != ""
    case Opening => false
  }

  /** A command is let in exactly if its request is proper and it carries a key;
      otherwise it is told the first rule it breaks. */
  lemma AdmissionTable(cmd: Command)
    ensures var r, answer := cmd.request, Precheck(cmd);
            && (answer.None? <==> Proper(r) && cmd.idempotencyKey != "")
            && (answer == Some(InvalidWagerKind) <==> r.kind.Opening?)
            && (answer == Some(InvalidLossAmount) <==> r.kind.Loss? && r.amount.amount != 0)
            && (answer == Some(InvalidAmount) <==> !r.kind.Opening? && !r.kind.Loss? && r.amount.amount <= 0)
            && (answer == Some(ReferenceNotAllowed) <==>
                  && r.referenceExternalId != ""
                  && ((r.kind.Bet? && r.amount.amount > 0) || (r.kind.Loss? && r.amount.amount == 0)))
            && (answer == Some(ReferenceRequired) <==>
                  && r.referenceExternalId == "" && r.amount.amount > 0 && (r.kind.Refund? || r.kind.Rollback?))
            && (answer == Some(IdempotencyKeyRequired) <==> Proper(r) && cmd.idempotencyKey == "")
  {
  }

  // ---- Why a command is refused

  predicate KeyUsed(wagers: seq<WagerRow>, cmd: Command) {
    exists i :: 0 <= i < |wagers| && wagers[i].providerId == Some(cmd.request.providerId)
                && wagers[i].idempotencyKey == Some(cmd.idempotencyKey)
  }

  /** The key was used for another payload. */
  predicate KeyMisused(wagers: seq<WagerRow>, cmd: Command) {
    exists i :: 0 <= i < |wagers| && wagers[i].providerId == Some(cmd.request.providerId)
                && wagers[i].idempotencyKey == Some(cmd.idempotencyKey)
                && wagers[i].payloadHash != Some(PayloadHash(cmd.request))
  }

  predicate ExternalUsed(wagers: seq<WagerRow>, cmd: Command) {
    exists i :: 0 <= i < |wagers| && wagers[i].providerId == Some(cmd.request.providerId)
                && wagers[i].externalId == Some(cmd.request.externalId)
  }

  /** Why a command that is let in gets no further than the checks, if so. */
  function Obstacle(db: Db, cmd: Command): Option<Error> {
    var r := cmd.request;
    if KeyUsed(db.wagers, cmd) then (if KeyMisused(db.wagers, cmd) then Some(IdempotencyConflict) else None)
    else if r.walletId !in db.wallets then Some(WalletNotFound)
    else if ExternalUsed(db.wagers, cmd) then Some(ExternalTransactionExists)
    else if db.wallets[r.walletId].playerId != r.playerId then Some(WalletPlayerMismatch)
    else if db.wallets[r.walletId].currency != r.amount.currency then Some(CurrencyMismatch)
    else None
  }

  lemma KeyUnique(wagers: seq<WagerRow>, providerId: string, key: string, i: nat, j: nat)
    requires RowsDistinct(wagers) && i < |wagers| && j < |wagers|
    requires HasKey(wagers[i], providerId, key) && HasKey(wagers[j], providerId, key)
    ensures i == j
  {
  }

  lemma {:induction false} FindsUsed(wagers: seq<WagerRow>, cmd: Command)
    ensures FindByKey(wagers, cmd.request.providerId, cmd.idempotencyKey).Some? <==> KeyUsed(wagers, cmd)
    ensures FindByExternal(wagers, cmd.request.providerId, cmd.request.externalId).Some? <==> ExternalUsed(wagers, cmd)
    ensures RowsDistinct(wagers) ==>
              (KeyMisused(wagers, cmd) <==>
                 && FindByKey(wagers, cmd.request.providerId, cmd.idempotencyKey).Some?
                 && wagers[FindByKey(wagers, cmd.request.providerId, cmd.idempotencyKey).value].payloadHash
                    != Some(PayloadHash(cmd.request)))
  {
    var found := FindByKey(wagers, cmd.request.providerId, cmd.idempotencyKey);
    if RowsDistinct(wagers) && found.Some? {
      forall i | 0 <= i < |wagers| && HasKey(wagers[i], cmd.request.providerId, cmd.idempotencyKey)
        ensures i == found.value
      {
        KeyUnique(wagers, cmd.request.providerId, cmd.idempotencyKey, i, found.value);
      }
    }
  }

  /** On valid tables a command that is let in fails exactly for the obstacle it
      meets, or because its movement would leave int64. */
  lemma RefusalTable(db: Db, cmd: Command, now: Time, entryId: int)
    requires Valid(db) && Precheck(cmd).None?
    ensures var answer := Process(db, cmd, now, entryId);
            match Obstacle(db, cmd)
            case Some(e) => answer == Err(e)
            case None =>
              if KeyUsed(db.wagers, cmd) then answer.Ok? && answer.value.1.replay && answer.value.0 == db
              else
                && (answer.Ok? <==> !Decide(db.wagers, db.wallets[cmd.request.walletId], cmd.request, now).Fail?)
                && (answer.Ok? ==> !answer.value.1.replay)
                && (answer.Err? ==> answer == Err(MoneyOverflow) || answer == Err(WalletVersionOverflow))
  {
    FindsUsed(db.wagers, cmd);
    var r := cmd.request;
    if r.walletId in db.wallets {
      assert WalletOk(db, r.walletId);
      if CheckOwner(db.wallets[r.walletId], r).None? {
        FailsByRange(db.wagers, db.wallets[r.walletId], cmd, now);
      }
    }
    assert RowsDistinct(db.wagers);
    hide Valid, Precheck, FindByKey, FindByExternal, Decide, SyncWrites, Apply, KeyUsed, KeyMisused, ExternalUsed, ValidateWallet, RowsDistinct;
  }

  lemma FailsByRange(wagers: seq<WagerRow>, wallet: WalletRow, cmd: Command, now: Time)
    requires Precheck(cmd).None? && ValidateWallet(wallet).None? && CheckOwner(wallet, cmd.request).None?
    ensures var o := Decide(wagers, wallet, cmd.request, now);
            o.Fail? ==> o.error == MoneyOverflow || o.error == WalletVersionOverflow
  {
    hide AlreadyReversed;
  }

  /** The conflict of message bodies is the inbox's to report and nobody else's. */
  lemma NoConflict(db: Db, cmd: Command, now: Time, entryId: int)
    ensures Process(db, cmd, now, entryId) != Err(PayloadConflict)
  {
    DecideNoConflict(db, cmd.request, now);
    hide FindByKey, FindByExternal, Decide, SyncWrites, Apply;
  }

  lemma DecideNoConflict(db: Db, r: WagerRequest, now: Time)
    ensures r.walletId in db.wallets ==> Decide(db.wagers, db.wallets[r.walletId], r, now) != Fail(PayloadConflict)
  {
    hide AlreadyReversed, FindByExternal, ValidateReference;
  }

  // ---- What the first answer says

  /** The answer to a command that was new names the row it left, tells how that
      row ended, and the balance the wallet has in the tables now. Nothing but that
      row is written besides the wallet, its events and, if money moved, one entry. */
  predicate FreshAnswer(db: Db, cmd: Command, now: Time, entryId: int, db': Db, answer: ProcessResult) {
    var w, id := cmd.request.walletId, answer.txId;
    && id == |db.wagers| && |db'.wagers| == id + 1 && db'.wagers[..id] == db.wagers
    && w in db'.wallets && db'.wallets.Keys == db.wallets.Keys
    && (forall x :: x in db.wallets && x != w ==> db'.wallets[x] == db.wallets[x])
    && !answer.replay
    && answer.balance == Money(db'.wallets[w].balance, db'.wallets[w].currency)
    && var row := db'.wagers[id];
       && Stores(row, cmd) && row.createdAt == now == row.updatedAt && row.attempts == 0
       && answer.state == row.state && answer.failureCode == row.failureCode
       && row.resultBalance == Some(answer.balance.amount)
       && (MovesMoney(row) ==>
             && |db'.ledger| == |db.ledger| + 1
             && var e := db'.ledger[|db.ledger|];
                && e.id == entryId && e.txId == id && e.walletId == w && e.createdAt == now
                && e.amount == row.amount && e.balanceBefore == db.wallets[w].balance
                && e.balanceAfter == answer.balance.amount)
       && (!MovesMoney(row) ==> db'.wallets == db.wallets && db'.ledger == db.ledger)
       && db.ledger <= db'.ledger && db.outbox <= db'.outbox
  }

  lemma QuietAnswer(db: Db, cmd: Command, wallet: WalletRow, outcome: Outcome, now: Time, entryId: int)
    requires cmd.request.walletId in db.wallets && wallet == db.wallets[cmd.request.walletId]
    requires outcome.Unresolved? || outcome.Refuse?
    ensures var w := SyncWrites(cmd, |db.wagers|, wallet, outcome, now, entryId);
            FreshAnswer(db, cmd, now, entryId, Apply(db, |db.wagers|, w), NewResult(|db.wagers|, w))
  {
    assert db.wallets[cmd.request.walletId := wallet] == db.wallets;
    assert db.ledger + [] == db.ledger;
    hide PendingEvent, RejectedEvent, PayloadHash;
  }

  lemma PostedAnswer(db: Db, cmd: Command, wallet: WalletRow, outcome: Outcome, now: Time, entryId: int)
    requires cmd.request.walletId in db.wallets && wallet == db.wallets[cmd.request.walletId]
    requires outcome.Post? && (cmd.request.kind.Loss? ==> outcome.wallet == wallet)
    ensures var w := SyncWrites(cmd, |db.wagers|, wallet, outcome, now, entryId);
            FreshAnswer(db, cmd, now, entryId, Apply(db, |db.wagers|, w), NewResult(|db.wagers|, w))
  {
    assert db.wallets[cmd.request.walletId := wallet] == db.wallets;
    assert db.ledger + [] == db.ledger;
    hide ProcessedEvents, PayloadHash, LedgerDirection;
  }

  lemma NewAnswer(db: Db, cmd: Command, now: Time, entryId: int)
    requires Process(db, cmd, now, entryId).Ok? && !KeyUsed(db.wagers, cmd)
    ensures cmd.request.walletId in db.wallets
    ensures var wallet := db.wallets[cmd.request.walletId];
            var outcome := Decide(db.wagers, wallet, cmd.request, now);
            && !outcome.Fail?
            && var w := SyncWrites(cmd, |db.wagers|, wallet, outcome, now, entryId);
               Process(db, cmd, now, entryId) == Ok((Apply(db, |db.wagers|, w), NewResult(|db.wagers|, w)))
  {
    FindsUsed(db.wagers, cmd);
    hide FindByKey, FindByExternal, Decide, KeyUsed, ExternalUsed, KeyMisused, Precheck, SyncWrites, Apply, NewResult;
  }

  lemma ProcessAnswers(db: Db, cmd: Command, now: Time, entryId: int)
    requires Process(db, cmd, now, entryId).Ok? && !KeyUsed(db.wagers, cmd)
    ensures var done := Process(db, cmd, now, entryId).value;
            FreshAnswer(db, cmd, now, entryId, done.0, done.1)
  {
    hide *;
    NewAnswer(db, cmd, now, entryId);
    var wallet := db.wallets[cmd.request.walletId];
    var outcome := Decide(db.wagers, wallet, cmd.request, now);
    if outcome.Post? {
      LossKeepsWallet(db.wagers, wallet, cmd.request, now);
      PostedAnswer(db, cmd, wallet, outcome, now, entryId);
    } else {
      QuietAnswer(db, cmd, wallet, outcome, now, entryId);
    }
  }

  lemma LossKeepsWallet(wagers: seq<WagerRow>, wallet: WalletRow, r: WagerRequest, now: Time)
    ensures var o := Decide(wagers, wallet, r, now);
            o.Post? && r.kind.Loss? ==> o.wallet == wallet
  {
    hide AlreadyReversed, FindByExternal, ValidateReference;
  }

  // ---- What every later answer says

  /** The answer to a command that was known: the row as it stands and, if the row
      moved money, the balance that movement left. */
  predicate KnownAnswer(db: Db, cmd: Command, answer: ProcessResult) {
    var id := answer.txId;
    && answer.replay && id < |db.wagers|
    && var row := db.wagers[id];
       && HasKey(row, cmd.request.providerId, cmd.idempotencyKey)
       && row.payloadHash == Some(PayloadHash(cmd.request))
       && answer.state == row.state && answer.failureCode == row.failureCode
       && answer.balance.currency == row.currency && row.resultBalance == Some(answer.balance.amount)
       && (MovesMoney(row) ==>
             exists j :: 0 <= j < |db.ledger| && db.ledger[j].txId == id
                         && db.ledger[j].balanceAfter == answer.balance.amount)
  }

  lemma KnownAnswered(db: Db, cmd: Command, now: Time, entryId: int)
    requires Valid(db) && Process(db, cmd, now, entryId).Ok? && KeyUsed(db.wagers, cmd)
    ensures var done := Process(db, cmd, now, entryId).value;
            done.0 == db && KnownAnswer(db, cmd, done.1)
  {
    FindsUsed(db.wagers, cmd);
    var id := FindByKey(db.wagers, cmd.request.providerId, cmd.idempotencyKey).value;
    assert RowOk(db.wallets, db.wagers, db.wagers[id]);
    if MovesMoney(db.wagers[id]) {
      assert HasEntry(db.ledger, id);
      var j :| 0 <= j < |db.ledger| && db.ledger[j].txId == id;
      assert EntryOk(db.wagers, db.ledger[j]);
    }
    hide Valid, RowOk, FindByKey, FindByExternal, KeyUsed, Precheck, Signed;
  }

  /** A command sent again at once is told the same, marked as a replay, and nothing
      changes. */
  lemma AnsweredAgain(db: Db, cmd: Command, now: Time, entryId: int, later: Time, entryId': int)
    requires Process(db, cmd, now, entryId).Ok? && !KeyUsed(db.wagers, cmd)
    ensures var done := Process(db, cmd, now, entryId).value;
            Process(done.0, cmd, later, entryId') == Ok((done.0, done.1.(replay := true)))
  {
    ProcessAnswers(db, cmd, now, entryId);
    var done := Process(db, cmd, now, entryId).value;
    FindsUsed(db.wagers, cmd);
    assert Precheck(cmd).None?;
    FirstOfKey(db.wagers, done.0.wagers, cmd);
    assert done.1.balance.currency == cmd.request.amount.currency by {
      SameCurrency(db, cmd, now, entryId);
    }
    assert RequestOf(done.0.wagers[done.1.txId]) == cmd.request;
    hide Precheck, FindByKey, Decide, KeyUsed, LockWallet, ProcessNew;
  }

  lemma SameCurrency(db: Db, cmd: Command, now: Time, entryId: int)
    requires Process(db, cmd, now, entryId).Ok? && !KeyUsed(db.wagers, cmd)
    ensures Process(db, cmd, now, entryId).value.1.balance.currency == cmd.request.amount.currency
  {
    FindsUsed(db.wagers, cmd);
    PostCurrency(db.wagers, db.wallets[cmd.request.walletId], cmd.request, now);
    hide FindByKey, FindByExternal, Decide, KeyUsed, Precheck;
  }

  lemma PostCurrency(wagers: seq<WagerRow>, wallet: WalletRow, r: WagerRequest, now: Time)
    ensures var o := Decide(wagers, wallet, r, now);
            o.Post? ==> o.wallet.currency == wallet.currency
  {
    hide AlreadyReversed, FindByExternal, ValidateReference;
  }

  lemma FirstOfKey(wagers: seq<WagerRow>, wagers': seq<WagerRow>, cmd: Command)
    requires !KeyUsed(wagers, cmd) && |wagers'| == |wagers| + 1 && wagers'[..|wagers|] == wagers
    requires Stores(wagers'[|wagers|], cmd)
    ensures FindByKey(wagers', cmd.request.providerId, cmd.idempotencyKey) == Some(|wagers|)
  {
    var p, k := cmd.request.providerId, cmd.idempotencyKey;
    assert RequestOf(wagers'[|wagers|]).providerId == p;
    assert HasKey(wagers'[|wagers|], p, k);
    forall i | 0 <= i < |wagers| ensures !HasKey(wagers'[i], p, k) {
      assert wagers'[i] == wagers'[..|wagers|][i] == wagers[i];
    }
  }

  // ---- What a creation leaves

  /** A wallet is created exactly for a named player in a named currency with a
      balance that is not negative, if the player has none in that currency. */
  predicate Creatable(db: Db, playerId: string, initial: Money) {
    && playerId != "" && initial.currency != "" && initial.amount >= 0
    && !(exists w :: w in db.wallets && db.wallets[w].playerId == playerId && db.wallets[w].currency == initial.currency)
  }

  predicate OpenedBy(row: WagerRow, walletId: WalletId, playerId: string, initial: Money, now: Time) {
    && row.kind.Opening? && row.state.Processed? && row.walletId == walletId && row.playerId == playerId
    && row.amount == initial.amount && row.currency == initial.currency && row.resultBalance == Some(initial.amount)
    && row.providerId.None? && row.externalId.None? && row.idempotencyKey.None? && row.payloadHash.None?
    && row.createdAt == now == row.updatedAt
  }

  /** The wallet holds its initial balance at version 1; a positive one came in by a
      processed opening with one entry from zero. */
  lemma CreationTable(db: Db, walletId: WalletId, playerId: string, initial: Money, now: Time, entryId: int)
    requires walletId !in db.wallets
    ensures var made := Create(db, walletId, playerId, initial, now, entryId);
            && (made.Ok? <==> Creatable(db, playerId, initial))
            && (made == Err(InvalidWalletPlayer) <==> playerId == "")
            && (made == Err(InvalidWalletCurrency) <==> playerId != "" && initial.currency == "")
            && (made == Err(InvalidWalletBalance) <==> playerId != "" && initial.currency != "" && initial.amount < 0)
            && (made.Err? && playerId != "" && initial.currency != "" && initial.amount >= 0 ==>
                  made == Err(WalletAlreadyExists))
            && (made.Ok? ==>
                  && made.value.wallets == db.wallets[walletId := WalletRow(playerId, initial.currency, initial.amount, 1, now, now)]
                  && (initial.amount == 0 ==>
                        made.value.wagers == db.wagers && made.value.ledger == db.ledger && made.value.outbox == db.outbox)
                  && (initial.amount > 0 ==>
                        && |made.value.wagers| == |db.wagers| + 1 && made.value.wagers[..|db.wagers|] == db.wagers
                        && OpenedBy(made.value.wagers[|db.wagers|], walletId, playerId, initial, now)
                        && made.value.ledger == db.ledger + [LedgerEntry(entryId, walletId, |db.wagers|, Credit, initial.amount,
                                                                         0, initial.amount, now)]
                        && made.value.outbox == db.outbox + [TransactionProcessed(|db.wagers|, walletId, Opening),
                                                             BalanceChanged(|db.wagers|, walletId, Credit, initial,
                                                                            Money(0, initial.currency), initial, 1)]))
  {
  }
}
