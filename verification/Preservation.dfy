/** Every transaction, run alone, keeps the invariant. */
module Preservation {
  import opened Common
  import opened Amounts
  import opened Wallets
  import opened Wagers
  import opened Tables
  import opened Decisions
  import opened Invariant
  import Agreement

  /** No committed row carries the command's external identity or its key. */
  predicate IdentityFree(wagers: seq<WagerRow>, cmd: Command) {
    forall i :: 0 <= i < |wagers| ==>
      && !HasExternal(wagers[i], cmd.request.providerId, cmd.request.externalId)
      && !HasKey(wagers[i], cmd.request.providerId, cmd.idempotencyKey)
  }

  /** The wallet row a transaction holds is the committed one, and the command
      may use it. */
  predicate Holds(db: Db, wallet: WalletRow, r: WagerRequest) {
    && r.walletId in db.wallets
    && db.wallets[r.walletId] == wallet
    && CheckOwner(wallet, r).None?
  }

  /** A reversal that goes through moves the wallet by the opposite of its reference. */
  lemma PostedReference(wagers: seq<WagerRow>, wallet: WalletRow, r: WagerRequest, now: Time)
    requires NeedsReference(r) && Decide(wagers, wallet, r, now).Post?
    ensures var o := Decide(wagers, wallet, r, now);
            && o.reference == FindByExternal(wagers, r.providerId, r.referenceExternalId)
            && o.reference.Some?
            && wagers[o.reference.value].state.Processed?
            && ValidateReference(r, wagers[o.reference.value]).None?
            && (r.kind.Rollback? ==> (o.movement == Some(Credit) <==> wagers[o.reference.value].kind.Bet?))
            && (!r.kind.Win? ==> !AlreadyReversed(wagers, o.reference.value))
  {
  }

  lemma PostedWallet(wagers: seq<WagerRow>, wallet: WalletRow, r: WagerRequest, now: Time)
    requires Decide(wagers, wallet, r, now).Post? && wallet.balance >= 0
    ensures var o := Decide(wagers, wallet, r, now);
            && o.wallet.playerId == wallet.playerId && o.wallet.currency == wallet.currency
            && o.wallet.balance >= 0
            && (r.kind.Loss? ==> o.wallet == wallet)
            && (!r.kind.Loss? ==>
                  && o.wallet.version == wallet.version + 1
                  && o.wallet.balance == wallet.balance
                       + SignedAmount(LedgerDirection(r.kind, o.movement), r.amount.amount))
            && (!NeedsReference(r) ==> o.reference.None?)
  {
  }

  /** A row built from a command with a free identity collides with no other. */
  lemma InsertedDistinct(wagers: seq<WagerRow>, cmd: Command, row: WagerRow)
    requires IdentityFree(wagers, cmd) && !row.kind.Opening?
    requires row.providerId == Some(cmd.request.providerId)
    requires row.externalId == Some(cmd.request.externalId) && row.idempotencyKey == Some(cmd.idempotencyKey)
    ensures forall i :: 0 <= i < |wagers| ==> Distinct(wagers[i], row)
  {
    forall i | 0 <= i < |wagers| ensures Distinct(wagers[i], row) {
      assert !HasExternal(wagers[i], cmd.request.providerId, cmd.request.externalId);
      assert !HasKey(wagers[i], cmd.request.providerId, cmd.idempotencyKey);
    }
  }

  /** What is asked of the row a command leaves, and of the wallet with it. */
  predicate SyncRowOk(db: Db, wallet: WalletRow, w: Writes) {
    && RowOk(db.wallets, db.wagers, w.row)
    && w.wallet.playerId == wallet.playerId && w.wallet.currency == wallet.currency
    && Booked(db.wagers, |db.wagers|, wallet, w)
    && (IsReversal(w.row) ==> !AlreadyReversed(db.wagers, w.row.referencedId.value))
  }

  lemma DeferRow(db: Db, cmd: Command, wallet: WalletRow, now: Time, entryId: int)
    requires TransportValid(cmd) && Precheck(cmd).None? && NeedsReference(cmd.request)
    requires Holds(db, wallet, cmd.request) && wallet.balance >= 0
    ensures SyncRowOk(db, wallet, SyncWrites(cmd, |db.wagers|, wallet, Unresolved, now, entryId))
  {
    hide AlreadyReversed, PendingEvent;
  }

  lemma RefuseRow(db: Db, cmd: Command, wallet: WalletRow, code: FailureCode, reference: Option<TxId>, now: Time, entryId: int)
    requires TransportValid(cmd) && Precheck(cmd).None? && Holds(db, wallet, cmd.request) && wallet.balance >= 0
    requires reference.Some? ==> reference.value < |db.wagers| && NeedsReference(cmd.request)
    ensures SyncRowOk(db, wallet, SyncWrites(cmd, |db.wagers|, wallet, Refuse(code, reference), now, entryId))
  {
    hide AlreadyReversed, RejectedEvent;
  }

  lemma RefusedReference(wagers: seq<WagerRow>, wallet: WalletRow, r: WagerRequest, now: Time)
    requires Decide(wagers, wallet, r, now).Refuse?
    ensures var o := Decide(wagers, wallet, r, now);
            o.reference.Some? ==> o.reference.value < |wagers| && NeedsReference(r)
  {
    hide AlreadyReversed, ValidateReference;
  }

  lemma PostRow(db: Db, cmd: Command, wallet: WalletRow, now: Time, entryId: int)
    requires TransportValid(cmd) && Precheck(cmd).None?
    requires Holds(db, wallet, cmd.request) && wallet.balance >= 0
    requires Decide(db.wagers, wallet, cmd.request, now).Post?
    ensures SyncRowOk(db, wallet, SyncWrites(cmd, |db.wagers|, wallet, Decide(db.wagers, wallet, cmd.request, now), now, entryId))
  {
    var r := cmd.request;
    PostedWallet(db.wagers, wallet, r, now);
    if NeedsReference(r) {
      PostedReference(db.wagers, wallet, r, now);
    }
    hide Decide, AlreadyReversed, ProcessedEvents, ValidateReference;
  }

  /** The row a command leaves is well formed and its movement booked. */
  lemma SyncRow(db: Db, cmd: Command, wallet: WalletRow, outcome: Outcome, now: Time, entryId: int)
    requires TransportValid(cmd) && Precheck(cmd).None?
    requires Holds(db, wallet, cmd.request) && wallet.balance >= 0
    requires outcome.Unresolved? || outcome.Refuse? || outcome.Post?
    requires || outcome == Decide(db.wagers, wallet, cmd.request, now)
             || (outcome.Unresolved? && NeedsReference(cmd.request))
    ensures SyncRowOk(db, wallet, SyncWrites(cmd, |db.wagers|, wallet, outcome, now, entryId))
  {
    if outcome.Post? {
      PostRow(db, cmd, wallet, now, entryId);
    } else if outcome.Refuse? {
      RefusedReference(db.wagers, wallet, cmd.request, now);
      RefuseRow(db, cmd, wallet, outcome.code, outcome.reference, now, entryId);
    } else {
      DeferredNeedsReference(db.wagers, wallet, cmd.request, now);
      DeferRow(db, cmd, wallet, now, entryId);
    }
    hide Decide, SyncWrites, SyncRowOk, TransportValid, Precheck, Holds, NeedsReference;
  }

  lemma DeferredNeedsReference(wagers: seq<WagerRow>, wallet: WalletRow, r: WagerRequest, now: Time)
    ensures Decide(wagers, wallet, r, now).Unresolved? ==> NeedsReference(r)
  {
  }

  /** The synchronous path's writes are sound. So is a PENDING_REFERENCE written
      on a stale reading of the reference. */
  lemma SyncSound(db: Db, cmd: Command, wallet: WalletRow, outcome: Outcome, now: Time, entryId: int)
    requires TransportValid(cmd) && Precheck(cmd).None?
    requires Holds(db, wallet, cmd.request) && wallet.balance >= 0 && IdentityFree(db.wagers, cmd)
    requires outcome.Unresolved? || outcome.Refuse? || outcome.Post?
    requires || outcome == Decide(db.wagers, wallet, cmd.request, now)
             || (outcome.Unresolved? && NeedsReference(cmd.request))
    ensures Sound(db, |db.wagers|, SyncWrites(cmd, |db.wagers|, wallet, outcome, now, entryId))
  {
    SyncRow(db, cmd, wallet, outcome, now, entryId);
    InsertedDistinct(db.wagers, cmd, SyncWrites(cmd, |db.wagers|, wallet, outcome, now, entryId).row);
  }

  lemma RetrySound(db: Db, id: TxId, wallet: WalletRow, now: Time, entryId: int)
    requires id < |db.wagers| && db.wagers[id].state.PendingReference?
    requires RowOk(db.wallets, db.wagers, db.wagers[id])
    requires wallet == db.wallets[db.wagers[id].walletId]
    ensures Sound(db, id, ResolverWrites(db.wagers[id], id, wallet, Unresolved, now, entryId))
  {
    hide AlreadyReversed, NextAttempt;
  }

  lemma ResolverRefusedReference(wagers: seq<WagerRow>, wallet: WalletRow, row: WagerRow, now: Time)
    requires Resolve(wagers, wallet, row, now).Refuse?
    ensures var o := Resolve(wagers, wallet, row, now);
            o.reference.Some? ==> o.reference.value < |wagers|
  {
    hide AlreadyReversed, ValidateReference, Expired;
  }

  lemma ResolverRefuseSound(db: Db, id: TxId, wallet: WalletRow, code: FailureCode, reference: Option<TxId>, now: Time,
                            entryId: int)
    requires id < |db.wagers| && db.wagers[id].state.PendingReference?
    requires RowOk(db.wallets, db.wagers, db.wagers[id])
    requires wallet == db.wallets[db.wagers[id].walletId] && wallet.balance >= 0
    requires reference.Some? ==> reference.value < |db.wagers|
    ensures Sound(db, id, ResolverWrites(db.wagers[id], id, wallet, Refuse(code, reference), now, entryId))
  {
    hide AlreadyReversed, RejectedEvent;
  }

  lemma ResolverPostSound(db: Db, id: TxId, wallet: WalletRow, now: Time, entryId: int)
    requires id < |db.wagers| && db.wagers[id].state.PendingReference?
    requires RowOk(db.wallets, db.wagers, db.wagers[id])
    requires wallet == db.wallets[db.wagers[id].walletId] && wallet.balance >= 0
    requires Resolve(db.wagers, wallet, db.wagers[id], now).Post?
    ensures Sound(db, id, ResolverWrites(db.wagers[id], id, wallet, Resolve(db.wagers, wallet, db.wagers[id], now), now, entryId))
  {
    var row := db.wagers[id];
    Agreement.OutcomesAgree(db.wagers, wallet, row, now);
    PostedReference(db.wagers, wallet, RequestOf(row), now);
    PostedWallet(db.wagers, wallet, RequestOf(row), now);
    hide Decide, Resolve, AlreadyReversed, ProcessedEvents, ValidateReference;
  }

  /** So are the resolver's, and a retry scheduled on a stale reading. */
  lemma ResolverSound(db: Db, id: TxId, wallet: WalletRow, outcome: Outcome, now: Time, entryId: int)
    requires id < |db.wagers| && db.wagers[id].state.PendingReference?
    requires RowOk(db.wallets, db.wagers, db.wagers[id])
    requires wallet == db.wallets[db.wagers[id].walletId] && wallet.balance >= 0
    requires outcome.Unresolved? || outcome.Refuse? || outcome.Post?
    requires outcome == Resolve(db.wagers, wallet, db.wagers[id], now) || outcome.Unresolved?
    ensures Sound(db, id, ResolverWrites(db.wagers[id], id, wallet, outcome, now, entryId))
  {
    hide Resolve, ResolverWrites, RowOk, Sound;
    if outcome.Post? {
      ResolverPostSound(db, id, wallet, now, entryId);
    } else if outcome.Refuse? {
      ResolverRefusedReference(db.wagers, wallet, db.wagers[id], now);
      ResolverRefuseSound(db, id, wallet, outcome.code, outcome.reference, now, entryId);
    } else {
      RetrySound(db, id, wallet, now, entryId);
    }
  }

  lemma ReplayMiss(wagers: seq<WagerRow>, cmd: Command)
    requires FindByKey(wagers, cmd.request.providerId, cmd.idempotencyKey).None?
    requires FindByExternal(wagers, cmd.request.providerId, cmd.request.externalId).None?
    ensures IdentityFree(wagers, cmd)
  {
  }

  lemma ProcessValid(db: Db, cmd: Command, now: Time, entryId: int)
    requires Valid(db) && TransportValid(cmd) && Process(db, cmd, now, entryId).Ok?
    ensures Valid(Process(db, cmd, now, entryId).value.0)
  {
    var r := cmd.request;
    if FindByKey(db.wagers, r.providerId, cmd.idempotencyKey).None? {
      ReplayMiss(db.wagers, cmd);
      var wallet := db.wallets[r.walletId];
      var outcome := Decide(db.wagers, wallet, r, now);
      assert WalletOk(db, r.walletId);
      SyncSound(db, cmd, wallet, outcome, now, entryId);
      SoundApply(db, |db.wagers|, SyncWrites(cmd, |db.wagers|, wallet, outcome, now, entryId));
    }
  }

  lemma ResolveValid(db: Db, id: TxId, now: Time, entryId: int)
    requires Valid(db) && id < |db.wagers| && db.wagers[id].state.PendingReference?
    requires ResolvePass(db, id, now, entryId).Ok?
    ensures Valid(ResolvePass(db, id, now, entryId).value)
  {
    var row := db.wagers[id];
    var wallet := db.wallets[row.walletId];
    var outcome := Resolve(db.wagers, wallet, row, now);
    assert RowOk(db.wallets, db.wagers, row) && WalletOk(db, row.walletId);
    ResolverSound(db, id, wallet, outcome, now, entryId);
    SoundApply(db, id, ResolverWrites(row, id, wallet, outcome, now, entryId));
  }

  // ---- Creating a wallet

  /** The state between the two inserts of a funded creation, with nothing in the wallet. */
  function EmptyWallet(db: Db, walletId: WalletId, wallet: WalletRow): Db {
    db.(wallets := db.wallets[walletId := wallet.(balance := 0)])
  }

  lemma {:induction false} NoRows(wagers: seq<WagerRow>, w: WalletId, n: nat)
    requires n <= |wagers| && forall i :: 0 <= i < n ==> wagers[i].walletId != w
    ensures Total(wagers, w, n) == 0
  {
    if n > 0 { NoRows(wagers, w, n - 1); }
  }

  lemma {:induction false} NoEntries(wagers: seq<WagerRow>, ledger: seq<LedgerEntry>, w: WalletId)
    requires forall j :: 0 <= j < |ledger| ==> ledger[j].walletId != w
    ensures LedgerOf(ledger, w) == [] && Moves(wagers, ledger, w) == 0
  {
    if ledger != [] { NoEntries(wagers, ledger[..|ledger| - 1], w); }
  }

  lemma EmptyWalletUnused(db: Db, walletId: WalletId)
    requires Valid(db) && walletId !in db.wallets
    ensures forall i :: 0 <= i < |db.wagers| ==> db.wagers[i].walletId != walletId
    ensures forall j :: 0 <= j < |db.ledger| ==> db.ledger[j].walletId != walletId
  {
    forall i | 0 <= i < |db.wagers| ensures db.wagers[i].walletId != walletId {
      assert RowOk(db.wallets, db.wagers, db.wagers[i]);
    }
    forall j | 0 <= j < |db.ledger| ensures db.ledger[j].walletId != walletId {
      assert EntryOk(db.wagers, db.ledger[j]);
    }
  }

  lemma EmptyWalletRows(db: Db, walletId: WalletId, wallet: WalletRow)
    requires RowsOk(db) && walletId !in db.wallets
    ensures RowsOk(EmptyWallet(db, walletId, wallet))
  {
    var db' := EmptyWallet(db, walletId, wallet);
    forall i | 0 <= i < |db.wagers| ensures RowOk(db'.wallets, db.wagers, db.wagers[i]) {
      assert RowOk(db.wallets, db.wagers, db.wagers[i]);
      hide WagerChecks, LinkOk;
    }
  }

  lemma EmptyWalletOk(db: Db, walletId: WalletId, wallet: WalletRow, x: WalletId)
    requires wallet.playerId != "" && wallet.currency != "" && wallet.version == 1
    requires x in EmptyWallet(db, walletId, wallet).wallets && (x != walletId ==> WalletOk(db, x))
    requires forall i :: 0 <= i < |db.wagers| ==> db.wagers[i].walletId != walletId
    requires forall j :: 0 <= j < |db.ledger| ==> db.ledger[j].walletId != walletId
    ensures WalletOk(EmptyWallet(db, walletId, wallet), x)
  {
    NoRows(db.wagers, walletId, |db.wagers|);
    NoEntries(db.wagers, db.ledger, walletId);
    hide Total, Moves, LedgerOf;
  }

  lemma EmptyWalletValid(db: Db, walletId: WalletId, wallet: WalletRow)
    requires Valid(db) && walletId !in db.wallets
    requires wallet.playerId != "" && wallet.currency != "" && wallet.version == 1
    requires !PlayerHasWallet(db, wallet.playerId, wallet.currency)
    ensures Valid(EmptyWallet(db, walletId, wallet))
  {
    EmptyWalletUnused(db, walletId);
    hide RowsOk, RowsDistinct, ReversalsSingle, LedgerOk, WalletOk;
    EmptyWalletRows(db, walletId, wallet);
    var db' := EmptyWallet(db, walletId, wallet);
    forall x | x in db'.wallets ensures WalletOk(db', x) {
      EmptyWalletOk(db, walletId, wallet, x);
    }
  }

  lemma OpeningSound(db: Db, walletId: WalletId, wallet: WalletRow, now: Time, entryId: int)
    requires Valid(db) && walletId !in db.wallets && !Blank(wallet.currency) && wallet.playerId != ""
    requires wallet.version == 1 && wallet.balance > 0
    ensures Sound(EmptyWallet(db, walletId, wallet), |db.wagers|, OpeningWrites(walletId, wallet, |db.wagers|, now, entryId))
  {
    var row := OpeningWrites(walletId, wallet, |db.wagers|, now, entryId).row;
    forall i | 0 <= i < |db.wagers| ensures Distinct(db.wagers[i], row) {
      assert RowOk(db.wallets, db.wagers, db.wagers[i]);
    }
  }

  /** Creation is the empty wallet followed, when funded, by its opening. */
  lemma CreateShape(db: Db, walletId: WalletId, playerId: string, initial: Money, now: Time, entryId: int)
    requires walletId !in db.wallets && Create(db, walletId, playerId, initial, now, entryId).Ok?
    ensures var wallet := WalletRow(playerId, initial.currency, initial.amount, 1, now, now);
            var empty := EmptyWallet(db, walletId, wallet);
            && ValidateWallet(wallet).None? && !PlayerHasWallet(db, playerId, initial.currency)
            && Create(db, walletId, playerId, initial, now, entryId).value
               == if initial.amount == 0 then empty
                  else Apply(empty, |db.wagers|, OpeningWrites(walletId, wallet, |db.wagers|, now, entryId))
  {
  }

  lemma CreateValid(db: Db, walletId: WalletId, playerId: string, initial: Money, now: Time, entryId: int)
    requires Valid(db) && walletId !in db.wallets && !Blank(initial.currency)
    requires Create(db, walletId, playerId, initial, now, entryId).Ok?
    ensures Valid(Create(db, walletId, playerId, initial, now, entryId).value)
  {
    hide Create;
    CreateShape(db, walletId, playerId, initial, now, entryId);
    var wallet := WalletRow(playerId, initial.currency, initial.amount, 1, now, now);
    EmptyWalletValid(db, walletId, wallet);
    if initial.amount != 0 {
      OpeningSound(db, walletId, wallet, now, entryId);
      SoundApply(EmptyWallet(db, walletId, wallet), |db.wagers|,
                 OpeningWrites(walletId, wallet, |db.wagers|, now, entryId));
    }
  }
}
