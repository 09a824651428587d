/** What a transaction has read stays true while others commit. */
module Stability {
  import opened Common
  import opened Amounts
  import opened Wallets
  import opened Wagers
  import opened Tables
  import opened Decisions
  import opened Invariant

  /** A committed write leaves terminal rows and identities alone. */
  predicate Overwrites(wagers: seq<WagerRow>, id: TxId, row: WagerRow) {
    && id <= |wagers|
    && (id < |wagers| ==> wagers[id].state.PendingReference? && SameIdentity(wagers[id], row))
  }

  /** Its reversals stay within its own wallet. */
  predicate Confined(wagers: seq<WagerRow>, row: WagerRow) {
    IsReversal(row) ==>
      && row.referencedId.value < |wagers|
      && wagers[row.referencedId.value].walletId == row.walletId
  }

  lemma SoundConfined(db: Db, id: TxId, w: Writes)
    requires Sound(db, id, w)
    ensures Overwrites(db.wagers, id, w.row) && Confined(db.wagers, w.row)
  {
  }

  lemma FindExternalPut(wagers: seq<WagerRow>, id: TxId, row: WagerRow, providerId: string, externalId: string)
    requires Overwrites(wagers, id, row)
    requires FindByExternal(wagers, providerId, externalId).Some?
    ensures FindByExternal(Put(wagers, id, row), providerId, externalId) == FindByExternal(wagers, providerId, externalId)
  {
    var rows := Put(wagers, id, row);
    var was := FindByExternal(wagers, providerId, externalId).value;
    var now := FindByExternal(rows, providerId, externalId);
    assert forall i :: 0 <= i < |wagers| ==>
        (HasExternal(rows[i], providerId, externalId) <==> HasExternal(wagers[i], providerId, externalId));
    assert HasExternal(rows[was], providerId, externalId);
  }

  lemma ReadPut(wagers: seq<WagerRow>, id: TxId, row: WagerRow, r: WagerRequest)
    requires Overwrites(wagers, id, row)
    ensures ReadReference(wagers, r) != Settled(Unresolved)
        ==> ReadReference(Put(wagers, id, row), r) == ReadReference(wagers, r)
  {
    if FindByExternal(wagers, r.providerId, r.referenceExternalId).Some? {
      FindExternalPut(wagers, id, row, r.providerId, r.referenceExternalId);
    }
  }

  lemma ReversedPut(wagers: seq<WagerRow>, id: TxId, row: WagerRow, ref: TxId)
    requires Overwrites(wagers, id, row) && Confined(wagers, row)
    requires ref < |wagers| && wagers[ref].walletId != row.walletId
    ensures AlreadyReversed(Put(wagers, id, row), ref) == AlreadyReversed(wagers, ref)
  {
    var rows := Put(wagers, id, row);
    assert !Reverses(row, ref);
    if AlreadyReversed(wagers, ref) {
      var i :| 0 <= i < |wagers| && Reverses(wagers[i], ref);
      assert Reverses(rows[i], ref);
    }
    if AlreadyReversed(rows, ref) {
      var i :| 0 <= i < |rows| && Reverses(rows[i], ref);
      assert Reverses(wagers[i], ref);
    }
  }

  lemma UsableWallet(wagers: seq<WagerRow>, r: WagerRequest)
    requires ReadReference(wagers, r).Usable?
    ensures var id := ReadReference(wagers, r).id;
            && wagers[id].walletId == r.walletId && wagers[id].state.Processed?
            && FindByExternal(wagers, r.providerId, r.referenceExternalId) == Some(id)
  {
  }

  /** A money-moving or rejecting decision for one wallet survives any commit on
      another wallet. Only an unresolved reference can become stale. */
  lemma DecidePut(wagers: seq<WagerRow>, id: TxId, row: WagerRow, wallet: WalletRow, r: WagerRequest, now: Time)
    requires Overwrites(wagers, id, row) && Confined(wagers, row)
    requires r.walletId != row.walletId
    ensures !Decide(wagers, wallet, r, now).Unresolved?
        ==> Decide(Put(wagers, id, row), wallet, r, now) == Decide(wagers, wallet, r, now)
  {
    ReadPut(wagers, id, row, r);
    if ReadReference(wagers, r).Usable? {
      UsableWallet(wagers, r);
      ReversedPut(wagers, id, row, ReadReference(wagers, r).id);
    }
  }

  lemma ResolvePut(wagers: seq<WagerRow>, id: TxId, row: WagerRow, wallet: WalletRow, pending: WagerRow, now: Time)
    requires Overwrites(wagers, id, row) && Confined(wagers, row)
    requires pending.walletId != row.walletId
    ensures !Resolve(wagers, wallet, pending, now).Unresolved?
        ==> Resolve(Put(wagers, id, row), wallet, pending, now) == Resolve(wagers, wallet, pending, now)
  {
    var r := RequestOf(pending);
    ReadPut(wagers, id, row, r);
    if ReadReference(wagers, r).Usable? {
      UsableWallet(wagers, r);
      ReversedPut(wagers, id, row, ReadReference(wagers, r).id);
    }
  }

  // ---- Deferrals

  /** The wager a request refers to has ended: its reference is open no longer. */
  predicate Overtaken(wagers: seq<WagerRow>, r: WagerRequest) {
    var found := FindByExternal(wagers, r.providerId, r.referenceExternalId);
    found.Some? && Terminal(wagers[found.value].state)
  }

  /** If so, it ended on another wallet than the request's. */
  predicate Deferrable(wagers: seq<WagerRow>, r: WagerRequest) {
    Overtaken(wagers, r) ==>
      wagers[FindByExternal(wagers, r.providerId, r.referenceExternalId).value].walletId != r.walletId
  }

  /** A reference read as unresolved had not ended, and while the request's own
      wallet is locked it can end on another wallet only. */
  lemma DeferrablePut(wagers: seq<WagerRow>, id: TxId, row: WagerRow, r: WagerRequest)
    requires Overwrites(wagers, id, row) && r.walletId != row.walletId && Deferrable(wagers, r)
    ensures Deferrable(Put(wagers, id, row), r)
  {
    var found := FindByExternal(wagers, r.providerId, r.referenceExternalId);
    var now := FindByExternal(Put(wagers, id, row), r.providerId, r.referenceExternalId);
    if found.Some? {
      FindExternalPut(wagers, id, row, r.providerId, r.referenceExternalId);
    } else {
      assert forall i :: 0 <= i < |wagers| ==> !HasExternal(wagers[i], r.providerId, r.referenceExternalId);
    }
  }

  /** How a request whose reference was read as unresolved stands now: still
      unresolved exactly if its reference has not ended, and otherwise refused,
      because the reference ended on another wallet. It never moves money. */
  lemma DeferralNow(wagers: seq<WagerRow>, wallet: WalletRow, r: WagerRequest, now: Time)
    requires NeedsReference(r) && r.referenceExternalId != "" && Deferrable(wagers, r)
    ensures var found := FindByExternal(wagers, r.providerId, r.referenceExternalId);
            Decide(wagers, wallet, r, now)
            == if !Overtaken(wagers, r) then Unresolved
               else Refuse(if wagers[found.value].state.Processed? then REFERENCE_MISMATCH
                           else REFERENCE_TERMINAL_UNSUCCESSFUL, found)
  {
  }

  lemma RetryNow(wagers: seq<WagerRow>, wallet: WalletRow, row: WagerRow, now: Time)
    requires NeedsReference(RequestOf(row)) && Text(row.referenceExternalId) != "" && !Expired(row, now)
    requires Deferrable(wagers, RequestOf(row))
    ensures var r := RequestOf(row);
            var found := FindByExternal(wagers, r.providerId, r.referenceExternalId);
            Resolve(wagers, wallet, row, now)
            == if !Overtaken(wagers, r) then Unresolved
               else Refuse(if wagers[found.value].state.Processed? then REFERENCE_MISMATCH
                           else REFERENCE_TERMINAL_UNSUCCESSFUL, found)
  {
  }
}
