/** The synchronous and the asynchronous path reach the same results. */
module Agreement {
  import opened Common
  import opened Amounts
  import opened Wallets
  import opened Wagers
  import opened Tables
  import opened Decisions

  /** The row keeps what the command said. */
  predicate Stores(row: WagerRow, cmd: Command) {
    && row.providerId.Some? && row.externalId.Some? && row.roundId.Some? && row.gameId.Some?
    && row.referenceExternalId.Some?
    && row.idempotencyKey == Some(cmd.idempotencyKey)
    && row.payloadHash == Some(PayloadHash(cmd.request))
    && RequestOf(row) == cmd.request
  }

  /** Pending rows bring the request back unchanged. */
  lemma PendingRowStores(cmd: Command, balance: Int64, now: Time)
    ensures Stores(PendingRow(cmd, balance, now), cmd)
  {
  }

  /** Equal decisions, up to the movement label that only a WIN leaves unset
      on the synchronous path. */
  predicate SameOutcome(kind: Kind, sync: Outcome, resolver: Outcome) {
    if sync.Post? && resolver.Post? then
      && sync.wallet == resolver.wallet && sync.reference == resolver.reference
      && resolver.movement == Some(LedgerDirection(kind, sync.movement))
    else sync == resolver
  }

  lemma OutcomesAgree(wagers: seq<WagerRow>, wallet: WalletRow, row: WagerRow, now: Time)
    requires NeedsReference(RequestOf(row)) && !Expired(row, now)
    ensures SameOutcome(row.kind, Decide(wagers, wallet, RequestOf(row), now), Resolve(wagers, wallet, row, now))
  {
  }

  /** For a stored request, the same tables and the same wallet, the pass that
      settles it writes what the synchronous path would have written: the whole
      row apart from its retry columns and creation time, the wallet, the ledger
      entry and the terminal events. */
  lemma WritesAgree(wagers: seq<WagerRow>, id: TxId, cmd: Command, wallet: WalletRow, now: Time, entryId: int)
    requires id < |wagers| && Stores(wagers[id], cmd)
    requires wagers[id].state.PendingReference? && wagers[id].failureCode.None?
    requires NeedsReference(cmd.request) && !Expired(wagers[id], now)
    ensures var sync := Decide(wagers, wallet, cmd.request, now);
            var resolver := Resolve(wagers, wallet, wagers[id], now);
            && (sync.Fail? <==> resolver.Fail?) && (sync.Fail? ==> sync == resolver)
            && (sync.Unresolved? <==> resolver.Unresolved?)
            && (sync.Refuse? || sync.Post? ==>
                  var a := SyncWrites(cmd, id, wallet, sync, now, entryId);
                  var b := ResolverWrites(wagers[id], id, wallet, resolver, now, entryId);
                  && Terminal(a.row.state)
                  && a.row == b.row.(attempts := 0, expiresAt := None, createdAt := now)
                  && a.wallet == b.wallet && a.entries == b.entries && a.events == b.events)
  {
    OutcomesAgree(wagers, wallet, wagers[id], now);
  }
}
