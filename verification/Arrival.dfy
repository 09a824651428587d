/** A bet, its refund and the rollback of that refund: what each arrival and each
    resolver pass does, whatever of the three is there already. */
module Arrival {
  import opened Common
  import opened Amounts
  import opened Wallets
  import opened Wagers
  import opened Tables
  import opened Decisions
  import opened Agreement
  import opened Invariant

  /** The three commands, by position. */
  datatype Trio = Trio(bet: Command, refund: Command, rollback: Command) {
    function At(k: nat): Command
      requires k < 3
    {
      if k == 0 then bet else if k == 1 then refund else rollback
    }
  }

  predicate Related(t: Trio) {
    var b, f, r := t.At(0).request, t.At(1).request, t.At(2).request;
    && b.kind.Bet? && f.kind.Refund? && r.kind.Rollback?
    && f.referenceExternalId == b.externalId && r.referenceExternalId == f.externalId
    && (forall k :: 0 <= k < 3 ==> Precheck(t.At(k)).None? && SameContext(b, t.At(k).request))
    && (forall i, k :: 0 <= i < k < 3 ==>
          t.At(i).request.externalId != t.At(k).request.externalId && t.At(i).idempotencyKey != t.At(k).idempotencyKey)
  }

  predicate SameContext(a: WagerRequest, b: WagerRequest) {
    && a.providerId == b.providerId && a.playerId == b.playerId && a.walletId == b.walletId
    && a.roundId == b.roundId && a.amount == b.amount
  }

  /** Tables that know nothing of the three yet, and can take them. */
  predicate Unaware(db: Db, t: Trio) {
    var w := t.At(0).request.walletId;
    && Related(t)
    && LockWallet(db, w).Ok? && CheckOwner(db.wallets[w], t.At(0).request).None?
    && db.wallets[w].version <= MAX_INT64 - 3
    && LinksBack(db.wagers)
    && (forall i, k :: 0 <= i < |db.wagers| && 0 <= k < 3 ==>
          && !HasExternal(db.wagers[i], t.At(0).request.providerId, t.At(k).request.externalId)
          && !HasKey(db.wagers[i], t.At(0).request.providerId, t.At(k).idempotencyKey))
  }

  predicate LinksBack(wagers: seq<WagerRow>) {
    forall i :: 0 <= i < |wagers| && wagers[i].referencedId.Some? ==> wagers[i].referencedId.value < |wagers|
  }

  // ---- What in-order arrival gives

  predicate Funded(db0: Db, t: Trio)
    requires Unaware(db0, t)
  {
    db0.wallets[t.At(0).request.walletId].balance >= t.At(0).request.amount.amount
  }

  /** The balance once so many of the three are settled. */
  function BalanceAfter(db0: Db, t: Trio, settled: nat): int
    requires Unaware(db0, t)
  {
    var balance := db0.wallets[t.At(0).request.walletId].balance;
    if Funded(db0, t) && settled % 2 == 1 then balance - t.At(0).request.amount.amount else balance
  }

  function MovesAfter(db0: Db, t: Trio, settled: nat): nat
    requires Unaware(db0, t)
  {
    if Funded(db0, t) then settled else 0
  }

  predicate EntryFits(db0: Db, t: Trio, j: nat, e: LedgerEntry)
    requires Unaware(db0, t)
  {
    && e.walletId == t.At(0).request.walletId && e.amount == t.At(0).request.amount.amount
    && e.direction == (if j == 1 then Credit else Debit)
    && e.balanceBefore == BalanceAfter(db0, t, j) && e.balanceAfter == BalanceAfter(db0, t, j + 1)
  }

  function Where(db: Db, t: Trio, k: nat): (id: Option<TxId>)
    requires k < 3
    ensures id.Some? ==> id.value < |db.wagers|
  {
    FindByExternal(db.wagers, t.At(0).request.providerId, t.At(k).request.externalId)
  }

  /** How the k-th of the three ends, linked to the one it names. */
  predicate Final(db0: Db, t: Trio, k: nat, row: WagerRow, link: Option<TxId>)
    requires Unaware(db0, t)
  {
    && row.resultBalance == Some(BalanceAfter(db0, t, k + 1))
    && row.referencedId == link
    && if Funded(db0, t) then row.state.Processed? && row.failureCode == None
       else
         && row.state.Rejected?
         && row.failureCode == Some(if k == 0 then INSUFFICIENT_FUNDS else REFERENCE_TERMINAL_UNSUCCESSFUL)
  }

  predicate OnHold(row: WagerRow) {
    row.state.PendingReference? && row.failureCode.None? && row.referencedId.None?
  }

  function Link(db: Db, t: Trio, k: nat): Option<TxId>
    requires k < 3
  {
    if k == 0 then None else Where(db, t, k - 1)
  }

  predicate Mine(db: Db, t: Trio, i: nat) {
    exists k :: 0 <= k < 3 && Where(db, t, k) == Some(i)
  }

  /** A row that uses no key of the three and reverses none of them. */
  predicate Stranger(db: Db, t: Trio, row: WagerRow) {
    forall k :: 0 <= k < 3 ==>
      && !HasKey(row, t.At(0).request.providerId, t.At(k).idempotencyKey)
      && (Where(db, t, k).Some? ==> !Reverses(row, Where(db, t, k).value))
  }

  /** The first `settled` of the three are final; the others are absent or wait.
      Nothing else has happened on their wallet since db0. */
  predicate Reached(db0: Db, t: Trio, db: Db, settled: nat)
    requires Unaware(db0, t)
  {
    && settled <= 3
    && RowsReached(db0, t, db, settled)
    && WalletReached(db0, t, db, settled)
    && LedgerReached(db0, t, db, settled)
  }

  predicate RowsReached(db0: Db, t: Trio, db: Db, settled: nat)
    requires Unaware(db0, t)
  {
    && LinksBack(db.wagers)
    && (forall i :: 0 <= i < |db.wagers| ==> Mine(db, t, i) || Stranger(db, t, db.wagers[i]))
    && (forall k :: 0 <= k < 3 ==> RowReached(db0, t, db, settled, k))
    && (settled == 0 ==> Where(db, t, 0).None?)
  }

  predicate RowReached(db0: Db, t: Trio, db: Db, settled: nat, k: nat)
    requires Unaware(db0, t) && k < 3
  {
    && (k < settled ==> Where(db, t, k).Some?)
    && (Where(db, t, k).Some? ==>
          var row := db.wagers[Where(db, t, k).value];
          && Stores(row, t.At(k))
          && (if k < settled then Final(db0, t, k, row, Link(db, t, k)) else OnHold(row)))
  }

  predicate WalletReached(db0: Db, t: Trio, db: Db, settled: nat)
    requires Unaware(db0, t)
  {
    var w := t.At(0).request.walletId;
    && w in db.wallets
    && db.wallets[w] == db0.wallets[w].(balance := db.wallets[w].balance, version := db.wallets[w].version,
                                        updatedAt := db.wallets[w].updatedAt)
    && db.wallets[w].balance == BalanceAfter(db0, t, settled)
    && db.wallets[w].version == db0.wallets[w].version + MovesAfter(db0, t, settled)
  }

  predicate LedgerReached(db0: Db, t: Trio, db: Db, settled: nat)
    requires Unaware(db0, t)
  {
    EntriesReached(db0, t, db, settled, LedgerOf(db0.ledger, t.At(0).request.walletId), LedgerOf(db.ledger, t.At(0).request.walletId))
  }

  predicate EntriesReached(db0: Db, t: Trio, db: Db, settled: nat, was: seq<LedgerEntry>, now: seq<LedgerEntry>)
    requires Unaware(db0, t)
  {
    && |now| == |was| + MovesAfter(db0, t, settled)
    && now[..|was|] == was
    && forall j :: |was| <= j < |now| ==> EntryFits(db0, t, j - |was|, now[j]) && EntryOwned(db, t, j - |was|, now[j])
  }

  /** The entry belongs to the j-th of the three. */
  predicate EntryOwned(db: Db, t: Trio, j: nat, e: LedgerEntry) {
    j < 3 && Where(db, t, j) == Some(e.txId)
  }

  // ---- Decisions along the way

  lemma NothingYet(db: Db, t: Trio)
    requires Unaware(db, t)
    ensures Reached(db, t, db, 0)
  {
  }

  /** While the one it names is not settled, a request is deferred. */
  lemma TooEarly(db0: Db, t: Trio, db: Db, settled: nat, k: nat, wallet: WalletRow, now: Time)
    requires Unaware(db0, t) && RowsReached(db0, t, db, settled) && settled < k < 3
    ensures Decide(db.wagers, wallet, t.At(k).request, now) == Unresolved
  {
    assert RowReached(db0, t, db, settled, k - 1);
  }

  lemma NotReversed(db0: Db, t: Trio, db: Db, settled: nat)
    requires Unaware(db0, t) && RowsReached(db0, t, db, settled) && 0 < settled < 3
    ensures Where(db, t, settled - 1).Some? && !AlreadyReversed(db.wagers, Where(db, t, settled - 1).value)
  {
    assert RowReached(db0, t, db, settled, settled - 1);
    var id := Where(db, t, settled - 1).value;
    forall i | 0 <= i < |db.wagers| ensures !Reverses(db.wagers[i], id) {
      if Mine(db, t, i) {
        var k :| 0 <= k < 3 && Where(db, t, k) == Some(i);
        assert RowReached(db0, t, db, settled, k);
        if 0 < k < settled {
          assert RowReached(db0, t, db, settled, k - 1);
        }
      } else {
        assert Stranger(db, t, db.wagers[i]);
      }
    }
  }

  lemma ReferenceFits(t: Trio, k: nat, row: WagerRow)
    requires Related(t) && 0 < k < 3 && Stores(row, t.At(k - 1))
    ensures ValidateReference(t.At(k).request, row).None? && row.kind == t.At(k - 1).request.kind
  {
    assert SameContext(t.At(0).request, t.At(k).request) && SameContext(t.At(0).request, t.At(k - 1).request);
    assert RequestOf(row) == t.At(k - 1).request;
    hide Related, Precheck;
    assert t.At(k).request.kind == if k == 1 then Refund else Rollback by { RelatedKinds(t); }
    RelatedKinds(t);
  }

  lemma RelatedKinds(t: Trio)
    requires Related(t)
    ensures t.At(0).request.kind.Bet? && t.At(1).request.kind.Refund? && t.At(2).request.kind.Rollback?
  {
  }

  lemma FindsPrevious(db: Db, t: Trio, k: nat)
    requires Related(t) && 0 < k < 3
    ensures FindReference(db.wagers, t.At(k).request) == Ok(Where(db, t, k - 1))
  {
    assert Precheck(t.At(k)).None? && SameContext(t.At(0).request, t.At(k).request);
  }

  lemma SettledRow(db0: Db, t: Trio, db: Db, settled: nat, k: nat)
    requires Unaware(db0, t) && RowsReached(db0, t, db, settled) && k < 3 && k < settled
    ensures Where(db, t, k).Some?
    ensures var row := db.wagers[Where(db, t, k).value];
            Stores(row, t.At(k)) && Final(db0, t, k, row, Link(db, t, k))
  {
    hide Unaware, Where, Stores, Final;
    assert RowReached(db0, t, db, settled, k);
  }

  lemma TurnReading(db0: Db, t: Trio, db: Db, settled: nat)
    requires Unaware(db0, t) && RowsReached(db0, t, db, settled) && 0 < settled < 3
    ensures Where(db, t, settled - 1).Some?
    ensures var id := Where(db, t, settled - 1).value;
            ReadReference(db.wagers, t.At(settled).request)
            == if Funded(db0, t) then Usable(id) else Settled(Refuse(REFERENCE_TERMINAL_UNSUCCESSFUL, Some(id)))
    ensures Funded(db0, t) ==>
              db.wagers[Where(db, t, settled - 1).value].kind == t.At(settled - 1).request.kind
  {
    assert Related(t);
    hide Unaware, Related, RowsReached, Stores, ValidateReference, Where, FindReference, Funded, Link, BalanceAfter;
    SettledRow(db0, t, db, settled, settled - 1);
    FindsPrevious(db, t, settled);
    ReferenceFits(t, settled, db.wagers[Where(db, t, settled - 1).value]);
  }

  lemma BetTurn(db0: Db, t: Trio, db: Db, now: Time)
    requires Unaware(db0, t) && WalletReached(db0, t, db, 0)
    ensures TurnOutcome(db0, t, db, 0, now, Decide(db.wagers, db.wallets[t.At(0).request.walletId], t.At(0).request, now))
  {
    hide ReadReference, Finish;
  }

  lemma ReversalTurn(db0: Db, t: Trio, db: Db, settled: nat, now: Time)
    requires Unaware(db0, t) && 0 < settled < 3 && WalletReached(db0, t, db, settled)
    requires Where(db, t, settled - 1).Some?
    requires var id := Where(db, t, settled - 1).value;
             && id < |db.wagers| && !AlreadyReversed(db.wagers, id)
             && (Funded(db0, t) ==> db.wagers[id].kind == t.At(settled - 1).request.kind)
             && ReadReference(db.wagers, t.At(settled).request)
                == if Funded(db0, t) then Usable(id) else Settled(Refuse(REFERENCE_TERMINAL_UNSUCCESSFUL, Some(id)))
    ensures TurnOutcome(db0, t, db, settled, now,
                        Decide(db.wagers, db.wallets[t.At(0).request.walletId], t.At(settled).request, now))
  {
    assert Related(t) && SameContext(t.At(0).request, t.At(settled).request);
    hide ReadReference, AlreadyReversed, Related, SameContext, Precheck, Where;
  }

  /** The next in line is settled exactly as it would be in order. */
  lemma InTurn(db0: Db, t: Trio, db: Db, settled: nat, now: Time)
    requires Unaware(db0, t) && settled < 3
    requires RowsReached(db0, t, db, settled) && WalletReached(db0, t, db, settled)
    ensures TurnOutcome(db0, t, db, settled, now,
                        Decide(db.wagers, db.wallets[t.At(0).request.walletId], t.At(settled).request, now))
  {
    if settled == 0 {
      BetTurn(db0, t, db, now);
    } else {
      TurnReading(db0, t, db, settled);
      NotReversed(db0, t, db, settled);
      hide Unaware, RowsReached, WalletReached, ReadReference, AlreadyReversed, Decide, TurnOutcome, Funded;
      ReversalTurn(db0, t, db, settled, now);
    }
  }

  predicate TurnOutcome(db0: Db, t: Trio, db: Db, settled: nat, now: Time, outcome: Outcome)
    requires Unaware(db0, t) && settled < 3 && t.At(0).request.walletId in db.wallets
  {
    var w := db.wallets[t.At(0).request.walletId];
    if Funded(db0, t) then
      && outcome.Post? && outcome.reference == Link(db, t, settled)
      && LedgerDirection(t.At(settled).request.kind, outcome.movement) == (if settled == 1 then Credit else Debit)
      && outcome.wallet == w.(balance := outcome.wallet.balance, version := outcome.wallet.version, updatedAt := now)
      && outcome.wallet.balance == BalanceAfter(db0, t, settled + 1)
      && outcome.wallet.version == w.version + 1
    else
      outcome == Refuse(if settled == 0 then INSUFFICIENT_FUNDS else REFERENCE_TERMINAL_UNSUCCESSFUL,
                        Link(db, t, settled))
  }

  // ---- Steps

  /** One command submitted, perhaps again; a refused transaction changes nothing. */
  function Arrive(db: Db, cmd: Command, now: Time, entryId: int): Db {
    var r := Process(db, cmd, now, entryId);
    if r.Ok? then r.value.0 else db
  }

  /** One resolver pass over the row of the k-th command, if it is waiting. */
  function Pass(db: Db, t: Trio, k: nat, now: Time, entryId: int): Db
    requires k < 3
  {
    var id := Where(db, t, k);
    if id.None? || !db.wagers[id.value].state.PendingReference? then db
    else
      var r := ResolvePass(db, id.value, now, entryId);
      if r.Ok? then r.value else db
  }

  /** The k-th has come by now, and no row has moved. */
  predicate Stays(db: Db, db': Db, t: Trio, k: nat) {
    && k < 3 && Where(db', t, k).Some?
    && forall j :: 0 <= j < 3 && (j != k || Where(db, t, j).Some?) ==> Where(db', t, j) == Where(db, t, j)
  }

  lemma WherePut(db: Db, t: Trio, k: nat, id: TxId, row: WagerRow, db': Db, j: nat)
    requires Related(t) && k < 3 && j < 3 && id <= |db.wagers|
    requires Where(db, t, k) == Some(id) || (Where(db, t, k).None? && id == |db.wagers|)
    requires row.providerId == Some(t.At(0).request.providerId) && row.externalId == Some(t.At(k).request.externalId)
    requires id < |db.wagers| ==> db.wagers[id].providerId == row.providerId && db.wagers[id].externalId == row.externalId
    requires db'.wagers == Put(db.wagers, id, row)
    ensures Where(db', t, j) == if j == k then Some(id) else Where(db, t, j)
  {
    var p, x := t.At(0).request.providerId, t.At(j).request.externalId;
    assert forall i :: 0 <= i < |db.wagers| && i != id ==> db'.wagers[i] == db.wagers[i];
    assert HasExternal(row, p, x) <==> j == k;
    var was, now := Where(db, t, j), Where(db', t, j);
    if was.Some? { assert HasExternal(db'.wagers[was.value], p, x); }
    if now.Some? && now.value < |db.wagers| { assert HasExternal(db.wagers[now.value], p, x); }
  }

  lemma StoresIdentity(row: WagerRow, t: Trio, k: nat)
    requires Related(t) && k < 3 && Stores(row, t.At(k))
    ensures row.providerId == Some(t.At(0).request.providerId) && row.externalId == Some(t.At(k).request.externalId)
  {
    assert SameContext(t.At(0).request, t.At(k).request);
    assert RequestOf(row).providerId == t.At(k).request.providerId;
    assert RequestOf(row).externalId == t.At(k).request.externalId;
  }

  /** The k-th row is written: settled in its turn, or still waiting. */
  predicate Written(db0: Db, t: Trio, db: Db, settled: nat, k: nat, id: TxId, row: WagerRow, db': Db)
    requires Unaware(db0, t)
  {
    && settled <= k < 3
    && (Where(db, t, k) == Some(id) || (Where(db, t, k).None? && id == |db.wagers|))
    && id <= |db.wagers| && db'.wagers == Put(db.wagers, id, row)
    && Stores(row, t.At(k))
    && if k == settled then Final(db0, t, k, row, Link(db, t, k)) else OnHold(row)
  }

  function Next(settled: nat, k: nat): nat { if k == settled then settled + 1 else settled }

  lemma WrittenWhere(db0: Db, t: Trio, db: Db, settled: nat, k: nat, id: TxId, row: WagerRow, db': Db)
    requires Unaware(db0, t) && RowsReached(db0, t, db, settled)
    requires Written(db0, t, db, settled, k, id, row, db')
    ensures forall j :: 0 <= j < 3 ==> Where(db', t, j) == if j == k then Some(id) else Where(db, t, j)
  {
    StoresIdentity(row, t, k);
    if id < |db.wagers| {
      assert RowReached(db0, t, db, settled, k);
      StoresIdentity(db.wagers[id], t, k);
    }
    forall j | 0 <= j < 3 ensures Where(db', t, j) == if j == k then Some(id) else Where(db, t, j) {
      WherePut(db, t, k, id, row, db', j);
    }
  }

  lemma WrittenRow(db0: Db, t: Trio, db: Db, settled: nat, k: nat, id: TxId, row: WagerRow, db': Db, j: nat)
    requires Unaware(db0, t) && j < 3
    requires Written(db0, t, db, settled, k, id, row, db')
    requires RowReached(db0, t, db, settled, j)
    requires j > 0 && j < settled ==> Where(db, t, j - 1).Some?
    requires forall i :: 0 <= i < 3 ==> Where(db', t, i) == if i == k then Some(id) else Where(db, t, i)
    ensures RowReached(db0, t, db', Next(settled, k), j)
  {
    hide Stores, Final, OnHold;
    assert Link(db', t, j) == Link(db, t, j) || j == k + 1;
  }

  lemma StrangersWritten(db: Db, t: Trio, k: nat, id: TxId, row: WagerRow, db': Db, i: nat)
    requires k < 3 && id <= |db.wagers| && db'.wagers == Put(db.wagers, id, row) && i < |db'.wagers|
    requires LinksBack(db.wagers)
    requires i < |db.wagers| ==> Mine(db, t, i) || Stranger(db, t, db.wagers[i])
    requires forall j :: 0 <= j < 3 ==> Where(db', t, j) == if j == k then Some(id) else Where(db, t, j)
    requires Where(db, t, k) == Some(id) || (Where(db, t, k).None? && id == |db.wagers|)
    ensures Mine(db', t, i) || Stranger(db', t, db'.wagers[i])
  {
    hide Where;
    if i == id {
      assert Where(db', t, k) == Some(i);
    } else if Mine(db, t, i) {
      var j :| 0 <= j < 3 && Where(db, t, j) == Some(i);
      assert Where(db', t, j) == Some(i);
    } else {
      assert Stranger(db, t, db.wagers[i]) && db'.wagers[i] == db.wagers[i];
    }
  }

  lemma LinksWritten(db0: Db, t: Trio, db: Db, settled: nat, k: nat, id: TxId, row: WagerRow, db': Db)
    requires Unaware(db0, t) && LinksBack(db.wagers)
    requires Written(db0, t, db, settled, k, id, row, db')
    ensures LinksBack(db'.wagers)
  {
    hide Unaware, Stores, Where;
    assert row.referencedId.Some? ==> row.referencedId.value < |db.wagers|;
    hide Final, OnHold, Link;
  }

  lemma RowsWritten(db0: Db, t: Trio, db: Db, settled: nat, k: nat, id: TxId, row: WagerRow, db': Db)
    requires Unaware(db0, t) && RowsReached(db0, t, db, settled)
    requires Written(db0, t, db, settled, k, id, row, db')
    ensures RowsReached(db0, t, db', Next(settled, k))
    ensures forall j :: 0 <= j < 3 ==> Where(db', t, j) == if j == k then Some(id) else Where(db, t, j)
  {
    WrittenWhere(db0, t, db, settled, k, id, row, db');
    LinksWritten(db0, t, db, settled, k, id, row, db');
    hide Unaware, Stores, Final, OnHold, Where, LinksBack, Mine, Stranger;
    forall i | 0 <= i < |db'.wagers| ensures Mine(db', t, i) || Stranger(db', t, db'.wagers[i]) {
      StrangersWritten(db, t, k, id, row, db', i);
    }
    forall j | 0 <= j < 3 ensures RowReached(db0, t, db', Next(settled, k), j) {
      assert RowReached(db0, t, db, settled, j);
      if j > 0 { assert RowReached(db0, t, db, settled, j - 1); }
      WrittenRow(db0, t, db, settled, k, id, row, db', j);
    }
    hide RowReached;
  }

  /** The writes that settle the next in line, on the row at id. */
  predicate TakesTurn(db0: Db, t: Trio, db: Db, settled: nat, id: TxId, now: Time, w: Writes)
    requires Unaware(db0, t) && settled < 3 && t.At(0).request.walletId in db.wallets
  {
    var before := db.wallets[t.At(0).request.walletId];
    && w.row.walletId == t.At(0).request.walletId
    && Stores(w.row, t.At(settled)) && Final(db0, t, settled, w.row, Link(db, t, settled))
    && if Funded(db0, t) then
         && |w.entries| == 1 && EntryFits(db0, t, settled, w.entries[0]) && w.entries[0].txId == id
         && w.wallet == before.(balance := w.wallet.balance, version := w.wallet.version, updatedAt := now)
         && w.wallet.balance == BalanceAfter(db0, t, settled + 1) && w.wallet.version == before.version + 1
       else w.entries == [] && w.wallet == before
  }

  lemma WalletSettled(db0: Db, t: Trio, db: Db, settled: nat, id: TxId, w: Writes, now: Time, db': Db)
    requires Unaware(db0, t) && settled < 3
    requires WalletReached(db0, t, db, settled) && TakesTurn(db0, t, db, settled, id, now, w)
    requires db'.wallets == db.wallets[t.At(0).request.walletId := w.wallet]
    ensures WalletReached(db0, t, db', settled + 1)
  {
    hide Unaware, Where, Stores, Final, EntryFits;
  }

  /** One more entry, or none, at the end of the wallet's own ledger. */
  lemma TurnEntries(db0: Db, t: Trio, db: Db, settled: nat, id: TxId, now: Time, w: Writes)
    requires Unaware(db0, t) && settled < 3 && t.At(0).request.walletId in db.wallets
    requires TakesTurn(db0, t, db, settled, id, now, w)
    ensures if Funded(db0, t) then
              |w.entries| == 1 && EntryFits(db0, t, settled, w.entries[0]) && w.entries[0].txId == id
            else w.entries == []
  {
    hide Unaware, Stores, Final, BalanceAfter, EntryFits, Funded;
  }

  lemma EntriesAfter(db0: Db, t: Trio, db: Db, settled: nat, own: seq<LedgerEntry>, e: LedgerEntry, n: nat, db': Db)
    requires Unaware(db0, t) && settled < 3 && |own| == n + settled
    requires forall k :: n <= k < |own| ==> EntryFits(db0, t, k - n, own[k]) && EntryOwned(db, t, k - n, own[k])
    requires EntryFits(db0, t, settled, e)
    requires forall k :: 0 <= k < 3 ==> Where(db', t, k) == if k == settled then Some(e.txId) else Where(db, t, k)
    ensures forall j :: n <= j <= |own| ==> EntryFits(db0, t, j - n, (own + [e])[j]) && EntryOwned(db', t, j - n, (own + [e])[j])
  {
    hide Unaware, Where, EntryFits;
    forall j | n <= j <= |own|
      ensures EntryFits(db0, t, j - n, (own + [e])[j]) && EntryOwned(db', t, j - n, (own + [e])[j])
    {
      if j < |own| {
        assert (own + [e])[j] == own[j] && EntryOwned(db, t, j - n, own[j]);
      }
    }
  }

  lemma EntriesSettled(db0: Db, t: Trio, db: Db, settled: nat, was: seq<LedgerEntry>, own: seq<LedgerEntry>,
                        entries: seq<LedgerEntry>, id: TxId, db': Db)
    requires Unaware(db0, t) && settled < 3 && EntriesReached(db0, t, db, settled, was, own)
    requires if Funded(db0, t) then
               |entries| == 1 && EntryFits(db0, t, settled, entries[0]) && entries[0].txId == id
             else entries == []
    requires forall j :: 0 <= j < 3 ==> Where(db', t, j) == if j == settled then Some(id) else Where(db, t, j)
    ensures EntriesReached(db0, t, db', settled + 1, was, own + entries)
  {
    hide Unaware, Where, EntryFits, EntryOwned, Funded;
    assert (own + entries)[..|was|] == own[..|was|];
    if Funded(db0, t) {
      assert entries == [entries[0]];
      EntriesAfter(db0, t, db, settled, own, entries[0], |was|, db');
    }
  }

  lemma LedgerSettled(db0: Db, t: Trio, db: Db, settled: nat, id: TxId, w: Writes, now: Time, db': Db)
    requires Unaware(db0, t) && settled < 3 && t.At(0).request.walletId in db.wallets
    requires LedgerReached(db0, t, db, settled) && TakesTurn(db0, t, db, settled, id, now, w)
    requires LedgerOf(db'.ledger, t.At(0).request.walletId) == LedgerOf(db.ledger, t.At(0).request.walletId) + w.entries
    requires forall j :: 0 <= j < 3 ==> Where(db', t, j) == if j == settled then Some(id) else Where(db, t, j)
    ensures LedgerReached(db0, t, db', settled + 1)
  {
    var was, own := LedgerOf(db0.ledger, t.At(0).request.walletId), LedgerOf(db.ledger, t.At(0).request.walletId);
    TurnEntries(db0, t, db, settled, id, now, w);
    hide Unaware, Where, LedgerOf, EntryFits, TakesTurn, Funded, EntriesReached;
    EntriesSettled(db0, t, db, settled, was, own, w.entries, id, db');
  }

  lemma OwnAppended(ledger: seq<LedgerEntry>, entries: seq<LedgerEntry>, w: WalletId)
    requires |entries| <= 1 && (entries != [] ==> entries[0].walletId == w)
    ensures LedgerOf(ledger + entries, w) == LedgerOf(ledger, w) + entries
  {
    LedgerOfAppend(ledger, entries, w);
  }

  lemma MoneySettled(db0: Db, t: Trio, db: Db, settled: nat, id: TxId, w: Writes, now: Time, db': Db)
    requires Unaware(db0, t) && settled < 3
    requires WalletReached(db0, t, db, settled) && LedgerReached(db0, t, db, settled)
    requires TakesTurn(db0, t, db, settled, id, now, w)
    requires db'.wallets == db.wallets[t.At(0).request.walletId := w.wallet] && db'.ledger == db.ledger + w.entries
    requires forall j :: 0 <= j < 3 ==> Where(db', t, j) == if j == settled then Some(id) else Where(db, t, j)
    ensures WalletReached(db0, t, db', settled + 1) && LedgerReached(db0, t, db', settled + 1)
  {
    assert t.At(0).request.walletId in db.wallets;
    assert |w.entries| <= 1 && (w.entries != [] ==> w.entries[0].walletId == t.At(0).request.walletId);
    hide Unaware, Where, LedgerOf, WalletReached, LedgerReached, TakesTurn;
    OwnAppended(db.ledger, w.entries, t.At(0).request.walletId);
    WalletSettled(db0, t, db, settled, id, w, now, db');
    LedgerSettled(db0, t, db, settled, id, w, now, db');
  }

  lemma TurnWritten(db0: Db, t: Trio, db: Db, settled: nat, id: TxId, now: Time, w: Writes, db': Db)
    requires Unaware(db0, t) && settled < 3 && Reached(db0, t, db, settled)
    requires Where(db, t, settled) == Some(id) || (Where(db, t, settled).None? && id == |db.wagers|)
    requires id <= |db.wagers| && TakesTurn(db0, t, db, settled, id, now, w) && db' == Apply(db, id, w)
    ensures Reached(db0, t, db', settled + 1) && Stays(db, db', t, settled)
  {
    hide Unaware, Where, Stores, Final, RowsReached, WalletReached, LedgerReached, EntryFits;
    RowsWritten(db0, t, db, settled, settled, id, w.row, db');
    MoneySettled(db0, t, db, settled, id, w, now, db');
  }

  lemma MoneyStill(db0: Db, t: Trio, db: Db, settled: nat, w: Writes, db': Db)
    requires Unaware(db0, t) && WalletReached(db0, t, db, settled) && LedgerReached(db0, t, db, settled)
    requires db'.wallets == db.wallets[t.At(0).request.walletId := w.wallet] && db'.ledger == db.ledger + w.entries
    requires w.wallet == db.wallets[t.At(0).request.walletId] && w.entries == []
    requires forall j :: 0 <= j < 3 && Where(db, t, j).Some? ==> Where(db', t, j) == Where(db, t, j)
    ensures WalletReached(db0, t, db', settled) && LedgerReached(db0, t, db', settled)
  {
    assert db'.ledger == db.ledger && db'.wallets == db.wallets;
  }

  /** The synchronous path in its turn writes what settles it. */
  lemma SyncTurn(db0: Db, t: Trio, db: Db, settled: nat, id: TxId, now: Time, entryId: int, outcome: Outcome)
    requires Unaware(db0, t) && settled < 3 && WalletReached(db0, t, db, settled)
    requires TurnOutcome(db0, t, db, settled, now, outcome)
    ensures TakesTurn(db0, t, db, settled, id, now,
                    SyncWrites(t.At(settled), id, db.wallets[t.At(0).request.walletId], outcome, now, entryId))
  {
    assert SameContext(t.At(0).request, t.At(settled).request);
  }

  lemma HeldWallet(db0: Db, t: Trio, db: Db, settled: nat)
    requires Unaware(db0, t) && settled <= 3 && WalletReached(db0, t, db, settled)
    ensures LockWallet(db, t.At(0).request.walletId) == Ok(db.wallets[t.At(0).request.walletId])
    ensures forall k :: 0 <= k < 3 ==> CheckOwner(db.wallets[t.At(0).request.walletId], t.At(k).request).None?
  {
    forall k | 0 <= k < 3 ensures CheckOwner(db.wallets[t.At(0).request.walletId], t.At(k).request).None? {
      assert SameContext(t.At(0).request, t.At(k).request);
    }
  }

  lemma KeyIsMine(db: Db, t: Trio, k: nat, i: nat)
    requires k < 3 && i < |db.wagers| && (Mine(db, t, i) || Stranger(db, t, db.wagers[i]))
    requires HasKey(db.wagers[i], t.At(0).request.providerId, t.At(k).idempotencyKey)
    ensures Mine(db, t, i)
  {
  }

  /** The key finds what the external identity finds. */
  lemma SameKey(db0: Db, t: Trio, db: Db, settled: nat, k: nat)
    requires Unaware(db0, t) && RowsReached(db0, t, db, settled) && k < 3
    ensures FindByKey(db.wagers, t.At(k).request.providerId, t.At(k).idempotencyKey) == Where(db, t, k)
  {
    var p, key := t.At(0).request.providerId, t.At(k).idempotencyKey;
    assert SameContext(t.At(0).request, t.At(k).request);
    var found := FindByKey(db.wagers, p, key);
    if Where(db, t, k).Some? {
      assert RowReached(db0, t, db, settled, k);
      StoresIdentity(db.wagers[Where(db, t, k).value], t, k);
      assert HasKey(db.wagers[Where(db, t, k).value], p, key);
    }
    if found.Some? {
      KeyIsMine(db, t, k, found.value);
      var j :| 0 <= j < 3 && Where(db, t, j) == found;
      assert RowReached(db0, t, db, settled, j);
    }
  }

  lemma ArriveNew(db0: Db, t: Trio, db: Db, settled: nat, k: nat, now: Time, entryId: int)
    requires Unaware(db0, t) && Reached(db0, t, db, settled) && k < 3 && Where(db, t, k).None?
    ensures var w := db.wallets[t.At(0).request.walletId];
            var outcome := Decide(db.wagers, w, t.At(k).request, now);
            !outcome.Fail? ==>
              Arrive(db, t.At(k), now, entryId)
              == Apply(db, |db.wagers|, SyncWrites(t.At(k), |db.wagers|, w, outcome, now, entryId))
  {
    HeldWallet(db0, t, db, settled);
    SameKey(db0, t, db, settled, k);
    assert Precheck(t.At(k)).None? && SameContext(t.At(0).request, t.At(k).request);
    hide Reached, Unaware, Decide, Apply, SyncWrites, Precheck, SameContext;
  }

  lemma ArriveInTurn(db0: Db, t: Trio, db: Db, settled: nat, now: Time, entryId: int)
    requires Unaware(db0, t) && Reached(db0, t, db, settled) && settled < 3 && Where(db, t, settled).None?
    ensures Reached(db0, t, Arrive(db, t.At(settled), now, entryId), settled + 1)
    ensures Stays(db, Arrive(db, t.At(settled), now, entryId), t, settled)
  {
    var before := db.wallets[t.At(0).request.walletId];
    var outcome := Decide(db.wagers, before, t.At(settled).request, now);
    InTurn(db0, t, db, settled, now);
    hide Unaware, Arrive, SyncWrites, Decide, TakesTurn, Where, RowsReached, WalletReached, LedgerReached;
    ArriveNew(db0, t, db, settled, settled, now, entryId);
    SyncTurn(db0, t, db, settled, |db.wagers|, now, entryId, outcome);
    TurnWritten(db0, t, db, settled, |db.wagers|, now,
                SyncWrites(t.At(settled), |db.wagers|, before, outcome, now, entryId), Arrive(db, t.At(settled), now, entryId));
  }

  lemma ArriveEarly(db0: Db, t: Trio, db: Db, settled: nat, k: nat, now: Time, entryId: int)
    requires Unaware(db0, t) && Reached(db0, t, db, settled) && settled < k < 3 && Where(db, t, k).None?
    ensures Reached(db0, t, Arrive(db, t.At(k), now, entryId), settled)
    ensures Stays(db, Arrive(db, t.At(k), now, entryId), t, k)
  {
    var before := db.wallets[t.At(0).request.walletId];
    TooEarly(db0, t, db, settled, k, before, now);
    ArriveNew(db0, t, db, settled, k, now, entryId);
    var w := SyncWrites(t.At(k), |db.wagers|, before, Unresolved, now, entryId);
    var db' := Arrive(db, t.At(k), now, entryId);
    PendingRowStores(t.At(k), before.balance, now);
    assert w.row.walletId == t.At(0).request.walletId by {
      assert SameContext(t.At(0).request, t.At(k).request);
    }
    assert OnHold(w.row);
    hide Unaware, Arrive, Decide, Stores, OnHold, RowsReached, WalletReached, LedgerReached;
    RowsWritten(db0, t, db, settled, k, |db.wagers|, w.row, db');
    MoneyStill(db0, t, db, settled, w, db');
  }

  lemma WaitsInLine(db0: Db, t: Trio, db: Db, settled: nat, k: nat)
    requires Unaware(db0, t) && Reached(db0, t, db, settled) && k < 3 && Where(db, t, k).Some?
    requires db.wagers[Where(db, t, k).value].state.PendingReference?
    ensures settled <= k && 0 < k
    ensures OnHold(db.wagers[Where(db, t, k).value]) && Stores(db.wagers[Where(db, t, k).value], t.At(k))
  {
    assert RowReached(db0, t, db, settled, k);
  }

  /** The resolver in its turn writes what settles it. */
  lemma ResolverTurn(db0: Db, t: Trio, db: Db, settled: nat, id: TxId, now: Time, entryId: int)
    requires Unaware(db0, t) && 0 < settled < 3 && WalletReached(db0, t, db, settled)
    requires id < |db.wagers| && Stores(db.wagers[id], t.At(settled)) && !Expired(db.wagers[id], now)
    requires db.wagers[id].state.PendingReference? && db.wagers[id].failureCode.None?
    requires TurnOutcome(db0, t, db, settled, now,
                         Decide(db.wagers, db.wallets[t.At(0).request.walletId], t.At(settled).request, now))
    ensures var before := db.wallets[t.At(0).request.walletId];
            var outcome := Resolve(db.wagers, before, db.wagers[id], now);
            && !outcome.Fail?
            && TakesTurn(db0, t, db, settled, id, now, ResolverWrites(db.wagers[id], id, before, outcome, now, entryId))
  {
    var before, cmd := db.wallets[t.At(0).request.walletId], t.At(settled);
    var sync := Decide(db.wagers, before, cmd.request, now);
    var outcome := Resolve(db.wagers, before, db.wagers[id], now);
    assert NeedsReference(cmd.request) && SameContext(t.At(0).request, cmd.request);
    assert db.wagers[id].walletId == t.At(0).request.walletId by {
      assert RequestOf(db.wagers[id]) == cmd.request;
    }
    assert sync.Post? || sync.Refuse?;
    hide Unaware, WalletReached, Decide, Resolve, TurnOutcome;
    WritesAgree(db.wagers, id, cmd, before, now, entryId);
    SyncTurn(db0, t, db, settled, id, now, entryId, sync);
    var a := SyncWrites(cmd, id, before, sync, now, entryId);
    var b := ResolverWrites(db.wagers[id], id, before, outcome, now, entryId);
    hide SyncWrites;
    assert b.row.walletId == db.wagers[id].walletId;
    assert Stores(b.row, cmd);
  }

  lemma PassInTurn(db0: Db, t: Trio, db: Db, settled: nat, now: Time, entryId: int)
    requires Unaware(db0, t) && Reached(db0, t, db, settled) && 0 < settled < 3 && Where(db, t, settled).Some?
    requires db.wagers[Where(db, t, settled).value].state.PendingReference?
    requires !Expired(db.wagers[Where(db, t, settled).value], now)
    ensures Reached(db0, t, Pass(db, t, settled, now, entryId), settled + 1)
    ensures Stays(db, Pass(db, t, settled, now, entryId), t, settled)
  {
    hide Unaware, RowsReached, WalletReached, LedgerReached, Resolve, Decide, TurnOutcome, TakesTurn, Where, Stores,
         ResolverWrites, Apply;
    var id := Where(db, t, settled).value;
    WaitsInLine(db0, t, db, settled, settled);
    InTurn(db0, t, db, settled, now);
    HeldWallet(db0, t, db, settled);
    ResolverTurn(db0, t, db, settled, id, now, entryId);
    SameWallet(t, settled, db.wagers[id]) by { RelatedOf(db0, t); }
    var before := db.wallets[t.At(0).request.walletId];
    var w := ResolverWrites(db.wagers[id], id, before, Resolve(db.wagers, before, db.wagers[id], now), now, entryId);
    assert Pass(db, t, settled, now, entryId) == Apply(db, id, w);
    hide Pass;
    TurnWritten(db0, t, db, settled, id, now, w, Pass(db, t, settled, now, entryId));
  }

  lemma RelatedOf(db0: Db, t: Trio)
    requires Unaware(db0, t)
    ensures Related(t)
  {
  }

  lemma SameWallet(t: Trio, k: nat, row: WagerRow)
    requires Related(t) && k < 3 && Stores(row, t.At(k))
    ensures row.walletId == t.At(0).request.walletId
  {
    assert SameContext(t.At(0).request, t.At(k).request);
    assert RequestOf(row) == t.At(k).request;
  }

  lemma PassEarly(db0: Db, t: Trio, db: Db, settled: nat, k: nat, now: Time, entryId: int)
    requires Unaware(db0, t) && Reached(db0, t, db, settled) && settled < k < 3 && Where(db, t, k).Some?
    requires db.wagers[Where(db, t, k).value].state.PendingReference? && !Expired(db.wagers[Where(db, t, k).value], now)
    ensures Reached(db0, t, Pass(db, t, k, now, entryId), settled)
    ensures Stays(db, Pass(db, t, k, now, entryId), t, k)
  {
    var id := Where(db, t, k).value;
    var row, before, cmd := db.wagers[id], db.wallets[t.At(0).request.walletId], t.At(k);
    WaitsInLine(db0, t, db, settled, k);
    TooEarly(db0, t, db, settled, k, before, now);
    WritesAgree(db.wagers, id, cmd, before, now, entryId);
    HeldWallet(db0, t, db, settled);
    var w := ResolverWrites(row, id, before, Unresolved, now, entryId);
    var db' := Pass(db, t, k, now, entryId);
    assert row.walletId == t.At(0).request.walletId by {
      assert SameContext(t.At(0).request, cmd.request);
      assert RequestOf(row) == cmd.request;
    }
    assert db' == Apply(db, id, w) by {
      hide Unaware, Reached, Decide, Resolve, Apply, ResolverWrites;
    }
    assert Stores(w.row, cmd) && OnHold(w.row);
    hide Unaware, Pass, Decide, Resolve, Stores, OnHold, RowsReached, WalletReached, LedgerReached;
    RowsWritten(db0, t, db, settled, k, id, w.row, db');
    MoneyStill(db0, t, db, settled, w, db');
  }
}
