/** The three end alike in whatever order they arrive, whatever other transactions
    interleave with them and whatever is committed meanwhile on other wallets. */
module Orders {
  import opened Common
  import opened Amounts
  import opened Wallets
  import opened Wagers
  import opened Tables
  import opened Decisions
  import opened Agreement
  import opened Invariant
  import opened Preservation
  import opened Stability
  import opened Protocol
  import opened Safety
  import opened Runs
  import opened Arrival

  // ---- Commits on other wallets

  predicate UsesIds(t: Trio, cmd: Command) {
    && cmd.request.providerId == t.At(0).request.providerId
    && exists k :: 0 <= k < 3 &&
         (cmd.request.externalId == t.At(k).request.externalId || cmd.idempotencyKey == t.At(k).idempotencyKey)
  }

  /** The operation concerns another wallet and takes no identity of the three. */
  predicate Foreign(db: Db, t: Trio, op: Op) {
    var w := t.At(0).request.walletId;
    match op
    case Submitted(cmd, _, _) => cmd.request.walletId != w && !UsesIds(t, cmd)
    case Deferred(cmd, _, _) => cmd.request.walletId != w && !UsesIds(t, cmd)
    case Passed(id, _, _) => id < |db.wagers| && db.wagers[id].walletId != w
    case Retried(id, _) => id < |db.wagers| && db.wagers[id].walletId != w
    case Created(_, _, _) => true
  }

  /** A row of another wallet is written. */
  predicate Aside(db: Db, t: Trio, id: TxId, row: WagerRow) {
    && Overwrites(db.wagers, id, row) && Confined(db.wagers, row)
    && row.walletId != t.At(0).request.walletId
    && (row.referencedId.Some? ==> row.referencedId.value < |db.wagers|)
    && (id == |db.wagers| ==> forall k :: 0 <= k < 3 ==>
          && !HasExternal(row, t.At(0).request.providerId, t.At(k).request.externalId)
          && !HasKey(row, t.At(0).request.providerId, t.At(k).idempotencyKey))
  }

  /** The three's wallet and its ledger are as they were. */
  predicate MoneyKept(db: Db, t: Trio, db': Db) {
    var w := t.At(0).request.walletId;
    && w in db.wallets && w in db'.wallets && db'.wallets[w] == db.wallets[w]
    && LedgerOf(db'.ledger, w) == LedgerOf(db.ledger, w)
  }

  lemma WhereAside(db: Db, t: Trio, id: TxId, row: WagerRow, db': Db, k: nat)
    requires Aside(db, t, id, row) && db'.wagers == Put(db.wagers, id, row) && k < 3
    ensures Where(db', t, k) == Where(db, t, k)
  {
    var p, x := t.At(0).request.providerId, t.At(k).request.externalId;
    assert forall i :: 0 <= i < |db.wagers| ==> (HasExternal(db'.wagers[i], p, x) <==> HasExternal(db.wagers[i], p, x));
    var was, now := Where(db, t, k), Where(db', t, k);
    if was.Some? { assert HasExternal(db'.wagers[was.value], p, x); }
    if now.Some? && now.value < |db.wagers| { assert HasExternal(db.wagers[now.value], p, x); }
  }

  lemma MineHere(db0: Db, t: Trio, db: Db, settled: nat, i: nat)
    requires Unaware(db0, t) && RowsReached(db0, t, db, settled) && Mine(db, t, i)
    ensures i < |db.wagers| && db.wagers[i].walletId == t.At(0).request.walletId
  {
    var k :| 0 <= k < 3 && Where(db, t, k) == Some(i);
    assert RowReached(db0, t, db, settled, k);
    hide RowReached, Final, OnHold;
    SameWallet(t, k, db.wagers[i]) by { RelatedOf(db0, t); }
  }

  lemma StrangerAside(db0: Db, t: Trio, db: Db, settled: nat, id: TxId, row: WagerRow, db': Db, i: nat)
    requires Unaware(db0, t) && RowsReached(db0, t, db, settled)
    requires Aside(db, t, id, row) && db'.wagers == Put(db.wagers, id, row) && i < |db'.wagers|
    requires forall k :: 0 <= k < 3 ==> Where(db', t, k) == Where(db, t, k)
    ensures Mine(db', t, i) || Stranger(db', t, db'.wagers[i])
  {
    hide Unaware, RowReached, Where;
    if i < |db.wagers| && Mine(db, t, i) {
      var k :| 0 <= k < 3 && Where(db, t, k) == Some(i);
      assert Where(db', t, k) == Some(i);
    } else if i != id {
      assert Stranger(db, t, db.wagers[i]) && db'.wagers[i] == db.wagers[i];
    } else {
      forall k | 0 <= k < 3 && Where(db, t, k).Some? ensures !Reverses(row, Where(db, t, k).value) {
        assert Mine(db, t, Where(db, t, k).value);
        MineHere(db0, t, db, settled, Where(db, t, k).value);
      }
      assert id < |db.wagers| ==> Stranger(db, t, db.wagers[id]);
    }
  }

  lemma AsideReached(db0: Db, t: Trio, db: Db, settled: nat, id: TxId, row: WagerRow, db': Db)
    requires Unaware(db0, t) && Reached(db0, t, db, settled)
    requires Aside(db, t, id, row) && db'.wagers == Put(db.wagers, id, row) && MoneyKept(db, t, db')
    ensures Reached(db0, t, db', settled)
  {
    forall k | 0 <= k < 3 ensures Where(db', t, k) == Where(db, t, k) {
      WhereAside(db, t, id, row, db', k);
    }
    assert LinksBack(db'.wagers);
    hide Unaware, Where, Final, OnHold, Stores, LinksBack, LedgerOf;
    forall i | 0 <= i < |db'.wagers| ensures Mine(db', t, i) || Stranger(db', t, db'.wagers[i]) {
      StrangerAside(db0, t, db, settled, id, row, db', i);
    }
    forall k | 0 <= k < 3 ensures RowReached(db0, t, db', settled, k) {
      assert RowReached(db0, t, db, settled, k);
      if Where(db, t, k).Some? {
        assert Mine(db, t, Where(db, t, k).value);
        MineHere(db0, t, db, settled, Where(db, t, k).value);
      }
    }
    hide RowReached, Mine, Stranger;
    StillMoney(db0, t, db, settled, db');
  }

  lemma StillMoney(db0: Db, t: Trio, db: Db, settled: nat, db': Db)
    requires Unaware(db0, t) && WalletReached(db0, t, db, settled) && LedgerReached(db0, t, db, settled)
    requires MoneyKept(db, t, db') && forall k :: 0 <= k < 3 ==> Where(db', t, k) == Where(db, t, k)
    ensures WalletReached(db0, t, db', settled) && LedgerReached(db0, t, db', settled)
  {
    hide Unaware, Where, LedgerOf, EntryFits, BalanceAfter;
    var n, own := |LedgerOf(db0.ledger, t.At(0).request.walletId)|, LedgerOf(db.ledger, t.At(0).request.walletId);
    assert forall j :: n <= j < |own| ==> EntryOwned(db, t, j - n, own[j]);
  }

  // ---- What operations on other wallets write

  /** At most one entry, on the row's own wallet. */
  predicate OwnEntry(w: Writes) {
    |w.entries| <= 1 && (w.entries != [] ==> w.entries[0].walletId == w.row.walletId)
  }

  lemma ApplyKeepsMoney(db: Db, t: Trio, id: TxId, w: Writes)
    requires id <= |db.wagers| && OwnEntry(w) && w.row.walletId != t.At(0).request.walletId
    requires t.At(0).request.walletId in db.wallets
    ensures MoneyKept(db, t, Apply(db, id, w))
  {
    LedgerOfAppend(db.ledger, w.entries, t.At(0).request.walletId);
  }

  /** Where the link of a new row leads. */
  lemma DecidedLink(wagers: seq<WagerRow>, wallet: WalletRow, r: WagerRequest, now: Time)
    ensures var o := Decide(wagers, wallet, r, now);
            && (o.Refuse? && o.reference.Some? ==> o.reference.value < |wagers|)
            && (o.Post? && o.reference.Some? ==>
                  o.reference.value < |wagers| && wagers[o.reference.value].walletId == r.walletId)
  {
    if NeedsReference(r) && ReadReference(wagers, r).Usable? {
      UsableWallet(wagers, r);
    }
    hide AlreadyReversed, ValidateReference;
  }

  lemma SyncAside(db: Db, t: Trio, cmd: Command, wallet: WalletRow, outcome: Outcome, now: Time, entryId: int)
    requires cmd.request.walletId != t.At(0).request.walletId && !UsesIds(t, cmd)
    requires !outcome.Fail? && (outcome.Unresolved? || outcome == Decide(db.wagers, wallet, cmd.request, now))
    ensures var w := SyncWrites(cmd, |db.wagers|, wallet, outcome, now, entryId);
            OwnEntry(w) && Aside(db, t, |db.wagers|, w.row)
  {
    DecidedLink(db.wagers, wallet, cmd.request, now);
    hide Decide, ProcessedEvents, RejectedEvent, PendingEvent;
  }

  /** Where the link of a resolved row leads. */
  lemma ResolvedLink(wagers: seq<WagerRow>, wallet: WalletRow, row: WagerRow, now: Time)
    ensures var o := Resolve(wagers, wallet, row, now);
            && (o.Refuse? && o.reference.Some? ==> o.reference.value < |wagers|)
            && (o.Post? ==> o.reference.Some? && o.reference.value < |wagers|
                            && wagers[o.reference.value].walletId == row.walletId)
  {
    if ReadReference(wagers, RequestOf(row)).Usable? {
      UsableWallet(wagers, RequestOf(row));
    }
    hide AlreadyReversed, ValidateReference, Expired;
  }

  lemma ResolverAside(db: Db, t: Trio, id: TxId, wallet: WalletRow, now: Time, entryId: int)
    requires id < |db.wagers| && db.wagers[id].walletId != t.At(0).request.walletId && db.wagers[id].state.PendingReference?
    requires !Resolve(db.wagers, wallet, db.wagers[id], now).Fail? && LinksBack(db.wagers)
    ensures var w := ResolverWrites(db.wagers[id], id, wallet, Resolve(db.wagers, wallet, db.wagers[id], now), now, entryId);
            OwnEntry(w) && Aside(db, t, id, w.row)
  {
    ResolvedLink(db.wagers, wallet, db.wagers[id], now);
    assert db.wagers[id].referencedId.Some? ==> db.wagers[id].referencedId.value < |db.wagers|;
    hide Resolve, LinksBack, NextAttempt, ProcessedEvents, RejectedEvent;
  }

  lemma RetriedAside(db: Db, t: Trio, id: TxId, now: Time)
    requires id < |db.wagers| && db.wagers[id].walletId != t.At(0).request.walletId && db.wagers[id].state.PendingReference?
    requires LinksBack(db.wagers)
    ensures Aside(db, t, id, Reschedule(db, id, now).wagers[id])
  {
  }

  lemma OpeningAside(db: Db, t: Trio, walletId: WalletId, wallet: WalletRow, now: Time, entryId: int)
    requires walletId != t.At(0).request.walletId
    ensures var w := OpeningWrites(walletId, wallet, |db.wagers|, now, entryId);
            OwnEntry(w) && Aside(db, t, |db.wagers|, w.row)
  {
  }

  lemma SubmittedReached(db0: Db, t: Trio, db: Db, settled: nat, cmd: Command, now: Time, entryId: int)
    requires Unaware(db0, t) && Reached(db0, t, db, settled)
    requires cmd.request.walletId != t.At(0).request.walletId && !UsesIds(t, cmd)
    requires KeyFree(db.wagers, cmd) && Process(db, cmd, now, entryId).Ok?
    ensures Reached(db0, t, Serial(db, Submitted(cmd, now, entryId)), settled)
  {
    var n, wallet := |db.wagers|, db.wallets[cmd.request.walletId];
    var outcome := Decide(db.wagers, wallet, cmd.request, now);
    ProcessWrites(db, cmd, now, entryId);
    SyncAside(db, t, cmd, wallet, outcome, now, entryId);
    var w := SyncWrites(cmd, n, wallet, outcome, now, entryId);
    assert w.row.walletId == cmd.request.walletId;
    hide Unaware, Decide, SyncWrites, Aside, OwnEntry, Process, RowsReached, LedgerReached;
    ApplyKeepsMoney(db, t, n, w);
    AsideReached(db0, t, db, settled, n, w.row, Apply(db, n, w));
  }

  lemma ProcessWrites(db: Db, cmd: Command, now: Time, entryId: int)
    requires KeyFree(db.wagers, cmd) && Process(db, cmd, now, entryId).Ok?
    ensures cmd.request.walletId in db.wallets
    ensures var wallet := db.wallets[cmd.request.walletId];
            var outcome := Decide(db.wagers, wallet, cmd.request, now);
            && !outcome.Fail?
            && Process(db, cmd, now, entryId).value.0
               == Apply(db, |db.wagers|, SyncWrites(cmd, |db.wagers|, wallet, outcome, now, entryId))
  {
    hide Decide, SyncWrites, Apply, Precheck;
  }

  lemma DeferredReached(db0: Db, t: Trio, db: Db, settled: nat, cmd: Command, balance: Int64, now: Time)
    requires Unaware(db0, t) && Reached(db0, t, db, settled)
    requires cmd.request.walletId != t.At(0).request.walletId && !UsesIds(t, cmd)
    requires cmd.request.walletId in db.wallets && balance == db.wallets[cmd.request.walletId].balance
    ensures Reached(db0, t, Defer(db, cmd, balance, now), settled)
  {
    var n, wallet := |db.wagers|, db.wallets[cmd.request.walletId];
    PendingIsDefer(db, cmd, wallet, now, 0);
    SyncAside(db, t, cmd, wallet, Unresolved, now, 0);
    var w := SyncWrites(cmd, n, wallet, Unresolved, now, 0);
    assert w.row.walletId == cmd.request.walletId;
    hide Unaware, SyncWrites, Aside, OwnEntry, Defer, RowsReached, LedgerReached;
    ApplyKeepsMoney(db, t, n, w);
    AsideReached(db0, t, db, settled, n, w.row, Apply(db, n, w));
  }

  lemma PassedReached(db0: Db, t: Trio, db: Db, settled: nat, id: TxId, now: Time, entryId: int)
    requires Unaware(db0, t) && Reached(db0, t, db, settled)
    requires id < |db.wagers| && db.wagers[id].walletId != t.At(0).request.walletId && db.wagers[id].state.PendingReference?
    requires ResolvePass(db, id, now, entryId).Ok?
    ensures Reached(db0, t, ResolvePass(db, id, now, entryId).value, settled)
  {
    var wallet := db.wallets[db.wagers[id].walletId];
    assert LinksBack(db.wagers);
    var outcome := Resolve(db.wagers, wallet, db.wagers[id], now);
    PassWrites(db, id, now, entryId);
    ResolverAside(db, t, id, wallet, now, entryId);
    var w := ResolverWrites(db.wagers[id], id, wallet, outcome, now, entryId);
    assert w.row.walletId == db.wagers[id].walletId;
    hide Unaware, Resolve, ResolverWrites, Aside, OwnEntry, ResolvePass, RowsReached, LedgerReached;
    ApplyKeepsMoney(db, t, id, w);
    AsideReached(db0, t, db, settled, id, w.row, Apply(db, id, w));
  }

  lemma PassWrites(db: Db, id: TxId, now: Time, entryId: int)
    requires id < |db.wagers| && ResolvePass(db, id, now, entryId).Ok?
    ensures db.wagers[id].walletId in db.wallets
    ensures var wallet := db.wallets[db.wagers[id].walletId];
            var outcome := Resolve(db.wagers, wallet, db.wagers[id], now);
            && !outcome.Fail?
            && ResolvePass(db, id, now, entryId).value == Apply(db, id, ResolverWrites(db.wagers[id], id, wallet, outcome, now, entryId))
  {
    hide Resolve, ResolverWrites, Apply;
  }

  lemma RetriedReached(db0: Db, t: Trio, db: Db, settled: nat, id: TxId, now: Time)
    requires Unaware(db0, t) && Reached(db0, t, db, settled)
    requires id < |db.wagers| && db.wagers[id].walletId != t.At(0).request.walletId && db.wagers[id].state.PendingReference?
    ensures Reached(db0, t, Reschedule(db, id, now), settled)
  {
    assert LinksBack(db.wagers) && t.At(0).request.walletId in db.wallets;
    RetriedAside(db, t, id, now);
    hide Unaware, Aside, RowsReached, LedgerReached, WalletReached;
    AsideReached(db0, t, db, settled, id, Reschedule(db, id, now).wagers[id], Reschedule(db, id, now));
  }

  lemma CreatedReached(db0: Db, t: Trio, db: Db, settled: nat, walletId: WalletId, wallet: WalletRow, entryId: int)
    requires Unaware(db0, t) && Reached(db0, t, db, settled) && walletId !in db.wallets
    ensures Reached(db0, t, Serial(db, Created(walletId, wallet, entryId)), settled)
  {
    var initial := Money(wallet.balance, wallet.currency);
    var made := Create(db, walletId, wallet.playerId, initial, wallet.createdAt, entryId);
    if made.Ok? {
      CreateShape(db, walletId, wallet.playerId, initial, wallet.createdAt, entryId);
      var row0 := WalletRow(wallet.playerId, wallet.currency, wallet.balance, 1, wallet.createdAt, wallet.createdAt);
      var empty := EmptyWallet(db, walletId, row0);
      assert MoneyKept(db, t, empty);
      EmptyReached(db0, t, db, settled, empty);
      OpeningAside(empty, t, walletId, row0, wallet.createdAt, entryId);
      var w := OpeningWrites(walletId, row0, |db.wagers|, wallet.createdAt, entryId);
      assert w.row.walletId == walletId;
      hide Unaware, Create, OpeningWrites, Aside, OwnEntry, Reached, EmptyWallet;
      ApplyKeepsMoney(empty, t, |db.wagers|, w);
      AsideReached(db0, t, empty, settled, |db.wagers|, w.row, Apply(empty, |db.wagers|, w));
    }
    hide Reached, Unaware, Create;
  }

  lemma EmptyReached(db0: Db, t: Trio, db: Db, settled: nat, db': Db)
    requires Unaware(db0, t) && Reached(db0, t, db, settled)
    requires db'.wagers == db.wagers && MoneyKept(db, t, db')
    ensures Reached(db0, t, db', settled)
  {
    assert forall k :: 0 <= k < 3 ==> Where(db', t, k) == Where(db, t, k);
    forall k | 0 <= k < 3 ensures RowReached(db0, t, db', settled, k) {
      assert RowReached(db0, t, db, settled, k);
    }
    forall i | 0 <= i < |db'.wagers| ensures Mine(db', t, i) || Stranger(db', t, db'.wagers[i]) {
      assert Mine(db, t, i) || Stranger(db, t, db.wagers[i]);
    }
    hide RowReached, Mine, Stranger, Unaware, Where;
    StillMoney(db0, t, db, settled, db');
  }

  /** No commit on another wallet disturbs the three. */
  lemma ForeignReached(db0: Db, t: Trio, db: Db, settled: nat, op: Op)
    requires Unaware(db0, t) && Reached(db0, t, db, settled) && Foreign(db, t, op) && Allowed(db, op)
    ensures Reached(db0, t, Serial(db, op), settled)
  {
    hide Unaware, Reached, UsesIds, Process, ResolvePass, Create, Stale, NeedsReference, Defer, Reschedule;
    match op
    case Submitted(cmd, now, entryId) => SubmittedReached(db0, t, db, settled, cmd, now, entryId);
    case Deferred(cmd, balance, now) => DeferredReached(db0, t, db, settled, cmd, balance, now);
    case Passed(id, now, entryId) => PassedReached(db0, t, db, settled, id, now, entryId);
    case Retried(id, now) => RetriedReached(db0, t, db, settled, id, now);
    case Created(walletId, wallet, entryId) => CreatedReached(db0, t, db, settled, walletId, wallet, entryId);
  }

  // ---- Operations on the three themselves

  /** The operation concerns the k-th of the three. */
  predicate Own(db: Db, t: Trio, op: Op, k: nat)
    requires k < 3
  {
    match op
    case Submitted(cmd, _, _) => cmd == t.At(k)
    case Deferred(cmd, _, _) => cmd == t.At(k)
    case Passed(id, _, _) => Where(db, t, k) == Some(id)
    case Retried(id, _) => Where(db, t, k) == Some(id)
    case Created(_, _, _) => false
  }

  /** Nothing about the three can be stale: what they refer to is on their wallet. */
  lemma NeverStale(db0: Db, t: Trio, db: Db, settled: nat, k: nat)
    requires Unaware(db0, t) && RowsReached(db0, t, db, settled) && k < 3
    requires NeedsReference(t.At(k).request)
    ensures !Stale(db.wagers, t.At(k).request)
  {
    RelatedOf(db0, t);
    RelatedKinds(t);
    assert SameContext(t.At(0).request, t.At(k).request);
    FindsPrevious(db, t, k);
    if Where(db, t, k - 1).Some? {
      assert RowReached(db0, t, db, settled, k - 1);
      SameWallet(t, k - 1, db.wagers[Where(db, t, k - 1).value]);
    }
    hide Related, SameContext, Stores, Final, OnHold, Overtaken;
  }

  lemma OwnRequest(db0: Db, t: Trio, db: Db, settled: nat, k: nat)
    requires Unaware(db0, t) && RowsReached(db0, t, db, settled) && k < 3 && Where(db, t, k).Some?
    ensures var row := db.wagers[Where(db, t, k).value];
            RequestOf(row) == t.At(k).request && (row.state.PendingReference? ==> NeedsReference(t.At(k).request))
  {
    assert RowReached(db0, t, db, settled, k);
    RelatedOf(db0, t);
    RelatedKinds(t);
    hide Unaware, Related, Where;
  }

  lemma OwnOperations(db0: Db, t: Trio, db: Db, settled: nat, op: Op, k: nat)
    requires Unaware(db0, t) && RowsReached(db0, t, db, settled) && k < 3
    requires Own(db, t, op, k) && Allowed(db, op)
    ensures op.Submitted? || op.Passed?
  {
    if NeedsReference(t.At(k).request) { NeverStale(db0, t, db, settled, k); }
    if Where(db, t, k).Some? { OwnRequest(db0, t, db, settled, k); }
    hide Unaware, RowsReached, Stale, NeedsReference, Process, ResolvePass, Where;
  }

  /** The k-th, if it waits, has not expired. */
  predicate WaitsInTime(db: Db, t: Trio, k: nat, now: Time)
    requires k < 3
  {
    var id := Where(db, t, k);
    id.Some? && db.wagers[id.value].state.PendingReference? ==> !Expired(db.wagers[id.value], now)
  }

  /** A pass over one of the three that finds it expired. */
  predicate Late(db: Db, t: Trio, op: Op) {
    op.Passed? && Mine(db, t, op.id) && Expired(db.wagers[op.id], op.now)
  }

  lemma OwnReached(db0: Db, t: Trio, db: Db, settled: nat, op: Op, k: nat) returns (settled': nat)
    requires Unaware(db0, t) && Reached(db0, t, db, settled) && k < 3
    requires Own(db, t, op, k) && Allowed(db, op)
    requires !Late(db, t, op)
    ensures settled <= settled' && Reached(db0, t, Serial(db, op), settled')
  {
    OwnOperations(db0, t, db, settled, op, k);
    settled' := settled;
    if op.Submitted? {
      SameKey(db0, t, db, settled, k);
      RelatedOf(db0, t);
      assert SameContext(t.At(0).request, t.At(k).request);
      assert Where(db, t, k).None?;
      settled' := Arrived(db0, t, db, settled, k, op.now, op.entryId);
    } else {
      assert Serial(db, op) == Pass(db, t, k, op.now, op.entryId);
      settled' := PassedOver(db0, t, db, settled, k, op.now, op.entryId);
    }
    hide Unaware, Reached, Serial, Allowed, Process, ResolvePass;
  }

  lemma AbsentLater(db0: Db, t: Trio, db: Db, settled: nat, k: nat)
    requires Unaware(db0, t) && Reached(db0, t, db, settled) && k < 3 && Where(db, t, k).None?
    ensures settled <= k
  {
    assert RowReached(db0, t, db, settled, k);
    hide Unaware, Where, WalletReached, LedgerReached;
  }

  lemma Arrived(db0: Db, t: Trio, db: Db, settled: nat, k: nat, now: Time, entryId: int)
    returns (settled': nat)
    requires Unaware(db0, t) && Reached(db0, t, db, settled) && k < 3
    requires Where(db, t, k).None?
    ensures settled <= settled' && Reached(db0, t, Arrive(db, t.At(k), now, entryId), settled')
  {
    hide *;
    settled' := settled;
    AbsentLater(db0, t, db, settled, k);
    if k == settled {
      ArriveInTurn(db0, t, db, settled, now, entryId);
      settled' := settled + 1;
    } else {
      ArriveEarly(db0, t, db, settled, k, now, entryId);
    }
  }

  lemma PassedOver(db0: Db, t: Trio, db: Db, settled: nat, k: nat, now: Time, entryId: int)
    returns (settled': nat)
    requires Unaware(db0, t) && Reached(db0, t, db, settled) && k < 3 && WaitsInTime(db, t, k, now)
    ensures settled <= settled' && Reached(db0, t, Pass(db, t, k, now, entryId), settled')
    ensures forall j :: 0 <= j < 3 && Where(db, t, j).Some? ==> Where(Pass(db, t, k, now, entryId), t, j).Some?
    ensures k == settled && Where(db, t, k).Some? ==> settled' > settled
  {
    settled' := settled;
    if Where(db, t, k).Some? {
      assert RowReached(db0, t, db, settled, k);
      if db.wagers[Where(db, t, k).value].state.PendingReference? {
        WaitsInLine(db0, t, db, settled, k);
        hide Unaware, Reached, RowReached, Pass;
        if k == settled {
          PassInTurn(db0, t, db, settled, now, entryId);
          settled' := settled + 1;
        } else {
          PassEarly(db0, t, db, settled, k, now, entryId);
        }
      }
    }
  }

  // ---- Whole histories

  /** The operation is about one of the three or about another wallet. */
  predicate Welcome(db: Db, t: Trio, op: Op) {
    Foreign(db, t, op) || exists k :: 0 <= k < 3 && Own(db, t, op, k)
  }

  /** No other traffic on the wallet of the three. */
  predicate Fair(db: Db, t: Trio, ops: seq<Op>)
    decreases |ops|
  {
    ops == [] || (Welcome(db, t, ops[0]) && Fair(Serial(db, ops[0]), t, ops[1..]))
  }

  /** Every pass over one of the three comes before that one expires. */
  predicate InTime(db: Db, t: Trio, ops: seq<Op>)
    decreases |ops|
  {
    ops == [] || (!Late(db, t, ops[0]) && InTime(Serial(db, ops[0]), t, ops[1..]))
  }

  lemma OpReached(db0: Db, t: Trio, db: Db, settled: nat, op: Op) returns (settled': nat)
    requires Unaware(db0, t) && Reached(db0, t, db, settled)
    requires Welcome(db, t, op) && Allowed(db, op) && !Late(db, t, op)
    ensures settled <= settled' && Reached(db0, t, Serial(db, op), settled')
  {
    hide Unaware, Reached, Serial, Allowed, Foreign, Own, Late;
    if Foreign(db, t, op) {
      ForeignReached(db0, t, db, settled, op);
      settled' := settled;
    } else {
      var k :| 0 <= k < 3 && Own(db, t, op, k);
      settled' := OwnReached(db0, t, db, settled, op, k);
    }
  }

  /** At any moment some first few of the three are settled as they would be in
      order, and the rest are absent or wait. */
  lemma {:induction false} HistoryReached(db0: Db, t: Trio, db: Db, settled: nat, ops: seq<Op>)
    returns (settled': nat)
    requires Unaware(db0, t) && Reached(db0, t, db, settled)
    requires AllAllowed(db, ops) && Fair(db, t, ops) && InTime(db, t, ops)
    ensures settled <= settled' && Reached(db0, t, SerialRun(db, ops), settled')
    decreases |ops|
  {
    hide Unaware, Reached, Serial, Allowed, Welcome, Late;
    settled' := settled;
    if ops != [] {
      settled' := OpReached(db0, t, db, settled, ops[0]);
      settled' := HistoryReached(db0, t, Serial(db, ops[0]), settled', ops[1..]);
    }
  }

  // ---- What a late pass leaves

  /** No operation touches a row that has ended. */
  lemma EndedStays(db: Db, t: Trio, op: Op, k: nat)
    requires Allowed(db, op) && k < 3 && Where(db, t, k).Some? && Terminal(db.wagers[Where(db, t, k).value].state)
    ensures Where(Serial(db, op), t, k) == Where(db, t, k)
    ensures Serial(db, op).wagers[Where(db, t, k).value] == db.wagers[Where(db, t, k).value]
  {
    var p, x := t.At(0).request.providerId, t.At(k).request.externalId;
    hide Where, Terminal;
    if Serial(db, op).wagers != db.wagers {
      var id, row := OpWrites(db, op);
      hide Serial, Allowed;
      assert Where(db, t, k) == FindByExternal(db.wagers, p, x);
      FindExternalPut(db.wagers, id, row, p, x);
    }
  }

  /** Every operation writes one row, new or waiting, or none. */
  lemma OpWrites(db: Db, op: Op) returns (id: TxId, row: WagerRow)
    requires Allowed(db, op) && Serial(db, op).wagers != db.wagers
    ensures Overwrites(db.wagers, id, row) && Serial(db, op).wagers == Put(db.wagers, id, row)
  {
    match op
    case Submitted(cmd, now, entryId) =>
      ProcessWrites(db, cmd, now, entryId);
      var wallet := db.wallets[cmd.request.walletId];
      id := |db.wagers|;
      row := SyncWrites(cmd, id, wallet, Decide(db.wagers, wallet, cmd.request, now), now, entryId).row;
    case Deferred(cmd, balance, now) =>
      id, row := |db.wagers|, PendingRow(cmd, balance, now);
    case Passed(i, now, entryId) =>
      PassWrites(db, i, now, entryId);
      var wallet := db.wallets[db.wagers[i].walletId];
      var outcome := Resolve(db.wagers, wallet, db.wagers[i], now);
      id, row := i, ResolverWrites(db.wagers[i], i, wallet, outcome, now, entryId).row;
      ResolverShape(db.wagers[i], i, wallet, outcome, now, entryId);
    case Retried(i, now) =>
      id, row := i, Reschedule(db, i, now).wagers[i];
    case Created(walletId, wallet, entryId) =>
      id := |db.wagers|;
      row := Serial(db, op).wagers[id];
  }

  lemma {:induction false} EndedForever(db: Db, t: Trio, ops: seq<Op>, k: nat)
    requires AllAllowed(db, ops) && k < 3 && Where(db, t, k).Some? && Terminal(db.wagers[Where(db, t, k).value].state)
    ensures Where(SerialRun(db, ops), t, k) == Where(db, t, k)
    ensures SerialRun(db, ops).wagers[Where(db, t, k).value] == db.wagers[Where(db, t, k).value]
    decreases |ops|
  {
    hide Allowed, Serial, Where, Terminal;
    if ops != [] {
      EndedStays(db, t, ops[0], k);
      EndedForever(Serial(db, ops[0]), t, ops[1..], k);
    }
  }

  predicate RejectedLate(db: Db, t: Trio, k: nat) {
    && k < 3 && Where(db, t, k).Some?
    && db.wagers[Where(db, t, k).value].state.Rejected?
    && db.wagers[Where(db, t, k).value].failureCode == Some(REFERENCE_EXPIRED)
  }

  lemma LatePass(db: Db, t: Trio, op: Op) returns (k: nat)
    requires Allowed(db, op) && Late(db, t, op)
    ensures RejectedLate(Serial(db, op), t, k)
  {
    k :| 0 <= k < 3 && Where(db, t, k) == Some(op.id);
    var wallet := db.wallets[db.wagers[op.id].walletId];
    var w := ResolverWrites(db.wagers[op.id], op.id, wallet, Refuse(REFERENCE_EXPIRED, None), op.now, op.entryId);
    PassWrites(db, op.id, op.now, op.entryId);
    assert Serial(db, op) == Apply(db, op.id, w);
    FindExternalPut(db.wagers, op.id, w.row, t.At(0).request.providerId, t.At(k).request.externalId);
  }

  /** Once a pass over one of the three was late, that one stays rejected for it. */
  lemma {:induction false} LateForever(db: Db, t: Trio, ops: seq<Op>) returns (k: nat)
    requires AllAllowed(db, ops) && !InTime(db, t, ops)
    ensures RejectedLate(SerialRun(db, ops), t, k)
    decreases |ops|
  {
    hide Allowed, Serial, Late;
    if Late(db, t, ops[0]) {
      k := LatePass(db, t, ops[0]);
      EndedForever(Serial(db, ops[0]), t, ops[1..], k);
    } else {
      k := LateForever(Serial(db, ops[0]), t, ops[1..]);
    }
  }

  lemma LateUnlike(db0: Db, t: Trio, a: Db, b: Db, k: nat)
    requires Unaware(db0, t) && Reached(db0, t, a, 3) && RejectedLate(b, t, k)
    ensures !Alike(db0, t, a, b) && !Alike(db0, t, b, a)
  {
    assert RowReached(db0, t, a, 3, k);
    hide Unaware, Where, LedgerOf;
    assert !SameEnd(t, a, b, k) && !SameEnd(t, b, a, k);
  }

  predicate Here(db: Db, t: Trio) {
    forall k :: 0 <= k < 3 ==> Where(db, t, k).Some?
  }

  /** All three are there and none waits any more. */
  predicate Over(db: Db, t: Trio) {
    Here(db, t) && forall k :: 0 <= k < 3 ==> !db.wagers[Where(db, t, k).value].state.PendingReference?
  }

  lemma OverSettled(db0: Db, t: Trio, db: Db, settled: nat)
    requires Unaware(db0, t) && Reached(db0, t, db, settled) && Over(db, t)
    ensures settled == 3
  {
    assert RowReached(db0, t, db, settled, 0);
    assert RowReached(db0, t, db, settled, 1) && RowReached(db0, t, db, settled, 2);
  }

  lemma SettledOver(db0: Db, t: Trio, db: Db)
    requires Unaware(db0, t) && Reached(db0, t, db, 3)
    ensures Over(db, t)
  {
    forall k | 0 <= k < 3
      ensures Where(db, t, k).Some? && !db.wagers[Where(db, t, k).value].state.PendingReference?
    {
      assert RowReached(db0, t, db, 3, k);
    }
  }

  lemma BetSettled(db0: Db, t: Trio, db: Db, settled: nat)
    requires Unaware(db0, t) && Reached(db0, t, db, settled) && Here(db, t)
    ensures settled > 0
  {
    hide Unaware, RowReached;
  }

  /** A pass over one of the three leaves the rows of the others alone. */
  lemma PassAside(db0: Db, t: Trio, db: Db, settled: nat, k: nat, now: Time, entryId: int, j: nat)
    requires Unaware(db0, t) && Reached(db0, t, db, settled) && k < 3 && j < 3 && j != k && Where(db, t, j).Some?
    ensures var db' := Pass(db, t, k, now, entryId);
            Where(db', t, j) == Where(db, t, j) && db'.wagers[Where(db, t, j).value] == db.wagers[Where(db, t, j).value]
  {
    if Where(db, t, k).Some? {
      assert RowReached(db0, t, db, settled, k) && RowReached(db0, t, db, settled, j);
      RelatedOf(db0, t);
      StoresIdentity(db.wagers[Where(db, t, k).value], t, k);
      StoresIdentity(db.wagers[Where(db, t, j).value], t, j);
      assert Where(db, t, k) != Where(db, t, j);
      hide Unaware, Reached, Stores;
      if Pass(db, t, k, now, entryId) != db {
        var id := Where(db, t, k).value;
        PassWrites(db, id, now, entryId);
        var wallet := db.wallets[db.wagers[id].walletId];
        var outcome := Resolve(db.wagers, wallet, db.wagers[id], now);
        ResolverShape(db.wagers[id], id, wallet, outcome, now, entryId);
        hide Resolve, ResolverWrites, ResolvePass;
        FindExternalPut(db.wagers, id, ResolverWrites(db.wagers[id], id, wallet, outcome, now, entryId).row,
                        t.At(0).request.providerId, t.At(j).request.externalId);
      }
    }
  }

  lemma PassesFrom(db0: Db, t: Trio, db: Db, settled: nat, now1: Time, id1: int, now2: Time, id2: int)
    requires Unaware(db0, t) && Reached(db0, t, db, settled) && settled > 0 && Here(db, t)
    requires WaitsInTime(db, t, 1, now1) && WaitsInTime(db, t, 2, now2)
    ensures Over(Pass(Pass(db, t, 1, now1, id1), t, 2, now2, id2), t)
  {
    hide Unaware, Reached, Pass, Where;
    var b := Pass(db, t, 1, now1, id1);
    var n := PassedOver(db0, t, db, settled, 1, now1, id1);
    PassAside(db0, t, db, settled, 1, now1, id1, 2);
    assert WaitsInTime(b, t, 2, now2);
    n := PassedOver(db0, t, b, n, 2, now2, id2);
    AtMostThree(db0, t, Pass(b, t, 2, now2, id2), n);
    SettledOver(db0, t, Pass(b, t, 2, now2, id2));
  }

  /** Once all three are there, a pass over the refund and then one over the
      rollback, each before its row expires if that still waits, are enough. */
  lemma TwoPassesSuffice(db0: Db, t: Trio, ops: seq<Op>, now1: Time, id1: int, now2: Time, id2: int)
    requires Unaware(db0, t) && AllAllowed(db0, ops) && Fair(db0, t, ops) && InTime(db0, t, ops)
    requires var db := SerialRun(db0, ops);
             Here(db, t) && WaitsInTime(db, t, 1, now1) && WaitsInTime(db, t, 2, now2)
    ensures Over(Pass(Pass(SerialRun(db0, ops), t, 1, now1, id1), t, 2, now2, id2), t)
  {
    NothingYet(db0, t);
    hide *;
    var n := HistoryReached(db0, t, db0, 0, ops);
    BetSettled(db0, t, SerialRun(db0, ops), n);
    PassesFrom(db0, t, SerialRun(db0, ops), n, now1, id1, now2, id2);
  }

  lemma AtMostThree(db0: Db, t: Trio, db: Db, settled: nat)
    requires Unaware(db0, t) && Reached(db0, t, db, settled)
    ensures settled <= 3
  {
  }

  // ---- All orders end alike

  /** The same row but for where its reference sits and when it was written. */
  predicate SameEnd(t: Trio, a: Db, b: Db, k: nat)
    requires k < 3
  {
    && Where(a, t, k).Some? && Where(b, t, k).Some?
    && var x, y := a.wagers[Where(a, t, k).value], b.wagers[Where(b, t, k).value];
       && x.state == y.state && Terminal(x.state)
       && x.failureCode == y.failureCode && x.resultBalance == y.resultBalance
       && x.referencedId == Link(a, t, k) && y.referencedId == Link(b, t, k)
       && RequestOf(x) == RequestOf(y) && x.idempotencyKey == y.idempotencyKey
  }

  /** The same movement, of the same one of the three. */
  predicate SameEntry(t: Trio, a: Db, b: Db, e: LedgerEntry, f: LedgerEntry) {
    && e.walletId == f.walletId && e.direction == f.direction && e.amount == f.amount
    && e.balanceBefore == f.balanceBefore && e.balanceAfter == f.balanceAfter
    && exists k :: 0 <= k < 3 && Where(a, t, k) == Some(e.txId) && Where(b, t, k) == Some(f.txId)
  }

  /** For the three, their wallet and its ledger, two outcomes from db0 that differ
      in nothing but positions and times. */
  predicate Alike(db0: Db, t: Trio, a: Db, b: Db) {
    var w := t.At(0).request.walletId;
    var was, x, y := LedgerOf(db0.ledger, w), LedgerOf(a.ledger, w), LedgerOf(b.ledger, w);
    && (forall k :: 0 <= k < 3 ==> SameEnd(t, a, b, k))
    && w in a.wallets && w in b.wallets
    && a.wallets[w].(updatedAt := b.wallets[w].updatedAt) == b.wallets[w]
    && |x| == |y| >= |was|
    && x[..|was|] == was == y[..|was|]
    && forall j :: |was| <= j < |x| ==> SameEntry(t, a, b, x[j], y[j])
  }

  lemma SettledAlike(db0: Db, t: Trio, a: Db, b: Db)
    requires Unaware(db0, t) && Reached(db0, t, a, 3) && Reached(db0, t, b, 3)
    ensures Alike(db0, t, a, b)
  {
    forall k | 0 <= k < 3 ensures SameEnd(t, a, b, k) {
      assert RowReached(db0, t, a, 3, k) && RowReached(db0, t, b, 3, k);
    }
    var w := t.At(0).request.walletId;
    var n, x, y := |LedgerOf(db0.ledger, w)|, LedgerOf(a.ledger, w), LedgerOf(b.ledger, w);
    hide Unaware, Where, SameEnd, LedgerOf;
    forall j | n <= j < |x| ensures SameEntry(t, a, b, x[j], y[j]) {
      var _ := EntryOwned(a, t, j - n, x[j]);
      assert EntryOwned(b, t, j - n, y[j]);
    }
  }

  lemma HistoryOver(db0: Db, t: Trio, ops: seq<Op>)
    requires Unaware(db0, t)
    requires AllAllowed(db0, ops) && Fair(db0, t, ops) && InTime(db0, t, ops) && Over(SerialRun(db0, ops), t)
    ensures Reached(db0, t, SerialRun(db0, ops), 3)
  {
    NothingYet(db0, t);
    hide *;
    var n := HistoryReached(db0, t, db0, 0, ops);
    OverSettled(db0, t, SerialRun(db0, ops), n);
  }

  /** Whatever the order and the times at which the three are committed, and
      whatever is committed in between, on them by the resolver or on other wallets
      by anyone: once all are there and none waits, the outcome is that of any such
      history without a late pass exactly if this one has none either. */
  lemma AnyOrder(db0: Db, t: Trio, ops: seq<Op>, ops': seq<Op>)
    requires Unaware(db0, t)
    requires AllAllowed(db0, ops) && Fair(db0, t, ops) && Over(SerialRun(db0, ops), t) && InTime(db0, t, ops)
    requires AllAllowed(db0, ops') && Fair(db0, t, ops') && Over(SerialRun(db0, ops'), t)
    ensures Alike(db0, t, SerialRun(db0, ops), SerialRun(db0, ops')) <==> InTime(db0, t, ops')
  {
    hide *;
    HistoryOver(db0, t, ops);
    if InTime(db0, t, ops') {
      HistoryOver(db0, t, ops');
      SettledAlike(db0, t, SerialRun(db0, ops), SerialRun(db0, ops'));
    } else {
      var k := LateForever(db0, t, ops');
      LateUnlike(db0, t, SerialRun(db0, ops), SerialRun(db0, ops'), k);
    }
  }

  /** In-order arrival, which needs no pass at all. */
  function InOrder(db: Db, t: Trio, now0: Time, now1: Time, now2: Time, id0: int, id1: int, id2: int): Db {
    Arrive(Arrive(Arrive(db, t.At(0), now0, id0), t.At(1), now1, id1), t.At(2), now2, id2)
  }

  lemma InOrderReached(db0: Db, t: Trio, now0: Time, now1: Time, now2: Time, id0: int, id1: int, id2: int)
    requires Unaware(db0, t)
    ensures Reached(db0, t, InOrder(db0, t, now0, now1, now2, id0, id1, id2), 3)
  {
    var a := Arrive(db0, t.At(0), now0, id0);
    var b := Arrive(a, t.At(1), now1, id1);
    NothingYet(db0, t);
    assert forall k :: 0 <= k < 3 ==> Where(db0, t, k).None?;
    hide Unaware, Reached, Arrive, Where;
    ArriveInTurn(db0, t, db0, 0, now0, id0);
    ArriveInTurn(db0, t, a, 1, now1, id1);
    ArriveInTurn(db0, t, b, 2, now2, id2);
  }

  /** Such a history ends as in-order arrival does exactly if none of its passes
      over the three finds its row expired. */
  lemma LikeInOrder(db0: Db, t: Trio, ops: seq<Op>, now0: Time, now1: Time, now2: Time, id0: int, id1: int, id2: int)
    requires Unaware(db0, t)
    requires AllAllowed(db0, ops) && Fair(db0, t, ops) && Over(SerialRun(db0, ops), t)
    ensures Alike(db0, t, SerialRun(db0, ops), InOrder(db0, t, now0, now1, now2, id0, id1, id2)) <==> InTime(db0, t, ops)
  {
    hide *;
    var inOrder := InOrder(db0, t, now0, now1, now2, id0, id1, id2);
    InOrderReached(db0, t, now0, now1, now2, id0, id1, id2);
    if InTime(db0, t, ops) {
      HistoryOver(db0, t, ops);
      SettledAlike(db0, t, SerialRun(db0, ops), inOrder);
    } else {
      var k := LateForever(db0, t, ops);
      LateUnlike(db0, t, inOrder, SerialRun(db0, ops), k);
    }
  }

  /** Any interleaving, from any reachable state that knows nothing of the three:
      if they alone are committed on their wallet, then once all are there and none
      waits, they have ended as they would in order, unless a pass came too late. */
  lemma AnyInterleaving(s: Sys, t: Trio, actions: seq<Action>,
                        now0: Time, now1: Time, now2: Time, id0: int, id1: int, id2: int)
    requires Inv(s) && Unaware(s.db, t)
    requires Fair(s.db, t, History(s, actions)) && Over(Run(s, actions).db, t)
    ensures Alike(s.db, t, Run(s, actions).db, InOrder(s.db, t, now0, now1, now2, id0, id1, id2))
       <==> InTime(s.db, t, History(s, actions))
  {
    hide *;
    Serializable(s, actions);
    LikeInOrder(s.db, t, History(s, actions), now0, now1, now2, id0, id1, id2);
  }
}
