/** The outbox tells exactly what happened. */
module Announcements {
  import opened Common
  import opened Amounts
  import opened Wallets
  import opened Wagers
  import opened Tables
  import opened Decisions
  import opened Invariant
  import opened Preservation
  import opened Protocol
  import opened Safety
  import Runs

  // ---- Balance changes

  function BalanceEvents(outbox: seq<Event>): seq<Event> {
    if outbox == [] then []
    else
      var last := outbox[|outbox| - 1];
      BalanceEvents(outbox[..|outbox| - 1]) + (if last.BalanceChanged? then [last] else [])
  }

  function CurrencyAt(wagers: seq<WagerRow>, id: TxId): string {
    if id < |wagers| then wagers[id].currency else ""
  }

  /** The event a ledger entry calls for, when it leaves the wallet at this version. */
  function EntryEvent(wagers: seq<WagerRow>, e: LedgerEntry, version: int): Event
    requires MIN_INT64 <= version <= MAX_INT64
  {
    var currency := CurrencyAt(wagers, e.txId);
    BalanceChanged(e.txId, e.walletId, e.direction, Money(e.amount, currency),
                   Money(e.balanceBefore, currency), Money(e.balanceAfter, currency), version)
  }

  predicate Announces(wagers: seq<WagerRow>, e: LedgerEntry, version: int, event: Event) {
    MIN_INT64 <= version <= MAX_INT64 && event == EntryEvent(wagers, e, version)
  }

  /** Balance events match the ledger entry by entry, in commit order, each with
      the version its wallet had reached: one more at every movement, no gap. */
  predicate BalancesAnnounced(wagers: seq<WagerRow>, ledger: seq<LedgerEntry>, events: seq<Event>) {
    if ledger == [] || events == [] then ledger == [] && events == []
    else
      var n, m := |ledger| - 1, |events| - 1;
      && Announces(wagers, ledger[n], 1 + Moves(wagers, ledger, ledger[n].walletId), events[m])
      && BalancesAnnounced(wagers, ledger[..n], events[..m])
  }

  // ---- The other events of one wager

  function LifeEvents(outbox: seq<Event>, id: TxId): seq<Event> {
    if outbox == [] then []
    else
      var last := outbox[|outbox| - 1];
      LifeEvents(outbox[..|outbox| - 1], id) + (if last.txId == id && !last.BalanceChanged? then [last] else [])
  }

  /** What a row in this state must have announced: that it waited, if it ever did,
      and how it ended. */
  function Expected(id: TxId, row: WagerRow): seq<Event> {
    (if row.expiresAt.Some?
     then [TransactionPendingReference(id, Text(row.providerId), Text(row.externalId), Text(row.referenceExternalId))]
     else [])
    + match row.state
      case Processed => [TransactionProcessed(id, row.walletId, row.kind)]
      case Rejected =>
        if row.failureCode.Some?
        then [TransactionRejected(id, row.walletId, Text(row.providerId), row.kind, row.failureCode.value)]
        else []
      case _ => []
  }

  predicate Announced(db: Db) {
    && BalancesAnnounced(db.wagers, db.ledger, BalanceEvents(db.outbox))
    && (forall i :: 0 <= i < |db.wagers| ==> LifeEvents(db.outbox, i) == Expected(i, db.wagers[i]))
    && (forall j :: 0 <= j < |db.outbox| ==> db.outbox[j].txId < |db.wagers|)
  }

  // ---- Writes that announce what they do

  predicate Tells(before: Option<WagerRow>, id: TxId, w: Writes) {
    && (forall k :: 0 <= k < |w.events| ==> w.events[k].txId == id)
    && |w.events| <= 2
    && Expected(id, w.row) == (if before.Some? then Expected(id, before.value) else []) + LifeEvents(w.events, id)
    && (!MovesMoney(w.row) ==> BalanceEvents(w.events) == [])
    && (MovesMoney(w.row) ==>
          && |w.entries| == 1
          && BalanceEvents(w.events)
             == [BalanceChanged(id, w.row.walletId, w.entries[0].direction, Money(w.row.amount, w.row.currency),
                                Money(w.entries[0].balanceBefore, w.row.currency),
                                Money(w.wallet.balance, w.row.currency), w.wallet.version)])
  }

  lemma {:induction false} FiltersAppend(outbox: seq<Event>, events: seq<Event>, id: TxId)
    ensures BalanceEvents(outbox + events) == BalanceEvents(outbox) + BalanceEvents(events)
    ensures LifeEvents(outbox + events, id) == LifeEvents(outbox, id) + LifeEvents(events, id)
    decreases |events|
  {
    if events == [] {
      assert outbox + events == outbox;
    } else {
      var n := |events| - 1;
      assert (outbox + events)[..|outbox| + n] == outbox + events[..n];
      FiltersAppend(outbox, events[..n], id);
    }
  }

  lemma {:induction false} OthersQuiet(events: seq<Event>, id: TxId, other: TxId)
    requires forall k :: 0 <= k < |events| ==> events[k].txId == id
    requires other != id
    ensures LifeEvents(events, other) == []
  {
    if events != [] { OthersQuiet(events[..|events| - 1], id, other); }
  }

  lemma {:induction false} UnknownQuiet(events: seq<Event>, id: TxId)
    requires forall k :: 0 <= k < |events| ==> events[k].txId < id
    ensures LifeEvents(events, id) == []
  {
    if events != [] { UnknownQuiet(events[..|events| - 1], id); }
  }

  lemma {:induction false} AnnouncedPut(wagers: seq<WagerRow>, id: TxId, row: WagerRow, ledger: seq<LedgerEntry>,
                                        events: seq<Event>)
    requires id <= |wagers|
    requires id < |wagers| ==> wagers[id].kind == row.kind && wagers[id].currency == row.currency
    requires forall j :: 0 <= j < |ledger| ==> ledger[j].txId < |wagers|
    requires BalancesAnnounced(wagers, ledger, events)
    ensures BalancesAnnounced(Put(wagers, id, row), ledger, events)
    decreases |ledger|
  {
    if ledger != [] && events != [] {
      MovesPut(wagers, id, row, ledger, ledger[|ledger| - 1].walletId);
      AnnouncedPut(wagers, id, row, ledger[..|ledger| - 1], events[..|events| - 1]);
    }
  }

  lemma VersionAfter(db: Db, id: TxId, w: Writes)
    requires Valid(db) && Sound(db, id, w)
    ensures w.wallet.version == 1 + Moves(Put(db.wagers, id, w.row), db.ledger + w.entries, w.row.walletId)
    ensures forall j :: 0 <= j < |db.ledger| ==> db.ledger[j].txId < |db.wagers|
    ensures id <= |db.wagers|
    ensures id < |db.wagers| ==> db.wagers[id].kind == w.row.kind && db.wagers[id].currency == w.row.currency
    ensures !MovesMoney(w.row) ==> w.entries == []
  {
    assert WalletOk(db, w.row.walletId);
    SoundVersion(db, id, w, w.row.walletId);
    forall j | 0 <= j < |db.ledger| ensures db.ledger[j].txId < |db.wagers| {
      assert EntryOk(db.wagers, db.ledger[j]);
    }
  }

  lemma BalancesAppend(wagers: seq<WagerRow>, ledger: seq<LedgerEntry>, e: LedgerEntry, events: seq<Event>, event: Event)
    requires BalancesAnnounced(wagers, ledger, events)
    requires Announces(wagers, e, 1 + Moves(wagers, ledger + [e], e.walletId), event)
    ensures BalancesAnnounced(wagers, ledger + [e], events + [event])
  {
    assert (ledger + [e])[..|ledger|] == ledger;
    assert (events + [event])[..|events|] == events;
  }

  lemma SoundEntry(db: Db, id: TxId, w: Writes)
    requires Sound(db, id, w) && MovesMoney(w.row)
    ensures |w.entries| == 1
    ensures var e := w.entries[0];
            e.txId == id && e.walletId == w.row.walletId && e.amount == w.row.amount && e.balanceAfter == w.wallet.balance
  {
    hide RowOk, SameIdentity, Distinct, AlreadyReversed, Signed;
  }

  lemma TellsEntry(db: Db, before: Option<WagerRow>, id: TxId, w: Writes)
    requires Valid(db) && Sound(db, id, w) && MovesMoney(w.row) && Tells(before, id, w)
    ensures |w.entries| == 1 && |BalanceEvents(w.events)| == 1
    ensures var e := w.entries[0];
            Announces(Put(db.wagers, id, w.row), e, 1 + Moves(Put(db.wagers, id, w.row), db.ledger + [e], e.walletId),
                      BalanceEvents(w.events)[0])
  {
    hide Valid, Sound, MovesMoney, Moves, LifeEvents, Expected, BalanceEvents;
    VersionAfter(db, id, w);
    SoundEntry(db, id, w);
    assert w.entries == [w.entries[0]];
  }

  lemma TellsQuiet(before: Option<WagerRow>, id: TxId, w: Writes)
    requires Tells(before, id, w) && !MovesMoney(w.row)
    ensures BalanceEvents(w.events) == []
  {
  }

  lemma TellsBalances(db: Db, before: Option<WagerRow>, id: TxId, w: Writes)
    requires Valid(db) && Sound(db, id, w) && Tells(before, id, w)
    requires BalancesAnnounced(db.wagers, db.ledger, BalanceEvents(db.outbox))
    ensures BalancesAnnounced(Put(db.wagers, id, w.row), db.ledger + w.entries, BalanceEvents(db.outbox + w.events))
  {
    hide Valid, Sound, Tells, BalancesAnnounced, BalanceEvents, Announces, Moves, MovesMoney;
    VersionAfter(db, id, w);
    var events, more := BalanceEvents(db.outbox), BalanceEvents(w.events);
    FiltersAppend(db.outbox, w.events, id);
    AnnouncedPut(db.wagers, id, w.row, db.ledger, events);
    if MovesMoney(w.row) {
      TellsEntry(db, before, id, w);
      BalancesAppend(Put(db.wagers, id, w.row), db.ledger, w.entries[0], events, more[0]);
      assert w.entries == [w.entries[0]] && more == [more[0]];
    } else {
      TellsQuiet(before, id, w);
      assert db.ledger + w.entries == db.ledger;
      assert events + more == events;
    }
  }

  lemma TellsLives(db: Db, id: TxId, w: Writes)
    requires Sound(db, id, w) && Tells(if id < |db.wagers| then Some(db.wagers[id]) else None, id, w)
    requires Announced(db)
    ensures forall i :: 0 <= i < |Apply(db, id, w).wagers| ==>
              LifeEvents(Apply(db, id, w).outbox, i) == Expected(i, Apply(db, id, w).wagers[i])
  {
    var db' := Apply(db, id, w);
    forall i | 0 <= i < |db'.wagers| ensures LifeEvents(db'.outbox, i) == Expected(i, db'.wagers[i]) {
      FiltersAppend(db.outbox, w.events, i);
      if i != id {
        OthersQuiet(w.events, id, i);
      } else if id == |db.wagers| {
        UnknownQuiet(db.outbox, id);
      }
    }
  }

  lemma TellsAnnounced(db: Db, id: TxId, w: Writes)
    requires Valid(db) && Sound(db, id, w) && Tells(if id < |db.wagers| then Some(db.wagers[id]) else None, id, w)
    requires Announced(db)
    ensures Announced(Apply(db, id, w))
  {
    EventsNameRows(db, id, w);
    hide Valid, Sound, Tells, BalancesAnnounced, BalanceEvents, LifeEvents, Expected;
    TellsBalances(db, if id < |db.wagers| then Some(db.wagers[id]) else None, id, w);
    TellsLives(db, id, w);
  }

  lemma EventsNameRows(db: Db, id: TxId, w: Writes)
    requires Sound(db, id, w) && Tells(if id < |db.wagers| then Some(db.wagers[id]) else None, id, w)
    requires forall j :: 0 <= j < |db.outbox| ==> db.outbox[j].txId < |db.wagers|
    ensures id <= |db.wagers|
    ensures var db' := Apply(db, id, w);
            db'.outbox == db.outbox + w.events
            && forall j :: 0 <= j < |db'.outbox| ==> db'.outbox[j].txId < |db'.wagers|
  {
    hide RowOk, Distinct, Booked, AlreadyReversed, SameIdentity, Expected, LifeEvents, BalanceEvents, MovesMoney;
  }

  // ---- Every writer tells

  lemma Filters1(a: Event, id: TxId)
    ensures BalanceEvents([a]) == if a.BalanceChanged? then [a] else []
    ensures LifeEvents([a], id) == if a.txId == id && !a.BalanceChanged? then [a] else []
  {
    assert [a][..0] == [];
  }

  lemma Filters2(a: Event, b: Event, id: TxId)
    ensures BalanceEvents([a, b]) == BalanceEvents([a]) + BalanceEvents([b])
    ensures LifeEvents([a, b], id) == LifeEvents([a], id) + LifeEvents([b], id)
  {
    assert [a] + [b] == [a, b];
    FiltersAppend([a], [b], id);
  }

  /** The events of a processed row, with and without a balance event. */
  lemma ProcessedTells(id: TxId, r: WagerRequest, wallet: WalletRow, after: WalletRow, direction: Direction)
    ensures var events := ProcessedEvents(id, r, wallet, after, direction);
            && |events| <= 2 && (forall k :: 0 <= k < |events| ==> events[k].txId == id)
            && LifeEvents(events, id) == [TransactionProcessed(id, r.walletId, r.kind)]
            && BalanceEvents(events)
               == if r.kind.Loss? then []
                  else [BalanceChanged(id, r.walletId, direction, r.amount, Money(wallet.balance, wallet.currency),
                                       Money(after.balance, after.currency), after.version)]
  {
    var first := TransactionProcessed(id, r.walletId, r.kind);
    Filters1(first, id);
    if r.kind.Loss? {
      assert ProcessedEvents(id, r, wallet, after, direction) == [first];
    } else {
      var second := BalanceChanged(id, r.walletId, direction, r.amount, Money(wallet.balance, wallet.currency),
                                   Money(after.balance, after.currency), after.version);
      Filters1(second, id);
      Filters2(first, second, id);
      assert ProcessedEvents(id, r, wallet, after, direction) == [first, second];
    }
    hide LifeEvents, BalanceEvents;
  }

  lemma PostTells(cmd: Command, id: TxId, wallet: WalletRow, outcome: Outcome, now: Time, entryId: int)
    requires outcome.Post? && wallet.currency == cmd.request.amount.currency && outcome.wallet.currency == wallet.currency
    ensures Tells(None, id, SyncWrites(cmd, id, wallet, outcome, now, entryId))
  {
    ProcessedTells(id, cmd.request, wallet, outcome.wallet, LedgerDirection(cmd.request.kind, outcome.movement));
    hide LifeEvents, BalanceEvents, ProcessedEvents;
  }

  lemma SyncTells(cmd: Command, id: TxId, wallet: WalletRow, outcome: Outcome, now: Time, entryId: int)
    requires !outcome.Fail? && wallet.currency == cmd.request.amount.currency
    requires outcome.Post? ==> outcome.wallet.currency == wallet.currency
    ensures Tells(None, id, SyncWrites(cmd, id, wallet, outcome, now, entryId))
  {
    if outcome.Post? {
      PostTells(cmd, id, wallet, outcome, now, entryId);
    } else if outcome.Refuse? {
      RefuseTells(cmd, id, wallet, outcome, now, entryId);
    } else {
      DeferTells(cmd, id, wallet, now, entryId);
    }
    hide SyncWrites, Tells;
  }

  lemma RefuseTells(cmd: Command, id: TxId, wallet: WalletRow, outcome: Outcome, now: Time, entryId: int)
    requires outcome.Refuse?
    ensures Tells(None, id, SyncWrites(cmd, id, wallet, outcome, now, entryId))
  {
    Filters1(RejectedEvent(id, cmd.request, outcome.code), id);
    hide LifeEvents, BalanceEvents;
  }

  lemma DeferTells(cmd: Command, id: TxId, wallet: WalletRow, now: Time, entryId: int)
    ensures Tells(None, id, SyncWrites(cmd, id, wallet, Unresolved, now, entryId))
  {
    Filters1(PendingEvent(id, cmd.request), id);
    hide LifeEvents, BalanceEvents;
  }

  /** A waiting row that is settled has, beside its pending event, only the one that tells how. */
  lemma ExpectedPosted(id: TxId, row: WagerRow, after: WagerRow)
    requires row.state.PendingReference? && after.state.Processed?
    requires after.walletId == row.walletId && after.kind == row.kind && after.expiresAt == row.expiresAt
    requires RequestOf(after) == RequestOf(row)
    ensures Expected(id, after) == Expected(id, row) + [TransactionProcessed(id, row.walletId, row.kind)]
  {
  }

  /** What a settled row and its writes look like. */
  lemma ResolverPostShape(row: WagerRow, id: TxId, wallet: WalletRow, outcome: Outcome, now: Time, entryId: int)
    requires outcome.Post?
    ensures var w := ResolverWrites(row, id, wallet, outcome, now, entryId);
            var direction := if outcome.movement == Some(Debit) then Debit else Credit;
            && w.row.state.Processed? && w.wallet == outcome.wallet && RequestOf(w.row) == RequestOf(row)
            && w.row.kind == row.kind && w.row.walletId == row.walletId && w.row.expiresAt == row.expiresAt
            && w.row.amount == row.amount && w.row.currency == row.currency
            && w.entries == [LedgerEntry(entryId, row.walletId, id, direction, row.amount, wallet.balance, outcome.wallet.balance, now)]
            && w.events == ProcessedEvents(id, RequestOf(row), wallet, outcome.wallet, direction)
  {
    hide ProcessedEvents;
  }

  lemma RequestKeeps(row: WagerRow)
    ensures var r := RequestOf(row);
            && r.kind == row.kind && r.walletId == row.walletId
            && r.amount.amount == row.amount && r.amount.currency == row.currency
  {
  }

  lemma ResolverPostTells(row: WagerRow, id: TxId, wallet: WalletRow, outcome: Outcome, now: Time, entryId: int)
    requires outcome.Post? && wallet.currency == row.currency
    requires outcome.wallet.currency == wallet.currency && !row.kind.Loss?
    requires row.state.PendingReference?
    ensures Tells(Some(row), id, ResolverWrites(row, id, wallet, outcome, now, entryId))
  {
    hide LifeEvents, BalanceEvents, ProcessedEvents, Expected, ResolverWrites, RequestOf;
    ResolverPostShape(row, id, wallet, outcome, now, entryId);
    ExpectedPosted(id, row, ResolverWrites(row, id, wallet, outcome, now, entryId).row);
    RequestKeeps(row);
    ProcessedTells(id, RequestOf(row), wallet, outcome.wallet, if outcome.movement == Some(Debit) then Debit else Credit);
  }

  lemma ResolverTells(row: WagerRow, id: TxId, wallet: WalletRow, outcome: Outcome, now: Time, entryId: int)
    requires !outcome.Fail? && wallet.currency == row.currency
    requires outcome.Post? ==> outcome.wallet.currency == wallet.currency && !row.kind.Loss?
    requires row.state.PendingReference?
    ensures Tells(Some(row), id, ResolverWrites(row, id, wallet, outcome, now, entryId))
  {
    if outcome.Post? {
      ResolverPostTells(row, id, wallet, outcome, now, entryId);
    } else if outcome.Refuse? {
      ResolverRefuseTells(row, id, wallet, outcome, now, entryId);
    } else {
      RetryTells(row, id, wallet, now, entryId);
    }
    hide ResolverWrites, Tells;
  }

  lemma ExpectedRefused(id: TxId, row: WagerRow, after: WagerRow, code: FailureCode)
    requires row.state.PendingReference? && after.state.Rejected? && after.failureCode == Some(code)
    requires after.walletId == row.walletId && after.kind == row.kind && after.expiresAt == row.expiresAt
    requires RequestOf(after) == RequestOf(row)
    ensures Expected(id, after) == Expected(id, row) + [RejectedEvent(id, RequestOf(row), code)]
  {
  }

  lemma ResolverRefuseShape(row: WagerRow, id: TxId, wallet: WalletRow, outcome: Outcome, now: Time, entryId: int)
    requires outcome.Refuse?
    ensures var w := ResolverWrites(row, id, wallet, outcome, now, entryId);
            && w.row.state.Rejected? && w.row.failureCode == Some(outcome.code) && RequestOf(w.row) == RequestOf(row)
            && w.row.kind == row.kind && w.row.walletId == row.walletId && w.row.expiresAt == row.expiresAt
            && w.events == [RejectedEvent(id, RequestOf(row), outcome.code)]
  {
    hide RejectedEvent;
  }

  lemma ResolverRefuseTells(row: WagerRow, id: TxId, wallet: WalletRow, outcome: Outcome, now: Time, entryId: int)
    requires outcome.Refuse? && row.state.PendingReference?
    ensures Tells(Some(row), id, ResolverWrites(row, id, wallet, outcome, now, entryId))
  {
    hide LifeEvents, BalanceEvents, ResolverWrites, Expected, RequestOf;
    ResolverRefuseShape(row, id, wallet, outcome, now, entryId);
    ExpectedRefused(id, row, ResolverWrites(row, id, wallet, outcome, now, entryId).row, outcome.code);
    Filters1(RejectedEvent(id, RequestOf(row), outcome.code), id);
  }

  lemma RetryTells(row: WagerRow, id: TxId, wallet: WalletRow, now: Time, entryId: int)
    requires row.state.PendingReference?
    ensures Tells(Some(row), id, ResolverWrites(row, id, wallet, Unresolved, now, entryId))
  {
    assert LifeEvents([], id) == [] && BalanceEvents([]) == [];
    hide LifeEvents, BalanceEvents;
  }

  lemma OpeningTells(walletId: WalletId, wallet: WalletRow, id: TxId, now: Time, entryId: int)
    requires wallet.version == 1
    ensures Tells(None, id, OpeningWrites(walletId, wallet, id, now, entryId))
  {
    var events := OpeningWrites(walletId, wallet, id, now, entryId).events;
    Filters1(events[0], id);
    Filters1(events[1], id);
    Filters2(events[0], events[1], id);
  }

  // ---- In every run

  lemma SubmittedCurrency(db: Db, clock: Time, cmd: Command, stage: Stage)
    requires Valid(db) && stage.Ready? && SubmitOk(db, clock, cmd, stage)
    ensures stage.wallet.currency == cmd.request.amount.currency
    ensures stage.outcome.Post? ==> stage.outcome.wallet.currency == stage.wallet.currency
  {
    assert WalletOk(db, cmd.request.walletId);
    hide Valid, Decide, Fresh, KeyFree, ExternalFree;
    if stage.outcome.Post? {
      PostedWallet(db.wagers, stage.wallet, cmd.request, stage.now);
    }
  }

  lemma SubmitAnnounced(s: Sys, t: nat, entryId: int)
    requires Inv(s) && t in s.txns && s.txns[t].program.Submit? && s.txns[t].stage.Ready? && Announced(s.db)
    ensures Announced(Step(s, t, entryId).db)
  {
    var x := s.txns[t];
    TxnHolds(s, t);
    assert Valid(s.db);
    hide Inv, TxnOk, Valid, SubmitOk, Fresh, TransportValid, Announced, Step, Apply, SyncWrites, Sound, Apart;
    SubmitPlaced(s.db, s.inbox, s.clock, x);
    SubmittedCurrency(s.db, s.clock, x.program.cmd, x.stage);
    SubmitCommittable(s, t, entryId);
    SubmitCommitStep(s, t, entryId);
    SyncTells(x.program.cmd, |s.db.wagers|, x.stage.wallet, x.stage.outcome, x.stage.now, entryId);
    TellsAnnounced(s.db, |s.db.wagers|,
                   SyncWrites(x.program.cmd, |s.db.wagers|, x.stage.wallet, x.stage.outcome, x.stage.now, entryId));
  }

  lemma PostKeepsCurrency(wagers: seq<WagerRow>, wallet: WalletRow, row: WagerRow, now: Time)
    requires Resolve(wagers, wallet, row, now).Post?
    ensures Resolve(wagers, wallet, row, now).wallet.currency == wallet.currency
  {
  }

  lemma PostedCurrency(db: Db, clock: Time, id: TxId, row: WagerRow, stage: Stage)
    requires Valid(db) && stage.Decided? && ResolverOk(db, clock, id, row, stage)
    ensures stage.wallet.currency == row.currency && !row.kind.Loss?
    ensures stage.outcome.Post? ==> stage.outcome.wallet.currency == row.currency
  {
    assert RowOk(db.wallets, db.wagers, row);
    hide Valid, Resolve, LinkOk, WagerChecks;
    if stage.outcome.Post? {
      PostKeepsCurrency(db.wagers, stage.wallet, row, stage.now);
    }
  }

  lemma ResolverAnnounced(s: Sys, t: nat, entryId: int)
    requires Inv(s) && t in s.txns && s.txns[t].program.Resolver? && s.txns[t].stage.Decided? && Announced(s.db)
    ensures Announced(Step(s, t, entryId).db)
  {
    var x := s.txns[t];
    var id, row := x.program.id, x.program.row;
    assert TxnOk(s.db, s.inbox, s.clock, x);
    ResolverCommittable(s, t, entryId);
    ResolverCommitStep(s, t, entryId);
    PostedCurrency(s.db, s.clock, id, row, x.stage);
    hide Inv, Announced, Step, Apply, ResolverWrites, Sound, Valid;
    ResolverTells(row, id, x.stage.wallet, x.stage.outcome, x.stage.now, entryId);
    TellsAnnounced(s.db, id, ResolverWrites(row, id, x.stage.wallet, x.stage.outcome, x.stage.now, entryId));
  }

  lemma InvValid(s: Sys)
    requires Inv(s)
    ensures Valid(s.db)
  {
  }

  lemma CreatorAnnounced(s: Sys, t: nat, entryId: int)
    requires Inv(s) && t in s.txns && s.txns[t].program.Creator? && s.txns[t].stage.Inserted? && Announced(s.db)
    ensures Announced(Step(s, t, entryId).db)
  {
    var p := s.txns[t].program;
    TxnHolds(s, t);
    CreatorPlaced(s.db, s.inbox, s.clock, s.txns[t]);
    hide Inv, TxnOk;
    CreatorStep(s, t, entryId);
    if p.wallet.balance != 0 {
      OpeningCommittable(s, t, entryId);
      AddWalletInv(s, t);
      InvValid(Drop(s, t).(db := EmptyWallet(s.db, p.walletId, p.wallet)));
      OpeningTells(p.walletId, p.wallet, |s.db.wagers|, p.wallet.createdAt, entryId);
      var s' := Drop(s, t).(db := EmptyWallet(s.db, p.walletId, p.wallet));
      assert Announced(s'.db);
      hide Announced, Step, Apply, OpeningWrites, Sound, Valid;
      TellsAnnounced(s'.db, |s.db.wagers|, OpeningWrites(p.walletId, p.wallet, |s.db.wagers|, p.wallet.createdAt, entryId));
    }
  }

  lemma StepAnnounced(s: Sys, t: nat, entryId: int)
    requires Inv(s) && t in s.txns && Announced(s.db)
    ensures Announced(Step(s, t, entryId).db)
  {
    hide Inv, Announced, Step;
    if !Commits(s.txns[t]) || s.txns[t].stage.Replaying? {
      Runs.OnlyCommits(s, t, entryId);
    } else {
      match s.txns[t].program
      case Submit(_, _) => SubmitAnnounced(s, t, entryId);
      case Resolver(_, _) => ResolverAnnounced(s, t, entryId);
      case Creator(_, _) => CreatorAnnounced(s, t, entryId);
    }
  }

  /** In every state of every interleaving the outbox holds one balance event per
      ledger entry, in order and with consecutive versions, and for every wager
      the events its history calls for, once each. */
  lemma {:induction false} RunAnnounced(s: Sys, actions: seq<Action>)
    requires Inv(s) && Announced(s.db)
    ensures Announced(Run(s, actions).db)
    decreases |actions|
  {
    hide Inv, Step, Blocked, Announced;
    if actions != [] {
      var a := actions[0];
      DoInv(s, a);
      if a.Advance? && a.t in s.txns {
        StepAnnounced(s, a.t, a.entryId);
      }
      RunAnnounced(Do(s, a), actions[1..]);
    }
  }

  lemma StartAnnounced()
    ensures Announced(START.db)
  {
  }

  lemma AnnouncedInEveryRun(actions: seq<Action>)
    ensures Announced(Run(START, actions).db)
  {
    StartInv();
    StartAnnounced();
    hide Announced, Inv, Run;
    RunAnnounced(START, actions);
  }
}
