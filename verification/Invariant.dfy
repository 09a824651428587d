/** What every committed state satisfies. */
module Invariant {
  import opened Common
  import opened Amounts
  import opened Wallets
  import opened Wagers
  import opened Tables
  import opened Decisions

  // ---- The balance, recomputed from the wager rows alone

  function KindAt(wagers: seq<WagerRow>, id: Option<TxId>): Kind {
    if id.Some? && id.value < |wagers| then wagers[id.value].kind else Loss
  }

  /** The effect a row has had on its wallet. */
  function Signed(wagers: seq<WagerRow>, row: WagerRow): int {
    if !row.state.Processed? then 0
    else match row.kind
      case Opening | Win | Refund => row.amount
      case Bet => 0 - row.amount
      case Loss => 0
      case Rollback => if KindAt(wagers, row.referencedId).Bet? then row.amount else 0 - row.amount
  }

  /** The effects of the first n rows on one wallet. */
  function Total(wagers: seq<WagerRow>, w: WalletId, n: nat): int
    requires n <= |wagers|
  {
    if n == 0 then 0
    else Total(wagers, w, n - 1) + (if wagers[n - 1].walletId == w then Signed(wagers, wagers[n - 1]) else 0)
  }

  // ---- The balance, read off the ledger

  function LedgerOf(ledger: seq<LedgerEntry>, w: WalletId): seq<LedgerEntry> {
    if ledger == [] then []
    else
      var last := ledger[|ledger| - 1];
      LedgerOf(ledger[..|ledger| - 1], w) + (if last.walletId == w then [last] else [])
  }

  /** An unbroken chain of entries from zero to the given balance. */
  predicate Chain(entries: seq<LedgerEntry>, balance: int) {
    if entries == [] then balance == 0
    else
      var last := entries[|entries| - 1];
      && last.balanceAfter == balance
      && LedgerChecks(last)
      && Chain(entries[..|entries| - 1], last.balanceBefore)
  }

  /** The entries of one wallet other than its opening. */
  function Moves(wagers: seq<WagerRow>, ledger: seq<LedgerEntry>, w: WalletId): nat {
    if ledger == [] then 0
    else
      var last := ledger[|ledger| - 1];
      Moves(wagers, ledger[..|ledger| - 1], w)
      + (if last.walletId == w && !KindAt(wagers, Some(last.txId)).Opening? then 1 else 0)
  }

  // ---- Rows

  /** A processed row's link leads to the processed row its request names, on the
      same wallet, and passes the reference rules. */
  predicate LinkOk(wagers: seq<WagerRow>, row: WagerRow) {
    && (row.kind.Refund? || row.kind.Rollback? ==> row.referencedId.Some?)
    && (row.referencedId.Some? ==>
          var id := row.referencedId.value;
          && id < |wagers|
          && wagers[id].state.Processed?
          && HasExternal(wagers[id], Text(row.providerId), Text(row.referenceExternalId))
          && ValidateReference(RequestOf(row), wagers[id]).None?)
  }

  predicate RowOk(wallets: map<WalletId, WalletRow>, wagers: seq<WagerRow>, row: WagerRow) {
    && WagerChecks(row)
    && row.walletId in wallets
    && wallets[row.walletId].playerId == row.playerId
    && wallets[row.walletId].currency == row.currency
    && row.resultBalance.Some?
    && (row.referencedId.Some? ==> row.referencedId.value < |wagers|)
    && (row.state.PendingReference? ==>
          NeedsReference(RequestOf(row)) && row.referencedId.None? && row.failureCode.None?)
    && (row.state.Processed? ==> row.failureCode.None? && LinkOk(wagers, row))
    && (row.state.Rejected? ==> row.failureCode.Some?)
  }

  /** The unique keys of wager_transactions: external identity, idempotency key,
      and one opening per wallet. */
  predicate Distinct(a: WagerRow, b: WagerRow) {
    && !(a.providerId.Some? && a.providerId == b.providerId && a.externalId.Some? && a.externalId == b.externalId)
    && !(a.providerId.Some? && a.providerId == b.providerId && a.idempotencyKey.Some? && a.idempotencyKey == b.idempotencyKey)
    && !(a.kind.Opening? && b.kind.Opening? && a.walletId == b.walletId)
  }

  predicate IsReversal(row: WagerRow) {
    row.state.Processed? && (row.kind.Refund? || row.kind.Rollback?) && row.referencedId.Some?
  }

  /** The partial unique index of migration 000004. */
  predicate SingleReversal(a: WagerRow, b: WagerRow) {
    !(IsReversal(a) && IsReversal(b) && a.referencedId == b.referencedId)
  }

  predicate RowsOk(db: Db) {
    forall i :: 0 <= i < |db.wagers| ==> RowOk(db.wallets, db.wagers, db.wagers[i])
  }

  predicate RowsDistinct(wagers: seq<WagerRow>) {
    forall i, j :: 0 <= i < j < |wagers| ==> Distinct(wagers[i], wagers[j])
  }

  predicate ReversalsSingle(wagers: seq<WagerRow>) {
    forall i, j :: 0 <= i < j < |wagers| ==> SingleReversal(wagers[i], wagers[j])
  }

  // ---- Ledger and wallets

  /** An entry records exactly the effect of its processed row. */
  predicate EntryOk(wagers: seq<WagerRow>, e: LedgerEntry) {
    && e.txId < |wagers|
    && LedgerChecks(e)
    && var row := wagers[e.txId];
       && row.state.Processed? && !row.kind.Loss?
       && e.walletId == row.walletId
       && e.amount == row.amount
       && SignedAmount(e.direction, e.amount) == Signed(wagers, row)
       && row.resultBalance == Some(e.balanceAfter)
       && row.updatedAt == e.createdAt
  }

  predicate HasEntry(ledger: seq<LedgerEntry>, id: TxId) {
    exists j :: 0 <= j < |ledger| && ledger[j].txId == id
  }

  /** Entries and processed rows that move money correspond one to one. */
  predicate LedgerOk(wagers: seq<WagerRow>, ledger: seq<LedgerEntry>) {
    && (forall j :: 0 <= j < |ledger| ==> EntryOk(wagers, ledger[j]))
    && (forall i, j :: 0 <= i < j < |ledger| ==> ledger[i].txId != ledger[j].txId)
    && (forall i :: 0 <= i < |wagers| && wagers[i].state.Processed? && !wagers[i].kind.Loss? ==> HasEntry(ledger, i))
  }

  predicate WalletOk(db: Db, w: WalletId)
    requires w in db.wallets
  {
    var wallet := db.wallets[w];
    && WalletChecks(wallet)
    && ValidateWallet(wallet).None?
    && Chain(LedgerOf(db.ledger, w), wallet.balance)
    && Total(db.wagers, w, |db.wagers|) == wallet.balance
    && wallet.version == 1 + Moves(db.wagers, db.ledger, w)
  }

  predicate WalletsDistinct(wallets: map<WalletId, WalletRow>) {
    forall a, b :: a in wallets && b in wallets && a != b ==>
      !(wallets[a].playerId == wallets[b].playerId && wallets[a].currency == wallets[b].currency)
  }

  /** Every CHECK, every unique key, and the three views of the balance. */
  predicate Valid(db: Db) {
    && RowsOk(db)
    && RowsDistinct(db.wagers)
    && ReversalsSingle(db.wagers)
    && LedgerOk(db.wagers, db.ledger)
    && (forall w :: w in db.wallets ==> WalletOk(db, w))
    && WalletsDistinct(db.wallets)
  }

  // ---- Writes that keep the invariant

  /** The columns no update touches. */
  predicate SameIdentity(a: WagerRow, b: WagerRow) {
    && a.providerId == b.providerId && a.externalId == b.externalId
    && a.idempotencyKey == b.idempotencyKey && a.payloadHash == b.payloadHash
    && a.walletId == b.walletId && a.playerId == b.playerId
    && a.roundId == b.roundId && a.gameId == b.gameId
    && a.kind == b.kind && a.amount == b.amount && a.currency == b.currency
    && a.referenceExternalId == b.referenceExternalId
    && a.expiresAt == b.expiresAt && a.createdAt == b.createdAt
  }

  predicate MovesMoney(row: WagerRow) {
    row.state.Processed? && !row.kind.Loss?
  }

  /** One wallet row before and after a write of the given row, with the entry
      that explains the difference. */
  predicate Booked(wagers: seq<WagerRow>, id: TxId, before: WalletRow, w: Writes) {
    if MovesMoney(w.row) then
      && |w.entries| == 1
      && var e := w.entries[0];
         && e.txId == id && e.walletId == w.row.walletId && e.amount == w.row.amount
         && SignedAmount(e.direction, e.amount) == Signed(wagers, w.row)
         && e.balanceBefore == before.balance && e.balanceAfter == w.wallet.balance
         && w.wallet.balance == before.balance + Signed(wagers, w.row)
         && w.wallet.balance >= 0
         && w.row.resultBalance == Some(w.wallet.balance)
         && w.row.updatedAt == e.createdAt
         && w.wallet.version == before.version + (if w.row.kind.Opening? then 0 else 1)
    else
      w.entries == [] && w.wallet.balance == before.balance && w.wallet.version == before.version
  }

  /** A write of one row, new or pending, that respects the tables it meets. */
  predicate Sound(db: Db, id: TxId, w: Writes) {
    && id <= |db.wagers|
    && (id < |db.wagers| ==> db.wagers[id].state.PendingReference? && SameIdentity(db.wagers[id], w.row))
    && (id == |db.wagers| ==> forall i :: 0 <= i < |db.wagers| ==> Distinct(db.wagers[i], w.row))
    && RowOk(db.wallets, db.wagers, w.row)
    && (IsReversal(w.row) ==> !AlreadyReversed(db.wagers, w.row.referencedId.value))
    && w.wallet.playerId == db.wallets[w.row.walletId].playerId
    && w.wallet.currency == db.wallets[w.row.walletId].currency
    && Booked(db.wagers, id, db.wallets[w.row.walletId], w)
  }

  /** Effects of other rows do not move when one row is written. */
  lemma SignedPut(wagers: seq<WagerRow>, id: TxId, row: WagerRow, other: WagerRow)
    requires id <= |wagers|
    requires id < |wagers| ==> wagers[id].kind == row.kind
    requires other.referencedId.Some? ==> other.referencedId.value < |wagers|
    ensures Signed(Put(wagers, id, row), other) == Signed(wagers, other)
  {
  }

  lemma {:induction false} TotalPut(wagers: seq<WagerRow>, id: TxId, row: WagerRow, w: WalletId, n: nat)
    requires id <= |wagers| && n <= |wagers|
    requires id < |wagers| ==> wagers[id].kind == row.kind && wagers[id].walletId == row.walletId
    requires id < |wagers| ==> Signed(wagers, wagers[id]) == 0
    requires forall i :: 0 <= i < |wagers| && wagers[i].referencedId.Some? ==> wagers[i].referencedId.value < |wagers|
    requires row.referencedId.Some? ==> row.referencedId.value < |wagers|
    ensures Total(Put(wagers, id, row), w, n)
         == Total(wagers, w, n) + (if id < n && row.walletId == w then Signed(wagers, row) else 0)
  {
    if n > 0 {
      TotalPut(wagers, id, row, w, n - 1);
      SignedPut(wagers, id, row, if n - 1 == id then row else wagers[n - 1]);
    }
  }

  lemma {:induction false} MovesPut(wagers: seq<WagerRow>, id: TxId, row: WagerRow, ledger: seq<LedgerEntry>, w: WalletId)
    requires id <= |wagers|
    requires id < |wagers| ==> wagers[id].kind == row.kind
    requires forall j :: 0 <= j < |ledger| ==> ledger[j].txId < |wagers|
    ensures Moves(Put(wagers, id, row), ledger, w) == Moves(wagers, ledger, w)
  {
    if ledger != [] {
      MovesPut(wagers, id, row, ledger[..|ledger| - 1], w);
    }
  }

  lemma SoundRows(db: Db, id: TxId, w: Writes)
    requires RowsOk(db) && Sound(db, id, w)
    ensures RowsOk(Apply(db, id, w))
  {
    var db' := Apply(db, id, w);
    forall i | 0 <= i < |db'.wagers|
      ensures RowOk(db'.wallets, db'.wagers, db'.wagers[i])
    {
      var row := db'.wagers[i];
      assert RowOk(db.wallets, db.wagers, row);
    }
  }

  lemma SoundDistinct(db: Db, id: TxId, w: Writes)
    requires RowsDistinct(db.wagers) && ReversalsSingle(db.wagers) && Sound(db, id, w)
    ensures RowsDistinct(Apply(db, id, w).wagers) && ReversalsSingle(Apply(db, id, w).wagers)
  {
    var rows := Apply(db, id, w).wagers;
    forall i, j | 0 <= i < j < |rows|
      ensures Distinct(rows[i], rows[j]) && SingleReversal(rows[i], rows[j])
    {
      var other := if i == id then j else i;
      if id < |db.wagers| && (i == id || j == id) {
        assert Distinct(db.wagers[i], db.wagers[j]);
      }
      if i == id || j == id {
        assert IsReversal(w.row) ==> !Reverses(db.wagers[other], w.row.referencedId.value);
      }
    }
  }

  lemma SoundEntries(db: Db, id: TxId, w: Writes, j: nat)
    requires RowsOk(db) && LedgerOk(db.wagers, db.ledger) && Sound(db, id, w)
    requires db.wallets[w.row.walletId].balance >= 0
    requires j < |db.ledger| + |w.entries|
    ensures EntryOk(Apply(db, id, w).wagers, (db.ledger + w.entries)[j])
    ensures j < |db.ledger| ==> db.ledger[j].txId != id
  {
    if j < |db.ledger| {
      var e := db.ledger[j];
      assert EntryOk(db.wagers, e);
      assert RowOk(db.wallets, db.wagers, db.wagers[e.txId]);
      SignedPut(db.wagers, id, w.row, db.wagers[e.txId]);
    } else {
      SignedPut(db.wagers, id, w.row, w.row);
    }
  }

  lemma SoundCoverage(db: Db, id: TxId, w: Writes, i: nat)
    requires LedgerOk(db.wagers, db.ledger) && Sound(db, id, w)
    requires i < |Apply(db, id, w).wagers| && MovesMoney(Apply(db, id, w).wagers[i])
    ensures HasEntry(db.ledger + w.entries, i)
  {
    var ledger := db.ledger + w.entries;
    if i == id {
      assert ledger[|db.ledger|].txId == i;
    } else {
      assert HasEntry(db.ledger, i);
      var j :| 0 <= j < |db.ledger| && db.ledger[j].txId == i;
      assert ledger[j].txId == i;
    }
  }

  /** A write appends at most one entry, and it belongs to the row written. */
  lemma SoundAppends(db: Db, id: TxId, w: Writes)
    requires Sound(db, id, w)
    ensures id <= |db.wagers| && |w.entries| <= 1 && (w.entries != [] ==> w.entries[0].txId == id)
  {
    hide RowOk, Distinct, AlreadyReversed, SameIdentity, Signed;
  }

  lemma TxIdsDiffer(ledger: seq<LedgerEntry>, entries: seq<LedgerEntry>, id: TxId)
    requires forall i, j :: 0 <= i < j < |ledger| ==> ledger[i].txId != ledger[j].txId
    requires forall j :: 0 <= j < |ledger| ==> ledger[j].txId != id
    requires |entries| <= 1 && (entries != [] ==> entries[0].txId == id)
    ensures var all := ledger + entries; forall i, j :: 0 <= i < j < |all| ==> all[i].txId != all[j].txId
  {
  }

  /** Every entry fits its row, and none but the appended one names the row written. */
  lemma SoundEach(db: Db, id: TxId, w: Writes)
    requires RowsOk(db) && LedgerOk(db.wagers, db.ledger) && Sound(db, id, w)
    requires db.wallets[w.row.walletId].balance >= 0
    ensures var ledger := db.ledger + w.entries;
            forall j :: 0 <= j < |ledger| ==> EntryOk(Apply(db, id, w).wagers, ledger[j])
    ensures forall j :: 0 <= j < |db.ledger| ==> db.ledger[j].txId != id
  {
    var wagers, ledger := Apply(db, id, w).wagers, db.ledger + w.entries;
    hide RowsOk, LedgerOk, EntryOk, RowOk, Booked, Distinct;
    forall j | 0 <= j < |ledger| ensures EntryOk(wagers, ledger[j]) {
      SoundEntries(db, id, w, j);
    }
    forall j | 0 <= j < |db.ledger| ensures db.ledger[j].txId != id {
      SoundEntries(db, id, w, j);
    }
  }

  lemma SoundCovered(db: Db, id: TxId, w: Writes)
    requires LedgerOk(db.wagers, db.ledger) && Sound(db, id, w)
    ensures forall i :: 0 <= i < |Apply(db, id, w).wagers| && MovesMoney(Apply(db, id, w).wagers[i]) ==>
              HasEntry(db.ledger + w.entries, i)
  {
    hide LedgerOk, HasEntry, RowOk, Booked, Distinct, Apply;
    forall i | 0 <= i < |Apply(db, id, w).wagers| && MovesMoney(Apply(db, id, w).wagers[i])
      ensures HasEntry(db.ledger + w.entries, i)
    {
      SoundCoverage(db, id, w, i);
    }
  }

  lemma SoundLedger(db: Db, id: TxId, w: Writes)
    requires RowsOk(db) && LedgerOk(db.wagers, db.ledger) && Sound(db, id, w)
    requires db.wallets[w.row.walletId].balance >= 0
    ensures LedgerOk(Apply(db, id, w).wagers, Apply(db, id, w).ledger)
  {
    SoundAppends(db, id, w);
    hide Sound, RowsOk, EntryOk, HasEntry, Put;
    SoundEach(db, id, w);
    SoundCovered(db, id, w);
    TxIdsDiffer(db.ledger, w.entries, id);
  }

  lemma {:induction false} LedgerOfAppend(ledger: seq<LedgerEntry>, entries: seq<LedgerEntry>, w: WalletId)
    requires |entries| <= 1
    ensures LedgerOf(ledger + entries, w)
         == (if entries != [] && entries[0].walletId == w then LedgerOf(ledger, w) + entries else LedgerOf(ledger, w))
  {
    if entries == [] {
      assert ledger + entries == ledger;
    } else {
      assert (ledger + entries)[..|ledger|] == ledger && entries == [entries[0]];
      assert (ledger + entries)[|ledger|] == entries[0];
    }
  }

  lemma {:induction false} ChainAppend(entries: seq<LedgerEntry>, e: LedgerEntry, balance: int)
    requires Chain(entries, balance) && LedgerChecks(e) && e.balanceBefore == balance
    ensures Chain(entries + [e], e.balanceAfter)
  {
    assert (entries + [e])[..|entries|] == entries;
  }

  lemma SoundChain(db: Db, id: TxId, w: Writes, x: WalletId)
    requires RowsOk(db) && Sound(db, id, w) && db.wallets[w.row.walletId].balance >= 0
    requires x in db.wallets && Chain(LedgerOf(db.ledger, x), db.wallets[x].balance)
    ensures Chain(LedgerOf(Apply(db, id, w).ledger, x), Apply(db, id, w).wallets[x].balance)
  {
    LedgerOfAppend(db.ledger, w.entries, x);
    if MovesMoney(w.row) && w.row.walletId == x {
      assert w.entries == [w.entries[0]];
      ChainAppend(LedgerOf(db.ledger, x), w.entries[0], db.wallets[x].balance);
    }
  }

  /** A sound write moves the stored balance by the effect of its row. */
  lemma SoundBalance(db: Db, id: TxId, w: Writes)
    requires Sound(db, id, w)
    ensures id <= |db.wagers|
    ensures w.wallet.balance == db.wallets[w.row.walletId].balance + Signed(db.wagers, w.row)
    ensures id < |db.wagers| ==>
              && db.wagers[id].kind == w.row.kind && db.wagers[id].walletId == w.row.walletId
              && Signed(db.wagers, db.wagers[id]) == 0
  {
    hide WagerChecks, LinkOk, Distinct, AlreadyReversed;
  }

  lemma RowsLinkBack(db: Db)
    requires RowsOk(db)
    ensures forall i :: 0 <= i < |db.wagers| && db.wagers[i].referencedId.Some? ==> db.wagers[i].referencedId.value < |db.wagers|
  {
    assert forall i :: 0 <= i < |db.wagers| ==> RowOk(db.wallets, db.wagers, db.wagers[i]);
  }

  /** The effects of all rows, once one more is written. */
  lemma TotalWritten(wagers: seq<WagerRow>, id: TxId, row: WagerRow, x: WalletId)
    requires id <= |wagers|
    requires id < |wagers| ==> wagers[id].kind == row.kind && wagers[id].walletId == row.walletId
    requires id < |wagers| ==> Signed(wagers, wagers[id]) == 0
    requires forall i :: 0 <= i < |wagers| && wagers[i].referencedId.Some? ==> wagers[i].referencedId.value < |wagers|
    requires row.referencedId.Some? ==> row.referencedId.value < |wagers|
    ensures var after := Put(wagers, id, row);
            Total(after, x, |after|) == Total(wagers, x, |wagers|) + (if row.walletId == x then Signed(wagers, row) else 0)
  {
    TotalPut(wagers, id, row, x, |wagers|);
    SignedPut(wagers, id, row, row);
  }

  lemma SoundTotal(db: Db, id: TxId, w: Writes, x: WalletId)
    requires RowsOk(db) && Sound(db, id, w)
    requires x in db.wallets && Total(db.wagers, x, |db.wagers|) == db.wallets[x].balance
    ensures Total(Apply(db, id, w).wagers, x, |Apply(db, id, w).wagers|) == Apply(db, id, w).wallets[x].balance
  {
    assert w.row.referencedId.Some? ==> w.row.referencedId.value < |db.wagers|;
    hide RowsOk, Sound, Total, Signed;
    RowsLinkBack(db);
    SoundBalance(db, id, w);
    TotalWritten(db.wagers, id, w.row, x);
  }

  lemma EntriesLinkBack(db: Db)
    requires LedgerOk(db.wagers, db.ledger)
    ensures forall j :: 0 <= j < |db.ledger| ==> db.ledger[j].txId < |db.wagers|
  {
    assert forall j :: 0 <= j < |db.ledger| ==> EntryOk(db.wagers, db.ledger[j]);
  }

  /** One more entry counts when its row, as it is now, moved the wallet. */
  lemma MovesAppend(wagers: seq<WagerRow>, ledger: seq<LedgerEntry>, e: LedgerEntry, w: WalletId)
    ensures Moves(wagers, ledger + [e], w) == Moves(wagers, ledger, w) + Moves(wagers, [e], w)
  {
    assert (ledger + [e])[..|ledger|] == ledger && [e][..0] == [];
  }

  /** What one more write adds to the movements and the version of a wallet. */
  lemma SoundMoves(db: Db, id: TxId, w: Writes, x: WalletId)
    requires Sound(db, id, w) && x in db.wallets
    ensures id <= |db.wagers|
    ensures id < |db.wagers| ==> db.wagers[id].kind == w.row.kind
    ensures |w.entries| <= 1
    ensures Apply(db, id, w).wallets[x].version == db.wallets[x].version + Moves(Put(db.wagers, id, w.row), w.entries, x)
  {
    hide RowOk, Distinct, AlreadyReversed, Signed;
    assert w.entries != [] ==> w.entries[..0] == [];
  }

  lemma SoundVersion(db: Db, id: TxId, w: Writes, x: WalletId)
    requires LedgerOk(db.wagers, db.ledger) && Sound(db, id, w)
    requires x in db.wallets && db.wallets[x].version == 1 + Moves(db.wagers, db.ledger, x)
    ensures var db' := Apply(db, id, w); db'.wallets[x].version == 1 + Moves(db'.wagers, db'.ledger, x)
  {
    SoundMoves(db, id, w, x);
    EntriesLinkBack(db);
    MovesPut(db.wagers, id, w.row, db.ledger, x);
    hide LedgerOk, Sound, Put;
    if w.entries == [] {
      assert db.ledger + w.entries == db.ledger;
    } else {
      assert w.entries == [w.entries[0]];
      MovesAppend(Put(db.wagers, id, w.row), db.ledger, w.entries[0], x);
    }
  }

  lemma SoundWallet(db: Db, id: TxId, w: Writes, x: WalletId)
    requires Valid(db) && Sound(db, id, w) && x in db.wallets
    ensures WalletOk(Apply(db, id, w), x)
  {
    assert WalletOk(db, x) && WalletOk(db, w.row.walletId);
    hide Chain, LedgerOf, Total, Moves, RowOk, Distinct, SameIdentity, AlreadyReversed, Signed;
    SoundChain(db, id, w, x);
    SoundTotal(db, id, w, x);
    SoundVersion(db, id, w, x);
  }

  /** Sound writes keep the invariant. */
  lemma SoundApply(db: Db, id: TxId, w: Writes)
    requires Valid(db) && Sound(db, id, w)
    ensures Valid(Apply(db, id, w))
  {
    SoundRows(db, id, w);
    SoundDistinct(db, id, w);
    assert WalletOk(db, w.row.walletId);
    SoundLedger(db, id, w);
    forall x | x in db.wallets ensures WalletOk(Apply(db, id, w), x) {
      SoundWallet(db, id, w, x);
    }
  }
}
