/** What the database would refuse, and the one way a resolver pass fails. */
module Constraints {
  import opened Common
  import opened Amounts
  import opened Wallets
  import opened Wagers
  import opened Tables
  import opened Decisions
  import opened Invariant
  import opened Protocol
  import opened Safety

  /** Every CHECK of the schema on one database. */
  predicate ChecksHold(db: Db) {
    && (forall i :: 0 <= i < |db.wagers| ==> WagerChecks(db.wagers[i]))
    && (forall w :: w in db.wallets ==> WalletChecks(db.wallets[w]))
    && (forall j :: 0 <= j < |db.ledger| ==> LedgerChecks(db.ledger[j]))
  }

  /** Every unique key of the schema, the single-reversal index among them. */
  predicate KeysHold(db: Db) {
    && (forall i, j :: 0 <= i < j < |db.wagers| ==>
          Distinct(db.wagers[i], db.wagers[j]) && SingleReversal(db.wagers[i], db.wagers[j]))
    && (forall i, j :: 0 <= i < j < |db.ledger| ==>
          !(db.ledger[i].walletId == db.ledger[j].walletId && db.ledger[i].txId == db.ledger[j].txId))
    && WalletsDistinct(db.wallets)
  }

  lemma ValidMeetsConstraints(db: Db)
    requires Valid(db)
    ensures ChecksHold(db) && KeysHold(db)
  {
    forall i | 0 <= i < |db.wagers| ensures WagerChecks(db.wagers[i]) {
      assert RowOk(db.wallets, db.wagers, db.wagers[i]);
    }
    forall w | w in db.wallets ensures WalletChecks(db.wallets[w]) {
      assert WalletOk(db, w);
    }
    forall j | 0 <= j < |db.ledger| ensures LedgerChecks(db.ledger[j]) {
      assert EntryOk(db.wagers, db.ledger[j]);
    }
    assert RowsDistinct(db.wagers) && ReversalsSingle(db.wagers);
    hide RowOk, WalletOk, EntryOk, WagerChecks, Distinct, SingleReversal;
  }

  /** No state of any interleaving breaks a CHECK or a unique key, although no
      step of the model consults a CHECK, the single-reversal index, the unique
      opening or the ledger's key: what transactions wait for and look up is the
      message, the wallet, the two identities of a wager and the player's wallet. */
  lemma ConstraintsInEveryRun(actions: seq<Action>)
    ensures ChecksHold(Run(START, actions).db) && KeysHold(Run(START, actions).db)
  {
    StartInv();
    RunInv(START, actions);
    hide Run, ChecksHold, KeysHold;
    ValidMeetsConstraints(Run(START, actions).db);
  }

  // ---- When a pass aborts

  /** The wallet cannot take the movement: the balance or the version would leave
      int64. A debit beyond the balance is refused before either is looked at. */
  predicate OutOfRange(wallet: WalletRow, direction: Direction, amount: int) {
    if direction.Credit? then wallet.balance + amount > MAX_INT64 || wallet.version == MAX_INT64
    else wallet.balance >= amount && wallet.version == MAX_INT64
  }

  /** The direction in which a reversal or a win moves its wallet. */
  function Heading(kind: Kind, referenceKind: Kind): Direction {
    if kind.Rollback? && !referenceKind.Bet? then Debit else Credit
  }

  lemma MoveAborts(wallet: WalletRow, r: WagerRequest, id: TxId, direction: Direction, now: Time)
    requires ValidateWallet(wallet).None? && r.amount.amount > 0 && r.amount.currency == wallet.currency
    ensures ResolverMove(wallet, r, id, direction, now).Fail? <==> OutOfRange(wallet, direction, r.amount.amount)
  {
  }

  lemma FinishAborts(wagers: seq<WagerRow>, wallet: WalletRow, r: WagerRequest, id: TxId, now: Time)
    requires ValidateWallet(wallet).None? && r.amount.amount > 0 && r.amount.currency == wallet.currency
    requires id < |wagers| && NeedsReference(r) && ValidateReference(r, wagers[id]).None?
    ensures ResolverFinish(wagers, wallet, r, id, now).Fail? <==>
              && (r.kind.Win? || !AlreadyReversed(wagers, id))
              && OutOfRange(wallet, Heading(r.kind, wagers[id].kind), r.amount.amount)
  {
    MoveAborts(wallet, r, id, Credit, now);
    MoveAborts(wallet, r, id, Debit, now);
    hide AlreadyReversed, ResolverMove, OutOfRange, ValidateWallet;
  }

  lemma PendingReads(db: Db, id: TxId)
    requires Valid(db) && id < |db.wagers| && db.wagers[id].state.PendingReference?
    ensures var row := db.wagers[id];
            && row.walletId in db.wallets && ValidateWallet(db.wallets[row.walletId]).None?
            && row.currency == db.wallets[row.walletId].currency && row.amount > 0
            && NeedsReference(RequestOf(row))
            && var reading := ReadReference(db.wagers, RequestOf(row));
               && (reading.Settled? ==> !reading.outcome.Fail?)
               && (reading.Usable? ==> ValidateReference(RequestOf(row), db.wagers[reading.id]).None?)
  {
    var row := db.wagers[id];
    assert RowOk(db.wallets, db.wagers, row) && WalletOk(db, row.walletId);
    assert WagerChecks(row) && row.amount > 0;
    hide Valid, RowOk, WalletOk, OriginMetadataCheck, ValidateReference;
  }

  /** A pass over a pending row of a valid database settles or defers the row, with
      one exception: the reference is usable and the wallet cannot take the
      movement. Then the pass aborts and leaves the row pending. */
  lemma PassAbortsExactly(db: Db, id: TxId, now: Time)
    requires Valid(db) && id < |db.wagers| && db.wagers[id].state.PendingReference?
    ensures var row := db.wagers[id];
            var reading := ReadReference(db.wagers, RequestOf(row));
            row.walletId in db.wallets
            && (Resolve(db.wagers, db.wallets[row.walletId], row, now).Fail? <==>
                  && !Expired(row, now) && reading.Usable?
                  && (row.kind.Win? || !AlreadyReversed(db.wagers, reading.id))
                  && OutOfRange(db.wallets[row.walletId], Heading(row.kind, db.wagers[reading.id].kind), row.amount))
  {
    var row := db.wagers[id];
    hide Valid, AlreadyReversed, ReadReference, ResolverFinish, NeedsReference, ValidateReference, ValidateWallet, OutOfRange;
    PendingReads(db, id);
    var reading := ReadReference(db.wagers, RequestOf(row));
    if reading.Usable? {
      FinishAborts(db.wagers, db.wallets[row.walletId], RequestOf(row), reading.id, now);
    }
  }
}
