/** Repeated calls of ResolveOne by one worker: a row that cannot be settled holds up
    every row behind it. */
module Polling {
  import opened Common
  import opened Wallets
  import opened Tables
  import opened Decisions
  import opened Invariant
  import opened Constraints
  import opened Services

  /** One call: when it selects, what it reads from the clock, the entry it may write. */
  datatype Poll = Poll(selectedAt: Time, now: Time, entryId: int)

  /** The tables after one call of ResolveOne. */
  function PollOnce(db: Db, p: Poll): Db {
    match FirstDue(db.wagers, p.selectedAt)
    case None => db
    case Some(id) =>
      var r := ResolvePass(db, id, p.now, p.entryId);
      if r.Ok? then r.value else db
  }

  function PollAll(db: Db, polls: seq<Poll>): Db
    decreases |polls|
  {
    if polls == [] then db else PollAll(PollOnce(db, polls[0]), polls[1..])
  }

  /** internal/worker/pending_reference.go: the worker calls again whether a row was
      handled, none was due or the call failed; the waits are in the times. */
  method KeepResolving(resolver: Service, polls: seq<Poll>)
    requires forall i :: 0 <= i < |polls| ==> polls[i].selectedAt <= polls[i].now
    modifies resolver
    ensures resolver.Db() == PollAll(old(resolver.Db()), polls)
  {
    hide FirstDue, ResolvePass;
    assert polls[0..] == polls;
    for i := 0 to |polls|
      invariant PollAll(resolver.Db(), polls[i..]) == PollAll(old(resolver.Db()), polls)
    {
      assert polls[i..][0] == polls[i] && polls[i..][1..] == polls[i + 1..];
      var _ := resolver.ResolveOne(polls[i].selectedAt, polls[i].now, polls[i].entryId);
    }
  }

  /** The row's reference can be used, but its wallet cannot take the movement. */
  predicate Jammed(db: Db, id: TxId)
    requires id < |db.wagers|
  {
    var row := db.wagers[id];
    var reading := ReadReference(db.wagers, RequestOf(row));
    && row.walletId in db.wallets && reading.Usable?
    && (row.kind.Win? || !AlreadyReversed(db.wagers, reading.id))
    && OutOfRange(db.wallets[row.walletId], Heading(row.kind, db.wagers[reading.id].kind), row.amount)
  }

  /** The row has ended or been retried more than n times. */
  predicate Further(wagers: seq<WagerRow>, id: TxId, n: int) {
    id < |wagers| && (Terminal(wagers[id].state) || wagers[id].attempts > n)
  }

  lemma PassMoves(row: WagerRow, id: TxId, wallet: WalletRow, outcome: Outcome, now: Time, entryId: int)
    requires !outcome.Fail?
    ensures var after := ResolverWrites(row, id, wallet, outcome, now, entryId).row;
            Terminal(after.state) || (after.state == row.state && after.attempts == row.attempts + 1)
  {
    hide NextAttempt;
  }

  lemma PassApplies(db: Db, id: TxId, now: Time, entryId: int)
    requires Valid(db) && id < |db.wagers| && db.wagers[id].state.PendingReference?
    ensures db.wagers[id].walletId in db.wallets
    ensures var wallet := db.wallets[db.wagers[id].walletId];
            var outcome := Resolve(db.wagers, wallet, db.wagers[id], now);
            && (ResolvePass(db, id, now, entryId).Ok? <==> !outcome.Fail?)
            && (!outcome.Fail? ==>
                  ResolvePass(db, id, now, entryId).value
                  == Apply(db, id, ResolverWrites(db.wagers[id], id, wallet, outcome, now, entryId)))
  {
    PendingReads(db, id);
    hide Valid, ValidateWallet, Resolve, ResolverWrites, Apply, ReadReference, NeedsReference, ValidateReference;
  }

  /** A call that selects this row leaves the tables alone exactly if the row is
      jammed and not expired; otherwise the row gets further. */
  lemma OnePoll(db: Db, id: TxId, p: Poll)
    requires Valid(db) && FirstDue(db.wagers, p.selectedAt) == Some(id)
    ensures PollOnce(db, p) == db <==> Jammed(db, id) && !Expired(db.wagers[id], p.now)
    ensures PollOnce(db, p) != db ==> Further(PollOnce(db, p).wagers, id, db.wagers[id].attempts)
  {
    var row := db.wagers[id];
    PassAbortsExactly(db, id, p.now);
    PassApplies(db, id, p.now, p.entryId);
    var wallet := db.wallets[row.walletId];
    var outcome := Resolve(db.wagers, wallet, row, p.now);
    hide Valid, ReadReference, AlreadyReversed, OutOfRange, Heading, Expired, Resolve, ResolvePass, ResolverWrites, FirstDue;
    if !outcome.Fail? {
      PassMoves(row, id, wallet, outcome, p.now, p.entryId);
    }
  }

  /** No call sets a row back. */
  lemma NeverBack(db: Db, p: Poll, id: TxId, n: int)
    requires Further(db.wagers, id, n)
    ensures Further(PollOnce(db, p).wagers, id, n)
  {
    var due := FirstDue(db.wagers, p.selectedAt);
    if due.Some? && ResolvePass(db, due.value, p.now, p.entryId).Ok? {
      var row := db.wagers[due.value];
      var wallet := db.wallets[row.walletId];
      var outcome := Resolve(db.wagers, wallet, row, p.now);
      PassMoves(row, due.value, wallet, outcome, p.now, p.entryId);
      hide Resolve, ResolverWrites, FirstDue;
    }
  }

  lemma {:induction false} NeverBackAll(db: Db, polls: seq<Poll>, id: TxId, n: int)
    requires Further(db.wagers, id, n)
    ensures Further(PollAll(db, polls).wagers, id, n)
    decreases |polls|
  {
    hide PollOnce, Further;
    if polls != [] {
      NeverBack(db, polls[0], id, n);
      NeverBackAll(PollOnce(db, polls[0]), polls[1..], id, n);
    }
  }

  /** Every one of the calls selects this row. */
  predicate Head(wagers: seq<WagerRow>, id: TxId, polls: seq<Poll>) {
    forall i :: 0 <= i < |polls| ==> FirstDue(wagers, polls[i].selectedAt) == Some(id)
  }

  /** Every one of the calls comes before the row expires. */
  predicate BeforeExpiry(row: WagerRow, polls: seq<Poll>) {
    forall i :: 0 <= i < |polls| ==> !Expired(row, polls[i].now)
  }

  lemma FirstAndRest(wagers: seq<WagerRow>, id: TxId, row: WagerRow, polls: seq<Poll>)
    requires polls != []
    ensures Head(wagers, id, polls) ==> FirstDue(wagers, polls[0].selectedAt) == Some(id) && Head(wagers, id, polls[1..])
    ensures BeforeExpiry(row, polls) <==> !Expired(row, polls[0].now) && BeforeExpiry(row, polls[1..])
  {
    hide FirstDue, Expired;
    assert polls == [polls[0]] + polls[1..];
  }

  /** Calls that select one and the same row first, any number of them, resolve
      nothing at all, neither this row nor any other due one, exactly if the row is
      jammed and every one of them comes before it expires. */
  lemma {:induction false} HeadOfLine(db: Db, id: TxId, polls: seq<Poll>)
    requires Valid(db) && id < |db.wagers| && polls != [] && Head(db.wagers, id, polls)
    ensures PollAll(db, polls) == db <==> Jammed(db, id) && BeforeExpiry(db.wagers[id], polls)
    decreases |polls|
  {
    hide Valid, Jammed, FirstDue, PollOnce, Expired, Head, BeforeExpiry;
    var p, rest := polls[0], polls[1..];
    FirstAndRest(db.wagers, id, db.wagers[id], polls);
    OnePoll(db, id, p);
    if PollOnce(db, p) != db {
      NeverBackAll(PollOnce(db, p), rest, id, db.wagers[id].attempts);
      SelectedWaits(db.wagers, id, p);
    } else if rest != [] {
      HeadOfLine(db, id, rest);
    } else {
      assert BeforeExpiry(db.wagers[id], rest) by { assert rest == []; NoCalls(db.wagers[id]); }
    }
  }

  lemma NoCalls(row: WagerRow)
    ensures BeforeExpiry(row, [])
  {
  }

  lemma SelectedWaits(wagers: seq<WagerRow>, id: TxId, p: Poll)
    requires FirstDue(wagers, p.selectedAt) == Some(id)
    ensures !Further(wagers, id, if id < |wagers| then wagers[id].attempts else 0)
  {
  }

  /** The oldest waiting row is the one selected from the moment it is due. */
  lemma OldestIsFirst(wagers: seq<WagerRow>, id: TxId, since: Time, selectedAt: Time)
    requires id < |wagers| && Due(wagers[id], since) && since <= selectedAt
    requires forall i :: 0 <= i < |wagers| && i != id && wagers[i].state.PendingReference? ==>
               wagers[id].createdAt < wagers[i].createdAt
    ensures FirstDue(wagers, selectedAt) == Some(id)
  {
    assert Due(wagers[id], selectedAt);
  }

  /** The first call after the row has expired rejects it, moves nothing, touches no
      other row, and leaves the line to the next one. */
  lemma ExpiryFreesLine(db: Db, id: TxId, p: Poll, later: Time)
    requires Valid(db) && FirstDue(db.wagers, p.selectedAt) == Some(id) && Expired(db.wagers[id], p.now)
    ensures var db' := PollOnce(db, p);
            && |db'.wagers| == |db.wagers|
            && db'.wagers[id].state.Rejected? && db'.wagers[id].failureCode == Some(REFERENCE_EXPIRED)
            && (forall i :: 0 <= i < |db.wagers| && i != id ==> db'.wagers[i] == db.wagers[i])
            && db'.wallets == db.wallets && db'.ledger == db.ledger
            && FirstDue(db'.wagers, later) != Some(id)
  {
    var row := db.wagers[id];
    PassApplies(db, id, p.now, p.entryId);
    var wallet := db.wallets[row.walletId];
    assert Resolve(db.wagers, wallet, row, p.now) == Refuse(REFERENCE_EXPIRED, None);
    hide Valid, Resolve, ResolvePass, FirstDue, ResolverWrites, Apply, Expired;
    ExpiryWrites(db, id, p.now, p.entryId);
    var db' := Apply(db, id, ResolverWrites(row, id, wallet, Refuse(REFERENCE_EXPIRED, None), p.now, p.entryId));
    assert PollOnce(db, p) == db';
  }

  lemma ExpiryWrites(db: Db, id: TxId, now: Time, entryId: int)
    requires id < |db.wagers| && db.wagers[id].walletId in db.wallets
    ensures var row := db.wagers[id];
            var db' := Apply(db, id, ResolverWrites(row, id, db.wallets[row.walletId], Refuse(REFERENCE_EXPIRED, None), now, entryId));
            && |db'.wagers| == |db.wagers|
            && db'.wagers[id].state.Rejected? && db'.wagers[id].failureCode == Some(REFERENCE_EXPIRED)
            && (forall i :: 0 <= i < |db.wagers| && i != id ==> db'.wagers[i] == db.wagers[i])
            && db'.wallets == db.wallets && db'.ledger == db.ledger
  {
    var row := db.wagers[id];
    assert db.wallets[row.walletId := db.wallets[row.walletId]] == db.wallets && db.ledger + [] == db.ledger;
  }
}
