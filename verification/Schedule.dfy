/** When a pending reference is retried, and that it is not retried for ever. */
module Schedule {
  import opened Common
  import opened Wallets
  import opened Wagers
  import opened Tables
  import opened Backoff
  import opened Decisions
  import opened Invariant
  import opened Protocol
  import opened Safety
  import Runs

  const MAX_RETRIES := 8

  /** The least time between a row's creation and the attempt after so many retries. */
  function Elapsed(retries: nat): int {
    if retries == 0 then REFERENCE_RETRY_DELAY else Elapsed(retries - 1) + Delay(retries)
  }

  /** Eight backoffs outlast the time to live. */
  lemma EightRetriesOutlast()
    ensures Elapsed(MAX_RETRIES) >= REFERENCE_TTL > Elapsed(MAX_RETRIES - 1)
  {
    assert Pow2(1) == 2 && Pow2(2) == 4 && Pow2(3) == 8 && Pow2(4) == 16;
    assert Elapsed(4) == 80 * SECOND;
    Pow2Monotone(4, 5);
    Pow2Monotone(4, 6);
    Pow2Monotone(4, 7);
    assert Delay(5) == CAP && Delay(6) == CAP && Delay(7) == CAP && Delay(8) == CAP;
    assert Elapsed(7) == 260 * SECOND;
  }

  /** The wait after so many retries: 5, 10, 20, 40 seconds, then a minute. */
  function Wait(retries: nat): int {
    match retries
    case 0 | 1 => 5 * SECOND
    case 2 => 10 * SECOND
    case 3 => 20 * SECOND
    case 4 => 40 * SECOND
    case _ => 60 * SECOND
  }

  lemma DelayIsWait(retries: nat)
    ensures Delay(retries) == Wait(retries)
  {
    assert Pow2(1) == 2 && Pow2(2) == 4 && Pow2(3) == 8 && Pow2(4) == 16;
    if retries > 5 { Pow2Monotone(4, retries - 1); }
  }

  /** A pending row waits for an instant that its retries so far have earned, and
      never beyond its expiry. */
  predicate RowScheduled(row: WagerRow) {
    row.state.PendingReference? ==>
      && row.expiresAt == Some(row.createdAt + REFERENCE_TTL)
      && row.nextAttemptAt.Some?
      && row.attempts <= MAX_RETRIES
      && row.nextAttemptAt.value == Min(row.expiresAt.value, row.updatedAt + Wait(row.attempts))
      && (row.attempts == 0 ==> row.updatedAt == row.createdAt)
      && Min(row.expiresAt.value, row.createdAt + Elapsed(row.attempts)) <= row.nextAttemptAt.value <= row.expiresAt.value
  }

  predicate Scheduled(wagers: seq<WagerRow>) {
    forall i :: 0 <= i < |wagers| ==> RowScheduled(wagers[i])
  }

  /** After eight retries the row is due only once it has expired. */
  lemma NinthPassExpires(row: WagerRow, now: Time)
    requires RowScheduled(row) && Due(row, now) && row.attempts == MAX_RETRIES
    ensures Expired(row, now)
  {
    EightRetriesOutlast();
  }

  lemma RetryScheduled(row: WagerRow, now: Time)
    requires RowScheduled(row) && Due(row, now) && !Expired(row, now)
    ensures RowScheduled(row.(attempts := row.attempts + 1, nextAttemptAt := Some(NextAttempt(row, now)), updatedAt := now))
  {
    DelayIsWait(row.attempts + 1);
    if row.attempts == MAX_RETRIES {
      NinthPassExpires(row, now);
    }
  }

  lemma SyncRowScheduled(cmd: Command, id: TxId, wallet: WalletRow, outcome: Outcome, now: Time, entryId: int)
    requires !outcome.Fail?
    ensures RowScheduled(SyncWrites(cmd, id, wallet, outcome, now, entryId).row)
  {
  }

  lemma ResolverRowScheduled(db: Db, clock: Time, id: TxId, row: WagerRow, stage: Stage, entryId: int)
    requires ResolverOk(db, clock, id, row, stage) && stage.Decided? && !stage.outcome.Fail? && RowScheduled(row)
    ensures RowScheduled(ResolverWrites(row, id, stage.wallet, stage.outcome, stage.now, entryId).row)
  {
    if stage.outcome.Unresolved? {
      RetryScheduled(row, stage.now);
    }
  }

  lemma PutScheduled(wagers: seq<WagerRow>, id: TxId, row: WagerRow)
    requires Scheduled(wagers) && id <= |wagers| && RowScheduled(row)
    ensures Scheduled(Put(wagers, id, row))
  {
  }

  lemma ResolverScheduled(s: Sys, t: nat, entryId: int)
    requires Inv(s) && t in s.txns && Scheduled(s.db.wagers)
    requires s.txns[t].program.Resolver? && s.txns[t].stage.Decided?
    ensures Scheduled(Step(s, t, entryId).db.wagers)
  {
    var x := s.txns[t];
    var id, row, stage := x.program.id, x.program.row, x.stage;
    assert TxnOk(s.db, s.inbox, s.clock, x) && RowScheduled(s.db.wagers[id]);
    hide Inv, Step, RowScheduled, ResolverWrites, Scheduled;
    ResolverCommitStep(s, t, entryId);
    ResolverRowScheduled(s.db, s.clock, id, row, stage, entryId);
    PutScheduled(s.db.wagers, id, ResolverWrites(row, id, stage.wallet, stage.outcome, stage.now, entryId).row);
  }

  lemma SubmitScheduled(s: Sys, t: nat, entryId: int)
    requires Inv(s) && t in s.txns && Scheduled(s.db.wagers)
    requires s.txns[t].program.Submit? && s.txns[t].stage.Ready?
    ensures Scheduled(Step(s, t, entryId).db.wagers)
  {
    var x := s.txns[t];
    var cmd, n, stage := x.program.cmd, |s.db.wagers|, x.stage;
    assert TxnOk(s.db, s.inbox, s.clock, x);
    hide Inv, Step, RowScheduled, SyncWrites, Scheduled;
    SubmitCommitStep(s, t, entryId);
    SyncRowScheduled(cmd, n, stage.wallet, stage.outcome, stage.now, entryId);
    PutScheduled(s.db.wagers, n, SyncWrites(cmd, n, stage.wallet, stage.outcome, stage.now, entryId).row);
  }

  lemma CreatorScheduled(s: Sys, t: nat, entryId: int)
    requires Inv(s) && t in s.txns && Scheduled(s.db.wagers)
    requires s.txns[t].program.Creator? && s.txns[t].stage.Inserted?
    ensures Scheduled(Step(s, t, entryId).db.wagers)
  {
    assert TxnOk(s.db, s.inbox, s.clock, s.txns[t]);
    hide Inv, Step, TxnOk;
    CreatorStep(s, t, entryId);
  }

  lemma StepScheduled(s: Sys, t: nat, entryId: int)
    requires Inv(s) && t in s.txns && Scheduled(s.db.wagers)
    ensures Scheduled(Step(s, t, entryId).db.wagers)
  {
    hide Inv, Scheduled, Step;
    if !Commits(s.txns[t]) || s.txns[t].stage.Replaying? {
      Runs.OnlyCommits(s, t, entryId);
    } else {
      match s.txns[t].program
      case Submit(_, _) => SubmitScheduled(s, t, entryId);
      case Resolver(_, _) => ResolverScheduled(s, t, entryId);
      case Creator(_, _) => CreatorScheduled(s, t, entryId);
    }
  }

  lemma {:induction false} RunScheduled(s: Sys, actions: seq<Action>)
    requires Inv(s) && Scheduled(s.db.wagers)
    ensures Scheduled(Run(s, actions).db.wagers)
    decreases |actions|
  {
    hide Inv, Step, Blocked, RowScheduled;
    if actions != [] {
      var a := actions[0];
      DoInv(s, a);
      if a.Advance? && a.t in s.txns {
        StepScheduled(s, a.t, a.entryId);
      }
      RunScheduled(Do(s, a), actions[1..]);
    }
  }

  /** In every run a row is retried at most eight times, whatever its reference. */
  lemma RetriesBounded(actions: seq<Action>, id: TxId)
    requires id < |Run(START, actions).db.wagers| && Run(START, actions).db.wagers[id].state.PendingReference?
    ensures Run(START, actions).db.wagers[id].attempts <= MAX_RETRIES
  {
    StartInv();
    RunScheduled(START, actions);
    assert RowScheduled(Run(START, actions).db.wagers[id]);
  }

  /** In every run a row that waits is due from five seconds after its creation on,
      and once retried from the wait its retries have earned after the last of them,
      but from its expiry at the latest. It expires five minutes after its creation. */
  lemma DueInEveryRun(actions: seq<Action>, id: TxId, now: Time)
    requires id < |Run(START, actions).db.wagers| && Run(START, actions).db.wagers[id].state.PendingReference?
    ensures var row := Run(START, actions).db.wagers[id];
            var expiry := row.createdAt + 300 * SECOND;
            && (Expired(row, now) <==> now >= expiry)
            && (Due(row, now) <==>
                  if row.attempts == 0 then now >= row.createdAt + 5 * SECOND
                  else now >= expiry || now >= row.updatedAt + Wait(row.attempts))
  {
    StartInv();
    hide Run, Inv;
    RunScheduled(START, actions);
    assert RowScheduled(Run(START, actions).db.wagers[id]);
  }

  lemma RowOutcome(db: Db, clock: Time, id: TxId, row: WagerRow, stage: Stage, entryId: int)
    requires ResolverOk(db, clock, id, row, stage) && stage.Decided? && RowScheduled(row)
    ensures !stage.outcome.Fail?
    ensures var w := ResolverWrites(row, id, stage.wallet, stage.outcome, stage.now, entryId);
            && (w.row.state.PendingReference? || Terminal(w.row.state))
            && (w.row.state.PendingReference? ==> w.row.attempts == row.attempts + 1 <= MAX_RETRIES)
            && (row.attempts == MAX_RETRIES ==> Terminal(w.row.state))
            && (Expired(row, stage.now) ==>
                  && w.row.state.Rejected? && w.row.failureCode == Some(REFERENCE_EXPIRED)
                  && w.wallet == stage.wallet && w.entries == [])
  {
    if row.attempts == MAX_RETRIES {
      NinthPassExpires(row, stage.now);
    }
  }

  lemma OneRowWritten(db: Db, id: TxId, wallet: WalletRow, w: Writes)
    requires id < |db.wagers| && Current(db, w.row.walletId, wallet)
    ensures var db' := Apply(db, id, w);
            && |db'.wagers| == |db.wagers| && db'.wagers[id] == w.row
            && (w.wallet == wallet && w.entries == [] ==> db'.wallets == db.wallets && db'.ledger == db.ledger)
  {
    if w.wallet == wallet {
      assert db.wallets[w.row.walletId := wallet] == db.wallets;
    }
  }

  /** A committed pass either counts one more retry or makes the row terminal; the
      ninth makes it terminal; and once the row has expired it is rejected and
      nothing moves. */
  lemma PassOutcome(s: Sys, t: nat, entryId: int)
    requires Inv(s) && Scheduled(s.db.wagers)
    requires t in s.txns && s.txns[t].program.Resolver? && s.txns[t].stage.Decided?
    ensures var id, db' := s.txns[t].program.id, Step(s, t, entryId).db;
            && id < |s.db.wagers| && id < |db'.wagers|
            && var before, after := s.db.wagers[id], db'.wagers[id];
               && (after.state.PendingReference? || Terminal(after.state))
               && (after.state.PendingReference? ==> after.attempts == before.attempts + 1 <= MAX_RETRIES)
               && (before.attempts == MAX_RETRIES ==> Terminal(after.state))
               && (Expired(before, s.txns[t].stage.now) ==>
                     && after.state.Rejected? && after.failureCode == Some(REFERENCE_EXPIRED)
                     && db'.wallets == s.db.wallets && db'.ledger == s.db.ledger)
  {
    var x := s.txns[t];
    var row, stage := x.program.row, x.stage;
    TxnHolds(s, t);
    hide Inv, TxnOk, RowScheduled, Step, ResolverWrites, ResolverOk, ResolverDecision, Expired, Due, Terminal, Fresh, Current, Apply, SameIdentity;
    ResolverPlaced(s.db, s.inbox, s.clock, x);
    RowOutcome(s.db, s.clock, x.program.id, row, stage, entryId);
    ResolverShape(row, x.program.id, stage.wallet, stage.outcome, stage.now, entryId);
    OneRowWritten(s.db, x.program.id, stage.wallet, ResolverWrites(row, x.program.id, stage.wallet, stage.outcome, stage.now, entryId));
    ResolverCommitStep(s, t, entryId);
  }

  // ---- All passes over one row

  /** The action commits a pass over the row. */
  predicate PassesOver(s: Sys, a: Action, id: TxId) {
    && a.Advance? && a.t in s.txns && !Blocked(s, a.t)
    && s.txns[a.t].program.Resolver? && s.txns[a.t].program.id == id && s.txns[a.t].stage.Decided?
  }

  function Passes(s: Sys, actions: seq<Action>, id: TxId): nat
    decreases |actions|
  {
    if actions == [] then 0
    else (if PassesOver(s, actions[0], id) then 1 else 0) + Passes(Do(s, actions[0]), actions[1..], id)
  }

  /** How many passes a row can still take. */
  function PassesLeft(wagers: seq<WagerRow>, id: TxId): int {
    if id >= |wagers| then MAX_RETRIES + 1
    else if wagers[id].state.PendingReference? then MAX_RETRIES + 1 - wagers[id].attempts
    else 0
  }

  /** Only a pass over it changes a row. */
  lemma OthersKeepRow(s: Sys, t: nat, entryId: int, id: TxId)
    requires Inv(s) && t in s.txns && id < |s.db.wagers|
    requires !(s.txns[t].program.Resolver? && s.txns[t].program.id == id && s.txns[t].stage.Decided?)
    ensures id < |Step(s, t, entryId).db.wagers| && Step(s, t, entryId).db.wagers[id] == s.db.wagers[id]
  {
    var x := s.txns[t];
    TxnHolds(s, t);
    if !Commits(x) || x.stage.Replaying? {
      hide Inv, TxnOk, Step;
      Runs.OnlyCommits(s, t, entryId);
    } else if x.program.Submit? {
      SubmitCommittable(s, t, entryId);
      SubmitCommitStep(s, t, entryId);
    } else if x.program.Resolver? {
      ResolverCommittable(s, t, entryId);
      ResolverCommitStep(s, t, entryId);
    } else {
      CreatorStep(s, t, entryId);
    }
    hide Inv, TxnOk, Step, Sound, ResolverWrites, SyncWrites, Committable;
  }

  lemma PassCounts(s: Sys, t: nat, entryId: int, id: TxId)
    requires Inv(s) && Scheduled(s.db.wagers) && t in s.txns
    requires s.txns[t].program.Resolver? && s.txns[t].program.id == id && s.txns[t].stage.Decided?
    ensures PassesLeft(Step(s, t, entryId).db.wagers, id) + 1 <= PassesLeft(s.db.wagers, id)
  {
    PassOutcome(s, t, entryId);
    TxnHolds(s, t);
    PendingClaim(s.db, s.inbox, s.clock, s.txns[t]);
    assert RowScheduled(s.db.wagers[id]);
    hide Inv, TxnOk, Step, Scheduled;
  }

  lemma PendingClaim(db: Db, inbox: map<string, InboxRow>, clock: Time, x: Txn)
    requires TxnOk(db, inbox, clock, x) && x.program.Resolver?
    ensures x.program.id < |db.wagers| && db.wagers[x.program.id].state.PendingReference?
  {
    hide ResolverDecision, Fresh;
  }

  lemma DoPassesLeft(s: Sys, a: Action, id: TxId)
    requires Inv(s) && Scheduled(s.db.wagers)
    ensures PassesLeft(Do(s, a).db.wagers, id) + (if PassesOver(s, a, id) then 1 else 0) <= PassesLeft(s.db.wagers, id)
  {
    hide Inv, Step, Blocked, Scheduled;
    if a.Advance? && a.t in s.txns && !Blocked(s, a.t) {
      if PassesOver(s, a, id) {
        PassCounts(s, a.t, a.entryId, id);
      } else if id < |s.db.wagers| {
        OthersKeepRow(s, a.t, a.entryId, id);
      }
    }
  }

  /** In any run at most nine committed passes go over one row, from its insertion
      to its end, whatever its reference is. */
  lemma {:induction false} PassesBounded(s: Sys, actions: seq<Action>, id: TxId)
    requires Inv(s) && Scheduled(s.db.wagers)
    ensures Passes(s, actions, id) <= PassesLeft(s.db.wagers, id) <= MAX_RETRIES + 1
    decreases |actions|
  {
    hide Inv, Do, PassesOver;
    if actions != [] {
      var a := actions[0];
      DoInv(s, a);
      DoPassesLeft(s, a, id);
      DoScheduled(s, a);
      PassesBounded(Do(s, a), actions[1..], id);
    }
    LeftInRange(s.db.wagers, id);
  }

  lemma LeftInRange(wagers: seq<WagerRow>, id: TxId)
    requires Scheduled(wagers)
    ensures 0 <= PassesLeft(wagers, id) <= MAX_RETRIES + 1
  {
    if id < |wagers| { assert RowScheduled(wagers[id]); }
  }

  lemma DoScheduled(s: Sys, a: Action)
    requires Inv(s) && Scheduled(s.db.wagers)
    ensures Scheduled(Do(s, a).db.wagers)
  {
    hide Inv, Step, Blocked, Scheduled;
    if a.Advance? && a.t in s.txns {
      StepScheduled(s, a.t, a.entryId);
    }
  }

  /** Nine passes at most, in every run from the empty system. */
  lemma NinePasses(actions: seq<Action>, id: TxId)
    ensures Passes(START, actions, id) <= 9
  {
    StartInv();
    hide Inv, Passes;
    PassesBounded(START, actions, id);
  }
}
