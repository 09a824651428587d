/** Whole transactions are runs: whatever Process, a processed message or a pass of the
    resolver does, failures included, the protocol does when nothing stands in its way. */
module Whole {
  import opened Common
  import opened Amounts
  import opened Wallets
  import opened Wagers
  import opened Tables
  import opened Decisions
  import opened Protocol
  import opened Safety
  import opened Alone

  // ---- A submission from beginning to end

  /** A submission at the given statement, with its inbox row if it carries a message. */
  function Submitting(cmd: Command, message: Option<Message>, stage: Stage, completed: bool): Txn {
    Txn(Submit(cmd, message), stage, if message.None? then None else Some(InboxRow(message.value.body, completed)))
  }

  function With(s: Sys, t: nat, x: Txn, clock: Time): Sys {
    s.(txns := s.txns[t := x], clock := clock)
  }

  predicate Undisturbed(s: Sys, t: nat, cmd: Command, message: Option<Message>) {
    && t !in s.txns && Free(s, cmd)
    && (message.Some? ==> forall u :: u in s.txns ==> !HoldsMessage(s.txns[u], message.value.id))
  }

  lemma NotBlocked(s: Sys, t: nat, cmd: Command, message: Option<Message>, x: Txn, clock: Time)
    requires Undisturbed(s, t, cmd, message) && x.program == Submit(cmd, message)
    ensures !Blocked(With(s, t, x, clock), t)
  {
    var s' := With(s, t, x, clock);
    forall u | u in s'.txns ensures !Waits(s', t, u) {
      assert u != t ==> u in s.txns && s'.txns[u] == s.txns[u];
    }
  }

  /** What a submission leaves that comes to this result, read at this clock. */
  function Left(s: Sys, message: Option<Message>, clock: Time, r: Result<(Db, ProcessResult), Error>): Sys {
    match r
    case Err(_) => s.(clock := clock)
    case Ok(done) =>
      s.(db := done.0,
         inbox := if message.None? then s.inbox else s.inbox[message.value.id := InboxRow(message.value.body, true)],
         clock := if done.1.replay then clock else clock + 1)
  }

  /** Advancing it n times takes the system with this transaction to its end. */
  predicate Leads(s: Sys, t: nat, entryId: int, x: Txn, clock: Time, n: nat, end: Sys) {
    Advanced(With(s, t, x, clock), t, entryId, n) == end
  }

  lemma {:induction false} Finished(s: Sys, t: nat, entryId: int, n: nat)
    requires t !in s.txns
    ensures Advanced(s, t, entryId, n) == s
    decreases n
  {
    if n > 0 {
      assert Do(s, Advance(t, entryId)) == s;
      Finished(s, t, entryId, n - 1);
    }
  }

  lemma LeadsOn(s: Sys, t: nat, entryId: int, x: Txn, clock: Time, x': Txn, clock': Time, n: nat, end: Sys)
    requires n > 0 && Do(With(s, t, x, clock), Advance(t, entryId)) == With(s, t, x', clock')
    requires Leads(s, t, entryId, x', clock', n - 1, end)
    ensures Leads(s, t, entryId, x, clock, n, end)
  {
    hide Do, With;
  }

  lemma LeadsOut(s: Sys, t: nat, entryId: int, x: Txn, clock: Time, n: nat, end: Sys)
    requires n > 0 && Do(With(s, t, x, clock), Advance(t, entryId)) == end && t !in end.txns
    ensures Leads(s, t, entryId, x, clock, n, end)
  {
    Finished(end, t, entryId, n - 1);
    hide Do, With;
  }

  /** A statement that moves on, and one that gives up. */
  lemma MovesOn(s: Sys, t: nat, x: Txn, stage: Stage, clock: Time, clock': Time)
    requires t !in s.txns
    ensures Goto(With(s, t, x, clock), t, stage).(clock := clock') == With(s, t, x.(stage := stage), clock')
  {
    var a, b := With(s, t, x, clock), With(s, t, x.(stage := stage), clock');
    assert a.txns[t := b.txns[t]] == b.txns;
  }

  lemma GivesUp(s: Sys, t: nat, x: Txn, clock: Time)
    requires t !in s.txns
    ensures Drop(With(s, t, x, clock), t) == s.(clock := clock)
  {
    assert With(s, t, x, clock).txns - {t} == s.txns;
  }

  lemma AdvanceIs(s: Sys, t: nat, cmd: Command, message: Option<Message>, x: Txn, clock: Time, entryId: int)
    requires Undisturbed(s, t, cmd, message) && x.program == Submit(cmd, message) && !x.stage.Traced?
    requires x.stage.Referenced? ==> x.stage.id < |s.db.wagers|
    ensures Do(With(s, t, x, clock), Advance(t, entryId))
         == StepSubmit(With(s, t, x, clock), t, cmd, message, x.stage, entryId)
  {
    NotBlocked(s, t, cmd, message, x, clock);
    hide Blocked, StepSubmit, Undisturbed;
  }

  lemma Completes(s: Sys, t: nat, cmd: Command, message: Option<Message>, stage: Stage, stage': Stage, clock: Time)
    requires t !in s.txns
    ensures CompleteInbox(With(s, t, Submitting(cmd, message, stage, false), clock), t, message, stage')
         == With(s, t, Submitting(cmd, message, stage', true), clock)
  {
    var a, b := With(s, t, Submitting(cmd, message, stage, false), clock), With(s, t, Submitting(cmd, message, stage', true), clock);
    assert a.txns[t := b.txns[t]] == b.txns;
    if message.Some? {
      var row := Submitting(cmd, message, stage, true);
      assert a.txns[t := row][t := b.txns[t]] == b.txns;
    }
  }

  /** What is decided on the wallet comes to this. */
  function DecidedResult(db: Db, cmd: Command, wallet: WalletRow, outcome: Outcome, now: Time, entryId: int): Result<(Db,
                         ProcessResult), Error> {
    match outcome
    case Fail(e) => Err(e)
    case _ =>
      var w := SyncWrites(cmd, |db.wagers|, wallet, outcome, now, entryId);
      Ok((Apply(db, |db.wagers|, w), NewResult(|db.wagers|, w)))
  }

  lemma FromReady(s: Sys, t: nat, cmd: Command, message: Option<Message>, wallet: WalletRow, outcome: Outcome,
                  clock: Time, entryId: int)
    requires Undisturbed(s, t, cmd, message) && !outcome.Fail?
    ensures Leads(s, t, entryId, Submitting(cmd, message, Ready(wallet, outcome, clock + 1), true), clock + 1, 1,
                  Left(s, message, clock, DecidedResult(s.db, cmd, wallet, outcome, clock + 1, entryId)))
  {
    var x := Submitting(cmd, message, Ready(wallet, outcome, clock + 1), true);
    var end := Left(s, message, clock, DecidedResult(s.db, cmd, wallet, outcome, clock + 1, entryId));
    AdvanceIs(s, t, cmd, message, x, clock + 1, entryId);
    GivesUp(s, t, x, clock + 1);
    hide Do, Apply, SyncWrites, Undisturbed;
    assert With(s, t, x, clock + 1).db == s.db && With(s, t, x, clock + 1).inbox == s.inbox;
    LeadsOut(s, t, entryId, x, clock + 1, 1, end) by { assert t !in s.txns by { OutOfTxns(s, t, cmd, message); } }
  }

  lemma OutOfTxns(s: Sys, t: nat, cmd: Command, message: Option<Message>)
    requires Undisturbed(s, t, cmd, message)
    ensures t !in s.txns
  {
  }

  /** The two inserts: neither key is taken. */
  lemma InsertStep(s: Sys, t: nat, cmd: Command, message: Option<Message>, wallet: WalletRow, outcome: Outcome,
                   now: Time, entryId: int)
    requires Undisturbed(s, t, cmd, message)
    requires FindByKey(s.db.wagers, cmd.request.providerId, cmd.idempotencyKey).None?
    requires FindByExternal(s.db.wagers, cmd.request.providerId, cmd.request.externalId).None?
    ensures Do(With(s, t, Submitting(cmd, message, Decided(wallet, outcome, now), false), now), Advance(t, entryId))
         == With(s, t, Submitting(cmd, message, Identified(wallet, outcome, now), false), now)
    ensures Do(With(s, t, Submitting(cmd, message, Identified(wallet, outcome, now), false), now), Advance(t, entryId))
         == With(s, t, Submitting(cmd, message, Completing(wallet, outcome, now), false), now)
  {
    var a := Submitting(cmd, message, Decided(wallet, outcome, now), false);
    var b := Submitting(cmd, message, Identified(wallet, outcome, now), false);
    OutOfTxns(s, t, cmd, message);
    AdvanceIs(s, t, cmd, message, a, now, entryId);
    AdvanceIs(s, t, cmd, message, b, now, entryId);
    MovesOn(s, t, a, b.stage, now, now);
    MovesOn(s, t, b, Completing(wallet, outcome, now), now, now);
    hide Do, Undisturbed, FindByKey, FindByExternal;
  }

  lemma CompleteStep(s: Sys, t: nat, cmd: Command, message: Option<Message>, wallet: WalletRow, outcome: Outcome,
                     now: Time, entryId: int)
    requires Undisturbed(s, t, cmd, message)
    ensures Do(With(s, t, Submitting(cmd, message, Completing(wallet, outcome, now), false), now), Advance(t, entryId))
         == With(s, t, Submitting(cmd, message, Ready(wallet, outcome, now), true), now)
  {
    OutOfTxns(s, t, cmd, message);
    AdvanceIs(s, t, cmd, message, Submitting(cmd, message, Completing(wallet, outcome, now), false), now, entryId);
    Completes(s, t, cmd, message, Completing(wallet, outcome, now), Ready(wallet, outcome, now), now);
    hide Do, With, CompleteInbox, Undisturbed;
  }

  lemma FromDecided(s: Sys, t: nat, cmd: Command, message: Option<Message>, wallet: WalletRow, outcome: Outcome,
                    clock: Time, entryId: int)
    requires Undisturbed(s, t, cmd, message) && !outcome.Fail?
    requires FindByKey(s.db.wagers, cmd.request.providerId, cmd.idempotencyKey).None?
    requires FindByExternal(s.db.wagers, cmd.request.providerId, cmd.request.externalId).None?
    ensures Leads(s, t, entryId, Submitting(cmd, message, Decided(wallet, outcome, clock + 1), false), clock + 1, 4,
                  Left(s, message, clock, DecidedResult(s.db, cmd, wallet, outcome, clock + 1, entryId)))
  {
    hide *;
    var now := clock + 1;
    var end := Left(s, message, clock, DecidedResult(s.db, cmd, wallet, outcome, now, entryId));
    var a := Submitting(cmd, message, Decided(wallet, outcome, now), false);
    var b := Submitting(cmd, message, Identified(wallet, outcome, now), false);
    var c := Submitting(cmd, message, Completing(wallet, outcome, now), false);
    var d := Submitting(cmd, message, Ready(wallet, outcome, now), true);
    InsertStep(s, t, cmd, message, wallet, outcome, now, entryId);
    CompleteStep(s, t, cmd, message, wallet, outcome, now, entryId);
    FromReady(s, t, cmd, message, wallet, outcome, clock, entryId);
    LeadsOn(s, t, entryId, c, now, d, now, 2, end);
    LeadsOn(s, t, entryId, b, now, c, now, 3, end);
    LeadsOn(s, t, entryId, a, now, b, now, 4, end);
  }

  /** The decision is held, unless it is to fail. */
  lemma FromOutcome(s: Sys, t: nat, cmd: Command, message: Option<Message>, x: Txn, wallet: WalletRow, outcome: Outcome,
                    clock: Time, entryId: int, n: nat)
    requires Undisturbed(s, t, cmd, message) && x == Submitting(cmd, message, x.stage, false) && n >= 5
    requires FindByKey(s.db.wagers, cmd.request.providerId, cmd.idempotencyKey).None?
    requires FindByExternal(s.db.wagers, cmd.request.providerId, cmd.request.externalId).None?
    requires Do(With(s, t, x, clock), Advance(t, entryId)) == Settle(With(s, t, x, clock), t, wallet, outcome)
    ensures Leads(s, t, entryId, x, clock, n, Left(s, message, clock, DecidedResult(s.db, cmd, wallet, outcome, clock + 1, entryId)))
  {
    hide *;
    var end := Left(s, message, clock, DecidedResult(s.db, cmd, wallet, outcome, clock + 1, entryId));
    SettleStep(s, t, cmd, message, x, wallet, outcome, clock, entryId);
    LeftOut(s, t, message, clock, DecidedResult(s.db, cmd, wallet, outcome, clock + 1, entryId));
    if outcome.Fail? {
      LeadsOut(s, t, entryId, x, clock, n, end);
    } else {
      var x' := Submitting(cmd, message, Decided(wallet, outcome, clock + 1), false);
      FromDecided(s, t, cmd, message, wallet, outcome, clock, entryId);
      LeadsPast(s, t, entryId, x', clock + 1, 4, n - 1, end);
      LeadsOn(s, t, entryId, x, clock, x', clock + 1, n, end);
    }
  }

  lemma LeftOut(s: Sys, t: nat, message: Option<Message>, clock: Time, r: Result<(Db, ProcessResult), Error>)
    ensures Left(s, message, clock, r).txns == s.txns
  {
  }

  lemma SettleStep(s: Sys, t: nat, cmd: Command, message: Option<Message>, x: Txn, wallet: WalletRow, outcome: Outcome,
                   clock: Time, entryId: int)
    requires Undisturbed(s, t, cmd, message) && x == Submitting(cmd, message, x.stage, false)
    ensures t !in s.txns
    ensures Settle(With(s, t, x, clock), t, wallet, outcome)
         == if outcome.Fail? then Left(s, message, clock, DecidedResult(s.db, cmd, wallet, outcome, clock + 1, entryId))
            else With(s, t, Submitting(cmd, message, Decided(wallet, outcome, clock + 1), false), clock + 1)
  {
    OutOfTxns(s, t, cmd, message);
    hide Undisturbed;
    if outcome.Fail? {
      GivesUp(s, t, x, clock);
    } else {
      MovesOn(s, t, x, Decided(wallet, outcome, clock + 1), clock, clock + 1);
    }
  }

  lemma {:induction false} AdvancedSum(s: Sys, t: nat, entryId: int, m: nat, n: nat)
    ensures Advanced(s, t, entryId, m + n) == Advanced(Advanced(s, t, entryId, m), t, entryId, n)
    decreases m
  {
    hide Do;
    if m > 0 {
      AdvancedSum(Do(s, Advance(t, entryId)), t, entryId, m - 1, n);
    }
  }

  /** Once it has ended, further statements do nothing. */
  lemma LeadsPast(s: Sys, t: nat, entryId: int, x: Txn, clock: Time, m: nat, n: nat, end: Sys)
    requires m <= n && Leads(s, t, entryId, x, clock, m, end) && t !in end.txns
    ensures Leads(s, t, entryId, x, clock, n, end)
  {
    AdvancedSum(With(s, t, x, clock), t, entryId, m, n - m);
    Finished(end, t, entryId, n - m);
    hide With, Advanced;
  }

  lemma FromReferenced(s: Sys, t: nat, cmd: Command, message: Option<Message>, wallet: WalletRow, id: TxId, clock: Time,
                       entryId: int)
    requires Undisturbed(s, t, cmd, message) && id < |s.db.wagers|
    requires FindByKey(s.db.wagers, cmd.request.providerId, cmd.idempotencyKey).None?
    requires FindByExternal(s.db.wagers, cmd.request.providerId, cmd.request.externalId).None?
    ensures Leads(s, t, entryId, Submitting(cmd, message, Referenced(wallet, id), false), clock, 5,
                  Left(s, message, clock,
                       DecidedResult(s.db, cmd, wallet, Finish(s.db.wagers, wallet, cmd.request, id, clock + 1), clock + 1, entryId)))
  {
    var x := Submitting(cmd, message, Referenced(wallet, id), false);
    AdvanceIs(s, t, cmd, message, x, clock, entryId);
    assert With(s, t, x, clock).db == s.db && Now(With(s, t, x, clock)) == clock + 1;
    hide Do, With, Undisturbed, Leads, Left, DecidedResult, FindByKey, FindByExternal, Settle, Finish;
    FromOutcome(s, t, cmd, message, x, wallet, Finish(s.db.wagers, wallet, cmd.request, id, clock + 1), clock, entryId, 5);
  }

  lemma AdmittedStep(s: Sys, t: nat, cmd: Command, message: Option<Message>, wallet: WalletRow, clock: Time, entryId: int)
    requires Undisturbed(s, t, cmd, message)
    ensures var x, r := Submitting(cmd, message, Admitted(wallet), false), cmd.request;
            var outcome := Decide(s.db.wagers, wallet, r, clock + 1);
            if NeedsReference(r) && ReadReference(s.db.wagers, r).Usable? then
              var id := ReadReference(s.db.wagers, r).id;
              && outcome == Finish(s.db.wagers, wallet, r, id, clock + 1)
              && Do(With(s, t, x, clock), Advance(t, entryId)) == With(s, t, Submitting(cmd, message, Referenced(wallet, id), false), clock)
            else
              Do(With(s, t, x, clock), Advance(t, entryId)) == Settle(With(s, t, x, clock), t, wallet, outcome)
  {
    var x, r := Submitting(cmd, message, Admitted(wallet), false), cmd.request;
    AdvanceIs(s, t, cmd, message, x, clock, entryId);
    OutOfTxns(s, t, cmd, message);
    DecidesNow(s.db, wallet, r, clock + 1);
    if NeedsReference(r) && ReadReference(s.db.wagers, r).Usable? {
      MovesOn(s, t, x, Referenced(wallet, ReadReference(s.db.wagers, r).id), clock, clock);
    }
    hide Do, Undisturbed, Settle, Finish, Decide, ReadReference, Move, NeedsReference;
  }

  lemma FromAdmitted(s: Sys, t: nat, cmd: Command, message: Option<Message>, wallet: WalletRow, clock: Time, entryId: int)
    requires Undisturbed(s, t, cmd, message)
    requires FindByKey(s.db.wagers, cmd.request.providerId, cmd.idempotencyKey).None?
    requires FindByExternal(s.db.wagers, cmd.request.providerId, cmd.request.externalId).None?
    ensures Leads(s, t, entryId, Submitting(cmd, message, Admitted(wallet), false), clock, 6,
                  Left(s, message, clock,
                       DecidedResult(s.db, cmd, wallet, Decide(s.db.wagers, wallet, cmd.request, clock + 1), clock + 1, entryId)))
  {
    var x, r := Submitting(cmd, message, Admitted(wallet), false), cmd.request;
    hide Do, With, Undisturbed, Leads, Left, DecidedResult, FindByKey, FindByExternal, Settle, Finish, Decide, ReadReference, NeedsReference;
    var outcome := Decide(s.db.wagers, wallet, r, clock + 1);
    AdmittedStep(s, t, cmd, message, wallet, clock, entryId);
    if NeedsReference(r) && ReadReference(s.db.wagers, r).Usable? {
      var id := ReadReference(s.db.wagers, r).id;
      FromReferenced(s, t, cmd, message, wallet, id, clock, entryId);
      LeadsOn(s, t, entryId, x, clock, Submitting(cmd, message, Referenced(wallet, id), false), clock, 6,
              Left(s, message, clock, DecidedResult(s.db, cmd, wallet, outcome, clock + 1, entryId)));
    } else {
      FromOutcome(s, t, cmd, message, x, wallet, outcome, clock, entryId, 6);
    }
  }

  // ---- The checks, and replays

  lemma CheckStep(s: Sys, t: nat, cmd: Command, message: Option<Message>, wallet: WalletRow, clock: Time, entryId: int)
    requires Undisturbed(s, t, cmd, message)
    ensures t !in s.txns
    ensures Do(With(s, t, Submitting(cmd, message, Unmatched(wallet), false), clock), Advance(t, entryId))
         == if FindByExternal(s.db.wagers, cmd.request.providerId, cmd.request.externalId).Some? || CheckOwner(wallet, cmd.request).Some?
            then s.(clock := clock)
            else With(s, t, Submitting(cmd, message, Admitted(wallet), false), clock)
  {
    var x := Submitting(cmd, message, Unmatched(wallet), false);
    OutOfTxns(s, t, cmd, message);
    AdvanceIs(s, t, cmd, message, x, clock, entryId);
    GivesUp(s, t, x, clock);
    MovesOn(s, t, x, Admitted(wallet), clock, clock);
    hide Do, Undisturbed, FindByExternal, CheckOwner;
  }

  /** The same for either replay check: after the lock, or with the first checks before it. */
  lemma ReplayChecks(s: Sys, t: nat, cmd: Command, message: Option<Message>, wallet: WalletRow, clock: Time, entryId: int)
    requires Undisturbed(s, t, cmd, message)
    ensures t !in s.txns
    ensures Do(With(s, t, Submitting(cmd, message, Locked(wallet), false), clock), Advance(t, entryId))
         == match FindReplay(s.db.wagers, cmd)
            case Err(_) => s.(clock := clock)
            case Ok(Some(_)) => With(s, t, Submitting(cmd, message, Recalled, false), clock)
            case Ok(None) => With(s, t, Submitting(cmd, message, Unmatched(wallet), false), clock)
    ensures Do(With(s, t, Submitting(cmd, message, Starting, false), clock), Advance(t, entryId))
         == if Precheck(cmd).Some? then s.(clock := clock)
            else match FindReplay(s.db.wagers, cmd)
            case Err(_) => s.(clock := clock)
            case Ok(Some(_)) => With(s, t, Submitting(cmd, message, Recalled, false), clock)
            case Ok(None) => With(s, t, Submitting(cmd, message, Stage.Waiting, false), clock)
  {
    var x, y := Submitting(cmd, message, Locked(wallet), false), Submitting(cmd, message, Starting, false);
    OutOfTxns(s, t, cmd, message);
    AdvanceIs(s, t, cmd, message, x, clock, entryId);
    AdvanceIs(s, t, cmd, message, y, clock, entryId);
    GivesUp(s, t, x, clock);
    GivesUp(s, t, y, clock);
    MovesOn(s, t, x, Recalled, clock, clock);
    MovesOn(s, t, y, Recalled, clock, clock);
    MovesOn(s, t, x, Unmatched(wallet), clock, clock);
    MovesOn(s, t, y, Stage.Waiting, clock, clock);
    hide Do, Undisturbed, FindReplay, Precheck;
  }

  lemma LockStep(s: Sys, t: nat, cmd: Command, message: Option<Message>, clock: Time, entryId: int)
    requires Undisturbed(s, t, cmd, message)
    ensures t !in s.txns
    ensures Do(With(s, t, Submitting(cmd, message, Stage.Waiting, false), clock), Advance(t, entryId))
         == match LockWallet(s.db, cmd.request.walletId)
            case Err(_) => s.(clock := clock)
            case Ok(wallet) => With(s, t, Submitting(cmd, message, Locked(wallet), false), clock)
  {
    var x := Submitting(cmd, message, Stage.Waiting, false);
    OutOfTxns(s, t, cmd, message);
    AdvanceIs(s, t, cmd, message, x, clock, entryId);
    GivesUp(s, t, x, clock);
    if LockWallet(s.db, cmd.request.walletId).Ok? {
      MovesOn(s, t, x, Locked(LockWallet(s.db, cmd.request.walletId).value), clock, clock);
    }
    hide Do, Undisturbed, LockWallet;
  }

  /** A replay completes its inbox row and commits nothing else. */
  lemma FromRecalled(s: Sys, t: nat, cmd: Command, message: Option<Message>, clock: Time, entryId: int, result: ProcessResult)
    requires Undisturbed(s, t, cmd, message) && result.replay
    ensures Leads(s, t, entryId, Submitting(cmd, message, Recalled, false), clock, 2, Left(s, message, clock, Ok((s.db, result))))
  {
    var x, y := Submitting(cmd, message, Recalled, false), Submitting(cmd, message, Replaying, true);
    var end := Left(s, message, clock, Ok((s.db, result)));
    OutOfTxns(s, t, cmd, message);
    AdvanceIs(s, t, cmd, message, x, clock, entryId);
    AdvanceIs(s, t, cmd, message, y, clock, entryId);
    Completes(s, t, cmd, message, Recalled, Replaying, clock);
    GivesUp(s, t, y, clock);
    assert With(s, t, y, clock).inbox == s.inbox;
    hide Do, Undisturbed, CompleteInbox;
    LeadsOut(s, t, entryId, y, clock, 1, end);
    LeadsOn(s, t, entryId, x, clock, y, clock, 2, end);
  }

  lemma FromUnmatched(s: Sys, t: nat, cmd: Command, message: Option<Message>, wallet: WalletRow, clock: Time, entryId: int)
    requires Undisturbed(s, t, cmd, message)
    requires FindByKey(s.db.wagers, cmd.request.providerId, cmd.idempotencyKey).None?
    ensures Leads(s, t, entryId, Submitting(cmd, message, Unmatched(wallet), false), clock, 7,
                  Left(s, message, clock, ProcessNew(s.db, cmd, wallet, clock + 1, entryId)))
  {
    var x, r := Submitting(cmd, message, Unmatched(wallet), false), cmd.request;
    var end := Left(s, message, clock, ProcessNew(s.db, cmd, wallet, clock + 1, entryId));
    NewIsDecided(s.db, cmd, wallet, clock + 1, entryId);
    hide Do, With, Undisturbed, Leads, DecidedResult, ProcessNew, FindByKey, FindByExternal, Decide, CheckOwner;
    CheckStep(s, t, cmd, message, wallet, clock, entryId);
    if FindByExternal(s.db.wagers, r.providerId, r.externalId).Some? || CheckOwner(wallet, r).Some? {
      LeadsOut(s, t, entryId, x, clock, 7, end);
    } else {
      FromAdmitted(s, t, cmd, message, wallet, clock, entryId);
      LeadsOn(s, t, entryId, x, clock, Submitting(cmd, message, Admitted(wallet), false), clock, 7, end);
    }
  }

  lemma NewIsDecided(db: Db, cmd: Command, wallet: WalletRow, now: Time, entryId: int)
    ensures var r := cmd.request;
            if FindByExternal(db.wagers, r.providerId, r.externalId).Some? || CheckOwner(wallet, r).Some?
            then ProcessNew(db, cmd, wallet, now, entryId).Err?
            else ProcessNew(db, cmd, wallet, now, entryId)
                 == DecidedResult(db, cmd, wallet, Decide(db.wagers, wallet, r, now), now, entryId)
  {
    hide FindByExternal, CheckOwner, Decide, SyncWrites, Apply, NewResult;
  }

  lemma FromLocked(s: Sys, t: nat, cmd: Command, message: Option<Message>, wallet: WalletRow, clock: Time, entryId: int)
    requires Undisturbed(s, t, cmd, message) && FindReplay(s.db.wagers, cmd) == Ok(None)
    ensures Leads(s, t, entryId, Submitting(cmd, message, Locked(wallet), false), clock, 8,
                  Left(s, message, clock, ProcessNew(s.db, cmd, wallet, clock + 1, entryId)))
  {
    assert FindByKey(s.db.wagers, cmd.request.providerId, cmd.idempotencyKey).None?;
    hide *;
    ReplayChecks(s, t, cmd, message, wallet, clock, entryId);
    FromUnmatched(s, t, cmd, message, wallet, clock, entryId);
    LeadsOn(s, t, entryId, Submitting(cmd, message, Locked(wallet), false), clock, Submitting(cmd, message, Unmatched(wallet), false),
            clock, 8, Left(s, message, clock, ProcessNew(s.db, cmd, wallet, clock + 1, entryId)));
  }

  lemma FromWaiting(s: Sys, t: nat, cmd: Command, message: Option<Message>, clock: Time, entryId: int)
    requires Undisturbed(s, t, cmd, message) && Precheck(cmd).None? && FindReplay(s.db.wagers, cmd) == Ok(None)
    ensures Leads(s, t, entryId, Submitting(cmd, message, Stage.Waiting, false), clock, 9,
                  Left(s, message, clock, Process(s.db, cmd, clock + 1, entryId)))
  {
    var x := Submitting(cmd, message, Stage.Waiting, false);
    var end := Left(s, message, clock, Process(s.db, cmd, clock + 1, entryId));
    hide Do, With, Undisturbed, Leads, ProcessNew, FindReplay, Precheck, LockWallet;
    LockStep(s, t, cmd, message, clock, entryId);
    match LockWallet(s.db, cmd.request.walletId)
    case Err(_) => LeadsOut(s, t, entryId, x, clock, 9, end);
    case Ok(wallet) =>
      FromLocked(s, t, cmd, message, wallet, clock, entryId);
      LeadsOn(s, t, entryId, x, clock, Submitting(cmd, message, Locked(wallet), false), clock, 9, end);
  }

  lemma ReplaysMarked(db: Db, cmd: Command, now: Time, entryId: int)
    requires Precheck(cmd).None? && FindReplay(db.wagers, cmd).Ok? && FindReplay(db.wagers, cmd).value.Some?
    ensures Process(db, cmd, now, entryId) == Ok((db, FindReplay(db.wagers, cmd).value.value))
    ensures FindReplay(db.wagers, cmd).value.value.replay
  {
    hide FindByKey, Precheck;
  }

  lemma FromStarting(s: Sys, t: nat, cmd: Command, message: Option<Message>, clock: Time, entryId: int)
    requires Undisturbed(s, t, cmd, message)
    ensures Leads(s, t, entryId, Submitting(cmd, message, Starting, false), clock, 10,
                  Left(s, message, clock, Process(s.db, cmd, clock + 1, entryId)))
  {
    var x := Submitting(cmd, message, Starting, false);
    var end := Left(s, message, clock, Process(s.db, cmd, clock + 1, entryId));
    LeftOut(s, t, message, clock, Process(s.db, cmd, clock + 1, entryId));
    hide Do, With, Undisturbed, Leads, LockWallet, ProcessNew, FindReplay, Precheck;
    ReplayChecks(s, t, cmd, message, WalletRow("", "", 0, 0, 0, 0), clock, entryId);
    if Precheck(cmd).Some? || FindReplay(s.db.wagers, cmd).Err? {
      LeadsOut(s, t, entryId, x, clock, 10, end);
    } else if FindReplay(s.db.wagers, cmd).value.Some? {
      ReplaysMarked(s.db, cmd, clock + 1, entryId);
      var y := Submitting(cmd, message, Recalled, false);
      FromRecalled(s, t, cmd, message, clock, entryId, FindReplay(s.db.wagers, cmd).value.value);
      LeadsPast(s, t, entryId, y, clock, 2, 9, end);
      LeadsOn(s, t, entryId, x, clock, y, clock, 10, end);
    } else {
      FromWaiting(s, t, cmd, message, clock, entryId);
      LeadsOn(s, t, entryId, x, clock, Submitting(cmd, message, Stage.Waiting, false), clock, 10, end);
    }
  }

  // ---- A message

  /** The delivery is refused, or was completed before. */
  predicate TurnedAway(inbox: map<string, InboxRow>, message: Option<Message>) {
    && message.Some? && message.value.id in inbox
    && (inbox[message.value.id].body != message.value.body || inbox[message.value.id].completed)
  }

  lemma RegisterStep(s: Sys, t: nat, cmd: Command, message: Message, clock: Time, entryId: int)
    requires Undisturbed(s, t, cmd, Some(message))
    ensures t !in s.txns
    ensures Do(With(s, t, Txn(Submit(cmd, Some(message)), Registering, None), clock), Advance(t, entryId))
         == if TurnedAway(s.inbox, Some(message)) then s.(clock := clock)
            else With(s, t, Submitting(cmd, Some(message), Starting, false), clock)
  {
    var x, y := Txn(Submit(cmd, Some(message)), Registering, None), Submitting(cmd, Some(message), Starting, false);
    var a, b := With(s, t, x, clock), With(s, t, y, clock);
    OutOfTxns(s, t, cmd, Some(message));
    AdvanceIs(s, t, cmd, Some(message), x, clock, entryId);
    GivesUp(s, t, x, clock);
    assert a.txns[t := x.(own := y.own)][t := y] == b.txns;
    hide Do, Undisturbed;
  }

  /** The whole of it: a submission, with or without a message, in which nobody stands
      in the way does to tables, inbox and clock what ProcessMessage or Process says,
      in every case, and ends. */
  function Sending(t: nat, cmd: Command, message: Option<Message>, entryId: int): seq<Action> {
    [Begin(t, cmd, message)] + Advances(t, entryId, 11)
  }

  lemma FromBeginning(s: Sys, t: nat, cmd: Command, message: Option<Message>, entryId: int)
    requires Undisturbed(s, t, cmd, message)
    ensures Leads(s, t, entryId, Txn(Submit(cmd, message), if message.Some? then Registering else Starting, None), s.clock, 11,
                  if TurnedAway(s.inbox, message) then s
                  else Left(s, message, s.clock, Process(s.db, cmd, s.clock + 1, entryId)))
  {
    var r := Process(s.db, cmd, s.clock + 1, entryId);
    var x := Submitting(cmd, message, Starting, false);
    hide *;
    LeftOut(s, t, message, s.clock, r);
    OutOfTxns(s, t, cmd, message);
    FromStarting(s, t, cmd, message, s.clock, entryId);
    if message.None? {
      NeverTurnedAway(s.inbox);
      PlainStart(cmd);
      LeadsPast(s, t, entryId, x, s.clock, 10, 11, Left(s, message, s.clock, r));
    } else {
      var y := Txn(Submit(cmd, message), Registering, None);
      RegisterStep(s, t, cmd, message.value, s.clock, entryId);
      if TurnedAway(s.inbox, message) {
        assert s.(clock := s.clock) == s;
        LeadsOut(s, t, entryId, y, s.clock, 11, s);
      } else {
        LeadsOn(s, t, entryId, y, s.clock, x, s.clock, 11, Left(s, message, s.clock, r));
      }
    }
  }

  lemma PlainStart(cmd: Command)
    ensures Submitting(cmd, None, Starting, false) == Txn(Submit(cmd, None), Starting, None)
  {
  }

  lemma NeverTurnedAway(inbox: map<string, InboxRow>)
    ensures !TurnedAway(inbox, None)
  {
  }

  lemma SubmissionIsProcess(s: Sys, t: nat, cmd: Command, message: Option<Message>, entryId: int)
    requires Undisturbed(s, t, cmd, message) && TransportValid(cmd)
    ensures Run(s, Sending(t, cmd, message, entryId))
         == if TurnedAway(s.inbox, message) then s
            else match Process(s.db, cmd, s.clock + 1, entryId)
              case Err(_) => s
              case Ok((db, result)) =>
                s.(db := db,
                   inbox := if message.None? then s.inbox else s.inbox[message.value.id := InboxRow(message.value.body, true)],
                   clock := if result.replay then s.clock else s.clock + 1)
  {
    var x := Txn(Submit(cmd, message), if message.Some? then Registering else Starting, None);
    OutOfTxns(s, t, cmd, message);
    assert Do(s, Begin(t, cmd, message)) == With(s, t, x, s.clock);
    assert Sending(t, cmd, message, entryId)[1..] == Advances(t, entryId, 11);
    hide Do, With, Undisturbed, TransportValid, Process, TurnedAway, Advances;
    AdvancesRun(With(s, t, x, s.clock), t, entryId, 11);
    FromBeginning(s, t, cmd, message, entryId);
  }

  /** A command that is let in and new, alone. */
  function Submission(t: nat, cmd: Command, entryId: int): seq<Action> {
    Sending(t, cmd, None, entryId)
  }

  lemma SubmitAlone(s: Sys, t: nat, cmd: Command, entryId: int)
    requires Free(s, cmd) && t !in s.txns && Admissible(s.db, cmd)
    requires Process(s.db, cmd, s.clock + 1, entryId).Ok?
    ensures Run(s, Submission(t, cmd, entryId))
         == s.(db := Process(s.db, cmd, s.clock + 1, entryId).value.0, clock := s.clock + 1)
  {
    assert Undisturbed(s, t, cmd, None) && TransportValid(cmd);
    AdmissibleNew(s.db, cmd, s.clock + 1, entryId);
    NeverTurnedAway(s.inbox);
    hide Run, Process, Sending, Undisturbed, TransportValid, TurnedAway, Free, Admissible;
    SubmissionIsProcess(s, t, cmd, None, entryId);
  }

  lemma AdmissibleNew(db: Db, cmd: Command, now: Time, entryId: int)
    requires Admissible(db, cmd) && Process(db, cmd, now, entryId).Ok?
    ensures !Process(db, cmd, now, entryId).value.1.replay
  {
    hide Decide, SyncWrites, Apply, TransportValid, Precheck, CheckOwner;
  }

  // ---- A pass from beginning to end

  function PassTxn(id: TxId, row: WagerRow, stage: Stage): Txn { Txn(Resolver(id, row), stage, None) }

  predicate Unlocked(s: Sys, t: nat, id: TxId) {
    && t !in s.txns && id < |s.db.wagers| && !Claimed(s, id)
    && forall u :: u in s.txns ==> !(HoldsWallet(s.txns[u]) && WalletOf(s.txns[u].program) == s.db.wagers[id].walletId)
  }

  lemma PassAdvances(s: Sys, t: nat, id: TxId, stage: Stage, clock: Time, entryId: int)
    requires Unlocked(s, t, id) && !stage.Referenced? && (stage.Traced? ==> stage.id < |s.db.wagers|)
    ensures t !in s.txns
    ensures Do(With(s, t, PassTxn(id, s.db.wagers[id], stage), clock), Advance(t, entryId))
         == StepResolver(With(s, t, PassTxn(id, s.db.wagers[id], stage), clock), t, id, s.db.wagers[id], stage, entryId)
  {
    var s' := With(s, t, PassTxn(id, s.db.wagers[id], stage), clock);
    forall u | u in s'.txns ensures !Waits(s', t, u) {
      assert u != t ==> u in s.txns && s'.txns[u] == s.txns[u];
    }
    hide Claimed, StepResolver;
  }

  /** What a pass leaves that has read the clock and comes to this result. */
  function PassLeft(s: Sys, r: Result<Db, Error>): Sys {
    s.(db := if r.Ok? then r.value else s.db, clock := s.clock + 1)
  }

  /** What is decided about the row on this wallet comes to this. */
  function PassResult(db: Db, id: TxId, wallet: WalletRow, outcome: Outcome, now: Time, entryId: int): Result<Db, Error>
    requires id < |db.wagers|
  {
    match outcome
    case Fail(e) => Err(e)
    case _ => Ok(Apply(db, id, ResolverWrites(db.wagers[id], id, wallet, outcome, now, entryId)))
  }

  lemma PassDecided(s: Sys, t: nat, id: TxId, wallet: WalletRow, outcome: Outcome, entryId: int, n: nat)
    requires Unlocked(s, t, id) && !outcome.Fail? && n > 0
    ensures Leads(s, t, entryId, PassTxn(id, s.db.wagers[id], Decided(wallet, outcome, s.clock + 1)), s.clock + 1, n,
                  PassLeft(s, PassResult(s.db, id, wallet, outcome, s.clock + 1, entryId)))
  {
    var x := PassTxn(id, s.db.wagers[id], Decided(wallet, outcome, s.clock + 1));
    PassAdvances(s, t, id, x.stage, s.clock + 1, entryId);
    GivesUp(s, t, x, s.clock + 1);
    assert With(s, t, x, s.clock + 1).db == s.db;
    hide Do, Apply, ResolverWrites, Unlocked;
    LeadsOut(s, t, entryId, x, s.clock + 1, n, PassLeft(s, PassResult(s.db, id, wallet, outcome, s.clock + 1, entryId)));
  }

  /** The decision is held, unless it is to fail. */
  lemma PassSettles(s: Sys, t: nat, id: TxId, stage: Stage, wallet: WalletRow, outcome: Outcome, entryId: int, n: nat)
    requires Unlocked(s, t, id) && n > 1
    requires var x := PassTxn(id, s.db.wagers[id], stage);
             Do(With(s, t, x, s.clock + 1), Advance(t, entryId))
             == if outcome.Fail? then Drop(With(s, t, x, s.clock + 1), t)
                else Goto(With(s, t, x, s.clock + 1), t, Decided(wallet, outcome, s.clock + 1))
    ensures Leads(s, t, entryId, PassTxn(id, s.db.wagers[id], stage), s.clock + 1, n,
                  PassLeft(s, PassResult(s.db, id, wallet, outcome, s.clock + 1, entryId)))
  {
    var x, x' := PassTxn(id, s.db.wagers[id], stage), PassTxn(id, s.db.wagers[id], Decided(wallet, outcome, s.clock + 1));
    var end := PassLeft(s, PassResult(s.db, id, wallet, outcome, s.clock + 1, entryId));
    assert t !in s.txns && end.txns == s.txns;
    GivesUp(s, t, x, s.clock + 1);
    MovesOn(s, t, x, x'.stage, s.clock + 1, s.clock + 1);
    assert Goto(With(s, t, x, s.clock + 1), t, x'.stage).clock == s.clock + 1;
    hide Do, With, Goto, Drop, Unlocked, Leads;
    if outcome.Fail? {
      LeadsOut(s, t, entryId, x, s.clock + 1, n, end);
    } else {
      PassDecided(s, t, id, wallet, outcome, entryId, n - 1);
      LeadsOn(s, t, entryId, x, s.clock + 1, x', s.clock + 1, n, end);
    }
  }

  lemma PassTraced(s: Sys, t: nat, id: TxId, wallet: WalletRow, ref: TxId, entryId: int)
    requires Unlocked(s, t, id) && ref < |s.db.wagers|
    ensures var outcome := ResolverFinish(s.db.wagers, wallet, RequestOf(s.db.wagers[id]), ref, s.clock + 1);
            Leads(s, t, entryId, PassTxn(id, s.db.wagers[id], Traced(wallet, s.clock + 1, ref)), s.clock + 1, 2,
                  PassLeft(s, PassResult(s.db, id, wallet, outcome, s.clock + 1, entryId)))
  {
    var outcome := ResolverFinish(s.db.wagers, wallet, RequestOf(s.db.wagers[id]), ref, s.clock + 1);
    PassAdvances(s, t, id, Traced(wallet, s.clock + 1, ref), s.clock + 1, entryId);
    assert With(s, t, PassTxn(id, s.db.wagers[id], Traced(wallet, s.clock + 1, ref)), s.clock + 1).db == s.db;
    hide Do, With, Goto, Drop, Unlocked, Leads, PassResult, ResolverFinish;
    PassSettles(s, t, id, Traced(wallet, s.clock + 1, ref), wallet, outcome, entryId, 2);
  }

  lemma ReadingStep(s: Sys, t: nat, id: TxId, wallet: WalletRow, entryId: int)
    requires Unlocked(s, t, id)
    ensures var x := PassTxn(id, s.db.wagers[id], Clocked(wallet, s.clock + 1));
            match ResolverReading(s.db.wagers, RequestOf(s.db.wagers[id]))
            case Settled(outcome) =>
              Do(With(s, t, x, s.clock + 1), Advance(t, entryId))
              == if outcome.Fail? then Drop(With(s, t, x, s.clock + 1), t)
                 else Goto(With(s, t, x, s.clock + 1), t, Decided(wallet, outcome, s.clock + 1))
            case Usable(ref) =>
              Do(With(s, t, x, s.clock + 1), Advance(t, entryId))
              == With(s, t, PassTxn(id, s.db.wagers[id], Traced(wallet, s.clock + 1, ref)), s.clock + 1)
  {
    var x := PassTxn(id, s.db.wagers[id], Clocked(wallet, s.clock + 1));
    PassAdvances(s, t, id, x.stage, s.clock + 1, entryId);
    var reading := ResolverReading(s.db.wagers, RequestOf(s.db.wagers[id]));
    if reading.Usable? {
      MovesOn(s, t, x, Traced(wallet, s.clock + 1, reading.id), s.clock + 1, s.clock + 1);
    }
    hide Do, Unlocked, ResolverReading, ReadReference, RequestOf;
  }

  lemma PassClocked(s: Sys, t: nat, id: TxId, wallet: WalletRow, entryId: int)
    requires Unlocked(s, t, id) && !Expired(s.db.wagers[id], s.clock + 1)
    ensures var outcome := Resolve(s.db.wagers, wallet, s.db.wagers[id], s.clock + 1);
            Leads(s, t, entryId, PassTxn(id, s.db.wagers[id], Clocked(wallet, s.clock + 1)), s.clock + 1, 3,
                  PassLeft(s, PassResult(s.db, id, wallet, outcome, s.clock + 1, entryId)))
  {
    var row := s.db.wagers[id];
    var reading := ResolverReading(s.db.wagers, RequestOf(row));
    ResolvesNow(s.db, wallet, row, s.clock + 1);
    hide Do, With, Goto, Drop, Unlocked, Leads, PassResult, ResolverFinish, ResolverReading, ReadReference, Resolve, Expired, RequestOf;
    ReadingStep(s, t, id, wallet, entryId);
    if reading.Settled? {
      PassSettles(s, t, id, Clocked(wallet, s.clock + 1), wallet, reading.outcome, entryId, 3);
    } else {
      PassTraced(s, t, id, wallet, reading.id, entryId);
      LeadsOn(s, t, entryId, PassTxn(id, row, Clocked(wallet, s.clock + 1)), s.clock + 1,
              PassTxn(id, row, Traced(wallet, s.clock + 1, reading.id)), s.clock + 1, 3,
              PassLeft(s, PassResult(s.db, id, wallet, Resolve(s.db.wagers, wallet, row, s.clock + 1), s.clock + 1, entryId)));
    }
  }

  lemma ClockStep(s: Sys, t: nat, id: TxId, wallet: WalletRow, entryId: int)
    requires Unlocked(s, t, id)
    ensures var row := s.db.wagers[id];
            Do(With(s, t, PassTxn(id, row, Locked(wallet)), s.clock), Advance(t, entryId))
            == With(s, t, PassTxn(id, row, if Expired(row, s.clock + 1) then Decided(wallet, Refuse(REFERENCE_EXPIRED, None), s.clock + 1)
                                          else Clocked(wallet, s.clock + 1)), s.clock + 1)
  {
    var row := s.db.wagers[id];
    var x := PassTxn(id, row, Locked(wallet));
    PassAdvances(s, t, id, Locked(wallet), s.clock, entryId);
    MovesOn(s, t, x, if Expired(row, s.clock + 1) then Decided(wallet, Refuse(REFERENCE_EXPIRED, None), s.clock + 1)
                   else Clocked(wallet, s.clock + 1), s.clock, s.clock + 1);
    hide Do, Unlocked, Expired;
  }

  lemma PassLocked(s: Sys, t: nat, id: TxId, wallet: WalletRow, entryId: int)
    requires Unlocked(s, t, id)
    ensures var outcome := Resolve(s.db.wagers, wallet, s.db.wagers[id], s.clock + 1);
            Leads(s, t, entryId, PassTxn(id, s.db.wagers[id], Locked(wallet)), s.clock, 4,
                  PassLeft(s, PassResult(s.db, id, wallet, outcome, s.clock + 1, entryId)))
  {
    var row, now := s.db.wagers[id], s.clock + 1;
    var outcome := Resolve(s.db.wagers, wallet, row, now);
    var end := PassLeft(s, PassResult(s.db, id, wallet, outcome, now, entryId));
    assert Expired(row, now) ==> outcome == Refuse(REFERENCE_EXPIRED, None);
    hide Do, With, Unlocked, Leads, PassResult, PassLeft, Resolve, Expired;
    ClockStep(s, t, id, wallet, entryId);
    if Expired(row, now) {
      PassDecided(s, t, id, wallet, outcome, entryId, 3);
      LeadsOn(s, t, entryId, PassTxn(id, row, Locked(wallet)), s.clock, PassTxn(id, row, Decided(wallet, outcome, now)), now, 4, end);
    } else {
      PassClocked(s, t, id, wallet, entryId);
      LeadsOn(s, t, entryId, PassTxn(id, row, Locked(wallet)), s.clock, PassTxn(id, row, Clocked(wallet, now)), now, 4, end);
    }
  }

  lemma PassLocks(s: Sys, t: nat, id: TxId, entryId: int)
    requires Unlocked(s, t, id)
    ensures var row := s.db.wagers[id];
            Do(With(s, t, PassTxn(id, row, Stage.Waiting), s.clock), Advance(t, entryId))
            == match LockWallet(s.db, row.walletId)
               case Err(_) => s
               case Ok(wallet) => With(s, t, PassTxn(id, row, Locked(wallet)), s.clock)
  {
    var row := s.db.wagers[id];
    var x := PassTxn(id, row, Stage.Waiting);
    PassAdvances(s, t, id, Stage.Waiting, s.clock, entryId);
    GivesUp(s, t, x, s.clock);
    assert s.(clock := s.clock) == s;
    if LockWallet(s.db, row.walletId).Ok? {
      MovesOn(s, t, x, Locked(LockWallet(s.db, row.walletId).value), s.clock, s.clock);
    }
    hide Do, Unlocked, LockWallet;
  }

  function PassActions(t: nat, id: TxId, entryId: int): seq<Action> {
    [Claim(t, id)] + Advances(t, entryId, 5)
  }

  lemma NotThere(s: Sys, t: nat, id: TxId)
    requires Unlocked(s, t, id)
    ensures t !in s.txns && id < |s.db.wagers|
  {
  }

  lemma PassStarts(s: Sys, t: nat, id: TxId, entryId: int)
    requires Unlocked(s, t, id) && Due(s.db.wagers[id], s.clock)
    ensures Run(s, PassActions(t, id, entryId))
         == Advanced(With(s, t, PassTxn(id, s.db.wagers[id], Stage.Waiting), s.clock), t, entryId, 5)
  {
    var x := PassTxn(id, s.db.wagers[id], Stage.Waiting);
    assert Do(s, Claim(t, id)) == With(s, t, x, s.clock);
    assert PassActions(t, id, entryId)[1..] == Advances(t, entryId, 5);
    hide Do, With, Unlocked, Advances, Advanced, Due;
    AdvancesRun(With(s, t, x, s.clock), t, entryId, 5);
  }

  /** The resolver's turn, whole: a pass over a due row in which nobody stands in the
      way does to the tables what ResolvePass says, in every case, and ends. */
  lemma PassIsResolvePass(s: Sys, t: nat, id: TxId, entryId: int)
    requires Unlocked(s, t, id) && Due(s.db.wagers[id], s.clock)
    ensures Run(s, PassActions(t, id, entryId))
         == if LockWallet(s.db, s.db.wagers[id].walletId).Err? then s
            else PassLeft(s, ResolvePass(s.db, id, s.clock + 1, entryId))
  {
    hide *;
    NotThere(s, t, id);
    var row := s.db.wagers[id];
    var x := PassTxn(id, row, Stage.Waiting);
    var end := PassLeft(s, ResolvePass(s.db, id, s.clock + 1, entryId));
    PassStarts(s, t, id, entryId);
    PassResultIs(s.db, id, s.clock + 1, entryId);
    PassLocks(s, t, id, entryId);
    match LockWallet(s.db, row.walletId)
    case Err(_) =>
      LeadsOut(s, t, entryId, x, s.clock, 5, s);
      LeadsMeans(s, t, entryId, x, s.clock, 5, s);
    case Ok(wallet) =>
      PassLocked(s, t, id, wallet, entryId);
      LeadsOn(s, t, entryId, x, s.clock, PassTxn(id, row, Locked(wallet)), s.clock, 5, end);
      LeadsMeans(s, t, entryId, x, s.clock, 5, end);
  }

  lemma LeadsMeans(s: Sys, t: nat, entryId: int, x: Txn, clock: Time, n: nat, end: Sys)
    requires Leads(s, t, entryId, x, clock, n, end)
    ensures Advanced(With(s, t, x, clock), t, entryId, n) == end
  {
  }

  lemma PassResultIs(db: Db, id: TxId, now: Time, entryId: int)
    requires id < |db.wagers|
    ensures LockWallet(db, db.wagers[id].walletId).Ok? ==>
              var wallet := LockWallet(db, db.wagers[id].walletId).value;
              ResolvePass(db, id, now, entryId)
              == PassResult(db, id, wallet, Resolve(db.wagers, wallet, db.wagers[id], now), now, entryId)
  {
    hide Resolve, ResolverWrites, Apply;
  }

  /** A pass over a due row whose movement cannot be made leaves no trace. */
  lemma FailedPassAlone(s: Sys, t: nat, id: TxId, entryId: int)
    requires s.txns == map[] && id < |s.db.wagers| && Due(s.db.wagers[id], s.clock)
    requires LockWallet(s.db, s.db.wagers[id].walletId).Ok?
    requires Resolve(s.db.wagers, s.db.wallets[s.db.wagers[id].walletId], s.db.wagers[id], s.clock + 1).Fail?
    ensures Run(s, PassActions(t, id, entryId)) == s.(clock := s.clock + 1)
  {
    assert Unlocked(s, t, id);
    PassResultIs(s.db, id, s.clock + 1, entryId);
    hide Run, Unlocked, Due, Resolve, ResolvePass, PassActions;
    PassIsResolvePass(s, t, id, entryId);
  }
}
