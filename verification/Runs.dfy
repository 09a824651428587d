/** What holds over whole interleaved runs. */
module Runs {
  import opened Common
  import opened Amounts
  import opened Wallets
  import opened Wagers
  import opened Tables
  import opened Decisions
  import opened Invariant
  import opened Preservation
  import opened Stability
  import opened Protocol
  import opened Safety

  // ---- The balance, three ways

  /** In every state of every interleaving a wallet's stored balance is not
      negative, ends an unbroken ledger chain from zero, is the signed sum of its
      processed wager rows, and its version counts its movements. */
  lemma BalanceInEveryRun(actions: seq<Action>, w: WalletId)
    requires w in Run(START, actions).db.wallets
    ensures var db := Run(START, actions).db;
            && db.wallets[w].balance >= 0
            && Chain(LedgerOf(db.ledger, w), db.wallets[w].balance)
            && Total(db.wagers, w, |db.wagers|) == db.wallets[w].balance
            && db.wallets[w].version == 1 + Moves(db.wagers, db.ledger, w)
  {
    StartInv();
    RunInv(START, actions);
    assert WalletOk(Run(START, actions).db, w);
  }

  /** No state of any interleaving holds two processed reversals of one wager:
      the wallet lock and the check suffice, without the unique index. */
  lemma SingleReversalInEveryRun(actions: seq<Action>, i: TxId, j: TxId, id: TxId)
    requires i < |Run(START, actions).db.wagers| && j < |Run(START, actions).db.wagers|
    requires Reverses(Run(START, actions).db.wagers[i], id) && Reverses(Run(START, actions).db.wagers[j], id)
    ensures i == j
  {
    StartInv();
    RunInv(START, actions);
    var rows := Run(START, actions).db.wagers;
    var _, _ := SingleReversal(rows[i], rows[j]), SingleReversal(rows[j], rows[i]);
  }

  lemma {:induction false} RunConcat(s: Sys, xs: seq<Action>, ys: seq<Action>)
    ensures Run(s, xs + ys) == Run(Run(s, xs), ys)
    decreases |xs|
  {
    if xs == [] {
      assert xs + ys == ys;
    } else {
      assert (xs + ys)[1..] == xs[1..] + ys;
      RunConcat(Do(s, xs[0]), xs[1..], ys);
    }
  }

  // ---- Decisions at commit

  /** A row waiting for its reference, and its event: no wallet and no ledger entry. */
  function Defer(db: Db, cmd: Command, balance: Int64, now: Time): Db {
    db.(wagers := db.wagers + [PendingRow(cmd, balance, now)],
        outbox := db.outbox + [PendingEvent(|db.wagers|, cmd.request)])
  }

  /** One more retry on a row that stays pending. */
  function Reschedule(db: Db, id: TxId, now: Time): Db
    requires id < |db.wagers|
  {
    var row := db.wagers[id];
    db.(wagers := db.wagers[id := row.(attempts := row.attempts + 1,
                                      nextAttemptAt := Some(NextAttempt(row, now)), updatedAt := now)])
  }

  lemma DecideIsProcess(db: Db, cmd: Command, wallet: WalletRow, outcome: Outcome, now: Time, entryId: int)
    requires Precheck(cmd).None? && KeyFree(db.wagers, cmd) && ExternalFree(db.wagers, cmd)
    requires Holds(db, wallet, cmd.request) && ValidateWallet(wallet).None?
    requires !outcome.Fail? && outcome == Decide(db.wagers, wallet, cmd.request, now)
    ensures Process(db, cmd, now, entryId).Ok?
    ensures Process(db, cmd, now, entryId).value.0
         == Apply(db, |db.wagers|, SyncWrites(cmd, |db.wagers|, wallet, outcome, now, entryId))
  {
  }

  lemma PendingIsDefer(db: Db, cmd: Command, wallet: WalletRow, now: Time, entryId: int)
    requires Current(db, cmd.request.walletId, wallet)
    ensures Apply(db, |db.wagers|, SyncWrites(cmd, |db.wagers|, wallet, Unresolved, now, entryId))
         == Defer(db, cmd, wallet.balance, now)
  {
    assert db.ledger + [] == db.ledger;
    assert db.wallets[cmd.request.walletId := wallet] == db.wallets;
  }

  /** The request's reference ended on another wallet: the one way in which a
      deferral can be out of date. */
  predicate Stale(wagers: seq<WagerRow>, r: WagerRequest) {
    Overtaken(wagers, r)
    && wagers[FindByExternal(wagers, r.providerId, r.referenceExternalId).value].walletId != r.walletId
  }

  /** Where Process would refuse, it moves nothing either. */
  lemma StaleDefer(db: Db, cmd: Command, wallet: WalletRow, code: FailureCode, reference: Option<TxId>, now: Time, entryId: int)
    requires Current(db, cmd.request.walletId, wallet)
    ensures var refused := Apply(db, |db.wagers|, SyncWrites(cmd, |db.wagers|, wallet, Refuse(code, reference), now, entryId));
            var deferred := Defer(db, cmd, wallet.balance, now);
            && refused != deferred
            && refused.wallets == deferred.wallets == db.wallets && refused.ledger == deferred.ledger == db.ledger
            && refused.wagers == db.wagers + [InsertedRow(cmd, Rejected, reference, Some(code), wallet.balance, now)]
  {
    var refused := Apply(db, |db.wagers|, SyncWrites(cmd, |db.wagers|, wallet, Refuse(code, reference), now, entryId));
    var deferred := Defer(db, cmd, wallet.balance, now);
    assert refused.wagers[|db.wagers|].state.Rejected? && deferred.wagers[|db.wagers|].state.PendingReference?;
    assert db.ledger + [] == db.ledger;
    assert db.wallets[cmd.request.walletId := wallet] == db.wallets;
  }

  lemma DeferredNeeds(cmd: Command)
    requires Precheck(cmd).None? && NeedsReference(cmd.request)
    ensures cmd.request.referenceExternalId != ""
  {
  }

  /** At its commit a synchronous transaction does to the committed tables what
      Process, run alone on them, would do, except when it defers although its
      reference has meanwhile ended on another wallet. Process would then refuse;
      neither moves money. */
  lemma CommitIsProcess(s: Sys, t: nat, entryId: int)
    requires Inv(s) && t in s.txns && s.txns[t].program.Submit? && s.txns[t].stage.Ready?
    ensures var x := s.txns[t];
            var cmd, now := x.program.cmd, x.stage.now;
            var db', alone := Step(s, t, entryId).db, Process(s.db, cmd, now, entryId);
            && alone.Ok?
            && (db' == alone.value.0 <==> !(x.stage.outcome.Unresolved? && Overtaken(s.db.wagers, cmd.request)))
            && (db' != alone.value.0 ==>
                  && Stale(s.db.wagers, cmd.request)
                  && db' == Defer(s.db, cmd, x.stage.wallet.balance, now)
                  && alone.value.0.wallets == s.db.wallets && alone.value.0.ledger == s.db.ledger)
  {
    var cmd, stage := s.txns[t].program.cmd, s.txns[t].stage;
    var wallet, n := stage.wallet, |s.db.wagers|;
    var outcome := Decide(s.db.wagers, wallet, cmd.request, stage.now);
    assert SubmitOk(s.db, s.clock, cmd, stage) by { assert TxnOk(s.db, s.inbox, s.clock, s.txns[t]); }
    assert ValidateWallet(wallet).None? by { assert WalletOk(s.db, cmd.request.walletId); }
    assert !stage.outcome.Fail?;
    SubmitCommitStep(s, t, entryId);
    hide Inv, Step, Process, Apply, SyncWrites, Decide, ValidateWallet, NeedsReference, Precheck, Defer;
    if stage.outcome.Unresolved? {
      DeferredNeeds(cmd);
      DeferralNow(s.db.wagers, wallet, cmd.request, stage.now);
      PendingIsDefer(s.db, cmd, wallet, stage.now, entryId);
      if outcome.Refuse? {
        StaleDefer(s.db, cmd, wallet, outcome.code, outcome.reference, stage.now, entryId);
      }
    }
    DecideIsProcess(s.db, cmd, wallet, outcome, stage.now, entryId);
  }

  lemma PassIsResolve(db: Db, id: TxId, wallet: WalletRow, outcome: Outcome, now: Time, entryId: int)
    requires id < |db.wagers| && Current(db, db.wagers[id].walletId, wallet) && ValidateWallet(wallet).None?
    requires !outcome.Fail? && outcome == Resolve(db.wagers, wallet, db.wagers[id], now)
    ensures ResolvePass(db, id, now, entryId)
         == Ok(Apply(db, id, ResolverWrites(db.wagers[id], id, wallet, outcome, now, entryId)))
  {
  }

  lemma RetryIsReschedule(db: Db, id: TxId, wallet: WalletRow, now: Time, entryId: int)
    requires id < |db.wagers| && Current(db, db.wagers[id].walletId, wallet)
    ensures Apply(db, id, ResolverWrites(db.wagers[id], id, wallet, Unresolved, now, entryId)) == Reschedule(db, id, now)
  {
    assert db.ledger + [] == db.ledger && db.outbox + [] == db.outbox;
    assert db.wallets[db.wagers[id].walletId := wallet] == db.wallets;
  }

  lemma StaleRetry(db: Db, id: TxId, wallet: WalletRow, code: FailureCode, reference: Option<TxId>, now: Time, entryId: int)
    requires id < |db.wagers| && db.wagers[id].state.PendingReference? && Current(db, db.wagers[id].walletId, wallet)
    ensures var refused := Apply(db, id, ResolverWrites(db.wagers[id], id, wallet, Refuse(code, reference), now, entryId));
            && refused != Reschedule(db, id, now)
            && refused.wallets == db.wallets && refused.ledger == db.ledger
  {
    var refused := Apply(db, id, ResolverWrites(db.wagers[id], id, wallet, Refuse(code, reference), now, entryId));
    assert refused.wagers[id].state.Rejected? && Reschedule(db, id, now).wagers[id].state.PendingReference?;
    assert db.ledger + [] == db.ledger;
    assert db.wallets[db.wagers[id].walletId := wallet] == db.wallets;
  }

  lemma PendingRefers(db: Db, id: TxId)
    requires Valid(db) && id < |db.wagers| && db.wagers[id].state.PendingReference?
    ensures var row := db.wagers[id];
            && row.walletId in db.wallets && ValidateWallet(db.wallets[row.walletId]).None?
            && NeedsReference(RequestOf(row)) && Text(row.referenceExternalId) != ""
  {
    assert RowOk(db.wallets, db.wagers, db.wagers[id]) && WalletOk(db, db.wagers[id].walletId);
    hide Valid;
  }

  /** A decided pass stands on a row and a wallet that the tables hold. */
  lemma PassPlaced(s: Sys, t: nat)
    requires Inv(s) && t in s.txns && s.txns[t].program.Resolver? && s.txns[t].stage.Decided?
    ensures var id, row, stage := s.txns[t].program.id, s.txns[t].program.row, s.txns[t].stage;
            && id < |s.db.wagers| && s.db.wagers[id] == row && Due(row, stage.now)
            && Current(s.db, row.walletId, stage.wallet) && ValidateWallet(stage.wallet).None?
            && NeedsReference(RequestOf(row)) && Text(row.referenceExternalId) != ""
            && !stage.outcome.Fail? && ResolverDecision(s.db, stage.wallet, row, stage.outcome, stage.now)
  {
    TxnHolds(s, t);
    assert Valid(s.db);
    hide Inv, TxnOk, Valid, ResolverOk, Fresh, Resolve, ValidateWallet, NeedsReference, Text;
    ResolverPlaced(s.db, s.inbox, s.clock, s.txns[t]);
    PendingRefers(s.db, s.txns[t].program.id);
  }

  /** The same for the resolver. */
  lemma CommitIsResolve(s: Sys, t: nat, entryId: int)
    requires Inv(s) && t in s.txns && s.txns[t].program.Resolver? && s.txns[t].stage.Decided?
    ensures var x := s.txns[t];
            var id, now := x.program.id, x.stage.now;
            && id < |s.db.wagers| && Due(s.db.wagers[id], now)
            && var r, db', alone := RequestOf(s.db.wagers[id]), Step(s, t, entryId).db, ResolvePass(s.db, id, now, entryId);
               && alone.Ok?
               && (db' == alone.value <==> !(x.stage.outcome.Unresolved? && Overtaken(s.db.wagers, r)))
               && (db' != alone.value ==>
                     && Stale(s.db.wagers, r) && !Expired(s.db.wagers[id], now)
                     && db' == Reschedule(s.db, id, now)
                     && alone.value.wallets == s.db.wallets && alone.value.ledger == s.db.ledger)
  {
    var id, row, stage := s.txns[t].program.id, s.txns[t].program.row, s.txns[t].stage;
    var wallet := stage.wallet;
    var outcome := Resolve(s.db.wagers, wallet, row, stage.now);
    PassPlaced(s, t);
    ResolverCommitStep(s, t, entryId);
    hide Inv, Step, ResolvePass, Apply, ResolverWrites, Resolve, ValidateWallet, NeedsReference, Reschedule, Expired;
    if stage.outcome.Unresolved? {
      RetryNow(s.db.wagers, wallet, row, stage.now);
      RetryIsReschedule(s.db, id, wallet, stage.now, entryId);
      if outcome.Refuse? {
        StaleRetry(s.db, id, wallet, outcome.code, outcome.reference, stage.now, entryId);
      }
    }
    PassIsResolve(s.db, id, wallet, outcome, stage.now, entryId);
  }

  // ---- Serializability

  /** One transaction run alone, or what one leaves that deferred on a stale reading. */
  datatype Op =
    | Submitted(cmd: Command, now: Time, entryId: int)
    | Deferred(cmd: Command, balance: Int64, now: Time)
    | Passed(id: TxId, now: Time, entryId: int)
    | Retried(id: TxId, now: Time)
    | Created(walletId: WalletId, wallet: WalletRow, entryId: int)

  function Serial(db: Db, op: Op): Db {
    match op
    case Submitted(cmd, now, entryId) =>
      var r := Process(db, cmd, now, entryId);
      if r.Ok? then r.value.0 else db
    case Deferred(cmd, balance, now) => Defer(db, cmd, balance, now)
    case Passed(id, now, entryId) =>
      if id >= |db.wagers| then db
      else
        var r := ResolvePass(db, id, now, entryId);
        if r.Ok? then r.value else db
    case Retried(id, now) => if id >= |db.wagers| then db else Reschedule(db, id, now)
    case Created(walletId, wallet, entryId) =>
      if walletId in db.wallets then db
      else
        var r := Create(db, walletId, wallet.playerId, Money(wallet.balance, wallet.currency), wallet.createdAt, entryId);
        if r.Ok? then r.value else db
  }

  function SerialRun(db: Db, ops: seq<Op>): Db
    decreases |ops|
  {
    if ops == [] then db else SerialRun(Serial(db, ops[0]), ops[1..])
  }

  /** What an operation may be on the tables it meets: a whole transaction that
      succeeds there, or, if the reference has ended on another wallet and only
      then, a deferral or a retry that no longer was due. */
  predicate Allowed(db: Db, op: Op) {
    match op
    case Submitted(cmd, now, entryId) => KeyFree(db.wagers, cmd) && Process(db, cmd, now, entryId).Ok?
    case Deferred(cmd, balance, now) =>
      && KeyFree(db.wagers, cmd) && NeedsReference(cmd.request) && Stale(db.wagers, cmd.request)
      && cmd.request.walletId in db.wallets && balance == db.wallets[cmd.request.walletId].balance
    case Passed(id, now, entryId) => id < |db.wagers| && Due(db.wagers[id], now) && ResolvePass(db, id, now, entryId).Ok?
    case Retried(id, now) =>
      && id < |db.wagers| && Due(db.wagers[id], now) && !Expired(db.wagers[id], now)
      && Stale(db.wagers, RequestOf(db.wagers[id]))
    case Created(walletId, wallet, entryId) => walletId !in db.wallets
  }

  predicate AllAllowed(db: Db, ops: seq<Op>)
    decreases |ops|
  {
    ops == [] || (Allowed(db, ops[0]) && AllAllowed(Serial(db, ops[0]), ops[1..]))
  }

  /** The serial operation an action commits, if any. */
  function Committed(s: Sys, a: Action): seq<Op> {
    if !a.Advance? || a.t !in s.txns || Blocked(s, a.t) then []
    else
      var x := s.txns[a.t];
      match x.program
      case Submit(_, _) => if x.stage.Ready? then [SubmitOp(s.db, x, a.entryId)] else []
      case Resolver(_, _) => if x.stage.Decided? then [ResolverOp(s.db, x, a.entryId)] else []
      case Creator(walletId, wallet) =>
        if x.stage.Inserted? then [Created(walletId, wallet, a.entryId)] else []
  }

  function History(s: Sys, actions: seq<Action>): seq<Op>
    decreases |actions|
  {
    if actions == [] then [] else Committed(s, actions[0]) + History(Do(s, actions[0]), actions[1..])
  }

  /** The action commits just these operations, allowed where they fall. */
  predicate CommitsAs(s: Sys, a: Action, ops: seq<Op>) {
    Do(s, a).db == SerialRun(s.db, ops) && AllAllowed(s.db, ops)
  }

  lemma CommitsOne(s: Sys, a: Action, op: Op)
    requires Do(s, a).db == Serial(s.db, op) && Allowed(s.db, op)
    ensures CommitsAs(s, a, [op])
  {
    hide Do, Serial, Allowed;
    var db' := Serial(s.db, op);
    assert [op][1..] == [] && SerialRun(db', []) == db' && AllAllowed(db', []);
  }

  lemma CommitsNone(s: Sys, a: Action)
    requires Do(s, a).db == s.db
    ensures CommitsAs(s, a, [])
  {
  }

  lemma AdvanceIsStep(s: Sys, t: nat, entryId: int)
    requires t in s.txns && !Blocked(s, t)
    ensures Do(s, Advance(t, entryId)) == Step(s, t, entryId)
  {
    hide Blocked, Step;
  }

  /** The operation a ready submission commits. */
  function SubmitOp(db: Db, x: Txn, entryId: int): Op
    requires x.program.Submit? && x.stage.Ready?
  {
    if x.stage.outcome.Unresolved? && Overtaken(db.wagers, x.program.cmd.request)
    then Deferred(x.program.cmd, x.stage.wallet.balance, x.stage.now)
    else Submitted(x.program.cmd, x.stage.now, entryId)
  }

  function ResolverOp(db: Db, x: Txn, entryId: int): Op
    requires x.program.Resolver? && x.stage.Decided?
  {
    if x.stage.outcome.Unresolved? && Overtaken(db.wagers, RequestOf(x.program.row))
    then Retried(x.program.id, x.stage.now)
    else Passed(x.program.id, x.stage.now, entryId)
  }

  lemma ReadySubmit(db: Db, inbox: map<string, InboxRow>, clock: Time, x: Txn)
    requires TxnOk(db, inbox, clock, x) && x.program.Submit? && x.stage.Ready?
    ensures !x.stage.outcome.Fail?
    ensures KeyFree(db.wagers, x.program.cmd) && Current(db, x.program.cmd.request.walletId, x.stage.wallet)
    ensures x.stage.outcome.Unresolved? ==> NeedsReference(x.program.cmd.request)
    ensures x.program.message.Some? ==>
              x.own == Some(InboxRow(x.program.message.value.body, true)) && MessageOpen(inbox, x.program.message.value)
  {
    hide Decide, Deferrable, Precheck, Fresh, NeedsReference, MessageOpen;
  }

  lemma DecidedResolver(db: Db, inbox: map<string, InboxRow>, clock: Time, x: Txn)
    requires TxnOk(db, inbox, clock, x) && x.program.Resolver?
    ensures x.program.id < |db.wagers| && db.wagers[x.program.id] == x.program.row
  {
    hide ResolverDecision, Fresh, Due;
  }

  lemma SubmittedOp(db: Db, cmd: Command, now: Time, entryId: int)
    requires KeyFree(db.wagers, cmd) && Process(db, cmd, now, entryId).Ok?
    ensures Serial(db, Submitted(cmd, now, entryId)) == Process(db, cmd, now, entryId).value.0
    ensures Allowed(db, Submitted(cmd, now, entryId))
  {
    hide Process;
  }

  lemma DeferredOp(db: Db, cmd: Command, wallet: WalletRow, now: Time)
    requires KeyFree(db.wagers, cmd) && NeedsReference(cmd.request) && Stale(db.wagers, cmd.request)
    requires Current(db, cmd.request.walletId, wallet)
    ensures Serial(db, Deferred(cmd, wallet.balance, now)) == Defer(db, cmd, wallet.balance, now)
    ensures Allowed(db, Deferred(cmd, wallet.balance, now))
  {
    hide Defer, Stale, NeedsReference;
  }

  lemma PassedOp(db: Db, id: TxId, now: Time, entryId: int)
    requires id < |db.wagers| && Due(db.wagers[id], now) && ResolvePass(db, id, now, entryId).Ok?
    ensures Serial(db, Passed(id, now, entryId)) == ResolvePass(db, id, now, entryId).value
    ensures Allowed(db, Passed(id, now, entryId))
  {
    hide ResolvePass, Due;
  }

  lemma RetriedOp(db: Db, id: TxId, now: Time)
    requires id < |db.wagers| && Due(db.wagers[id], now) && !Expired(db.wagers[id], now)
    requires Stale(db.wagers, RequestOf(db.wagers[id]))
    ensures Serial(db, Retried(id, now)) == Reschedule(db, id, now)
    ensures Allowed(db, Retried(id, now))
  {
    hide Reschedule, Due, Stale;
  }

  lemma SubmitCommits(s: Sys, t: nat, entryId: int)
    requires Inv(s) && t in s.txns && s.txns[t].program.Submit? && s.txns[t].stage.Ready?
    ensures var op := SubmitOp(s.db, s.txns[t], entryId);
            Step(s, t, entryId).db == Serial(s.db, op) && Allowed(s.db, op)
  {
    hide *;
    TxnHolds(s, t);
    ReadySubmit(s.db, s.inbox, s.clock, s.txns[t]);
    CommitIsProcess(s, t, entryId);
    SubmitOpIs(s.db, s.txns[t], entryId);
    var cmd, stage := s.txns[t].program.cmd, s.txns[t].stage;
    if stage.outcome.Unresolved? && Overtaken(s.db.wagers, cmd.request) {
      DeferredOp(s.db, cmd, stage.wallet, stage.now);
    } else {
      SubmittedOp(s.db, cmd, stage.now, entryId);
    }
  }

  lemma SubmitOpIs(db: Db, x: Txn, entryId: int)
    requires x.program.Submit? && x.stage.Ready?
    ensures SubmitOp(db, x, entryId)
         == if x.stage.outcome.Unresolved? && Overtaken(db.wagers, x.program.cmd.request)
            then Deferred(x.program.cmd, x.stage.wallet.balance, x.stage.now)
            else Submitted(x.program.cmd, x.stage.now, entryId)
  {
  }

  lemma ResolverOpIs(db: Db, x: Txn, entryId: int)
    requires x.program.Resolver? && x.stage.Decided?
    ensures ResolverOp(db, x, entryId)
         == if x.stage.outcome.Unresolved? && Overtaken(db.wagers, RequestOf(x.program.row))
            then Retried(x.program.id, x.stage.now)
            else Passed(x.program.id, x.stage.now, entryId)
  {
  }

  lemma ResolverCommits(s: Sys, t: nat, entryId: int)
    requires Inv(s) && t in s.txns && s.txns[t].program.Resolver? && s.txns[t].stage.Decided?
    ensures var op := ResolverOp(s.db, s.txns[t], entryId);
            Step(s, t, entryId).db == Serial(s.db, op) && Allowed(s.db, op)
  {
    hide *;
    TxnHolds(s, t);
    DecidedResolver(s.db, s.inbox, s.clock, s.txns[t]);
    CommitIsResolve(s, t, entryId);
    ResolverOpIs(s.db, s.txns[t], entryId);
    var id, stage := s.txns[t].program.id, s.txns[t].stage;
    if stage.outcome.Unresolved? && Overtaken(s.db.wagers, RequestOf(s.db.wagers[id])) {
      RetriedOp(s.db, id, stage.now);
    } else {
      PassedOp(s.db, id, stage.now, entryId);
    }
  }

  lemma SubmitSerial(s: Sys, t: nat, entryId: int)
    requires Inv(s) && t in s.txns && !Blocked(s, t) && s.txns[t].program.Submit?
    ensures CommitsAs(s, Advance(t, entryId), Committed(s, Advance(t, entryId)))
  {
    var a := Advance(t, entryId);
    hide Inv, Do, Step, Blocked, CommitsAs, SubmitOp, Allowed, Serial;
    AdvanceIsStep(s, t, entryId);
    if s.txns[t].stage.Ready? {
      SubmitCommits(s, t, entryId);
      CommitsOne(s, a, SubmitOp(s.db, s.txns[t], entryId));
    } else {
      OnlyCommits(s, t, entryId);
      CommitsNone(s, a);
    }
  }

  lemma ResolverSerial(s: Sys, t: nat, entryId: int)
    requires Inv(s) && t in s.txns && !Blocked(s, t) && s.txns[t].program.Resolver?
    ensures CommitsAs(s, Advance(t, entryId), Committed(s, Advance(t, entryId)))
  {
    var a := Advance(t, entryId);
    hide Inv, Do, Step, Blocked, CommitsAs, ResolverOp, Allowed, Serial;
    AdvanceIsStep(s, t, entryId);
    if s.txns[t].stage.Decided? {
      ResolverCommits(s, t, entryId);
      CommitsOne(s, a, ResolverOp(s.db, s.txns[t], entryId));
    } else {
      OnlyCommits(s, t, entryId);
      CommitsNone(s, a);
    }
  }

  lemma InsertedIsCreated(s: Sys, t: nat, entryId: int)
    requires t in s.txns && s.txns[t].program.Creator? && s.txns[t].stage.Inserted?
    requires s.txns[t].program.walletId !in s.db.wallets
    ensures var p := s.txns[t].program; Step(s, t, entryId).db == Serial(s.db, Created(p.walletId, p.wallet, entryId))
  {
    hide Create;
  }

  lemma CreatorSerial(s: Sys, t: nat, entryId: int)
    requires Inv(s) && t in s.txns && !Blocked(s, t) && s.txns[t].program.Creator?
    ensures CommitsAs(s, Advance(t, entryId), Committed(s, Advance(t, entryId)))
  {
    var a, p := Advance(t, entryId), s.txns[t].program;
    TxnHolds(s, t);
    assert p.walletId !in s.db.wallets;
    assert Allowed(s.db, Created(p.walletId, p.wallet, entryId));
    hide Inv, TxnOk, Do, Blocked, Step, Serial, Allowed, CommitsAs;
    AdvanceIsStep(s, t, entryId);
    if s.txns[t].stage.Inserted? {
      InsertedIsCreated(s, t, entryId);
      CommitsOne(s, a, Created(p.walletId, p.wallet, entryId));
    } else {
      OnlyCommits(s, t, entryId);
      CommitsNone(s, a);
    }
  }

  lemma DoSerial(s: Sys, a: Action)
    requires Inv(s)
    ensures CommitsAs(s, a, Committed(s, a))
  {
    if a.Advance? && a.t in s.txns && !Blocked(s, a.t) {
      hide Inv, Blocked, Do, Committed, Serial, CommitsAs;
      match s.txns[a.t].program
      case Submit(_, _) => SubmitSerial(s, a.t, a.entryId);
      case Resolver(_, _) => ResolverSerial(s, a.t, a.entryId);
      case Creator(_, _) => CreatorSerial(s, a.t, a.entryId);
    } else {
      hide CommitsAs;
      CommitsNone(s, a);
    }
  }

  lemma {:induction false} SerialConcat(db: Db, xs: seq<Op>, ys: seq<Op>)
    ensures SerialRun(db, xs + ys) == SerialRun(SerialRun(db, xs), ys)
    ensures AllAllowed(db, xs + ys) <==> AllAllowed(db, xs) && AllAllowed(SerialRun(db, xs), ys)
    decreases |xs|
  {
    hide Serial, Allowed;
    if xs == [] {
      assert xs + ys == ys;
    } else {
      assert (xs + ys)[1..] == xs[1..] + ys;
      SerialConcat(Serial(db, xs[0]), xs[1..], ys);
    }
  }

  /** Every interleaving is serializable in commit order: its committed tables are
      those of a run of operations, one after another, each a whole transaction,
      save deferrals and retries whose reference has ended on another wallet. */
  lemma {:induction false} Serializable(s: Sys, actions: seq<Action>)
    requires Inv(s)
    ensures Run(s, actions).db == SerialRun(s.db, History(s, actions))
    ensures AllAllowed(s.db, History(s, actions))
    decreases |actions|
  {
    hide Inv, Do, Committed, Serial, Allowed;
    if actions != [] {
      DoInv(s, actions[0]);
      DoSerial(s, actions[0]);
      Serializable(Do(s, actions[0]), actions[1..]);
      SerialConcat(s.db, Committed(s, actions[0]), History(Do(s, actions[0]), actions[1..]));
    }
  }

  // ---- What never changes again

  /** Tables only grow; identities and terminal rows are frozen. */
  predicate Grows(db: Db, db': Db) {
    && |db.wagers| <= |db'.wagers|
    && (forall i :: 0 <= i < |db.wagers| ==> SameIdentity(db.wagers[i], db'.wagers[i]))
    && (forall i :: 0 <= i < |db.wagers| && Terminal(db.wagers[i].state) ==> db'.wagers[i] == db.wagers[i])
    && db.ledger <= db'.ledger
    && db.outbox <= db'.outbox
    && db.wallets.Keys <= db'.wallets.Keys
  }

  lemma SoundGrows(db: Db, id: TxId, w: Writes)
    requires Sound(db, id, w)
    ensures Grows(db, Apply(db, id, w))
  {
  }

  /** Nothing but a commit touches the tables. */
  lemma OnlyCommits(s: Sys, t: nat, entryId: int)
    requires t in s.txns && (!Commits(s.txns[t]) || s.txns[t].stage.Replaying?)
    ensures Step(s, t, entryId).db == s.db
  {
  }

  lemma CreatorGrows(s: Sys, t: nat, entryId: int)
    requires t in s.txns && TxnOk(s.db, s.inbox, s.clock, s.txns[t])
    requires s.txns[t].program.Creator? && s.txns[t].stage.Inserted?
    ensures Grows(s.db, Step(s, t, entryId).db)
  {
    hide Step;
    CreatorStep(s, t, entryId);
  }

  lemma SubmitGrows(s: Sys, t: nat, entryId: int)
    requires Inv(s) && t in s.txns && s.txns[t].program.Submit? && s.txns[t].stage.Ready?
    ensures Grows(s.db, Step(s, t, entryId).db)
  {
    var x := s.txns[t];
    SubmitCommittable(s, t, entryId);
    SubmitCommitStep(s, t, entryId);
    hide Inv, Sound, Grows, Step, Apply, SyncWrites;
    SoundGrows(s.db, |s.db.wagers|,
               SyncWrites(x.program.cmd, |s.db.wagers|, x.stage.wallet, x.stage.outcome, x.stage.now, entryId));
  }

  lemma ResolverGrows(s: Sys, t: nat, entryId: int)
    requires Inv(s) && t in s.txns && s.txns[t].program.Resolver? && s.txns[t].stage.Decided?
    ensures Grows(s.db, Step(s, t, entryId).db)
  {
    var x := s.txns[t];
    ResolverCommittable(s, t, entryId);
    ResolverCommitStep(s, t, entryId);
    hide Inv, Sound, Grows, Step, Apply, ResolverWrites;
    SoundGrows(s.db, x.program.id,
               ResolverWrites(x.program.row, x.program.id, x.stage.wallet, x.stage.outcome, x.stage.now, entryId));
  }

  lemma StepGrows(s: Sys, t: nat, entryId: int)
    requires Inv(s) && t in s.txns
    ensures Grows(s.db, Step(s, t, entryId).db)
  {
    var x := s.txns[t];
    if !Commits(x) || x.stage.Replaying? {
      hide Inv, Step;
      OnlyCommits(s, t, entryId);
    } else {
      assert TxnOk(s.db, s.inbox, s.clock, x);
      hide Inv, TxnOk, Grows, Step;
      match x.program
      case Submit(_, _) => SubmitGrows(s, t, entryId);
      case Resolver(_, _) => ResolverGrows(s, t, entryId);
      case Creator(_, _) => CreatorGrows(s, t, entryId);
    }
  }

  lemma GrowsTransitive(a: Db, b: Db, c: Db)
    requires Grows(a, b) && Grows(b, c)
    ensures Grows(a, c)
  {
    assert forall i :: 0 <= i < |a.wagers| ==> SameIdentity(a.wagers[i], b.wagers[i]);
  }

  lemma DoGrows(s: Sys, a: Action)
    requires Inv(s)
    ensures Grows(s.db, Do(s, a).db)
  {
    hide Inv, Step;
    if a.Advance? && a.t in s.txns && !Blocked(s, a.t) {
      StepGrows(s, a.t, a.entryId);
    }
  }

  /** Over any run: terminal rows are absorbing and every table is append-only
      apart from pending rows. */
  lemma {:induction false} RunGrows(s: Sys, actions: seq<Action>)
    requires Inv(s)
    ensures Grows(s.db, Run(s, actions).db)
    decreases |actions|
  {
    hide Inv, Do;
    if actions != [] {
      DoInv(s, actions[0]);
      DoGrows(s, actions[0]);
      RunGrows(Do(s, actions[0]), actions[1..]);
      GrowsTransitive(s.db, Do(s, actions[0]).db, Run(s, actions).db);
    }
  }

  lemma KeyGrows(db: Db, db': Db, providerId: string, key: string)
    requires Grows(db, db') && FindByKey(db.wagers, providerId, key).Some?
    ensures FindByKey(db'.wagers, providerId, key) == FindByKey(db.wagers, providerId, key)
  {
    var was := FindByKey(db.wagers, providerId, key).value;
    assert forall i :: 0 <= i < |db.wagers| ==> SameIdentity(db.wagers[i], db'.wagers[i]);
    assert HasKey(db'.wagers[was], providerId, key);
    assert forall i :: 0 <= i < was ==> !HasKey(db'.wagers[i], providerId, key);
  }

  /** A replay names the same wager for ever; once its result is terminal every
      later replay returns that result; a key used for another payload stays a
      conflict. */
  lemma ReplayForever(s: Sys, actions: seq<Action>, cmd: Command)
    requires Inv(s) && FindReplay(s.db.wagers, cmd) != Ok(None)
    ensures var was, now := FindReplay(s.db.wagers, cmd), FindReplay(Run(s, actions).db.wagers, cmd);
            match was
            case Err(e) => now == Err(e)
            case Ok(result) =>
              && now.Ok? && now.value.Some? && now.value.value.txId == result.value.txId
              && (Terminal(result.value.state) ==> now == was)
  {
    RunGrows(s, actions);
    hide Inv, Run;
    KeyGrows(s.db, Run(s, actions).db, cmd.request.providerId, cmd.idempotencyKey);
  }

  // ---- One effect per key and per message

  /** How often, in a run, a transaction of the given kind changed the tables. */
  function Effects(s: Sys, actions: seq<Action>, who: Txn -> bool): nat
    decreases |actions|
  {
    if actions == [] then 0
    else
      var a := actions[0];
      (if a.Advance? && a.t in s.txns && who(s.txns[a.t]) && Do(s, a).db != s.db then 1 else 0)
      + Effects(Do(s, a), actions[1..], who)
  }

  predicate UsesKey(x: Txn, providerId: string, key: string) {
    x.program.Submit? && x.program.cmd.request.providerId == providerId && x.program.cmd.idempotencyKey == key
  }

  predicate Carries(x: Txn, message: string) {
    x.program.Submit? && x.program.message.Some? && x.program.message.value.id == message
  }

  lemma ReadyStep(s: Sys, t: nat, entryId: int)
    requires Inv(s) && t in s.txns && s.txns[t].program.Submit? && s.txns[t].stage.Ready?
    ensures var cmd, message := s.txns[t].program.cmd, s.txns[t].program.message;
            var s' := Step(s, t, entryId);
            && KeyFree(s.db.wagers, cmd)
            && |s'.db.wagers| == |s.db.wagers| + 1
            && HasKey(s'.db.wagers[|s.db.wagers|], cmd.request.providerId, cmd.idempotencyKey)
            && (message.Some? ==> message.value.id !in s.inbox && message.value.id in s'.inbox)
  {
    var x := s.txns[t];
    TxnHolds(s, t);
    assert InboxComplete(s.inbox);
    hide Inv, TxnOk, Step;
    ReadySubmit(s.db, s.inbox, s.clock, x);
    SubmitCommitStep(s, t, entryId);
    InsertedHasKey(x.program.cmd, |s.db.wagers|, x.stage.wallet, x.stage.outcome, x.stage.now, entryId);
    hide SyncWrites, KeyFree;
  }

  lemma SubmitChange(s: Sys, t: nat, entryId: int)
    requires Inv(s) && t in s.txns && s.txns[t].program.Submit?
    requires Do(s, Advance(t, entryId)).db != s.db
    ensures var cmd := s.txns[t].program.cmd;
            && FindByKey(s.db.wagers, cmd.request.providerId, cmd.idempotencyKey).None?
            && FindByKey(Do(s, Advance(t, entryId)).db.wagers, cmd.request.providerId, cmd.idempotencyKey).Some?
    ensures var m := s.txns[t].program.message;
            m.Some? ==> m.value.id !in s.inbox && m.value.id in Do(s, Advance(t, entryId)).inbox
  {
    var cmd := s.txns[t].program.cmd;
    assert !Blocked(s, t);
    hide Inv, Step, Blocked, Do;
    AdvanceIsStep(s, t, entryId);
    if s.txns[t].stage.Ready? {
      ReadyStep(s, t, entryId);
      FindsKey(Step(s, t, entryId).db.wagers, |s.db.wagers|, cmd.request.providerId, cmd.idempotencyKey);
    } else {
      OnlyCommits(s, t, entryId);
    }
  }

  lemma FindsKey(wagers: seq<WagerRow>, i: nat, providerId: string, key: string)
    requires i < |wagers| && HasKey(wagers[i], providerId, key)
    ensures FindByKey(wagers, providerId, key).Some?
  {
  }

  /** A pass that refuses ends the row for good: whatever the reason, nothing moves,
      no later pass takes the row up, and its command is told the refusal, with the
      balance of that moment, whenever it is sent again. */
  lemma RefusalStands(db: Db, id: TxId, code: FailureCode, reference: Option<TxId>, now: Time, entryId: int, cmd: Command)
    requires Valid(db) && id < |db.wagers| && db.wagers[id].state.PendingReference?
    requires reference.Some? ==> reference.value < |db.wagers|
    requires FindByKey(db.wagers, cmd.request.providerId, cmd.idempotencyKey) == Some(id)
    requires db.wagers[id].payloadHash == Some(PayloadHash(cmd.request))
    ensures var wallet := db.wallets[db.wagers[id].walletId];
            var db' := Apply(db, id, ResolverWrites(db.wagers[id], id, wallet, Refuse(code, reference), now, entryId));
            && Valid(db') && db'.wallets == db.wallets && db'.ledger == db.ledger
            && (forall later: Time :: !Due(db'.wagers[id], later))
            && FindReplay(db'.wagers, cmd)
               == Ok(Some(ProcessResult(id, Rejected, Money(wallet.balance, wallet.currency), true, Some(code))))
  {
    var wallet := db.wallets[db.wagers[id].walletId];
    var w := ResolverWrites(db.wagers[id], id, wallet, Refuse(code, reference), now, entryId);
    assert RowOk(db.wallets, db.wagers, db.wagers[id]) && WalletOk(db, db.wagers[id].walletId);
    ResolverRefuseSound(db, id, wallet, code, reference, now, entryId);
    SoundApply(db, id, w);
    assert db.wallets[w.row.walletId := w.wallet] == db.wallets && db.ledger + [] == db.ledger;
    hide Valid, Sound, RowOk, WalletOk;
    KeyPut(db.wagers, id, w.row, cmd);
  }

  lemma KeyPut(wagers: seq<WagerRow>, id: TxId, row: WagerRow, cmd: Command)
    requires id < |wagers| && SameIdentity(wagers[id], row)
    requires FindByKey(wagers, cmd.request.providerId, cmd.idempotencyKey) == Some(id)
    ensures FindByKey(Put(wagers, id, row), cmd.request.providerId, cmd.idempotencyKey) == Some(id)
  {
    var p, k := cmd.request.providerId, cmd.idempotencyKey;
    assert HasKey(Put(wagers, id, row)[id], p, k);
    assert forall i :: 0 <= i < id ==> Put(wagers, id, row)[i] == wagers[i];
  }

  lemma InsertedHasKey(cmd: Command, id: TxId, wallet: WalletRow, outcome: Outcome, now: Time, entryId: int)
    requires !outcome.Fail?
    ensures HasKey(SyncWrites(cmd, id, wallet, outcome, now, entryId).row, cmd.request.providerId, cmd.idempotencyKey)
  {
  }

  /** However often one key is submitted, by however many concurrent transactions,
      over either channel and with whatever payloads, at most one changes the tables. */
  lemma {:induction false} OneEffectPerKey(s: Sys, actions: seq<Action>, providerId: string, key: string)
    requires Inv(s)
    ensures Effects(s, actions, (x: Txn) => UsesKey(x, providerId, key))
         <= if FindByKey(s.db.wagers, providerId, key).None? then 1 else 0
    decreases |actions|
  {
    hide Inv, Do;
    if actions != [] {
      var a := actions[0];
      DoInv(s, a);
      DoGrows(s, a);
      OneEffectPerKey(Do(s, a), actions[1..], providerId, key);
      if a.Advance? && a.t in s.txns && UsesKey(s.txns[a.t], providerId, key) && Do(s, a).db != s.db {
        SubmitChange(s, a.t, a.entryId);
      }
      if FindByKey(s.db.wagers, providerId, key).Some? {
        KeyGrows(s.db, Do(s, a).db, providerId, key);
      }
    }
  }

  lemma InboxGrows(s: Sys, a: Action, message: string)
    requires message in s.inbox
    ensures message in Do(s, a).inbox
  {
  }

  /** However often a message is delivered, at most one delivery changes the tables. */
  lemma {:induction false} OneEffectPerMessage(s: Sys, actions: seq<Action>, message: string)
    requires Inv(s)
    ensures Effects(s, actions, (x: Txn) => Carries(x, message)) <= if message in s.inbox then 0 else 1
    decreases |actions|
  {
    hide Inv, Do;
    if actions != [] {
      var a := actions[0];
      DoInv(s, a);
      OneEffectPerMessage(Do(s, a), actions[1..], message);
      if a.Advance? && a.t in s.txns && Carries(s.txns[a.t], message) && Do(s, a).db != s.db {
        SubmitChange(s, a.t, a.entryId);
      }
      if message in s.inbox {
        InboxGrows(s, a, message);
      }
    }
  }

  // ---- Waiting

  /** Resources are taken in one order: message, wallet, external identity, key. */
  function Rank(stage: Stage): nat {
    match stage
    case Registering => 0
    case Starting | Waiting => 1
    case Identified(_, _, _) => 3
    case Completing(_, _, _) | Ready(_, _, _) | Recalled | Replaying | Inserted => 4
    case _ => 2
  }

  lemma WaitsClimb(s: Sys, t: nat, u: nat)
    requires Waits(s, t, u)
    ensures Rank(s.txns[t].stage) < Rank(s.txns[u].stage)
  {
  }

  /** From every transaction the chain of waits leads to one that can run. */
  lemma {:induction false} NoDeadlock(s: Sys, t: nat) returns (u: nat)
    requires t in s.txns
    ensures u in s.txns && !Blocked(s, u)
    decreases 4 - Rank(s.txns[t].stage)
  {
    if Blocked(s, t) {
      var v :| v in s.txns && Waits(s, t, v);
      WaitsClimb(s, t, v);
      u := NoDeadlock(s, v);
    } else {
      u := t;
    }
  }

  function Position(stage: Stage): (p: nat)
    ensures p <= 11
  {
    match stage
    case Registering => 0
    case Starting => 1
    case Waiting => 2
    case Locked(_) => 3
    case Unmatched(_) | Clocked(_, _) => 4
    case Admitted(_) | Traced(_, _, _) => 5
    case Referenced(_, _) => 6
    case Decided(_, _, _) => 7
    case Identified(_, _, _) => 8
    case Completing(_, _, _) => 9
    case Ready(_, _, _) | Recalled => 10
    case Replaying | Inserted => 11
  }

  predicate Closer(s: Sys, s': Sys, t: nat)
    requires t in s.txns
  {
    t in s'.txns ==> Position(s.txns[t].stage) < Position(s'.txns[t].stage)
  }

  lemma SubmitEarlyCloser(s: Sys, t: nat, entryId: int)
    requires t in s.txns && s.txns[t].program.Submit? && TxnOk(s.db, s.inbox, s.clock, s.txns[t])
    requires Early(s.txns[t].stage)
    ensures Closer(s, Step(s, t, entryId), t)
  {
    hide FindReplay, Precheck, LockWallet, CheckOwner, TransportValid;
  }

  lemma SubmitDecidesCloser(s: Sys, t: nat, entryId: int)
    requires t in s.txns && s.txns[t].program.Submit? && TxnOk(s.db, s.inbox, s.clock, s.txns[t])
    requires s.txns[t].stage.Admitted? || s.txns[t].stage.Referenced?
    ensures Closer(s, Step(s, t, entryId), t)
  {
    hide Decide, Move, ReadReference, Finish, NeedsReference, Holds, Precheck, TransportValid;
  }

  lemma SubmitLateCloser(s: Sys, t: nat, entryId: int)
    requires t in s.txns && s.txns[t].program.Submit? && TxnOk(s.db, s.inbox, s.clock, s.txns[t])
    requires !Early(s.txns[t].stage) && !s.txns[t].stage.Admitted? && !s.txns[t].stage.Referenced?
    ensures Closer(s, Step(s, t, entryId), t)
  {
    hide SyncWrites, Apply, Enter, SubmitDecision, Holds, Precheck, Fresh, TransportValid;
  }

  lemma SubmitCloser(s: Sys, t: nat, entryId: int)
    requires t in s.txns && s.txns[t].program.Submit? && TxnOk(s.db, s.inbox, s.clock, s.txns[t])
    ensures Closer(s, Step(s, t, entryId), t)
  {
    hide Step, TxnOk, Closer;
    if Early(s.txns[t].stage) {
      SubmitEarlyCloser(s, t, entryId);
    } else if s.txns[t].stage.Admitted? || s.txns[t].stage.Referenced? {
      SubmitDecidesCloser(s, t, entryId);
    } else {
      SubmitLateCloser(s, t, entryId);
    }
  }

  lemma ResolverCloser(s: Sys, t: nat, entryId: int)
    requires t in s.txns && s.txns[t].program.Resolver? && TxnOk(s.db, s.inbox, s.clock, s.txns[t])
    ensures Closer(s, Step(s, t, entryId), t)
  {
  }

  lemma CreatorCloser(s: Sys, t: nat, entryId: int)
    requires t in s.txns && s.txns[t].program.Creator? && TxnOk(s.db, s.inbox, s.clock, s.txns[t])
    ensures Closer(s, Step(s, t, entryId), t)
  {
  }

  /** A transaction that can run finishes or comes strictly closer to finishing:
      none takes more than twelve statements. */
  lemma Progress(s: Sys, t: nat, entryId: int)
    requires Inv(s) && t in s.txns && !Blocked(s, t)
    ensures Closer(s, Do(s, Advance(t, entryId)), t)
  {
    assert TxnOk(s.db, s.inbox, s.clock, s.txns[t]);
    hide Inv, TxnOk, Step, Blocked, Closer;
    match s.txns[t].program
    case Submit(_, _) => SubmitCloser(s, t, entryId);
    case Resolver(_, _) => ResolverCloser(s, t, entryId);
    case Creator(_, _) => CreatorCloser(s, t, entryId);
  }
}
