/** Safety of every interleaving. */
module Safety {
  import opened Common
  import opened Amounts
  import opened Wallets
  import opened Wagers
  import opened Tables
  import opened Decisions
  import opened Invariant
  import opened Preservation
  import opened Stability
  import opened Protocol

  // ---- Ledger times

  /** Every entry of the wallet is older than now. */
  predicate After(ledger: seq<LedgerEntry>, w: WalletId, now: Time) {
    forall j :: 0 <= j < |ledger| && ledger[j].walletId == w ==> ledger[j].createdAt < now
  }

  /** Commit order is creation order, wallet by wallet. */
  predicate Timed(ledger: seq<LedgerEntry>) {
    forall i, j :: 0 <= i < j < |ledger| && ledger[i].walletId == ledger[j].walletId ==>
      ledger[i].createdAt < ledger[j].createdAt
  }

  predicate Past(ledger: seq<LedgerEntry>, clock: Time) {
    forall j :: 0 <= j < |ledger| ==> ledger[j].createdAt <= clock
  }

  // ---- What each transaction may rely on

  predicate Current(db: Db, w: WalletId, wallet: WalletRow) {
    w in db.wallets && db.wallets[w] == wallet
  }

  predicate Fresh(db: Db, clock: Time, w: WalletId, now: Time) {
    now <= clock && After(db.ledger, w, now)
  }

  /** A decision to move or to refuse is the one the committed tables call for
      now; an unresolved reference may since have been settled, on another wallet. */
  predicate SubmitDecision(db: Db, wallet: WalletRow, r: WagerRequest, outcome: Outcome, now: Time) {
    if outcome.Unresolved? then NeedsReference(r) && Deferrable(db.wagers, r)
    else !outcome.Fail? && outcome == Decide(db.wagers, wallet, r, now)
  }

  predicate ResolverDecision(db: Db, wallet: WalletRow, row: WagerRow, outcome: Outcome, now: Time) {
    if outcome.Unresolved? then !Expired(row, now) && Deferrable(db.wagers, RequestOf(row))
    else !outcome.Fail? && outcome == Resolve(db.wagers, wallet, row, now)
  }

  predicate ExternalFree(wagers: seq<WagerRow>, cmd: Command) {
    FindByExternal(wagers, cmd.request.providerId, cmd.request.externalId).None?
  }

  predicate KeyFree(wagers: seq<WagerRow>, cmd: Command) {
    FindByKey(wagers, cmd.request.providerId, cmd.idempotencyKey).None?
  }

  predicate SubmitOk(db: Db, clock: Time, cmd: Command, stage: Stage) {
    var r := cmd.request;
    match stage
    case Registering | Starting | Recalled | Replaying => true
    case Waiting => Precheck(cmd).None?
    case Locked(wallet) => Precheck(cmd).None? && Current(db, r.walletId, wallet)
    case Unmatched(wallet) => Precheck(cmd).None? && Current(db, r.walletId, wallet)
    case Admitted(wallet) => Precheck(cmd).None? && Holds(db, wallet, r)
    case Referenced(wallet, id) =>
      Precheck(cmd).None? && Holds(db, wallet, r) && NeedsReference(r) && ReadReference(db.wagers, r) == Usable(id)
    case Decided(wallet, outcome, now) =>
      && Precheck(cmd).None? && Holds(db, wallet, r)
      && SubmitDecision(db, wallet, r, outcome, now) && Fresh(db, clock, r.walletId, now)
    case Identified(wallet, outcome, now) =>
      && Precheck(cmd).None? && Holds(db, wallet, r)
      && SubmitDecision(db, wallet, r, outcome, now) && Fresh(db, clock, r.walletId, now)
      && ExternalFree(db.wagers, cmd)
    case Completing(wallet, outcome, now) =>
      && Precheck(cmd).None? && Holds(db, wallet, r)
      && SubmitDecision(db, wallet, r, outcome, now) && Fresh(db, clock, r.walletId, now)
      && ExternalFree(db.wagers, cmd) && KeyFree(db.wagers, cmd)
    case Ready(wallet, outcome, now) =>
      && Precheck(cmd).None? && Holds(db, wallet, r)
      && SubmitDecision(db, wallet, r, outcome, now) && Fresh(db, clock, r.walletId, now)
      && ExternalFree(db.wagers, cmd) && KeyFree(db.wagers, cmd)
    case _ => false
  }

  predicate ResolverOk(db: Db, clock: Time, id: TxId, row: WagerRow, stage: Stage) {
    && id < |db.wagers| && db.wagers[id] == row && Due(row, clock)
    && match stage
       case Waiting => true
       case Locked(wallet) => Current(db, row.walletId, wallet)
       case Clocked(wallet, now) =>
         && Current(db, row.walletId, wallet) && Fresh(db, clock, row.walletId, now)
         && Due(row, now) && !Expired(row, now)
       case Traced(wallet, now, ref) =>
         && Current(db, row.walletId, wallet) && Fresh(db, clock, row.walletId, now)
         && Due(row, now) && !Expired(row, now)
         && ReadReference(db.wagers, RequestOf(row)) == Usable(ref)
       case Decided(wallet, outcome, now) =>
         && Current(db, row.walletId, wallet) && Fresh(db, clock, row.walletId, now)
         && Due(row, now) && ResolverDecision(db, wallet, row, outcome, now)
       case _ => false
  }

  predicate CreatorOk(db: Db, clock: Time, walletId: WalletId, wallet: WalletRow, stage: Stage) {
    && walletId !in db.wallets
    && ValidateWallet(wallet).None? && !Blank(wallet.currency) && wallet.version == 1
    && wallet.createdAt == wallet.updatedAt <= clock
    && (stage.Waiting? || stage.Inserted?)
    && (stage.Inserted? ==> !PlayerHasWallet(db, wallet.playerId, wallet.currency))
  }

  /** A registered message is not complete, unless by this very transaction. */
  predicate MessageOpen(inbox: map<string, InboxRow>, message: Message) {
    message.id in inbox ==> inbox[message.id].body == message.body && !inbox[message.id].completed
  }

  predicate TxnOk(db: Db, inbox: map<string, InboxRow>, clock: Time, x: Txn) {
    match x.program
    case Submit(cmd, message) =>
      && TransportValid(cmd)
      && SubmitOk(db, clock, cmd, x.stage)
      && (x.stage.Registering? ==> message.Some?)
      && (message.None? || x.stage.Registering? ==> x.own.None?)
      && (message.Some? && !x.stage.Registering? ==>
            && MessageOpen(inbox, message.value)
            && x.own == Some(InboxRow(message.value.body, x.stage.Ready? || x.stage.Replaying?)))
    case Resolver(id, row) => ResolverOk(db, clock, id, row, x.stage)
    case Creator(walletId, wallet) => CreatorOk(db, clock, walletId, wallet, x.stage)
  }

  /** Two transactions hold one resource. */
  predicate Clash(x: Txn, u: Txn) {
    || (HoldsWallet(x) && HoldsWallet(u) && WalletOf(x.program) == WalletOf(u.program))
    || (x.program.Resolver? && u.program.Resolver? && x.program.id == u.program.id)
    || (x.program.Creator? && u.program.Creator? && x.program.walletId == u.program.walletId)
    || (x.program.Submit? && x.program.message.Some? && !x.stage.Registering?
        && HoldsMessage(u, x.program.message.value.id))
    || (x.program.Submit? && (x.stage.Identified? || x.stage.Completing? || x.stage.Ready?)
        && HoldsExternal(u, x.program.cmd.request.providerId, x.program.cmd.request.externalId))
    || (x.program.Submit? && (x.stage.Completing? || x.stage.Ready?)
        && HoldsKey(u, x.program.cmd.request.providerId, x.program.cmd.idempotencyKey))
    || (x.program.Creator? && x.stage.Inserted?
        && HoldsPlayer(u, x.program.wallet.playerId, x.program.wallet.currency))
  }

  predicate InboxComplete(inbox: map<string, InboxRow>) {
    forall m :: m in inbox ==> inbox[m].completed
  }

  predicate TxnsOk(s: Sys) {
    forall t :: t in s.txns ==> TxnOk(s.db, s.inbox, s.clock, s.txns[t])
  }

  predicate Exclusive(txns: map<nat, Txn>) {
    forall t, u :: t in txns && u in txns && t != u ==> !Clash(txns[t], txns[u])
  }

  predicate Inv(s: Sys) {
    && Valid(s.db)
    && Timed(s.db.ledger) && Past(s.db.ledger, s.clock)
    && InboxComplete(s.inbox)
    && TxnsOk(s)
    && Exclusive(s.txns)
  }

  /** Every transaction of a system that satisfies the invariant is well placed. */
  lemma TxnHolds(s: Sys, t: nat)
    requires Inv(s) && t in s.txns
    ensures TxnOk(s.db, s.inbox, s.clock, s.txns[t])
  {
    hide Valid, TxnOk, Clash, Timed, Past;
  }

  // ---- Steps that commit nothing

  lemma Later(db: Db, inbox: map<string, InboxRow>, clock: Time, clock': Time, x: Txn)
    requires TxnOk(db, inbox, clock, x) && clock <= clock'
    ensures TxnOk(db, inbox, clock', x)
  {
  }

  /** Only transaction t changes, the tables do not. */
  lemma LocalStep(s: Sys, s': Sys, t: nat)
    requires Inv(s)
    requires s'.db == s.db && s'.inbox == s.inbox && s.clock <= s'.clock
    requires s'.txns - {t} == s.txns - {t}
    requires t in s'.txns ==> TxnOk(s.db, s.inbox, s'.clock, s'.txns[t])
    requires t in s'.txns ==> forall u :: u in s.txns && u != t ==> !Clash(s'.txns[t], s.txns[u]) && !Clash(s.txns[u], s'.txns[t])
    ensures Inv(s')
  {
    forall u | u in s'.txns && u != t
      ensures u in s.txns && s'.txns[u] == s.txns[u]
      ensures TxnOk(s'.db, s'.inbox, s'.clock, s'.txns[u])
    {
      assert u in s'.txns - {t};
      assert (s'.txns - {t})[u] == (s.txns - {t})[u];
      Later(s.db, s.inbox, s.clock, s'.clock, s.txns[u]);
    }
  }

  /** The transitions that commit nothing. */
  predicate Follows(x: Txn, stage: Stage) {
    match x.program
    case Submit(_, message) =>
      && (x.stage.Registering? ==> message.Some? && stage.Starting?)
      && (x.stage.Starting? ==> stage.Waiting? || stage.Recalled?)
      && (x.stage.Recalled? ==> stage.Replaying?)
      && (x.stage.Waiting? ==> stage.Locked?)
      && (x.stage.Locked? || x.stage.Unmatched? || x.stage.Admitted? || x.stage.Referenced? ==>
            !stage.Registering? && !stage.Identified? && !stage.Completing? && !stage.Ready?)
      && (x.stage.Decided? ==> stage.Identified?)
      && (x.stage.Identified? ==> stage.Completing?)
      && (x.stage.Completing? ==> stage.Ready?)
      && !x.stage.Ready? && !x.stage.Replaying?
      && !x.stage.Clocked? && !x.stage.Traced? && !x.stage.Inserted?
    case Resolver(_, _) => x.stage.Waiting? || HoldsWallet(x)
    case Creator(_, _) => x.stage.Waiting? && stage.Inserted?
  }

  /** Moving on acquires at most what was just waited for. */
  lemma NoNewClash(x: Txn, y: Txn, u: Txn)
    requires !Clash(x, u) && !Clash(u, x) && !Obstructs(u, x) && y.program == x.program && Follows(x, y.stage)
    ensures !Clash(y, u) && !Clash(u, y)
  {
  }

  predicate Commits(x: Txn) {
    match x.program
    case Submit(_, _) => x.stage.Ready? || x.stage.Replaying?
    case Resolver(_, _) => x.stage.Decided?
    case Creator(_, _) => x.stage.Inserted?
  }

  /** What a non-committing statement does to its own transaction. */
  predicate Proceeds(s: Sys, s': Sys, t: nat)
    requires t in s.txns
  {
    && s'.db == s.db && s'.inbox == s.inbox && s.clock <= s'.clock
    && s'.txns - {t} == s.txns - {t}
    && (t in s'.txns ==>
          && s'.txns[t].program == s.txns[t].program
          && (s'.txns[t] == s.txns[t] || Follows(s.txns[t], s'.txns[t].stage))
          && TxnOk(s.db, s.inbox, s'.clock, s'.txns[t]))
  }

  lemma PastAfter(ledger: seq<LedgerEntry>, clock: Time, w: WalletId)
    requires Past(ledger, clock)
    ensures After(ledger, w, clock + 1)
  {
  }

  predicate Early(stage: Stage) {
    stage.Registering? || stage.Starting? || stage.Waiting? || stage.Locked? || stage.Unmatched?
  }

  lemma SubmitStarts(s: Sys, t: nat, entryId: int)
    requires t in s.txns && TxnOk(s.db, s.inbox, s.clock, s.txns[t])
    requires s.txns[t].program.Submit? && (s.txns[t].stage.Registering? || s.txns[t].stage.Starting?)
    ensures Proceeds(s, Step(s, t, entryId), t)
  {
    hide SubmitDecision, Fresh, Holds, Precheck, FindReplay, TransportValid;
  }

  lemma SubmitWaits(s: Sys, t: nat, entryId: int)
    requires t in s.txns && TxnOk(s.db, s.inbox, s.clock, s.txns[t])
    requires s.txns[t].program.Submit? && s.txns[t].stage.Waiting?
    ensures Proceeds(s, Step(s, t, entryId), t)
  {
    hide SubmitDecision, Fresh, Holds, Precheck, ValidateWallet, FindReplay, TransportValid;
  }

  lemma SubmitChecksReplay(s: Sys, t: nat, entryId: int)
    requires t in s.txns && TxnOk(s.db, s.inbox, s.clock, s.txns[t])
    requires s.txns[t].program.Submit? && s.txns[t].stage.Locked?
    ensures Proceeds(s, Step(s, t, entryId), t)
  {
    hide SubmitDecision, Fresh, Holds, Precheck, LockWallet, FindReplay, TransportValid;
  }

  lemma SubmitAdmits(s: Sys, t: nat, entryId: int)
    requires t in s.txns && TxnOk(s.db, s.inbox, s.clock, s.txns[t])
    requires s.txns[t].program.Submit? && s.txns[t].stage.Unmatched?
    ensures Proceeds(s, Step(s, t, entryId), t)
  {
    hide SubmitDecision, Fresh, Precheck, LockWallet, FindReplay, CheckOwner, TransportValid;
  }

  lemma SubmitEarly(s: Sys, t: nat, entryId: int)
    requires t in s.txns && TxnOk(s.db, s.inbox, s.clock, s.txns[t])
    requires s.txns[t].program.Submit? && Early(s.txns[t].stage)
    ensures Proceeds(s, Step(s, t, entryId), t)
  {
    hide Step, TxnOk, Proceeds;
    if s.txns[t].stage.Registering? || s.txns[t].stage.Starting? {
      SubmitStarts(s, t, entryId);
    } else if s.txns[t].stage.Waiting? {
      SubmitWaits(s, t, entryId);
    } else if s.txns[t].stage.Locked? {
      SubmitChecksReplay(s, t, entryId);
    } else {
      SubmitAdmits(s, t, entryId);
    }
  }

  /** Holding a decision that the committed tables call for. */
  lemma SettleProceeds(s: Sys, t: nat, wallet: WalletRow, outcome: Outcome)
    requires t in s.txns && TxnOk(s.db, s.inbox, s.clock, s.txns[t]) && Past(s.db.ledger, s.clock)
    requires s.txns[t].program.Submit? && (s.txns[t].stage.Admitted? || s.txns[t].stage.Referenced?)
    requires s.txns[t].stage.wallet == wallet
    requires outcome.Fail? || SubmitDecision(s.db, wallet, s.txns[t].program.cmd.request, outcome, Now(s))
    ensures Proceeds(s, Settle(s, t, wallet, outcome), t)
  {
    PastAfter(s.db.ledger, s.clock, s.txns[t].program.cmd.request.walletId);
    hide SubmitDecision, Past, After;
  }

  /** What Admitted and Referenced decide is what Decide says. */
  lemma DecidesNow(db: Db, wallet: WalletRow, r: WagerRequest, now: Time)
    ensures !NeedsReference(r) ==> Decide(db.wagers, wallet, r, now) == Move(wallet, r, None, Bet, now)
    ensures !NeedsReference(r) ==> !Decide(db.wagers, wallet, r, now).Unresolved?
    ensures NeedsReference(r) && ReadReference(db.wagers, r).Settled? ==>
              && Decide(db.wagers, wallet, r, now) == ReadReference(db.wagers, r).outcome
              && (ReadReference(db.wagers, r).outcome.Unresolved? ==> Deferrable(db.wagers, r))
    ensures NeedsReference(r) && ReadReference(db.wagers, r).Usable? ==>
              var id := ReadReference(db.wagers, r).id;
              && Decide(db.wagers, wallet, r, now) == Finish(db.wagers, wallet, r, id, now)
              && !Decide(db.wagers, wallet, r, now).Unresolved?
  {
  }

  lemma SubmitDecides(s: Sys, t: nat, entryId: int)
    requires t in s.txns && TxnOk(s.db, s.inbox, s.clock, s.txns[t]) && Past(s.db.ledger, s.clock)
    requires s.txns[t].program.Submit? && (s.txns[t].stage.Admitted? || s.txns[t].stage.Referenced?)
    ensures Proceeds(s, Step(s, t, entryId), t)
  {
    var r, stage := s.txns[t].program.cmd.request, s.txns[t].stage;
    var outcome := Decide(s.db.wagers, stage.wallet, r, Now(s));
    DecidesNow(s.db, stage.wallet, r, Now(s));
    assert stage.Referenced? ==> NeedsReference(r) && ReadReference(s.db.wagers, r) == Usable(stage.id);
    hide Decide, ReadReference, Move, Finish, NeedsReference, Deferrable, Settle, Past;
    if stage.Referenced? || !NeedsReference(r) || ReadReference(s.db.wagers, r).Settled? {
      assert outcome.Fail? || SubmitDecision(s.db, stage.wallet, r, outcome, Now(s));
      assert Step(s, t, entryId) == Settle(s, t, stage.wallet, outcome);
      hide Step, TxnOk, Proceeds, SubmitDecision;
      SettleProceeds(s, t, stage.wallet, outcome);
    }
  }

  lemma SubmitInserts(s: Sys, t: nat, entryId: int)
    requires t in s.txns && TxnOk(s.db, s.inbox, s.clock, s.txns[t])
    requires s.txns[t].program.Submit? && (s.txns[t].stage.Decided? || s.txns[t].stage.Identified?)
    ensures Proceeds(s, Step(s, t, entryId), t)
  {
    hide SubmitDecision, Fresh, Holds, Precheck, TransportValid;
  }

  lemma SubmitCompletes(s: Sys, t: nat, entryId: int)
    requires t in s.txns && TxnOk(s.db, s.inbox, s.clock, s.txns[t])
    requires s.txns[t].program.Submit? && (s.txns[t].stage.Completing? || s.txns[t].stage.Recalled?)
    ensures Proceeds(s, Step(s, t, entryId), t)
  {
    hide SubmitDecision, Fresh, Holds, Precheck, TransportValid, ExternalFree, KeyFree;
  }

  lemma SubmitProceeds(s: Sys, t: nat, entryId: int)
    requires t in s.txns && TxnOk(s.db, s.inbox, s.clock, s.txns[t]) && Past(s.db.ledger, s.clock)
    requires s.txns[t].program.Submit? && !Commits(s.txns[t])
    ensures Proceeds(s, Step(s, t, entryId), t)
  {
    assert s.txns[t].stage.Completing? || s.txns[t].stage.Recalled? || Early(s.txns[t].stage)
      || s.txns[t].stage.Admitted? || s.txns[t].stage.Referenced? || s.txns[t].stage.Decided? || s.txns[t].stage.Identified?;
    hide Step, TxnOk, Proceeds;
    var stage := s.txns[t].stage;
    if Early(stage) { SubmitEarly(s, t, entryId); }
    else if stage.Admitted? || stage.Referenced? { SubmitDecides(s, t, entryId); }
    else if stage.Decided? || stage.Identified? { SubmitInserts(s, t, entryId); }
    else { SubmitCompletes(s, t, entryId); }
  }

  lemma ResolverEarly(s: Sys, t: nat, entryId: int)
    requires t in s.txns && TxnOk(s.db, s.inbox, s.clock, s.txns[t]) && Past(s.db.ledger, s.clock)
    requires s.txns[t].program.Resolver? && (s.txns[t].stage.Waiting? || s.txns[t].stage.Locked?)
    ensures Proceeds(s, Step(s, t, entryId), t)
  {
    PastAfter(s.db.ledger, s.clock, s.txns[t].program.row.walletId);
  }

  /** What Clocked and Traced decide is what Resolve says. */
  lemma ResolvesNow(db: Db, wallet: WalletRow, row: WagerRow, now: Time)
    requires !Expired(row, now)
    ensures var reading := ResolverReading(db.wagers, RequestOf(row));
            && (reading.Settled? ==>
                  && Resolve(db.wagers, wallet, row, now) == reading.outcome
                  && (reading.outcome.Unresolved? ==> Deferrable(db.wagers, RequestOf(row))))
            && (reading.Usable? ==>
                  && Resolve(db.wagers, wallet, row, now) == ResolverFinish(db.wagers, wallet, RequestOf(row), reading.id, now)
                  && !Resolve(db.wagers, wallet, row, now).Unresolved?)
  {
    hide ValidateReference, AlreadyReversed;
  }

  lemma ResolverDecides(s: Sys, t: nat, entryId: int)
    requires t in s.txns && TxnOk(s.db, s.inbox, s.clock, s.txns[t])
    requires s.txns[t].program.Resolver? && (s.txns[t].stage.Clocked? || s.txns[t].stage.Traced?)
    ensures Proceeds(s, Step(s, t, entryId), t)
  {
    ResolvesNow(s.db, s.txns[t].stage.wallet, s.txns[t].program.row, s.txns[t].stage.now);
    hide Fresh, Due, Expired, Resolve, ResolverReading, ResolverFinish, Deferrable;
  }

  lemma ResolverProceeds(s: Sys, t: nat, entryId: int)
    requires t in s.txns && TxnOk(s.db, s.inbox, s.clock, s.txns[t]) && Past(s.db.ledger, s.clock)
    requires s.txns[t].program.Resolver? && !Commits(s.txns[t])
    ensures Proceeds(s, Step(s, t, entryId), t)
  {
    hide Step;
    if s.txns[t].stage.Waiting? || s.txns[t].stage.Locked? {
      ResolverEarly(s, t, entryId);
    } else {
      ResolverDecides(s, t, entryId);
    }
  }

  lemma CreatorProceeds(s: Sys, t: nat, entryId: int)
    requires t in s.txns && TxnOk(s.db, s.inbox, s.clock, s.txns[t])
    requires s.txns[t].program.Creator? && !Commits(s.txns[t])
    ensures Proceeds(s, Step(s, t, entryId), t)
  {
  }

  lemma ProceedsInv(s: Sys, s': Sys, t: nat)
    requires Inv(s) && t in s.txns && !Blocked(s, t) && Proceeds(s, s', t)
    ensures Inv(s')
  {
    if t in s'.txns {
      forall u | u in s.txns && u != t
        ensures !Clash(s'.txns[t], s.txns[u]) && !Clash(s.txns[u], s'.txns[t])
      {
        assert !Waits(s, t, u);
        if s'.txns[t] != s.txns[t] {
          NoNewClash(s.txns[t], s'.txns[t], s.txns[u]);
        }
      }
    }
    LocalStep(s, s', t);
  }

  // ---- Steps that commit

  /** The bystander u neither holds the written wallet or row nor has inserted
      the written row's identity. */
  predicate Apart(u: Txn, id: TxId, row: WagerRow) {
    && (HoldsWallet(u) ==> WalletOf(u.program) != row.walletId)
    && (u.program.Resolver? ==> u.program.id != id)
    && (u.program.Submit? && (u.stage.Identified? || u.stage.Completing? || u.stage.Ready?) ==>
          !HasExternal(row, u.program.cmd.request.providerId, u.program.cmd.request.externalId))
    && (u.program.Submit? && (u.stage.Completing? || u.stage.Ready?) ==>
          !HasKey(row, u.program.cmd.request.providerId, u.program.cmd.idempotencyKey))
  }

  lemma FreePut(wagers: seq<WagerRow>, id: TxId, row: WagerRow, cmd: Command)
    requires id <= |wagers|
    ensures ExternalFree(wagers, cmd) && !HasExternal(row, cmd.request.providerId, cmd.request.externalId)
        ==> ExternalFree(Put(wagers, id, row), cmd)
    ensures KeyFree(wagers, cmd) && !HasKey(row, cmd.request.providerId, cmd.idempotencyKey)
        ==> KeyFree(Put(wagers, id, row), cmd)
  {
    var rows := Put(wagers, id, row);
    var external := FindByExternal(rows, cmd.request.providerId, cmd.request.externalId);
    var key := FindByKey(rows, cmd.request.providerId, cmd.idempotencyKey);
    assert external.Some? && external.value != id ==> rows[external.value] == wagers[external.value];
    assert key.Some? && key.value != id ==> rows[key.value] == wagers[key.value];
  }

  lemma AfterApply(db: Db, id: TxId, w: Writes, x: WalletId, now: Time)
    requires Sound(db, id, w) && x != w.row.walletId && After(db.ledger, x, now)
    ensures After(Apply(db, id, w).ledger, x, now)
  {
  }

  lemma SubmitUnaffected(db: Db, clock: Time, u: Txn, id: TxId, w: Writes)
    requires Sound(db, id, w) && Apart(u, id, w.row)
    requires u.program.Submit? && SubmitOk(db, clock, u.program.cmd, u.stage)
    ensures SubmitOk(Apply(db, id, w), clock, u.program.cmd, u.stage)
  {
    var cmd, r, stage := u.program.cmd, u.program.cmd.request, u.stage;
    if HoldsWallet(u) {
      SoundConfined(db, id, w);
      ReadPut(db.wagers, id, w.row, r);
      FreePut(db.wagers, id, w.row, cmd);
      if stage.Decided? || stage.Identified? || stage.Completing? || stage.Ready? {
        if stage.outcome.Unresolved? { DeferrablePut(db.wagers, id, w.row, r); }
        DecidePut(db.wagers, id, w.row, stage.wallet, r, stage.now);
        AfterApply(db, id, w, r.walletId, stage.now);
      }
    }
  }

  lemma ResolverUnaffected(db: Db, clock: Time, u: Txn, id: TxId, w: Writes)
    requires Sound(db, id, w) && Apart(u, id, w.row)
    requires u.program.Resolver? && ResolverOk(db, clock, u.program.id, u.program.row, u.stage)
    ensures ResolverOk(Apply(db, id, w), clock, u.program.id, u.program.row, u.stage)
  {
    var row, stage := u.program.row, u.stage;
    if HoldsWallet(u) {
      SoundConfined(db, id, w);
      ReadPut(db.wagers, id, w.row, RequestOf(row));
      if !stage.Locked? {
        AfterApply(db, id, w, row.walletId, stage.now);
      }
      if stage.Decided? {
        if stage.outcome.Unresolved? { DeferrablePut(db.wagers, id, w.row, RequestOf(row)); }
        ResolvePut(db.wagers, id, w.row, stage.wallet, row, stage.now);
      }
    }
  }

  lemma CreatorUnaffected(db: Db, clock: Time, u: Txn, id: TxId, w: Writes)
    requires Sound(db, id, w)
    requires u.program.Creator? && CreatorOk(db, clock, u.program.walletId, u.program.wallet, u.stage)
    ensures CreatorOk(Apply(db, id, w), clock, u.program.walletId, u.program.wallet, u.stage)
  {
    var db' := Apply(db, id, w);
    forall x | x in db'.wallets
      ensures x in db.wallets
           && db'.wallets[x].playerId == db.wallets[x].playerId && db'.wallets[x].currency == db.wallets[x].currency
    {
    }
  }

  lemma Unaffected(db: Db, inbox: map<string, InboxRow>, clock: Time, u: Txn, id: TxId, w: Writes)
    requires TxnOk(db, inbox, clock, u) && Sound(db, id, w) && Apart(u, id, w.row)
    ensures TxnOk(Apply(db, id, w), inbox, clock, u)
  {
    match u.program
    case Submit(_, _) => SubmitUnaffected(db, clock, u, id, w);
    case Resolver(_, _) => ResolverUnaffected(db, clock, u, id, w);
    case Creator(_, _) => CreatorUnaffected(db, clock, u, id, w);
  }

  /** A commit made at a time after everything on its wallet keeps the times in order. */
  lemma TimedApply(db: Db, id: TxId, w: Writes, clock: Time)
    requires Sound(db, id, w) && Timed(db.ledger) && Past(db.ledger, clock)
    requires forall i :: 0 <= i < |w.entries| ==> Fresh(db, clock, w.row.walletId, w.entries[i].createdAt)
    ensures Timed(Apply(db, id, w).ledger) && Past(Apply(db, id, w).ledger, clock)
  {
  }

  lemma InboxUnaffected(db: Db, inbox: map<string, InboxRow>, clock: Time, u: Txn, x: Txn)
    requires TxnOk(db, inbox, clock, u) && x.program.Submit? && !x.stage.Registering? && !Clash(x, u)
    ensures TxnOk(db, Enter(inbox, x.program.message, x.own), clock, u)
  {
  }

  /** What committing asks of a write: sound, timely, and apart from every other
      transaction. */
  predicate Committable(s: Sys, t: nat, id: TxId, w: Writes) {
    && Sound(s.db, id, w)
    && (forall i :: 0 <= i < |w.entries| ==> Fresh(s.db, s.clock, w.row.walletId, w.entries[i].createdAt))
    && (forall u :: u in s.txns && u != t ==> Apart(s.txns[u], id, w.row))
  }

  lemma CommitInv(s: Sys, t: nat, id: TxId, w: Writes)
    requires Inv(s) && Committable(s, t, id, w)
    ensures Inv(Drop(s, t).(db := Apply(s.db, id, w)))
  {
    var s' := Drop(s, t).(db := Apply(s.db, id, w));
    SoundApply(s.db, id, w);
    TimedApply(s.db, id, w, s.clock);
    forall u | u in s'.txns ensures TxnOk(s'.db, s'.inbox, s'.clock, s'.txns[u]) {
      Unaffected(s.db, s.inbox, s.clock, s.txns[u], id, w);
    }
  }

  /** The row that goes in is complete: Complete ran before the commit. */
  lemma EnterInv(s: Sys, t: nat, x: Txn)
    requires Inv(s) && t !in s.txns && x.program.Submit? && !x.stage.Registering?
    requires x.own.Some? ==> x.own.value.completed
    requires forall u :: u in s.txns ==> !Clash(x, s.txns[u])
    ensures Inv(s.(inbox := Enter(s.inbox, x.program.message, x.own)))
  {
    forall u | u in s.txns
      ensures TxnOk(s.db, Enter(s.inbox, x.program.message, x.own), s.clock, s.txns[u])
    {
      InboxUnaffected(s.db, s.inbox, s.clock, s.txns[u], x);
    }
  }

  lemma DropInv(s: Sys, t: nat)
    requires Inv(s)
    ensures Inv(Drop(s, t))
  {
    LocalStep(s, Drop(s, t), t);
  }

  lemma SubmitApart(db: Db, inbox: map<string, InboxRow>, clock: Time, x: Txn, u: Txn, row: WagerRow)
    requires x.program.Submit? && x.stage.Ready? && !Clash(x, u) && TxnOk(db, inbox, clock, u)
    requires var cmd := x.program.cmd;
             && row.walletId == cmd.request.walletId && row.providerId == Some(cmd.request.providerId)
             && row.externalId == Some(cmd.request.externalId) && row.idempotencyKey == Some(cmd.idempotencyKey)
    ensures Apart(u, |db.wagers|, row)
  {
  }

  lemma SubmitSound(db: Db, clock: Time, cmd: Command, stage: Stage, entryId: int)
    requires Valid(db) && TransportValid(cmd) && stage.Ready? && SubmitOk(db, clock, cmd, stage)
    ensures !stage.outcome.Fail?
    ensures Sound(db, |db.wagers|, SyncWrites(cmd, |db.wagers|, stage.wallet, stage.outcome, stage.now, entryId))
  {
    assert WalletOk(db, cmd.request.walletId);
    ReplayMiss(db.wagers, cmd);
    SyncSound(db, cmd, stage.wallet, stage.outcome, stage.now, entryId);
  }

  lemma SubmitPlaced(db: Db, inbox: map<string, InboxRow>, clock: Time, x: Txn)
    requires TxnOk(db, inbox, clock, x) && x.program.Submit?
    ensures TransportValid(x.program.cmd) && SubmitOk(db, clock, x.program.cmd, x.stage)
    ensures x.stage.Ready? ==> Fresh(db, clock, x.program.cmd.request.walletId, x.stage.now)
  {
    hide TransportValid, Precheck, Holds, SubmitDecision, Fresh, ExternalFree, KeyFree;
  }

  lemma SyncShape(cmd: Command, id: TxId, wallet: WalletRow, outcome: Outcome, now: Time, entryId: int)
    requires !outcome.Fail?
    ensures var w, r := SyncWrites(cmd, id, wallet, outcome, now, entryId), cmd.request;
            && w.row.walletId == r.walletId && w.row.providerId == Some(r.providerId)
            && w.row.externalId == Some(r.externalId) && w.row.idempotencyKey == Some(cmd.idempotencyKey)
            && (forall i :: 0 <= i < |w.entries| ==> w.entries[i].createdAt == now)
  {
  }

  lemma SubmitCommittable(s: Sys, t: nat, entryId: int)
    requires Inv(s) && t in s.txns && s.txns[t].program.Submit? && s.txns[t].stage.Ready?
    ensures var x := s.txns[t];
            && !x.stage.outcome.Fail?
            && Committable(s, t, |s.db.wagers|,
                           SyncWrites(x.program.cmd, |s.db.wagers|, x.stage.wallet, x.stage.outcome, x.stage.now, entryId))
  {
    var x := s.txns[t];
    TxnHolds(s, t);
    assert Valid(s.db);
    hide Inv, Sound, Valid, TxnOk, Apart, Clash, SubmitOk, TransportValid, SyncWrites, Fresh;
    SubmitPlaced(s.db, s.inbox, s.clock, x);
    SubmitSound(s.db, s.clock, x.program.cmd, x.stage, entryId);
    SyncShape(x.program.cmd, |s.db.wagers|, x.stage.wallet, x.stage.outcome, x.stage.now, entryId);
    var w := SyncWrites(x.program.cmd, |s.db.wagers|, x.stage.wallet, x.stage.outcome, x.stage.now, entryId);
    forall u | u in s.txns && u != t ensures Apart(s.txns[u], |s.db.wagers|, w.row) {
      NoClash(s, t, u);
      TxnHolds(s, u);
      SubmitApart(s.db, s.inbox, s.clock, x, s.txns[u], w.row);
    }
  }

  lemma ResolverApart(db: Db, inbox: map<string, InboxRow>, clock: Time, x: Txn, u: Txn, row: WagerRow)
    requires x.program.Resolver? && x.stage.Decided? && !Clash(x, u)
    requires TxnOk(db, inbox, clock, x) && TxnOk(db, inbox, clock, u)
    requires SameIdentity(x.program.row, row)
    ensures Apart(u, x.program.id, row)
  {
  }

  lemma ResolverSoundHere(db: Db, clock: Time, id: TxId, row: WagerRow, stage: Stage, entryId: int)
    requires Valid(db) && stage.Decided? && ResolverOk(db, clock, id, row, stage)
    ensures !stage.outcome.Fail?
    ensures Sound(db, id, ResolverWrites(row, id, stage.wallet, stage.outcome, stage.now, entryId))
  {
    assert RowOk(db.wallets, db.wagers, row) && WalletOk(db, row.walletId);
    ResolverSound(db, id, stage.wallet, stage.outcome, stage.now, entryId);
  }

  lemma ResolverPlaced(db: Db, inbox: map<string, InboxRow>, clock: Time, x: Txn)
    requires TxnOk(db, inbox, clock, x) && x.program.Resolver? && x.stage.Decided?
    ensures ResolverOk(db, clock, x.program.id, x.program.row, x.stage)
    ensures x.program.id < |db.wagers| && db.wagers[x.program.id] == x.program.row
    ensures Current(db, x.program.row.walletId, x.stage.wallet)
    ensures Fresh(db, clock, x.program.row.walletId, x.stage.now) && Due(x.program.row, x.stage.now)
    ensures ResolverDecision(db, x.stage.wallet, x.program.row, x.stage.outcome, x.stage.now)
  {
    hide Due, Fresh, Expired, ResolverDecision;
  }

  lemma ResolverShape(row: WagerRow, id: TxId, wallet: WalletRow, outcome: Outcome, now: Time, entryId: int)
    requires !outcome.Fail?
    ensures var w := ResolverWrites(row, id, wallet, outcome, now, entryId);
            && w.row.walletId == row.walletId && SameIdentity(row, w.row)
            && (forall i :: 0 <= i < |w.entries| ==> w.entries[i].createdAt == now)
  {
    hide NextAttempt;
  }

  lemma ResolverCommittable(s: Sys, t: nat, entryId: int)
    requires Inv(s) && t in s.txns && s.txns[t].program.Resolver? && s.txns[t].stage.Decided?
    ensures var x := s.txns[t];
            && x.program.id < |s.db.wagers| && !x.stage.outcome.Fail?
            && Committable(s, t, x.program.id,
                           ResolverWrites(x.program.row, x.program.id, x.stage.wallet, x.stage.outcome, x.stage.now, entryId))
  {
    var x := s.txns[t];
    TxnHolds(s, t);
    assert Valid(s.db);
    hide Inv, Sound, Valid, TxnOk, Apart, Clash, ResolverOk, ResolverWrites, Fresh, Current, SameIdentity;
    ResolverPlaced(s.db, s.inbox, s.clock, x);
    ResolverShape(x.program.row, x.program.id, x.stage.wallet, x.stage.outcome, x.stage.now, entryId);
    ResolverSoundHere(s.db, s.clock, x.program.id, x.program.row, x.stage, entryId);
    var w := ResolverWrites(x.program.row, x.program.id, x.stage.wallet, x.stage.outcome, x.stage.now, entryId);
    forall u | u in s.txns && u != t ensures Apart(s.txns[u], x.program.id, w.row) {
      NoClash(s, t, u);
      TxnHolds(s, u);
      ResolverApart(s.db, s.inbox, s.clock, x, s.txns[u], w.row);
    }
  }

  lemma SubmitCommitStep(s: Sys, t: nat, entryId: int)
    requires t in s.txns && s.txns[t].program.Submit? && s.txns[t].stage.Ready? && !s.txns[t].stage.outcome.Fail?
    ensures var x := s.txns[t];
            var w := SyncWrites(x.program.cmd, |s.db.wagers|, x.stage.wallet, x.stage.outcome, x.stage.now, entryId);
            Step(s, t, entryId)
            == Drop(s, t).(db := Apply(s.db, |s.db.wagers|, w), inbox := Enter(s.inbox, x.program.message, x.own))
  {
    hide SyncWrites, Apply, Enter;
  }

  lemma ResolverCommitStep(s: Sys, t: nat, entryId: int)
    requires t in s.txns && s.txns[t].program.Resolver? && s.txns[t].stage.Decided? && !s.txns[t].stage.outcome.Fail?
    requires s.txns[t].program.id < |s.db.wagers|
    ensures var x := s.txns[t];
            var w := ResolverWrites(x.program.row, x.program.id, x.stage.wallet, x.stage.outcome, x.stage.now, entryId);
            Step(s, t, entryId) == Drop(s, t).(db := Apply(s.db, x.program.id, w))
  {
    hide ResolverWrites, Apply;
  }

  lemma SubmitCommitInv(s: Sys, t: nat, entryId: int)
    requires Inv(s) && t in s.txns && s.txns[t].program.Submit? && s.txns[t].stage.Ready?
    ensures Inv(Step(s, t, entryId))
  {
    var x := s.txns[t];
    TxnHolds(s, t);
    assert x.own.Some? ==> x.own.value.completed;
    hide Inv, TxnOk;
    SubmitCommittable(s, t, entryId);
    var w := SyncWrites(x.program.cmd, |s.db.wagers|, x.stage.wallet, x.stage.outcome, x.stage.now, entryId);
    SubmitCommitStep(s, t, entryId);
    hide Inv, Committable, Clash, Step, SyncWrites, Apply;
    CommitInv(s, t, |s.db.wagers|, w);
    var s' := Drop(s, t).(db := Apply(s.db, |s.db.wagers|, w));
    forall u | u in s'.txns ensures !Clash(x, s'.txns[u]) {
      NoClash(s, t, u);
    }
    EnterInv(s', t, x);
  }

  lemma NoClash(s: Sys, t: nat, u: nat)
    requires Inv(s) && t in s.txns && u in s.txns && t != u
    ensures !Clash(s.txns[t], s.txns[u])
  {
  }

  lemma ReplayCommitInv(s: Sys, t: nat, entryId: int)
    requires Inv(s) && t in s.txns && s.txns[t].program.Submit? && s.txns[t].stage.Replaying?
    ensures Inv(Step(s, t, entryId))
  {
    var x := s.txns[t];
    TxnHolds(s, t);
    hide Inv;
    assert x.own.Some? ==> x.own.value.completed;
    assert Step(s, t, entryId) == Drop(s, t).(inbox := Enter(s.inbox, x.program.message, x.own));
    hide Clash, TxnOk, Step, Enter;
    DropInv(s, t);
    forall u | u in Drop(s, t).txns ensures !Clash(x, s.txns[u]) {
      NoClash(s, t, u);
    }
    EnterInv(Drop(s, t), t, x);
  }

  lemma ResolverCommitInv(s: Sys, t: nat, entryId: int)
    requires Inv(s) && t in s.txns && s.txns[t].program.Resolver? && s.txns[t].stage.Decided?
    ensures Inv(Step(s, t, entryId))
  {
    var x := s.txns[t];
    ResolverCommittable(s, t, entryId);
    ResolverCommitStep(s, t, entryId);
    hide Inv, Committable, Step, ResolverWrites, Apply;
    CommitInv(s, t, x.program.id,
              ResolverWrites(x.program.row, x.program.id, x.stage.wallet, x.stage.outcome, x.stage.now, entryId));
  }

  lemma AddWalletUnaffected(db: Db, inbox: map<string, InboxRow>, clock: Time, x: Txn, u: Txn)
    requires x.program.Creator? && x.stage.Inserted? && !Clash(x, u)
    requires TxnOk(db, inbox, clock, x) && TxnOk(db, inbox, clock, u)
    ensures TxnOk(EmptyWallet(db, x.program.walletId, x.program.wallet), inbox, clock, u)
    ensures HoldsWallet(u) ==> WalletOf(u.program) != x.program.walletId
  {
    var db' := EmptyWallet(db, x.program.walletId, x.program.wallet);
    if u.program.Creator? && u.stage.Inserted? {
      forall w | w in db'.wallets
        ensures !(db'.wallets[w].playerId == u.program.wallet.playerId && db'.wallets[w].currency == u.program.wallet.currency)
      {
        assert w != x.program.walletId ==> w in db.wallets;
      }
    }
  }

  lemma AddWalletInv(s: Sys, t: nat)
    requires Inv(s) && t in s.txns && s.txns[t].program.Creator? && s.txns[t].stage.Inserted?
    ensures var p := s.txns[t].program; Inv(Drop(s, t).(db := EmptyWallet(s.db, p.walletId, p.wallet)))
  {
    var x := s.txns[t];
    assert TxnOk(s.db, s.inbox, s.clock, x);
    var db' := EmptyWallet(s.db, x.program.walletId, x.program.wallet);
    EmptyWalletValid(s.db, x.program.walletId, x.program.wallet);
    forall u | u in s.txns && u != t ensures TxnOk(db', s.inbox, s.clock, s.txns[u]) {
      NoClash(s, t, u);
      AddWalletUnaffected(s.db, s.inbox, s.clock, x, s.txns[u]);
    }
  }

  lemma OpeningApart(db: Db, inbox: map<string, InboxRow>, clock: Time, x: Txn, u: Txn, row: WagerRow)
    requires x.program.Creator? && x.stage.Inserted? && !Clash(x, u)
    requires TxnOk(db, inbox, clock, x) && TxnOk(db, inbox, clock, u)
    requires row.walletId == x.program.walletId && row.providerId == None
    ensures Apart(u, |db.wagers|, row)
  {
    AddWalletUnaffected(db, inbox, clock, x, u);
    hide HoldsWallet, EmptyWallet, CreatorOk;
  }

  /** An opening comes after everything on a wallet without entries. */
  lemma OpeningFresh(db: Db, walletId: WalletId, wallet: WalletRow, clock: Time)
    requires Valid(db) && walletId !in db.wallets && wallet.createdAt <= clock
    ensures Fresh(EmptyWallet(db, walletId, wallet), clock, walletId, wallet.createdAt)
  {
    EmptyWalletUnused(db, walletId);
    hide Valid;
  }

  lemma OpeningCommittable(s: Sys, t: nat, entryId: int)
    requires Inv(s) && t in s.txns && s.txns[t].program.Creator? && s.txns[t].stage.Inserted?
    requires s.txns[t].program.wallet.balance > 0
    ensures var p := s.txns[t].program;
            var s' := Drop(s, t).(db := EmptyWallet(s.db, p.walletId, p.wallet));
            Committable(s', t, |s.db.wagers|, OpeningWrites(p.walletId, p.wallet, |s.db.wagers|, p.wallet.createdAt, entryId))
  {
    var x := s.txns[t];
    var p := x.program;
    TxnHolds(s, t);
    CreatorPlaced(s.db, s.inbox, s.clock, x);
    assert Valid(s.db);
    hide Inv, TxnOk, Sound, HoldsWallet, Blank, Valid, Apart, Clash, Fresh;
    OpeningSound(s.db, p.walletId, p.wallet, p.wallet.createdAt, entryId);
    OpeningFresh(s.db, p.walletId, p.wallet, s.clock);
    var w := OpeningWrites(p.walletId, p.wallet, |s.db.wagers|, p.wallet.createdAt, entryId);
    forall u | u in s.txns && u != t ensures Apart(s.txns[u], |s.db.wagers|, w.row) {
      NoClash(s, t, u);
      TxnHolds(s, u);
      OpeningApart(s.db, s.inbox, s.clock, x, s.txns[u], w.row);
    }
  }

  lemma CreatorPlaced(db: Db, inbox: map<string, InboxRow>, clock: Time, x: Txn)
    requires TxnOk(db, inbox, clock, x) && x.program.Creator?
    ensures var wallet := x.program.wallet;
            && x.program.walletId !in db.wallets && ValidateWallet(wallet).None? && !Blank(wallet.currency)
            && wallet.version == 1 && wallet.createdAt == wallet.updatedAt <= clock
  {
    hide Blank;
  }

  lemma CreatorStep(s: Sys, t: nat, entryId: int)
    requires t in s.txns && s.txns[t].program.Creator? && s.txns[t].stage.Inserted?
    requires TxnOk(s.db, s.inbox, s.clock, s.txns[t])
    ensures var p := s.txns[t].program;
            var s' := Drop(s, t).(db := EmptyWallet(s.db, p.walletId, p.wallet));
            var w := OpeningWrites(p.walletId, p.wallet, |s.db.wagers|, p.wallet.createdAt, entryId);
            && p.wallet.balance >= 0
            && Step(s, t, entryId) == if p.wallet.balance == 0 then s' else Drop(s', t).(db := Apply(s'.db, |s.db.wagers|, w))
  {
    var p := s.txns[t].program;
    CreateShape(s.db, p.walletId, p.wallet.playerId, Money(p.wallet.balance, p.wallet.currency), p.wallet.createdAt, entryId);
    assert Drop(Drop(s, t), t) == Drop(s, t);
  }

  lemma CreatorCommitInv(s: Sys, t: nat, entryId: int)
    requires Inv(s) && t in s.txns && s.txns[t].program.Creator? && s.txns[t].stage.Inserted?
    ensures Inv(Step(s, t, entryId))
  {
    var p := s.txns[t].program;
    assert TxnOk(s.db, s.inbox, s.clock, s.txns[t]);
    hide Inv, Committable, Step, TxnOk;
    CreatorStep(s, t, entryId);
    AddWalletInv(s, t);
    if p.wallet.balance != 0 {
      OpeningCommittable(s, t, entryId);
      CommitInv(Drop(s, t).(db := EmptyWallet(s.db, p.walletId, p.wallet)), t, |s.db.wagers|,
                OpeningWrites(p.walletId, p.wallet, |s.db.wagers|, p.wallet.createdAt, entryId));
    }
  }

  // ---- All actions

  lemma CommitStepInv(s: Sys, t: nat, entryId: int)
    requires Inv(s) && t in s.txns && Commits(s.txns[t])
    ensures Inv(Step(s, t, entryId))
  {
    hide Inv, Step;
    match s.txns[t].program
    case Submit(_, _) =>
      if s.txns[t].stage.Ready? { SubmitCommitInv(s, t, entryId); } else { ReplayCommitInv(s, t, entryId); }
    case Resolver(_, _) => ResolverCommitInv(s, t, entryId);
    case Creator(_, _) => CreatorCommitInv(s, t, entryId);
  }

  lemma LocalStepInv(s: Sys, t: nat, entryId: int)
    requires Inv(s) && t in s.txns && !Blocked(s, t) && !Commits(s.txns[t])
    ensures Inv(Step(s, t, entryId))
  {
    assert TxnOk(s.db, s.inbox, s.clock, s.txns[t]) && Past(s.db.ledger, s.clock);
    hide Inv, Step, TxnOk, Proceeds, Blocked;
    match s.txns[t].program
    case Submit(_, _) =>
      SubmitProceeds(s, t, entryId);
      ProceedsInv(s, Step(s, t, entryId), t);
    case Resolver(_, _) =>
      ResolverProceeds(s, t, entryId);
      ProceedsInv(s, Step(s, t, entryId), t);
    case Creator(_, _) =>
      CreatorProceeds(s, t, entryId);
      ProceedsInv(s, Step(s, t, entryId), t);
  }

  lemma AdvanceInv(s: Sys, t: nat, entryId: int)
    requires Inv(s) && t in s.txns && !Blocked(s, t)
    ensures Inv(Step(s, t, entryId))
  {
    hide Inv, Step;
    if Commits(s.txns[t]) { CommitStepInv(s, t, entryId); } else { LocalStepInv(s, t, entryId); }
  }

  /** A new transaction that is well placed and clashes with none. */
  lemma JoinInv(s: Sys, t: nat, x: Txn, clock: Time)
    requires Inv(s) && t !in s.txns && s.clock <= clock
    requires TxnOk(s.db, s.inbox, clock, x)
    requires forall u :: u in s.txns ==> !Clash(x, s.txns[u]) && !Clash(s.txns[u], x)
    ensures Inv(s.(txns := s.txns[t := x], clock := clock))
  {
    var s' := s.(txns := s.txns[t := x], clock := clock);
    assert s'.txns - {t} == s.txns - {t};
    LocalStep(s, s', t);
  }

  lemma BeginInv(s: Sys, t: nat, cmd: Command, message: Option<Message>)
    requires Inv(s)
    ensures Inv(Do(s, Begin(t, cmd, message)))
  {
    hide Inv;
    if t !in s.txns && TransportValid(cmd) {
      JoinInv(s, t, Txn(Submit(cmd, message), if message.Some? then Registering else Starting, None), s.clock);
    }
  }

  lemma ClaimInv(s: Sys, t: nat, id: TxId)
    requires Inv(s)
    ensures Inv(Do(s, Claim(t, id)))
  {
    hide Inv;
    if Do(s, Claim(t, id)) != s {
      JoinInv(s, t, Txn(Resolver(id, s.db.wagers[id]), Waiting, None), s.clock);
    }
  }

  lemma OpenInv(s: Sys, t: nat, walletId: WalletId, playerId: string, initial: Money)
    requires Inv(s)
    ensures Inv(Do(s, Open(t, walletId, playerId, initial)))
  {
    hide Inv;
    if Do(s, Open(t, walletId, playerId, initial)) != s {
      var wallet := WalletRow(playerId, initial.currency, initial.amount, 1, Now(s), Now(s));
      JoinInv(s, t, Txn(Creator(walletId, wallet), Waiting, None), Now(s));
    }
  }

  lemma TickInv(s: Sys, elapsed: nat)
    requires Inv(s)
    ensures Inv(s.(clock := s.clock + elapsed))
  {
    var t: nat := 0;
    if t in s.txns {
      Later(s.db, s.inbox, s.clock, s.clock + elapsed, s.txns[t]);
    }
    LocalStep(s, s.(clock := s.clock + elapsed), t);
  }

  lemma DoInv(s: Sys, a: Action)
    requires Inv(s)
    ensures Inv(Do(s, a))
  {
    hide Inv;
    match a
    case Begin(t, cmd, message) => BeginInv(s, t, cmd, message);
    case Claim(t, id) => ClaimInv(s, t, id);
    case Open(t, walletId, playerId, initial) => OpenInv(s, t, walletId, playerId, initial);
    case Advance(t, entryId) =>
      if t in s.txns && !Blocked(s, t) { AdvanceInv(s, t, entryId); }
    case Abort(t) => DropInv(s, t);
    case Tick(elapsed) => TickInv(s, elapsed);
  }

  /** Every state of every interleaving satisfies the invariant. */
  lemma {:induction false} RunInv(s: Sys, actions: seq<Action>)
    requires Inv(s)
    ensures Inv(Run(s, actions))
    decreases |actions|
  {
    if actions != [] {
      DoInv(s, actions[0]);
      RunInv(Do(s, actions[0]), actions[1..]);
    }
  }

  lemma StartInv()
    ensures Inv(START)
  {
  }
}
