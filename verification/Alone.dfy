/** Transactions that meet nobody: what one does alone is a run of the protocol,
    beside any transactions that hold nothing it needs. */
module Alone {
  import opened Common
  import opened Amounts
  import opened Wallets
  import opened Wagers
  import opened Tables
  import opened Decisions
  import opened Invariant
  import opened Protocol
  import opened Safety

  /** Nobody holds what a submission takes on its way. */
  predicate Free(s: Sys, cmd: Command) {
    forall u :: u in s.txns ==>
      && !(HoldsWallet(s.txns[u]) && WalletOf(s.txns[u].program) == cmd.request.walletId)
      && !HoldsExternal(s.txns[u], cmd.request.providerId, cmd.request.externalId)
      && !HoldsKey(s.txns[u], cmd.request.providerId, cmd.idempotencyKey)
  }

  /** The system with the submission at the given statement. */
  function InStage(s: Sys, t: nat, cmd: Command, stage: Stage, clock: Time): Sys {
    s.(txns := s.txns[t := Txn(Submit(cmd, None), stage, None)], clock := clock)
  }

  function Advanced(s: Sys, t: nat, entryId: int, n: nat): Sys
    decreases n
  {
    if n == 0 then s else Advanced(Do(s, Advance(t, entryId)), t, entryId, n - 1)
  }

  function Advances(t: nat, entryId: int, n: nat): seq<Action> {
    if n == 0 then [] else [Advance(t, entryId)] + Advances(t, entryId, n - 1)
  }

  lemma {:induction false} AdvancesRun(s: Sys, t: nat, entryId: int, n: nat)
    ensures Run(s, Advances(t, entryId, n)) == Advanced(s, t, entryId, n)
    decreases n
  {
    hide Do;
    if n > 0 {
      assert Advances(t, entryId, n)[1..] == Advances(t, entryId, n - 1);
      AdvancesRun(Do(s, Advance(t, entryId)), t, entryId, n - 1);
    }
  }

  lemma Unblocked(s: Sys, t: nat, cmd: Command, stage: Stage, clock: Time)
    requires Free(s, cmd) && t !in s.txns && !stage.Registering?
    ensures !Blocked(InStage(s, t, cmd, stage, clock), t)
  {
    var s' := InStage(s, t, cmd, stage, clock);
    forall u | u in s'.txns ensures !Waits(s', t, u) {
      assert u != t ==> u in s.txns && s'.txns[u] == s.txns[u];
    }
  }

  /** What a submission that is no replay goes through before it decides. */
  predicate Admissible(db: Db, cmd: Command) {
    && TransportValid(cmd) && Precheck(cmd).None? && KeyFree(db.wagers, cmd) && ExternalFree(db.wagers, cmd)
    && LockWallet(db, cmd.request.walletId).Ok?
    && CheckOwner(db.wallets[cmd.request.walletId], cmd.request).None?
  }

  /** The statement after the given one, up to the decision. */
  function NextStage(db: Db, cmd: Command, stage: Stage): Stage
    requires cmd.request.walletId in db.wallets
  {
    var wallet := db.wallets[cmd.request.walletId];
    match stage
    case Starting => Waiting
    case Waiting => Locked(wallet)
    case Locked(_) => Unmatched(wallet)
    case Unmatched(_) => Admitted(wallet)
    case _ => stage
  }

  lemma EarlyStep(s: Sys, t: nat, cmd: Command, stage: Stage, clock: Time, entryId: int)
    requires Free(s, cmd) && t !in s.txns && Admissible(s.db, cmd)
    requires stage == Starting || stage == Waiting || stage == Locked(s.db.wallets[cmd.request.walletId])
             || stage == Unmatched(s.db.wallets[cmd.request.walletId])
    ensures Do(InStage(s, t, cmd, stage, clock), Advance(t, entryId))
         == InStage(s, t, cmd, NextStage(s.db, cmd, stage), clock)
  {
    Unblocked(s, t, cmd, stage, clock);
    hide Blocked, Precheck, TransportValid;
    var s' := InStage(s, t, cmd, stage, clock);
    assert s'.txns[t := s'.txns[t].(stage := NextStage(s.db, cmd, stage))]
        == s.txns[t := Txn(Submit(cmd, None), NextStage(s.db, cmd, stage), None)];
  }

  lemma Admitting(s: Sys, t: nat, cmd: Command, clock: Time, entryId: int, n: nat)
    requires Free(s, cmd) && t !in s.txns && Admissible(s.db, cmd)
    ensures Advanced(InStage(s, t, cmd, Starting, clock), t, entryId, n + 4)
         == Advanced(InStage(s, t, cmd, Admitted(s.db.wallets[cmd.request.walletId]), clock), t, entryId, n)
  {
    var wallet := s.db.wallets[cmd.request.walletId];
    EarlyStep(s, t, cmd, Starting, clock, entryId);
    EarlyStep(s, t, cmd, Waiting, clock, entryId);
    EarlyStep(s, t, cmd, Locked(wallet), clock, entryId);
    EarlyStep(s, t, cmd, Unmatched(wallet), clock, entryId);
    hide Do, InStage, Free, Admissible;
    assert Advanced(InStage(s, t, cmd, Starting, clock), t, entryId, n + 4) == Advanced(InStage(s, t, cmd, Waiting, clock), t, entryId, n + 3);
    assert Advanced(InStage(s, t, cmd, Waiting, clock), t, entryId, n + 3) == Advanced(InStage(s, t, cmd, Locked(wallet), clock), t, entryId, n + 2);
    assert Advanced(InStage(s, t, cmd, Locked(wallet), clock), t, entryId, n + 2) == Advanced(InStage(s, t, cmd, Unmatched(wallet), clock), t, entryId, n + 1);
  }

  /** The decision takes one statement, unless a usable reference is read first. */
  lemma Deciding(s: Sys, t: nat, cmd: Command, clock: Time, entryId: int)
    requires Free(s, cmd) && t !in s.txns && Admissible(s.db, cmd)
    requires !(NeedsReference(cmd.request) && ReadReference(s.db.wagers, cmd.request).Usable?)
    requires !Decide(s.db.wagers, s.db.wallets[cmd.request.walletId], cmd.request, clock + 1).Fail?
    ensures var wallet := s.db.wallets[cmd.request.walletId];
            var outcome := Decide(s.db.wagers, wallet, cmd.request, clock + 1);
            Do(InStage(s, t, cmd, Admitted(wallet), clock), Advance(t, entryId))
            == InStage(s, t, cmd, Decided(wallet, outcome, clock + 1), clock + 1)
  {
    var wallet := s.db.wallets[cmd.request.walletId];
    var outcome := Decide(s.db.wagers, wallet, cmd.request, clock + 1);
    var s' := InStage(s, t, cmd, Admitted(wallet), clock);
    Unblocked(s, t, cmd, Admitted(wallet), clock);
    DecidesNow(s.db, wallet, cmd.request, clock + 1);
    hide Blocked, Admissible, Free, Decide, ReadReference, Move, NeedsReference;
    assert s'.txns[t := s'.txns[t].(stage := Decided(wallet, outcome, clock + 1))]
        == s.txns[t := Txn(Submit(cmd, None), Decided(wallet, outcome, clock + 1), None)];
  }

  /** The inserts and the completion of an inbox row that is not there. */
  function LaterStage(stage: Stage): Stage {
    match stage
    case Decided(wallet, outcome, now) => Identified(wallet, outcome, now)
    case Identified(wallet, outcome, now) => Completing(wallet, outcome, now)
    case Completing(wallet, outcome, now) => Ready(wallet, outcome, now)
    case _ => stage
  }

  lemma LateStep(s: Sys, t: nat, cmd: Command, stage: Stage, clock: Time, entryId: int)
    requires Free(s, cmd) && t !in s.txns && KeyFree(s.db.wagers, cmd) && ExternalFree(s.db.wagers, cmd)
    requires stage.Decided? || stage.Identified? || stage.Completing?
    ensures Do(InStage(s, t, cmd, stage, clock), Advance(t, entryId)) == InStage(s, t, cmd, LaterStage(stage), clock)
  {
    var a, b := InStage(s, t, cmd, stage, clock), InStage(s, t, cmd, LaterStage(stage), clock);
    Unblocked(s, t, cmd, stage, clock);
    hide Blocked, Free;
    assert a.txns[t := b.txns[t]] == b.txns;
  }

  lemma Inserting(s: Sys, t: nat, cmd: Command, wallet: WalletRow, outcome: Outcome, now: Time, clock: Time, entryId: int, n: nat)
    requires Free(s, cmd) && t !in s.txns && KeyFree(s.db.wagers, cmd) && ExternalFree(s.db.wagers, cmd)
    ensures Advanced(InStage(s, t, cmd, Decided(wallet, outcome, now), clock), t, entryId, n + 3)
         == Advanced(InStage(s, t, cmd, Ready(wallet, outcome, now), clock), t, entryId, n)
  {
    hide InStage, Advanced, Do, Free, KeyFree, ExternalFree;
    LateStep(s, t, cmd, Decided(wallet, outcome, now), clock, entryId);
    LateStep(s, t, cmd, Identified(wallet, outcome, now), clock, entryId);
    LateStep(s, t, cmd, Completing(wallet, outcome, now), clock, entryId);
    AdvancedOnce(InStage(s, t, cmd, Decided(wallet, outcome, now), clock), t, entryId, n + 3);
    AdvancedOnce(InStage(s, t, cmd, Identified(wallet, outcome, now), clock), t, entryId, n + 2);
    AdvancedOnce(InStage(s, t, cmd, Completing(wallet, outcome, now), clock), t, entryId, n + 1);
  }

  /** From the decision to the statement before the commit. */
  lemma GoesOn(s: Sys, t: nat, cmd: Command, wallet: WalletRow, outcome: Outcome, now: Time, clock: Time, entryId: int)
    requires Free(s, cmd) && t !in s.txns && KeyFree(s.db.wagers, cmd) && ExternalFree(s.db.wagers, cmd)
    ensures Run(InStage(s, t, cmd, Decided(wallet, outcome, now), clock), Advances(t, entryId, 3))
         == InStage(s, t, cmd, Ready(wallet, outcome, now), clock)
  {
    hide *;
    Inserting(s, t, cmd, wallet, outcome, now, clock, entryId, 0);
    AdvancesRun(InStage(s, t, cmd, Decided(wallet, outcome, now), clock), t, entryId, 3);
    AdvancedNone(InStage(s, t, cmd, Ready(wallet, outcome, now), clock), t, entryId);
  }

  lemma BeginRun(s: Sys, t: nat, cmd: Command, entryId: int, n: nat)
    requires t !in s.txns && Admissible(s.db, cmd)
    ensures Run(s, [Begin(t, cmd, None)] + Advances(t, entryId, n)) == Advanced(InStage(s, t, cmd, Starting, s.clock), t, entryId, n)
  {
    AdvancesRun(InStage(s, t, cmd, Starting, s.clock), t, entryId, n);
    assert Do(s, Begin(t, cmd, None)) == InStage(s, t, cmd, Starting, s.clock);
    assert ([Begin(t, cmd, None)] + Advances(t, entryId, n))[1..] == Advances(t, entryId, n);
    hide Do, InStage, Advances, Advanced, Admissible;
  }

  /** A submission alone, stopped where it holds its decision. */
  lemma DecideAlone(s: Sys, t: nat, cmd: Command, entryId: int)
    requires Free(s, cmd) && t !in s.txns && Admissible(s.db, cmd)
    requires !(NeedsReference(cmd.request) && ReadReference(s.db.wagers, cmd.request).Usable?)
    requires !Decide(s.db.wagers, s.db.wallets[cmd.request.walletId], cmd.request, s.clock + 1).Fail?
    ensures var wallet := s.db.wallets[cmd.request.walletId];
            var outcome := Decide(s.db.wagers, wallet, cmd.request, s.clock + 1);
            Run(s, [Begin(t, cmd, None)] + Advances(t, entryId, 5))
            == InStage(s, t, cmd, Decided(wallet, outcome, s.clock + 1), s.clock + 1)
  {
    hide *;
    AdmissibleFree(s.db, cmd);
    var wallet := s.db.wallets[cmd.request.walletId];
    BeginRun(s, t, cmd, entryId, 5);
    Admitting(s, t, cmd, s.clock, entryId, 1);
    Deciding(s, t, cmd, s.clock, entryId);
    AdvancedOnce(InStage(s, t, cmd, Admitted(wallet), s.clock), t, entryId, 1);
    AdvancedNone(Do(InStage(s, t, cmd, Admitted(wallet), s.clock), Advance(t, entryId)), t, entryId);
  }

  lemma AdmissibleFree(db: Db, cmd: Command)
    requires Admissible(db, cmd)
    ensures KeyFree(db.wagers, cmd) && ExternalFree(db.wagers, cmd) && cmd.request.walletId in db.wallets
  {
  }

  lemma AdvancedOnce(s: Sys, t: nat, entryId: int, n: nat)
    requires n > 0
    ensures Advanced(s, t, entryId, n) == Advanced(Do(s, Advance(t, entryId)), t, entryId, n - 1)
  {
  }

  lemma AdvancedNone(s: Sys, t: nat, entryId: int)
    ensures Advanced(s, t, entryId, 0) == s
  {
  }

  /** An admissible request is processed as it is decided. */
  lemma ProcessAlone(db: Db, cmd: Command, now: Time, entryId: int)
    requires Admissible(db, cmd)
    ensures var wallet := db.wallets[cmd.request.walletId];
            var outcome := Decide(db.wagers, wallet, cmd.request, now);
            && (Process(db, cmd, now, entryId).Ok? <==> !outcome.Fail?)
            && (!outcome.Fail? ==>
                  Process(db, cmd, now, entryId).value.0
                  == Apply(db, |db.wagers|, SyncWrites(cmd, |db.wagers|, wallet, outcome, now, entryId)))
  {
    hide Decide, Apply, SyncWrites, TransportValid;
  }

  function Creation(t: nat, walletId: WalletId, playerId: string, initial: Money, entryId: int): seq<Action> {
    [Open(t, walletId, playerId, initial), Advance(t, entryId), Advance(t, entryId)]
  }

  /** The system with just the creation in it, at the given statement. */
  function Creating(s: Sys, t: nat, walletId: WalletId, playerId: string, initial: Money, stage: Stage): Sys {
    var wallet := WalletRow(playerId, initial.currency, initial.amount, 1, s.clock + 1, s.clock + 1);
    s.(txns := map[t := Txn(Creator(walletId, wallet), stage, None)], clock := s.clock + 1)
  }

  lemma CreateSteps(s: Sys, t: nat, walletId: WalletId, playerId: string, initial: Money, entryId: int)
    requires s.txns == map[] && walletId !in s.db.wallets && !Blank(initial.currency)
    requires Create(s.db, walletId, playerId, initial, s.clock + 1, entryId).Ok?
    ensures var waiting := Creating(s, t, walletId, playerId, initial, Stage.Waiting);
            Do(s, Open(t, walletId, playerId, initial)) == waiting
            && Do(waiting, Advance(t, entryId)) == Creating(s, t, walletId, playerId, initial, Inserted)
  {
    var a := Creating(s, t, walletId, playerId, initial, Stage.Waiting);
    var b := Creating(s, t, walletId, playerId, initial, Inserted);
    assert s.txns[t := a.txns[t]] == a.txns && a.txns[t := b.txns[t]] == b.txns;
    assert !Blocked(a, t);
    hide Blocked;
  }

  lemma CreateCommits(s: Sys, t: nat, walletId: WalletId, playerId: string, initial: Money, entryId: int)
    requires s.txns == map[] && walletId !in s.db.wallets
    requires Create(s.db, walletId, playerId, initial, s.clock + 1, entryId).Ok?
    ensures Do(Creating(s, t, walletId, playerId, initial, Inserted), Advance(t, entryId))
         == s.(db := Create(s.db, walletId, playerId, initial, s.clock + 1, entryId).value, clock := s.clock + 1)
  {
    var b := Creating(s, t, walletId, playerId, initial, Inserted);
    assert !Blocked(b, t) && b.txns - {t} == s.txns;
    hide Blocked, Create;
  }

  lemma RunThree(s: Sys, a: Action, b: Action, c: Action)
    ensures Run(s, [a, b, c]) == Do(Do(Do(s, a), b), c)
  {
    hide Do;
    assert [a, b, c][1..] == [b, c] && [b, c][1..] == [c] && [c][1..] == [];
    assert Run(Do(Do(s, a), b), [c]) == Run(Do(Do(Do(s, a), b), c), []);
    assert Run(Do(s, a), [b, c]) == Run(Do(Do(s, a), b), [c]);
  }

  /** A creation alone, with nobody else about. */
  lemma CreateAlone(s: Sys, t: nat, walletId: WalletId, playerId: string, initial: Money, entryId: int)
    requires s.txns == map[] && walletId !in s.db.wallets && !Blank(initial.currency)
    requires Create(s.db, walletId, playerId, initial, s.clock + 1, entryId).Ok?
    ensures Run(s, Creation(t, walletId, playerId, initial, entryId))
         == s.(db := Create(s.db, walletId, playerId, initial, s.clock + 1, entryId).value, clock := s.clock + 1)
  {
    CreateSteps(s, t, walletId, playerId, initial, entryId);
    CreateCommits(s, t, walletId, playerId, initial, entryId);
    hide Do, Create, Run, Creating;
    RunThree(s, Open(t, walletId, playerId, initial), Advance(t, entryId), Advance(t, entryId));
  }
}
