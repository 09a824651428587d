/** internal/infrastructure/messaging/sqs/consumer.go: any number of consumers,
    at-least-once delivery, and a delete that follows the commit. */
module Delivery {
  import opened Common
  import opened Wallets
  import opened Wagers
  import opened Tables
  import opened Decisions
  import opened Invariant
  import opened Protocol
  import opened Safety
  import opened Runs

  /** A queued message, and the command its body decodes to, if it does. */
  datatype Parcel = Parcel(message: Message, cmd: Option<Command>)

  datatype Phase =
    | Received
    | Processing(t: nat)  // a transaction is open
    | Confirmed           // its commit was acknowledged; delete next

  datatype Consumer = Consumer(handle: nat, phase: Phase)

  /** Handles of deleted messages are remembered only to speak of them. */
  datatype Station = Station(
    sys: Sys, parcels: map<nat, Parcel>, queue: set<nat>, deleted: set<nat>, consumers: map<nat, Consumer>)

  datatype QueueAct =
    | Send(h: nat, parcel: Parcel)
    | Receive(c: nat, h: nat)                       // as often as the queue likes
    | Start(c: nat, t: nat)
    | Work(c: nat, entryId: int, heard: bool)       // one statement; a commit may go unheard
    | Crash(c: nat)
    | Delete(c: nat, succeeds: bool)
    | Redrive(h: nat)                               // retention or dead-letter queue
    | Engine(action: Action)                        // everyone else

  predicate Owned(s: Station, t: nat) {
    exists c :: c in s.consumers && s.consumers[c].phase == Processing(t)
  }

  predicate Touches(s: Station, a: Action) {
    match a
    case Tick(_) => false
    case Begin(t, _, message) => Owned(s, t) || message.Some?
    case Claim(t, _) => Owned(s, t)
    case Open(t, _, _, _) => Owned(s, t)
    case Advance(t, _) => Owned(s, t)
    case Abort(t) => Owned(s, t)
  }

  /** The transaction's next statement commits it. */
  predicate Finishes(s: Sys, t: nat) {
    && t in s.txns && !Blocked(s, t) && s.txns[t].program.Submit?
    && var x := s.txns[t];
       || (x.stage.Ready? && !x.stage.outcome.Fail?)
       || x.stage.Replaying?
       || (x.stage.Registering? && x.program.message.Some? && Completed(s.inbox, x.program.message.value))
  }

  predicate Completed(inbox: map<string, InboxRow>, message: Message) {
    message.id in inbox && inbox[message.id] == InboxRow(message.body, true)
  }

  /** What an act does to the services' own state, as actions of the protocol. */
  function Projected(s: Station, a: QueueAct): seq<Action> {
    match a
    case Start(c, t) =>
      if CanStart(s, c, t) then [Begin(t, ParcelOf(s, c).cmd.value, Some(ParcelOf(s, c).message))] else []
    case Work(c, entryId, _) =>
      if c in s.consumers && s.consumers[c].phase.Processing? then [Advance(s.consumers[c].phase.t, entryId)] else []
    case Crash(c) =>
      if c in s.consumers && s.consumers[c].phase.Processing? then [Abort(s.consumers[c].phase.t)] else []
    case Engine(action) => if Touches(s, action) then [] else [action]
    case _ => []
  }

  predicate CanStart(s: Station, c: nat, t: nat) {
    && c in s.consumers && s.consumers[c].phase.Received? && s.consumers[c].handle in s.parcels
    && t !in s.sys.txns
    && s.parcels[s.consumers[c].handle].cmd.Some? && TransportValid(s.parcels[s.consumers[c].handle].cmd.value)
  }

  function ParcelOf(s: Station, c: nat): Parcel
    requires c in s.consumers && s.consumers[c].handle in s.parcels
  {
    s.parcels[s.consumers[c].handle]
  }

  function Become(s: Station, c: nat, phase: Phase): map<nat, Consumer>
    requires c in s.consumers
  {
    s.consumers[c := s.consumers[c].(phase := phase)]
  }

  /** What an act does to queue and consumers. */
  function Handled(s: Station, a: QueueAct, sys': Sys): Station {
    match a
    case Send(h, parcel) =>
      // a body decodes to one command
      if || h in s.parcels
         || exists k :: k in s.parcels && s.parcels[k].message.body == parcel.message.body && s.parcels[k].cmd != parcel.cmd
      then s
      else s.(parcels := s.parcels[h := parcel], queue := s.queue + {h})
    case Receive(c, h) =>
      if c in s.consumers || h !in s.queue then s
      else s.(consumers := s.consumers[c := Consumer(h, Received)])
    case Start(c, t) =>
      if CanStart(s, c, t) then s.(consumers := Become(s, c, Processing(t))) else s
    case Work(c, _, heard) =>
      if c !in s.consumers || !s.consumers[c].phase.Processing? || s.consumers[c].phase.t in sys'.txns then s
      else if Finishes(s.sys, s.consumers[c].phase.t) && heard then s.(consumers := Become(s, c, Confirmed))
      else s.(consumers := s.consumers - {c})
    case Crash(c) => s.(consumers := s.consumers - {c})
    case Delete(c, succeeds) =>
      if c !in s.consumers || !s.consumers[c].phase.Confirmed? then s
      else
        var h := s.consumers[c].handle;
        var s1 := s.(consumers := s.consumers - {c});
        if succeeds then s1.(queue := s.queue - {h}, deleted := s.deleted + {h}) else s1
    case Redrive(h) => s.(queue := s.queue - {h})
    case Engine(_) => s
  }

  function DoStation(s: Station, a: QueueAct): Station {
    var sys := Run(s.sys, Projected(s, a));
    Handled(s, a, sys).(sys := sys)
  }

  const OPENING := Station(START, map[], {}, {}, map[])

  function RunStation(s: Station, acts: seq<QueueAct>): Station
    decreases |acts|
  {
    if acts == [] then s else RunStation(DoStation(s, acts[0]), acts[1..])
  }

  function Projection(s: Station, acts: seq<QueueAct>): seq<Action>
    decreases |acts|
  {
    if acts == [] then [] else Projected(s, acts[0]) + Projection(DoStation(s, acts[0]), acts[1..])
  }

  /** Whatever the queue does, the services make a run of the protocol, so all that
      holds of every run holds here. */
  lemma {:induction false} StationIsRun(s: Station, acts: seq<QueueAct>)
    ensures RunStation(s, acts).sys == Run(s.sys, Projection(s, acts))
    decreases |acts|
  {
    hide Projected, Handled;
    if acts != [] {
      StationIsRun(DoStation(s, acts[0]), acts[1..]);
      RunConcat(s.sys, Projected(s, acts[0]), Projection(DoStation(s, acts[0]), acts[1..]));
    }
  }

  // ---- The invariant

  /** The command's result is stored, and a replay will return it. */
  predicate Recorded(wagers: seq<WagerRow>, cmd: Command) {
    FindReplay(wagers, cmd).Ok? && FindReplay(wagers, cmd).value.Some?
  }

  /** The transaction has found a replay. */
  predicate Replays(stage: Stage) { stage.Recalled? || stage.Replaying? }

  predicate OpenOk(s: Station, parcel: Parcel, t: nat) {
    && t in s.sys.txns && parcel.cmd.Some?
    && s.sys.txns[t].program == Submit(parcel.cmd.value, Some(parcel.message))
    && (Replays(s.sys.txns[t].stage) ==> Recorded(s.sys.db.wagers, parcel.cmd.value))
  }

  predicate ConsumerOk(s: Station, c: nat)
    requires c in s.consumers
  {
    && s.consumers[c].handle in s.parcels
    && match s.consumers[c].phase
       case Received => true
       case Processing(t) => OpenOk(s, ParcelOf(s, c), t)
       case Confirmed => Completed(s.sys.inbox, ParcelOf(s, c).message)
  }

  predicate Decodes(parcels: map<nat, Parcel>) {
    forall h, k :: h in parcels && k in parcels && parcels[h].message.body == parcels[k].message.body ==>
      parcels[h].cmd == parcels[k].cmd
  }

  /** An inbox row was written for some parcel, and with its command's effects. */
  predicate FromParcel(s: Station, m: string)
    requires m in s.sys.inbox
  {
    exists h :: h in s.parcels && s.parcels[h].message == Message(m, s.sys.inbox[m].body)
                && s.parcels[h].cmd.Some? && Recorded(s.sys.db.wagers, s.parcels[h].cmd.value)
  }

  predicate ConsumersOk(s: Station) {
    forall c :: c in s.consumers ==> ConsumerOk(s, c)
  }

  /** No two consumers share a transaction. */
  predicate Separate(consumers: map<nat, Consumer>) {
    forall c, d :: c in consumers && d in consumers && c != d && consumers[c].phase.Processing? ==>
      consumers[d].phase != consumers[c].phase
  }

  /** Only consumers' transactions carry messages. */
  predicate OthersPlain(s: Station) {
    forall t :: t in s.sys.txns && !Owned(s, t) && s.sys.txns[t].program.Submit? ==> s.sys.txns[t].program.message.None?
  }

  predicate InboxFrom(s: Station) {
    forall m :: m in s.sys.inbox ==> FromParcel(s, m)
  }

  predicate DeletedOk(s: Station) {
    forall h :: h in s.deleted ==> h in s.parcels && Completed(s.sys.inbox, s.parcels[h].message)
  }

  predicate StationOk(s: Station) {
    && Inv(s.sys)
    && Decodes(s.parcels)
    && ConsumersOk(s)
    && Separate(s.consumers)
    && OthersPlain(s)
    && InboxFrom(s)
    && DeletedOk(s)
    && s.queue <= s.parcels.Keys
  }

  // ---- What one step of a transaction leaves alone

  /** The step changes at most transaction t, and the inbox only by completing
      t's message as t finishes. */
  predicate Framed(s: Sys, s': Sys, t: nat)
    requires t in s.txns
  {
    var x := s.txns[t];
    && s'.txns - {t} == s.txns - {t}
    && (t in s'.txns ==> s'.txns[t].program == x.program)
    && (t in s'.txns ==> s'.inbox == s.inbox)
    && (s'.inbox == s.inbox
        || (x.program.Submit? && x.program.message.Some? && s'.inbox == Enter(s.inbox, x.program.message, x.own)))
  }

  lemma ProceedsFramed(s: Sys, s': Sys, t: nat)
    requires t in s.txns && Proceeds(s, s', t)
    ensures Framed(s, s', t)
  {
    hide TxnOk, Follows;
  }

  lemma SubmitFramed(s: Sys, t: nat, entryId: int)
    requires Inv(s) && t in s.txns && s.txns[t].program.Submit?
    ensures Framed(s, Step(s, t, entryId), t)
  {
    TxnHolds(s, t);
    assert Past(s.db.ledger, s.clock);
    hide Inv, Step, TxnOk, Past;
    if !Commits(s.txns[t]) {
      SubmitProceeds(s, t, entryId);
      hide Proceeds, Framed;
      ProceedsFramed(s, Step(s, t, entryId), t);
    } else if s.txns[t].stage.Ready? {
      ReadyRecords(s, t, entryId);
      SubmitCommitStep(s, t, entryId);
    } else {
      ReplayStep(s, t, entryId);
    }
  }

  lemma ReplayStep(s: Sys, t: nat, entryId: int)
    requires t in s.txns && s.txns[t].program.Submit? && s.txns[t].stage.Replaying?
    ensures Step(s, t, entryId) == Drop(s, t).(inbox := Enter(s.inbox, s.txns[t].program.message, s.txns[t].own))
  {
    hide Enter;
  }

  lemma ResolverFramed(s: Sys, t: nat, entryId: int)
    requires Inv(s) && t in s.txns && s.txns[t].program.Resolver?
    ensures Framed(s, Step(s, t, entryId), t)
  {
    TxnHolds(s, t);
    assert Past(s.db.ledger, s.clock);
    hide Inv, Step, TxnOk, Past;
    if !Commits(s.txns[t]) {
      ResolverProceeds(s, t, entryId);
      hide Proceeds, Framed;
      ProceedsFramed(s, Step(s, t, entryId), t);
    } else {
      ResolverCommittable(s, t, entryId);
      ResolverCommitStep(s, t, entryId);
      hide Committable;
    }
  }

  lemma CreatorFramed(s: Sys, t: nat, entryId: int)
    requires t in s.txns && s.txns[t].program.Creator?
    ensures Framed(s, Step(s, t, entryId), t)
  {
    hide Create;
  }

  lemma Unmoved(s: Sys, t: nat)
    requires t in s.txns
    ensures Framed(s, s, t)
  {
  }

  lemma AdvanceFramed(s: Sys, t: nat, entryId: int)
    requires Inv(s) && t in s.txns
    ensures Framed(s, Do(s, Advance(t, entryId)), t)
  {
    hide Inv, Step, Framed, Blocked;
    Unmoved(s, t);
    match s.txns[t].program {
      case Submit(_, _) => SubmitFramed(s, t, entryId);
      case Resolver(_, _) => ResolverFramed(s, t, entryId);
      case Creator(_, _) => CreatorFramed(s, t, entryId);
    }
  }

  // ---- The command of a finished transaction is recorded

  lemma ReadyRecords(s: Sys, t: nat, entryId: int)
    requires Inv(s) && t in s.txns && s.txns[t].program.Submit? && s.txns[t].stage.Ready?
    ensures !s.txns[t].stage.outcome.Fail?
    ensures Recorded(Step(s, t, entryId).db.wagers, s.txns[t].program.cmd)
  {
    var x := s.txns[t];
    TxnHolds(s, t);
    hide Inv, TxnOk, Step;
    ReadySubmit(s.db, s.inbox, s.clock, x);
    SubmitCommitStep(s, t, entryId);
    hide KeyFree, SyncWrites, Recorded;
    InsertedRecorded(s.db.wagers, x.program.cmd, x.stage.wallet, x.stage.outcome, x.stage.now, entryId);
  }

  lemma InsertedRecorded(wagers: seq<WagerRow>, cmd: Command, wallet: WalletRow, outcome: Outcome, now: Time, entryId: int)
    requires !outcome.Fail? && KeyFree(wagers, cmd)
    ensures Recorded(Put(wagers, |wagers|, SyncWrites(cmd, |wagers|, wallet, outcome, now, entryId).row), cmd)
  {
    var row := SyncWrites(cmd, |wagers|, wallet, outcome, now, entryId).row;
    var after := Put(wagers, |wagers|, row);
    var found := FindByKey(after, cmd.request.providerId, cmd.idempotencyKey);
    assert HasKey(after[|wagers|], cmd.request.providerId, cmd.idempotencyKey);
    assert found.Some? && found.value == |wagers| by {
      assert forall i :: 0 <= i < |wagers| ==> after[i] == wagers[i];
    }
  }

  lemma RecordedGrows(db: Db, db': Db, cmd: Command)
    requires Grows(db, db') && Recorded(db.wagers, cmd)
    ensures Recorded(db'.wagers, cmd)
  {
    KeyGrows(db, db', cmd.request.providerId, cmd.idempotencyKey);
  }

  lemma SettleNeverReplays(s: Sys, t: nat, wallet: WalletRow, outcome: Outcome)
    requires t in s.txns && t in Settle(s, t, wallet, outcome).txns
    ensures !Replays(Settle(s, t, wallet, outcome).txns[t].stage)
  {
  }

  lemma ReplayChecks(s: Sys, t: nat, entryId: int)
    requires t in s.txns && s.txns[t].program.Submit? && !Replays(s.txns[t].stage) && !s.txns[t].stage.Ready?
    requires t in Step(s, t, entryId).txns && Replays(Step(s, t, entryId).txns[t].stage)
    ensures s.txns[t].stage.Starting? || s.txns[t].stage.Locked?
  {
    hide Settle, Apply, Decide, Move, ReadReference, Finish, Precheck, LockWallet, CheckOwner, FindReplay;
    var stage, r := s.txns[t].stage, s.txns[t].program.cmd.request;
    if stage.Admitted? || stage.Referenced? {
      forall wallet, outcome | t in Settle(s, t, wallet, outcome).txns
        ensures !Replays(Settle(s, t, wallet, outcome).txns[t].stage)
      {
        SettleNeverReplays(s, t, wallet, outcome);
      }
    }
  }

  /** A transaction that goes on to replay has found its command recorded. */
  lemma ReplayingRecorded(s: Sys, t: nat, entryId: int)
    requires t in s.txns && s.txns[t].program.Submit? && !Replays(s.txns[t].stage) && !s.txns[t].stage.Ready?
    requires t in Step(s, t, entryId).txns && Replays(Step(s, t, entryId).txns[t].stage)
    ensures Recorded(s.db.wagers, s.txns[t].program.cmd) && Step(s, t, entryId).db == s.db
  {
    ReplayChecks(s, t, entryId);
    hide FindReplay, Settle, Apply, Precheck, LockWallet;
  }

  /** Before a transaction commits, Complete has run on its inbox row. */
  lemma FinishedOwn(db: Db, inbox: map<string, InboxRow>, clock: Time, x: Txn)
    requires TxnOk(db, inbox, clock, x) && x.program.Submit? && (x.stage.Ready? || x.stage.Replaying?)
    ensures x.program.message.Some? ==> x.own == Some(InboxRow(x.program.message.value.body, true))
  {
  }

  lemma FinishedInbox(s: Sys, t: nat, entryId: int)
    requires Finishes(s, t) && s.txns[t].program.message.Some?
    requires !s.txns[t].stage.Registering? ==> s.txns[t].own == Some(InboxRow(s.txns[t].program.message.value.body, true))
    ensures Completed(Do(s, Advance(t, entryId)).inbox, s.txns[t].program.message.value)
    ensures !s.txns[t].stage.Ready? ==> Do(s, Advance(t, entryId)).db == s.db
  {
    hide Blocked, SyncWrites, Apply;
  }

  lemma FinishesStage(s: Sys, t: nat)
    requires Finishes(s, t) && !s.txns[t].stage.Registering?
    ensures s.txns[t].stage.Ready? || s.txns[t].stage.Replaying?
  {
  }

  /** A finished transaction leaves its message complete and, unless it only found
      the message complete already, its command recorded. */
  lemma FinishedCompletes(s: Sys, t: nat, entryId: int)
    requires Inv(s) && Finishes(s, t) && s.txns[t].program.message.Some?
    requires s.txns[t].stage.Replaying? ==> Recorded(s.db.wagers, s.txns[t].program.cmd)
    ensures Completed(Do(s, Advance(t, entryId)).inbox, s.txns[t].program.message.value)
    ensures !s.txns[t].stage.Registering? ==> Recorded(Do(s, Advance(t, entryId)).db.wagers, s.txns[t].program.cmd)
  {
    TxnHolds(s, t);
    assert t in s.txns && !Blocked(s, t) && s.txns[t].program.Submit?;
    hide Inv, TxnOk, Finishes, Recorded, Step, Blocked, Completed, Do;
    if !s.txns[t].stage.Registering? {
      FinishesStage(s, t);
      FinishedOwn(s.db, s.inbox, s.clock, s.txns[t]);
    }
    FinishedInbox(s, t, entryId);
    AdvanceIsStep(s, t, entryId);
    if s.txns[t].stage.Ready? {
      ReadyRecords(s, t, entryId);
    }
  }

  /** The inbox changes only as a transaction finishes. */
  lemma InboxOnlyFinished(s: Sys, t: nat, entryId: int)
    requires t in s.txns && s.txns[t].program.Submit? && Do(s, Advance(t, entryId)).inbox != s.inbox
    ensures Finishes(s, t) && !s.txns[t].stage.Registering?
  {
    hide SyncWrites, Apply, Decide, Move, ReadReference, Finish, FindReplay, Precheck, LockWallet, CheckOwner;
  }

  // ---- Acts keep the invariant

  predicate Onward(s: Sys, s': Sys) {
    Grows(s.db, s'.db) && forall m :: m in s.inbox ==> m in s'.inbox && s'.inbox[m] == s.inbox[m]
  }

  lemma DoOnward(s: Sys, a: Action)
    requires Inv(s)
    ensures Onward(s, Do(s, a))
  {
    DoGrows(s, a);
    if a.Advance? && a.t in s.txns {
      AdvanceFramed(s, a.t, a.entryId);
      if Do(s, a).inbox != s.inbox {
        InboxOnlyFinished(s, a.t, a.entryId);
        assert TxnOk(s.db, s.inbox, s.clock, s.txns[a.t]) && InboxComplete(s.inbox);
      }
      hide Inv, TxnOk, Grows, Step, Blocked;
    } else {
      hide Inv, Grows, Step, Blocked;
    }
  }

  predicate SameParcels(s: Station, s': Station) {
    forall h :: h in s.parcels ==> h in s'.parcels && s'.parcels[h] == s.parcels[h]
  }

  /** What was complete or recorded stays so. */
  lemma StillFromParcel(s: Station, s': Station, m: string)
    requires Onward(s.sys, s'.sys) && SameParcels(s, s') && m in s.sys.inbox && FromParcel(s, m)
    ensures m in s'.sys.inbox && FromParcel(s', m)
  {
    var h :| h in s.parcels && s.parcels[h].message == Message(m, s.sys.inbox[m].body)
             && s.parcels[h].cmd.Some? && Recorded(s.sys.db.wagers, s.parcels[h].cmd.value);
    RecordedGrows(s.sys.db, s'.sys.db, s.parcels[h].cmd.value);
    assert s'.parcels[h] == s.parcels[h];
  }

  lemma StillConsumer(s: Station, s': Station, c: nat)
    requires Onward(s.sys, s'.sys) && SameParcels(s, s') && c in s.consumers && ConsumerOk(s, c)
    requires c in s'.consumers && s'.consumers[c] == s.consumers[c]
    requires s.consumers[c].phase.Processing? ==>
               s.consumers[c].phase.t in s'.sys.txns
               && s'.sys.txns[s.consumers[c].phase.t] == s.sys.txns[s.consumers[c].phase.t]
    ensures ConsumerOk(s', c)
  {
    assert s'.parcels[s.consumers[c].handle] == s.parcels[s.consumers[c].handle];
    hide Grows, Recorded;
    if s.consumers[c].phase.Processing? && Replays(s.sys.txns[s.consumers[c].phase.t].stage) {
      RecordedGrows(s.sys.db, s'.sys.db, ParcelOf(s, c).cmd.value);
    }
  }

  lemma StillInbox(s: Station, s': Station)
    requires InboxFrom(s) && Onward(s.sys, s'.sys) && SameParcels(s, s')
    ensures forall m :: m in s.sys.inbox ==> m in s'.sys.inbox && FromParcel(s', m)
  {
    hide Onward, FromParcel, SameParcels;
    forall m | m in s.sys.inbox ensures m in s'.sys.inbox && FromParcel(s', m) {
      StillFromParcel(s, s', m);
    }
  }

  lemma StillDeleted(s: Station, s': Station)
    requires DeletedOk(s) && Onward(s.sys, s'.sys) && SameParcels(s, s') && s'.deleted == s.deleted
    ensures DeletedOk(s')
  {
    hide Grows;
  }

  lemma OnwardSelf(s: Sys)
    ensures Onward(s, s)
  {
  }

  /** The services stand still, and so do the consumers left. */
  lemma StillOk(s: Station, s': Station)
    requires StationOk(s) && s'.sys == s.sys && SameParcels(s, s') && Decodes(s'.parcels)
    requires forall c :: c in s'.consumers && c in s.consumers ==> s'.consumers[c] == s.consumers[c]
    requires forall c :: c in s'.consumers && c !in s.consumers ==> s'.consumers[c].phase.Received? && ConsumerOk(s', c)
    requires forall c :: c in s.consumers && s.consumers[c].phase.Processing? ==> c in s'.consumers
    requires s'.deleted == s.deleted || DeletedOk(s')
    requires s'.queue <= s'.parcels.Keys
    ensures StationOk(s')
  {
    OnwardSelf(s.sys);
    hide Inv, Onward, Decodes, SameParcels, FromParcel, Completed, Recorded;
    StillInbox(s, s');
    if s'.deleted == s.deleted { StillDeleted(s, s'); }
    forall c | c in s'.consumers ensures ConsumerOk(s', c) {
      if c in s.consumers {
        assert ConsumerOk(s, c);
        StillConsumer(s, s', c);
      }
    }
    hide ConsumerOk;
    assert OthersPlain(s') by {
      assert forall t :: Owned(s, t) ==> Owned(s', t) by {
        forall t | Owned(s, t) ensures Owned(s', t) {
          var c :| c in s.consumers && s.consumers[c].phase == Processing(t);
          assert s'.consumers[c] == s.consumers[c];
        }
      }
    }
  }

  lemma SendShape(s: Station, h: nat, parcel: Parcel)
    ensures var s' := DoStation(s, Send(h, parcel));
            || s' == s
            || (h !in s.parcels && s' == s.(parcels := s.parcels[h := parcel], queue := s.queue + {h})
                && forall k :: k in s.parcels && s.parcels[k].message.body == parcel.message.body ==> s.parcels[k].cmd == parcel.cmd)
  {
  }

  lemma SendDecodes(parcels: map<nat, Parcel>, h: nat, parcel: Parcel)
    requires Decodes(parcels) && h !in parcels
    requires forall k :: k in parcels && parcels[k].message.body == parcel.message.body ==> parcels[k].cmd == parcel.cmd
    ensures Decodes(parcels[h := parcel])
  {
  }

  lemma SendOk(s: Station, h: nat, parcel: Parcel)
    requires StationOk(s)
    ensures StationOk(DoStation(s, Send(h, parcel)))
  {
    var s' := DoStation(s, Send(h, parcel));
    hide DoStation, Inv, ConsumersOk, OthersPlain, Separate, InboxFrom, DeletedOk, Decodes;
    SendShape(s, h, parcel);
    if s' != s {
      SendDecodes(s.parcels, h, parcel);
      assert SameParcels(s, s') && s'.queue <= s'.parcels.Keys;
      StillOk(s, s');
    }
  }

  lemma ReceiveOk(s: Station, c: nat, h: nat)
    requires StationOk(s)
    ensures StationOk(DoStation(s, Receive(c, h)))
  {
    hide Inv, Decodes, OthersPlain, InboxFrom, DeletedOk, Separate;
    StillOk(s, DoStation(s, Receive(c, h)));
  }

  lemma DeleteShape(s: Station, c: nat, succeeds: bool)
    ensures DoStation(s, Delete(c, succeeds))
         == if c !in s.consumers || !s.consumers[c].phase.Confirmed? then s
            else if succeeds then
              var h := s.consumers[c].handle;
              s.(consumers := s.consumers - {c}, queue := s.queue - {h}, deleted := s.deleted + {h})
            else s.(consumers := s.consumers - {c})
  {
  }

  /** Only what is confirmed is deleted, and what is confirmed is complete. */
  lemma ConfirmedComplete(s: Station, c: nat)
    requires ConsumersOk(s) && c in s.consumers && s.consumers[c].phase.Confirmed?
    ensures s.consumers[c].handle in s.parcels && Completed(s.sys.inbox, ParcelOf(s, c).message)
  {
    assert ConsumerOk(s, c);
  }

  lemma DeletedMore(s: Station, s': Station, h: nat)
    requires DeletedOk(s) && h in s.parcels && Completed(s.sys.inbox, s.parcels[h].message)
    requires s'.sys == s.sys && s'.parcels == s.parcels && s'.deleted <= s.deleted + {h}
    ensures DeletedOk(s') && SameParcels(s, s')
  {
  }

  lemma DeleteOk(s: Station, c: nat, succeeds: bool)
    requires StationOk(s)
    ensures StationOk(DoStation(s, Delete(c, succeeds)))
  {
    hide DoStation, ConsumersOk, OthersPlain, Separate, InboxFrom, DeletedOk, SameParcels, Decodes, Inv, Completed;
    DeleteShape(s, c, succeeds);
    if c in s.consumers && s.consumers[c].phase.Confirmed? {
      var s' := DoStation(s, Delete(c, succeeds));
      ConfirmedComplete(s, c);
      DeletedMore(s, s', s.consumers[c].handle);
      StillOk(s, s');
    }
  }

  /** A transaction opened for consumer c: nothing else changes. */
  predicate Starts(s: Station, s': Station, c: nat, t: nat)
    requires c in s.consumers && s.consumers[c].handle in s.parcels
  {
    && t !in s.sys.txns && ParcelOf(s, c).cmd.Some?
    && s'.sys == s.sys.(txns := s.sys.txns[t := Txn(Submit(ParcelOf(s, c).cmd.value, Some(ParcelOf(s, c).message)), Registering, None)])
    && s' == s.(sys := s'.sys, consumers := Become(s, c, Processing(t)))
    && s.consumers[c].phase.Received?
  }

  lemma StartShape(s: Station, c: nat, t: nat)
    requires CanStart(s, c, t)
    ensures Starts(s, DoStation(s, Start(c, t)), c, t)
    ensures var a := Begin(t, ParcelOf(s, c).cmd.value, Some(ParcelOf(s, c).message));
            DoStation(s, Start(c, t)).sys == Do(s.sys, a)
  {
    var a := Begin(t, ParcelOf(s, c).cmd.value, Some(ParcelOf(s, c).message));
    assert Projected(s, Start(c, t)) == [a];
    assert Run(s.sys, [a]) == Do(s.sys, a) by {
      assert [a][1..] == [];
      hide Do;
    }
  }

  lemma OthersStart(s: Station, s': Station, c: nat, t: nat, d: nat)
    requires c in s.consumers && s.consumers[c].handle in s.parcels && Starts(s, s', c, t)
    requires Onward(s.sys, s'.sys) && d in s.consumers && d != c && ConsumerOk(s, d)
    ensures ConsumerOk(s', d) && s'.consumers[d] == s.consumers[d] && s'.consumers[d].phase != Processing(t)
  {
    assert SameParcels(s, s');
    assert s'.consumers[d] == s.consumers[d];
    hide Onward, SameParcels;
    StillConsumer(s, s', d);
  }

  lemma StartConsumers(s: Station, s': Station, c: nat, t: nat)
    requires ConsumersOk(s) && Separate(s.consumers) && Onward(s.sys, s'.sys)
    requires c in s.consumers && s.consumers[c].handle in s.parcels && Starts(s, s', c, t)
    ensures ConsumersOk(s') && Separate(s'.consumers)
  {
    assert ConsumerOk(s', c);
    hide Onward, ConsumerOk;
    forall d | d in s.consumers && d != c
      ensures ConsumerOk(s', d) && s'.consumers[d] == s.consumers[d] && s'.consumers[d].phase != Processing(t)
    {
      assert ConsumerOk(s, d);
      OthersStart(s, s', c, t, d);
    }
  }

  lemma StartOthers(s: Station, s': Station, c: nat, t: nat)
    requires OthersPlain(s) && c in s.consumers && s.consumers[c].handle in s.parcels && Starts(s, s', c, t)
    ensures OthersPlain(s')
  {
    assert s'.consumers[c].phase == Processing(t);
    assert Owned(s', t);
    forall u | Owned(s, u) ensures Owned(s', u) {
      var d :| d in s.consumers && s.consumers[d].phase == Processing(u);
      assert s'.consumers[d] == s.consumers[d];
    }
  }

  lemma StartOk(s: Station, c: nat, t: nat)
    requires StationOk(s) && CanStart(s, c, t)
    ensures StationOk(DoStation(s, Start(c, t)))
  {
    var s' := DoStation(s, Start(c, t));
    var a := Begin(t, ParcelOf(s, c).cmd.value, Some(ParcelOf(s, c).message));
    StartShape(s, c, t);
    DoInv(s.sys, a);
    DoOnward(s.sys, a);
    assert SameParcels(s, s');
    hide Inv, Do, DoStation, Onward, SameParcels, FromParcel, ConsumersOk, Separate, OthersPlain, CanStart, Decodes;
    StillInbox(s, s');
    StillDeleted(s, s');
    StartConsumers(s, s', c, t);
    StartOthers(s, s', c, t);
    assert InboxFrom(s');
  }

  /** What a consumer's transaction may do in one step. */
  predicate Worked(s: Sys, s': Sys, t: nat, cmd: Command, message: Message) {
    && t in s.txns && Inv(s') && Onward(s, s') && Framed(s, s', t)
    && (t in s'.txns && Replays(s'.txns[t].stage) ==> Recorded(s'.db.wagers, cmd))
    && (t !in s'.txns && Finishes(s, t) ==> Completed(s'.inbox, message))
    && (s'.inbox != s.inbox ==> s'.inbox == s.inbox[message.id := InboxRow(message.body, true)] && Recorded(s'.db.wagers, cmd))
  }

  /** The last statement of a transaction leaves none to run. */
  lemma LastStep(s: Sys, t: nat, entryId: int)
    requires t in s.txns && s.txns[t].program.Submit? && t in Step(s, t, entryId).txns
    ensures !s.txns[t].stage.Replaying? && !s.txns[t].stage.Ready?
    ensures s.txns[t].stage.Recalled? ==> Step(s, t, entryId).db == s.db
  {
    hide SyncWrites, Apply, Enter;
  }

  lemma ReplayingStep(s: Sys, t: nat, entryId: int)
    requires Inv(s) && t in s.txns && s.txns[t].program.Submit?
    requires Replays(s.txns[t].stage) ==> Recorded(s.db.wagers, s.txns[t].program.cmd)
    requires t in Do(s, Advance(t, entryId)).txns && Replays(Do(s, Advance(t, entryId)).txns[t].stage)
    ensures Recorded(Do(s, Advance(t, entryId)).db.wagers, s.txns[t].program.cmd)
  {
    hide Inv, Step, Recorded, Blocked;
    if !Blocked(s, t) {
      LastStep(s, t, entryId);
      if !Replays(s.txns[t].stage) {
        ReplayingRecorded(s, t, entryId);
      }
    }
  }

  lemma WorkFacts(s: Sys, t: nat, cmd: Command, message: Message, entryId: int)
    requires Inv(s) && t in s.txns && s.txns[t].program == Submit(cmd, Some(message))
    requires Replays(s.txns[t].stage) ==> Recorded(s.db.wagers, cmd)
    ensures Worked(s, Do(s, Advance(t, entryId)), t, cmd, message)
  {
    var a, s' := Advance(t, entryId), Do(s, Advance(t, entryId));
    DoInv(s, a);
    DoOnward(s, a);
    AdvanceFramed(s, t, entryId);
    TxnHolds(s, t);
    hide Inv, TxnOk, Onward, Recorded, Completed, Do, Finishes;
    if t in s'.txns && Replays(s'.txns[t].stage) {
      ReplayingStep(s, t, entryId);
    }
    if s'.inbox != s.inbox {
      InboxOnlyFinished(s, t, entryId);
      FinishesStage(s, t);
      FinishedOwn(s.db, s.inbox, s.clock, s.txns[t]);
    }
    if Finishes(s, t) {
      FinishedCompletes(s, t, entryId);
    }
  }

  /** Consumer c after a step of its transaction t. */
  predicate Turned(s: Station, s': Station, c: nat, t: nat) {
    && c in s.consumers && s.consumers[c].phase == Processing(t)
    && s' == s.(sys := s'.sys, consumers := s'.consumers)
    && s'.consumers == if t in s'.sys.txns then s.consumers
                       else if c in s'.consumers && Finishes(s.sys, t) then Become(s, c, Confirmed)
                       else s.consumers - {c}
  }

  lemma WorkShape(s: Station, c: nat, entryId: int, heard: bool)
    requires c in s.consumers && s.consumers[c].phase.Processing?
    ensures var t, s' := s.consumers[c].phase.t, DoStation(s, Work(c, entryId, heard));
            s'.sys == Do(s.sys, Advance(t, entryId)) && Turned(s, s', c, t)
  {
    var a := Advance(s.consumers[c].phase.t, entryId);
    assert Projected(s, Work(c, entryId, heard)) == [a];
    assert Run(s.sys, [a]) == Do(s.sys, a) by {
      assert [a][1..] == [];
      hide Do;
    }
    hide Do, Run, Finishes;
  }

  lemma OwnTurn(s: Station, s': Station, c: nat, t: nat)
    requires Turned(s, s', c, t) && ConsumerOk(s, c) && ParcelOf(s, c).cmd.Some? && c in s'.consumers
    requires Worked(s.sys, s'.sys, t, ParcelOf(s, c).cmd.value, ParcelOf(s, c).message)
    ensures ConsumerOk(s', c)
  {
    hide Inv, Onward, Recorded, Completed, Finishes;
  }

  lemma OthersTurn(s: Station, s': Station, c: nat, t: nat, d: nat)
    requires Turned(s, s', c, t) && Separate(s.consumers) && t in s.sys.txns && Framed(s.sys, s'.sys, t)
    requires Onward(s.sys, s'.sys) && d in s'.consumers && d != c && ConsumerOk(s, d)
    ensures s'.consumers[d] == s.consumers[d] && ConsumerOk(s', d)
  {
    assert SameParcels(s, s');
    assert s'.consumers[d] == s.consumers[d];
    hide Onward, SameParcels;
    if s.consumers[d].phase.Processing? {
      var u := s.consumers[d].phase.t;
      assert u in s.sys.txns by { assert OpenOk(s, ParcelOf(s, d), u); }
      assert u in s.sys.txns - {t};
      assert u in s'.sys.txns - {t} && (s'.sys.txns - {t})[u] == (s.sys.txns - {t})[u];
    }
    StillConsumer(s, s', d);
  }

  lemma WorkConsumers(s: Station, s': Station, c: nat, t: nat)
    requires ConsumersOk(s) && Separate(s.consumers)
    requires Turned(s, s', c, t) && s.consumers[c].handle in s.parcels && ParcelOf(s, c).cmd.Some?
    requires Worked(s.sys, s'.sys, t, ParcelOf(s, c).cmd.value, ParcelOf(s, c).message)
    ensures ConsumersOk(s') && Separate(s'.consumers)
  {
    hide ConsumerOk, Inv, Onward, Framed, Recorded, Completed, Finishes;
    forall d | d in s'.consumers ensures ConsumerOk(s', d) && (d != c ==> s'.consumers[d] == s.consumers[d]) {
      assert ConsumerOk(s, d);
      if d == c {
        OwnTurn(s, s', c, t);
      } else {
        OthersTurn(s, s', c, t, d);
      }
    }
    hide Worked;
  }

  lemma StillOwned(s: Station, s': Station, c: nat, t: nat, u: nat)
    requires Turned(s, s', c, t) && u in s'.sys.txns
    ensures Owned(s, u) || u == t ==> Owned(s', u)
  {
    if u == t {
      assert s'.consumers[c].phase == Processing(t);
    } else if Owned(s, u) {
      var d :| d in s.consumers && s.consumers[d].phase == Processing(u);
      assert d in s'.consumers && s'.consumers[d] == s.consumers[d];
    }
  }

  lemma WorkOthers(s: Station, s': Station, c: nat, t: nat)
    requires OthersPlain(s) && Turned(s, s', c, t) && t in s.sys.txns && Framed(s.sys, s'.sys, t)
    ensures OthersPlain(s')
  {
    forall u | u in s'.sys.txns && !Owned(s', u) && s'.sys.txns[u].program.Submit?
      ensures s'.sys.txns[u].program.message.None?
    {
      StillOwned(s, s', c, t, u);
      assert u in s'.sys.txns - {t};
      assert u in s.sys.txns - {t} && (s'.sys.txns - {t})[u] == (s.sys.txns - {t})[u];
    }
  }

  lemma WorkInbox(s: Station, s': Station, c: nat, t: nat)
    requires InboxFrom(s) && Turned(s, s', c, t) && s.consumers[c].handle in s.parcels && ParcelOf(s, c).cmd.Some?
    requires Worked(s.sys, s'.sys, t, ParcelOf(s, c).cmd.value, ParcelOf(s, c).message)
    ensures InboxFrom(s')
  {
    assert SameParcels(s, s');
    hide Inv, Finishes, Recorded;
    StillInbox(s, s');
    forall m | m in s'.sys.inbox && m !in s.sys.inbox ensures FromParcel(s', m) {
      var h := s.consumers[c].handle;
      assert s'.parcels[h].message == Message(m, s'.sys.inbox[m].body);
    }
  }

  lemma WorkOk(s: Station, c: nat, entryId: int, heard: bool)
    requires StationOk(s)
    ensures StationOk(DoStation(s, Work(c, entryId, heard)))
  {
    if c in s.consumers && s.consumers[c].phase.Processing? {
      var t, s' := s.consumers[c].phase.t, DoStation(s, Work(c, entryId, heard));
      assert ConsumerOk(s, c);
      WorkShape(s, c, entryId, heard);
      hide Do, DoStation, Inv, Onward, Recorded, Finishes, Completed, ConsumersOk, OthersPlain, InboxFrom, Separate, Decodes, Framed;
      WorkFacts(s.sys, t, ParcelOf(s, c).cmd.value, ParcelOf(s, c).message, entryId);
      WorkConsumers(s, s', c, t);
      WorkOthers(s, s', c, t);
      WorkInbox(s, s', c, t);
      assert SameParcels(s, s');
      StillDeleted(s, s');
    }
  }

  lemma CrashShape(s: Station, c: nat)
    requires c in s.consumers && s.consumers[c].phase.Processing?
    ensures var t := s.consumers[c].phase.t;
            DoStation(s, Crash(c)) == s.(sys := Drop(s.sys, t), consumers := s.consumers - {c})
            && Drop(s.sys, t) == Do(s.sys, Abort(t))
  {
    var a := Abort(s.consumers[c].phase.t);
    assert Projected(s, Crash(c)) == [a];
    assert Run(s.sys, [a]) == Do(s.sys, a) by {
      assert [a][1..] == [];
    }
  }

  lemma CrashTurns(s: Station, s': Station, c: nat, t: nat)
    requires c in s.consumers && s.consumers[c].phase == Processing(t) && t in s.sys.txns
    requires s' == s.(sys := Drop(s.sys, t), consumers := s.consumers - {c})
    ensures Turned(s, s', c, t) && Framed(s.sys, s'.sys, t) && SameParcels(s, s')
  {
    hide Finishes;
  }

  lemma CrashConsumers(s: Station, s': Station, c: nat, t: nat)
    requires ConsumersOk(s) && Separate(s.consumers) && Onward(s.sys, s'.sys)
    requires Turned(s, s', c, t) && c !in s'.consumers && t in s.sys.txns && Framed(s.sys, s'.sys, t)
    ensures ConsumersOk(s') && Separate(s'.consumers)
  {
    hide ConsumerOk, Onward, Framed, Finishes;
    forall d | d in s'.consumers ensures ConsumerOk(s', d) && s'.consumers[d] == s.consumers[d] {
      assert ConsumerOk(s, d);
      OthersTurn(s, s', c, t, d);
    }
  }

  lemma CrashOk(s: Station, c: nat)
    requires StationOk(s) && c in s.consumers && s.consumers[c].phase.Processing?
    ensures StationOk(DoStation(s, Crash(c)))
  {
    var t, s' := s.consumers[c].phase.t, DoStation(s, Crash(c));
    assert t in s.sys.txns by { assert ConsumerOk(s, c); }
    CrashShape(s, c);
    DoInv(s.sys, Abort(t));
    DoOnward(s.sys, Abort(t));
    CrashTurns(s, s', c, t);
    hide Do, DoStation, Inv, Onward, Framed, FromParcel, ConsumersOk, Separate, OthersPlain, Decodes, SameParcels, Turned;
    CrashConsumers(s, s', c, t);
    WorkOthers(s, s', c, t);
    StillInbox(s, s');
    StillDeleted(s, s');
  }

  /** A consumer that had no transaction open is gone without a trace. */
  lemma CrashIdle(s: Station, c: nat)
    requires StationOk(s) && !(c in s.consumers && s.consumers[c].phase.Processing?)
    ensures StationOk(DoStation(s, Crash(c)))
  {
    var s' := DoStation(s, Crash(c));
    assert s' == s.(consumers := s.consumers - {c});
    assert SameParcels(s, s');
    hide DoStation, Inv, ConsumersOk, OthersPlain, Separate, InboxFrom, DeletedOk, SameParcels, Decodes;
    StillOk(s, s');
  }

  // ---- Everyone else

  /** An action of the services that no consumer is part of. */
  predicate Elsewhere(s: Station, s': Station, a: Action) {
    && !Touches(s, a) && s' == s.(sys := Do(s.sys, a))
  }

  lemma ElsewhereTxns(s: Station, s': Station, a: Action, u: nat)
    requires Inv(s.sys) && Elsewhere(s, s', a)
    ensures Owned(s, u) && u in s.sys.txns ==> u in s'.sys.txns && s'.sys.txns[u] == s.sys.txns[u]
    ensures u in s'.sys.txns && s'.sys.txns[u].program.Submit? && u !in s.sys.txns ==> s'.sys.txns[u].program.message.None?
    ensures u in s'.sys.txns && u in s.sys.txns ==> s'.sys.txns[u].program == s.sys.txns[u].program
  {
    if a.Advance? && a.t in s.sys.txns {
      AdvanceFramed(s.sys, a.t, a.entryId);
      assert u != a.t ==> (u in s.sys.txns <==> u in s.sys.txns - {a.t}) && (u in s'.sys.txns <==> u in s'.sys.txns - {a.t});
      if u != a.t && u in s.sys.txns {
        assert (s'.sys.txns - {a.t})[u] == (s.sys.txns - {a.t})[u];
      }
      hide Step, Blocked;
    } else {
      hide Step, Blocked;
    }
  }

  lemma ElsewhereInbox(s: Station, s': Station, a: Action)
    requires Inv(s.sys) && Elsewhere(s, s', a) && OthersPlain(s)
    ensures s'.sys.inbox == s.sys.inbox
  {
    if a.Advance? && a.t in s.sys.txns {
      AdvanceFramed(s.sys, a.t, a.entryId);
    }
    hide Step, Blocked;
  }

  lemma EngineOk(s: Station, a: Action)
    requires StationOk(s) && !Touches(s, a)
    ensures StationOk(DoStation(s, Engine(a)))
  {
    var s' := DoStation(s, Engine(a));
    EngineShape(s, a);
    DoInv(s.sys, a);
    DoOnward(s.sys, a);
    ElsewhereInbox(s, s', a);
    assert SameParcels(s, s');
    hide Do, DoStation, Inv, Onward, FromParcel, Elsewhere, SameParcels, Decodes, Completed, OpenOk;
    StillInbox(s, s');
    StillDeleted(s, s');
    forall c | c in s'.consumers ensures ConsumerOk(s', c) {
      assert ConsumerOk(s, c);
      if s.consumers[c].phase.Processing? {
        OpenThere(s, c);
        ElsewhereTxns(s, s', a, s.consumers[c].phase.t);
      }
      StillConsumer(s, s', c);
    }
    hide ConsumerOk;
    forall u | u in s'.sys.txns && !Owned(s', u) && s'.sys.txns[u].program.Submit?
      ensures s'.sys.txns[u].program.message.None?
    {
      ElsewhereTxns(s, s', a, u);
      assert Owned(s, u) <==> Owned(s', u);
    }
  }

  lemma OpenThere(s: Station, c: nat)
    requires c in s.consumers && ConsumerOk(s, c) && s.consumers[c].phase.Processing?
    ensures s.consumers[c].phase.t in s.sys.txns
  {
  }

  lemma EngineShape(s: Station, a: Action)
    requires !Touches(s, a)
    ensures Elsewhere(s, DoStation(s, Engine(a)), a)
  {
    assert Run(s.sys, [a]) == Do(s.sys, a) by {
      assert [a][1..] == [];
      hide Do;
    }
    hide Do, Run, Touches;
  }

  lemma RedriveOk(s: Station, h: nat)
    requires StationOk(s)
    ensures StationOk(DoStation(s, Redrive(h)))
  {
    var s' := DoStation(s, Redrive(h));
    assert s' == s.(queue := s.queue - {h});
    assert SameParcels(s, s');
    hide DoStation, Inv, ConsumersOk, OthersPlain, Separate, InboxFrom, DeletedOk, SameParcels, Decodes;
    StillOk(s, s');
  }

  lemma DoStationOk(s: Station, a: QueueAct)
    requires StationOk(s)
    ensures StationOk(DoStation(s, a))
  {
    hide StationOk, Handled, Touches, CanStart;
    match a {
      case Send(h, parcel) => SendOk(s, h, parcel);
      case Receive(c, h) => ReceiveOk(s, c, h);
      case Start(c, t) => if CanStart(s, c, t) { StartOk(s, c, t); } else { Nothing(s, a); }
      case Work(c, entryId, heard) => WorkOk(s, c, entryId, heard);
      case Crash(c) =>
        if c in s.consumers && s.consumers[c].phase.Processing? { CrashOk(s, c); } else { CrashIdle(s, c); }
      case Delete(c, succeeds) => DeleteOk(s, c, succeeds);
      case Redrive(h) => RedriveOk(s, h);
      case Engine(action) => if Touches(s, action) { Nothing(s, a); } else { EngineOk(s, action); }
    }
  }

  /** An act that is not enabled changes nothing. */
  lemma Nothing(s: Station, a: QueueAct)
    requires (a.Start? && !CanStart(s, a.c, a.t)) || (a.Engine? && Touches(s, a.action))
    ensures DoStation(s, a) == s
  {
  }

  lemma {:induction false} RunStationOk(s: Station, acts: seq<QueueAct>)
    requires StationOk(s)
    ensures StationOk(RunStation(s, acts))
    decreases |acts|
  {
    hide StationOk, DoStation;
    if acts != [] {
      DoStationOk(s, acts[0]);
      RunStationOk(DoStation(s, acts[0]), acts[1..]);
    }
  }

  lemma OpeningOk()
    ensures StationOk(OPENING)
  {
    StartInv();
  }

  // ---- In every run

  /** A consumer deletes a message only after its inbox row is committed complete
      and its command's result is stored for good: every later replay finds it. */
  lemma DeletedOnlyWhenRecorded(acts: seq<QueueAct>, h: nat)
    requires h in RunStation(OPENING, acts).deleted
    ensures var s := RunStation(OPENING, acts);
            && h in s.parcels && s.parcels[h].cmd.Some?
            && Completed(s.sys.inbox, s.parcels[h].message)
            && Recorded(s.sys.db.wagers, s.parcels[h].cmd.value)
  {
    OpeningOk();
    RunStationOk(OPENING, acts);
    var s := RunStation(OPENING, acts);
    assert DeletedOk(s) && Decodes(s.parcels);
    assert FromParcel(s, s.parcels[h].message.id);
    var k :| k in s.parcels && s.parcels[k].message == Message(s.parcels[h].message.id, s.sys.inbox[s.parcels[h].message.id].body)
             && s.parcels[k].cmd.Some? && Recorded(s.sys.db.wagers, s.parcels[k].cmd.value);
    assert s.parcels[k].cmd == s.parcels[h].cmd;
  }

  /** Every committed inbox row is complete, whatever crashed on the way. */
  lemma InboxAlwaysComplete(acts: seq<QueueAct>, m: string)
    requires m in RunStation(OPENING, acts).sys.inbox
    ensures RunStation(OPENING, acts).sys.inbox[m].completed
  {
    OpeningOk();
    RunStationOk(OPENING, acts);
  }

  /** However often a message is delivered, at most one delivery changes the tables. */
  lemma DeliveredOnce(acts: seq<QueueAct>, m: string)
    ensures RunStation(OPENING, acts).sys == Run(START, Projection(OPENING, acts))
    ensures Effects(START, Projection(OPENING, acts), (x: Txn) => Carries(x, m)) <= 1
  {
    StationIsRun(OPENING, acts);
    StartInv();
    OneEffectPerMessage(START, Projection(OPENING, acts), m);
  }
}
