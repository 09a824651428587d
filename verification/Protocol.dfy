/** Any number of transactions interleaved statement by statement under READ
    COMMITTED: every step reads the committed tables, writes become visible at
    commit, and a transaction may abort at any point. */
module Protocol {
  import opened Common
  import opened Amounts
  import opened Wallets
  import opened Wagers
  import opened Tables
  import opened Decisions

  /** An SQS delivery. The body stands for its hash. */
  datatype Message = Message(id: string, body: string)

  datatype InboxRow = InboxRow(body: string, completed: bool)

  /** What a transaction was started to do, with the values it read on claiming. */
  datatype Program =
    | Submit(cmd: Command, message: Option<Message>)
    | Resolver(id: TxId, row: WagerRow)
    | Creator(walletId: WalletId, wallet: WalletRow)

  /** The statement a transaction runs next, with its local variables. */
  datatype Stage =
    | Registering                                                // insert the inbox row
    | Starting                                                   // first replay check
    | Waiting                                                    // SELECT wallet FOR UPDATE; insert wallet
    | Locked(wallet: WalletRow)                                  // second replay check; resolver: read the clock
    | Unmatched(wallet: WalletRow)                               // external id and owner checks
    | Admitted(wallet: WalletRow)                                // read the reference
    | Referenced(wallet: WalletRow, id: TxId)                    // look for a reversal, then decide
    | Clocked(wallet: WalletRow, now: Time)                      // resolver: read the reference
    | Traced(wallet: WalletRow, now: Time, id: TxId)             // resolver: look for a reversal, then decide
    | Decided(wallet: WalletRow, outcome: Outcome, now: Time)    // insert: external identity; resolver: commit
    | Identified(wallet: WalletRow, outcome: Outcome, now: Time) // insert: idempotency key
    | Completing(wallet: WalletRow, outcome: Outcome, now: Time) // complete the inbox row
    | Ready(wallet: WalletRow, outcome: Outcome, now: Time)      // commit
    | Recalled                                                   // a replay: complete the inbox row
    | Replaying                                                  // commit, with nothing but the inbox
    | Inserted                                                   // wallet row inserted; commit

  /** own is the inbox row it has inserted or locked, as it would commit it. */
  datatype Txn = Txn(program: Program, stage: Stage, own: Option<InboxRow>)

  datatype Sys = Sys(db: Db, inbox: map<string, InboxRow>, clock: Time, txns: map<nat, Txn>)

  datatype Action =
    | Begin(t: nat, cmd: Command, message: Option<Message>)
    | Claim(t: nat, id: TxId)
    | Open(t: nat, walletId: WalletId, playerId: string, initial: Money)
    | Advance(t: nat, entryId: int)
    | Abort(t: nat)
    | Tick(elapsed: nat)

  // ---- Locks follow from where each transaction stands

  function WalletOf(p: Program): WalletId {
    match p
    case Submit(cmd, _) => cmd.request.walletId
    case Resolver(_, row) => row.walletId
    case Creator(walletId, _) => walletId
  }

  predicate HoldsWallet(x: Txn) {
    && !x.program.Creator?
    && (x.stage.Locked? || x.stage.Unmatched? || x.stage.Admitted? || x.stage.Referenced?
        || x.stage.Clocked? || x.stage.Traced? || x.stage.Decided? || x.stage.Identified? || x.stage.Completing? || x.stage.Ready?)
  }

  predicate HoldsMessage(x: Txn, message: string) {
    && x.program.Submit? && x.program.message.Some? && x.program.message.value.id == message
    && !x.stage.Registering?
  }

  predicate HoldsExternal(x: Txn, providerId: string, externalId: string) {
    && x.program.Submit? && (x.stage.Identified? || x.stage.Completing? || x.stage.Ready?)
    && x.program.cmd.request.providerId == providerId && x.program.cmd.request.externalId == externalId
  }

  predicate HoldsKey(x: Txn, providerId: string, key: string) {
    && x.program.Submit? && (x.stage.Completing? || x.stage.Ready?)
    && x.program.cmd.request.providerId == providerId && x.program.cmd.idempotencyKey == key
  }

  predicate HoldsPlayer(x: Txn, playerId: string, currency: string) {
    && x.program.Creator? && x.stage.Inserted?
    && x.program.wallet.playerId == playerId && x.program.wallet.currency == currency
  }

  /** x's next statement waits for u to finish. */
  predicate Obstructs(u: Txn, x: Txn) {
    match x.program
    case Submit(cmd, message) =>
      (match x.stage
       case Registering => message.Some? && HoldsMessage(u, message.value.id)
       case Waiting => HoldsWallet(u) && WalletOf(u.program) == WalletOf(x.program)
       case Decided(_, _, _) => HoldsExternal(u, cmd.request.providerId, cmd.request.externalId)
       case Identified(_, _, _) => HoldsKey(u, cmd.request.providerId, cmd.idempotencyKey)
       case _ => false)
    case Resolver(_, _) =>
      x.stage.Waiting? && HoldsWallet(u) && WalletOf(u.program) == WalletOf(x.program)
    case Creator(_, wallet) =>
      x.stage.Waiting? && HoldsPlayer(u, wallet.playerId, wallet.currency)
  }

  predicate Waits(s: Sys, t: nat, u: nat) {
    t in s.txns && u in s.txns && t != u && Obstructs(s.txns[u], s.txns[t])
  }

  predicate Blocked(s: Sys, t: nat) {
    exists u :: u in s.txns && Waits(s, t, u)
  }

  // ---- Steps

  function Drop(s: Sys, t: nat): Sys {
    s.(txns := s.txns - {t})
  }

  function Goto(s: Sys, t: nat, stage: Stage): Sys
    requires t in s.txns
  {
    s.(txns := s.txns[t := s.txns[t].(stage := stage)])
  }

  /** Reading the clock moves it: no two readings are equal. */
  function Now(s: Sys): Time { s.clock + 1 }

  /** Hold the decision, unless it is to fail. */
  function Settle(s: Sys, t: nat, wallet: WalletRow, outcome: Outcome): Sys
    requires t in s.txns
  {
    if outcome.Fail? then Drop(s, t)
    else Goto(s, t, Decided(wallet, outcome, Now(s))).(clock := Now(s))
  }

  /** Register: insert an incomplete row, or lock the one there is. */
  function Register(s: Sys, t: nat, message: Message): Sys
    requires t in s.txns
  {
    if message.id !in s.inbox then Goto(Keep(s, t, InboxRow(message.body, false)), t, Starting)
    else
      var existing := s.inbox[message.id];
      if existing.body != message.body || existing.completed then Drop(s, t)
      else Goto(Keep(s, t, existing), t, Starting)
  }

  function Keep(s: Sys, t: nat, row: InboxRow): Sys
    requires t in s.txns
  {
    s.(txns := s.txns[t := s.txns[t].(own := Some(row))])
  }

  /** Complete: exactly one incomplete row must be there to update. */
  function CompleteInbox(s: Sys, t: nat, message: Option<Message>, stage: Stage): Sys
    requires t in s.txns
  {
    if message.None? then Goto(s, t, stage)
    else if s.txns[t].own.None? || s.txns[t].own.value.completed then Drop(s, t)
    else Goto(Keep(s, t, s.txns[t].own.value.(completed := true)), t, stage)
  }

  /** The inbox once a transaction commits with the row it holds. */
  function Enter(inbox: map<string, InboxRow>, message: Option<Message>, own: Option<InboxRow>): map<string, InboxRow> {
    if message.None? || own.None? then inbox else inbox[message.value.id := own.value]
  }

  /** Statements of Process, and of MessageProcessor.Process when a message is given. */
  function StepSubmit(s: Sys, t: nat, cmd: Command, message: Option<Message>, stage: Stage, entryId: int): Sys
    requires t in s.txns && (stage.Referenced? ==> stage.id < |s.db.wagers|)
  {
    var r := cmd.request;
    match stage
    case Registering =>
      if message.None? then Goto(s, t, Starting) else Register(s, t, message.value)
    case Starting =>
      if Precheck(cmd).Some? then Drop(s, t)
      else (match FindReplay(s.db.wagers, cmd)
            case Err(_) => Drop(s, t)
            case Ok(Some(_)) => Goto(s, t, Recalled)
            case Ok(None) => Goto(s, t, Waiting))
    case Waiting =>
      (match LockWallet(s.db, r.walletId)
       case Err(_) => Drop(s, t)
       case Ok(wallet) => Goto(s, t, Locked(wallet)))
    case Locked(wallet) =>
      (match FindReplay(s.db.wagers, cmd)
       case Err(_) => Drop(s, t)
       case Ok(Some(_)) => Goto(s, t, Recalled)
       case Ok(None) => Goto(s, t, Unmatched(wallet)))
    case Unmatched(wallet) =>
      if FindByExternal(s.db.wagers, r.providerId, r.externalId).Some? || CheckOwner(wallet, r).Some?
      then Drop(s, t)
      else Goto(s, t, Admitted(wallet))
    case Admitted(wallet) =>
      if !NeedsReference(r) then Settle(s, t, wallet, Move(wallet, r, None, Bet, Now(s)))
      else (match ReadReference(s.db.wagers, r)
            case Settled(outcome) => Settle(s, t, wallet, outcome)
            case Usable(id) => Goto(s, t, Referenced(wallet, id)))
    case Referenced(wallet, id) =>
      Settle(s, t, wallet, Finish(s.db.wagers, wallet, r, id, Now(s)))
    case Decided(wallet, outcome, now) =>
      if FindByExternal(s.db.wagers, r.providerId, r.externalId).Some? then Drop(s, t)
      else Goto(s, t, Identified(wallet, outcome, now))
    case Identified(wallet, outcome, now) =>
      if FindByKey(s.db.wagers, r.providerId, cmd.idempotencyKey).Some? then Drop(s, t)
      else Goto(s, t, Completing(wallet, outcome, now))
    case Completing(wallet, outcome, now) =>
      CompleteInbox(s, t, message, Ready(wallet, outcome, now))
    case Ready(wallet, outcome, now) =>
      if outcome.Fail? then Drop(s, t)
      else
        var n := |s.db.wagers|;
        Drop(s, t).(db := Apply(s.db, n, SyncWrites(cmd, n, wallet, outcome, now, entryId)),
                    inbox := Enter(s.inbox, message, s.txns[t].own))
    case Recalled =>
      CompleteInbox(s, t, message, Replaying)
    case Replaying =>
      Drop(s, t).(inbox := Enter(s.inbox, message, s.txns[t].own))
    case _ => s
  }

  /** Statements of ResolveOne after its row is claimed. It updates rows and
      inserts no key, so it commits as soon as it has decided. */
  function StepResolver(s: Sys, t: nat, id: TxId, row: WagerRow, stage: Stage, entryId: int): Sys
    requires t in s.txns && id < |s.db.wagers| && (stage.Traced? ==> stage.id < |s.db.wagers|)
  {
    match stage
    case Waiting =>
      (match LockWallet(s.db, row.walletId)
       case Err(_) => Drop(s, t)
       case Ok(wallet) => Goto(s, t, Locked(wallet)))
    case Locked(wallet) =>
      var now := Now(s);
      Goto(s, t, if Expired(row, now) then Decided(wallet, Refuse(REFERENCE_EXPIRED, None), now)
                 else Clocked(wallet, now)).(clock := now)
    case Clocked(wallet, now) =>
      (match ResolverReading(s.db.wagers, RequestOf(row))
       case Settled(outcome) => if outcome.Fail? then Drop(s, t) else Goto(s, t, Decided(wallet, outcome, now))
       case Usable(ref) => Goto(s, t, Traced(wallet, now, ref)))
    case Traced(wallet, now, ref) =>
      var outcome := ResolverFinish(s.db.wagers, wallet, RequestOf(row), ref, now);
      if outcome.Fail? then Drop(s, t) else Goto(s, t, Decided(wallet, outcome, now))
    case Decided(wallet, outcome, now) =>
      if outcome.Fail? then Drop(s, t)
      else Drop(s, t).(db := Apply(s.db, id, ResolverWrites(row, id, wallet, outcome, now, entryId)))
    case _ => s
  }

  /** Create: insert the wallet under its unique key, then the opening, then commit. */
  function StepCreator(s: Sys, t: nat, walletId: WalletId, wallet: WalletRow, stage: Stage, entryId: int): Sys
    requires t in s.txns
  {
    if walletId in s.db.wallets then Drop(s, t)
    else match stage
      case Waiting =>
        if PlayerHasWallet(s.db, wallet.playerId, wallet.currency) then Drop(s, t)
        else Goto(s, t, Inserted)
      case Inserted =>
        (match Create(s.db, walletId, wallet.playerId, Money(wallet.balance, wallet.currency), wallet.createdAt, entryId)
         case Err(_) => Drop(s, t)
         case Ok(db) => Drop(s, t).(db := db))
      case _ => s
  }

  function Step(s: Sys, t: nat, entryId: int): Sys
    requires t in s.txns
  {
    var stage := s.txns[t].stage;
    if (stage.Referenced? || stage.Traced?) && stage.id >= |s.db.wagers| then s
    else match s.txns[t].program
      case Submit(cmd, message) => StepSubmit(s, t, cmd, message, stage, entryId)
      case Resolver(id, row) => if id >= |s.db.wagers| then s else StepResolver(s, t, id, row, stage, entryId)
      case Creator(walletId, wallet) => StepCreator(s, t, walletId, wallet, stage, entryId)
  }

  predicate Claimed(s: Sys, id: TxId) {
    exists u :: u in s.txns && s.txns[u].program.Resolver? && s.txns[u].program.id == id
  }

  predicate Reserved(s: Sys, walletId: WalletId) {
    exists u :: u in s.txns && s.txns[u].program.Creator? && s.txns[u].program.walletId == walletId
  }

  /** One action; an action that is not enabled leaves the system alone. */
  function Do(s: Sys, a: Action): Sys {
    match a
    case Begin(t, cmd, message) =>
      if t in s.txns || !TransportValid(cmd) then s
      else s.(txns := s.txns[t := Txn(Submit(cmd, message), if message.Some? then Registering else Starting, None)])
    case Claim(t, id) =>
      // FOR UPDATE SKIP LOCKED over the due rows
      if t in s.txns || id >= |s.db.wagers| || !Due(s.db.wagers[id], s.clock) || Claimed(s, id) then s
      else s.(txns := s.txns[t := Txn(Resolver(id, s.db.wagers[id]), Waiting, None)])
    case Open(t, walletId, playerId, initial) =>
      // uuid.New() draws an identifier nobody else has
      var wallet := WalletRow(playerId, initial.currency, initial.amount, 1, Now(s), Now(s));
      if || t in s.txns || walletId in s.db.wallets || Reserved(s, walletId)
         || Blank(initial.currency) || ValidateWallet(wallet).Some?
      then s
      else s.(txns := s.txns[t := Txn(Creator(walletId, wallet), Waiting, None)], clock := Now(s))
    case Advance(t, entryId) =>
      if t !in s.txns || Blocked(s, t) then s else Step(s, t, entryId)
    case Abort(t) => Drop(s, t)
    case Tick(elapsed) => s.(clock := s.clock + elapsed)
  }

  const START := Sys(EMPTY, map[], 0, map[])

  function Run(s: Sys, actions: seq<Action>): Sys
    decreases |actions|
  {
    if actions == [] then s else Run(Do(s, actions[0]), actions[1..])
  }
}
