# Verification model of the wagering platform

A Dafny model of the ledger engine: the two writers of the shared database
(`ProcessTx` and the pending-reference resolver), wallet creation, the delivery
protocols around them (SQS consumer with inbox, outbox publisher), reconciliation,
ledger pagination and the exact arithmetic underneath.

`dafny verify dfyconfig.toml` checks everything, in a few minutes.

## How it is organised

- `Common`, `Amounts`, `Wallet`, `Wager`, `Backoff`: values, checked int64
  arithmetic, the wallet aggregate (a class updated in place), request validation
  and the three back-off loops.
- `Tables`, `Decision`: the tables with their CHECK constraints, and what each
  writer decides and writes, as functions of the committed tables. The synchronous
  path and the resolver each have their own reading of the reference, their own
  order of checks and their own writes, as in the source.
- `Codes`, `Agreement`, `Answers`: the decisions told independently of the order in
  which the code asks, the agreement of the two trees, and what callers are told.
- `Service`: the services as they run, a class whose methods assign tables statement
  by statement. Each is proved to leave exactly the state that `Decision` specifies.
- `Invariant`, `Preservation`: `Valid`, the invariant of every committed state
  (constraints, links between rows, ledger against rows, balance and version of
  every wallet), and that each whole transaction keeps it.
- `Protocol`, `Stability`, `Safety`, `Runs`: any number of transactions interleaved
  statement by statement under READ COMMITTED with row locks, SKIP LOCKED and unique
  keys; aborts anywhere; and what holds in every state of every run. `Alone` and `Whole`:
  what a transaction does that meets nobody, whatever its end; `Examples`: concrete runs
  from the empty system.
- `Reversals`, `Schedule`, `Announcements`, `Constraints`: reversal chains, retry
  bounds, outbox contents, schema constraints.
- `Polling`: repeated calls of the resolver, and the row that holds up the others.
- `Arrival`, `Orders`: what one arrival or pass does to a bet, its refund and the
  refund's rollback, and the independence of their order over whole histories.
- `Query`, `Reconciliation`, `Outbox`, `Publisher`, `Delivery`, `Handling`: readers and
  delivery.

Conventions: a row's position in its table is its id (rows are never deleted); the
canonical payload stands for its SHA-256 hash and a message body for its hash; wallet
ids are canonical; instants are integers in microseconds. Reading the clock advances
it, so that no two readings are equal: the ledger is ordered by wall-clock
`created_at`, and reconciliation relies on it.

Where code and expectation part, the code is followed and the difference is proved:

- A reference is read without a lock. A request that found it missing or unfinished
  commits as pending (or is rescheduled) although meanwhile the reference may have
  ended on another wallet, and Process or the pass, run alone at the commit, would
  refuse. That is the only difference between an interleaved commit and one alone,
  it arises exactly when the request defers and its reference is by then terminal,
  and neither side moves money (`Runs.CommitIsProcess`, `Runs.CommitIsResolve`).
  `Examples.StaleDeferralInARun` is such a run.
- A missing first ledger entry goes unnoticed when later ones exist, because the
  calculation starts from the first entry's before-balance
  (`Reconciliation.MissingEntryNoticed` gives the exact condition,
  `Examples.FirstEntryUnnoticed` a run).
- A resolver pass that would overflow int64 aborts and leaves its row pending
  instead of rejecting it (`Constraints.PassAbortsExactly` gives the exact condition,
  `Examples.PassAbortsInARun` a run), so `Schedule.PassOutcome` and
  `Schedule.NinePasses` count committed passes.
- While that row is the oldest due one, every call of the resolver picks it again and
  fails, so no row behind it is resolved before it expires (`Polling.HeadOfLine` gives
  the exact condition, `Examples.HeadBlocksInARun` a run). One worker is modelled
  there; another that finds the row locked would skip it for that moment.
- A replay reports the row as it is now; only terminal results are final
  (`Runs.ReplayForever`).
- A published event may have been sent more than once; the excess is exactly the
  batches that sent it and rolled back (`Outbox.SendsAccounted`).
- `Subtract` refuses the least int64 even where the difference fits
  (`Amounts.Subtract`), which reconciliation inherits (`Reconciliation.Reconcile`).
- `ParseMoney` accepts leading zeros (`Amounts.FormatOfParse`).

## Model

| member | source | states |
|---|---|---|
| Runs.BalanceInEveryRun | internal/application/wagering/process.go:110-565 | in every state of every interleaving a wallet's balance is non-negative, ends an unbroken ledger chain from 0, equals the signed sum recomputed from its processed wager rows, and its version is 1 plus its non-opening entries |
| Runs.CommitIsProcess | internal/application/wagering/process.go:151-330 | at its commit a synchronous transaction does to the committed tables what Process, run alone on them then, would do, if and only if it does not defer on a reference that has ended meanwhile; in that one case the reference sits on another wallet, the pending row is all that is written, and Process would refuse without moving money |
| Runs.CommitIsResolve | internal/application/wagering/pending_reference_resolver.go:62-439 | the same for a resolver pass: equal to the whole pass if and only if it does not retry on a reference that has ended meanwhile; otherwise it reschedules where the pass alone would reject, and no money moves either way |
| Runs.Serializable | internal/application/wagering/process.go:64-108 | the committed tables of any interleaving are those of operations run one after another in commit order, each a whole transaction that succeeds there, or a deferral or retry whose reference has ended on another wallet and none else |
| Stability.DeferralNow | internal/application/wagering/reference.go:41-104 | a request that was read as unresolved is unresolved now exactly if its reference has not ended; otherwise it is refused with REFERENCE_MISMATCH or REFERENCE_TERMINAL_UNSUCCESSFUL |
| Stability.RetryNow | internal/application/wagering/pending_reference_resolver.go:110-268 | the same for the resolver before expiry |
| Examples.StaleDeferralInARun | internal/application/wagering/reference.go:41-104 | a reachable state in which a commit defers although Process alone would refuse |
| Runs.SingleReversalInEveryRun | internal/application/wagering/reference.go:161-189 | two processed reversals of one wager never exist, by wallet lock and check alone, without the partial unique index |
| Runs.RunGrows | internal/application/wagering/persistence.go:37-108 | over any run terminal rows and identities never change, ledger and outbox are append-only |
| Runs.ReplayForever | internal/application/wagering/persistence.go:53-107 | a replay names the same wager for ever, repeats a terminal result for ever, and a key used with another payload stays a conflict |
| Runs.OneEffectPerKey | internal/application/wagering/process.go:135-190 | however many transactions submit one key over either channel, at most one changes the tables |
| Runs.OneEffectPerMessage | internal/application/wagering/message_processor.go:83-133 | however often one message is processed concurrently, at most one processing changes the tables |
| Runs.RefusalStands | internal/application/wagering/pending_reference_resolver.go:620-679 | a pass that refuses keeps the invariant, moves nothing, closes the row to every later pass, and fixes what every replay of the command is told |
| Runs.WaitsClimb | internal/application/wagering/process.go:152-161 | a transaction waits only for one that holds a resource of higher rank: inbox key, wallet, external identity, idempotency key |
| Runs.NoDeadlock | internal/application/wagering/message_processor.go:83-107 | from every transaction the chain of waits leads to one that can run |
| Runs.Progress | internal/application/wagering/process.go:110-565 | a transaction that can run finishes or gets strictly closer with every statement |
| Safety.DoInv | internal/application/wagering/process.go:110-565 | every action of every transaction keeps the system invariant: valid tables, commit order equal to ledger time order per wallet, exclusive locks, decisions still true, complete inbox |
| Safety.RunInv | internal/application/wagering/process.go:110-565 | so does every run |
| Whole.SubmissionIsProcess | internal/application/wagering/message_processor.go:41-141 | when nobody stands in its way, a submission, with or without a message, ends having done to tables and inbox exactly what Process or the processing of the message says, in every case: new, replay, refused, conflicting, failed |
| Whole.PassIsResolvePass | internal/application/wagering/pending_reference_resolver.go:47-439 | the same for a pass over a due row |
| Stability.DecidePut | internal/application/wagering/reference.go:41-104 | a write under another wallet's lock cannot change a decision to move or to reject |
| Stability.ResolvePut | internal/application/wagering/pending_reference_resolver.go:110-316 | the same for the resolver's decision |
| Codes.DecisionTable | internal/application/wagering/process.go:194-398 | every outcome of a validated request told by request, referenced row and wallet: deferral, each failure code, lack of funds, overflow, and the exact new wallet |
| Codes.MismatchIsValidate | internal/application/wagering/reference.go:106-159 | the reference check objects to a different game first, then to the kind, then to the amount, with those codes and no other |
| Answers.AdmissionTable | internal/domain/wager_transaction.go:54-83 | a command is let in if and only if it carries a key and its kind, the sign of its amount and its reference go together; otherwise it is told the first rule it breaks |
| Answers.RefusalTable | internal/application/wagering/process.go:110-232 | on valid tables a command that is let in is refused exactly for a key used with another payload, an unknown wallet, an external id in use, another player or another currency, in this order, and otherwise fails only where its movement would leave int64 |
| Answers.ProcessAnswers | internal/application/wagering/process.go:408-565 | the first answer names the appended row, which stores the command, tells its state and code and the balance the wallet now has; nothing else is written but the wallet, its events and, if money moved, one entry |
| Answers.AnsweredAgain | internal/application/wagering/persistence.go:53-107 | the command sent again is told the same, marked as a replay, and changes nothing |
| Answers.KnownAnswered | internal/application/wagering/persistence.go:53-107 | in any valid state the answer to a known command is its row's state and code and, for a row that moved money, the balance its ledger entry left |
| Answers.CreationTable | internal/application/wallet/create.go:77-273 | a wallet is created if and only if player and currency are named, the balance is not negative and the player has none in that currency; the rows, entry and events it brings, and the error otherwise |
| Agreement.WritesAgree | internal/application/wagering/pending_reference_resolver.go:141-316 | before expiry, for the same stored request, tables and wallet, both writers fail, defer, reject or post alike and write the same row, wallet, ledger entry and events |
| Agreement.PendingRowStores | internal/application/wagering/pending_reference.go:19-110 | a pending row brings the request back unchanged |
| Invariant.SoundApply | migrations/000001_initial.up.sql:1-110 | a write that respects the tables it meets keeps the whole invariant |
| Preservation.ProcessValid | internal/application/wagering/process.go:110-565 | a whole submission keeps the invariant |
| Preservation.ResolveValid | internal/application/wagering/pending_reference_resolver.go:47-439 | a whole resolver pass keeps the invariant |
| Preservation.CreateValid | internal/application/wallet/create.go:77-161 | a whole wallet creation keeps the invariant |
| Preservation.PostedReference | internal/application/wagering/reversal.go:20-55 | an accepted request with a reference links the processed row it names, passes the reference rules, is the first reversal, and a rollback credits exactly when it undoes a bet |
| Constraints.ConstraintsInEveryRun | migrations/000007_wager_transaction_invariants.up.sql:1-84 | no state of any run breaks a CHECK, a unique key or the single-reversal index |
| Constraints.PassAbortsExactly | internal/application/wagering/pending_reference_resolver.go:269-316 | a resolver pass over a pending row aborts exactly when its reference is usable and the movement would leave int64 |
| Examples.PassAbortsInARun | internal/application/wagering/pending_reference_resolver.go:269-316 | a reachable state with a due, unexpired win on a nearly full wallet whose pass fails and leaves everything as it was |
| Reversals.ReversalOpposes | internal/application/wagering/reversal.go:20-55 | a processed reversal stands on a processed row of its wallet, strictly lower in the chain, with exactly the opposite effect |
| Reversals.ChainsAreShort | internal/application/wagering/reference.go:106-159 | chains of reversals are acyclic and have at most three rows |
| Reversals.NetEffect | internal/application/wagering/reversal.go:20-55 | a processed bet and everything that transitively reverses it amount to -amount or 0, a win to +amount or 0, and which of the two |
| Reversals.TotalIsStanding | internal/application/wagering/reversal.go:20-55 | the effects of all rows of a wallet add up to those of its openings, bets and wins that stand |
| Reversals.StandingInEveryRun | internal/application/wagering/reference.go:161-189 | all of this in every state of every interleaving, and every balance is what the standing wagers leave |
| Polling.HeadOfLine | internal/application/wagering/pending_reference_resolver.go:450-529 | repeated calls that all select one row resolve nothing, neither it nor any other due row, if and only if its reference is usable, its wallet cannot take the movement, and every call comes before it expires |
| Polling.OldestIsFirst | internal/application/wagering/pending_reference_resolver.go:487-497 | the oldest waiting row is selected by every call from the moment it is due |
| Polling.ExpiryFreesLine | internal/application/wagering/pending_reference_resolver.go:82-108 | the first call after its expiry rejects the row, moves nothing, touches no other row and leaves the line to the next |
| Polling.KeepResolving | internal/worker/pending_reference.go:36-70 | the worker's loop does to the tables what those calls, one after another, do |
| Examples.HeadBlocksInARun | internal/application/wagering/pending_reference_resolver.go:269-316 | a reachable state with two due rows in which no number of calls before the older expires changes anything, although a pass over the younger would |
| Schedule.EightRetriesOutlast | internal/application/wagering/pending_reference_resolver.go:582-602 | the first eight retry delays together outlast the time to live, seven do not |
| Schedule.RetriesBounded | internal/application/wagering/pending_reference_resolver.go:531-580 | no pending row of any run has been retried more than eight times, whatever its reference |
| Schedule.DueInEveryRun | internal/application/wagering/pending_reference_resolver.go:531-602 | in every run a waiting row is due from five seconds after its creation on and, once retried, from 5, 10, 20, 40 or 60 seconds after its last retry on, but from its expiry at the latest, and expires after five minutes |
| Schedule.NinePasses | internal/application/wagering/pending_reference_resolver.go:47-108 | in any run at most nine committed passes go over one row |
| Schedule.PassesBounded | internal/application/wagering/pending_reference_resolver.go:531-580 | from any reachable state, at most as many committed passes over a row as it has retries left, and one |
| Schedule.PassOutcome | internal/application/wagering/pending_reference_resolver.go:82-108 | a committed pass counts one retry or ends the row, the ninth ends it, and an expired row is rejected without moving money |
| Announcements.AnnouncedInEveryRun | internal/application/wagering/results.go:107-197 | in every state the balance events match the ledger entry by entry with gap-free versions per wallet, and each wager has exactly the events its history calls for |
| Orders.AnyOrder | internal/application/wagering/process.go:208-330 | a bet, its refund and the rollback of the refund, committed in any order and at any times, with passes over them and with commits on other wallets that take none of their three identities in between: once all are there and none waits, such a history ends like one without late passes (states, codes, links, results, wallet and the wallet's ledger, funded or not) if and only if none of its own passes found its row expired |
| Orders.LikeInOrder | internal/application/wagering/pending_reference_resolver.go:82-316 | it ends as in-order arrival does if and only if every pass over one of the three came before that row's own expiry |
| Orders.AnyInterleaving | internal/application/wagering/process.go:110-330 | the same equivalence for the final state of any interleaving from any reachable state, not only of transactions run one at a time |
| Orders.HistoryReached | internal/application/wagering/pending_reference.go:14-29 | at any moment on the way, while no pass was late, the first few of the three are settled as in order and the rest are absent or wait |
| Orders.TwoPassesSuffice | internal/application/wagering/pending_reference_resolver.go:47-108 | once all three are there, one pass over the refund and one over the rollback, each before its row expires if it still waits, settle them, whatever came before as long as no pass was late |
| Orders.ForeignReached | internal/application/wagering/reference.go:41-104 | no commit on another wallet that takes none of the three identities disturbs them |
| Services.Service.ProcessTx | internal/application/wagering/process.go:110-190 | does what the specification says, or errs and changes nothing; a new command is answered with its row and the wallet's balance as they now are, a known one with its row and the balance it left; keeps the invariant |
| Services.Service.ProcessReferenced | internal/application/wagering/process.go:194-330 | the part that reads the reference and decides |
| Services.Service.PostMovement | internal/application/wagering/process.go:333-398 | the movement on the loaded wallet, or the rejection for lack of funds |
| Services.Service.ResolveOne | internal/application/wagering/pending_reference_resolver.go:47-108 | one pass over the oldest due row: nothing due, an error without trace, or the specified pass; keeps the invariant |
| Services.Service.ResolveClaimed | internal/application/wagering/pending_reference_resolver.go:72-268 | the pass over a claimed row |
| Services.Service.ResolveMovement | internal/application/wagering/pending_reference_resolver.go:269-439 | the movement of a pass with its writes |
| Services.FirstDue | internal/application/wagering/pending_reference_resolver.go:450-529 | the due row created first, if any is due |
| Services.Service.Register | internal/infrastructure/messaging/inbox/inbox.go:31-114 | first delivery registered; a known id with another body refused; otherwise whether it was completed |
| Services.Service.ProcessMessage | internal/application/wagering/message_processor.go:41-141 | a known message id with another body is a conflict and nothing changes, and only that is; a completed message changes nothing; any other is answered as its command is, and inbox row and wager commit together or not at all |
| Services.Service.CreateWallet | internal/application/wallet/create.go:77-161 | wallet, opening wager, ledger entry and events, or an error and no change; keeps the invariant |
| Reconciliation.CalculateLedgerBalance | internal/application/wallet/reconciliation.go:182-228 | valid exactly when the entries form an unbroken, correct chain; an error exactly when an entry overflows |
| Reconciliation.UnbrokenSum | internal/application/wallet/reconciliation.go:190-227 | a valid chain ends at its first before-balance plus the signed sum |
| Reconciliation.Reconcile | internal/application/wallet/reconciliation.go:24-114 | the report on any snapshot, consistent or not, and its error cases |
| Reconciliation.ReconciledReports | internal/application/wallet/reconciliation.go:60-92 | stored balance is calculated balance plus difference, every entry of the wallet is counted, and the verdict is consistent exactly if chain and end are right |
| Reconciliation.ConsistentInEveryRun | internal/application/wallet/reconciliation.go:60-92 | on any reachable snapshot: consistent, difference 0, every entry checked |
| Reconciliation.MissingEntryNoticed | internal/application/wallet/reconciliation.go:182-228 | with any one entry taken out the report is inconsistent unless that entry was the first of several |
| Examples.FirstEntryUnnoticed | internal/application/wallet/reconciliation.go:182-228 | a run of an opening and a bet whose ledger without its first entry is reported consistent |
| Queries.OrderByOrders | internal/application/wallet/query.go:111-124 | the query keeps every row and orders them by time and id |
| Queries.CommitOrder | internal/application/wallet/reconciliation.go:149-180 | in every reachable state that is the order of commits |
| Queries.LedgerPage | internal/application/wallet/query.go:139-241 | the page holds exactly the next rows after the cursor, as many as asked for, fifty by default and a hundred at most, and a cursor to the last of them exactly if rows are left |
| Queries.BeyondIsRear | internal/application/wallet/query.go:180-218 | the rows after any cursor are all those later than it, or as late with a larger id, and no others |
| Queries.WholeLedger | internal/application/wallet/query.go:139-241 | following cursors with any limits reads exactly the whole ledger |
| Queries.PagedWhileRunning | internal/application/wallet/query.go:180-238 | while transactions commit, following cursors still reads every entry there at the start, in order, none twice |
| Outbox.SendsAccounted | internal/infrastructure/messaging/outbox/publisher.go:49-127 | in every run of concurrent publishers the acknowledged sends of an event are the one its row records, the live batch's, and one per rolled-back batch that had sent it; published implies sent |
| Outbox.OnlyCommittedEvents | internal/infrastructure/messaging/outbox/publisher.go:129-192 | whatever is sent is a committed event under its own id |
| Outbox.HeldOnce | internal/infrastructure/messaging/outbox/publisher.go:136-152 | no two live batches hold one event, none holds a published one |
| Outbox.EligibleOnceCommitted | internal/application/wagering/results.go:198-235 | a committed event is in the table with no attempts and due from its commit on |
| Publishers.Publisher.PublishBatch | internal/infrastructure/messaging/outbox/publisher.go:49-127 | sends, marks and schedules the selected events one by one, going on after a failed send; the table changes only if the commit succeeds |
| Publishers.PublishBatchIsRun | internal/infrastructure/messaging/outbox/publisher.go:49-127 | beside any live batches of other publishers, the method's effect is that of claim, sends and commit or rollback in the concurrent model |
| Publishers.OldestTen | internal/infrastructure/messaging/outbox/publisher.go:129-192 | a batch takes the ten oldest due, unpublished and unlocked events, or all of them if they are fewer, each once, the oldest first |
| Publishers.BatchSends | internal/infrastructure/messaging/outbox/publisher.go:86-127 | the sends are those of the selected events whose call went out, in order of selection, and the reported number is that of the acknowledged ones |
| Publishers.BatchMarks | internal/infrastructure/messaging/outbox/publisher.go:86-127 | a selected row is published now exactly if its call was acknowledged, and no other row changes |
| Publishers.FindPendingClaimable | internal/infrastructure/messaging/outbox/publisher.go:129-192 | the rows it selects are distinct, due, unpublished, held by no other publisher and at most ten |
| Publishers.PendingIs | internal/infrastructure/messaging/outbox/publisher.go:144-149 | the candidates are exactly the eligible rows that no other publisher holds, each once, oldest event first |
| Outbox.SelectedAgain | internal/infrastructure/messaging/outbox/publisher.go:194-261 | once its result is written an event is published exactly if it was acknowledged and then never selected again; otherwise it counts one more attempt and is selected again from the back-off on, five to sixty seconds later, and no earlier |
| Outbox.ConcludedAt | internal/infrastructure/messaging/outbox/publisher.go:194-261 | writing the results publishes exactly the acknowledged rows, changes no event, and leaves rows outside the batch alone |
| Delivery.DeletedOnlyWhenRecorded | internal/infrastructure/messaging/sqs/consumer.go:426-570 | under any deliveries, crashes, unheard commits and failed deletes, a deleted message's inbox row is complete and its command's result is stored |
| Delivery.InboxAlwaysComplete | internal/infrastructure/messaging/inbox/inbox.go:116-149 | Register inserts an incomplete row and Complete updates it later in the same transaction; wherever a consumer crashes, every committed inbox row is complete |
| Delivery.DeliveredOnce | internal/infrastructure/messaging/sqs/consumer.go:209-283 | any number of deliveries of one message change the tables at most once |
| Handling.DeletedExactlyWhenComplete | internal/infrastructure/messaging/sqs/consumer.go:426-570 | a delivery that nobody disturbs is processed as its command is, and its message is deleted if and only if the inbox then has it complete; else it stays in the queue and the consumer lets go of it |
| Backoff.ReferenceRetryBackoff | internal/application/wagering/pending_reference_resolver.go:582-602 | the loop computes min(60 s, 5 s doubled for every attempt after the first) for every attempt |
| Backoff.OutboxRetryDelay | internal/infrastructure/messaging/outbox/publisher.go:263-279 | the same function |
| Backoff.RetryVisibility | internal/infrastructure/messaging/sqs/consumer.go:369-384 | the same function, in whole seconds, without leaving int32 |
| Wallets.Moved | internal/domain/wallet.go:72-148 | a movement changes the balance by its signed amount and the version by one, and never makes a balance negative |
| Wallets.Wallet.Credit | internal/domain/wallet.go:72-90 | the whole credit or an untouched wallet |
| Wallets.Wallet.Debit | internal/domain/wallet.go:92-119 | the whole debit or an untouched wallet, insufficient funds told apart |
| Amounts.Add | internal/domain/money.go:90-104 | succeeds exactly when currencies agree and the sum fits int64 |
| Amounts.Subtract | internal/domain/money.go:106-124 | succeeds exactly when currencies agree, the difference fits and the operand is not the least int64; adding back restores |
| Amounts.ParseMoneyMeaning | internal/domain/money.go:35-69 | accepts exactly digits, a dot and two digits with a value in int64, and returns that value |
| Amounts.ParseOfFormat | internal/domain/money.go:141-154 | parsing the text of a non-negative amount gives it back |
| Amounts.FormatOfParse | internal/domain/money.go:35-69 | printing a parsed text only strips leading zeros |
| Amounts.FormatInjective | internal/domain/money.go:141-154 | different int64 amounts have different texts |
| Wagers.PayloadHashInjective | internal/domain/wager_transaction.go:88-123 | equal canonical payloads mean equal requests |

## Left out

- HTTP handlers, OIDC, server, health checks, configuration and wiring: their checks for non-empty fields and a currency are the precondition `TransportValid` of a submission.
- Metrics, structured logging and the dead-letter monitor: no effect on financial state.
- SHA-256, JSON, base64 and UUID internals: canonical payloads stand for hashes, positions for ids, pairs for ledger cursors; undecodable cursors are not modelled. Strings are valid UTF-8: `json.Marshal` replaces invalid bytes, so two requests that differ only in such bytes would have one payload.
- Correlation and causation ids, event envelopes, aggregate ids and the occurrence times of events inside `Decision`: they carry no decision. An outbox row's `occurredAt` is the clock at its commit, where the code uses the `now` of the decision.
- VARCHAR lengths, foreign-key share locks and clock resolution below the microsecond.
- PENDING and FAILED as written states: nothing writes them; the reference check can still read them.
- Polling order in the interleaved model: a resolver may claim any due row and a publisher any eligible rows, which only adds runs. `Services.FirstDue` and `Publishers.PendingIs` state the order the queries ask for.
- Goroutines, timers and shutdown of the worker loops: a transaction, consumer or publisher may stop at any statement.
- Order of publication per aggregate: the code goes on after a failed send and does not promise it.
- Visibility time-outs: the queue may deliver a message it holds at any time, also twice at once; only the delay computed for them is modelled.
- Clock skew between database and application: one clock that strictly increases between readings.
- Other traffic on the wallet of the three whose order is varied: with it the order of arrival can matter, because funds can come and go in between, so `Orders.AnyOrder` supposes none there.
- The wallet lock of a submission that turns out to be a replay: it is released before the commit instead of with it, which only adds runs.
- The batch a consumer receives at once, and its stop at the first failure: deliveries are independent of one another.
- Database constraints are not consulted by the interleaved model except for the keys transactions wait on; that they hold is proved instead.
