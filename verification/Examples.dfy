/** Runs from the empty system in which a property fails that one might expect. */
module Examples {
  import opened Common
  import opened Amounts
  import opened Wallets
  import opened Wagers
  import opened Tables
  import opened Decisions
  import opened Invariant
  import opened Preservation
  import opened Stability
  import opened Protocol
  import opened Safety
  import opened Runs
  import opened Alone
  import opened Whole
  import opened Reconciliation
  import Polling
  import opened Services

  /** A request of player p on wallet 0, in one round of one game. */
  function Request(externalId: string, kind: Kind, amount: Int64, reference: string): WagerRequest {
    WagerRequest("x", externalId, "p", 0, "o", "g", kind, Money(amount, "E"), reference)
  }

  lemma NotBlank()
    ensures !Blank("E")
  {
    assert "E"[0] != ' ';
  }

  // ---- One wallet with an opening

  function Opened(initial: Int64): Db {
    var made := Create(EMPTY, 0, "p", Money(initial, "E"), 1, 0);
    if made.Ok? then made.value else EMPTY
  }

  lemma OpenedIs(initial: Int64)
    requires initial > 0
    ensures Create(EMPTY, 0, "p", Money(initial, "E"), 1, 0).Ok?
    ensures var db := Opened(initial);
            && db.wallets == map[0 := WalletRow("p", "E", initial, 1, 1, 1)]
            && db.wagers == [OpeningRow(0, "p", Money(initial, "E"), 1)]
            && db.ledger == [LedgerEntry(0, 0, 0, Credit, initial, 0, initial, 1)]
  {
  }

  lemma OpenedRun(initial: Int64)
    requires initial > 0
    ensures Run(START, Creation(0, 0, "p", Money(initial, "E"), 0)) == START.(db := Opened(initial), clock := 1)
  {
    OpenedIs(initial);
    NotBlank();
    hide Create, Run, Blank;
    CreateAlone(START, 0, 0, "p", Money(initial, "E"), 0);
  }

  // ---- A missing first entry

  const BET_OF_FOUR := Command("kb", Request("b", Bet, 4, ""))

  lemma BetAfterOpening(initial: Int64, now: Time)
    requires 4 <= initial
    ensures Admissible(Opened(initial), BET_OF_FOUR) && !NeedsReference(BET_OF_FOUR.request)
    ensures var done := Process(Opened(initial), BET_OF_FOUR, now, 1);
            && done.Ok?
            && 0 in done.value.0.wallets
            && done.value.0.ledger
               == Opened(initial).ledger + [LedgerEntry(1, 0, 1, Debit, 4, initial, initial - 4, now)]
  {
    OpenedIs(initial);
    NotBlank();
    hide Opened, Blank;
  }

  /** A wallet is opened with ten and bets four. Without its first ledger entry it
      is still reported consistent. */
  lemma FirstEntryUnnoticed() returns (actions: seq<Action>)
    ensures var db := Run(START, actions).db;
            && 0 in db.wallets && |db.ledger| == 2 && db.ledger[0].walletId == 0
            && Reconciled(db.(ledger := Without(db.ledger, 0)), 0).Ok?
            && Reconciled(db.(ledger := Without(db.ledger, 0)), 0).value.consistent
  {
    var opening, betting := Creation(0, 0, "p", Money(10, "E"), 0), Submission(0, BET_OF_FOUR, 1);
    var s := START.(db := Opened(10), clock := 1);
    actions := opening + betting;
    OpenedIs(10);
    OpenedRun(10);
    BetAfterOpening(10, 2);
    assert Free(s, BET_OF_FOUR);
    SubmitAlone(s, 0, BET_OF_FOUR, 1);
    RunConcat(START, opening, betting);
    var db := Run(START, actions).db;
    var first, second := Opened(10).ledger, LedgerEntry(1, 0, 1, Debit, 4, 10, 6, 2);
    assert db.ledger == first + [second];
    LedgerOfAppend(first, [second], 0);
    assert LedgerOf(first, 0) == first;
    hide Run, Process, Opened, Reconciled, Without, Create;
    assert db.ledger[..0] == [];
    MissingEntryNoticed(actions, 0, 0);
  }

  // ---- A pass that aborts

  const WIN_OF_FIVE := Command("kwin", Request("ww", Win, 5, "b"))

  function FullDb(): Db { Opened(MAX_INT64) }

  /** The win waits for a bet that is not there yet. */
  function WinWaits(): Db {
    FullDb().(wagers := FullDb().wagers + [PendingRow(WIN_OF_FIVE, MAX_INT64, 2)],
              outbox := FullDb().outbox + [PendingEvent(1, WIN_OF_FIVE.request)])
  }

  lemma WinArrives()
    ensures Admissible(FullDb(), WIN_OF_FIVE) && !ReadReference(FullDb().wagers, WIN_OF_FIVE.request).Usable?
    ensures Process(FullDb(), WIN_OF_FIVE, 2, 1).Ok? && Process(FullDb(), WIN_OF_FIVE, 2, 1).value.0 == WinWaits()
  {
    OpenedIs(MAX_INT64);
    NotBlank();
    hide Opened, Blank, Process;
    var db := FullDb();
    assert Decide(db.wagers, db.wallets[0], WIN_OF_FIVE.request, 2) == Unresolved;
    ProcessAlone(db, WIN_OF_FIVE, 2, 1);
    hide Decide, ReadReference;
    assert db.ledger + [] == db.ledger && db.wallets[0 := db.wallets[0]] == db.wallets;
  }

  lemma BetAdmitted()
    ensures Admissible(WinWaits(), BET_OF_FOUR)
  {
    OpenedIs(MAX_INT64);
    NotBlank();
    var rows := WinWaits().wagers;
    assert |rows| == 2 && rows[0].providerId.None?;
    assert rows[1].externalId == Some("ww") && rows[1].idempotencyKey == Some("kwin") && |"ww"| != |"b"| && |"kwin"| != |"kb"|;
    hide Opened, OpeningRow, PendingRow, PendingEvent;
    assert KeyFree(rows, BET_OF_FOUR) && ExternalFree(rows, BET_OF_FOUR);
    hide KeyFree, ExternalFree, Blank;
  }

  const FULL := WalletRow("p", "E", MAX_INT64, 1, 1, 1)
  const PAID := WalletRow("p", "E", MAX_INT64 - 4, 2, 1, 3)

  lemma BetDecided(wagers: seq<WagerRow>)
    ensures Decide(wagers, FULL, BET_OF_FOUR.request, 3) == Post(PAID, None, None)
  {
  }

  lemma BetArrives()
    ensures Admissible(WinWaits(), BET_OF_FOUR)
    ensures var done := Process(WinWaits(), BET_OF_FOUR, 3, 2);
            && done.Ok?
            && var db := done.value.0;
               && db.wagers == WinWaits().wagers + [InsertedRow(BET_OF_FOUR, Processed, None, None, MAX_INT64 - 4, 3)]
               && db.wallets == map[0 := PAID]
  {
    OpenedIs(MAX_INT64);
    BetAdmitted();
    BetDecided(WinWaits().wagers);
    var db := WinWaits();
    assert db.wallets == map[0 := FULL];
    hide Opened, WinWaits, Process, Admissible, Decide, InsertedRow, ProcessedEvents;
    ProcessAlone(db, BET_OF_FOUR, 3, 2);
    assert db.wallets[0 := PAID] == map[0 := PAID];
  }

  lemma WinTooMuch(db: Db, now: Time)
    requires |FullDb().wagers| == 1 && FullDb().wagers[0].providerId == None
    requires db.wagers == WinWaits().wagers + [InsertedRow(BET_OF_FOUR, Processed, None, None, MAX_INT64 - 4, 3)]
    requires db.wallets == map[0 := PAID]
    requires 2 + REFERENCE_RETRY_DELAY <= now < 2 + REFERENCE_TTL
    ensures |db.wagers| == 3 && Due(db.wagers[1], now) && !Expired(db.wagers[1], now)
    ensures db.wagers[1].walletId == 0 && LockWallet(db, 0).Ok?
    ensures ReadReference(db.wagers, RequestOf(db.wagers[1])).Usable?
    ensures Resolve(db.wagers, db.wallets[0], db.wagers[1], now).Fail?
  {
    hide Opened, FullDb;
    assert db.wagers[1] == PendingRow(WIN_OF_FIVE, MAX_INT64, 2);
    assert db.wagers[2] == InsertedRow(BET_OF_FOUR, Processed, None, None, MAX_INT64 - 4, 3);
    assert !HasExternal(db.wagers[0], "x", "b") && !HasExternal(db.wagers[1], "x", "b") && HasExternal(db.wagers[2], "x", "b");
    assert FindByExternal(db.wagers, "x", "b") == Some(2);
  }

  function WinActions(): seq<Action> {
    Creation(0, 0, "p", Money(MAX_INT64, "E"), 0) + Submission(0, WIN_OF_FIVE, 1)
  }

  lemma WinRun()
    ensures Run(START, WinActions()) == START.(db := WinWaits(), clock := 2)
  {
    var s := START.(db := FullDb(), clock := 1);
    OpenedIs(MAX_INT64);
    OpenedRun(MAX_INT64);
    WinArrives();
    assert Free(s, WIN_OF_FIVE);
    hide Run, Process, Opened, FullDb, WinWaits, ReadReference, Free, Admissible, NeedsReference, LockWallet;
    SubmitAlone(s, 0, WIN_OF_FIVE, 1);
    RunConcat(START, Creation(0, 0, "p", Money(MAX_INT64, "E"), 0), Submission(0, WIN_OF_FIVE, 1));
  }

  /** The tables once the bet is there. */
  function BetPaid(): Db {
    var done := Process(WinWaits(), BET_OF_FOUR, 3, 2);
    if done.Ok? then done.value.0 else EMPTY
  }

  lemma BetRun()
    ensures Run(START, WinActions() + Submission(0, BET_OF_FOUR, 2)) == START.(db := BetPaid(), clock := 3)
  {
    var s := START.(db := WinWaits(), clock := 2);
    assert !NeedsReference(BET_OF_FOUR.request);
    hide Run, Process, WinWaits, ReadReference, Admissible, NeedsReference, LockWallet, InsertedRow, WinActions, Submission;
    WinRun();
    BetArrives();
    assert Free(s, BET_OF_FOUR);
    hide Free;
    SubmitAlone(s, 0, BET_OF_FOUR, 2);
    RunConcat(START, WinActions(), Submission(0, BET_OF_FOUR, 2));
  }

  lemma PaidTooMuch(now: Time)
    requires 2 + REFERENCE_RETRY_DELAY <= now < 2 + REFERENCE_TTL
    ensures var db := BetPaid();
            && |db.wagers| == 3 && Due(db.wagers[1], now) && !Expired(db.wagers[1], now)
            && db.wagers[1].walletId == 0 && LockWallet(db, 0).Ok?
            && ReadReference(db.wagers, RequestOf(db.wagers[1])).Usable?
            && Resolve(db.wagers, db.wallets[0], db.wagers[1], now).Fail?
  {
    OpenedIs(MAX_INT64);
    hide Opened, Process, WinWaits, InsertedRow, Admissible, Resolve, ReadReference, Due, Expired, LockWallet;
    BetArrives();
    WinTooMuch(BetPaid(), now);
  }

  /** A wallet is opened with all that int64 holds. A win of five waits for a bet
      of four. Once the bet is there the pass over the win aborts: the row is due,
      not expired, and stays as it is. */
  lemma PassAbortsInARun() returns (actions: seq<Action>)
    ensures var s := Run(START, actions);
            && s.txns == map[] && |s.db.wagers| == 3
            && Due(s.db.wagers[1], s.clock) && !Expired(s.db.wagers[1], s.clock + 1)
            && ReadReference(s.db.wagers, RequestOf(s.db.wagers[1])).Usable?
            && Run(s, PassActions(0, 1, 3)) == s.(clock := s.clock + 1)
  {
    var before, wait := WinActions() + Submission(0, BET_OF_FOUR, 2), [Tick(10 * SECOND)];
    hide Run, BetPaid, Resolve, ReadReference, Due, Expired, LockWallet, WinActions, Submission;
    BetRun();
    PaidTooMuch(3 + 10 * SECOND);
    PaidTooMuch(4 + 10 * SECOND);
    RunConcat(START, before, wait);
    actions := before + wait;
    TickRun(START.(db := BetPaid(), clock := 3), 10 * SECOND);
    FailedPassAlone(START.(db := BetPaid(), clock := 3 + 10 * SECOND), 0, 1, 3);
  }

  // ---- A row that holds up the one behind it

  const LATER_WIN := Command("klate", Request("lll", Win, 5, "zzzz"))

  /** A second win waits, for a bet that is not there. */
  function BothWait(): Db {
    BetPaid().(wagers := BetPaid().wagers + [PendingRow(LATER_WIN, MAX_INT64 - 4, 4)],
               outbox := BetPaid().outbox + [PendingEvent(3, LATER_WIN.request)])
  }

  /** The tables with the bet in them, as far as a later request asks. */
  lemma BetPaidIs()
    ensures var db := BetPaid();
            && db.wallets == map[0 := PAID] && |db.wagers| == 3
            && db.wagers[0].providerId.None? && !db.wagers[0].state.PendingReference?
            && db.wagers[1] == PendingRow(WIN_OF_FIVE, MAX_INT64, 2)
            && db.wagers[2] == InsertedRow(BET_OF_FOUR, Processed, None, None, MAX_INT64 - 4, 3)
  {
    OpenedIs(MAX_INT64);
    BetArrives();
    hide Process, Admissible, PendingRow, InsertedRow;
  }

  lemma LaterFree(rows: seq<WagerRow>)
    requires |rows| == 3 && rows[0].providerId.None?
    requires rows[1].externalId == Some("ww") && rows[1].idempotencyKey == Some("kwin")
    requires rows[2].externalId == Some("b") && rows[2].idempotencyKey == Some("kb")
    ensures KeyFree(rows, LATER_WIN) && ExternalFree(rows, LATER_WIN)
    ensures FindByExternal(rows, "x", "zzzz") == None
  {
    assert |"ww"| != |"lll"| && |"b"| != |"lll"| && |"kwin"| != |"klate"| && |"kb"| != |"klate"|;
    assert |"ww"| != |"zzzz"| && |"b"| != |"zzzz"|;
  }

  lemma LaterValid()
    ensures TransportValid(LATER_WIN) && Precheck(LATER_WIN).None?
    ensures CheckOwner(PAID, LATER_WIN.request).None? && ValidateWallet(PAID).None?
  {
    NotBlank();
    hide Blank;
  }

  lemma BetPaidNames()
    ensures var rows := BetPaid().wagers;
            && |rows| == 3 && rows[0].providerId.None?
            && rows[1].externalId == Some("ww") && rows[1].idempotencyKey == Some("kwin")
            && rows[2].externalId == Some("b") && rows[2].idempotencyKey == Some("kb")
  {
    hide BetPaid;
    BetPaidIs();
  }

  lemma LaterAdmitted()
    ensures Admissible(BetPaid(), LATER_WIN)
    ensures FindByExternal(BetPaid().wagers, "x", "zzzz") == None
  {
    hide BetPaid, PendingRow, InsertedRow, KeyFree, ExternalFree, FindByExternal;
    hide TransportValid, Precheck, CheckOwner, ValidateWallet;
    BetPaidIs();
    BetPaidNames();
    LaterValid();
    LaterFree(BetPaid().wagers);
  }

  lemma LaterDefers(wagers: seq<WagerRow>)
    requires FindByExternal(wagers, "x", "zzzz") == None
    ensures !ReadReference(wagers, LATER_WIN.request).Usable?
    ensures Decide(wagers, PAID, LATER_WIN.request, 4) == Unresolved
  {
    hide FindByExternal;
  }

  lemma LaterArrives()
    ensures !ReadReference(BetPaid().wagers, LATER_WIN.request).Usable?
    ensures Process(BetPaid(), LATER_WIN, 4, 3).Ok? && Process(BetPaid(), LATER_WIN, 4, 3).value.0 == BothWait()
  {
    var db := BetPaid();
    LaterAdmitted();
    BetPaidIs();
    assert Current(db, 0, PAID);
    hide BetPaid, Process, Admissible, Decide, ReadReference, Apply, SyncWrites, PendingRow, InsertedRow, PendingEvent;
    LaterDefers(db.wagers);
    ProcessAlone(db, LATER_WIN, 4, 3);
    PendingIsDefer(db, LATER_WIN, PAID, 4, 3);
  }

  function BothActions(): seq<Action> {
    WinActions() + Submission(0, BET_OF_FOUR, 2) + Submission(0, LATER_WIN, 3)
  }

  lemma BothRun()
    ensures Run(START, BothActions()) == START.(db := BothWait(), clock := 4)
  {
    var s := START.(db := BetPaid(), clock := 3);
    hide Run, Process, BetPaid, BothWait, ReadReference, Admissible, LockWallet, WinActions, Submission;
    BetRun();
    LaterAdmitted();
    LaterArrives();
    assert Free(s, LATER_WIN);
    hide Free;
    SubmitAlone(s, 0, LATER_WIN, 3);
    RunConcat(START, WinActions() + Submission(0, BET_OF_FOUR, 2), Submission(0, LATER_WIN, 3));
  }

  lemma BothJammed()
    ensures |BothWait().wagers| == 4 && Polling.Jammed(BothWait(), 1)
    ensures BothWait().wagers[3] == PendingRow(LATER_WIN, MAX_INT64 - 4, 4)
    ensures FindByExternal(BothWait().wagers, "x", "zzzz") == None
  {
    var rows, before := BothWait().wagers, BetPaid().wagers;
    BetPaidIs();
    LaterAdmitted();
    hide BetPaid, Process, Admissible;
    assert rows[1] == PendingRow(WIN_OF_FIVE, MAX_INT64, 2) && rows[3] == PendingRow(LATER_WIN, MAX_INT64 - 4, 4);
    assert rows[2] == InsertedRow(BET_OF_FOUR, Processed, None, None, MAX_INT64 - 4, 3);
    assert !HasExternal(rows[0], "x", "b") && !HasExternal(rows[1], "x", "b") && HasExternal(rows[2], "x", "b");
    assert FindByExternal(rows, "x", "b") == Some(2);
    assert forall i :: 0 <= i < 3 ==> rows[i] == before[i];
    assert !HasExternal(rows[3], "x", "zzzz");
  }

  lemma LaterPasses()
    ensures |BothWait().wagers| == 4
    ensures ResolvePass(BothWait(), 3, 4 + 10 * SECOND, 9).Ok? && ResolvePass(BothWait(), 3, 4 + 10 * SECOND, 9).value != BothWait()
  {
    var db, now := BothWait(), 4 + 10 * SECOND;
    BothJammed();
    BetPaidIs();
    NotBlank();
    assert db.wallets[0] == PAID && ValidateWallet(PAID).None?;
    var row := db.wagers[3];
    assert Resolve(db.wagers, PAID, row, now) == Unresolved;
    hide BothWait, BetPaid, Resolve, NextAttempt, Polling.Jammed, Blank, ValidateWallet;
    assert ResolverWrites(row, 3, PAID, Unresolved, now, 9).row.attempts == 1;
  }

  lemma HeadIsFirst(selectedAt: Time)
    requires 4 + 10 * SECOND <= selectedAt
    ensures |BothWait().wagers| == 4
    ensures Due(BothWait().wagers[1], 4 + 10 * SECOND) && Due(BothWait().wagers[3], 4 + 10 * SECOND)
    ensures FirstDue(BothWait().wagers, selectedAt) == Some(1)
    ensures forall now: Time :: now < 2 + REFERENCE_TTL ==> !Expired(BothWait().wagers[1], now)
  {
    var rows := BothWait().wagers;
    BothJammed();
    BetPaidIs();
    assert rows[0] == BetPaid().wagers[0] && rows[1] == BetPaid().wagers[1] && rows[2] == BetPaid().wagers[2];
    hide BothWait, BetPaid, FirstDue, Polling.Jammed;
    Polling.OldestIsFirst(rows, 1, 4 + 10 * SECOND, selectedAt);
  }

  /** Two wins wait and are due. The older cannot be paid out. However often the
      resolver is called before that one expires, nothing changes, although a pass
      over the other would succeed and change its row. */
  lemma HeadBlocksInARun(polls: seq<Polling.Poll>) returns (actions: seq<Action>)
    requires forall i :: 0 <= i < |polls| ==>
               4 + 10 * SECOND <= polls[i].selectedAt && polls[i].now < 2 + REFERENCE_TTL
    ensures var db := Run(START, actions).db;
            && |db.wagers| == 4 && Due(db.wagers[1], 4 + 10 * SECOND) && Due(db.wagers[3], 4 + 10 * SECOND)
            && ResolvePass(db, 3, 4 + 10 * SECOND, 9).Ok? && ResolvePass(db, 3, 4 + 10 * SECOND, 9).value != db
            && Polling.PollAll(db, polls) == db
  {
    actions := BothActions();
    StartInv();
    RunInv(START, actions);
    assert Valid(Run(START, actions).db);
    hide Inv, Valid, Run, BothActions, BothWait, Due, Expired, FirstDue, ResolvePass, Polling.Jammed;
    BothRun();
    BothJammed();
    LaterPasses();
    HeadIsFirst(4 + 10 * SECOND);
    if polls != [] {
      forall i | 0 <= i < |polls|
        ensures FirstDue(BothWait().wagers, polls[i].selectedAt) == Some(1) && !Expired(BothWait().wagers[1], polls[i].now)
      {
        HeadIsFirst(polls[i].selectedAt);
      }
      Polling.HeadOfLine(BothWait(), 1, polls);
    }
  }

  lemma TickRun(s: Sys, elapsed: nat)
    ensures Run(s, [Tick(elapsed)]) == s.(clock := s.clock + elapsed)
  {
    assert [Tick(elapsed)][1..] == [];
    assert Run(s, [Tick(elapsed)]) == Run(Do(s, Tick(elapsed)), []);
  }

  // ---- A deferral that comes too late

  const REFUND_OF_FOUR := Command("kref", Request("rrr", Refund, 4, "b"))
  const FOREIGN_BET := Command("kb", WagerRequest("x", "b", "q", 1, "o", "g", Bet, Money(4, "E"), ""))

  /** Two wallets of two players, with nothing in them. */
  function TwoWallets(): Db {
    EMPTY.(wallets := map[0 := WalletRow("p", "E", 0, 1, 1, 1), 1 := WalletRow("q", "E", 0, 1, 2, 2)])
  }

  lemma FirstWallet()
    ensures Create(EMPTY, 0, "p", Money(0, "E"), 1, 0) == Ok(EMPTY.(wallets := map[0 := WalletRow("p", "E", 0, 1, 1, 1)]))
  {
  }

  lemma SecondWallet()
    ensures var db := EMPTY.(wallets := map[0 := WalletRow("p", "E", 0, 1, 1, 1)]);
            Create(db, 1, "q", Money(0, "E"), 2, 0) == Ok(TwoWallets())
  {
    assert "p"[0] != "q"[0];
  }

  lemma TwoWalletsRun()
    ensures Run(START, Creation(0, 0, "p", Money(0, "E"), 0) + Creation(0, 1, "q", Money(0, "E"), 0))
         == START.(db := TwoWallets(), clock := 2)
  {
    var one := START.(db := EMPTY.(wallets := map[0 := WalletRow("p", "E", 0, 1, 1, 1)]), clock := 1);
    FirstWallet();
    SecondWallet();
    NotBlank();
    hide Run, Create, Blank;
    CreateAlone(START, 0, 0, "p", Money(0, "E"), 0);
    CreateAlone(one, 0, 1, "q", Money(0, "E"), 0);
    RunConcat(START, Creation(0, 0, "p", Money(0, "E"), 0), Creation(0, 1, "q", Money(0, "E"), 0));
  }

  /** The bet the refund names, on another wallet and refused there. */
  function BetRefused(): Db {
    TwoWallets().(wagers := [InsertedRow(FOREIGN_BET, Rejected, None, Some(INSUFFICIENT_FUNDS), 0, 4)],
                  outbox := [RejectedEvent(0, FOREIGN_BET.request, INSUFFICIENT_FUNDS)])
  }

  lemma RefundDefers()
    ensures Admissible(TwoWallets(), REFUND_OF_FOUR) && !ReadReference(TwoWallets().wagers, REFUND_OF_FOUR.request).Usable?
    ensures Decide(TwoWallets().wagers, TwoWallets().wallets[0], REFUND_OF_FOUR.request, 3) == Unresolved
  {
    NotBlank();
    hide Blank;
  }

  lemma BetIsRefused()
    ensures Admissible(TwoWallets(), FOREIGN_BET) && !NeedsReference(FOREIGN_BET.request)
    ensures Process(TwoWallets(), FOREIGN_BET, 4, 1).Ok? && Process(TwoWallets(), FOREIGN_BET, 4, 1).value.0 == BetRefused()
  {
    NotBlank();
    hide Blank;
    var db := TwoWallets();
    assert db.wallets[1 := db.wallets[1]] == db.wallets;
  }

  lemma RefundStale()
    ensures Stale(BetRefused().wagers, REFUND_OF_FOUR.request)
    ensures KeyFree(BetRefused().wagers, REFUND_OF_FOUR) && ExternalFree(BetRefused().wagers, REFUND_OF_FOUR)
  {
    var rows := BetRefused().wagers;
    assert HasExternal(rows[0], "x", "b");
    assert FindByExternal(rows, "x", "b") == Some(0);
  }

  /** The system with the refund in it at the given statement, before and after the bet. */
  function Refunding(db: Db, stage: Stage, clock: Time): Sys {
    InStage(START.(db := db), 1, REFUND_OF_FOUR, stage, clock)
  }

  const EMPTY_WALLET := WalletRow("p", "E", 0, 1, 1, 1)

  function StaleActions(): seq<Action> {
    Creation(0, 0, "p", Money(0, "E"), 0) + Creation(0, 1, "q", Money(0, "E"), 0)
    + ([Begin(1, REFUND_OF_FOUR, None)] + Advances(1, 7, 5)) + Submission(2, FOREIGN_BET, 1) + Advances(1, 7, 3)
  }

  lemma RefundDecides()
    ensures Run(START.(db := TwoWallets(), clock := 2), [Begin(1, REFUND_OF_FOUR, None)] + Advances(1, 7, 5))
         == Refunding(TwoWallets(), Decided(EMPTY_WALLET, Unresolved, 3), 3)
  {
    RefundDefers();
    var a := START.(db := TwoWallets(), clock := 2);
    assert Free(a, REFUND_OF_FOUR) && a.db.wallets[0] == EMPTY_WALLET;
    hide Run, TwoWallets, Decide, ReadReference, NeedsReference, Free, Admissible, Advances;
    DecideAlone(a, 1, REFUND_OF_FOUR, 7);
  }

  lemma BetComesBetween()
    ensures Run(Refunding(TwoWallets(), Decided(EMPTY_WALLET, Unresolved, 3), 3), Submission(2, FOREIGN_BET, 1))
         == Refunding(BetRefused(), Decided(EMPTY_WALLET, Unresolved, 3), 4)
  {
    BetIsRefused();
    var b := Refunding(TwoWallets(), Decided(EMPTY_WALLET, Unresolved, 3), 3);
    assert Free(b, FOREIGN_BET) && 2 !in b.txns && b.clock == 3 && b.db == TwoWallets();
    assert b.(db := BetRefused(), clock := 4) == Refunding(BetRefused(), Decided(EMPTY_WALLET, Unresolved, 3), 4);
    hide Run, TwoWallets, BetRefused, Process, ReadReference, NeedsReference, Free, Admissible, Submission, Refunding;
    SubmitAlone(b, 2, FOREIGN_BET, 1);
  }

  lemma RefundGoesOn()
    ensures Run(Refunding(BetRefused(), Decided(EMPTY_WALLET, Unresolved, 3), 4), Advances(1, 7, 3))
         == Refunding(BetRefused(), Ready(EMPTY_WALLET, Unresolved, 3), 4)
  {
    RefundStale();
    var c := START.(db := BetRefused());
    assert Free(c, REFUND_OF_FOUR);
    hide Run, BetRefused, Free, Advances, InStage, KeyFree, ExternalFree, Stale;
    GoesOn(c, 1, REFUND_OF_FOUR, EMPTY_WALLET, Unresolved, 3, 4, 7);
  }

  lemma StaleRun()
    ensures Run(START, StaleActions()) == Refunding(BetRefused(), Ready(EMPTY_WALLET, Unresolved, 3), 4)
  {
    var opening := Creation(0, 0, "p", Money(0, "E"), 0) + Creation(0, 1, "q", Money(0, "E"), 0);
    var refunding, betting, going := [Begin(1, REFUND_OF_FOUR, None)] + Advances(1, 7, 5), Submission(2, FOREIGN_BET, 1), Advances(1, 7, 3);
    hide Run, TwoWallets, BetRefused, Refunding, Creation, Submission, Advances;
    TwoWalletsRun();
    RefundDecides();
    BetComesBetween();
    RefundGoesOn();
    RunConcat(START, opening, refunding);
    RunConcat(START, opening + refunding, betting);
    RunConcat(START, opening + refunding + betting, going);
  }

  /** A refund on one wallet finds its bet missing and is about to say so. Before it
      commits, a bet of that name is refused on another wallet. The refund commits
      as pending although Process would refuse it now. */
  lemma StaleDeferralInARun()
    ensures var s := Run(START, StaleActions());
            && Inv(s) && 1 in s.txns && s.txns[1].program == Submit(REFUND_OF_FOUR, None) && s.txns[1].stage.Ready?
            && !Blocked(s, 1) && s.txns[1].stage.outcome.Unresolved? && Stale(s.db.wagers, REFUND_OF_FOUR.request)
            && Process(s.db, REFUND_OF_FOUR, s.txns[1].stage.now, 7).Ok?
            && Do(s, Advance(1, 7)).db != Process(s.db, REFUND_OF_FOUR, s.txns[1].stage.now, 7).value.0
  {
    var d := Refunding(BetRefused(), Ready(EMPTY_WALLET, Unresolved, 3), 4);
    assert 1 in d.txns && d.txns[1] == Txn(Submit(REFUND_OF_FOUR, None), Ready(EMPTY_WALLET, Unresolved, 3), None);
    assert d.db == BetRefused();
    NobodyElse();
    StaleRun();
    StartInv();
    RefundStale();
    RunInv(START, StaleActions());
    hide Run, Process, BetRefused, Stale, Blocked, Inv, StaleActions, Refunding, KeyFree, ExternalFree, Do, Step, Defer;
    StaleOvertaken(d.db.wagers, REFUND_OF_FOUR.request);
    CommitIsProcess(d, 1, 7);
    AdvanceIsStep(d, 1, 7);
  }

  lemma NobodyElse()
    ensures !Blocked(Refunding(BetRefused(), Ready(EMPTY_WALLET, Unresolved, 3), 4), 1)
  {
    var c := START.(db := BetRefused());
    assert Free(c, REFUND_OF_FOUR);
    Unblocked(c, 1, REFUND_OF_FOUR, Ready(EMPTY_WALLET, Unresolved, 3), 4);
  }

  lemma StaleOvertaken(wagers: seq<WagerRow>, r: WagerRequest)
    requires Stale(wagers, r)
    ensures Overtaken(wagers, r)
  {
  }
}
