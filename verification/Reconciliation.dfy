/** internal/application/wallet/reconciliation.go: the stored balance checked
    against the ledger. */
module Reconciliation {
  import opened Common
  import opened Amounts
  import opened Wallets
  import opened Tables
  import opened Invariant
  import opened Protocol
  import opened Safety
  import opened Queries

  datatype Report = Report(
    currency: string, storedBalance: Int64, calculatedBalance: Int64, difference: Int64,
    checkedEntries: nat, consistent: bool)

  predicate Fits(n: int) { MIN_INT64 <= n <= MAX_INT64 }

  /** The entry's balance cannot be recomputed in int64. Subtraction refuses the
      least int64 even where the difference would fit. */
  predicate Overflows(e: LedgerEntry) {
    if e.direction.Credit? then !Fits(e.balanceBefore + e.amount)
    else e.amount == MIN_INT64 || !Fits(e.balanceBefore - e.amount)
  }

  predicate Exact(e: LedgerEntry) {
    e.balanceAfter == e.balanceBefore + SignedAmount(e.direction, e.amount)
  }

  /** Each entry is arithmetically right and starts where the one before it ended. */
  predicate Unbroken(entries: seq<LedgerEntry>) {
    && (forall i :: 0 <= i < |entries| ==> Exact(entries[i]))
    && (forall i :: 0 < i < |entries| ==> entries[i].balanceBefore == entries[i - 1].balanceAfter)
  }

  predicate Computable(entries: seq<LedgerEntry>) {
    forall i :: 0 <= i < |entries| ==> !Overflows(entries[i])
  }

  function Calculated(entries: seq<LedgerEntry>): Int64 {
    if entries == [] then 0 else entries[|entries| - 1].balanceAfter
  }

  /** Valid exactly when the entries form an unbroken, correct chain; an error
      exactly when some entry overflows. */
  method CalculateLedgerBalance(entries: seq<LedgerEntry>, currency: string)
    returns (r: Result<(Int64, bool), Error>)
    ensures r == if Computable(entries) then Ok((Calculated(entries), Unbroken(entries))) else Err(MoneyOverflow)
  {
    if |entries| == 0 {
      return Ok((0, true));
    }
    var calculated := Money(entries[0].balanceBefore, currency);
    var valid := true;
    for i := 0 to |entries|
      invariant calculated == Money(if i == 0 then entries[0].balanceBefore else entries[i - 1].balanceAfter, currency)
      invariant Computable(entries[..i])
      invariant valid <==> Unbroken(entries[..i])
    {
      var entry := entries[i];
      assert forall k :: 0 <= k < i ==> entries[..i + 1][k] == entries[..i][k];
      assert entries[..i + 1][i] == entry;
      if entry.balanceBefore != calculated.amount {
        valid := false;
      }
      var amount := Money(entry.amount, currency);
      var expected;
      match entry.direction {
        case Credit => expected := Add(Money(entry.balanceBefore, currency), amount);
        case Debit => expected := Subtract(Money(entry.balanceBefore, currency), amount);
      }
      assert expected.Err? <==> Overflows(entry);
      if expected.Err? {
        return Err(expected.error);
      }
      assert expected.value.amount == entry.balanceBefore + SignedAmount(entry.direction, entry.amount);
      if expected.value.amount != entry.balanceAfter {
        valid := false;
      }
      calculated := Money(entry.balanceAfter, currency);
      assert Unbroken(entries[..i + 1]) <==>
        Unbroken(entries[..i]) && Exact(entry) && (i > 0 ==> entry.balanceBefore == entries[i - 1].balanceAfter);
    }
    assert entries[..|entries|] == entries;
    return Ok((calculated.amount, valid));
  }

  function SignedSum(entries: seq<LedgerEntry>): int {
    if entries == [] then 0
    else
      var last := entries[|entries| - 1];
      SignedSum(entries[..|entries| - 1]) + SignedAmount(last.direction, last.amount)
  }

  /** A valid chain ends at its first before-balance, which need not be zero, plus
      the signed sum of its amounts. */
  lemma {:induction false} UnbrokenSum(entries: seq<LedgerEntry>)
    requires Unbroken(entries) && entries != []
    ensures Calculated(entries) == entries[0].balanceBefore + SignedSum(entries)
  {
    var n := |entries| - 1;
    assert Exact(entries[n]);
    if n > 0 {
      UnbrokenSum(entries[..n]);
    }
  }

  /** The report on a snapshot, as a reader of the ledger would give it. */
  function Reconciled(db: Db, w: WalletId): Result<Report, Error> {
    if w !in db.wallets then Err(WalletNotFound)
    else
      var wallet, entries := db.wallets[w], View(db, w);
      var difference: int := wallet.balance - Calculated(entries);
      if !Computable(entries) || !Fits(difference) || Calculated(entries) == MIN_INT64 then Err(MoneyOverflow)
      else Ok(Report(wallet.currency, wallet.balance, Calculated(entries), difference, |entries|,
                     Unbroken(entries) && difference == 0))
  }

  /** What the report says of any tables, consistent or not. Every entry of the
      wallet is checked, stored and calculated balance differ by the difference, and
      the verdict is that nothing is wrong with the chain nor with its end. */
  predicate Reports(db: Db, w: WalletId, report: Report)
    requires w in db.wallets
  {
    var entries := View(db, w);
    && report.storedBalance == db.wallets[w].balance && report.currency == db.wallets[w].currency
    && report.storedBalance == report.calculatedBalance + report.difference
    && report.calculatedBalance == (if entries == [] then 0 else entries[|entries| - 1].balanceAfter)
    && report.checkedEntries == |LedgerOf(db.ledger, w)|
    && (report.consistent <==>
          && report.storedBalance == report.calculatedBalance
          && (forall i :: 0 <= i < |entries| ==>
                if entries[i].direction.Credit? then entries[i].balanceAfter == entries[i].balanceBefore + entries[i].amount
                else entries[i].balanceAfter == entries[i].balanceBefore - entries[i].amount)
          && (forall i :: 0 < i < |entries| ==> entries[i].balanceBefore == entries[i - 1].balanceAfter))
  }

  lemma ReconciledReports(db: Db, w: WalletId)
    ensures Reconciled(db, w) == Err(WalletNotFound) <==> w !in db.wallets
    ensures w in db.wallets ==>
              (Reconciled(db, w).Ok? <==>
                 && Computable(View(db, w)) && Calculated(View(db, w)) != MIN_INT64
                 && MIN_INT64 <= db.wallets[w].balance - Calculated(View(db, w)) <= MAX_INT64)
    ensures w in db.wallets && Reconciled(db, w).Ok? ==> Reports(db, w, Reconciled(db, w).value)
  {
    EveryEntry(db, w);
    UnbrokenMeans(View(db, w));
    hide View, LedgerOf, Computable, Unbroken;
  }

  lemma EveryEntry(db: Db, w: WalletId)
    ensures |View(db, w)| == |LedgerOf(db.ledger, w)|
  {
    hide OrderBy, LedgerOf, Ordered;
    OrderByOrders(LedgerOf(db.ledger, w));
    assert |View(db, w)| == |multiset(View(db, w))| == |multiset(LedgerOf(db.ledger, w))|;
  }

  lemma UnbrokenMeans(entries: seq<LedgerEntry>)
    ensures Unbroken(entries) <==>
      && (forall i :: 0 <= i < |entries| ==>
            if entries[i].direction.Credit? then entries[i].balanceAfter == entries[i].balanceBefore + entries[i].amount
            else entries[i].balanceAfter == entries[i].balanceBefore - entries[i].amount)
      && (forall i :: 0 < i < |entries| ==> entries[i].balanceBefore == entries[i - 1].balanceAfter)
  {
    assert forall i :: 0 <= i < |entries| ==>
      (Exact(entries[i]) <==>
         if entries[i].direction.Credit? then entries[i].balanceAfter == entries[i].balanceBefore + entries[i].amount
         else entries[i].balanceAfter == entries[i].balanceBefore - entries[i].amount);
    hide Exact;
  }

  method Reconcile(db: Db, w: WalletId) returns (r: Result<Report, Error>)
    ensures r == Reconciled(db, w)
    ensures w in db.wallets && r.Ok? ==> Reports(db, w, r.value)
  {
    if w !in db.wallets {
      return Err(WalletNotFound);
    }
    ReconciledReports(db, w);
    hide Reports;
    var wallet := db.wallets[w];
    var entries := View(db, w);
    var balance := CalculateLedgerBalance(entries, wallet.currency);
    if balance.Err? {
      return Err(balance.error);
    }
    var (calculated, valid) := balance.value;
    var difference := Subtract(Money(wallet.balance, wallet.currency), Money(calculated, wallet.currency));
    if difference.Err? {
      return Err(difference.error);
    }
    return Ok(Report(wallet.currency, wallet.balance, calculated, difference.value.amount, |entries|,
                     valid && difference.value.amount == 0));
  }

  // ---- Reachable snapshots

  lemma {:induction false} ChainUnbroken(entries: seq<LedgerEntry>, balance: int)
    requires Chain(entries, balance)
    ensures Unbroken(entries) && Calculated(entries) == balance
    ensures forall i :: 0 <= i < |entries| ==> LedgerChecks(entries[i])
    ensures entries != [] ==> entries[0].balanceBefore == 0
  {
    if entries == [] {
    } else {
      var n := |entries| - 1;
      ChainUnbroken(entries[..n], entries[n].balanceBefore);
      assert entries == entries[..n] + [entries[n]];
    }
  }

  lemma CheckedComputable(entries: seq<LedgerEntry>)
    requires forall i :: 0 <= i < |entries| ==> LedgerChecks(entries[i])
    ensures Computable(entries)
  {
    forall i | 0 <= i < |entries| ensures !Overflows(entries[i]) {
      assert LedgerChecks(entries[i]);
    }
  }

  /** What reconciliation needs of a wallet, and every reachable state gives. */
  predicate Kept(db: Db, w: WalletId) {
    w in db.wallets && Timed(db.ledger) && Chain(LedgerOf(db.ledger, w), db.wallets[w].balance)
  }

  lemma KeptInEveryRun(actions: seq<Action>, w: WalletId)
    requires w in Run(START, actions).db.wallets
    ensures Kept(Run(START, actions).db, w)
  {
    StartInv();
    RunInv(START, actions);
    assert WalletOk(Run(START, actions).db, w);
    hide Run, Chain, LedgerOf;
  }

  lemma KeptConsistent(db: Db, w: WalletId)
    requires Kept(db, w)
    ensures var wallet := db.wallets[w];
            Reconciled(db, w)
            == Ok(Report(wallet.currency, wallet.balance, wallet.balance, 0, |LedgerOf(db.ledger, w)|, true))
  {
    var entries := LedgerOf(db.ledger, w);
    hide Timed, Chain, LedgerOf, OrderBy, Increasing, Unbroken, Computable, Calculated;
    TimedIncreases(db.ledger, w);
    OrderByIncreasing(entries);
    ChainUnbroken(entries, db.wallets[w].balance);
    CheckedComputable(entries);
    ChainNotNegative(entries, db.wallets[w].balance);
  }

  lemma ChainNotNegative(entries: seq<LedgerEntry>, balance: int)
    requires Chain(entries, balance)
    ensures balance >= 0
  {
    if entries != [] { assert LedgerChecks(entries[|entries| - 1]); }
  }

  /** Whenever it runs, reconciliation of a wallet reports every entry checked, no
      difference, and consistent. */
  lemma ConsistentInEveryRun(actions: seq<Action>, w: WalletId)
    requires w in Run(START, actions).db.wallets
    ensures var db := Run(START, actions).db;
            var wallet := db.wallets[w];
            Reconciled(db, w)
            == Ok(Report(wallet.currency, wallet.balance, wallet.balance, 0, |LedgerOf(db.ledger, w)|, true))
  {
    hide Run, Kept, LedgerOf, Reconciled;
    KeptInEveryRun(actions, w);
    KeptConsistent(Run(START, actions).db, w);
  }

  // ---- A missing entry

  function Without(ledger: seq<LedgerEntry>, j: nat): seq<LedgerEntry>
    requires j < |ledger|
  {
    ledger[..j] + ledger[j + 1..]
  }

  lemma {:induction false} LedgerOfWithout(ledger: seq<LedgerEntry>, j: nat, w: WalletId)
    requires j < |ledger| && ledger[j].walletId == w
    ensures var k := |LedgerOf(ledger[..j], w)|;
            && k < |LedgerOf(ledger, w)|
            && LedgerOf(Without(ledger, j), w) == Without(LedgerOf(ledger, w), k)
    decreases |ledger|
  {
    var n := |ledger| - 1;
    if j == n {
      assert Without(ledger, j) == ledger[..n];
    } else {
      LedgerOfWithout(ledger[..n], j, w);
      assert ledger[..n][..j] == ledger[..j];
      assert Without(ledger, j)[..n - 1] == Without(ledger[..n], j);
    }
  }

  /** A chain from zero that loses its k-th entry still passes, against the same
      stored balance, only if the entry was the first of several. */
  lemma WithoutBreaks(entries: seq<LedgerEntry>, balance: int, k: nat)
    requires Chain(entries, balance) && k < |entries|
    ensures Computable(Without(entries, k))
    ensures Unbroken(Without(entries, k)) && Calculated(Without(entries, k)) == balance <==> k == 0 && |entries| > 1
  {
    ChainUnbroken(entries, balance);
    CheckedComputable(entries);
    var n, less := |entries|, Without(entries, k);
    assert forall i :: 0 <= i < |less| ==> less[i] == entries[if i < k then i else i + 1];
    assert LedgerChecks(entries[k]);
    if 0 < k < n - 1 {
      assert less[k].balanceBefore == entries[k].balanceAfter && less[k - 1].balanceAfter == entries[k].balanceBefore;
    }
  }

  /** Balances on a chain never go below zero, so no difference overflows. */
  lemma NotNegative(entries: seq<LedgerEntry>, balance: int, k: nat)
    requires Chain(entries, balance) && k < |entries|
    ensures balance >= 0 && Calculated(Without(entries, k)) >= 0
  {
    ChainUnbroken(entries, balance);
    var less := Without(entries, k);
    assert forall i :: 0 <= i < |less| ==> less[i] == entries[if i < k then i else i + 1];
    assert LedgerChecks(entries[|entries| - 1]);
  }

  lemma LessTimed(ledger: seq<LedgerEntry>, j: nat)
    requires Timed(ledger) && j < |ledger|
    ensures Timed(Without(ledger, j))
  {
    var less := Without(ledger, j);
    assert forall i :: 0 <= i < |less| ==> less[i] == ledger[if i < j then i else i + 1];
  }

  lemma ReportOf(db: Db, w: WalletId, entries: seq<LedgerEntry>)
    requires w in db.wallets && db.wallets[w].balance >= 0
    requires View(db, w) == entries && Computable(entries) && Calculated(entries) >= 0
    ensures Reconciled(db, w).Ok?
    ensures Reconciled(db, w).value.consistent <==> Unbroken(entries) && Calculated(entries) == db.wallets[w].balance
  {
    hide View, Computable, Unbroken, Calculated;
  }

  lemma ViewWithout(db: Db, w: WalletId, j: nat)
    requires Timed(db.ledger) && j < |db.ledger| && db.ledger[j].walletId == w
    ensures |LedgerOf(db.ledger[..j], w)| < |LedgerOf(db.ledger, w)|
    ensures View(db.(ledger := Without(db.ledger, j)), w)
         == Without(LedgerOf(db.ledger, w), |LedgerOf(db.ledger[..j], w)|)
  {
    hide Timed, LedgerOf, OrderBy, Increasing, Without;
    LessTimed(db.ledger, j);
    TimedIncreases(Without(db.ledger, j), w);
    OrderByIncreasing(LedgerOf(Without(db.ledger, j), w));
    LedgerOfWithout(db.ledger, j, w);
  }

  lemma KeptMissing(db: Db, w: WalletId, j: nat)
    requires Kept(db, w) && j < |db.ledger| && db.ledger[j].walletId == w
    ensures var report := Reconciled(db.(ledger := Without(db.ledger, j)), w);
            && report.Ok?
            && (report.value.consistent <==> LedgerOf(db.ledger[..j], w) == [] && |LedgerOf(db.ledger, w)| > 1)
  {
    hide Timed, Chain, LedgerOf, View, Unbroken, Computable, Calculated, Reconciled, Without;
    var k := |LedgerOf(db.ledger[..j], w)|;
    ViewWithout(db, w, j);
    WithoutBreaks(LedgerOf(db.ledger, w), db.wallets[w].balance, k);
    NotNegative(LedgerOf(db.ledger, w), db.wallets[w].balance, k);
    ReportOf(db.(ledger := Without(db.ledger, j)), w, Without(LedgerOf(db.ledger, w), k));
  }

  /** Take any entry of the wallet out of the table behind a reachable state:
      reconciliation notices, except where the entry was the first of several,
      because the calculation starts from the next one's before-balance. */
  lemma MissingEntryNoticed(actions: seq<Action>, w: WalletId, j: nat)
    requires var db := Run(START, actions).db;
             w in db.wallets && j < |db.ledger| && db.ledger[j].walletId == w
    ensures var db := Run(START, actions).db;
            var report := Reconciled(db.(ledger := Without(db.ledger, j)), w);
            && report.Ok?
            && (report.value.consistent <==>
                  LedgerOf(db.ledger[..j], w) == [] && |LedgerOf(db.ledger, w)| > 1)
  {
    hide Run, Kept, LedgerOf, Reconciled, Without;
    KeptInEveryRun(actions, w);
    KeptMissing(Run(START, actions).db, w, j);
  }
}
