/** internal/application/wallet/query.go: a wallet's ledger, whole and page by page. */
module Queries {
  import opened Common
  import opened Wallets
  import opened Tables
  import opened Invariant
  import opened Protocol
  import opened Safety
  import opened Runs

  // ---- ORDER BY created_at, id

  /** A row's sort key. The same pair is the cursor of a page. */
  datatype Key = Key(createdAt: Time, id: int)

  function KeyOf(e: LedgerEntry): Key { Key(e.createdAt, e.id) }

  predicate Below(a: Key, b: Key) {
    a.createdAt < b.createdAt || (a.createdAt == b.createdAt && a.id < b.id)
  }

  predicate Ordered(s: seq<LedgerEntry>) {
    forall i, j :: 0 <= i < j < |s| ==> !Below(KeyOf(s[j]), KeyOf(s[i]))
  }

  predicate Increasing(s: seq<LedgerEntry>) {
    forall i, j :: 0 <= i < j < |s| ==> Below(KeyOf(s[i]), KeyOf(s[j]))
  }

  function Insert(s: seq<LedgerEntry>, e: LedgerEntry): seq<LedgerEntry> {
    if s == [] || !Below(KeyOf(e), KeyOf(s[|s| - 1])) then s + [e]
    else Insert(s[..|s| - 1], e) + [s[|s| - 1]]
  }

  function OrderBy(s: seq<LedgerEntry>): seq<LedgerEntry> {
    if s == [] then [] else Insert(OrderBy(s[..|s| - 1]), s[|s| - 1])
  }

  lemma {:induction false} InsertMembers(s: seq<LedgerEntry>, e: LedgerEntry)
    ensures multiset(Insert(s, e)) == multiset(s + [e])
  {
    if s == [] || !Below(KeyOf(e), KeyOf(s[|s| - 1])) {
    } else {
      InsertMembers(s[..|s| - 1], e);
      assert s == s[..|s| - 1] + [s[|s| - 1]];
    }
  }

  /** Whatever is sorted into the front stays below its last row. */
  lemma BelowLast(front: seq<LedgerEntry>, e: LedgerEntry, last: LedgerEntry, i: nat)
    requires Ordered(front + [last]) && Below(KeyOf(e), KeyOf(last)) && i < |Insert(front, e)|
    ensures !Below(KeyOf(last), KeyOf(Insert(front, e)[i]))
  {
    var r, all := Insert(front, e), front + [last];
    InsertMembers(front, e);
    assert r[i] in multiset(r);
    assert r[i] in front + [e];
    if r[i] in front {
      var k :| 0 <= k < |front| && front[k] == r[i];
      assert all[k] == r[i] && all[|front|] == last;
    }
  }

  lemma {:induction false} InsertOrdered(s: seq<LedgerEntry>, e: LedgerEntry)
    requires Ordered(s)
    ensures Ordered(Insert(s, e)) && multiset(Insert(s, e)) == multiset(s + [e])
  {
    InsertMembers(s, e);
    if s == [] || !Below(KeyOf(e), KeyOf(s[|s| - 1])) {
    } else {
      var front, last := s[..|s| - 1], s[|s| - 1];
      InsertOrdered(front, e);
      assert s == front + [last];
      var r := Insert(front, e);
      forall i | 0 <= i < |r| ensures !Below(KeyOf(last), KeyOf(r[i])) {
        BelowLast(front, e, last, i);
      }
    }
  }

  /** Sorting keeps every row and puts them in order. */
  lemma {:induction false} OrderByOrders(s: seq<LedgerEntry>)
    ensures Ordered(OrderBy(s)) && multiset(OrderBy(s)) == multiset(s)
  {
    if s == [] {
    } else {
      var front := s[..|s| - 1];
      OrderByOrders(front);
      InsertOrdered(OrderBy(front), s[|s| - 1]);
      assert s == front + [s[|s| - 1]];
    }
  }

  lemma {:induction false} OrderByIncreasing(s: seq<LedgerEntry>)
    requires Increasing(s)
    ensures OrderBy(s) == s
  {
    if s == [] {
    } else {
      OrderByIncreasing(s[..|s| - 1]);
      assert s == s[..|s| - 1] + [s[|s| - 1]];
    }
  }

  /** The rows a query on one wallet's ledger returns. */
  function View(db: Db, w: WalletId): seq<LedgerEntry> {
    OrderBy(LedgerOf(db.ledger, w))
  }

  // ---- The view of a reachable state

  lemma {:induction false} OwnEntries(ledger: seq<LedgerEntry>, w: WalletId, e: LedgerEntry)
    requires e in LedgerOf(ledger, w)
    ensures exists j :: 0 <= j < |ledger| && ledger[j] == e && e.walletId == w
  {
    var n := |ledger| - 1;
    if e in LedgerOf(ledger[..n], w) {
      OwnEntries(ledger[..n], w, e);
    } else {
      assert ledger[n] == e;
    }
  }

  lemma {:induction false} TimedIncreases(ledger: seq<LedgerEntry>, w: WalletId)
    requires Timed(ledger)
    ensures Increasing(LedgerOf(ledger, w))
  {
    if ledger == [] {
    } else {
      var n := |ledger| - 1;
      TimedIncreases(ledger[..n], w);
      var own := LedgerOf(ledger[..n], w);
      forall i | 0 <= i < |own| && ledger[n].walletId == w ensures own[i].createdAt < ledger[n].createdAt {
        OwnEntries(ledger[..n], w, own[i]);
      }
    }
  }

  /** In every reachable state the query returns the entries in commit order. */
  lemma CommitOrder(s: Sys, w: WalletId)
    requires Inv(s)
    ensures View(s.db, w) == LedgerOf(s.db.ledger, w) && Increasing(View(s.db, w))
  {
    TimedIncreases(s.db.ledger, w);
    OrderByIncreasing(LedgerOf(s.db.ledger, w));
  }

  lemma {:induction false} LedgerOfPrefix(ledger: seq<LedgerEntry>, more: seq<LedgerEntry>, w: WalletId)
    ensures LedgerOf(ledger, w) <= LedgerOf(ledger + more, w)
    decreases |more|
  {
    if more == [] {
      assert ledger + more == ledger;
    } else {
      var n := |more| - 1;
      LedgerOfPrefix(ledger, more[..n], w);
      assert (ledger + more)[..|ledger + more| - 1] == ledger + more[..n];
    }
  }

  lemma ViewExtends(s: Sys, s': Sys, w: WalletId)
    requires Inv(s) && Inv(s') && s.db.ledger <= s'.db.ledger
    ensures View(s.db, w) <= View(s'.db, w)
  {
    hide Inv, View, LedgerOf, Increasing;
    var more := s'.db.ledger[|s.db.ledger|..];
    assert s.db.ledger + more == s'.db.ledger;
    CommitOrder(s, w);
    CommitOrder(s', w);
    LedgerOfPrefix(s.db.ledger, more, w);
  }

  /** Whatever runs meanwhile, the view only grows at its end. */
  lemma ViewGrows(s: Sys, actions: seq<Action>, w: WalletId)
    requires Inv(s)
    ensures View(s.db, w) <= View(Run(s, actions).db, w)
  {
    hide Inv, Run, View;
    RunInv(s, actions);
    RunGrows(s, actions);
    ViewExtends(s, Run(s, actions), w);
  }

  // ---- Pages

  const DEFAULT_LEDGER_PAGE_SIZE := 50
  const MAX_LEDGER_PAGE_SIZE := 100

  datatype Page = Page(entries: seq<LedgerEntry>, next: Option<Key>)

  function Clamp(limit: int): nat {
    if limit <= 0 then DEFAULT_LEDGER_PAGE_SIZE
    else if limit > MAX_LEDGER_PAGE_SIZE then MAX_LEDGER_PAGE_SIZE
    else limit
  }

  /** The rows after the cursor. */
  function Beyond(view: seq<LedgerEntry>, cursor: Option<Key>): seq<LedgerEntry> {
    if view == [] then []
    else
      var last := view[|view| - 1];
      Beyond(view[..|view| - 1], cursor)
      + (if cursor.None? || Below(cursor.value, KeyOf(last)) then [last] else [])
  }

  function Limited(rows: seq<LedgerEntry>, count: nat): seq<LedgerEntry> {
    if |rows| <= count then rows else rows[..count]
  }

  /** As many rows after the cursor as fit, and where to go on if there are more. */
  function PageOf(view: seq<LedgerEntry>, size: nat, cursor: Option<Key>): Page
    requires size > 0
  {
    var rest := Beyond(view, cursor);
    if |rest| <= size then Page(rest, None)
    else Page(rest[..size], Some(KeyOf(rest[size - 1])))
  }

  /** The page holds as many of the rows after the cursor as were asked for, fifty if
      no number was given and a hundred at most, and says where to go on exactly if
      rows are left. */
  predicate PageFits(view: seq<LedgerEntry>, limit: int, cursor: Option<Key>, page: Page) {
    var rest, n := Beyond(view, cursor), |page.entries|;
    && (1 <= limit <= 100 ==> n == if |rest| < limit then |rest| else limit)
    && (limit <= 0 ==> n == if |rest| < 50 then |rest| else 50)
    && (limit > 100 ==> n == if |rest| < 100 then |rest| else 100)
    && page.entries == rest[..n]
    && (page.next.None? <==> n == |rest|)
    && (page.next.Some? ==> n > 0 && page.next.value == Key(page.entries[n - 1].createdAt, page.entries[n - 1].id))
  }

  lemma PageOfFits(view: seq<LedgerEntry>, limit: int, cursor: Option<Key>)
    ensures PageFits(view, limit, cursor, PageOf(view, Clamp(limit), cursor))
  {
    hide Beyond;
  }

  /** The row comes after the cursor: later, or at the same instant with a larger id. */
  predicate ComesAfter(e: LedgerEntry, cursor: Option<Key>) {
    cursor.Some? ==>
      || e.createdAt > cursor.value.createdAt
      || (e.createdAt == cursor.value.createdAt && e.id > cursor.value.id)
  }

  /** The rows after any cursor are the rear part of an ordered view: nothing that
      comes after it is missing and nothing before it is there. */
  lemma {:induction false} BeyondIsRear(view: seq<LedgerEntry>, cursor: Option<Key>) returns (k: nat)
    requires Increasing(view)
    ensures k <= |view| && Beyond(view, cursor) == view[k..]
    ensures forall i :: 0 <= i < |view| ==> (ComesAfter(view[i], cursor) <==> i >= k)
  {
    if view == [] {
      k := 0;
    } else {
      var n := |view| - 1;
      var front, last := view[..n], view[n];
      k := BeyondIsRear(front, cursor);
      assert view == front + [last];
      if ComesAfter(last, cursor) {
        assert view[k..] == front[k..] + [last];
      } else {
        NoneAfter(view, cursor);
        assert front[k..] == [];
        k := |view|;
      }
    }
  }

  /** Where the last row does not come after the cursor, no row does. */
  lemma NoneAfter(view: seq<LedgerEntry>, cursor: Option<Key>)
    requires Increasing(view) && view != [] && !ComesAfter(view[|view| - 1], cursor)
    ensures forall i :: 0 <= i < |view| ==> !ComesAfter(view[i], cursor)
  {
    var last := view[|view| - 1];
    forall i | 0 <= i < |view| ensures !ComesAfter(view[i], cursor) {
      assert i < |view| - 1 ==> Below(KeyOf(view[i]), KeyOf(last));
    }
  }

  method LedgerPage(db: Db, w: WalletId, limit: int, cursor: Option<Key>) returns (r: Result<Page, Error>)
    ensures r == if w !in db.wallets then Err(WalletNotFound) else Ok(PageOf(View(db, w), Clamp(limit), cursor))
    ensures w in db.wallets ==> r.Ok? && PageFits(View(db, w), limit, cursor, r.value)
  {
    if w !in db.wallets {
      return Err(WalletNotFound);
    }
    var size: int := limit;
    if size <= 0 {
      size := DEFAULT_LEDGER_PAGE_SIZE;
    }
    if size > MAX_LEDGER_PAGE_SIZE {
      size := MAX_LEDGER_PAGE_SIZE;
    }
    // One row more than the page holds tells whether another page exists.
    var entries := Limited(Beyond(View(db, w), cursor), size + 1);
    assert size == Clamp(limit);
    assert |entries| > size ==> entries[..size] == Beyond(View(db, w), cursor)[..size];
    hide View, Beyond, Clamp, PageFits;
    var page := Page(entries, None);
    if |entries| > size {
      page := page.(entries := entries[..size]);
      page := page.(next := Some(KeyOf(page.entries[|page.entries| - 1])));
    }
    PageOfFits(View(db, w), limit, cursor);
    return Ok(page);
  }

  /** The rows a client collects that follows the cursors, one request per view. */
  datatype Session = Session(entries: seq<LedgerEntry>, next: Option<Key>, pages: nat)

  function Follow(views: seq<seq<LedgerEntry>>, limits: seq<int>, cursor: Option<Key>): Session
    requires 0 < |views| == |limits|
    decreases |views|
  {
    var page := PageOf(views[0], Clamp(limits[0]), cursor);
    if page.next.None? || |views| == 1 then Session(page.entries, page.next, 1)
    else
      var rest := Follow(views[1..], limits[1..], page.next);
      Session(page.entries + rest.entries, rest.next, 1 + rest.pages)
  }

  lemma {:induction false} BeyondStart(view: seq<LedgerEntry>)
    ensures Beyond(view, None) == view
  {
    if view != [] {
      BeyondStart(view[..|view| - 1]);
    }
  }

  /** The cursor of the k-th row leaves exactly the rows from k on. */
  lemma {:induction false} BeyondKey(view: seq<LedgerEntry>, k: nat)
    requires Increasing(view) && 0 < k <= |view|
    ensures Beyond(view, Some(KeyOf(view[k - 1]))) == view[k..]
  {
    var n := |view| - 1;
    if k == n + 1 {
      BeyondAll(view[..n], KeyOf(view[n]));
    } else {
      BeyondKey(view[..n], k);
      assert view[k..] == view[..n][k..] + [view[n]];
    }
  }

  lemma {:induction false} BeyondAll(view: seq<LedgerEntry>, key: Key)
    requires forall i :: 0 <= i < |view| ==> Below(KeyOf(view[i]), key)
    ensures Beyond(view, Some(key)) == []
  {
    if view != [] {
      BeyondAll(view[..|view| - 1], key);
    }
  }

  /** Where a client stands that has read the first `read` rows. */
  predicate Stands(view: seq<LedgerEntry>, read: nat, cursor: Option<Key>) {
    read <= |view| && if read == 0 then cursor.None? else cursor == Some(KeyOf(view[read - 1]))
  }

  lemma BeyondStand(view: seq<LedgerEntry>, read: nat, cursor: Option<Key>)
    requires Increasing(view) && Stands(view, read, cursor)
    ensures Beyond(view, cursor) == view[read..]
  {
    if read == 0 {
      BeyondStart(view);
    } else {
      BeyondKey(view, read);
    }
  }

  predicate Growing(views: seq<seq<LedgerEntry>>) {
    && (forall i :: 0 <= i < |views| ==> Increasing(views[i]))
    && forall i, j :: 0 <= i <= j < |views| ==> views[i] <= views[j]
  }

  /** One page moves a client on to the next rows. */
  lemma PageStands(view: seq<LedgerEntry>, size: nat, read: nat, cursor: Option<Key>)
    requires size > 0 && Increasing(view) && Stands(view, read, cursor)
    ensures var page := PageOf(view, size, cursor);
            if page.next.None? then page.entries == view[read..]
            else
              && 0 < |page.entries| && read + |page.entries| < |view|
              && page.entries == view[read..read + |page.entries|]
              && Stands(view, read + |page.entries|, page.next)
  {
    BeyondStand(view, read, cursor);
  }

  /** What a client has read that stood at `read` and then got r from these views. */
  predicate ReadOn(views: seq<seq<LedgerEntry>>, read: nat, r: Session) {
    && 0 < r.pages <= |views|
    && var view := views[r.pages - 1];
       && read <= |view|
       && if r.next.None? then r.entries == view[read..]
          else
            && r.pages == |views| <= |r.entries|
            && read + |r.entries| < |view| && r.entries == view[read..read + |r.entries|]
  }

  lemma ReadOnJoin(views: seq<seq<LedgerEntry>>, read: nat, entries: seq<LedgerEntry>, rest: Session)
    requires |views| > 1 && Growing(views) && 0 < |entries| && read + |entries| <= |views[0]|
    requires entries == views[0][read..read + |entries|]
    requires ReadOn(views[1..], read + |entries|, rest)
    ensures ReadOn(views, read, Session(entries + rest.entries, rest.next, 1 + rest.pages))
  {
    var view := views[rest.pages];
    assert views[1..][rest.pages - 1] == view && views[0] <= view;
    assert entries == view[read..read + |entries|];
  }

  /** Following the cursors while larger keys are appended: the rows collected are
      the next rows of the view last asked, all of them once no cursor comes back,
      and each page brings at least one. */
  lemma {:induction false} FollowFrom(views: seq<seq<LedgerEntry>>, limits: seq<int>, read: nat, cursor: Option<Key>)
    requires 0 < |views| == |limits| && Growing(views) && Stands(views[0], read, cursor)
    ensures ReadOn(views, read, Follow(views, limits, cursor))
    decreases |views|
  {
    PageStands(views[0], Clamp(limits[0]), read, cursor);
    var page := PageOf(views[0], Clamp(limits[0]), cursor);
    if page.next.Some? && |views| > 1 {
      assert views[0] <= views[1];
      assert Stands(views[1], read + |page.entries|, page.next);
      hide PageOf;
      FollowFrom(views[1..], limits[1..], read + |page.entries|, page.next);
      ReadOnJoin(views, read, page.entries, Follow(views[1..], limits[1..], page.next));
    }
  }

  /** Reading a still ledger: as many requests as it has rows, of whatever sizes,
      suffice to read exactly the whole of it. */
  lemma WholeLedger(view: seq<LedgerEntry>, limits: seq<int>)
    requires Increasing(view) && |limits| > 0 && |limits| >= |view|
    ensures Follow(seq(|limits|, _ => view), limits, None).next == None
    ensures Follow(seq(|limits|, _ => view), limits, None).entries == view
  {
    FollowFrom(seq(|limits|, _ => view), limits, 0, None);
  }

  // ---- Pages read while the system runs

  /** The views at the states reached after each stretch of actions. */
  function Views(s: Sys, stretches: seq<seq<Action>>, w: WalletId): (views: seq<seq<LedgerEntry>>)
    ensures |views| == |stretches|
    decreases |stretches|
  {
    if stretches == [] then []
    else
      var s' := Run(s, stretches[0]);
      [View(s'.db, w)] + Views(s', stretches[1..], w)
  }

  lemma {:induction false} ViewsGrow(s: Sys, stretches: seq<seq<Action>>, w: WalletId)
    requires Inv(s)
    ensures Growing(Views(s, stretches, w))
    ensures forall i :: 0 <= i < |stretches| ==> View(s.db, w) <= Views(s, stretches, w)[i]
    decreases |stretches|
  {
    hide Inv, Run, View;
    if stretches != [] {
      var s' := Run(s, stretches[0]);
      RunInv(s, stretches[0]);
      ViewGrows(s, stretches[0], w);
      CommitOrder(s', w);
      ViewsGrow(s', stretches[1..], w);
    }
  }

  /** A client that pages through a wallet's ledger while transactions commit
      reads every entry that was there at the start, in order, before anything
      else, and nothing twice: what it has read when no cursor comes back is the
      ledger as it was at its last request. */
  lemma PagedWhileRunning(s: Sys, stretches: seq<seq<Action>>, limits: seq<int>, w: WalletId)
    requires Inv(s) && 0 < |stretches| == |limits|
    ensures var views := Views(s, stretches, w);
            var r := Follow(views, limits, None);
            && 0 < r.pages <= |views|
            && r.entries <= views[r.pages - 1]
            && Increasing(r.entries)
            && (r.next.None? ==> r.entries == views[r.pages - 1] && View(s.db, w) <= r.entries)
            && (r.next.Some? ==> |r.entries| >= |limits|)
  {
    ViewsGrow(s, stretches, w);
    FollowFrom(Views(s, stretches, w), limits, 0, None);
  }
}
