/** One publisher as it runs: PublishBatch, beside others that hold rows locked. */
module Publishers {
  import opened Common
  import opened Tables
  import opened Backoff
  import opened Outbox

  // ---- findPending

  predicate DistinctIds(ids: seq<nat>) {
    forall i, j :: 0 <= i < j < |ids| ==> ids[i] != ids[j]
  }

  predicate InTable(rows: seq<OutboxRow>, ids: seq<nat>) {
    forall i :: 0 <= i < |ids| ==> ids[i] < |rows|
  }

  predicate OldestFirst(rows: seq<OutboxRow>, ids: seq<nat>)
    requires InTable(rows, ids)
  {
    forall i, j :: 0 <= i < j < |ids| ==> rows[ids[i]].occurredAt <= rows[ids[j]].occurredAt
  }

  function InsertId(rows: seq<OutboxRow>, ids: seq<nat>, id: nat): (r: seq<nat>)
    requires InTable(rows, ids) && id < |rows|
    ensures InTable(rows, r) && |r| == |ids| + 1
  {
    if ids == [] || rows[ids[|ids| - 1]].occurredAt <= rows[id].occurredAt then ids + [id]
    else InsertId(rows, ids[..|ids| - 1], id) + [ids[|ids| - 1]]
  }

  /** The row is due, unpublished and not locked by another publisher. */
  predicate Wanted(rows: seq<OutboxRow>, held: set<nat>, now: Time, id: nat)
    requires id < |rows|
  {
    Eligible(rows[id], now) && id !in held
  }

  /** Every wanted row among the first n, the oldest event first. */
  function PendingIds(rows: seq<OutboxRow>, held: set<nat>, now: Time, n: nat): (ids: seq<nat>)
    requires n <= |rows|
    ensures InTable(rows, ids)
  {
    if n == 0 then []
    else if Wanted(rows, held, now, n - 1) then InsertId(rows, PendingIds(rows, held, now, n - 1), n - 1)
    else PendingIds(rows, held, now, n - 1)
  }

  lemma {:induction false} SortedInMembers(rows: seq<OutboxRow>, ids: seq<nat>, id: nat)
    requires InTable(rows, ids) && id < |rows|
    ensures multiset(InsertId(rows, ids, id)) == multiset(ids) + multiset{id}
  {
    if ids == [] || rows[ids[|ids| - 1]].occurredAt <= rows[id].occurredAt {
    } else {
      SortedInMembers(rows, ids[..|ids| - 1], id);
      assert ids == ids[..|ids| - 1] + [ids[|ids| - 1]];
    }
  }

  lemma {:induction false} InsertOldestFirst(rows: seq<OutboxRow>, ids: seq<nat>, id: nat)
    requires InTable(rows, ids) && OldestFirst(rows, ids) && id < |rows|
    ensures OldestFirst(rows, InsertId(rows, ids, id))
  {
    if ids == [] || rows[ids[|ids| - 1]].occurredAt <= rows[id].occurredAt {
    } else {
      var front, last := ids[..|ids| - 1], ids[|ids| - 1];
      InsertOldestFirst(rows, front, id);
      SortedInMembers(rows, front, id);
      var r := InsertId(rows, front, id);
      forall i | 0 <= i < |r| ensures rows[r[i]].occurredAt <= rows[last].occurredAt {
        assert r[i] in multiset(r);
        assert r[i] in front || r[i] == id;
      }
    }
  }

  lemma Twice(ids: seq<nat>, i: nat, j: nat)
    requires i < j < |ids|
    ensures ids[i] == ids[j] ==> multiset(ids)[ids[i]] >= 2
  {
    assert ids == ids[..i] + [ids[i]] + ids[i + 1..j] + [ids[j]] + ids[j + 1..];
  }

  lemma {:induction false} Multiplicity(ids: seq<nat>)
    requires DistinctIds(ids)
    ensures forall x :: multiset(ids)[x] <= 1
  {
    if ids != [] {
      var n := |ids| - 1;
      Multiplicity(ids[..n]);
      assert ids == ids[..n] + [ids[n]];
      assert ids[n] !in ids[..n];
    }
  }

  lemma InsertDistinct(rows: seq<OutboxRow>, ids: seq<nat>, id: nat)
    requires InTable(rows, ids) && id < |rows| && DistinctIds(ids) && id !in ids
    ensures DistinctIds(InsertId(rows, ids, id))
    ensures forall x :: x in InsertId(rows, ids, id) <==> x in ids || x == id
  {
    var r := InsertId(rows, ids, id);
    SortedInMembers(rows, ids, id);
    Multiplicity(ids);
    assert forall x :: x in r <==> x in multiset(r);
    forall i, j | 0 <= i < j < |r| ensures r[i] != r[j] {
      Twice(r, i, j);
    }
  }

  /** The ids below n of the wanted rows, each once, the oldest event first. */
  predicate Picks(rows: seq<OutboxRow>, held: set<nat>, now: Time, n: nat, ids: seq<nat>)
    requires n <= |rows|
  {
    && InTable(rows, ids) && OldestFirst(rows, ids) && DistinctIds(ids)
    && (forall id :: 0 <= id < n && Wanted(rows, held, now, id) ==> id in ids)
    && (forall i :: 0 <= i < |ids| ==> ids[i] < n && Wanted(rows, held, now, ids[i]))
  }

  lemma PicksNext(rows: seq<OutboxRow>, held: set<nat>, now: Time, n: nat, ids: seq<nat>)
    requires n < |rows| && Picks(rows, held, now, n, ids)
    ensures Picks(rows, held, now, n + 1, if Wanted(rows, held, now, n) then InsertId(rows, ids, n) else ids)
  {
    hide Wanted;
    if Wanted(rows, held, now, n) {
      InsertOldestFirst(rows, ids, n);
      InsertDistinct(rows, ids, n);
      var r := InsertId(rows, ids, n);
      hide InsertId;
      forall i | 0 <= i < |r| ensures r[i] < n + 1 && Wanted(rows, held, now, r[i]) {
        assert r[i] in r;
      }
    }
  }

  lemma PicksNone(rows: seq<OutboxRow>, held: set<nat>, now: Time)
    ensures Picks(rows, held, now, 0, [])
  {
  }

  lemma {:induction false} PendingIs(rows: seq<OutboxRow>, held: set<nat>, now: Time, n: nat)
    requires n <= |rows|
    ensures Picks(rows, held, now, n, PendingIds(rows, held, now, n))
  {
    hide Picks, InsertId, Wanted, InTable;
    if n == 0 {
      PicksNone(rows, held, now);
    } else {
      PendingIs(rows, held, now, n - 1);
      PicksNext(rows, held, now, n - 1, PendingIds(rows, held, now, n - 1));
    }
  }

  /** FOR UPDATE SKIP LOCKED: the oldest wanted rows, up to the size of a batch. */
  function FindPending(rows: seq<OutboxRow>, held: set<nat>, now: Time): (ids: seq<nat>)
    ensures forall i :: 0 <= i < |ids| ==> ids[i] < |rows|
  {
    var ids := PendingIds(rows, held, now, |rows|);
    if |ids| <= DEFAULT_BATCH_SIZE then ids else ids[..DEFAULT_BATCH_SIZE]
  }

  /** Due, unpublished and locked by nobody else. */
  predicate Selectable(rows: seq<OutboxRow>, held: set<nat>, now: Time, id: nat) {
    id < |rows| && rows[id].publishedAt.None? && rows[id].nextAttemptAt <= now && id !in held
  }

  /** A batch takes the ten oldest selectable events, or all if they are fewer,
      each once and the oldest first. */
  lemma OldestTen(rows: seq<OutboxRow>, held: set<nat>, now: Time)
    ensures var ids := FindPending(rows, held, now);
            && |ids| <= 10
            && (forall i :: 0 <= i < |ids| ==> Selectable(rows, held, now, ids[i]))
            && (forall i, j :: 0 <= i < j < |ids| ==>
                  ids[i] != ids[j] && rows[ids[i]].occurredAt <= rows[ids[j]].occurredAt)
            && (|ids| < 10 ==> forall id: nat :: Selectable(rows, held, now, id) ==> id in ids)
            && (forall id: nat, i: nat :: Selectable(rows, held, now, id) && id !in ids && i < |ids| ==>
                  rows[ids[i]].occurredAt <= rows[id].occurredAt)
  {
    PendingIs(rows, held, now, |rows|);
    var all, ids := PendingIds(rows, held, now, |rows|), FindPending(rows, held, now);
    assert forall i :: 0 <= i < |ids| ==> ids[i] == all[i];
    forall id: nat | Selectable(rows, held, now, id) ensures id in all {
      assert Wanted(rows, held, now, id);
    }
    hide PendingIds, InTable, Wanted, Selectable;
    forall id: nat, i: nat | Selectable(rows, held, now, id) && id !in ids && i < |ids|
      ensures rows[ids[i]].occurredAt <= rows[id].occurredAt
    {
      LeftOut(all, ids, id);
    }
  }

  lemma LeftOut(all: seq<nat>, ids: seq<nat>, id: nat)
    requires ids <= all && id in all && id !in ids
    ensures exists k :: |ids| <= k < |all| && all[k] == id
  {
    var k :| 0 <= k < |all| && all[k] == id;
    assert forall i :: 0 <= i < |ids| ==> all[i] == ids[i];
  }

  /** Whatever batches are live, a publisher may claim exactly these. */
  lemma FindPendingClaimable(s: Broker, now: Time)
    ensures Claimable(s, FindPending(s.rows, Held(s.batches), now), now)
  {
    OldestTen(s.rows, Held(s.batches), now);
    hide FindPending, ClaimedBy, Held;
  }

  // ---- PublishBatch

  /** What the i-th call of Publish comes to; beyond the list, an error. */
  function Attempt(deliveries: seq<PublishOutcome>, i: nat): PublishOutcome {
    if i < |deliveries| then deliveries[i] else Undelivered
  }

  function Results(deliveries: seq<PublishOutcome>, n: nat): (r: seq<bool>)
    ensures |r| == n
    ensures forall i :: 0 <= i < n ==> r[i] == Attempt(deliveries, i).Delivered?
  {
    if n == 0 then [] else Results(deliveries, n - 1) + [Attempt(deliveries, n - 1).Delivered?]
  }

  function Sends(items: seq<Item>, deliveries: seq<PublishOutcome>, n: nat): seq<Sent>
    requires n <= |items|
  {
    if n == 0 then []
    else
      Sends(items, deliveries, n - 1)
      + (if Attempt(deliveries, n - 1).Undelivered? then []
         else [Sent(items[n - 1].id, items[n - 1].event, Attempt(deliveries, n - 1).Delivered?)])
  }

  function CountTrue(results: seq<bool>): nat {
    if results == [] then 0
    else CountTrue(results[..|results| - 1]) + (if results[|results| - 1] then 1 else 0)
  }

  lemma ScanOk(rows: seq<OutboxRow>, held: set<nat>, now: Time, results: seq<bool>)
    requires |results| <= |FindPending(rows, held, now)|
    ensures BatchOk(rows, Batch(Scan(rows, FindPending(rows, held, now)), results, now))
  {
    OldestTen(rows, held, now);
    hide FindPending;
  }

  lemma {:induction false} ConcludedPrefix(rows: seq<OutboxRow>, items: seq<Item>, a: seq<bool>, b: seq<bool>, now: Time, n: nat)
    requires n <= |a| && n <= |b| && n <= |items| && a[..n] == b[..n]
    ensures Concluded(rows, Batch(items, a, now), n) == Concluded(rows, Batch(items, b, now), n)
  {
    if n > 0 {
      assert a[..n][..n - 1] == a[..n - 1] && b[..n][..n - 1] == b[..n - 1];
      ConcludedPrefix(rows, items, a, b, now, n - 1);
      assert a[n - 1] == a[..n][n - 1] && b[n - 1] == b[..n][n - 1];
    }
  }

  function Selected(rows: seq<OutboxRow>, held: set<nat>, now: Time): seq<Item> {
    Scan(rows, FindPending(rows, held, now))
  }

  /** The selected rows with the results of as many calls of Publish. */
  function Tried(rows: seq<OutboxRow>, held: set<nat>, deliveries: seq<PublishOutcome>, now: Time): (batch: Batch)
    ensures |batch.acknowledged| == |batch.items|
  {
    var items := Selected(rows, held, now);
    Batch(items, Results(deliveries, |items|), now)
  }

  /** What the whole batch makes of the table. */
  function TableAfter(rows: seq<OutboxRow>, held: set<nat>, deliveries: seq<PublishOutcome>, now: Time): seq<OutboxRow> {
    var batch := Tried(rows, held, deliveries, now);
    Concluded(rows, batch, |batch.items|)
  }

  /** What the whole batch sends. */
  function SentBy(rows: seq<OutboxRow>, held: set<nat>, deliveries: seq<PublishOutcome>, now: Time): seq<Sent> {
    var items := Selected(rows, held, now);
    Sends(items, deliveries, |items|)
  }

  function AcknowledgedBy(rows: seq<OutboxRow>, held: set<nat>, deliveries: seq<PublishOutcome>, now: Time): nat {
    CountTrue(Tried(rows, held, deliveries, now).acknowledged)
  }

  /** After i events: the table, what was sent, and how many were acknowledged. */
  predicate Underway(rows: seq<OutboxRow>, held: set<nat>, deliveries: seq<PublishOutcome>, now: Time, i: nat,
                    table: seq<OutboxRow>, done: seq<Sent>, acked: nat)
  {
    var items := Selected(rows, held, now);
    && i <= |items|
    && table == Concluded(rows, Batch(items, Results(deliveries, i), now), i)
    && done == Sends(items, deliveries, i)
    && acked == CountTrue(Results(deliveries, i))
  }

  lemma NoneYet(rows: seq<OutboxRow>, held: set<nat>, deliveries: seq<PublishOutcome>, now: Time)
    ensures Underway(rows, held, deliveries, now, 0, rows, [], 0)
  {
    hide Selected;
  }

  lemma AllDone(rows: seq<OutboxRow>, held: set<nat>, deliveries: seq<PublishOutcome>, now: Time,
                table: seq<OutboxRow>, done: seq<Sent>, acked: nat)
    requires Underway(rows, held, deliveries, now, |Selected(rows, held, now)|, table, done, acked)
    ensures table == TableAfter(rows, held, deliveries, now) && done == SentBy(rows, held, deliveries, now)
    ensures acked == AcknowledgedBy(rows, held, deliveries, now)
  {
    hide Selected, Concluded, Sends, CountTrue, Results;
  }

  lemma CountMore(deliveries: seq<PublishOutcome>, i: nat)
    ensures CountTrue(Results(deliveries, i + 1))
         == CountTrue(Results(deliveries, i)) + (if Attempt(deliveries, i).Delivered? then 1 else 0)
  {
    assert Results(deliveries, i + 1)[..i] == Results(deliveries, i);
    hide Attempt;
  }

  /** One more result: the row is still as it was scanned, and only it changes. */
  lemma TableMore(rows: seq<OutboxRow>, items: seq<Item>, deliveries: seq<PublishOutcome>, now: Time, i: nat)
    requires i < |items| && BatchOk(rows, Batch(items, Results(deliveries, i), now))
    ensures var item, table := items[i], Concluded(rows, Batch(items, Results(deliveries, i), now), i);
            && item.id < |table|
            && table[item.id].publishedAt.None? && table[item.id].attempts == item.attempts
            && Concluded(rows, Batch(items, Results(deliveries, i + 1), now), i + 1)
               == table[item.id := Marked(table[item.id], item, Attempt(deliveries, i).Delivered?, now)]
  {
    ConcludedItem(rows, Batch(items, Results(deliveries, i), now), i, i);
    assert ItemOk(rows, items[i]);
    assert Results(deliveries, i + 1)[..i] == Results(deliveries, i);
    ConcludedPrefix(rows, items, Results(deliveries, i), Results(deliveries, i + 1), now, i);
    hide BatchOk, Marked, Attempt;
  }

  lemma OneMore(rows: seq<OutboxRow>, held: set<nat>, deliveries: seq<PublishOutcome>, now: Time, i: nat,
                table: seq<OutboxRow>, done: seq<Sent>, acked: nat)
    requires Underway(rows, held, deliveries, now, i, table, done, acked) && i < |Selected(rows, held, now)|
    ensures var item, delivery := Selected(rows, held, now)[i], Attempt(deliveries, i);
            && item.id < |table|
            && table[item.id].publishedAt.None? && table[item.id].attempts == item.attempts
            && Underway(rows, held, deliveries, now, i + 1,
                       table[item.id := Marked(table[item.id], item, delivery.Delivered?, now)],
                       if delivery.Undelivered? then done else done + [Sent(item.id, item.event, delivery.Delivered?)],
                       if delivery.Delivered? then acked + 1 else acked)
  {
    ScanOk(rows, held, now, Results(deliveries, i));
    assert BatchOk(rows, Batch(Selected(rows, held, now), Results(deliveries, i), now));
    hide Selected, BatchOk, Marked, Results, CountTrue, Concluded, Attempt;
    TableMore(rows, Selected(rows, held, now), deliveries, now, i);
    CountMore(deliveries, i);
  }

  // ---- What a batch reports and sends

  lemma {:induction false} CountIs(results: seq<bool>)
    ensures CountTrue(results) == |set i: nat | i < |results| && results[i]|
  {
    var all := set i: nat | i < |results| && results[i];
    if results != [] {
      var n := |results| - 1;
      var some := set i: nat | i < n && results[..n][i];
      CountIs(results[..n]);
      assert all == if results[n] then some + {n} else some;
    }
  }

  /** The calls of Publish among the first n whose message went out. */
  function WentOut(deliveries: seq<PublishOutcome>, n: nat): set<nat> {
    set i: nat | i < n && i < |deliveries| && !deliveries[i].Undelivered?
  }

  lemma WentOutNext(deliveries: seq<PublishOutcome>, n: nat)
    ensures WentOut(deliveries, n + 1)
         == WentOut(deliveries, n) + (if n < |deliveries| && !deliveries[n].Undelivered? then {n} else {})
    ensures |WentOut(deliveries, n + 1)|
         == |WentOut(deliveries, n)| + (if n < |deliveries| && !deliveries[n].Undelivered? then 1 else 0)
  {
  }

  lemma {:induction false} SendsInOrder(items: seq<Item>, deliveries: seq<PublishOutcome>, n: nat)
    requires n <= |items|
    ensures |Sends(items, deliveries, n)| == |WentOut(deliveries, n)|
    ensures forall i :: i in WentOut(deliveries, n) ==>
              && |WentOut(deliveries, i)| < |WentOut(deliveries, n)|
              && Sends(items, deliveries, n)[|WentOut(deliveries, i)|]
                 == Sent(items[i].id, items[i].event, deliveries[i].Delivered?)
  {
    if n > 0 {
      SendsInOrder(items, deliveries, n - 1);
      WentOutNext(deliveries, n - 1);
      hide WentOut;
    }
  }

  /** The i-th selected event is sent as the i-th call of Publish has it, the sends in
      the order of selection, and the batch reports how many were acknowledged. */
  lemma BatchSends(rows: seq<OutboxRow>, held: set<nat>, deliveries: seq<PublishOutcome>, now: Time)
    ensures var ids, sent := FindPending(rows, held, now), SentBy(rows, held, deliveries, now);
            && |sent| == |WentOut(deliveries, |ids|)|
            && (forall i :: i in WentOut(deliveries, |ids|) ==>
                  && |WentOut(deliveries, i)| < |sent|
                  && sent[|WentOut(deliveries, i)|] == Sent(ids[i], rows[ids[i]].event, deliveries[i].Delivered?))
            && AcknowledgedBy(rows, held, deliveries, now)
               == |set i: nat | i < |ids| && i < |deliveries| && deliveries[i].Delivered?|
  {
    var ids, batch := FindPending(rows, held, now), Tried(rows, held, deliveries, now);
    assert forall i :: i in WentOut(deliveries, |ids|) ==> i < |ids|;
    hide FindPending, Sends, CountTrue, WentOut;
    SendsInOrder(batch.items, deliveries, |ids|);
    CountIs(batch.acknowledged);
    assert (set i: nat | i < |batch.acknowledged| && batch.acknowledged[i])
        == (set i: nat | i < |ids| && i < |deliveries| && deliveries[i].Delivered?);
  }

  /** A selected row is published now exactly if its call was acknowledged, and no
      other row changes. */
  lemma BatchMarks(rows: seq<OutboxRow>, held: set<nat>, deliveries: seq<PublishOutcome>, now: Time, id: nat)
    requires id < |rows|
    ensures var ids, after := FindPending(rows, held, now), TableAfter(rows, held, deliveries, now);
            && |after| == |rows|
            && (id !in ids ==> after[id] == rows[id])
            && forall i :: 0 <= i < |ids| && ids[i] == id ==>
                 (after[id].publishedAt == Some(now) <==> i < |deliveries| && deliveries[i].Delivered?)
  {
    var ids, batch := FindPending(rows, held, now), Tried(rows, held, deliveries, now);
    ScanOk(rows, held, now, batch.acknowledged);
    hide FindPending, Results, BatchOk, Concluded;
    if id in ids {
      forall i | 0 <= i < |ids| && ids[i] == id
        ensures TableAfter(rows, held, deliveries, now)[id].publishedAt == Some(now) <==> i < |deliveries| && deliveries[i].Delivered?
      {
        SelectedAgain(rows, batch, i, now);
        ConcludedItem(rows, batch, |ids|, i);
      }
    } else {
      ConcludedAt(rows, batch, |ids|, id);
    }
  }

  // Both updates are guarded by published_at IS NULL and must find exactly one row.

  method MarkPublished(table: seq<OutboxRow>, item: Item, now: Time) returns (r: seq<OutboxRow>)
    requires item.id < |table| && table[item.id].publishedAt.None?
    ensures r == table[item.id := Marked(table[item.id], item, true, now)]
  {
    r := table[item.id := table[item.id].(publishedAt := Some(now))];
  }

  method ScheduleRetry(table: seq<OutboxRow>, item: Item, now: Time) returns (r: seq<OutboxRow>)
    requires item.id < |table| && table[item.id].publishedAt.None?
    ensures r == table[item.id := Marked(table[item.id], item, false, now)]
  {
    var delay := OutboxRetryDelay(item.attempts + 1);
    var row := table[item.id];
    r := table[item.id := row.(attempts := row.attempts + 1, nextAttemptAt := now + delay)];
  }

  class Publisher {
    var rows: seq<OutboxRow>
    var sent: seq<Sent>

    constructor (rows: seq<OutboxRow>)
      ensures this.rows == rows && sent == []
    {
      this.rows, sent := rows, [];
    }

    /** Publish what is due and not held by others. What each attempt came to, and whether the commit
        succeeds, is up to the broker and the database. */
    method PublishBatch(now: Time, held: set<nat>, deliveries: seq<PublishOutcome>, commits: bool) returns (published: nat, ok: bool)
      modifies this
      ensures sent == old(sent) + SentBy(old(rows), held, deliveries, now)
      ensures rows == if commits then TableAfter(old(rows), held, deliveries, now) else old(rows)
      ensures published == AcknowledgedBy(old(rows), held, deliveries, now) && ok == commits
    {
      var table := rows;  // the transaction's own view
      var events := Selected(table, held, now);
      var publishedEvents: seq<Item> := [];
      ghost var done: seq<Sent> := [];
      NoneYet(rows, held, deliveries, now);
      hide *;
      for i := 0 to |events|
        invariant rows == old(rows) && sent == old(sent) + done
        invariant Underway(rows, held, deliveries, now, i, table, done, |publishedEvents|)
      {
        var event := events[i];
        OneMore(rows, held, deliveries, now, i, table, done, |publishedEvents|);
        var delivery := Attempt(deliveries, i);
        if !delivery.Undelivered? {
          sent := sent + [Sent(event.id, event.event, delivery.Delivered?)];
          done := done + [Sent(event.id, event.event, delivery.Delivered?)];
        }
        if !delivery.Delivered? {
          table := ScheduleRetry(table, event, now);
        } else {
          table := MarkPublished(table, event, now);
          publishedEvents := publishedEvents + [event];
        }
      }
      AllDone(rows, held, deliveries, now, table, done, |publishedEvents|);
      if commits {
        rows := table;
      }
      published, ok := |publishedEvents|, commits;
    }
  }

  // ---- The method is a run of the machine

  function PublishFirst(s: Broker, b: nat, deliveries: seq<PublishOutcome>, now: Time, n: nat): Broker {
    if n == 0 then s
    else DoBroker(PublishFirst(s, b, deliveries, now, n - 1), PublisherAct.Publish(b, Attempt(deliveries, n - 1)), now)
  }

  lemma {:induction false} PublishFirstIs(s: Broker, b: nat, items: seq<Item>, deliveries: seq<PublishOutcome>, now: Time, n: nat)
    requires b in s.batches && s.batches[b] == Batch(items, [], now) && n <= |items|
    ensures PublishFirst(s, b, deliveries, now, n)
         == s.(batches := s.batches[b := Batch(items, Results(deliveries, n), now)],
               sent := s.sent + Sends(items, deliveries, n))
  {
    if n == 0 {
      assert s.batches[b := Batch(items, [], now)] == s.batches;
      assert s.sent + [] == s.sent;
    } else {
      PublishFirstIs(s, b, items, deliveries, now, n - 1);
    }
  }

  /** Claim, one Publish per event, then commit or rollback: beside whatever batches
      are live, PublishBatch does to the table and to the world outside what those
      steps of the machine do. */
  lemma PublishBatchIsRun(s: Broker, b: nat, deliveries: seq<PublishOutcome>, now: Time)
    requires b !in s.batches
    ensures var held := Held(s.batches);
            var ids := FindPending(s.rows, held, now);
            var before := PublishFirst(DoBroker(s, ClaimBatch(b, ids), now), b, deliveries, now, |ids|);
            && DoBroker(before, CommitBatch(b), now)
               == s.(rows := TableAfter(s.rows, held, deliveries, now), sent := s.sent + SentBy(s.rows, held, deliveries, now))
            && DoBroker(before, RollbackBatch(b), now)
               == s.(aborted := s.aborted + [Tried(s.rows, held, deliveries, now)],
                     sent := s.sent + SentBy(s.rows, held, deliveries, now))
  {
    FindPendingClaimable(s, now);
    var ids := FindPending(s.rows, Held(s.batches), now);
    var items := Scan(s.rows, ids);
    var batch := Batch(items, Results(deliveries, |items|), now);
    var claimed := DoBroker(s, ClaimBatch(b, ids), now);
    assert claimed == s.(batches := s.batches[b := Batch(items, [], now)]);
    hide Claimable, FindPending, Held, Scan, Results, Sends, Concluded;
    PublishFirstIs(claimed, b, items, deliveries, now, |items|);
    assert claimed.batches[b := batch] == s.batches[b := batch];
    assert s.batches[b := batch] - {b} == s.batches;
  }
}
