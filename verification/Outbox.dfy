/** internal/infrastructure/messaging/outbox/publisher.go: any number of publishers
    beside the running services. */
module Outbox {
  import opened Common
  import opened Tables
  import opened Decisions
  import opened Backoff
  import opened Protocol
  import opened Safety
  import opened Runs

  // ---- Rows, claimed batches and what has left the system

  /** One row of outbox_events; its position stands for its id. */
  datatype OutboxRow = OutboxRow(
    event: Event, occurredAt: Time, attempts: nat, nextAttemptAt: Time, publishedAt: Option<Time>)

  /** An event as findPending scanned it. */
  datatype Item = Item(id: nat, event: Event, attempts: nat)

  /** A transaction that has claimed these rows, with the result of Publish for the
      first few: acknowledged or an error. */
  datatype Batch = Batch(items: seq<Item>, acknowledged: seq<bool>, now: Time)

  /** Publish may fail although the message went out. */
  datatype PublishOutcome = Delivered | Unacknowledged | Undelivered

  datatype Sent = Sent(id: nat, event: Event, acknowledged: bool)

  /** Aborted batches are remembered only to be counted. */
  datatype Broker = Broker(rows: seq<OutboxRow>, batches: map<nat, Batch>, aborted: seq<Batch>, sent: seq<Sent>)

  const DEFAULT_BATCH_SIZE := 10

  predicate Eligible(row: OutboxRow, now: Time) {
    row.publishedAt.None? && row.nextAttemptAt <= now
  }

  predicate Claims(batch: Batch, id: nat) {
    exists i :: 0 <= i < |batch.items| && batch.items[i].id == id
  }

  predicate ClaimedBy(batches: map<nat, Batch>, id: nat) {
    exists b :: b in batches && Claims(batches[b], id)
  }

  /** The rows that live batches hold locked. */
  function Held(batches: map<nat, Batch>): (held: set<nat>)
    ensures forall id: nat :: id in held <==> ClaimedBy(batches, id)
  {
    set b, i | b in batches && 0 <= i < |batches[b].items| :: batches[b].items[i].id
  }

  function Scan(rows: seq<OutboxRow>, ids: seq<nat>): (items: seq<Item>)
    requires forall i :: 0 <= i < |ids| ==> ids[i] < |rows|
    ensures |items| == |ids|
    ensures forall i :: 0 <= i < |ids| ==> items[i] == Item(ids[i], rows[ids[i]].event, rows[ids[i]].attempts)
  {
    seq(|ids|, i requires 0 <= i < |ids| => Item(ids[i], rows[ids[i]].event, rows[ids[i]].attempts))
  }

  /** FOR UPDATE SKIP LOCKED: due, unpublished and held by nobody. */
  predicate Claimable(s: Broker, ids: seq<nat>, now: Time) {
    && |ids| <= DEFAULT_BATCH_SIZE
    && (forall i :: 0 <= i < |ids| ==> ids[i] < |s.rows| && Eligible(s.rows[ids[i]], now) && !ClaimedBy(s.batches, ids[i]))
    && (forall i, j :: 0 <= i < j < |ids| ==> ids[i] != ids[j])
  }

  /** What one result writes on its row. */
  function Marked(row: OutboxRow, item: Item, acknowledged: bool, now: Time): OutboxRow {
    if acknowledged then row.(publishedAt := Some(now))
    else row.(attempts := row.attempts + 1, nextAttemptAt := now + Delay(item.attempts + 1))
  }

  /** The table once the first n results are written. */
  function Concluded(rows: seq<OutboxRow>, batch: Batch, n: nat): (r: seq<OutboxRow>)
    requires n <= |batch.acknowledged| && n <= |batch.items|
    ensures |r| == |rows|
  {
    if n == 0 then rows
    else
      var r, item := Concluded(rows, batch, n - 1), batch.items[n - 1];
      if item.id >= |r| then r
      else r[item.id := Marked(r[item.id], item, batch.acknowledged[n - 1], batch.now)]
  }

  // ---- The machine

  datatype World = World(sys: Sys, broker: Broker)

  datatype PublisherAct =
    | Serve(action: Action)
    | ClaimBatch(b: nat, ids: seq<nat>)
    | Publish(b: nat, delivery: PublishOutcome)
    | CommitBatch(b: nat)
    | RollbackBatch(b: nat)

  function NewRows(outbox: seq<Event>, n: nat, now: Time): (rows: seq<OutboxRow>)
    ensures |rows| == if n <= |outbox| then |outbox| - n else 0
    ensures forall i :: 0 <= i < |rows| ==> rows[i] == OutboxRow(outbox[n + i], now, 0, now, None)
    decreases |outbox| - n
  {
    if n >= |outbox| then [] else [OutboxRow(outbox[n], now, 0, now, None)] + NewRows(outbox, n + 1, now)
  }

  function PublishOne(s: Broker, b: nat, delivery: PublishOutcome): Broker
    requires b in s.batches && |s.batches[b].acknowledged| < |s.batches[b].items|
  {
    var batch := s.batches[b];
    var item := batch.items[|batch.acknowledged|];
    s.(batches := s.batches[b := batch.(acknowledged := batch.acknowledged + [delivery.Delivered?])],
       sent := s.sent + (if delivery.Undelivered? then [] else [Sent(item.id, item.event, delivery.Delivered?)]))
  }

  /** Claims and results of one publisher; a transaction may roll back at any point. */
  function DoBroker(s: Broker, a: PublisherAct, now: Time): Broker {
    match a
    case Serve(_) => s
    case ClaimBatch(b, ids) =>
      if b in s.batches || !Claimable(s, ids, now) then s
      else s.(batches := s.batches[b := Batch(Scan(s.rows, ids), [], now)])
    case Publish(b, delivery) =>
      if b !in s.batches || |s.batches[b].acknowledged| >= |s.batches[b].items| then s
      else PublishOne(s, b, delivery)
    case CommitBatch(b) =>
      if b !in s.batches || |s.batches[b].acknowledged| != |s.batches[b].items| then s
      else s.(rows := Concluded(s.rows, s.batches[b], |s.batches[b].items|), batches := s.batches - {b})
    case RollbackBatch(b) =>
      if b !in s.batches then s
      else s.(batches := s.batches - {b}, aborted := s.aborted + [s.batches[b]])
  }

  function DoWorld(w: World, a: PublisherAct): World {
    if a.Serve? then
      var sys := Do(w.sys, a.action);
      World(sys, w.broker.(rows := w.broker.rows + NewRows(sys.db.outbox, |w.broker.rows|, sys.clock)))
    else w.(broker := DoBroker(w.broker, a, w.sys.clock))
  }

  const BEGINNING := World(START, Broker([], map[], [], []))

  function RunWorld(w: World, acts: seq<PublisherAct>): World
    decreases |acts|
  {
    if acts == [] then w else RunWorld(DoWorld(w, acts[0]), acts[1..])
  }

  // ---- Counting

  /** Acknowledged sends of one event. */
  function Acks(sent: seq<Sent>, id: nat): nat {
    if sent == [] then 0
    else
      var last := sent[|sent| - 1];
      Acks(sent[..|sent| - 1], id) + (if last.id == id && last.acknowledged then 1 else 0)
  }

  predicate AckedBy(batch: Batch, id: nat) {
    exists i :: 0 <= i < |batch.acknowledged| && i < |batch.items| && batch.items[i].id == id && batch.acknowledged[i]
  }

  /** How many of the batches had the event acknowledged. */
  function AckedIn(aborted: seq<Batch>, id: nat): nat {
    if aborted == [] then 0
    else AckedIn(aborted[..|aborted| - 1], id) + (if AckedBy(aborted[|aborted| - 1], id) then 1 else 0)
  }

  predicate LiveAck(batches: map<nat, Batch>, id: nat) {
    exists b :: b in batches && AckedBy(batches[b], id)
  }

  predicate Published(rows: seq<OutboxRow>, id: nat) {
    id < |rows| && rows[id].publishedAt.Some?
  }

  predicate Counted(s: Broker, id: nat) {
    Acks(s.sent, id)
    == (if Published(s.rows, id) then 1 else 0) + (if LiveAck(s.batches, id) then 1 else 0) + AckedIn(s.aborted, id)
  }

  // ---- The invariant

  predicate ItemOk(rows: seq<OutboxRow>, item: Item) {
    && item.id < |rows|
    && rows[item.id].publishedAt.None?
    && rows[item.id].event == item.event && rows[item.id].attempts == item.attempts
  }

  predicate BatchOk(rows: seq<OutboxRow>, batch: Batch) {
    && |batch.acknowledged| <= |batch.items| <= DEFAULT_BATCH_SIZE
    && (forall i :: 0 <= i < |batch.items| ==> ItemOk(rows, batch.items[i]))
    && (forall i, j :: 0 <= i < j < |batch.items| ==> batch.items[i].id != batch.items[j].id)
  }

  ghost predicate BatchesOk(s: Broker) {
    && (forall b :: b in s.batches ==> BatchOk(s.rows, s.batches[b]))
    && (forall b, c, id :: b in s.batches && c in s.batches && Claims(s.batches[b], id) && Claims(s.batches[c], id) ==> b == c)
  }

  ghost predicate BrokerOk(s: Broker) {
    && BatchesOk(s)
    && (forall id: nat :: Counted(s, id))
    && (forall i :: 0 <= i < |s.sent| ==>
          s.sent[i].id < |s.rows| && s.sent[i].event == s.rows[s.sent[i].id].event)
  }

  /** The rows hold the committed events. */
  predicate Mirrors(outbox: seq<Event>, rows: seq<OutboxRow>) {
    |outbox| == |rows| && forall i :: 0 <= i < |rows| ==> rows[i].event == outbox[i]
  }

  ghost predicate WorldOk(w: World) {
    Inv(w.sys) && BrokerOk(w.broker) && Mirrors(w.sys.db.outbox, w.broker.rows)
  }

  // ---- Steps

  lemma AckedClaims(batch: Batch, id: nat)
    requires AckedBy(batch, id)
    ensures Claims(batch, id)
  {
  }

  lemma ClaimOk(s: Broker, b: nat, ids: seq<nat>, now: Time)
    requires BrokerOk(s)
    ensures BrokerOk(DoBroker(s, ClaimBatch(b, ids), now))
    ensures DoBroker(s, ClaimBatch(b, ids), now).rows == s.rows
  {
    var s' := DoBroker(s, ClaimBatch(b, ids), now);
    if s' != s {
      var batch := s'.batches[b];
      forall id | Claims(batch, id) ensures !ClaimedBy(s.batches, id) {
      }
      forall id: nat ensures LiveAck(s'.batches, id) <==> LiveAck(s.batches, id) {
        if LiveAck(s.batches, id) {
          var c :| c in s.batches && AckedBy(s.batches[c], id);
          assert s'.batches[c] == s.batches[c];
        }
        assert !AckedBy(batch, id);
      }
      forall id: nat ensures Counted(s', id) {
        assert Counted(s, id);
      }
      forall c, d, id | c in s'.batches && d in s'.batches && Claims(s'.batches[c], id) && Claims(s'.batches[d], id)
        ensures c == d
      {
        if c != b { assert s'.batches[c] == s.batches[c]; }
        if d != b { assert s'.batches[d] == s.batches[d]; }
      }
    }
  }

  lemma OthersNotAcked(s: Broker, b: nat, id: nat)
    requires BatchesOk(s) && b in s.batches && Claims(s.batches[b], id)
    ensures LiveAck(s.batches, id) <==> AckedBy(s.batches[b], id)
    ensures !Published(s.rows, id)
  {
    if LiveAck(s.batches, id) {
      var c :| c in s.batches && AckedBy(s.batches[c], id);
      AckedClaims(s.batches[c], id);
    }
    assert BatchOk(s.rows, s.batches[b]);
  }

  lemma MoreAcked(batch: Batch, result: bool, id: nat)
    requires |batch.acknowledged| < |batch.items|
    ensures AckedBy(batch.(acknowledged := batch.acknowledged + [result]), id)
        <==> AckedBy(batch, id) || (batch.items[|batch.acknowledged|].id == id && result)
  {
    var n, more := |batch.acknowledged|, batch.(acknowledged := batch.acknowledged + [result]);
    if AckedBy(batch, id) {
      var i :| 0 <= i < n && i < |batch.items| && batch.items[i].id == id && batch.acknowledged[i];
      assert more.acknowledged[i];
    }
    if batch.items[n].id == id && result { assert more.acknowledged[n]; }
  }

  lemma LiveUpdated(batches: map<nat, Batch>, b: nat, batch: Batch, id: nat)
    requires b in batches && (AckedBy(batches[b], id) ==> AckedBy(batch, id))
    ensures LiveAck(batches[b := batch], id) <==> LiveAck(batches, id) || AckedBy(batch, id)
  {
    hide AckedBy;
    var after := batches[b := batch];
    if LiveAck(batches, id) {
      var c :| c in batches && AckedBy(batches[c], id);
      assert c in after && AckedBy(after[c], id);
    }
    if AckedBy(batch, id) { assert after[b] == batch; }
  }

  lemma NotYetAcked(rows: seq<OutboxRow>, batch: Batch)
    requires BatchOk(rows, batch) && |batch.acknowledged| < |batch.items|
    ensures !AckedBy(batch, batch.items[|batch.acknowledged|].id) && Claims(batch, batch.items[|batch.acknowledged|].id)
  {
  }

  lemma AcksSent(sent: seq<Sent>, more: seq<Sent>, id: nat)
    requires |more| <= 1
    ensures Acks(sent + more, id) == Acks(sent, id) + (if more != [] && more[0].id == id && more[0].acknowledged then 1 else 0)
  {
    assert more == [] ==> sent + more == sent;
    assert more != [] ==> (sent + more)[..|sent|] == sent;
  }

  lemma PublishCounted(s: Broker, b: nat, delivery: PublishOutcome, id: nat)
    requires BatchesOk(s) && b in s.batches && |s.batches[b].acknowledged| < |s.batches[b].items| && Counted(s, id)
    ensures Counted(PublishOne(s, b, delivery), id)
  {
    var batch := s.batches[b];
    var n := |batch.acknowledged|;
    assert BatchOk(s.rows, batch);
    MoreAcked(batch, delivery.Delivered?, id);
    NotYetAcked(s.rows, batch);
    hide AckedBy, BatchOk, Claims, LiveAck, Acks;
    LiveUpdated(s.batches, b, batch.(acknowledged := batch.acknowledged + [delivery.Delivered?]), id);
    AcksSent(s.sent, if delivery.Undelivered? then [] else [Sent(batch.items[n].id, batch.items[n].event, delivery.Delivered?)], id);
    if batch.items[n].id == id {
      OthersNotAcked(s, b, id);
    }
    hide BatchesOk;
  }

  lemma PublishOk(s: Broker, b: nat, delivery: PublishOutcome)
    requires BrokerOk(s) && b in s.batches && |s.batches[b].acknowledged| < |s.batches[b].items|
    ensures BrokerOk(PublishOne(s, b, delivery))
  {
    var s', batch := PublishOne(s, b, delivery), s.batches[b];
    assert BatchOk(s.rows, batch) && ItemOk(s.rows, batch.items[|batch.acknowledged|]);
    assert forall id :: Claims(s'.batches[b], id) <==> Claims(batch, id);
    forall id: nat ensures Counted(s', id) {
      assert Counted(s, id);
      PublishCounted(s, b, delivery, id);
    }
  }

  lemma {:induction false} ConcludedAt(rows: seq<OutboxRow>, batch: Batch, n: nat, id: nat)
    requires BatchOk(rows, batch) && n <= |batch.acknowledged| && id < |rows|
    ensures var r := Concluded(rows, batch, n);
            && r[id].event == rows[id].event
            && (r[id].publishedAt.Some? <==> rows[id].publishedAt.Some? || AckedBy(batch.(acknowledged := batch.acknowledged[..n]), id))
            && (!Claims(batch, id) ==> r[id] == rows[id])
  {
    if n > 0 {
      ConcludedAt(rows, batch, n - 1, id);
      var now, was := batch.(acknowledged := batch.acknowledged[..n]), batch.(acknowledged := batch.acknowledged[..n - 1]);
      assert ItemOk(rows, batch.items[n - 1]);
      assert AckedBy(now, id) <==> AckedBy(was, id) || (batch.items[n - 1].id == id && batch.acknowledged[n - 1]) by {
        if AckedBy(was, id) {
          var i :| 0 <= i < n - 1 && batch.items[i].id == id && was.acknowledged[i];
          assert now.acknowledged[i];
        }
        if batch.items[n - 1].id == id && batch.acknowledged[n - 1] { assert now.acknowledged[n - 1]; }
      }
    }
  }

  /** The results of the other items leave an item's row alone. */
  lemma {:induction false} ConcludedItem(rows: seq<OutboxRow>, batch: Batch, n: nat, k: nat)
    requires BatchOk(rows, batch) && n <= |batch.acknowledged| && k < |batch.items|
    ensures var item := batch.items[k];
            Concluded(rows, batch, n)[item.id]
            == if k < n then Marked(rows[item.id], item, batch.acknowledged[k], batch.now) else rows[item.id]
  {
    assert ItemOk(rows, batch.items[k]);
    if n > 0 {
      ConcludedItem(rows, batch, n - 1, k);
      assert ItemOk(rows, batch.items[n - 1]);
    }
  }

  /** Once its result is written a row is published exactly if it was acknowledged,
      and then never selected again; otherwise it is selected again after the
      back-off, five seconds to a minute, and no earlier. */
  lemma SelectedAgain(rows: seq<OutboxRow>, batch: Batch, k: nat, later: Time)
    requires BatchOk(rows, batch) && k < |batch.items| == |batch.acknowledged|
    ensures var id := batch.items[k].id;
            var before, after := rows[id], Concluded(rows, batch, |batch.items|)[id];
            var due := batch.now + Delay(before.attempts + 1);
            && after.event == before.event
            && (after.publishedAt.Some? <==> batch.acknowledged[k])
            && after.attempts == before.attempts + (if batch.acknowledged[k] then 0 else 1)
            && (Eligible(after, later) <==> !batch.acknowledged[k] && later >= due)
            && batch.now + 5 * SECOND <= due <= batch.now + 60 * SECOND
  {
    assert ItemOk(rows, batch.items[k]);
    ConcludedItem(rows, batch, |batch.items|, k);
    Pow2Monotone(1, rows[batch.items[k].id].attempts + 1);
    hide Concluded, BatchOk;
  }

  lemma Removed(batches: map<nat, Batch>, b: nat, id: nat)
    requires b in batches
    ensures LiveAck(batches, id) <==> AckedBy(batches[b], id) || LiveAck(batches - {b}, id)
  {
    if LiveAck(batches, id) {
      var c :| c in batches && AckedBy(batches[c], id);
      assert c != b ==> c in batches - {b};
    }
  }

  lemma NotTwice(s: Broker, b: nat, id: nat)
    requires BatchesOk(s) && b in s.batches && AckedBy(s.batches[b], id)
    ensures !LiveAck(s.batches - {b}, id)
  {
    AckedClaims(s.batches[b], id);
    if LiveAck(s.batches - {b}, id) {
      var c :| c in s.batches - {b} && AckedBy((s.batches - {b})[c], id);
      AckedClaims(s.batches[c], id);
    }
  }

  lemma CommitCounted(s: Broker, b: nat, now: Time, id: nat)
    requires BatchesOk(s) && b in s.batches && |s.batches[b].acknowledged| == |s.batches[b].items| && Counted(s, id)
    ensures Counted(DoBroker(s, CommitBatch(b), now), id)
  {
    var batch := s.batches[b];
    assert batch.acknowledged[..|batch.items|] == batch.acknowledged;
    Removed(s.batches, b, id);
    if AckedBy(batch, id) {
      NotTwice(s, b, id);
      AckedClaims(batch, id);
      OthersNotAcked(s, b, id);
      assert BatchOk(s.rows, batch);
    }
    if id < |s.rows| {
      ConcludedAt(s.rows, batch, |batch.items|, id);
    }
  }

  lemma CommitOk(s: Broker, b: nat, now: Time)
    requires BrokerOk(s) && b in s.batches && |s.batches[b].acknowledged| == |s.batches[b].items|
    ensures BrokerOk(DoBroker(s, CommitBatch(b), now))
    ensures forall id :: 0 <= id < |s.rows| ==> DoBroker(s, CommitBatch(b), now).rows[id].event == s.rows[id].event
  {
    var s', batch := DoBroker(s, CommitBatch(b), now), s.batches[b];
    forall id | 0 <= id < |s.rows|
      ensures s'.rows[id].event == s.rows[id].event && (!Claims(batch, id) ==> s'.rows[id] == s.rows[id])
    {
      ConcludedAt(s.rows, batch, |batch.items|, id);
    }
    forall id: nat ensures Counted(s', id) {
      assert Counted(s, id);
      CommitCounted(s, b, now, id);
    }
    forall c | c in s'.batches ensures BatchOk(s'.rows, s'.batches[c]) {
      assert BatchOk(s.rows, s.batches[c]);
      forall i | 0 <= i < |s.batches[c].items| ensures ItemOk(s'.rows, s.batches[c].items[i]) {
        assert ItemOk(s.rows, s.batches[c].items[i]);
        assert Claims(s.batches[c], s.batches[c].items[i].id);
      }
    }
  }

  lemma RollbackOk(s: Broker, b: nat, now: Time)
    requires BrokerOk(s) && b in s.batches
    ensures BrokerOk(DoBroker(s, RollbackBatch(b), now))
  {
    var s' := DoBroker(s, RollbackBatch(b), now);
    assert s'.aborted[..|s.aborted|] == s.aborted;
    forall id: nat ensures Counted(s', id) {
      assert Counted(s, id);
      Removed(s.batches, b, id);
      if AckedBy(s.batches[b], id) { NotTwice(s, b, id); }
    }
  }

  lemma BrokerStepOk(s: Broker, a: PublisherAct, now: Time)
    requires BrokerOk(s)
    ensures BrokerOk(DoBroker(s, a, now))
    ensures |DoBroker(s, a, now).rows| == |s.rows|
    ensures forall id :: 0 <= id < |s.rows| ==> DoBroker(s, a, now).rows[id].event == s.rows[id].event
  {
    hide BrokerOk;
    match a
    case Serve(_) =>
    case ClaimBatch(b, ids) => ClaimOk(s, b, ids, now);
    case Publish(b, delivery) =>
      if b in s.batches && |s.batches[b].acknowledged| < |s.batches[b].items| { PublishOk(s, b, delivery); }
    case CommitBatch(b) =>
      if b in s.batches && |s.batches[b].acknowledged| == |s.batches[b].items| { CommitOk(s, b, now); }
    case RollbackBatch(b) =>
      if b in s.batches { RollbackOk(s, b, now); }
  }

  lemma RowsAppended(s: Broker, more: seq<OutboxRow>)
    requires BrokerOk(s) && forall i :: 0 <= i < |more| ==> more[i].publishedAt.None?
    ensures BrokerOk(s.(rows := s.rows + more))
  {
    var s' := s.(rows := s.rows + more);
    forall id: nat ensures Counted(s', id) {
      assert Counted(s, id);
    }
    forall b | b in s.batches ensures BatchOk(s'.rows, s.batches[b]) {
      assert BatchOk(s.rows, s.batches[b]);
      forall i | 0 <= i < |s.batches[b].items| ensures ItemOk(s'.rows, s.batches[b].items[i]) {
        assert ItemOk(s.rows, s.batches[b].items[i]);
      }
    }
  }

  lemma RowsMirror(outbox: seq<Event>, rows: seq<OutboxRow>, outbox': seq<Event>, now: Time)
    requires Mirrors(outbox, rows) && outbox <= outbox'
    ensures Mirrors(outbox', rows + NewRows(outbox', |rows|, now))
  {
  }

  /** An action of the services brings the rows of the events it committed. */
  lemma ServeOk(w: World, action: Action)
    requires WorldOk(w)
    ensures WorldOk(DoWorld(w, Serve(action)))
  {
    var sys := Do(w.sys, action);
    hide Inv, Do, BrokerOk, Mirrors;
    DoInv(w.sys, action);
    OutboxGrows(w.sys, action);
    RowsMirror(w.sys.db.outbox, w.broker.rows, sys.db.outbox, sys.clock);
    RowsAppended(w.broker, NewRows(sys.db.outbox, |w.broker.rows|, sys.clock));
  }

  /** A committed event is there to be published from the instant of its commit on. */
  lemma EligibleOnceCommitted(w: World, action: Action, j: nat, now: Time)
    requires WorldOk(w) && |w.broker.rows| <= j < |Do(w.sys, action).db.outbox|
    ensures var w' := DoWorld(w, Serve(action));
            && j < |w'.broker.rows| && w'.broker.rows[j].event == w'.sys.db.outbox[j]
            && w'.broker.rows[j].attempts == 0 && w'.broker.rows[j].occurredAt == w'.sys.clock
            && (Eligible(w'.broker.rows[j], now) <==> now >= w'.sys.clock)
  {
    hide Inv, Do, BrokerOk;
  }

  lemma OutboxGrows(s: Sys, action: Action)
    requires Inv(s)
    ensures s.db.outbox <= Do(s, action).db.outbox
  {
    hide Inv, Do;
    DoGrows(s, action);
  }

  /** An act of a publisher keeps every event where it is. */
  lemma PublisherOk(w: World, a: PublisherAct)
    requires WorldOk(w) && !a.Serve?
    ensures WorldOk(DoWorld(w, a))
  {
    hide Inv, BrokerOk, DoBroker;
    BrokerStepOk(w.broker, a, w.sys.clock);
  }

  lemma DoWorldOk(w: World, a: PublisherAct)
    requires WorldOk(w)
    ensures WorldOk(DoWorld(w, a))
  {
    hide *;
    if a.Serve? {
      ServeOk(w, a.action);
    } else {
      PublisherOk(w, a);
    }
  }

  lemma {:induction false} RunWorldOk(w: World, acts: seq<PublisherAct>)
    requires WorldOk(w)
    ensures WorldOk(RunWorld(w, acts))
    decreases |acts|
  {
    hide WorldOk, DoWorld;
    if acts != [] {
      DoWorldOk(w, acts[0]);
      RunWorldOk(DoWorld(w, acts[0]), acts[1..]);
    }
  }

  lemma BeginningOk()
    ensures WorldOk(BEGINNING)
  {
    StartInv();
    forall id: nat ensures Counted(BEGINNING.broker, id) {
    }
  }

  // ---- In every run

  /** Whatever leaves the system is a committed event under its own id. */
  lemma OnlyCommittedEvents(acts: seq<PublisherAct>, i: nat)
    requires i < |RunWorld(BEGINNING, acts).broker.sent|
    ensures var w := RunWorld(BEGINNING, acts);
            var sent := w.broker.sent[i];
            sent.id < |w.sys.db.outbox| && sent.event == w.sys.db.outbox[sent.id]
  {
    BeginningOk();
    RunWorldOk(BEGINNING, acts);
  }

  /** No two live batches hold one event, and none holds a published one. */
  lemma HeldOnce(acts: seq<PublisherAct>, b: nat, c: nat, id: nat)
    requires var s := RunWorld(BEGINNING, acts).broker;
             b in s.batches && c in s.batches && Claims(s.batches[b], id) && Claims(s.batches[c], id)
    ensures b == c && !Published(RunWorld(BEGINNING, acts).broker.rows, id)
  {
    BeginningOk();
    RunWorldOk(BEGINNING, acts);
    OthersNotAcked(RunWorld(BEGINNING, acts).broker, b, id);
  }

  /** Every acknowledged send of an event is the one its row records, or belongs to
      the batch that holds it now, or to one that rolled back. So a published event
      has been sent, and duplicates come from rolled-back batches only. */
  lemma SendsAccounted(acts: seq<PublisherAct>, id: nat)
    ensures var s := RunWorld(BEGINNING, acts).broker;
            && Acks(s.sent, id)
               == (if Published(s.rows, id) then 1 else 0) + (if LiveAck(s.batches, id) then 1 else 0) + AckedIn(s.aborted, id)
            && (Published(s.rows, id) ==> Acks(s.sent, id) >= 1)
            && Acks(s.sent, id) <= 1 + AckedIn(s.aborted, id)
  {
    BeginningOk();
    RunWorldOk(BEGINNING, acts);
    var s := RunWorld(BEGINNING, acts).broker;
    assert Counted(s, id);
    forall b | b in s.batches && AckedBy(s.batches[b], id) ensures !Published(s.rows, id) {
      AckedClaims(s.batches[b], id);
      OthersNotAcked(s, b, id);
    }
  }
}
