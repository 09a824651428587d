/** A delivery that nobody disturbs is processed, and its message deleted if and only if
    the processing was recorded. */
module Handling {
  import opened Common
  import opened Wagers
  import opened Tables
  import opened Decisions
  import opened Protocol
  import opened Safety
  import opened Alone
  import opened Whole
  import opened Delivery

  /** The consumer works on, hearing of its commit. */
  function Works(s: Station, c: nat, entryId: int, n: nat): Station
    decreases n
  {
    if n == 0 then s else Works(DoStation(s, Work(c, entryId, true)), c, entryId, n - 1)
  }

  lemma WorkStep(s: Station, c: nat, t: nat, entryId: int)
    requires c in s.consumers && s.consumers[c].phase == Processing(t)
    ensures var sys := Do(s.sys, Advance(t, entryId));
            DoStation(s, Work(c, entryId, true))
            == s.(sys := sys,
                  consumers := if t in sys.txns then s.consumers
                               else if Finishes(s.sys, t) then s.consumers[c := s.consumers[c].(phase := Confirmed)]
                               else s.consumers - {c})
  {
    var a := Advance(t, entryId);
    assert Projected(s, Work(c, entryId, true)) == [a];
    assert Run(s.sys, [a]) == Do(s.sys, a) by {
      assert [a][1..] == [];
      hide Do;
    }
    hide Do, Run, Finishes;
  }

  lemma {:induction false} Idles(s: Station, c: nat, entryId: int, n: nat)
    requires c in s.consumers ==> !s.consumers[c].phase.Processing?
    ensures Works(s, c, entryId, n) == s
    decreases n
  {
    if n > 0 {
      assert Projected(s, Work(c, entryId, true)) == [];
      assert DoStation(s, Work(c, entryId, true)) == s by { hide Finishes; }
      Idles(s, c, entryId, n - 1);
    }
  }

  /** A statement that does not finish its transaction leaves the inbox alone, and
      registration is passed only by a message that is not complete. */
  lemma StatementKeeps(s: Sys, t: nat, message: Message, entryId: int)
    requires t in s.txns && s.txns[t].program.Submit? && s.txns[t].program.message == Some(message)
    requires Completed(s.inbox, message) ==> s.txns[t].stage.Registering?
    ensures var s' := Do(s, Advance(t, entryId));
            && (t in s'.txns ==>
                  && s'.inbox == s.inbox && s'.txns[t].program == s.txns[t].program
                  && (Completed(s'.inbox, message) ==> s'.txns[t].stage.Registering?))
            && (t !in s'.txns && !Finishes(s, t) ==> s'.inbox == s.inbox && !Completed(s'.inbox, message))
  {
    hide Blocked, FindReplay, LockWallet, Precheck, CheckOwner, FindByExternal, FindByKey, ReadReference, Move, Finish, NeedsReference,
         SyncWrites, Apply;
  }

  /** What becomes of the consumer: once its transaction has ended, it is to delete its
      message exactly if the message is complete, and else it has let go of it. */
  predicate Handles(s: Station, c: nat, t: nat, entryId: int, s': Station, sys: Sys) {
    && c in s.consumers && s.consumers[c].handle in s.parcels
    && s'.parcels == s.parcels && s'.queue == s.queue && s'.deleted == s.deleted && s'.sys == sys
    && (t !in sys.txns ==>
          if Completed(sys.inbox, ParcelOf(s, c).message) then s'.consumers == s.consumers[c := s.consumers[c].(phase := Confirmed)]
          else s'.consumers == s.consumers - {c})
  }

  lemma {:induction false} WorksThrough(s: Station, c: nat, t: nat, entryId: int, n: nat)
    requires StationOk(s) && c in s.consumers && s.consumers[c].phase == Processing(t)
    requires t in s.sys.txns && s.consumers[c].handle in s.parcels
    requires s.sys.txns[t].program.Submit? && s.sys.txns[t].program.message == Some(ParcelOf(s, c).message)
    requires Completed(s.sys.inbox, ParcelOf(s, c).message) ==> s.sys.txns[t].stage.Registering?
    ensures Handles(s, c, t, entryId, Works(s, c, entryId, n), Advanced(s.sys, t, entryId, n))
    decreases n
  {
    hide StationOk, Inv, Do, Finishes, Completed, DoStation;
    if n > 0 {
      var s1 := DoStation(s, Work(c, entryId, true));
      WorkStep(s, c, t, entryId);
      StatementKeeps(s.sys, t, ParcelOf(s, c).message, entryId);
      DoStationOk(s, Work(c, entryId, true));
      if t in s1.sys.txns {
        WorksThrough(s1, c, t, entryId, n - 1);
      } else {
        if Finishes(s.sys, t) { FinishedHere(s, c, t, entryId); }
        Idles(s1, c, entryId, n - 1);
        Finished(s1.sys, t, entryId, n - 1);
      }
    }
  }

  lemma FinishedHere(s: Station, c: nat, t: nat, entryId: int)
    requires StationOk(s) && c in s.consumers && s.consumers[c].phase == Processing(t) && Finishes(s.sys, t)
    requires s.consumers[c].handle in s.parcels && s.sys.txns[t].program.message == Some(ParcelOf(s, c).message)
    ensures Completed(Do(s.sys, Advance(t, entryId)).inbox, ParcelOf(s, c).message)
  {
    assert ConsumerOk(s, c);
    hide Inv, Finishes, Recorded, Completed, Do, Decodes, OthersPlain, InboxFrom, DeletedOk, Separate;
    FinishedCompletes(s.sys, t, entryId);
  }

  /** One delivery from the queue to its deletion. */
  function Deliver(s: Station, c: nat, h: nat, t: nat, entryId: int): Station {
    DoStation(Works(DoStation(DoStation(s, Receive(c, h)), Start(c, t)), c, entryId, 11), Delete(c, true))
  }

  /** Beside others that hold nothing it needs, a delivered message is processed as
      SubmissionIsProcess says, and deleted if and only if the inbox then has it
      complete; else it stays in the queue. */
  lemma DeletedExactlyWhenComplete(s: Station, c: nat, h: nat, t: nat, entryId: int)
    requires StationOk(s) && c !in s.consumers && h in s.queue && h in s.parcels && h !in s.deleted
    requires s.parcels[h].cmd.Some? && TransportValid(s.parcels[h].cmd.value)
    requires Undisturbed(s.sys, t, s.parcels[h].cmd.value, Some(s.parcels[h].message))
    ensures var s', message := Deliver(s, c, h, t, entryId), s.parcels[h].message;
            && s'.sys == Run(s.sys, Sending(t, s.parcels[h].cmd.value, Some(message), entryId))
            && c !in s'.consumers
            && (h in s'.deleted <==> Completed(s'.sys.inbox, message))
            && (h in s'.queue <==> !Completed(s'.sys.inbox, message))
  {
    var message, cmd := s.parcels[h].message, s.parcels[h].cmd.value;
    var a := DoStation(s, Receive(c, h));
    var b := DoStation(a, Start(c, t));
    OutOfTxns(s.sys, t, cmd, Some(message));
    DoStationOk(s, Receive(c, h));
    DoStationOk(a, Start(c, t));
    Started(s, c, h, t);
    hide StationOk, DoStation, Run, Do, Works, Advanced, Advances, TransportValid, Undisturbed, Completed;
    WorksThrough(b, c, t, entryId, 11);
    SubmissionEnds(s.sys, t, cmd, Some(message), entryId);
    SendingRun(s.sys, t, cmd, Some(message), entryId);
    Deletes(Works(b, c, entryId, 11), c);
  }

  lemma Started(s: Station, c: nat, h: nat, t: nat)
    requires c !in s.consumers && h in s.queue && h in s.parcels && t !in s.sys.txns
    requires s.parcels[h].cmd.Some? && TransportValid(s.parcels[h].cmd.value)
    ensures var begin := Begin(t, s.parcels[h].cmd.value, Some(s.parcels[h].message));
            var b := DoStation(DoStation(s, Receive(c, h)), Start(c, t));
            && b == s.(sys := Do(s.sys, begin), consumers := s.consumers[c := Consumer(h, Processing(t))])
            && Do(s.sys, begin) == s.sys.(txns := s.sys.txns[t := Txn(Submit(s.parcels[h].cmd.value, Some(s.parcels[h].message)), Registering, None)])
  {
    var a := DoStation(s, Receive(c, h));
    var begin := Begin(t, s.parcels[h].cmd.value, Some(s.parcels[h].message));
    assert a == s.(consumers := s.consumers[c := Consumer(h, Received)]);
    assert Projected(a, Start(c, t)) == [begin];
    assert Run(s.sys, [begin]) == Do(s.sys, begin) by { assert [begin][1..] == []; hide Do; }
    assert a.consumers[c := Consumer(h, Processing(t))] == s.consumers[c := Consumer(h, Processing(t))];
    hide TransportValid;
  }

  lemma SubmissionEnds(s: Sys, t: nat, cmd: Command, message: Option<Message>, entryId: int)
    requires Undisturbed(s, t, cmd, message) && TransportValid(cmd)
    ensures t !in Run(s, Sending(t, cmd, message, entryId)).txns
  {
    OutOfTxns(s, t, cmd, message);
    hide Run, Undisturbed, TransportValid, Process, TurnedAway, Sending;
    SubmissionIsProcess(s, t, cmd, message, entryId);
  }

  lemma SendingRun(s: Sys, t: nat, cmd: Command, message: Option<Message>, entryId: int)
    ensures Run(s, Sending(t, cmd, message, entryId)) == Advanced(Do(s, Begin(t, cmd, message)), t, entryId, 11)
  {
    assert Sending(t, cmd, message, entryId)[1..] == Advances(t, entryId, 11);
    hide Do, Advances, Advanced;
    AdvancesRun(Do(s, Begin(t, cmd, message)), t, entryId, 11);
  }

  lemma Deletes(s: Station, c: nat)
    ensures var s' := DoStation(s, Delete(c, true));
            && s'.sys == s.sys && s'.parcels == s.parcels
            && if c in s.consumers && s.consumers[c].phase.Confirmed? then
                 && s'.consumers == s.consumers - {c}
                 && s'.queue == s.queue - {s.consumers[c].handle} && s'.deleted == s.deleted + {s.consumers[c].handle}
               else s' == s
  {
  }
}
