/**
 Restoring a backup (`RestoreHistory`): a whole log, replayed one event at a
 time in (lamport, origin, sequence) order into an empty database, is never
 refused and rebuilds every projection; permission to run anything is not part
 of what is rebuilt.
 */
module Restore {
  import opened Records
  import opened Ordering
  import opened Admission
  import opened LogInvariant
  import opened Convergence
  import opened World
  import opened Exchange
  import opened System
  import opened SystemInvariant
  import opened SystemSteps
  import opened RunTheorems

  lemma ReplayHoldsAll(w: World, backup: Log, events: seq<Event>)
    requires Cut(w, backup) && RestoreOrder(backup, events) && InsertAll(EmptyLog(w.fleet), events).Ok?
    requires Valid(InsertAll(EmptyLog(w.fleet), events).value)
    ensures SameEvents(backup, InsertAll(EmptyLog(w.fleet), events).value)
  {
    hide Valid, InsertAll, Covers, Ordered, NoSkips;
    EmptyValid(w.fleet);
    InsertAllKeepsValid(EmptyLog(w.fleet), events);
    var log := InsertAll(EmptyLog(w.fleet), events).value;
    forall id ensures id in backup.events <==> id in log.events {
      if id in backup.events {
        SequenceAboveZero(backup, id);
        assert Missing(backup, map[], id);
        var k :| 0 <= k < |events| && events[k].id == id;
        assert events[k] in events;
      }
      if id in log.events {
        var e :| e in events && e.id == id;
        var k :| 0 <= k < |events| && events[k] == e;
        assert Missing(backup, map[], events[k].id);
      }
    }
  }

  lemma SequenceAboveZero(log: Log, id: EventId)
    requires Valid(log) && id in log.events
    ensures id.of.sequence >= 1
  {
    hide Unforked, Chained, Causal, MembershipValid, TablesValid;
    assert Verify(Signed(id.of), log.fleet).None?;
  }

  /** A replay that went through rebuilt what the events determine. */
  lemma {:induction false} ReplayConverges(w: World, backup: Log, events: seq<Event>)
    requires Inv(w) && Cut(w, backup) && RestoreOrder(backup, events) && InsertAll(EmptyLog(w.fleet), events).Ok?
    ensures SameEvents(backup, InsertAll(EmptyLog(w.fleet), events).value)
    ensures Converged(backup, InsertAll(EmptyLog(w.fleet), events).value)
  {
    hide Inv, Valid, RestoreOrder, InsertAll, Covers, Converged, SameEvents, Deliverable;
    EmptyCut(w);
    RestoreDeliverable(w, backup, events);
    DeliveryKeepsCut(w, EmptyLog(w.fleet), events);
    ReplayHoldsAll(w, backup, events);
    SameEventsConverge(backup, InsertAll(EmptyLog(w.fleet), events).value);
  }

  /** Replaying any backup of the world's events is never refused. */
  lemma {:induction false} ReplayAccepted(w: World, backup: Log, events: seq<Event>)
    requires Inv(w) && NoConflicts(w) && Cut(w, backup) && RestoreOrder(backup, events)
    ensures InsertAll(EmptyLog(w.fleet), events).Ok?
  {
    hide Inv, NoConflicts, Cut, RestoreOrder, InsertAll, Deliverable;
    EmptyCut(w);
    RestoreDeliverable(w, backup, events);
    DeliveryAccepted(w, EmptyLog(w.fleet), events);
  }

  /** In every run, every backup ever taken can be restored to a fresh identity, whatever happened since. */
  lemma {:induction false} EveryBackupRestores(
      fleet: string, steps: seq<Step>, i: NodeId, backup: Log, events: seq<Event>)
    requires var s := Run(fleet, steps); NoConflicts(WorldOf(s)) && Fresh(s, i) && backup in s.backups
    requires |i| == KEY_BYTES && RestoreOrder(backup, events)
    ensures var s' := Run(fleet, steps + [Restore(i, backup, events)]);
      && i in s'.nodes && Converged(backup, s'.nodes[i].db.log)
      && s'.nodes[i].db.inbox == [] && s'.nodes[i].db.submissions == map[]
  {
    hide SystemInv, Inv, NoConflicts, Cut, RestoreOrder, InsertAll, Converged, SameEvents, Fresh, Run;
    RunKeeps(fleet, steps);
    var s := Run(fleet, steps);
    BackupOf(s, backup);
    ReplayAccepted(WorldOf(s), backup, events);
    ReplayConverges(WorldOf(s), backup, events);
    RunSnoc(fleet, steps, Step.Restore(i, backup, events));
  }
}
