/** Every step of the mesh keeps the invariant, so every run does. */
module SystemSteps {
  import opened Records
  import opened Admission
  import opened LogInvariant
  import opened World
  import opened Exchange
  import opened Journal
  import opened JournalSteps
  import opened JournalFairness
  import opened Submission
  import opened SubmissionIdempotence
  import opened System
  import opened NodeHistory
  import opened Authority
  import opened SystemInvariant

  /** Every node keeps its commands and submissions. */
  ghost predicate NodesLater(s: System, s': System) {
    forall i :: i in s.nodes ==> i in s'.nodes && Later(s.nodes[i].db, s'.nodes[i].db)
  }

  ghost predicate Forward(s: System, s': System) {
    SystemInv(s') && Grows(WorldOf(s), WorldOf(s')) && NodesLater(s, s') && s'.fleet == s.fleet
  }

  lemma NodesLaterSame(s: System, s': System)
    requires s'.nodes == s.nodes
    ensures NodesLater(s, s')
  {
  }

  lemma NodesLaterSet(s: System, s': System, i: NodeId, node: Node)
    requires s'.nodes == s.nodes[i := node] && (i in s.nodes ==> Later(s.nodes[i].db, node.db))
    ensures NodesLater(s, s')
  {
  }

  lemma Stays(s: System)
    requires SystemInv(s)
    ensures Forward(s, s)
  {
    hide SystemInv, Grows, NodesLater;
    GrowsRefl(WorldOf(s));
    NodesLaterSame(s, s);
  }

  lemma NodeOf(s: System, i: NodeId)
    requires SystemInv(s) && i in s.nodes
    ensures NodeInv(i, s.nodes[i]) && Inv(WorldOf(s)) && Cut(WorldOf(s), s.nodes[i].db.log) && Valid(s.nodes[i].db.log)
    ensures i in WorldOf(s).logs && WorldOf(s).logs[i] == s.nodes[i].db.log && CommandRows(s.nodes[i].db.log)
    ensures PathsLegal(WorldOf(s)) && NetInv(WorldOf(s), s) && ReplicasSound(WorldOf(s), s.nodes[i])
  {
    hide NodeInv, NetInv, ReplicasSound, PathsLegal, ChainValid, MembershipValid, CommandRows, CommandEvents,
      CatalogRows, CatalogEvents, DeletionsSound, ReceiptRows, ReceiptEvents, InventoryRows, InventoryEvents,
      ImportsSound, WellBorn, Covers;
    assert Cut(WorldOf(s), WorldOf(s).logs[i]);
  }

  // ---- local transactions ------------------------------------------------------

  lemma LocalForward(s: System, i: NodeId, appended: seq<EventId>, node: Node)
    requires SystemInv(s) && i in s.nodes && NodeStep(i, s.nodes[i], appended, node)
    ensures Forward(s, CommitLocal(s, i, appended, node))
  {
    hide SystemInv, NodeInv, Grown, Grows, Snapshots, WorldOf, Later, NodesLater;
    LocalKeeps(s, i, appended, node);
    NodesLaterSet(s, CommitLocal(s, i, appended, node), i, node);
  }

  lemma AppendForward(s: System, i: NodeId, env: Env, body: Body, deps: seq<EventId>)
    requires SystemInv(s) && i in s.nodes && !body.ReceiptBody?
    ensures Forward(s, Local(s, i, AppendBody(s.nodes[i].db, env, body, deps)))
  {
    hide SystemInv, Forward, NodeInv, AppendBody, CommitLocal, NodeStep, Cut, Inv, NetInv, ReplicasSound, PathsLegal,
      Valid, CommandRows;
    NodeOf(s, i);
    var result := AppendBody(s.nodes[i].db, env, body, deps);
    if result.Ok? {
      AppendStep(i, s.nodes[i], env, body, deps, result.value);
      LocalForward(s, i, result.value.appended, s.nodes[i].(db := result.value.db));
    } else {
      Stays(s);
    }
  }

  lemma SubmitForward(s: System, i: NodeId, env: Env, request: SubmitRequest)
    requires SystemInv(s) && i in s.nodes
    ensures Forward(s, Local(s, i, CreateCommands(s.nodes[i].db, env, request)))
  {
    hide SystemInv, Forward, NodeInv, CreateCommands, CommitLocal, NodeStep, Cut, Inv, NetInv, ReplicasSound,
      PathsLegal, Valid, CommandRows;
    NodeOf(s, i);
    var result := CreateCommands(s.nodes[i].db, env, request);
    if result.Ok? {
      SubmitStepOfNode(i, s.nodes[i], env, request, result.value);
      LocalForward(s, i, result.value.appended, s.nodes[i].(db := result.value.db));
    } else {
      Stays(s);
    }
  }

  lemma RetryForward(s: System, i: NodeId, env: Env, id: CommandId, submission: string)
    requires SystemInv(s) && i in s.nodes
    ensures Forward(s, Local(s, i, RetryCommand(s.nodes[i].db, env, id, submission)))
  {
    hide SystemInv, Forward, NodeInv, RetryCommand, CommitLocal, NodeStep, Cut, Inv, NetInv, ReplicasSound, PathsLegal,
      Valid, CommandRows;
    NodeOf(s, i);
    var result := RetryCommand(s.nodes[i].db, env, id, submission);
    if result.Ok? {
      RetryStepOfNode(i, s.nodes[i], env, id, submission, result.value);
      LocalForward(s, i, result.value.appended, s.nodes[i].(db := result.value.db));
    } else {
      Stays(s);
    }
  }

  lemma AcceptForward(s: System, step: Step)
    requires SystemInv(s) && step.AcceptOne?
    ensures Forward(s, Apply(s, step))
  {
    hide SystemInv, Forward, NodeInv, Accept, CommitLocal, NodeStep, Cut, Inv, NetInv, ReplicasSound, PathsLegal,
      Valid, CommandRows;
    var AcceptOne(i, env, id) := step;
    if i in s.nodes && Accept(s.nodes[i].db, env, id).Ok? {
      NodeOf(s, i);
      var commit := Accept(s.nodes[i].db, env, id).value;
      var next := s.nodes[i].(db := commit.db, asked := s.nodes[i].asked + {id});
      AcceptStep(i, s.nodes[i], env, id, commit, next);
      LocalForward(s, i, commit.appended, next);
    } else {
      Stays(s);
    }
  }

  lemma AcceptKeepsCommand(node: Node, env: Env, id: CommandId, commit: Commit<Receipt>)
    requires NodeInv(node.db.self, node) && CommandRows(node.db.log) && AwaitsAcceptance(node.db, id)
    requires Accept(node.db, env, id) == Ok(commit)
    ensures Permits(node, node.(db := commit.db, reconciled := node.reconciled + {id}), id)
  {
    hide JournalInvariant.JournalInv, Remembered, History, Accept, CommandRows, Grown, AcceptStatus;
    JournalOperations.AcceptKeeps(node.db, env, id, commit);
  }

  lemma ReconcileForward(s: System, step: Step)
    requires SystemInv(s) && step.Reconcile?
    ensures Forward(s, Apply(s, step))
  {
    hide SystemInv, Forward, Accept, CommitLocal, NodeStep, Cut, Inv, NetInv, ReplicasSound, PathsLegal, Valid,
      CommandRows, AwaitsAcceptance, JournalInvariant.JournalInv, Remembered, History, Permits;
    var Reconcile(i, env, id) := step;
    if i in s.nodes && Active(s.nodes[i].db.log, i) && AwaitsAcceptance(s.nodes[i].db, id)
       && Accept(s.nodes[i].db, env, id).Ok? {
      NodeOf(s, i);
      var commit := Accept(s.nodes[i].db, env, id).value;
      var next := s.nodes[i].(db := commit.db, reconciled := s.nodes[i].reconciled + {id});
      AcceptKeepsCommand(s.nodes[i], env, id, commit);
      AcceptStep(i, s.nodes[i], env, id, commit, next);
      LocalForward(s, i, commit.appended, next);
    } else {
      Stays(s);
    }
  }

  lemma StartForward(s: System, step: Step)
    requires SystemInv(s) && step.StartNext?
    ensures Forward(s, Apply(s, step))
  {
    hide SystemInv, Forward, NodeInv, Next, CommitLocal, NodeStep, Cut, Inv, NetInv, ReplicasSound, PathsLegal, Valid,
      CommandRows;
    var StartNext(i, env) := step;
    if i in s.nodes && Next(s.nodes[i].db, env).Ok? {
      NodeOf(s, i);
      var commit := Next(s.nodes[i].db, env).value;
      StartStep(i, s.nodes[i], env, commit);
      LocalForward(s, i, commit.appended,
        s.nodes[i].(db := commit.db, started := s.nodes[i].started + Handed(commit.value)));
    } else {
      Stays(s);
    }
  }

  lemma FinishForward(s: System, step: Step)
    requires SystemInv(s) && step.Finish?
    ensures Forward(s, Apply(s, step))
  {
    hide SystemInv, Forward, NodeInv, Complete, CommitLocal, NodeStep, Cut, Inv, NetInv, ReplicasSound, PathsLegal,
      Valid, CommandRows;
    var Finish(i, env, c, status, message, details) := step;
    if i in s.nodes && Complete(s.nodes[i].db, env, c, status, message, details).Ok? {
      NodeOf(s, i);
      var commit := Complete(s.nodes[i].db, env, c, status, message, details).value;
      FinishStep(i, s.nodes[i], env, c, status, message, details, commit);
      LocalForward(s, i, commit.appended, s.nodes[i].(db := commit.db));
    } else {
      Stays(s);
    }
  }

  lemma RestartForward(s: System, step: Step)
    requires SystemInv(s) && step.Restart?
    ensures Forward(s, Apply(s, step))
  {
    hide SystemInv, Forward, NodeInv, Recover, RunningExcept, CommitLocal, NodeStep, Cut, Inv, NetInv, ReplicasSound,
      PathsLegal, Valid, CommandRows;
    var Restart(i, env, pendingUpdate) := step;
    if i in s.nodes && Recover(s.nodes[i].db, env, pendingUpdate).Ok? {
      NodeOf(s, i);
      var commit := Recover(s.nodes[i].db, env, pendingUpdate).value;
      RestartStep(i, s.nodes[i], env, pendingUpdate, commit);
      LocalForward(s, i, commit.appended,
        s.nodes[i].(db := commit.db,
          interrupted := s.nodes[i].interrupted + multiset(RunningExcept(s.nodes[i].db, pendingUpdate))));
    } else {
      Stays(s);
    }
  }

  lemma LoseForward(s: System, step: Step)
    requires SystemInv(s) && step.LoseNext?
    ensures Forward(s, Apply(s, step))
  {
    hide SystemInv, Forward, NodeInv, Next, Cut, Inv, NetInv, ReplicasSound, PathsLegal, Valid, CommandRows, Covers,
      Later;
    var LoseNext(i, env) := step;
    if i in s.nodes && Next(s.nodes[i].db, env).Ok? {
      NodeOf(s, i);
      var node := s.nodes[i].(lost := s.nodes[i].lost + Handed(Next(s.nodes[i].db, env).value.value));
      LoseStep(i, s.nodes[i], env, Next(s.nodes[i].db, env).value);
      CoversSelf(node.db.log);
      LaterSelf(node.db);
      ReplicasSame(WorldOf(s), s.nodes[i], node);
      SetForward(s, i, node);
    } else {
      Stays(s);
    }
  }

  // ---- replication ---------------------------------------------------------------

  /** A node that joins or grows to a larger cut, its own invariants kept. */
  lemma SetForward(s: System, i: NodeId, node: Node)
    requires SystemInv(s) && Cut(WorldOf(s), node.db.log) && (i in s.nodes ==> Covers(node.db.log, s.nodes[i].db.log))
    requires NodeInv(i, node) && ReplicasSound(WorldOf(s), node) && (i in s.nodes ==> Later(s.nodes[i].db, node.db))
    ensures Forward(s, SetNode(s, i, node))
  {
    hide Inv, NodeInv, NetInv, ReplicasSound, PathsLegal, Grows, Cut, Covers, Later, NodesLater;
    NodesLaterSet(s, SetNode(s, i, node), i, node);
    var w, s' := WorldOf(s), SetNode(s, i, node);
    WorldAfterSet(s, i, node);
    ReceiveKeepsInv(w, i, node.db.log);
    NetPersists(w, WorldOf(s'), s);
    NetSame(WorldOf(s'), s, s');
    AllReplicasPersist(w, WorldOf(s'), s);
    ReplicasPersist(w, WorldOf(s'), node);
    SameBorn(w, WorldOf(s'));
  }

  lemma SameBorn(w: World, w': World)
    requires PathsLegal(w) && w'.born == w.born
    ensures PathsLegal(w')
  {
    hide LegalReceipt;
  }

  /** New messages, reports and backups that hold. */
  lemma NetForward(s: System, s': System)
    requires SystemInv(s) && NetInv(WorldOf(s), s') && s'.nodes == s.nodes && s'.born == s.born && s'.fleet == s.fleet
    ensures Forward(s, s')
  {
    hide Inv, NodeInv, NetInv, ReplicasSound, PathsLegal, Grows, NodesLater;
    assert WorldOf(s') == WorldOf(s);
    NodesLaterSame(s, s');
    GrowsRefl(WorldOf(s));
  }

  lemma EmptyCut(w: World)
    ensures Cut(w, EmptyLog(w.fleet)) && AtMost(map[], EmptyLog(w.fleet))
  {
    hide Valid;
    EmptyValid(w.fleet);
  }

  lemma BootForward(s: System, step: Step)
    requires SystemInv(s) && step.Boot?
    ensures Forward(s, Apply(s, step))
  {
    hide SystemInv, Forward, NodeInv, Cut, Covers;
    var i := step.node;
    if i !in s.nodes && |i| == KEY_BYTES {
      EmptyCut(WorldOf(s));
      EmptyValid(s.fleet);
      NewNodeInv(i, EmptyLog(s.fleet));
      NewReplicas(WorldOf(s), i, EmptyLog(s.fleet));
      SetForward(s, i, NewNode(i, EmptyLog(s.fleet)));
    } else {
      Stays(s);
    }
  }

  lemma NewReplicas(w: World, i: NodeId, log: Log)
    ensures ReplicasSound(w, NewNode(i, log))
  {
  }

  lemma AddReport(w: World, s: System, r: Report)
    requires NetInv(w, s) && ReportHolds(w, r)
    ensures NetInv(w, s.(reports := s.reports + {r}))
  {
    hide ReportHolds, MailHolds, Cut;
  }

  lemma AddMail(w: World, s: System, m: Message)
    requires NetInv(w, s) && MailHolds(w, m)
    ensures NetInv(w, s.(mail := s.mail + {m}))
  {
    hide ReportHolds, MailHolds, Cut;
  }

  lemma AddBackup(w: World, s: System, b: Log)
    requires NetInv(w, s) && Cut(w, b)
    ensures NetInv(w, s.(backups := s.backups + {b}))
  {
    hide ReportHolds, MailHolds, Cut;
  }

  lemma ReportTrue(w: World, i: NodeId, c: Cursors, ids: seq<EventId>)
    requires i in w.logs && ExactCursors(w.logs[i], c) && forall id :: id in ids ==> id in w.logs[i].events
    ensures ReportHolds(w, Report(i, c, ids))
  {
    hide LastSequence;
  }

  lemma AnnounceForward(s: System, step: Step)
    requires SystemInv(s) && step.Announce?
    ensures Forward(s, Apply(s, step))
  {
    hide SystemInv, Forward, NodeInv, Cut, Inv, NetInv, ReplicasSound, PathsLegal, Valid, CommandRows, ExactCursors,
      ReportHolds;
    var Announce(i, c) := step;
    if i in s.nodes && ExactCursors(s.nodes[i].db.log, c) {
      NodeOf(s, i);
      ReportTrue(WorldOf(s), i, c, []);
      AddReport(WorldOf(s), s, Report(i, c, []));
      NetForward(s, Apply(s, step));
    } else {
      Stays(s);
    }
  }

  lemma ReportOf(w: World, s: System, r: Report)
    requires NetInv(w, s) && r in s.reports
    ensures ReportHolds(w, r) && r.peer in w.logs
  {
    hide MailHolds, Cut, AtMost;
  }

  lemma ExportFits(a: Log, c: Cursors, limit: int, rowLength: Event -> nat, events: seq<Event>)
    requires IsExport(a, c, limit, rowLength, events)
    ensures |events| <= MAX_BATCH
  {
    hide Rows, NoSkips, Ordered, Whole;
  }

  lemma SendForward(s: System, step: Step)
    requires SystemInv(s) && step.Send?
    ensures Forward(s, Apply(s, step))
  {
    hide SystemInv, Forward, NodeInv, Cut, Inv, NetInv, ReplicasSound, PathsLegal, Valid, CommandRows, IsExport,
      Deliverable, AtMost;
    var Send(i, report, limit, rowLength, events) := step;
    if i in s.nodes && report in s.reports && IsExport(s.nodes[i].db.log, report.cursors, limit, rowLength, events) {
      var w := WorldOf(s);
      NodeOf(s, i);
      ReportOf(w, s, report);
      NodeOf(s, report.peer);
      ExportDeliverable(w, w.logs[i], w.logs[report.peer], report.cursors, limit, rowLength, events);
      ExportFits(w.logs[i], report.cursors, limit, rowLength, events);
      AddMail(w, s, Message(report.peer, events));
      NetForward(s, Apply(s, step));
    } else {
      Stays(s);
    }
  }

  lemma MailOf(w: World, s: System, m: Message)
    requires NetInv(w, s) && m in s.mail
    ensures MailHolds(w, m)
  {
    hide ReportHolds, Cut, MailHolds;
  }

  lemma DeliverForward(s: System, step: Step)
    requires SystemInv(s) && step.Deliver?
    ensures Forward(s, Apply(s, step))
  {
    hide SystemInv, NodeInv, Cut, Inv, NetInv, ReplicasSound, PathsLegal, Valid, CommandRows, ExactCursors,
      Deliverable, InsertAll, Grows, ReportHolds, Covers, Forward, WorldOf, Later;
    var Deliver(m, c) := step;
    if m in s.mail && m.to in s.nodes && Ingest(s.nodes[m.to].db.log, m.events).Ok?
       && ExactCursors(Ingest(s.nodes[m.to].db.log, m.events).value, c) {
      var w, i := WorldOf(s), m.to;
      var next := InsertAll(s.nodes[i].db.log, m.events).value;
      var node := s.nodes[i].(db := s.nodes[i].db.(log := next));
      NodeOf(s, i);
      MailOf(w, s, m);
      IngestKeepsNode(w, i, s.nodes[i], m.events);
      ReplicasSame(w, s.nodes[i], node);
      SetForward(s, i, node);
      DeliverReport(s, SetNode(s, i, node), i, c, m.events);
    } else {
      Stays(s);
    }
  }

  lemma ReplicasSame(w: World, node: Node, next: Node)
    requires ReplicasSound(w, node) && next.replicas == node.replicas
    ensures ReplicasSound(w, next)
  {
  }

  lemma ForwardReport(s: System, s1: System, r: Report)
    requires Forward(s, s1) && ReportHolds(WorldOf(s1), r)
    ensures Forward(s, s1.(reports := s1.reports + {r}))
  {
    hide Inv, NodeInv, NetInv, ReplicasSound, PathsLegal, Grows, ReportHolds, Later;
    var s2 := s1.(reports := s1.reports + {r});
    AddReport(WorldOf(s1), s1, r);
    assert WorldOf(s2) == WorldOf(s1);
  }

  lemma DeliverReport(s: System, s1: System, i: NodeId, c: Cursors, events: seq<Event>)
    requires Forward(s, s1) && i in s1.nodes && ExactCursors(s1.nodes[i].db.log, c)
    requires forall e :: e in events ==> e.id in s1.nodes[i].db.log.events
    ensures Forward(s, s1.(reports := s1.reports + {Report(i, c, IdsOf(events))}))
  {
    hide Forward, ExactCursors, ReportHolds;
    forall id | id in IdsOf(events) ensures id in s1.nodes[i].db.log.events {
      var k :| 0 <= k < |events| && IdsOf(events)[k] == id;
      assert events[k] in events;
    }
    ReportTrue(WorldOf(s1), i, c, IdsOf(events));
    ForwardReport(s, s1, Report(i, c, IdsOf(events)));
  }

  /** Rows derived from a peer's report are events the peer has committed. */
  lemma AccountedSound(w: World, i: NodeId, node: Node, report: Report)
    requires Inv(w) && i in w.logs && w.logs[i] == node.db.log && Cut(w, node.db.log)
    requires ReportHolds(w, report) && ReplicasSound(w, node) && Cut(w, w.logs[report.peer])
    ensures var acked := node.replicas + AckReplicas(report);
      ReplicasSound(w, node.(replicas := acked + CursorReplicas(node.db.log, report)))
  {
    hide Inv, AtMost, CursorAt, Valid, Covers;
    var rows := node.replicas + AckReplicas(report) + CursorReplicas(node.db.log, report);
    forall row | row in rows ensures row.1 in w.logs && row.0 in w.logs[row.1].events {
      if row in CursorReplicas(node.db.log, report) {
        assert row.0 in w.born;
        CursorsAreReplicas(w, w.logs[report.peer], report.cursors, row.0);
      }
    }
  }

  lemma AccountForward(s: System, step: Step)
    requires SystemInv(s) && step.Account?
    ensures Forward(s, Apply(s, step))
  {
    hide SystemInv, NodeInv, Cut, Inv, NetInv, PathsLegal, Valid, CommandRows, Forward, ReportHolds, Covers,
      ReplicasSound, AckReplicas, CursorReplicas;
    var Account(i, report) := step;
    if i in s.nodes && report in s.reports {
      var w := WorldOf(s);
      var node := s.nodes[i];
      NodeOf(s, i);
      ReportOf(w, s, report);
      NodeOf(s, report.peer);
      AccountedSound(w, i, node, report);
      var next := node.(replicas := node.replicas + AckReplicas(report) + CursorReplicas(node.db.log, report));
      ReplicasAside(i, node, next);
      CoversSelf(node.db.log);
      LaterSelf(node.db);
      SetForward(s, i, next);
    } else {
      Stays(s);
    }
  }

  lemma ReplicasAside(i: NodeId, node: Node, next: Node)
    requires NodeInv(i, node) && next == node.(replicas := next.replicas)
    ensures NodeInv(i, next)
  {
    hide JournalInvariant.JournalInv, Remembered, CountsOk;
  }

  lemma BackupForward(s: System, step: Step)
    requires SystemInv(s) && step.Backup?
    ensures Forward(s, Apply(s, step))
  {
    hide SystemInv, NodeInv, Cut, Inv, NetInv, PathsLegal, Valid, CommandRows, Forward, ReplicasSound;
    if step.node in s.nodes {
      NodeOf(s, step.node);
      AddBackup(WorldOf(s), s, s.nodes[step.node].db.log);
      NetForward(s, Apply(s, step));
    } else {
      Stays(s);
    }
  }

  lemma BackupOf(s: System, b: Log)
    requires SystemInv(s) && b in s.backups
    ensures Inv(WorldOf(s)) && Cut(WorldOf(s), b)
  {
    hide Inv, NodeInv, ReplicasSound, PathsLegal, Cut, MailHolds, ReportHolds;
  }

  /** A whole log in order, with no cursors, is deliverable to an empty database. */
  lemma RestoreDeliverable(w: World, backup: Log, events: seq<Event>)
    requires Inv(w) && Cut(w, backup) && RestoreOrder(backup, events)
    ensures Deliverable(w, EmptyLog(w.fleet), events)
  {
    hide Inv, Cut, AtMost, Rows, NoSkips, Ordered, Whole, Ripe;
    EmptyCut(w);
    forall k | 0 <= k < |events| ensures Ripe(w, EmptyLog(w.fleet), events, k) {
      ExportRipe(w, backup, EmptyLog(w.fleet), map[], events, k);
    }
  }

  /** The restored database is a cut without a single command for the new identity. */
  lemma RestoredNode(w: World, i: NodeId, backup: Log, events: seq<Event>)
    requires Inv(w) && Cut(w, backup) && RestoreOrder(backup, events) && |i| == KEY_BYTES
    requires forall id :: id in w.born ==> !Admits(id, i)
    requires InsertAll(EmptyLog(w.fleet), events).Ok?
    ensures var log := InsertAll(EmptyLog(w.fleet), events).value;
      Cut(w, log) && NodeInv(i, NewNode(i, log))
  {
    hide Inv, InsertAll, Valid, RestoreOrder, Covers, NodeInv;
    var log := InsertAll(EmptyLog(w.fleet), events).value;
    RestoreDeliverable(w, backup, events);
    EmptyCut(w);
    DeliveryKeepsCut(w, EmptyLog(w.fleet), events);
    NoCommandsBeforeAdmission(log, i);
    NewNodeInv(i, log);
  }

  lemma RestoreForward(s: System, step: Step)
    requires SystemInv(s) && step.Restore?
    ensures Forward(s, Apply(s, step))
  {
    hide SystemInv, NodeInv, Cut, Inv, Valid, Forward, ReplicasSound, RestoreOrder, InsertAll, Covers;
    var Restore(i, backup, events) := step;
    if |i| == KEY_BYTES && Fresh(s, i) && backup in s.backups && RestoreOrder(backup, events)
       && InsertAll(EmptyLog(s.fleet), events).Ok? {
      var log := InsertAll(EmptyLog(s.fleet), events).value;
      BackupOf(s, backup);
      RestoredNode(WorldOf(s), i, backup, events);
      NewReplicas(WorldOf(s), i, log);
      SetForward(s, i, NewNode(i, log));
    } else {
      Stays(s);
    }
  }

  // ---- all steps --------------------------------------------------------------------

  lemma PublishForward(s: System, step: Step)
    requires SystemInv(s) && (step.Publish? || step.Bootstrap? || step.Submit? || step.Retry?)
    ensures Forward(s, Apply(s, step))
  {
    hide SystemInv, Forward, AppendBody, CreateCommands, RetryCommand, Local, Active;
    Stays(s);
    if step.node in s.nodes {
      match step
      case Bootstrap(i, env, m) => AppendForward(s, i, env, MemberBody(m), []);
      case Publish(i, env, body, deps) => if Direct(body) { AppendForward(s, i, env, body, deps); }
      case Submit(i, env, request) => SubmitForward(s, i, env, request);
      case Retry(i, env, id, submission) => RetryForward(s, i, env, id, submission);
    }
  }

  lemma {:induction false} StepForward(s: System, step: Step)
    requires SystemInv(s)
    ensures Forward(s, Apply(s, step))
  {
    hide SystemInv, Forward, Apply;
    match step
    case Boot(_) => BootForward(s, step);
    case Bootstrap(_, _, _) => PublishForward(s, step);
    case Publish(_, _, _, _) => PublishForward(s, step);
    case Submit(_, _, _) => PublishForward(s, step);
    case Retry(_, _, _, _) => PublishForward(s, step);
    case AcceptOne(_, _, _) => AcceptForward(s, step);
    case Reconcile(_, _, _) => ReconcileForward(s, step);
    case StartNext(_, _) => StartForward(s, step);
    case LoseNext(_, _) => LoseForward(s, step);
    case Finish(_, _, _, _, _, _) => FinishForward(s, step);
    case Restart(_, _, _) => RestartForward(s, step);
    case Announce(_, _) => AnnounceForward(s, step);
    case Send(_, _, _, _, _) => SendForward(s, step);
    case Deliver(_, _) => DeliverForward(s, step);
    case Account(_, _) => AccountForward(s, step);
    case Backup(_) => BackupForward(s, step);
    case Restore(_, _, _) => RestoreForward(s, step);
  }

  lemma InitialInv(fleet: string)
    ensures SystemInv(Initial(fleet))
  {
  }

  /** Every reachable state of the mesh satisfies the invariant. */
  lemma {:induction false} RunKeeps(fleet: string, steps: seq<Step>)
    ensures SystemInv(Run(fleet, steps)) && Run(fleet, steps).fleet == fleet
    decreases |steps|
  {
    hide SystemInv, Apply, Grows;
    if steps == [] {
      InitialInv(fleet);
    } else {
      RunKeeps(fleet, steps[..|steps| - 1]);
      StepForward(Run(fleet, steps[..|steps| - 1]), steps[|steps| - 1]);
    }
  }

  lemma NodesLaterTransitive(s: System, t: System, u: System)
    requires NodesLater(s, t) && NodesLater(t, u)
    ensures NodesLater(s, u)
  {
    forall i | i in s.nodes ensures i in u.nodes && Later(s.nodes[i].db, u.nodes[i].db) {
      assert Later(s.nodes[i].db, t.nodes[i].db) && Later(t.nodes[i].db, u.nodes[i].db);
    }
  }

  /** What a later state of the same run can only add to. */
  lemma {:induction false} RunGrows(fleet: string, before: seq<Step>, after: seq<Step>)
    ensures Grows(WorldOf(Run(fleet, before)), WorldOf(Run(fleet, before + after)))
    ensures NodesLater(Run(fleet, before), Run(fleet, before + after))
    decreases |after|
  {
    hide SystemInv, Apply, Grows, WorldOf, NodesLater;
    var all := before + after;
    if after == [] {
      assert all == before;
      GrowsRefl(WorldOf(Run(fleet, before)));
      NodesLaterSame(Run(fleet, before), Run(fleet, all));
    } else {
      var init := after[..|after| - 1];
      assert all[..|all| - 1] == before + init && all[|all| - 1] == after[|after| - 1];
      RunGrows(fleet, before, init);
      RunKeeps(fleet, before + init);
      StepForward(Run(fleet, before + init), after[|after| - 1]);
      NodesLaterTransitive(Run(fleet, before), Run(fleet, before + init), Run(fleet, all));
      GrowsTransitive(WorldOf(Run(fleet, before)), WorldOf(Run(fleet, before + init)), WorldOf(Run(fleet, all)));
    }
  }

  /** One more step of a run. */
  lemma RunSnoc(fleet: string, steps: seq<Step>, step: Step)
    ensures Run(fleet, steps + [step]) == Apply(Run(fleet, steps), step)
  {
    hide Apply;
    var all := steps + [step];
    assert all[..|all| - 1] == steps && all[|all| - 1] == step;
  }
}
