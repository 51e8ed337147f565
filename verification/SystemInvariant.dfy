/** The invariant of every reachable state of the mesh, and its preservation by every step. */
module SystemInvariant {
  import opened Records
  import opened Admission
  import opened LogInvariant
  import opened World
  import opened Exchange
  import opened Journal
  import opened JournalSteps
  import opened System
  import opened NodeHistory

  // ---- the invariant ------------------------------------------------------

  ghost predicate NodesInv(s: System) { forall i :: i in s.nodes ==> NodeInv(i, s.nodes[i]) }

  /** A statement by a peer stays true of it forever. */
  ghost predicate ReportHolds(w: World, r: Report) {
    r.peer in w.logs && AtMost(r.cursors, w.logs[r.peer]) && forall id :: id in r.ids ==> id in w.logs[r.peer].events
  }

  ghost predicate MailHolds(w: World, m: Message) {
    m.to in w.logs && |m.events| <= MAX_BATCH && Deliverable(w, w.logs[m.to], m.events)
  }

  ghost predicate NetInv(w: World, s: System) {
    && (forall r :: r in s.reports ==> ReportHolds(w, r))
    && (forall m :: m in s.mail ==> MailHolds(w, m))
    && (forall b :: b in s.backups ==> Cut(w, b))
  }

  /** Every replica row names an event that peer has committed. */
  ghost predicate ReplicasSound(w: World, node: Node) {
    forall row :: row in node.replicas ==> row.1 in w.logs && row.0 in w.logs[row.1].events
  }

  ghost predicate AllReplicasSound(w: World, s: System) {
    forall i :: i in s.nodes ==> ReplicasSound(w, s.nodes[i])
  }

  /** Every receipt of the world continued its command's path when it was made. */
  ghost predicate PathsLegal(w: World) {
    forall id :: id in w.born ==> LegalReceipt(w.born[id], id)
  }

  ghost predicate SystemInv(s: System) {
    var w := WorldOf(s);
    Inv(w) && NodesInv(s) && NetInv(w, s) && AllReplicasSound(w, s) && PathsLegal(w)
  }

  // ---- growth keeps promises -----------------------------------------------

  lemma ReportPersists(w: World, w': World, r: Report)
    requires ReportHolds(w, r) && Grows(w, w')
    ensures ReportHolds(w', r)
  {
    hide AtMost;
    AtMostGrows(r.cursors, w.logs[r.peer], w'.logs[r.peer]);
  }

  lemma MailPersists(w: World, w': World, m: Message)
    requires MailHolds(w, m) && Grows(w, w')
    ensures MailHolds(w', m)
  {
    forall k | 0 <= k < |m.events| ensures Ripe(w', w'.logs[m.to], m.events, k) {
      assert Ripe(w, w.logs[m.to], m.events, k);
    }
  }

  lemma ReplicasPersist(w: World, w': World, node: Node)
    requires ReplicasSound(w, node) && Grows(w, w')
    ensures ReplicasSound(w', node)
  {
  }

  lemma NetPersists(w: World, w': World, s: System)
    requires NetInv(w, s) && Grows(w, w')
    ensures NetInv(w', s)
  {
    hide ReportHolds, MailHolds, Cut, Grows;
    forall r | r in s.reports ensures ReportHolds(w', r) { ReportPersists(w, w', r); }
    forall m | m in s.mail ensures MailHolds(w', m) { MailPersists(w, w', m); }
    forall b | b in s.backups ensures Cut(w', b) { CutPersists(w, w', b); }
  }

  lemma AllReplicasPersist(w: World, w': World, s: System)
    requires AllReplicasSound(w, s) && Grows(w, w')
    ensures AllReplicasSound(w', s)
  {
    hide ReplicasSound, Grows;
    forall i | i in s.nodes ensures ReplicasSound(w', s.nodes[i]) { ReplicasPersist(w, w', s.nodes[i]); }
  }

  // ---- local transactions, world side ------------------------------------------

  ghost function Extended(w: World, i: NodeId, log: Log, ids: seq<EventId>): World
    requires i in w.logs
  {
    World(w.fleet, w.logs[i := log], Snapshots(w.born, w.logs[i], ids))
  }

  lemma GrowsTransitive(a: World, b: World, c: World)
    requires Grows(a, b) && Grows(b, c)
    ensures Grows(a, c)
  {
    forall i | i in a.logs ensures i in c.logs && Covers(c.logs[i], a.logs[i]) {
      assert Covers(b.logs[i], a.logs[i]) && Covers(c.logs[i], b.logs[i]);
    }
  }

  lemma GrowsRefl(w: World)
    ensures Grows(w, w)
  {
  }

  lemma OneLegal(w: World, i: NodeId, id: EventId)
    requires PathsLegal(w) && i in w.logs && LegalReceipt(w.logs[i], id)
    ensures PathsLegal(AppendTo(w, i, id))
  {
    hide LegalReceipt, With;
  }

  /** A chain of legal local appends keeps the world's invariant. */
  lemma {:induction false} GrownKeepsInv(w: World, i: NodeId, log: Log, ids: seq<EventId>)
    requires Inv(w) && PathsLegal(w) && i in w.logs && Grown(i, w.logs[i], log, ids)
    ensures var w' := Extended(w, i, log, ids); Inv(w') && Grows(w, w') && PathsLegal(w')
    decreases |ids|
  {
    hide Inv, PathsLegal, Extends, LegalReceipt, With, Grows;
    if ids == [] {
      assert w.logs[i := log] == w.logs;
      GrowsRefl(w);
    } else {
      var w1 := AppendTo(w, i, ids[0]);
      AppendKeepsInv(w, i, ids[0]);
      OneLegal(w, i, ids[0]);
      GrownKeepsInv(w1, i, log, ids[1..]);
      assert Extended(w1, i, log, ids[1..]) == Extended(w, i, log, ids);
      GrowsTransitive(w, w1, Extended(w, i, log, ids));
    }
  }

  lemma WorldAfterLocal(s: System, i: NodeId, appended: seq<EventId>, node: Node)
    requires i in s.nodes
    ensures WorldOf(CommitLocal(s, i, appended, node)) == Extended(WorldOf(s), i, node.db.log, appended)
  {
  }

  lemma WorldAfterSet(s: System, i: NodeId, node: Node)
    ensures WorldOf(SetNode(s, i, node)) == Receive(WorldOf(s), i, node.db.log)
  {
  }

  /** A committed local transaction of a node whose own invariants it keeps. */
  lemma LocalKeeps(s: System, i: NodeId, appended: seq<EventId>, node: Node)
    requires SystemInv(s) && i in s.nodes && Grown(i, s.nodes[i].db.log, node.db.log, appended)
    requires NodeInv(i, node) && node.replicas == s.nodes[i].replicas
    ensures SystemInv(CommitLocal(s, i, appended, node))
    ensures Grows(WorldOf(s), WorldOf(CommitLocal(s, i, appended, node)))
  {
    hide Inv, NodeInv, NetInv, ReplicasSound, PathsLegal, Grown, Grows, Extended, Snapshots;
    var w, s' := WorldOf(s), CommitLocal(s, i, appended, node);
    WorldAfterLocal(s, i, appended, node);
    GrownKeepsInv(w, i, node.db.log, appended);
    NetPersists(w, WorldOf(s'), s);
    NetSame(WorldOf(s'), s, s');
    AllReplicasPersist(w, WorldOf(s'), s);
    SameReplicas(WorldOf(s'), s.nodes[i], node);
  }

  lemma NetSame(w: World, s: System, s': System)
    requires NetInv(w, s) && s'.mail == s.mail && s'.reports == s.reports && s'.backups == s.backups
    ensures NetInv(w, s')
  {
    hide ReportHolds, MailHolds, Cut;
  }

  lemma SameReplicas(w: World, node: Node, node': Node)
    requires ReplicasSound(w, node) && node'.replicas == node.replicas
    ensures ReplicasSound(w, node')
  {
  }
}
