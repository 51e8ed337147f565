/**
 Single-writer authority: what a node ingests never changes the receipts of the
 commands that target it, so its journal keeps agreeing with its log; and
 tables only grow, so a removal is permanent.
 */
module Authority {
  import opened Records
  import opened Admission
  import opened LogInvariant
  import opened World
  import opened Journal
  import opened JournalSteps
  import opened JournalInvariant
  import opened Submission
  import opened SubmissionIdempotence
  import opened System
  import opened NodeHistory

  // ---- tables only grow ---------------------------------------------------------

  /** Commands are never changed, members never dropped, removals and deletions never undone. */
  ghost predicate TablesKept(a: Log, b: Log) {
    && b.fleet == a.fleet
    && (forall c :: c in a.commands ==> c in b.commands && b.commands[c] == a.commands[c])
    && (forall m :: m in a.members ==> m in b.members)
    && (forall m :: m in a.removals ==> m in b.removals)
    && (forall k :: k in a.catalog ==> k in b.catalog && (a.catalog[k].removed ==> b.catalog[k].removed))
  }

  lemma WithKeepsTables(log: Log, id: EventId)
    ensures TablesKept(log, With(log, Signed(id.of)))
  {
  }

  lemma TablesKeptTransitive(a: Log, b: Log, c: Log)
    requires TablesKept(a, b) && TablesKept(b, c)
    ensures TablesKept(a, c)
  {
  }

  lemma {:induction false} IngestKeepsTables(log: Log, events: seq<Event>)
    requires InsertAll(log, events).Ok?
    ensures TablesKept(log, InsertAll(log, events).value)
    decreases |events|
  {
    hide Insert, TablesKept, With, Admissible;
    if events == [] {
      TablesKeptSelf(log);
    } else {
      var next := Insert(log, events[0]).value;
      InsertCases(log, events[0]);
      if events[0].id in log.events { TablesKeptSelf(log); } else { WithKeepsTables(log, events[0].id); }
      IngestKeepsTables(next, events[1..]);
      TablesKeptTransitive(log, next, InsertAll(log, events).value);
    }
  }

  lemma TablesKeptSelf(log: Log)
    ensures TablesKept(log, log)
  {
  }

  lemma {:induction false} GrownKeepsTables(self: NodeId, a: Log, b: Log, ids: seq<EventId>)
    requires Grown(self, a, b, ids)
    ensures TablesKept(a, b)
    decreases |ids|
  {
    hide TablesKept, With, Extends, LegalReceipt;
    if ids == [] {
      TablesKeptSelf(a);
    } else {
      WithKeepsTables(a, ids[0]);
      GrownKeepsTables(self, With(a, Signed(ids[0].of)), b, ids[1..]);
      TablesKeptTransitive(a, With(a, Signed(ids[0].of)), b);
    }
  }

  // ---- receipts belong to the target ------------------------------------------------

  /** A larger cut has exactly the target's own receipts for the commands that target it. */
  lemma {:induction false} OwnReceipts(w: World, i: NodeId, next: Log, c: CommandId)
    requires Inv(w) && i in w.logs && Cut(w, next) && Covers(next, w.logs[i]) && Targets(next, c, i)
    ensures c in next.receipts <==> c in w.logs[i].receipts
    ensures c in next.receipts ==> next.receipts[c] == w.logs[i].receipts[c]
  {
    hide Valid, WellBorn;
    var own := w.logs[i];
    assert Cut(w, own);
    if c in next.receipts {
      var y := next.receipts[c].event;
      LatestReceipt(next, c);
      OriginHolds(w, next, y);
      ReceiptSeen(own, y);
    }
    if c in own.receipts {
      LatestReceipt(own, c);
      ReceiptSeen(next, own.receipts[c].event);
    }
    if c in own.receipts && c in next.receipts {
      SameSequence(own, own.receipts[c].event, next.receipts[c].event);
    }
  }

  lemma LatestReceipt(log: Log, c: CommandId)
    requires Valid(log) && c in log.receipts
    ensures c in log.commands
    ensures var row := log.receipts[c];
      && row.event in log.events && row.event.of.origin == log.commands[c].command.target
      && row == ReceiptRow(row.event, row.event.of.sequence, row.receipt)
      && row.event.of.body == ReceiptBody(row.receipt) && row.receipt.commandId == c
  {
    hide ChainValid, MembershipValid, CatalogRows, CatalogEvents, DeletionsSound, CommandRows, CommandEvents,
      InventoryRows, InventoryEvents, ImportsSound;
  }

  lemma ReceiptSeen(log: Log, id: EventId)
    requires Valid(log) && id in log.events && id.of.body.ReceiptBody?
    ensures var c := id.of.body.receipt.commandId;
      && c in log.receipts && c in log.commands && log.commands[c].command.target == id.of.origin
      && id.of.sequence <= log.receipts[c].sequence
  {
    hide ChainValid, MembershipValid, CatalogRows, CatalogEvents, DeletionsSound, CommandRows, CommandEvents,
      InventoryRows, InventoryEvents, ImportsSound, ReceiptRows;
  }

  lemma SameSequence(log: Log, x: EventId, y: EventId)
    requires Valid(log) && x in log.events && y in log.events
    requires x.of.origin == y.of.origin && x.of.sequence == y.of.sequence
    ensures x == y
  {
    hide Authentic, Chained, Causal, MembershipValid, TablesValid;
  }

  // ---- ingesting keeps the journal ---------------------------------------------------

  lemma IngestKeepsJournal(w: World, i: NodeId, db: Db, next: Log)
    requires Inv(w) && i in w.logs && db.self == i && db.log == w.logs[i] && JournalInv(db)
    requires Cut(w, next) && Covers(next, db.log) && TablesKept(db.log, next)
    ensures JournalInv(db.(log := next))
  {
    hide Inv, Valid, Covers, InInbox, TablesKept;
    var after := db.(log := next);
    forall c | Targets(next, c, i) ensures StatusIn(next, c) == StatusIn(db.log, c) {
      OwnReceipts(w, i, next, c);
    }
    forall c | c in next.receipts && Targets(next, c, i) ensures InInbox(db.inbox, c) {
      OwnReceipts(w, i, next, c);
      LatestReceipt(db.log, c);
      CommandKept(db.log, next, c);
    }
    forall c | Targets(db.log, c, i) ensures Targets(next, c, i) {
      CommandKept(db.log, next, c);
    }
  }

  lemma CommandKept(a: Log, b: Log, c: CommandId)
    requires TablesKept(a, b) && c in a.commands
    ensures c in b.commands && b.commands[c] == a.commands[c]
  {
  }

  lemma IngestLater(db: Db, next: Log)
    requires TablesKept(db.log, next) && Remembered(db)
    ensures Later(db, db.(log := next)) && Remembered(db.(log := next))
  {
  }

  /** A delivered batch keeps a node's invariant and touches nothing of its journal. */
  lemma {:induction false} IngestKeepsNode(w: World, i: NodeId, node: Node, events: seq<Event>)
    requires Inv(w) && i in w.logs && node.db.log == w.logs[i] && NodeInv(i, node)
    requires Deliverable(w, node.db.log, events) && InsertAll(node.db.log, events).Ok?
    ensures var next := InsertAll(node.db.log, events).value;
      Cut(w, next) && Covers(next, node.db.log) && NodeInv(i, node.(db := node.db.(log := next)))
      && Later(node.db, node.db.(log := next)) && forall e :: e in events ==> e.id in next.events
  {
    hide WellBorn, InsertAll, Deliverable, JournalInv, Valid, History, Remembered, TablesKept, Later;
    var next := InsertAll(node.db.log, events).value;
    DeliveryKeepsCut(w, node.db.log, events);
    InsertAllKeepsValid(node.db.log, events);
    IngestKeepsTables(node.db.log, events);
    IngestKeepsJournal(w, i, node.db, next);
    IngestLater(node.db, next);
    JournalAgrees(node.db);
    JournalAgrees(node.db.(log := next));
    SameInbox(node, node.db.(log := next));
  }

  // ---- new nodes -------------------------------------------------------------------

  /** A database without any command for the identity can be its first. */
  lemma NewNodeInv(i: NodeId, log: Log)
    requires |i| == KEY_BYTES && Valid(log) && forall c :: c in log.commands ==> log.commands[c].command.target != i
    ensures NodeInv(i, NewNode(i, log))
  {
    hide Valid;
  }

  /** A database that never saw an identity's admission holds no command for it. */
  lemma NoCommandsBeforeAdmission(log: Log, i: NodeId)
    requires Valid(log) && forall id :: id in log.events ==> !Admits(id, i)
    ensures forall c :: c in log.commands ==> log.commands[c].command.target != i
  {
    hide ChainValid, Authored, LegacySound, RemovalsSound, CatalogRows, CatalogEvents, DeletionsSound, CommandEvents,
      ReceiptRows, ReceiptEvents, InventoryRows, InventoryEvents, ImportsSound, WellFormedCommand;
    forall c | c in log.commands ensures log.commands[c].command.target != i {
      assert log.commands[c].command.target in log.members;
    }
  }
}
