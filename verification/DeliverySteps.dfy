/** What an acceptance in the middle of a delivery does to the target and to the world. */
module DeliverySteps {
  import opened Records
  import opened Admission
  import opened LogInvariant
  import opened Convergence
  import opened World
  import opened CommandRules
  import opened Journal
  import opened JournalSteps
  import opened JournalProgress
  import opened Outputs
  import opened PeerSteps
  import StoreLoops
  import SystemInvariant

  /** Nothing, if the command was reported on before; otherwise one receipt and one inbox row. */
  ghost predicate NewRow(db: Db, id: CommandId, next: Db) {
    && id in next.log.receipts
    && (next == db || exists e :: AppendsRow(db, e, id, next))
  }

  ghost predicate AppendsRow(db: Db, e: EventId, id: CommandId, next: Db) {
    && Extends(db.self, db.log, e) && next.log == With(db.log, Signed(e.of)) && id !in db.log.receipts
    && e.of.body.ReceiptBody? && OutputFinal(e.of.body.receipt)
    && exists state :: next.inbox == db.inbox + [InboxRow(id, state)]
  }

  lemma AcceptAppends(db: Db, env: Env, id: CommandId, commit: Commit<Receipt>)
    requires Sound(db) && Accept(db, env, id) == Ok(commit)
    ensures NewRow(db, id, commit.db)
  {
    hide Sound, AppendReceipt, Extends, With, TopLamport, ValidKind, ValidDiagnostics, InInbox;
    if id !in db.log.receipts {
      var c := db.log.commands[id].command;
      var (status, message) := AcceptStatus(c, env);
      var inner := AppendReceipt(db, env, c, status, message, NO_DETAILS).value;
      AppendReceiptEffect(db, env, c, status, message, NO_DETAILS, inner);
      var e := inner.appended[0];
      ReceiptTables(db.log, e);
      CommandIdIs(db, id);
      assert AppendsRow(db, e, id, commit.db);
    }
  }

  lemma CommandIdIs(db: Db, id: CommandId)
    requires Sound(db) && id in db.log.commands
    ensures db.log.commands[id].command.id == id
  {
    hide Valid;
    StoreLoops.ValidKeyed(db.log);
    StoreLoops.RowCommandId(db.log, id);
  }

  /** The world after the acceptance: the target's receipt was born on top of what it held. */
  lemma WorldAfterAccept(w: World, db: Db, next: Db, id: CommandId) returns (w': World)
    requires Inv(w) && db.self in w.logs && w.logs[db.self] == db.log && NewRow(db, id, next)
    ensures Inv(w') && Cut(w', next.log) && Grows(w, w') && Covers(next.log, db.log)
    ensures Peaceful(w) ==> Peaceful(w')
  {
    hide OutputFinal, Cut, WellBorn, Extends, With, Covers, Grows, Valid;
    if next == db {
      w' := w;
      CoversSelf(db.log);
      SystemInvariant.GrowsRefl(w);
    } else {
      var e :| AppendsRow(db, e, id, next);
      w' := AppendTo(w, db.self, e);
      AppendKeepsInv(w, db.self, e);
      assert w'.logs[db.self] == next.log;
      GrowsCovers(w, w', db.self);
    }
  }

  // ---- when a delivery is answered ---------------------------------------------------

  /** What must hold at the start: the command is for the target, nobody who submitted it is known removed. */
  ghost predicate Addressed(mine: Log, theirs: Log, target: NodeId, id: CommandId) {
    && id in mine.commands && mine.commands[id].command.target == target
    && forall x :: (x in mine.events || x in theirs.events) && Submits(x, id) ==>
         x.of.origin !in mine.removals && x.of.origin !in theirs.removals
  }

  /** The target has answered before, or it has no row for the command and its answer will fit. */
  ghost predicate CanAnswer(mine: Log, theirs: Db, env: Env, id: CommandId)
    requires id in mine.commands
  {
    || id in theirs.log.receipts
    || (!InInbox(theirs.inbox, id) && TopLamport(mine) < INT64_MAX && TopLamport(theirs.log) < INT64_MAX
        && env.encodedLength(ReceiptBody(AcceptReceipt(mine, env, id))) <= 1048576)
  }

  /** The target's database after it took everything: the command is there, and whoever submitted it is active. */
  lemma CommandArrived(log: Log, mine: Log, theirs: Log, target: NodeId, id: CommandId)
    requires Valid(log) && Valid(mine) && Valid(theirs) && Between(log, theirs, mine) && Covers(log, mine)
    requires Addressed(mine, theirs, target, id)
    ensures id in log.commands && log.commands[id].command == mine.commands[id].command
    ensures Active(log, log.commands[id].event.of.origin)
  {
    hide Valid, Deliverable;
    RowHeld(mine, id);
    assert mine.commands[id].event in log.events;
    EventRow(log, mine.commands[id].event);
    RowHeld(log, id);
    SubmitterActive(log, mine, theirs, log.commands[id].event, target, id);
  }

  lemma RowHeld(log: Log, id: CommandId)
    requires Valid(log) && id in log.commands
    ensures var row := log.commands[id];
      row.event in log.events && Submits(row.event, id) && row.event.of.body.command == row.command
  {
    hide ChainValid, MembershipValid, CatalogRows, CatalogEvents, DeletionsSound, CommandEvents, ReceiptRows,
      ReceiptEvents, InventoryRows, InventoryEvents, ImportsSound, WellFormedCommand;
  }

  lemma EventRow(log: Log, e: EventId)
    requires Valid(log) && e in log.events && e.of.body.CommandBody?
    ensures e.of.body.command.id in log.commands
    ensures log.commands[e.of.body.command.id].command == e.of.body.command
  {
    hide ChainValid, MembershipValid, CatalogRows, CatalogEvents, DeletionsSound, CommandRows, ReceiptRows,
      ReceiptEvents, InventoryRows, InventoryEvents, ImportsSound, WellFormedCommand;
  }

  lemma SubmitterActive(log: Log, mine: Log, theirs: Log, e: EventId, target: NodeId, id: CommandId)
    requires Valid(log) && Valid(mine) && Valid(theirs) && Between(log, theirs, mine)
    requires Addressed(mine, theirs, target, id) && e in log.events && Submits(e, id)
    ensures Active(log, e.of.origin)
  {
    hide Valid, Active;
    var m := e.of.origin;
    AuthorAdmitted(log, e);
    ActiveMeans(log, m);
    if r :| r in log.events && Removes(r, m) {
      if r in theirs.events { RemovalHeld(theirs, r, m); } else { RemovalHeld(mine, r, m); }
    }
  }

  lemma AuthorAdmitted(log: Log, e: EventId)
    requires Valid(log) && e in log.events
    ensures exists x :: x in log.events && Admits(x, e.of.origin)
  {
    hide ChainValid, TablesValid, LegacySound, RemovalsSound, Founded, SameMember, WellFormedMember;
    assert Known(log, e.of.origin);
    assert log.members[e.of.origin].admission in log.events;
  }

  lemma TopBetween(log: Log, a: Log, b: Log)
    requires Between(log, a, b) && TopLamport(a) < INT64_MAX && TopLamport(b) < INT64_MAX
    ensures TopLamport(log) < INT64_MAX
  {
  }

  /** So a target that has taken everything and has both nodes for active accepts the command. */
  lemma TargetAccepts(mine: Log, theirs: Db, db: Db, env: Env, id: CommandId)
    requires Valid(mine) && Valid(theirs.log) && Sound(db) && Between(db.log, theirs.log, mine) && Covers(db.log, mine)
    requires db.self == theirs.self && db.inbox == theirs.inbox && Active(db.log, db.self)
    requires Addressed(mine, theirs.log, db.self, id) && CanAnswer(mine, theirs, env, id)
    ensures Accept(db, env, id).Ok?
  {
    hide Valid, Between, Covers, Deliverable, AppendReceipt, AcceptStatus, TopLamport, InInbox, Active;
    assert Valid(db.log);
    CommandArrived(db.log, mine, theirs.log, db.self, id);
    BetweenCovers(db.log, theirs.log, mine);
    ReceiptStays(theirs.log, db.log, id);
    if id !in db.log.receipts {
      TopBetween(db.log, theirs.log, mine);
      CommandIdIs(db, id);
      var c := db.log.commands[id].command;
      AcceptMeans(c, env);
      var (status, message) := AcceptStatus(c, env);
      AppendReceiptOutcome(db, env, c, status, message, NO_DETAILS);
    }
  }

  lemma BetweenCovers(log: Log, a: Log, b: Log)
    requires Between(log, a, b)
    ensures Covers(log, a)
  {
  }

  /** An acceptance leaves one event at most for the way back, and the members as they are. */
  lemma OneToReturn(mine: Log, db: Db, next: Db, id: CommandId)
    requires SameEvents(mine, db.log) && NewRow(db, id, next)
    ensures Gap(next.log, mine) <= 1 && Gap(mine, next.log) == 0 && next.log.members == db.log.members
  {
    hide Extends, OutputFinal;
    if next != db {
      var e :| AppendsRow(db, e, id, next);
      ReceiptTables(db.log, e);
      assert next.log.events.Keys == db.log.events.Keys + {e};
      assert next.log.events.Keys - mine.events.Keys <= {e};
      Smaller(next.log.events.Keys - mine.events.Keys, {e});
    } else {
      assert next.log.events.Keys - mine.events.Keys == {};
    }
    assert mine.events.Keys - next.log.events.Keys == {};
  }

  lemma GrowsCovers(w: World, w': World, i: NodeId)
    requires Grows(w, w') && i in w.logs
    ensures i in w'.logs && Covers(w'.logs[i], w.logs[i])
  {
    hide Covers;
  }

  lemma NewRowInbox(db: Db, next: Db, id: CommandId)
    requires NewRow(db, id, next)
    ensures id in next.log.receipts
    ensures next.inbox == db.inbox || exists state :: next.inbox == db.inbox + [InboxRow(id, state)]
    ensures id in db.log.receipts ==> next.inbox == db.inbox
  {
    hide Extends, With;
  }

  /** A command once reported on stays so. */
  lemma ReceiptStays(log: Log, later: Log, id: CommandId)
    requires Valid(log) && Valid(later) && Covers(later, log)
    ensures id in log.receipts ==> id in later.receipts
  {
    hide ChainValid, MembershipValid, CatalogRows, CatalogEvents, DeletionsSound, CommandRows, CommandEvents,
      InventoryRows, InventoryEvents, ImportsSound;
    if id in log.receipts { assert log.receipts[id].event in later.events; }
  }

  lemma ReceiptsEqual(a: Log, b: Log)
    requires Converged(a, b)
    ensures a.receipts == b.receipts
  {
    hide SameMembership, SameCommands, LastSequence;
  }
}
