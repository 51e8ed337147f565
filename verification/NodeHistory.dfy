/**
 One node's history against its journal: how often each command was handed to
 the executor, given its state.  Every committed operation of the node keeps it.
 */
module NodeHistory {
  import opened Records
  import opened Admission
  import opened LogInvariant
  import opened World
  import opened Journal
  import opened JournalSteps
  import opened JournalInvariant
  import opened JournalOperations
  import opened JournalFairness
  import opened Submission
  import opened SubmissionIdempotence
  import opened System

  /** The commands that only look at the machine. */
  predicate Repeatable(kind: string) { kind in {"check", "diagnostics"} }

  /** How often a command was handed to the executor, given its state here. */
  predicate CountsOk(status: Option<Status>, repeatable: bool, started: nat, interrupted: nat) {
    match status
    case None => started == 0
    case Some(s) =>
      if s in {Queued, Held} then started <= interrupted && (!repeatable ==> started == 0)
      else started <= interrupted + 1 && (!repeatable ==> started <= 1)
  }

  predicate CountsAt(node: Node, c: CommandId) {
    var log := node.db.log;
    c in log.commands
    && CountsOk(StatusIn(log, c), Repeatable(log.commands[c].command.kind), node.started[c], node.interrupted[c])
  }

  /** The node was asked to accept the command, or accepted it itself because its delivery is deferred. */
  predicate Permitted(node: Node, c: CommandId) {
    || c in node.asked
    || (c in node.reconciled && c in node.db.log.commands && node.db.log.commands[c].command.delivery.Deferred?)
  }

  ghost predicate History(node: Node) {
    forall c ::
      var db := node.db;
      if InInbox(db.inbox, c)
      then Permitted(node, c) && CountsAt(node, c)
      else Runs(node, c) == 0
  }

  ghost predicate NodeInv(i: NodeId, node: Node) {
    node.db.self == i && JournalInv(node.db) && Remembered(node.db) && History(node)
  }

  // ---- operations that leave the inbox alone ---------------------------------

  /** With the inbox unchanged and agreement kept on both sides, no state changed. */
  lemma SameInbox(node: Node, next: Db)
    requires History(node) && Agrees(node.db) && Agrees(next)
    requires next.inbox == node.db.inbox && Later(node.db, next)
    ensures History(node.(db := next))
  {
    hide Repeatable;
    forall c | InInbox(next.inbox, c) ensures StatusIn(next.log, c) == StatusIn(node.db.log, c) {
      var k :| 0 <= k < |next.inbox| && next.inbox[k].id == c;
    }
  }

  lemma JournalAgrees(db: Db)
    requires JournalInv(db)
    ensures Agrees(db) && Distinct(db.inbox)
  {
    hide Sound, Agrees, Distinct, Covered;
  }

  /** What an operation must provide to be a committed step of a node. */
  ghost predicate NodeStep(i: NodeId, node: Node, appended: seq<EventId>, next: Node) {
    && NodeInv(i, next) && Grown(i, node.db.log, next.db.log, appended) && next.replicas == node.replicas
    && Later(node.db, next.db)
  }

  lemma LaterSelf(db: Db)
    ensures Later(db, db)
  {
  }

  lemma QuietStep(i: NodeId, node: Node, appended: seq<EventId>, next: Db)
    requires NodeInv(i, node) && Committed(node.db, appended, next)
    requires Later(node.db, next) && Remembered(next) && next.inbox == node.db.inbox
    ensures NodeStep(i, node, appended, node.(db := next))
  {
    hide JournalInv, Remembered, History, Grown, Later;
    JournalAgrees(node.db);
    JournalAgrees(next);
    SameInbox(node, next);
  }

  lemma PlainLater(db: Db, id: EventId, next: Db)
    requires Appended(db, id, next) && !id.of.body.ReceiptBody? && Remembered(db)
    ensures Later(db, next) && Remembered(next)
  {
    hide Sound, Extends, With, TopLamport;
    PlainTables(db.log, id);
  }

  lemma AppendStep(
      i: NodeId, node: Node, env: Env, body: Body, deps: seq<EventId>, commit: Commit<EventId>)
    requires NodeInv(i, node) && !body.ReceiptBody? && AppendBody(node.db, env, body, deps) == Ok(commit)
    ensures NodeStep(i, node, commit.appended, node.(db := commit.db))
  {
    hide JournalInv, History, Grown, AppendBody, Remembered, NodeStep;
    PlainAppendKeeps(node.db, env, body, deps, commit);
    PlainLater(node.db, commit.value, commit.db);
    AppendedInbox(node.db, commit.value, commit.db);
    QuietStep(i, node, commit.appended, commit.db);
  }

  lemma AppendedInbox(db: Db, id: EventId, next: Db)
    requires Appended(db, id, next)
    ensures next.inbox == db.inbox && next.submissions == db.submissions
  {
    hide Sound, Extends, With, TopLamport;
  }

  lemma {:induction false} SubmitInbox(db: Db, env: Env, r: Request, targets: seq<NodeId>)
    requires SubmitAll(db, env, r, targets).Ok?
    ensures SubmitAll(db, env, r, targets).value.db.inbox == db.inbox
    decreases |targets|
  {
    hide Append, Draft, CommandFor;
    if targets != [] {
      var body := CommandBody(CommandFor(db.log, env, r, targets[0]));
      var step := AppendBody(db, env, body, AdmissionOf(db.log, targets[0]));
      SubmitInbox(step.value.db, env, r, targets[1..]);
    }
  }

  lemma SubmitStepOfNode(i: NodeId, node: Node, env: Env, req: SubmitRequest, commit: Commit<seq<EventId>>)
    requires NodeInv(i, node) && CreateCommands(node.db, env, req) == Ok(commit)
    ensures NodeStep(i, node, commit.appended, node.(db := commit.db))
  {
    hide JournalInv, History, Grown, Remembered, NodeStep, ValidRequest, SubmitAll, Recall, Normal, Found;
    CreateKeeps(node.db, env, req, commit);
    var r := Normal(req);
    if r.submissionId !in node.db.submissions {
      SubmitInbox(node.db, env, r, r.machineIds);
    }
    QuietStep(i, node, commit.appended, commit.db);
  }

  lemma RetryStepOfNode(
      i: NodeId, node: Node, env: Env, id: CommandId, submission: string, commit: Commit<EventId>)
    requires NodeInv(i, node) && RetryCommand(node.db, env, id, submission) == Ok(commit)
    ensures NodeStep(i, node, commit.appended, node.(db := commit.db))
  {
    hide JournalInv, History, Grown, Remembered, NodeStep, Append, Draft, BlocksRetry;
    RetryKeeps(node.db, env, id, submission, commit);
    QuietStep(i, node, commit.appended, commit.db);
  }

  // ---- operations of the journal ------------------------------------------------

  lemma TablesLater(db: Db, next: Db)
    requires SameTables(db, next) && next.self == db.self && Remembered(db)
    ensures Later(db, next) && Remembered(next)
  {
  }

  /** Only what was asked for or reconciled grew, with a permission for id among it. */
  ghost predicate Permits(node: Node, next: Node, id: CommandId) {
    && next == node.(db := next.db, asked := next.asked, reconciled := next.reconciled)
    && node.asked <= next.asked && node.reconciled <= next.reconciled && Permitted(next, id)
  }

  lemma AcceptHistory(node: Node, id: CommandId, status: Status, next: Node)
    requires History(node) && Accepted(node.db, id, status, next.db) && id in node.db.log.commands
    requires Permits(node, next, id)
    ensures History(next)
  {
    hide Repeatable;
    forall c ensures InInbox(next.db.inbox, c) <==> InInbox(node.db.inbox, c) || c == id {
      if InInbox(node.db.inbox, c) {
        var k :| 0 <= k < |node.db.inbox| && node.db.inbox[k].id == c;
        assert next.db.inbox[k].id == c;
      }
      assert next.db.inbox[|node.db.inbox|].id == id;
    }
    hide InInbox;
  }

  lemma AcceptStep(i: NodeId, node: Node, env: Env, id: CommandId, commit: Commit<Receipt>, next: Node)
    requires NodeInv(i, node) && CommandRows(node.db.log) && Accept(node.db, env, id) == Ok(commit)
    requires next.db == commit.db && Permits(node, next, id)
    ensures NodeStep(i, node, commit.appended, next)
  {
    hide JournalInv, History, Grown, Remembered, Accept, Accepted, AcceptStatus, CommandRows, Permits;
    AcceptKeeps(node.db, env, id, commit);
    assert next.replicas == node.replicas by { PermitsShape(node, next, id); }
    if id in node.db.log.receipts {
      MorePermitted(node, next, id);
      LaterSelf(node.db);
    } else {
      var status := AcceptStatus(node.db.log.commands[id].command, env).0;
      AcceptHistory(node, id, status, next);
      AcceptTables(node.db, id, status, commit.db);
      TablesLater(node.db, commit.db);
    }
  }

  lemma PermitsShape(node: Node, next: Node, id: CommandId)
    requires Permits(node, next, id)
    ensures next.replicas == node.replicas
  {
  }

  lemma MorePermitted(node: Node, next: Node, id: CommandId)
    requires History(node) && Permits(node, next, id) && next.db == node.db
    ensures History(next)
  {
    hide Repeatable, CountsOk;
  }

  lemma AcceptTables(db: Db, id: CommandId, status: Status, next: Db)
    requires Accepted(db, id, status, next)
    ensures SameTables(db, next)
  {
  }

  lemma SameRowsInbox(db: Db, next: Db, c: CommandId)
    requires SameRows(db, next)
    ensures InInbox(next.inbox, c) <==> InInbox(db.inbox, c)
  {
    if InInbox(db.inbox, c) {
      var k :| 0 <= k < |db.inbox| && db.inbox[k].id == c;
      assert next.inbox[k].id == c;
    }
  }

  /** A history step that only changes states and counts of commands already in the inbox. */
  lemma CountsHistory(node: Node, next: Node)
    requires History(node) && SameRows(node.db, next.db) && next.db.log.commands == node.db.log.commands
    requires next.asked == node.asked && next.reconciled == node.reconciled
    requires forall c :: !InInbox(node.db.inbox, c) ==> Runs(next, c) == Runs(node, c)
    requires forall c :: InInbox(node.db.inbox, c) && CountsAt(node, c) ==> CountsAt(next, c)
    ensures History(next)
  {
    hide CountsAt, InInbox, SameRows;
    forall c ensures InInbox(next.db.inbox, c) <==> InInbox(node.db.inbox, c) { SameRowsInbox(node.db, next.db, c); }
  }

  /** The row the scan stopped at counts one start more; every other command's count and obligations stay. */
  lemma StartHistory(node: Node, env: Env, p: nat, value: Option<Command>, next: Db)
    requires History(node) && Distinct(node.db.inbox) && Agrees(node.db) && Agrees(next)
    requires SameRows(node.db, next) && SameTables(node.db, next)
    requires forall k :: 0 <= k < |node.db.inbox| ==> node.db.inbox[k].id in node.db.log.commands
    requires FairRows(node.db, env, p, value, next)
    requires p < |node.db.inbox| ==> value.Some? && value.value.id == node.db.inbox[p].id
    ensures History(node.(db := next, started := node.started + Handed(value)))
  {
    hide Repeatable, Eligible, Passed, History;
    var after := node.(db := next, started := node.started + Handed(value));
    forall c ensures after.started[c] == node.started[c]
        + if p < |node.db.inbox| && c == node.db.inbox[p].id then 1 else 0 {
      hide FairRows, Agrees, Distinct;
    }
    forall c | InInbox(node.db.inbox, c) && CountsAt(node, c) ensures CountsAt(after, c)
    {
      var k :| 0 <= k < |node.db.inbox| && node.db.inbox[k].id == c;
      assert next.inbox[k].id == c;
      assert StatusIn(next.log, c) == Some(next.inbox[k].state);
      assert StatusIn(node.db.log, c) == Some(node.db.inbox[k].state);
      assert k != p && p < |node.db.inbox| ==> node.db.inbox[p].id != c;
    }
    CountsHistory(node, after);
  }

  lemma StartStep(i: NodeId, node: Node, env: Env, commit: Commit<Option<Command>>)
    requires NodeInv(i, node) && Next(node.db, env) == Ok(commit)
    ensures NodeStep(i, node, commit.appended,
              node.(db := commit.db, started := node.started + Handed(commit.value)))
  {
    hide JournalInv, History, Grown, Remembered, Next, FairRows, SameTables, SameRows;
    NextKeeps(node.db, env, commit);
    var p := NextIsFair(node.db, env, commit);
    JournalAgrees(node.db);
    JournalAgrees(commit.db);
    if p < |node.db.inbox| { CommandRowId(node.db, node.db.inbox[p].id); }
    FairStop(node.db, env, p, commit.value, commit.db);
    StartHistory(node, env, p, commit.value, commit.db);
    TablesLater(node.db, commit.db);
  }

  lemma FairStop(db: Db, env: Env, p: nat, value: Option<Command>, next: Db)
    requires SameRows(db, next)
    requires forall k :: 0 <= k < |db.inbox| ==> db.inbox[k].id in db.log.commands
    requires p < |db.inbox| ==> db.log.commands[db.inbox[p].id].command.id == db.inbox[p].id
    requires FairRows(db, env, p, value, next)
    ensures value.Some? <==> p < |db.inbox|
    ensures p < |db.inbox| ==> value.value.id == db.inbox[p].id
  {
    hide Eligible, Passed;
  }

  /** A hand-out whose commit failed leaves the database as it was. */
  lemma LoseStep(i: NodeId, node: Node, env: Env, commit: Commit<Option<Command>>)
    requires NodeInv(i, node) && Next(node.db, env) == Ok(commit)
    ensures NodeInv(i, node.(lost := node.lost + Handed(commit.value)))
  {
    hide JournalInv, History, Remembered, Next, FairRows, SameRows, Grown;
    var p := NextIsFair(node.db, env, commit);
    JournalAgrees(node.db);
    if p < |node.db.inbox| { CommandRowId(node.db, node.db.inbox[p].id); }
    FairStop(node.db, env, p, commit.value, commit.db);
    LoseHistory(node, p, commit.value);
  }

  lemma LoseHistory(node: Node, p: nat, value: Option<Command>)
    requires History(node) && (value.Some? ==> p < |node.db.inbox| && value.value.id == node.db.inbox[p].id)
    ensures History(node.(lost := node.lost + Handed(value)))
  {
    hide Repeatable, CountsOk, History;
    var after := node.(lost := node.lost + Handed(value));
    assert value.Some? ==> InInbox(node.db.inbox, value.value.id);
    forall c | !InInbox(node.db.inbox, c) ensures Runs(after, c) == Runs(node, c) {
      assert value.Some? ==> value.value.id != c;
    }
    assert forall c :: CountsAt(node, c) ==> CountsAt(after, c);
    CountsHistory(node, after);
  }

  lemma FinishHistory(node: Node, c: CommandId, status: Status, next: Db)
    requires History(node) && Moved(node.db, c, status, next) && next.inbox == SetState(node.db.inbox, c, status)
    requires StatusIn(node.db.log, c) == Some(Running) && status in {Done, Failed, Unknown}
    ensures History(node.(db := next))
  {
    hide Repeatable, History;
    CountsHistory(node, node.(db := next));
  }

  lemma FinishStep(
      i: NodeId, node: Node, env: Env, c: Command, status: Status, message: string, details: Details,
      commit: Commit<Receipt>)
    requires NodeInv(i, node) && Complete(node.db, env, c, status, message, details) == Ok(commit)
    ensures NodeStep(i, node, commit.appended, node.(db := commit.db))
  {
    hide JournalInv, History, Grown, Remembered, Complete, Moved, TopLamport;
    CompleteKeeps(node.db, env, c, status, message, details, commit);
    FinishHistory(node, c.id, status, commit.db);
    MovedTables(node.db, c.id, status, commit.db);
    TablesLater(node.db, commit.db);
  }

  lemma MovedTables(db: Db, c: CommandId, status: Status, next: Db)
    requires Moved(db, c, status, next)
    ensures SameTables(db, next)
  {
  }

  lemma RestartHistory(node: Node, ids: seq<CommandId>, next: Db)
    requires History(node) && SameRows(node.db, next) && SameTables(node.db, next)
    requires Recovered(node.db, ids, next) && Halted(node.db, ids)
    ensures History(node.(db := next, interrupted := node.interrupted + multiset(ids)))
  {
    hide CountsAt, History, SameRows, SameTables, Recovered, Halted, InInbox;
    CommandsSame(node.db, next);
    var after := node.(db := next, interrupted := node.interrupted + multiset(ids));
    forall c | InInbox(node.db.inbox, c) && CountsAt(node, c) ensures CountsAt(after, c) {
      RestartCounts(node, ids, after, c);
    }
    CountsHistory(node, after);
  }

  lemma CommandsSame(db: Db, next: Db)
    requires SameTables(db, next)
    ensures next.log.commands == db.log.commands
  {
  }

  lemma TimesListed(ids: seq<CommandId>, c: CommandId)
    ensures if c in ids then multiset(ids)[c] >= 1 else multiset(ids)[c] == 0
  {
    assert c in ids <==> c in multiset(ids);
  }

  lemma RestartStatus(db: Db, ids: seq<CommandId>, next: Db, c: CommandId)
    requires Recovered(db, ids, next) && Halted(db, ids) && c in db.log.commands
    ensures if c in ids
            then StatusIn(db.log, c) == Some(Running)
                 && StatusIn(next.log, c) == Some(AfterCrash(db.log.commands[c].command.kind))
            else StatusIn(next.log, c) == StatusIn(db.log, c)
  {
    hide InInbox, AfterCrash;
    if c in ids { var k :| 0 <= k < |ids| && ids[k] == c; }
  }

  lemma RestartCounts(node: Node, ids: seq<CommandId>, after: Node, c: CommandId)
    requires CountsAt(node, c) && SameTables(node.db, after.db)
    requires Recovered(node.db, ids, after.db) && Halted(node.db, ids)
    requires after.started == node.started && after.interrupted == node.interrupted + multiset(ids)
    ensures CountsAt(after, c)
  {
    hide InInbox, SameTables, Recovered, Halted;
    CommandsSame(node.db, after.db);
    TimesListed(ids, c);
    RestartStatus(node.db, ids, after.db, c);
    assert after.interrupted[c] == node.interrupted[c] + multiset(ids)[c];
  }

  lemma RestartStep(i: NodeId, node: Node, env: Env, pendingUpdate: CommandId, commit: Commit<()>)
    requires NodeInv(i, node) && Recover(node.db, env, pendingUpdate) == Ok(commit)
    ensures NodeStep(i, node, commit.appended,
              node.(db := commit.db, interrupted := node.interrupted + multiset(RunningExcept(node.db, pendingUpdate))))
  {
    hide JournalInv, History, Grown, Remembered, Recover, Recovered, Halted, RunningExcept, SameTables, SameRows;
    RecoverKeeps(node.db, env, pendingUpdate, commit);
    RestartHistory(node, RunningExcept(node.db, pendingUpdate), commit.db);
    TablesLater(node.db, commit.db);
  }
}
