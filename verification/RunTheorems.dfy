/** What holds in every reachable state of the mesh, and from any such state on. */
module RunTheorems {
  import opened Records
  import opened Admission
  import opened LogInvariant
  import opened Convergence
  import opened World
  import opened LocalAppend
  import AdmissionRules
  import SubmissionRules
  import opened Exchange
  import opened Journal
  import opened JournalSteps
  import opened JournalInvariant
  import opened JournalOperations
  import opened JournalFairness
  import opened JournalProgress
  import Outputs
  import opened System
  import opened NodeHistory
  import opened Authority
  import opened SystemInvariant
  import opened SystemSteps

  // ---- replication ------------------------------------------------------------------

  /**
   Whatever was ever exported to a node is ingested in full whenever it arrives: late, twice, after other batches, and
   although it was cut off against cursors the node had long ago.
   */
  lemma {:induction false} MailIsAccepted(fleet: string, steps: seq<Step>, m: Message)
    requires var s := Run(fleet, steps); m in s.mail && NoConflicts(WorldOf(s))
    ensures var s := Run(fleet, steps); m.to in s.nodes && Ingest(s.nodes[m.to].db.log, m.events).Ok?
  {
    hide Run, SystemInv, NodeInv, Cut, Inv, NetInv, ReplicasSound, PathsLegal, Valid, CommandRows, Deliverable,
      NoConflicts, InsertAll;
    RunKeeps(fleet, steps);
    var s := Run(fleet, steps);
    var w := WorldOf(s);
    NetOf(s);
    MailOf(w, s, m);
    NodeOf(s, m.to);
    DeliveryAccepted(w, s.nodes[m.to].db.log, m.events);
  }

  lemma NetOf(s: System)
    requires SystemInv(s)
    ensures NetInv(WorldOf(s), s) && Inv(WorldOf(s))
  {
    hide NetInv, Inv, NodesInv, AllReplicasSound, PathsLegal;
  }

  /**
   ... and in general exactly when no event of it contradicts a record of the same execution ID or alias that is there
   by then.
   */
  lemma {:induction false} MailIsAcceptedIff(fleet: string, steps: seq<Step>, m: Message)
    requires m in Run(fleet, steps).mail
    ensures var s := Run(fleet, steps);
      m.to in s.nodes && (Ingest(s.nodes[m.to].db.log, m.events).Ok? <==> Unopposed(s.nodes[m.to].db.log, m.events))
  {
    hide Run, SystemInv, NodeInv, Cut, Inv, NetInv, ReplicasSound, PathsLegal, Valid, CommandRows, Deliverable,
      Unopposed, InsertAll;
    RunKeeps(fleet, steps);
    var s := Run(fleet, steps);
    NetOf(s);
    MailOf(WorldOf(s), s, m);
    NodeOf(s, m.to);
    AcceptedIffUnopposed(WorldOf(s), s.nodes[m.to].db.log, m.events);
  }

  /**
   A collision of execution IDs never heals: once a node holds a command, it refuses, then and ever after, every batch
   with an event that submits another command under that ID.
   */
  lemma {:induction false} CollisionBlocksForever(
      fleet: string, before: seq<Step>, after: seq<Step>, i: NodeId, c: CommandId, e: Event, batch: seq<Event>)
    requires i in Run(fleet, before).nodes && c in Run(fleet, before).nodes[i].db.log.commands && e in batch
    requires Submits(e.id, c) && e.id.of.body.command != Run(fleet, before).nodes[i].db.log.commands[c].command
    ensures i in Run(fleet, before + after).nodes && Ingest(Run(fleet, before + after).nodes[i].db.log, batch).Err?
  {
    hide Run, SystemInv, NodeInv, Cut, Inv, NetInv, ReplicasSound, PathsLegal, Valid, InsertAll, Grows;
    RunKeeps(fleet, before + after);
    RunGrows(fleet, before, after);
    assert SubmissionIdempotence.Later(Run(fleet, before).nodes[i].db, Run(fleet, before + after).nodes[i].db);
    NodeOf(Run(fleet, before + after), i);
    CollisionBlocks(Run(fleet, before + after).nodes[i].db.log, c, e, batch);
  }

  lemma CollisionBlocks(log: Log, c: CommandId, e: Event, batch: seq<Event>)
    requires c in log.commands && e in batch && Submits(e.id, c) && e.id.of.body.command != log.commands[c].command
    requires Valid(log)
    ensures Ingest(log, batch).Err?
  {
    hide Valid, InsertAll, TablesKept;
    if InsertAll(log, batch).Ok? {
      var next := InsertAll(log, batch).value;
      InsertAllKeepsValid(log, batch);
      IngestKeepsTables(log, batch);
      CommandKept(log, next, c);
      CommandHeldIs(next, e.id);
    }
  }

  lemma CommandHeldIs(log: Log, id: EventId)
    requires Valid(log) && id in log.events && id.of.body.CommandBody?
    ensures id.of.body.command.id in log.commands
    ensures log.commands[id.of.body.command.id].command == id.of.body.command
  {
    hide ChainValid, MembershipValid, CatalogRows, CatalogEvents, DeletionsSound, CommandRows, ReceiptRows,
      ReceiptEvents, InventoryRows, InventoryEvents, ImportsSound;
  }

  /** Whoever holds an event holds everything its origin held when it made it, with smaller Lamport counters. */
  lemma {:induction false} PastIsHeld(fleet: string, steps: seq<Step>, i: NodeId, id: EventId, d: EventId)
    requires var s := Run(fleet, steps); i in s.nodes && id in s.nodes[i].db.log.events && id in s.born
    requires d in Run(fleet, steps).born[id].events
    ensures d in Run(fleet, steps).nodes[i].db.log.events && d.of.lamport < id.of.lamport
  {
    hide Run, SystemInv, NodeInv, Cut, Inv, NetInv, ReplicasSound, PathsLegal, Valid, CommandRows;
    RunKeeps(fleet, steps);
    var s := Run(fleet, steps);
    NodeOf(s, i);
    HappensBefore(WorldOf(s), s.nodes[i].db.log, id, d);
  }

  /** Every held event was made by a node of this world and is in that node's own database. */
  lemma {:induction false} SingleWriter(fleet: string, steps: seq<Step>, i: NodeId, id: EventId)
    requires var s := Run(fleet, steps); i in s.nodes && id in s.nodes[i].db.log.events
    ensures var s := Run(fleet, steps);
      id in s.born && id.of.origin in s.nodes && id in s.nodes[id.of.origin].db.log.events
  {
    hide Run, SystemInv, NodeInv, Inv, NetInv, ReplicasSound, PathsLegal, Valid, CommandRows, Covers;
    RunKeeps(fleet, steps);
    var s := Run(fleet, steps);
    NodeOf(s, i);
    OriginHolds(WorldOf(s), s.nodes[i].db.log, id);
  }

  /** Whatever any node holds under a member's name is signed with the key of that member's admission. */
  lemma {:induction false} HeldIsSigned(fleet: string, steps: seq<Step>, i: NodeId, id: EventId)
    requires var s := Run(fleet, steps); i in s.nodes && id in s.nodes[i].db.log.events
    ensures var log := Run(fleet, steps).nodes[i].db.log; var e := log.events[id];
      && e.id == id == Hash(e.content) && e.content.origin in log.members
      && e.content.origin == Digest(e.content.publicKey)
      && e.signature == Signature(log.members[e.content.origin].member.publicKey, e.content)
      && e.content.version == 2 && e.content.bodyLength <= 1048576 && |e.content.dependencies| <= 64
      && 1 <= e.content.sequence <= 9223372036854775807 && 1 <= e.content.lamport <= 9223372036854775807
  {
    hide Run, SystemInv, NodeInv, Inv, NetInv, ReplicasSound, PathsLegal, Valid, CommandRows, Cut;
    RunKeeps(fleet, steps);
    NodeOf(Run(fleet, steps), i);
    AdmissionRules.HeldIsGenuine(Run(fleet, steps).nodes[i].db.log, id);
  }

  /** Replica rows are sound: the named peer has committed the named event. */
  lemma {:induction false} ReplicaRowsAreTrue(fleet: string, steps: seq<Step>, i: NodeId, id: EventId, peer: NodeId)
    requires var s := Run(fleet, steps); i in s.nodes && (id, peer) in s.nodes[i].replicas
    ensures var s := Run(fleet, steps); peer in s.nodes && id in s.nodes[peer].db.log.events
  {
    hide Run, SystemInv, NodeInv, Inv, NetInv, PathsLegal, Valid, CommandRows, Cut;
    RunKeeps(fleet, steps);
    var s := Run(fleet, steps);
    NodeOf(s, i);
    assert (id, peer).0 == id && (id, peer).1 == peer;
  }

  /** Two nodes that hold the same events agree on everything the events determine. */
  lemma {:induction false} NodesConverge(fleet: string, steps: seq<Step>, i: NodeId, j: NodeId)
    requires var s := Run(fleet, steps);
      i in s.nodes && j in s.nodes && SameEvents(s.nodes[i].db.log, s.nodes[j].db.log)
    ensures Converged(Run(fleet, steps).nodes[i].db.log, Run(fleet, steps).nodes[j].db.log)
  {
    hide Run, SystemInv, NodeInv, Cut, Inv, NetInv, ReplicasSound, PathsLegal, Valid, CommandRows, SameEvents,
      Converged;
    RunKeeps(fleet, steps);
    var s := Run(fleet, steps);
    NodeOf(s, i);
    NodeOf(s, j);
    SameEventsConverge(s.nodes[i].db.log, s.nodes[j].db.log);
  }

  /** Cursors say exactly which events a node holds. */
  lemma {:induction false} CursorsTellAll(fleet: string, steps: seq<Step>, i: NodeId, id: EventId)
    requires i in Run(fleet, steps).nodes && id in Run(fleet, steps).born
    ensures var log := Run(fleet, steps).nodes[i].db.log;
      id in log.events <==> id.of.sequence <= LastSequence(log, id.of.origin)
  {
    hide Run, SystemInv, NodeInv, Cut, Inv, NetInv, ReplicasSound, PathsLegal, Valid, CommandRows, LastSequence;
    RunKeeps(fleet, steps);
    NodeOf(Run(fleet, steps), i);
    CursorMeaning(WorldOf(Run(fleet, steps)), Run(fleet, steps).nodes[i].db.log, id);
  }

  /** What a node appends is refused only for the reasons `Outcome` lists: never for its place in the log. */
  lemma {:induction false} AppendsFit(
      fleet: string, steps: seq<Step>, i: NodeId, env: Env, body: Body, deps: seq<EventId>)
    requires i in Run(fleet, steps).nodes
    ensures var log := Run(fleet, steps).nodes[i].db.log;
      Append(log, i, env, body, deps) == Outcome(log, i, env, body, deps)
  {
    hide Run, SystemInv, Cut, Inv, NetInv, ReplicasSound, PathsLegal, Valid, CommandRows, Append, Outcome, Extends,
      SubmissionIdempotence.Remembered, History, Distinct, Agrees, Covered;
    RunKeeps(fleet, steps);
    NodeOf(Run(fleet, steps), i);
    AppendOutcome(Run(fleet, steps).nodes[i].db.log, i, env, body, deps);
  }

  /** Only final receipts ever carry output, so no blob a node attaches can block a batch. */
  lemma {:induction false} OutputIsFinal(fleet: string, steps: seq<Step>)
    ensures Outputs.OutputsFinal(WorldOf(Run(fleet, steps)))
  {
    hide Run, Inv, NodesInv, NetInv, AllReplicasSound, LegalMove, OutputFinal;
    RunKeeps(fleet, steps);
    var w := WorldOf(Run(fleet, steps));
    forall id | id in w.born && id.of.body.ReceiptBody? ensures OutputFinal(id.of.body.receipt) {
      assert LegalReceipt(w.born[id], id);
    }
  }

  // ---- execution --------------------------------------------------------------------

  /**
   `Next` hands out only permitted commands, each at most once more than recovery found it running and its commit
   failed.
   A command that is neither a check nor a diagnostics run is handed out by a committed `Next` at most once; so it runs
   at most once if and only if no commit of `Next` failed after handing it out, or one did and nothing followed.
   */
  lemma {:induction false} AtMostOnce(fleet: string, steps: seq<Step>, i: NodeId, c: CommandId)
    requires i in Run(fleet, steps).nodes
    ensures var node := Run(fleet, steps).nodes[i];
      && Runs(node, c) <= 1 + node.interrupted[c] + node.lost[c]
      && (Runs(node, c) > 0 ==>
            && Permitted(node, c) && Targets(node.db.log, c, i)
            && (node.db.log.commands[c].command.kind !in {"check", "diagnostics"} ==>
                  && node.started[c] <= 1
                  && (Runs(node, c) <= 1 <==> node.lost[c] == 0 || (node.lost[c] == 1 && node.started[c] == 0))))
  {
    hide Run, SystemInv, Inv, NetInv, PathsLegal, Valid, CommandRows, Cut, ReplicasSound,
      SubmissionIdempotence.Remembered, JournalInv, Grown;
    RunKeeps(fleet, steps);
    var s := Run(fleet, steps);
    NodeOf(s, i);
    var node := s.nodes[i];
    JournalAgrees(node.db);
    if InInbox(node.db.inbox, c) {
      var k :| 0 <= k < |node.db.inbox| && node.db.inbox[k].id == c;
      assert CountsAt(node, c);
    }
  }

  /**
   The premise cannot be dropped: whenever `Next` hands out a command and its commit fails, the next call under the same
   clock hands it out again, and it has then run twice since.
   */
  lemma {:induction false} LostCommitRunsTwice(fleet: string, steps: seq<Step>, i: NodeId, env: Env)
    requires i in Run(fleet, steps).nodes
    ensures var result := Next(Run(fleet, steps).nodes[i].db, env);
      var later := Run(fleet, steps + [LoseNext(i, env), StartNext(i, env)]);
      result.Ok? && result.value.value.Some? ==>
        i in later.nodes
        && Runs(later.nodes[i], result.value.value.value.id)
             == Runs(Run(fleet, steps).nodes[i], result.value.value.value.id) + 2
  {
    hide Run, Next, Snapshots;
    assert steps + [LoseNext(i, env), StartNext(i, env)] == steps + [LoseNext(i, env)] + [StartNext(i, env)];
    RunSnoc(fleet, steps, LoseNext(i, env));
    RunSnoc(fleet, steps + [LoseNext(i, env)], StartNext(i, env));
  }

  /** A node's inbox is its own receipts: one row per command it reported on, in the state of the latest receipt. */
  lemma {:induction false} InboxIsLatestReceipts(fleet: string, steps: seq<Step>, i: NodeId, c: CommandId)
    requires i in Run(fleet, steps).nodes
    ensures var db := Run(fleet, steps).nodes[i].db;
      StateOf(db.inbox, c) == if Targets(db.log, c, i) then StatusIn(db.log, c) else None
  {
    hide Run, SystemInv, Inv, NetInv, PathsLegal, CommandRows, Cut, ReplicasSound, SubmissionIdempotence.Remembered,
      JournalInv, Grown, History, StateOf, Valid;
    RunKeeps(fleet, steps);
    var s := Run(fleet, steps);
    NodeOf(s, i);
    RowsAreReceipts(s.nodes[i].db, c);
  }

  lemma RowsAreReceipts(db: Db, c: CommandId)
    requires JournalInv(db)
    ensures StateOf(db.inbox, c) == if Targets(db.log, c, db.self) then StatusIn(db.log, c) else None
  {
    hide Sound, StateOf;
  }

  /**
   In every reachable state the journal's operations are refused only by the guards they report and by two limits,
   the Lamport counter and the length of the receipts they have to write: never by the terminal-receipt rule, and never
   for a row they depend on.
   */
  lemma {:induction false} JournalNeverStuck(
      fleet: string, steps: seq<Step>, i: NodeId, env: Env, pendingUpdate: CommandId, id: CommandId)
    requires i in Run(fleet, steps).nodes
    ensures var db := Run(fleet, steps).nodes[i].db;
      && (Next(db, env).Err? ==> AtCapacity(Next(db, env).error))
      && (Recover(db, env, pendingUpdate).Err? ==> AtCapacity(Recover(db, env, pendingUpdate).error))
      && (Accept(db, env, id).Err? && MayAccept(db, id) ==> AtCapacity(Accept(db, env, id).error))
  {
    hide Run, JournalInv, Next, Recover, Accept, NextFits, RecoverFits, AtCapacity, MayAccept, MayAnswer;
    JournalOf(fleet, steps, i);
    NextOutcome(Run(fleet, steps).nodes[i].db, env);
    RecoverOutcome(Run(fleet, steps).nodes[i].db, env, pendingUpdate);
    AcceptOutcome(Run(fleet, steps).nodes[i].db, env, id);
  }

  lemma JournalOf(fleet: string, steps: seq<Step>, i: NodeId)
    requires i in Run(fleet, steps).nodes
    ensures JournalInv(Run(fleet, steps).nodes[i].db) && Run(fleet, steps).nodes[i].db.self == i
  {
    hide Run, SystemInv, Inv, NetInv, PathsLegal, Valid, CommandRows, Cut, ReplicasSound,
      SubmissionIdempotence.Remembered, JournalInv, History;
    RunKeeps(fleet, steps);
    NodeOf(Run(fleet, steps), i);
  }

  /** In every reachable state `Next` commits if and only if the receipts of its scan fit. */
  lemma {:induction false} NextCommitsIff(fleet: string, steps: seq<Step>, i: NodeId, env: Env)
    requires i in Run(fleet, steps).nodes
    ensures Next(Run(fleet, steps).nodes[i].db, env).Ok? <==> NextFits(Run(fleet, steps).nodes[i].db, env)
  {
    hide Run, JournalInv, Next, NextFits, AtCapacity;
    JournalOf(fleet, steps, i);
    NextOutcome(Run(fleet, steps).nodes[i].db, env);
  }

  /** In every reachable state recovery commits if and only if the receipts it has to write fit. */
  lemma {:induction false} RecoveryCommitsIff(fleet: string, steps: seq<Step>, i: NodeId, env: Env, pending: CommandId)
    requires i in Run(fleet, steps).nodes
    ensures Recover(Run(fleet, steps).nodes[i].db, env, pending).Ok?
       <==> RecoverFits(Run(fleet, steps).nodes[i].db, env, pending)
  {
    hide Run, JournalInv, Recover, RecoverFits, AtCapacity;
    JournalOf(fleet, steps, i);
    RecoverOutcome(Run(fleet, steps).nodes[i].db, env, pending);
  }

  /** In every reachable state `Accept` succeeds if and only if its guards hold and its answer is there or fits. */
  lemma {:induction false} AcceptsIff(fleet: string, steps: seq<Step>, i: NodeId, env: Env, id: CommandId)
    requires i in Run(fleet, steps).nodes
    ensures var db := Run(fleet, steps).nodes[i].db;
      Accept(db, env, id).Ok? <==> (MayAccept(db, id) && MayAnswer(db.log, env, id))
  {
    hide Run, JournalInv, Accept, MayAnswer, AtCapacity;
    JournalOf(fleet, steps, i);
    AcceptOutcome(Run(fleet, steps).nodes[i].db, env, id);
  }

  /** In every reachable state a result is recorded if and only if its command is running and its receipt fits. */
  lemma {:induction false} ResultsAreRecorded(
      fleet: string, steps: seq<Step>, i: NodeId, env: Env, c: Command, status: Status, message: string,
      details: Details)
    requires i in Run(fleet, steps).nodes
    requires var commands := Run(fleet, steps).nodes[i].db.log.commands;
      c.id in commands ==> commands[c.id].command == c
    ensures var db := Run(fleet, steps).nodes[i].db;
      var receipt := ReceiptFor(c, env, status, message, details);
      Complete(db, env, c, status, message, details).Ok?
      <==> (MayComplete(db, c.id, status) && Fits(db.log, env, receipt))
  {
    hide Run, SystemInv, Inv, NetInv, PathsLegal, Valid, CommandRows, Cut, ReplicasSound,
      SubmissionIdempotence.Remembered, JournalInv, Grown, Complete, History, MayComplete, Fits;
    RunKeeps(fleet, steps);
    NodeOf(Run(fleet, steps), i);
    CompleteOutcome(Run(fleet, steps).nodes[i].db, env, c, status, message, details);
  }

  /**
   In every reachable state recovery queues again exactly the checks and diagnostics runs it finds running, apart from
   the pending update, and reports everything else it finds running unknown.
   */
  lemma {:induction false} RecoveryByKind(
      fleet: string, steps: seq<Step>, i: NodeId, env: Env, pendingUpdate: CommandId)
    requires i in Run(fleet, steps).nodes
    ensures var db := Run(fleet, steps).nodes[i].db; var result := Recover(db, env, pendingUpdate);
      result.Ok? ==> RecoveredRows(db, pendingUpdate, result.value.db)
  {
    hide Run, JournalInv, Recover, RecoveredRows, Recovered, Halted, Committed, SameTables, SameRows, RunningExcept;
    JournalOf(fleet, steps, i);
    var db := Run(fleet, steps).nodes[i].db;
    var result := Recover(db, env, pendingUpdate);
    if result.Ok? { RecoverKeeps(db, env, pendingUpdate, result.value); }
  }

  /** What must hold at the moment a command is handed to the executor. */
  ghost predicate MayRun(node: Node, i: NodeId, env: Env, c: Command) {
    && c.id in node.db.log.commands && node.db.log.commands[c.id].command == c && c.target == i
    && Permitted(node, c.id)
    && Eligible(node.db.log, env, c.id)
    && (c.kind !in {"check", "diagnostics"} ==> node.started[c.id] == 0)
  }

  /** Whatever `Next` returns may run. */
  lemma {:induction false} OnlyPermittedRuns(fleet: string, steps: seq<Step>, i: NodeId, env: Env)
    requires i in Run(fleet, steps).nodes
    ensures var node := Run(fleet, steps).nodes[i]; var result := Next(node.db, env);
      result.Ok? && result.value.value.Some? ==> MayRun(node, i, env, result.value.value.value)
  {
    hide Run, SystemInv, Inv, NetInv, PathsLegal, Valid, CommandRows, Cut, ReplicasSound,
      SubmissionIdempotence.Remembered, JournalInv, Grown, Next, MayRun;
    RunKeeps(fleet, steps);
    var s := Run(fleet, steps);
    NodeOf(s, i);
    if Next(s.nodes[i].db, env).Ok? { PermittedHere(s.nodes[i], i, env, Next(s.nodes[i].db, env).value); }
  }

  lemma PermittedHere(node: Node, i: NodeId, env: Env, commit: Commit<Option<Command>>)
    requires NodeInv(i, node) && Next(node.db, env) == Ok(commit)
    ensures commit.value.Some? ==> MayRun(node, i, env, commit.value.value)
  {
    hide SubmissionIdempotence.Remembered, JournalInv, Grown, Next, FairRows, SameRows, MayRun;
    var p := NextIsFair(node.db, env, commit);
    FairEnd(node.db, env, p, commit.value, commit.db);
    if p < |node.db.inbox| {
      var id := node.db.inbox[p].id;
      CommandRowId(node.db, id);
      JournalAgrees(node.db);
      assert InInbox(node.db.inbox, id);
      RunningIsPermitted(node, i, env, commit.value.value, p);
    }
  }

  /** Position p of the inbox is where a fair scan stopped. */
  ghost predicate FairChoice(db: Db, env: Env, p: nat, value: Option<Command>, next: Db) {
    && SameRows(db, next) && (forall k :: 0 <= k < |db.inbox| ==> db.inbox[k].id in db.log.commands)
    && FairRows(db, env, p, value, next)
  }

  /**
   In every reachable state `Next` is a fair scan in acceptance order, and it returns nothing if and only if no waiting
   command may run.
   */
  lemma {:induction false} NextIsAlwaysFair(fleet: string, steps: seq<Step>, i: NodeId, env: Env)
    requires i in Run(fleet, steps).nodes
    ensures var db := Run(fleet, steps).nodes[i].db; var result := Next(db, env);
      result.Ok? ==>
        && (exists p :: FairChoice(db, env, p, result.value.value, result.value.db))
        && (result.value.value.None? <==>
              forall k :: 0 <= k < |db.inbox| && db.inbox[k].state in {Queued, Held} ==>
                !(db.inbox[k].id in db.log.commands && Eligible(db.log, env, db.inbox[k].id)))
  {
    hide Run, SystemInv, Inv, NetInv, PathsLegal, Valid, CommandRows, Cut, ReplicasSound,
      SubmissionIdempotence.Remembered, JournalInv, Grown, Next, FairRows, SameRows, History, Eligible;
    RunKeeps(fleet, steps);
    var s := Run(fleet, steps);
    NodeOf(s, i);
    var db := s.nodes[i].db;
    var result := Next(db, env);
    if result.Ok? {
      var p := NextIsFair(db, env, result.value);
      assert FairChoice(db, env, p, result.value.value, result.value.db);
    }
  }

  lemma FairEnd(db: Db, env: Env, p: nat, value: Option<Command>, next: Db)
    requires SameRows(db, next)
    requires forall k :: 0 <= k < |db.inbox| ==> db.inbox[k].id in db.log.commands
    requires FairRows(db, env, p, value, next)
    ensures value.Some? ==> p < |db.inbox|
    ensures p < |db.inbox| ==>
      && Waiting(db.inbox[p].state) && value == Some(db.log.commands[db.inbox[p].id].command)
      && Eligible(db.log, env, db.inbox[p].id)
  {
    hide Eligible, Passed;
  }

  lemma RunningIsPermitted(node: Node, i: NodeId, env: Env, c: Command, p: nat)
    requires node.db.self == i && Agrees(node.db) && History(node) && p < |node.db.inbox|
    requires node.db.inbox[p].id == c.id && InInbox(node.db.inbox, c.id) && Waiting(node.db.inbox[p].state)
    requires c.id in node.db.log.commands && node.db.log.commands[c.id].command == c
    requires Eligible(node.db.log, env, c.id)
    ensures MayRun(node, i, env, c)
  {
    assert CountsAt(node, c.id);
  }

  // ---- removal and restore ---------------------------------------------------------------

  /** A removed member stays removed in every later state, whatever admissions arrive. */
  lemma {:induction false} RemovalIsPermanent(fleet: string, before: seq<Step>, after: seq<Step>, i: NodeId, m: NodeId)
    requires i in Run(fleet, before).nodes
    ensures var s, s' := Run(fleet, before), Run(fleet, before + after);
      i in s'.nodes && (m in s.nodes[i].db.log.removals ==>
                          m in s'.nodes[i].db.log.removals && !Active(s'.nodes[i].db.log, m))
  {
    hide Run, SystemInv, NodeInv, Inv, NetInv, PathsLegal, Valid, CommandRows, Cut, ReplicasSound, Active;
    RunKeeps(fleet, before);
    RunKeeps(fleet, before + after);
    RunGrows(fleet, before, after);
    var s, s' := Run(fleet, before), Run(fleet, before + after);
    assert i in WorldOf(s).logs;
    NodeOf(s, i);
    NodeOf(s', i);
    RemovalKept(s.nodes[i].db.log, s'.nodes[i].db.log, m);
  }

  lemma RemovalKept(log: Log, later: Log, m: NodeId)
    requires Valid(log) && Valid(later) && Covers(later, log)
    ensures m in log.removals ==> m in later.removals && !Active(later, m)
  {
    hide ChainValid, TablesValid, Authored, LegacySound;
    if m in log.removals {
      var x :| x in log.events && Removes(x, m);
      assert x in later.events;
    }
  }

  lemma {:induction false} DeletionIsPermanent(fleet: string, before: seq<Step>, after: seq<Step>, i: NodeId, k: string)
    requires i in Run(fleet, before).nodes && k in Run(fleet, before).nodes[i].db.log.catalog
    ensures var s, s' := Run(fleet, before), Run(fleet, before + after);
      && i in s'.nodes && k in s'.nodes[i].db.log.catalog
      && (s.nodes[i].db.log.catalog[k].removed ==> s'.nodes[i].db.log.catalog[k].removed)
  {
    hide Run, SystemInv, NodeInv, Inv, NetInv, PathsLegal, Valid, CommandRows, Cut, ReplicasSound;
    RunKeeps(fleet, before);
    RunKeeps(fleet, before + after);
    RunGrows(fleet, before, after);
    var s, s' := Run(fleet, before), Run(fleet, before + after);
    assert i in WorldOf(s).logs;
    NodeOf(s, i);
    NodeOf(s', i);
    DeletionKept(s.nodes[i].db.log, s'.nodes[i].db.log, k);
  }

  lemma DeletionKept(log: Log, later: Log, k: string)
    requires k in log.catalog && Valid(log) && Valid(later) && Covers(later, log)
    ensures k in later.catalog && (log.catalog[k].removed ==> later.catalog[k].removed)
  {
    hide ChainValid, MembershipValid, CommandRows, CommandEvents, ReceiptRows, ReceiptEvents, InventoryRows,
      InventoryEvents, ImportsSound;
    assert log.catalog[k].event in later.events;
    if log.catalog[k].removed {
      var x :| x in log.events && Deletes(x, k);
      assert x in later.events;
    }
  }

  /** No two nodes ever hold different final results of a command. */
  lemma {:induction false} OneFinalResult(fleet: string, steps: seq<Step>, i: NodeId, j: NodeId, c: CommandId)
    requires var s := Run(fleet, steps); i in s.nodes && j in s.nodes
    requires var s := Run(fleet, steps);
      && c in s.nodes[i].db.log.receipts && Terminal(s.nodes[i].db.log.receipts[c].receipt.status)
      && c in s.nodes[j].db.log.receipts && Terminal(s.nodes[j].db.log.receipts[c].receipt.status)
    ensures var s := Run(fleet, steps); s.nodes[i].db.log.receipts[c] == s.nodes[j].db.log.receipts[c]
  {
    hide Run, SystemInv, NodeInv, Inv, NetInv, PathsLegal, Valid, CommandRows, Cut, ReplicasSound;
    RunKeeps(fleet, steps);
    var s := Run(fleet, steps);
    NodeOf(s, i);
    NodeOf(s, j);
    OneFinal(WorldOf(s), s.nodes[i].db.log, s.nodes[j].db.log, c);
  }

  /** At the target, a terminal receipt held anywhere is the recorded one. */
  lemma FinalAtTarget(w: World, log: Log, c: CommandId)
    requires c in log.receipts && Terminal(log.receipts[c].receipt.status) && Inv(w) && Cut(w, log)
    ensures var x := log.receipts[c].event;
      && |x.of.origin| == KEY_BYTES
      && x.of.origin in w.logs && Valid(w.logs[x.of.origin]) && x in w.logs[x.of.origin].events
      && w.logs[x.of.origin].fleet == w.fleet
      && c in w.logs[x.of.origin].receipts && w.logs[x.of.origin].receipts[c] == log.receipts[c]
      && c in w.logs[x.of.origin].commands && w.logs[x.of.origin].commands[c].command.target == x.of.origin
  {
    hide Valid, WellBorn, Covers;
    LatestReceipt(log, c);
    var x := log.receipts[c].event;
    OriginHolds(w, log, x);
    OriginLength(log, x);
    assert Cut(w, w.logs[x.of.origin]);
    ReceiptSeen(w.logs[x.of.origin], x);
    LatestReceipt(w.logs[x.of.origin], c);
    FinalRow(w.logs[x.of.origin], x);
  }

  lemma FinalRow(log: Log, x: EventId)
    requires Valid(log) && x in log.events && x.of.body.ReceiptBody? && Terminal(x.of.body.receipt.status)
    ensures x.of.body.receipt.commandId in log.receipts && log.receipts[x.of.body.receipt.commandId].event == x
  {
    hide ChainValid, MembershipValid, CatalogRows, CatalogEvents, DeletionsSound, CommandRows, CommandEvents,
      InventoryRows, InventoryEvents, ImportsSound, ReceiptRows;
  }

  lemma OriginLength(log: Log, x: EventId)
    requires Valid(log) && x in log.events
    ensures |x.of.origin| == KEY_BYTES
  {
    hide Unforked, Chained, Causal, MembershipValid, TablesValid;
    assert Verify(Signed(x.of), log.fleet).None?;
  }

  lemma RowId(log: Log, c: CommandId)
    requires Valid(log) && c in log.commands
    ensures c == CommandIdOf(log.fleet, log.commands[c].command.jobId, log.commands[c].command.target)
  {
    hide ChainValid, MembershipValid, CatalogRows, CatalogEvents, DeletionsSound, CommandEvents, ReceiptRows,
      ReceiptEvents, InventoryRows, InventoryEvents, ImportsSound;
  }

  lemma OneFinal(w: World, a: Log, b: Log, c: CommandId)
    requires c in a.receipts && c in b.receipts && Inv(w) && Cut(w, a) && Cut(w, b)
    requires Terminal(a.receipts[c].receipt.status) && Terminal(b.receipts[c].receipt.status)
    ensures a.receipts[c] == b.receipts[c]
  {
    hide Inv, Cut, Valid;
    FinalAtTarget(w, a, c);
    FinalAtTarget(w, b, c);
    var s, t := a.receipts[c].event.of.origin, b.receipts[c].event.of.origin;
    RowId(w.logs[s], c);
    RowId(w.logs[t], c);
    var job, job' := w.logs[s].commands[c].command.jobId, w.logs[t].commands[c].command.jobId;
    SubmissionRules.CommandIdParts(w.fleet, job, s, job', t);
  }

  // ---- restore -----------------------------------------------------------------------------

  /** The steps that create node i by restoring a backup. */
  ghost predicate Restores(s: System, step: Step, i: NodeId) {
    step.Restore? && step.node == i && Apply(s, step) != s
  }

  /** No command that existed when an identity was restored ever targets it. */
  lemma NothingTargetsFresh(w: World, i: NodeId, id: EventId)
    requires id in w.born && Inv(w) && id.of.body.CommandBody?
    requires forall x :: x in w.born ==> !Admits(x, i)
    ensures id.of.body.command.target != i
  {
    hide Valid, Below, Gate, Verify, Refusal, Covers;
    assert WellBorn(w, id);
    assert Cut(w, w.born[id]);
    TargetKnown(w.born[id], id);
    hide Admissible;
    AdmissionHeld(w.born[id], id.of.body.command.target);
  }

  lemma TargetKnown(log: Log, id: EventId)
    requires id.of.body.CommandBody? && Refusal(log, id.of).None?
    ensures id.of.body.command.target in log.members
  {
    hide WellFormedCommand;
  }

  lemma AdmissionHeld(log: Log, m: NodeId)
    requires Valid(log) && m in log.members
    ensures log.members[m].admission in log.events && Admits(log.members[m].admission, m)
  {
    hide ChainValid, Authored, LegacySound, RemovalsSound, TablesValid;
  }

  /**
   A restored identity never runs a command issued before the restore, whatever it ingests or is asked later: every
   command it ever runs was issued by an event that did not exist then, and no event that did exist targets it.
   */
  lemma {:induction false} RestoredRunsOnlyNewCommands(
      fleet: string, before: seq<Step>, step: Step, after: seq<Step>, i: NodeId, c: CommandId)
    requires Restores(Run(fleet, before), step, i)
    requires var s := Run(fleet, before + [step] + after); i in s.nodes && Runs(s.nodes[i], c) > 0
    ensures var s, s' := Run(fleet, before), Run(fleet, before + [step] + after);
      && c in s'.nodes[i].db.log.commands && s'.nodes[i].db.log.commands[c].event !in s.born
      && forall id :: id in s.born && id.of.body.CommandBody? ==>
           id.of.body.command != s'.nodes[i].db.log.commands[c].command
  {
    hide Run, SystemInv, NodeInv, Inv, NetInv, PathsLegal, Valid, Cut, ReplicasSound, CommandRows, Permitted;
    RunKeeps(fleet, before);
    RunKeeps(fleet, before + [step] + after);
    AtMostOnce(fleet, before + [step] + after, i, c);
    var s, s' := Run(fleet, before), Run(fleet, before + [step] + after);
    NetOf(s);
    forall id | id in s.born && id.of.body.CommandBody? ensures id.of.body.command.target != i {
      NothingTargetsFresh(WorldOf(s), i, id);
    }
    NodeOf(s', i);
    CommandOfRow(s'.nodes[i].db.log, c);
  }

  lemma CommandOfRow(log: Log, c: CommandId)
    requires c in log.commands && CommandRows(log)
    ensures log.commands[c].event.of.body == CommandBody(log.commands[c].command)
  {
    hide WellFormedCommand;
  }
}
