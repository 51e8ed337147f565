/**
 The whole mesh as one state machine: nodes with their databases, and a network
 that may lose, duplicate, delay and reorder messages.  Every step is a
 committed transaction of one node or a message put on or taken off the
 network; a refused step changes nothing.
 */
module System {
  import opened Records
  import opened Admission
  import opened World
  import opened Exchange
  import opened Journal
  import opened Submission
  import opened JournalFairness

  /**
   A node's database, its replica accounting, and its history: the commands it was asked to accept, those its own
   reconciliation accepted, how often `Next` handed each to the executor and committed, how often recovery found each
   running, and how often `Next` handed one out although its commit then failed.
   */
  datatype Node = Node(
    db: Db, replicas: set<(EventId, NodeId)>,
    asked: set<CommandId>, reconciled: set<CommandId>,
    started: multiset<CommandId>, interrupted: multiset<CommandId>, lost: multiset<CommandId>)

  /** A batch on its way to a node. */
  datatype Message = Message(to: NodeId, events: seq<Event>)

  /** What a peer once said about itself: its cursors, and the events of a batch it had just ingested. */
  datatype Report = Report(peer: NodeId, cursors: Cursors, ids: seq<EventId>)

  datatype System = System(
    fleet: string, nodes: map<NodeId, Node>, born: map<EventId, Log>,
    mail: set<Message>, reports: set<Report>, backups: set<Log>)

  datatype Step =
    | Boot(node: NodeId)
    | Bootstrap(node: NodeId, env: Env, member: Member)
    | Publish(node: NodeId, env: Env, body: Body, deps: seq<EventId>)
    | Submit(node: NodeId, env: Env, request: SubmitRequest)
    | Retry(node: NodeId, env: Env, id: CommandId, submission: string)
    | AcceptOne(node: NodeId, env: Env, id: CommandId)
    | Reconcile(node: NodeId, env: Env, id: CommandId)
    | StartNext(node: NodeId, env: Env)
    | LoseNext(node: NodeId, env: Env)
    | Finish(node: NodeId, env: Env, command: Command, status: Status, message: string, details: Details)
    | Restart(node: NodeId, env: Env, pendingUpdate: CommandId)
    | Announce(node: NodeId, cursors: Cursors)
    | Send(node: NodeId, report: Report, limit: int, rowLength: Event -> nat, events: seq<Event>)
    | Deliver(mail: Message, cursors: Cursors)
    | Account(node: NodeId, report: Report)
    | Backup(node: NodeId)
    | Restore(node: NodeId, backup: Log, events: seq<Event>)

  function NewNode(i: NodeId, log: Log): Node {
    Node(Db(i, log, [], map[]), {}, {}, {}, multiset{}, multiset{}, multiset{})
  }

  function Initial(fleet: string): System { System(fleet, map[], map[], {}, {}, {}) }

  ghost function LogsOf(nodes: map<NodeId, Node>): map<NodeId, Log> { map i | i in nodes :: nodes[i].db.log }

  ghost function WorldOf(s: System): World { World(s.fleet, LogsOf(s.nodes), s.born) }

  /** The kinds of event the application appends directly: never commands or receipts. */
  predicate Direct(body: Body) {
    || body.MemberBody? || body.RemoveBody? || body.AliasBody?
    || body.CatalogBody? || body.InventoryBody? || body.ImportBody?
  }

  /** The past of each appended event: what its origin held just before. */
  ghost function Snapshots(born: map<EventId, Log>, log: Log, ids: seq<EventId>): map<EventId, Log>
    decreases |ids|
  {
    if ids == [] then born else Snapshots(born[ids[0] := log], With(log, Signed(ids[0].of)), ids[1..])
  }

  ghost function SetNode(s: System, i: NodeId, node: Node): System { s.(nodes := s.nodes[i := node]) }

  /** A committed local transaction. */
  ghost function CommitLocal(s: System, i: NodeId, appended: seq<EventId>, node: Node): System
    requires i in s.nodes
  {
    SetNode(s, i, node).(born := Snapshots(s.born, s.nodes[i].db.log, appended))
  }

  ghost function Local<T>(s: System, i: NodeId, result: Result<Commit<T>>): System
    requires i in s.nodes
  {
    if result.Err? then s else CommitLocal(s, i, result.value.appended, s.nodes[i].(db := result.value.db))
  }

  /** No admission of this identity exists anywhere: its key was just generated. */
  ghost predicate Fresh(s: System, i: NodeId) {
    i !in s.nodes && forall id :: id in s.born ==> !(id.of.body.MemberBody? && id.of.body.member.id == i)
  }

  /** `queuedCommands`, for this target: deferred delivery and no receipt yet. */
  predicate AwaitsAcceptance(db: Db, id: CommandId) {
    && id in db.log.commands && db.log.commands[id].command.delivery.Deferred? && id !in db.log.receipts
    && db.log.commands[id].command.target == db.self
  }

  /** All events of a backup, in the order `RestoreHistory` reads them. */
  ghost predicate RestoreOrder(backup: Log, events: seq<Event>) {
    Rows(backup, map[], events) && Ordered(events) && NoSkips(backup, map[], events) && Whole(backup, map[], events)
  }

  /** The events of a log up to a peer's cursors, as replica rows for that peer. */
  ghost function CursorReplicas(log: Log, report: Report): set<(EventId, NodeId)> {
    set id | id in log.events && id.of.sequence <= CursorAt(report.cursors, id.of.origin) :: (id, report.peer)
  }

  ghost function AckReplicas(report: Report): set<(EventId, NodeId)> {
    set id | id in report.ids :: (id, report.peer)
  }

  ghost function Apply(s: System, step: Step): System {
    match step
    case Boot(i) =>
      if i in s.nodes || |i| != KEY_BYTES then s else SetNode(s, i, NewNode(i, EmptyLog(s.fleet)))
    case Bootstrap(i, env, m) =>
      if i !in s.nodes || s.nodes[i].db.log != EmptyLog(s.fleet) || s.fleet != FleetOf(i) then s
      else Local(s, i, AppendBody(s.nodes[i].db, env, MemberBody(m), []))
    case Publish(i, env, body, deps) =>
      if i !in s.nodes || !Direct(body) || !Active(s.nodes[i].db.log, i) then s
      else Local(s, i, AppendBody(s.nodes[i].db, env, body, deps))
    case Submit(i, env, request) =>
      if i !in s.nodes then s else Local(s, i, CreateCommands(s.nodes[i].db, env, request))
    case Retry(i, env, id, submission) =>
      if i !in s.nodes then s else Local(s, i, RetryCommand(s.nodes[i].db, env, id, submission))
    case AcceptOne(i, env, id) =>
      if i !in s.nodes then s
      else
        var result := Accept(s.nodes[i].db, env, id);
        if result.Err? then s
        else CommitLocal(s, i, result.value.appended,
               s.nodes[i].(db := result.value.db, asked := s.nodes[i].asked + {id}))
    case Reconcile(i, env, id) =>
      if i !in s.nodes || !Active(s.nodes[i].db.log, i) || !AwaitsAcceptance(s.nodes[i].db, id) then s
      else
        var result := Accept(s.nodes[i].db, env, id);
        if result.Err? then s
        else CommitLocal(s, i, result.value.appended,
               s.nodes[i].(db := result.value.db, reconciled := s.nodes[i].reconciled + {id}))
    case StartNext(i, env) =>
      if i !in s.nodes then s
      else
        var result := Next(s.nodes[i].db, env);
        if result.Err? then s
        else CommitLocal(s, i, result.value.appended,
               s.nodes[i].(db := result.value.db, started := s.nodes[i].started + Handed(result.value.value)))
    case LoseNext(i, env) =>
      if i !in s.nodes then s
      else
        var result := Next(s.nodes[i].db, env);
        if result.Err? then s
        else SetNode(s, i, s.nodes[i].(lost := s.nodes[i].lost + Handed(result.value.value)))
    case Finish(i, env, c, status, message, details) =>
      if i !in s.nodes then s else Local(s, i, Complete(s.nodes[i].db, env, c, status, message, details))
    case Restart(i, env, pendingUpdate) =>
      if i !in s.nodes then s
      else
        var result := Recover(s.nodes[i].db, env, pendingUpdate);
        if result.Err? then s
        else CommitLocal(s, i, result.value.appended,
               s.nodes[i].(db := result.value.db,
                 interrupted := s.nodes[i].interrupted + multiset(RunningExcept(s.nodes[i].db, pendingUpdate))))
    case Announce(i, c) =>
      if i !in s.nodes || !ExactCursors(s.nodes[i].db.log, c) then s
      else s.(reports := s.reports + {Report(i, c, [])})
    case Send(i, report, limit, rowLength, events) =>
      if i !in s.nodes || report !in s.reports
         || !IsExport(s.nodes[i].db.log, report.cursors, limit, rowLength, events) then s
      else s.(mail := s.mail + {Message(report.peer, events)})
    case Deliver(m, c) =>
      if m !in s.mail || m.to !in s.nodes then s
      else
        var result := Ingest(s.nodes[m.to].db.log, m.events);
        if result.Err? then s
        else if !ExactCursors(result.value, c) then s
        else SetNode(s, m.to, s.nodes[m.to].(db := s.nodes[m.to].db.(log := result.value)))
             .(reports := s.reports + {Report(m.to, c, IdsOf(m.events))})
    case Account(i, report) =>
      if i !in s.nodes || report !in s.reports then s
      else SetNode(s, i, s.nodes[i].(replicas :=
             s.nodes[i].replicas + AckReplicas(report) + CursorReplicas(s.nodes[i].db.log, report)))
    case Backup(i) =>
      if i !in s.nodes then s else s.(backups := s.backups + {s.nodes[i].db.log})
    case Restore(i, backup, events) =>
      if |i| != KEY_BYTES || !Fresh(s, i) || backup !in s.backups || !RestoreOrder(backup, events) then s
      else
        var result := InsertAll(EmptyLog(s.fleet), events);
        if result.Err? then s else SetNode(s, i, NewNode(i, result.value))
  }

  /** How often a command was handed to the executor at all. */
  function Runs(node: Node, c: CommandId): nat { node.started[c] + node.lost[c] }

  function Handed(c: Option<Command>): multiset<CommandId> { if c.Some? then multiset{c.value.id} else multiset{} }

  function IdsOf(events: seq<Event>): (r: seq<EventId>)
    ensures |r| == |events| && forall k :: 0 <= k < |events| ==> r[k] == events[k].id
  {
    seq(|events|, k requires 0 <= k < |events| => events[k].id)
  }

  /** Every run: any steps, in any order. */
  ghost function Run(fleet: string, steps: seq<Step>): System
    decreases |steps|
  {
    if steps == [] then Initial(fleet) else Apply(Run(fleet, steps[..|steps| - 1]), steps[|steps| - 1])
  }
}
