/**
 Admission of one event (`insertTx`) and construction of a local one
 (`appendTx`), as functions on the replicated tables.  These are the
 specifications the Store class is proved against.
 */
module Admission {
  import opened Records
  import opened Ordering

  // ---- aggregate queries ----------------------------------------------------

  /** `SELECT COALESCE(MAX(x), 0)`, for positive values. */
  ghost function Greatest(s: set<int>): (r: int)
    ensures 0 <= r && forall x :: x in s ==> x <= r
    ensures r == 0 || r in s
  {
    if !exists x :: x in s then 0
    else
      var x :| x in s;
      var rest := Greatest(s - {x});
      assert forall y :: y in s ==> y == x || y in s - {x};
      if x > rest then x else rest
  }

  ghost function LastSequence(log: Log, origin: NodeId): (r: int)
    ensures 0 <= r
    ensures forall id :: id in log.events && id.of.origin == origin ==> id.of.sequence <= r
    ensures r == 0 || exists id :: id in log.events && id.of.origin == origin && id.of.sequence == r
  {
    var numbers := set id | id in log.events && id.of.origin == origin :: id.of.sequence;
    assert forall id :: id in log.events && id.of.origin == origin ==> id.of.sequence in numbers;
    Greatest(numbers)
  }

  ghost function TopLamport(log: Log): (r: int)
    ensures 0 <= r
    ensures forall id :: id in log.events ==> id.of.lamport <= r
    ensures r == 0 || exists id :: id in log.events && id.of.lamport == r
  {
    var counters := set id | id in log.events :: id.of.lamport;
    assert forall id :: id in log.events ==> id.of.lamport in counters;
    Greatest(counters)
  }

  // ---- admission --------------------------------------------------------

  /** p is the event of the same origin one sequence number earlier, and e names it. */
  predicate Precedes(p: EventId, e: EventId) {
    p.of.origin == e.of.origin && p.of.sequence + 1 == e.of.sequence && p in e.of.dependencies
  }

  ghost predicate HasPredecessor(log: Log, id: EventId) { exists p :: p in log.events && Precedes(p, id) }

  predicate Genesis(c: Content) {
    c.body.MemberBody? && c.sequence == 1 && c.fleet == FleetOf(c.origin) && c.dependencies == []
  }

  predicate CausallyBelow(log: Log, id: EventId) {
    forall d :: d in id.of.dependencies ==> d in log.events && d.of.lamport < id.of.lamport
  }

  predicate WellFormedMember(m: Member) {
    |m.publicKey| == KEY_BYTES && |m.encryptionKey| == KEY_BYTES && m.id == Digest(m.publicKey)
    && |m.hostname| <= MAX_HOSTNAME
  }

  predicate WellFormedCommand(fleet: string, c: Command) {
    && c.id == CommandIdOf(fleet, c.jobId, c.target)
    && c.kind != "" && |c.kind| <= MAX_KIND
    && (c.delivery.Online? || c.delivery.Deferred?)
    && ("password" in c.payload ==> c.payload["password"] == "")
    && (c.delivery.Deferred? ==> c.expiresAt > c.createdAt)
  }

  /** The checks before the event row is written, in the order the code makes them. */
  ghost function Gate(log: Log, id: EventId): Option<Rejection> {
    var last := LastSequence(log, id.of.origin);
    if id.of.sequence != last + 1 then Some(SequenceGap)
    else if last > 0 && !HasPredecessor(log, id) then Some(MissingPredecessor)
    else if !CausallyBelow(log, id) then Some(MissingDependency)
    else if !Known(log, id.of.origin) && !Genesis(id.of) then Some(NoAdmission)
    else None
  }

  function UpsertCatalog(prior: Option<CatalogRow>, edit: CatalogRow): CatalogRow {
    match prior
    case None => edit
    case Some(row) =>
      if RankLess(row.rank, edit.rank) then edit.(removed := row.removed || edit.removed)
      else row.(removed := row.removed || edit.removed)
  }

  function Lookup<K, V>(m: map<K, V>, k: K): Option<V> { if k in m then Some(m[k]) else None }

  // ---- per-kind rules: why an event of each kind is refused ------------------

  function MemberRefusal(c: Content, m: Member): Option<Rejection> {
    if !WellFormedMember(m) then Some(InvalidMember)
    else if Genesis(c) && m.id != c.origin then Some(InvalidGenesis)
    else None
  }

  function CommandRefusal(log: Log, cmd: Command): Option<Rejection> {
    if !WellFormedCommand(log.fleet, cmd) then Some(InvalidCommand)
    else if cmd.target !in log.members then Some(UnknownTarget)
    else if cmd.id in log.commands && log.commands[cmd.id].command != cmd then Some(CommandConflict)
    else None
  }

  function ReceiptRefusal(log: Log, origin: NodeId, r: Receipt): Option<Rejection> {
    if r.commandId !in log.commands || log.commands[r.commandId].command.target != origin || r.target != origin
    then Some(NotTarget)
    else if r.status.OtherStatus? then Some(InvalidStatus)
    else if r.commandId in log.receipts && Terminal(log.receipts[r.commandId].receipt.status) then Some(TerminalReceipt)
    else None
  }

  function AliasRefusal(log: Log, m: NodeId, legacy: string): Option<Rejection> {
    if m !in log.members then Some(UnknownMember)
    else if log.members[m].member.legacyId != "" && log.members[m].member.legacyId != legacy then Some(AliasBound)
    else None
  }

  function Refusal(log: Log, c: Content): Option<Rejection> {
    match c.body
    case MemberBody(m) => MemberRefusal(c, m)
    case RemoveBody(_) => None
    case CatalogBody(item, _) => if item.id == "" then Some(InvalidCatalogItem) else None
    case CommandBody(cmd) => CommandRefusal(log, cmd)
    case ReceiptBody(r) => ReceiptRefusal(log, c.origin, r)
    case InventoryBody(_) => None
    case ImportBody(_) => None
    case AliasBody(m, legacy) => AliasRefusal(log, m, legacy)
    case Undecodable(_) => Some(Unsupported)
  }

  // ---- per-table projections: each table after an admitted event ---------------

  function MembersAfter(log: Log, id: EventId): map<NodeId, MemberRow> {
    match id.of.body
    case MemberBody(m) =>
      if m.id in log.members then log.members else log.members[m.id := MemberRow(id, m, m.id in log.removals)]
    case RemoveBody(m) =>
      if m in log.members then log.members[m := log.members[m].(removed := true)] else log.members
    case AliasBody(m, legacy) =>
      if m in log.members
      then log.members[m := log.members[m].(member := log.members[m].member.(legacyId := legacy))] else log.members
    case _ => log.members
  }

  function RemovalsAfter(log: Log, id: EventId): set<NodeId> {
    if id.of.body.RemoveBody? then log.removals + {id.of.body.removedId} else log.removals
  }

  function CatalogAfter(log: Log, id: EventId): map<string, CatalogRow> {
    if id.of.body.CatalogBody? then
      var item := id.of.body.item;
      var row := CatalogRow(id, RankOf(id), item, id.of.body.remove);
      log.catalog[item.id := UpsertCatalog(Lookup(log.catalog, item.id), row)]
    else log.catalog
  }

  function CommandsAfter(log: Log, id: EventId): map<CommandId, CommandRow> {
    if id.of.body.CommandBody? && id.of.body.command.id !in log.commands
    then log.commands[id.of.body.command.id := CommandRow(id, id.of.body.command)] else log.commands
  }

  function ReceiptsAfter(log: Log, id: EventId): map<CommandId, ReceiptRow> {
    if id.of.body.ReceiptBody? then
      var r := id.of.body.receipt;
      log.receipts[r.commandId := ReceiptRow(id, id.of.sequence, r)]
    else log.receipts
  }

  function InventoryAfter(log: Log, id: EventId): map<NodeId, InventoryRow> {
    if id.of.body.InventoryBody?
       && (id.of.origin in log.inventory ==> id.of.sequence > log.inventory[id.of.origin].sequence)
    then log.inventory[id.of.origin := InventoryRow(id.of.sequence, id.of.body.observation)] else log.inventory
  }

  function ImportsAfter(log: Log, id: EventId): map<EventId, string> {
    if id.of.body.ImportBody? && id !in log.imports then log.imports[id := id.of.body.archive] else log.imports
  }

  /** The database after e's row and its projections are written. */
  function With(log: Log, e: Event): Log {
    Log(log.fleet, log.events[e.id := e], MembersAfter(log, e.id), RemovalsAfter(log, e.id), CatalogAfter(log, e.id),
        CommandsAfter(log, e.id), ReceiptsAfter(log, e.id), InventoryAfter(log, e.id), ImportsAfter(log, e.id))
  }

  /** `insertTx`: an error, the unchanged database for a known event, or the database with the event. */
  ghost function Insert(log: Log, e: Event): Result<Log> {
    if Verify(e, log.fleet).Some? then Err(Verify(e, log.fleet).value)
    else if e.id in log.events then Ok(log)
    else if Gate(log, e.id).Some? then Err(Gate(log, e.id).value)
    else if Refusal(log, e.content).Some? then Err(Refusal(log, e.content).value)
    else Ok(With(log, e))
  }

  /** The insertion loop of `Ingest`: all events or an error. */
  ghost function InsertAll(log: Log, events: seq<Event>): Result<Log>
    decreases |events|
  {
    if events == [] then Ok(log)
    else
      var first := Insert(log, events[0]);
      if first.Err? then first else InsertAll(first.value, events[1..])
  }

  /** `Ingest`, without output blobs. */
  ghost function Ingest(log: Log, events: seq<Event>): Result<Log> {
    if |events| > MAX_BATCH then Err(BatchLimit) else InsertAll(log, events)
  }

  // ---- local appends -----------------------------------------------------

  /**
   What one transaction reads from outside: the clock, the lengths of encoded bodies and requests, the sealing of a
   credential with a target's key, and what a catalog scan matches a package name to.
   */
  datatype Env = Env(
    now: int, clockUncertain: bool, encodedLength: Body -> nat, requestLength: Request -> nat,
    seal: (string, string) -> string, catalogMatch: string -> Option<string>)

  function Unique<T(==,!new)>(s: seq<T>): (r: seq<T>)
    ensures |r| <= |s|
    ensures forall x :: x in r <==> x in s
  {
    if s == [] then []
    else
      var rest := Unique(s[..|s| - 1]);
      if s[|s| - 1] in rest then rest else rest + [s[|s| - 1]]
  }

  /** The latest event of an origin: the predecessor of its next one. */
  ghost predicate IsHead(log: Log, origin: NodeId, p: EventId) {
    p in log.events && p.of.origin == origin && p.of.sequence == LastSequence(log, origin)
  }

  ghost function Head(log: Log, origin: NodeId): (r: seq<EventId>)
    ensures LastSequence(log, origin) == 0 ==> r == []
    ensures LastSequence(log, origin) > 0 ==> |r| == 1 && IsHead(log, origin, r[0])
  {
    if LastSequence(log, origin) == 0 then []
    else
      assert exists p :: IsHead(log, origin, p) by {
        var q :| q in log.events && q.of.origin == origin && q.of.sequence == LastSequence(log, origin);
        assert IsHead(log, origin, q);
      }
      var p :| IsHead(log, origin, p);
      [p]
  }

  function AdmissionOf(log: Log, m: NodeId): seq<EventId> {
    if m in log.members then [log.members[m].admission] else []
  }

  /** The content `appendTx` signs.  A node's public key is the preimage of its ID. */
  ghost function Draft(log: Log, self: NodeId, env: Env, body: Body, deps: seq<EventId>): Content {
    Content(log.fleet, self, LastSequence(log, self) + 1, TopLamport(log) + 1, PROTOCOL, env.now,
            Unique(deps + Head(log, self) + AdmissionOf(log, self)), body, env.encodedLength(body), self)
  }

  /** `appendTx`: the event made and the tables after it. */
  ghost function Append(log: Log, self: NodeId, env: Env, body: Body, deps: seq<EventId>): Result<Log> {
    if TopLamport(log) >= INT64_MAX then Err(LamportExhausted)
    else Insert(log, Signed(Draft(log, self, env, body, deps)))
  }
}
