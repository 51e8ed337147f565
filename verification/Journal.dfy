/**
 The execution journal (jobs.go): each operation is one transaction on a node's
 database.  An operation either fails and changes nothing, or commits a new
 database together with the events it appended and its result.
 */
module Journal {
  import opened Records
  import opened Admission

  const KINDS: seq<string> := [
    "check", "install", "uninstall", "map_drive", "unmap_drive", "clean_downloads", "empty_recycle", "launch",
    "self_update", "diagnostics"]
  const PROFILES: seq<string> := ["system", "disks", "network", "processes", "services", "events"]
  const MAX_TARGETS := 50
  const MAX_REQUEST := 128 * 1024
  const THIRTY_DAYS := 30 * 24 * 60 * 60 * 1000

  predicate ValidKind(k: string) { k in KINDS }

  /** Kinds whose interrupted execution may be repeated. */
  predicate ReadOnly(kind: string) { kind == "check" || kind == "diagnostics" }

  predicate ValidDiagnostics(payload: map<string, string>) {
    |payload| == 1 && "profile" in payload && payload["profile"] in PROFILES
  }

  datatype InboxRow = InboxRow(id: CommandId, state: Status)

  /** One node's database: the replicated tables plus what stays local. */
  datatype Db = Db(self: NodeId, log: Log, inbox: seq<InboxRow>, submissions: map<string, Request>)

  datatype Commit<+T> = Commit(db: Db, appended: seq<EventId>, value: T)

  // ---- appends inside a transaction ------------------------------------------

  ghost function AppendBody(db: Db, env: Env, body: Body, deps: seq<EventId>): Result<Commit<EventId>> {
    var result := Append(db.log, db.self, env, body, deps);
    if result.Err? then Err(result.error)
    else
      var id := Hash(Draft(db.log, db.self, env, body, deps));
      Ok(Commit(db.(log := result.value), [id], id))
  }

  function ReceiptFor(c: Command, env: Env, status: Status, message: string, details: Details): Receipt {
    Receipt(c.id, c.target, status, message, env.now, details)
  }

  /** `receiptTx`: append a receipt that depends on the command's event. */
  ghost function AppendReceipt(db: Db, env: Env, c: Command, status: Status, message: string, details: Details)
    : Result<Commit<Receipt>>
  {
    if c.id !in db.log.commands then Err(NotFound)
    else
      var r := ReceiptFor(c, env, status, message, details);
      var result := AppendBody(db, env, ReceiptBody(r), [db.log.commands[c.id].event]);
      if result.Err? then Err(result.error) else Ok(Commit(result.value.db, result.value.appended, r))
  }

  // ---- inbox ------------------------------------------------------------

  function SetState(inbox: seq<InboxRow>, id: CommandId, state: Status): (r: seq<InboxRow>)
    ensures |r| == |inbox|
    ensures forall k :: 0 <= k < |inbox| ==> r[k] == if inbox[k].id == id then InboxRow(id, state) else inbox[k]
  {
    seq(|inbox|, k requires 0 <= k < |inbox| => if inbox[k].id == id then InboxRow(id, state) else inbox[k])
  }

  predicate InInbox(inbox: seq<InboxRow>, id: CommandId) { exists k :: 0 <= k < |inbox| && inbox[k].id == id }

  /** The state of the row of a command, if it has one. */
  function StateOf(inbox: seq<InboxRow>, id: CommandId): (r: Option<Status>)
    ensures r.None? <==> !InInbox(inbox, id)
    ensures r.Some? ==> exists k :: 0 <= k < |inbox| && inbox[k] == InboxRow(id, r.value)
  {
    if inbox == [] then None
    else if inbox[0].id == id then Some(inbox[0].state)
    else StateOf(inbox[1..], id)
  }

  /** The IDs of the rows whose state satisfies a query, in row order. */
  function Select(inbox: seq<InboxRow>, wanted: set<Status>): (r: seq<CommandId>)
    ensures forall id :: id in r <==> exists k :: 0 <= k < |inbox| && inbox[k].id == id && inbox[k].state in wanted
  {
    if inbox == [] then []
    else
      var rest := Select(inbox[..|inbox| - 1], wanted);
      var last := inbox[|inbox| - 1];
      if last.state in wanted then rest + [last.id] else rest
  }

  // ---- Accept -----------------------------------------------------------

  function AcceptStatus(c: Command, env: Env): (Status, string) {
    if !ValidKind(c.kind) then (Failed, "This node version does not support the command")
    else if c.kind == "diagnostics" && (!ValidDiagnostics(c.payload) || c.secret != "") then
      (Failed, "Invalid diagnostic profile or parameters")
    else if c.delivery.Deferred? && env.clockUncertain then (Held, "Clock uncertain; waiting for trustworthy time")
    else if c.delivery.Deferred? && c.expiresAt <= env.now then (Expired, "Expired before target acceptance")
    else (Queued, "Accepted durably by target")
  }

  ghost function Accept(db: Db, env: Env, id: CommandId): Result<Commit<Receipt>> {
    var log := db.log;
    if id !in log.commands then Err(NotFound)
    else
      var c := log.commands[id].command;
      if c.target != db.self then Err(WrongTarget)
      else if !Active(log, c.target) then Err(Inactive)
      else if !Active(log, log.commands[id].event.of.origin) then Err(OriginRemoved)
      else if id in log.receipts then Ok(Commit(db, [], log.receipts[id].receipt))
      else
        var (status, message) := AcceptStatus(c, env);
        var result := AppendReceipt(db, env, c, status, message, NO_DETAILS);
        if result.Err? then Err(result.error)
        else if InInbox(db.inbox, id) then Err(InboxConflict)
        else
          var next := result.value.db;
          Ok(result.value.(db := next.(inbox := next.inbox + [InboxRow(id, status)])))
  }

  // ---- Next -------------------------------------------------------------

  /** What happens to a queued or held command when the worker looks at it; None leaves it for later. */
  function Verdict(log: Log, env: Env, c: Command, origin: NodeId): Option<(Status, string)> {
    if !Active(log, c.target) || !Active(log, origin) then
      Some((Failed, "Target or command origin was removed before execution"))
    else if c.delivery.Deferred? && env.clockUncertain then None
    else if c.delivery.Deferred? && c.expiresAt <= env.now then Some((Expired, "Expired before execution"))
    else Some((Running, "Running on target"))
  }

  /** Append a receipt and move the inbox row to the same status. */
  ghost function Advance(db: Db, env: Env, c: Command, status: Status, message: string, details: Details)
    : Result<Commit<Receipt>>
  {
    var result := AppendReceipt(db, env, c, status, message, details);
    if result.Err? then result
    else
      var next := result.value.db;
      Ok(result.value.(db := next.(inbox := SetState(next.inbox, c.id, status))))
  }

  /** The loop of `Next` over the pending IDs: stop at the first that runs. */
  ghost function Scan(db: Db, env: Env, ids: seq<CommandId>): Result<Commit<Option<Command>>>
    decreases |ids|
  {
    if ids == [] then Ok(Commit(db, [], None))
    else if ids[0] !in db.log.commands then Err(NotFound)
    else
      var row := db.log.commands[ids[0]];
      var verdict := Verdict(db.log, env, row.command, row.event.of.origin);
      if verdict.None? then Scan(db, env, ids[1..])
      else
        var step := Advance(db, env, row.command, verdict.value.0, verdict.value.1, NO_DETAILS);
        if step.Err? then Err(step.error)
        else if verdict.value.0.Running? then Ok(Commit(step.value.db, step.value.appended, Some(row.command)))
        else
          var rest := Scan(step.value.db, env, ids[1..]);
          if rest.Err? then rest else Ok(rest.value.(appended := step.value.appended + rest.value.appended))
  }

  ghost function Next(db: Db, env: Env): Result<Commit<Option<Command>>> {
    Scan(db, env, Select(db.inbox, {Queued, Held}))
  }

  // ---- Complete and Recover --------------------------------------------------

  ghost function Complete(db: Db, env: Env, c: Command, status: Status, message: string, details: Details)
    : Result<Commit<Receipt>>
  {
    var state := StateOf(db.inbox, c.id);
    if state.None? then Err(NotFound)
    else if state.value != Running then Err(NotRunning)
    else if status !in {Done, Failed, Unknown} then Err(InvalidResult)
    else Advance(db, env, c, status, message, details)
  }

  function Interrupted(kind: string): (Status, string) {
    if ReadOnly(kind) then (Queued, "Retrying interrupted read-only check")
    else (Unknown, "Interrupted during execution; inspect the machine before an explicit retry")
  }

  ghost function Settle(db: Db, env: Env, ids: seq<CommandId>): Result<Commit<()>>
    decreases |ids|
  {
    if ids == [] then Ok(Commit(db, [], ()))
    else if ids[0] !in db.log.commands then Err(NotFound)
    else
      var c := db.log.commands[ids[0]].command;
      var (status, message) := Interrupted(c.kind);
      var step := Advance(db, env, c, status, message, NO_DETAILS);
      if step.Err? then Err(step.error)
      else
        var rest := Settle(step.value.db, env, ids[1..]);
        if rest.Err? then rest else Ok(rest.value.(appended := step.value.appended + rest.value.appended))
  }

  function Without<T(==,!new)>(s: seq<T>, x: T): (r: seq<T>)
    ensures forall y :: y in r <==> y in s && y != x
  {
    if s == [] then []
    else if s[|s| - 1] == x then Without(s[..|s| - 1], x)
    else Without(s[..|s| - 1], x) + [s[|s| - 1]]
  }

  /** `RecoverExcept`: every running row except a pending update is requeued or becomes unknown. */
  ghost function Recover(db: Db, env: Env, pendingUpdate: CommandId): Result<Commit<()>> {
    Settle(db, env, Without(Select(db.inbox, {Running}), pendingUpdate))
  }
}
