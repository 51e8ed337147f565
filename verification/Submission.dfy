/**
 Submission (`CreateCommands`) and explicit retry (`RetryCommand`): one
 transaction per request, remembered by submission ID, so that repeating a
 request finds the original commands instead of creating new ones.
 */
module Submission {
  import opened Records
  import opened Admission
  import opened Journal
  import opened TextSort

  /** A request as submitted; an absent delivery or payload takes the default. */
  datatype SubmitRequest = SubmitRequest(
    submissionId: string, kind: string, machineIds: seq<NodeId>, payload: Option<map<string, string>>,
    delivery: Option<Delivery>, expiresAt: int, retryOf: string)

  /** What the node digests: defaults filled in, targets sorted. */
  function Normal(req: SubmitRequest): Request {
    Request(req.submissionId, req.kind, SortTexts(req.machineIds),
            if req.payload.Some? then req.payload.value else map[],
            if req.delivery.Some? then req.delivery.value else Online, req.expiresAt, req.retryOf)
  }

  lemma NormalId(req: SubmitRequest)
    ensures Normal(req).submissionId == req.submissionId
  {
    hide SortTexts;
  }

  predicate ValidSubmissionId(s: string) { 16 <= |s| <= 128 }

  predicate NoDuplicates(ids: seq<NodeId>) { forall i, j :: 0 <= i < j < |ids| ==> ids[i] != ids[j] }

  /** The checks before the transaction. */
  predicate ValidRequest(env: Env, r: Request) {
    && ValidSubmissionId(r.submissionId) && ValidKind(r.kind) && 1 <= |r.machineIds| <= MAX_TARGETS
    && (r.delivery.Online? || r.delivery.Deferred?)
    && (r.delivery.Deferred? ==> env.now < r.expiresAt <= env.now + THIRTY_DAYS)
    && (r.kind == "diagnostics" ==> ValidDiagnostics(r.payload))
    && env.requestLength(r) <= MAX_REQUEST
    && NoDuplicates(r.machineIds)
  }

  function Field(payload: map<string, string>, key: string): string { if key in payload then payload[key] else "" }

  function CommandPayload(env: Env, r: Request): map<string, string> {
    var open := r.payload - {"password"};
    if r.kind == "check" && Field(open, "match") == "" then
      match env.catalogMatch(Field(open, "package"))
      case Some(pattern) => open["match" := pattern]
      case None => open
    else open
  }

  function CommandFor(log: Log, env: Env, r: Request, target: NodeId): Command
    requires target in log.members
  {
    var password := Field(r.payload, "password");
    Command(CommandIdOf(log.fleet, r.submissionId, target), r.submissionId, target, r.kind, CommandPayload(env, r),
            if password == "" then "" else env.seal(log.members[target].member.encryptionKey, password),
            r.delivery, r.expiresAt, env.now, r.retryOf)
  }

  /** The loop that appends one command per target. */
  ghost function SubmitAll(db: Db, env: Env, r: Request, targets: seq<NodeId>): Result<Commit<seq<EventId>>>
    decreases |targets|
  {
    if targets == [] then Ok(Commit(db, [], []))
    else if !Active(db.log, targets[0]) then Err(Inactive)
    else if Field(r.payload, "password") != "" && |db.log.members[targets[0]].member.encryptionKey| != KEY_BYTES
    then Err(InvalidMember)
    else
      var c := CommandFor(db.log, env, r, targets[0]);
      var step := AppendBody(db, env, CommandBody(c), AdmissionOf(db.log, targets[0]));
      if step.Err? then Err(step.error)
      else
        var rest := SubmitAll(step.value.db, env, r, targets[1..]);
        if rest.Err? then rest
        else Ok(Commit(rest.value.db, step.value.appended + rest.value.appended, [step.value.value] + rest.value.value))
  }

  /** The events of the commands a remembered request created. */
  function Recall(log: Log, job: string, targets: seq<NodeId>): Result<seq<EventId>>
    decreases |targets|
  {
    if targets == [] then Ok([])
    else
      var id := CommandIdOf(log.fleet, job, targets[0]);
      if id !in log.commands then Err(NotFound)
      else
        var rest := Recall(log, job, targets[1..]);
        if rest.Err? then rest else Ok([log.commands[id].event] + rest.value)
  }

  ghost function CreateCommands(db: Db, env: Env, req: SubmitRequest): Result<Commit<seq<EventId>>> {
    var r := Normal(req);
    if !ValidRequest(env, r) then Err(InvalidRequest)
    else if !Active(db.log, db.self) then Err(Inactive)
    else if r.submissionId in db.submissions then
      if db.submissions[r.submissionId] != r then Err(SubmissionReused)
      else
        var found := Recall(db.log, r.submissionId, r.machineIds);
        if found.Err? then Err(found.error) else Ok(Commit(db, [], found.value))
    else if exists c :: c in db.log.commands && db.log.commands[c].command.jobId == r.submissionId then
      Err(SubmittedElsewhere)
    else
      var result := SubmitAll(db, env, r, r.machineIds);
      if result.Err? then result
      else
        var next := result.value.db;
        Ok(result.value.(db := next.(submissions := next.submissions[r.submissionId := r])))
  }

  /** The drive mapping a node offers again; the password is not part of it. */
  datatype DrivePreferences = DrivePreferences(letter: string, unc: string, username: string)

  /** The preferences after a submission that created commands. */
  function PreferencesAfter(prior: Option<DrivePreferences>, r: Request): Option<DrivePreferences> {
    if r.kind == "map_drive"
    then Some(DrivePreferences(Field(r.payload, "letter"), Field(r.payload, "unc"), Field(r.payload, "username")))
    else prior
  }

  /** Statuses that block an explicit retry. */
  predicate BlocksRetry(s: Status) { s in {Running, Queued, Held, Done} }

  ghost function RetryCommand(db: Db, env: Env, id: CommandId, submission: string): Result<Commit<EventId>> {
    var log := db.log;
    if !ValidSubmissionId(submission) then Err(InvalidRequest)
    else if id !in log.commands then Err(NotFound)
    else
      var c := log.commands[id].command;
      var newId := CommandIdOf(log.fleet, submission, c.target);
      if !Active(log, db.self) || !Active(log, c.target) then Err(Inactive)
      else if id in log.receipts && BlocksRetry(log.receipts[id].receipt.status) then Err(NotRetryable)
      else if newId in log.commands then
        if log.commands[newId].command.retryOf != id then Err(RetryConflict)
        else Ok(Commit(db, [], log.commands[newId].event))
      else
        var retry := c.(retryOf := id, id := newId, jobId := submission, createdAt := env.now, delivery := Online,
                        expiresAt := 0);
        AppendBody(db, env, CommandBody(retry), [])
  }
}
