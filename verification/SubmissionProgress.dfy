/**
 When a submission and a retry commit, exactly: past the checks they report to
 their caller, only the Lamport counter and the length of an encoded command
 can refuse them.
 */
module SubmissionProgress {
  import opened Records
  import opened Ordering
  import opened Admission
  import opened LogInvariant
  import opened LocalAppend
  import opened World
  import opened Journal
  import opened JournalSteps
  import opened JournalInvariant
  import opened JournalOperations
  import JournalProgress
  import opened Submission
  import opened SubmissionRules
  import opened SubmissionIdempotence

  // ---- one command ------------------------------------------------------------------

  /** A command that is new and well formed is appended if and only if the two limits allow it. */
  lemma CommandOutcome(db: Db, env: Env, c: Command, deps: seq<EventId>)
    requires Sound(db) && Known(db.log, db.self) && |deps| <= 1 && AllHeld(db.log, deps)
    requires WellFormedCommand(db.log.fleet, c) && c.target in db.log.members && c.id !in db.log.commands
    ensures var result := AppendBody(db, env, CommandBody(c), deps);
      && (result.Ok? <==> TopLamport(db.log) < INT64_MAX && env.encodedLength(CommandBody(c)) <= 1048576)
      && (result.Err? ==> AtCapacity(result.error))
  {
    hide Authentic, Unforked, Chained, Causal, MembershipValid, TablesValid, With, LastSequence, Head, AdmissionOf,
      Append, Genesis, Extends, WellFormedCommand, TopLamport, AllHeld;
    AppendOutcome(db.log, db.self, env, CommandBody(c), deps);
    DraftShort(db.log, db.self, env, CommandBody(c), deps);
  }

  /** The ID of a command to submit is free as long as its job has no command for the target. */
  lemma IdIsFree(log: Log, job: string, target: NodeId)
    requires Valid(log) && target in log.members && Unsubmitted(log, job, [target])
    ensures CommandIdOf(log.fleet, job, target) !in log.commands
  {
    hide ChainValid, MembershipValid, CatalogRows, CatalogEvents, DeletionsSound, CommandEvents, ReceiptRows,
      ReceiptEvents, InventoryRows, InventoryEvents, ImportsSound;
    var id := CommandIdOf(log.fleet, job, target);
    assert target in [target];
    if id in log.commands {
      var c := log.commands[id].command;
      MemberIdLength(log, target);
      MemberIdLength(log, c.target);
      CommandIdParts(log.fleet, job, target, c.jobId, c.target);
    }
  }

  lemma MemberIdLength(log: Log, m: NodeId)
    requires Valid(log) && m in log.members
    ensures |m| == KEY_BYTES && |log.members[m].member.encryptionKey| == KEY_BYTES
    ensures log.members[m].admission in log.events
  {
    hide ChainValid, Authored, LegacySound, RemovalsSound, Founded, TablesValid, SameMember;
  }

  // ---- submission ---------------------------------------------------------------------

  /** Room in the Lamport counter for a command per target, each short enough. */
  ghost predicate CommandsFit(log: Log, env: Env, r: Request, targets: seq<NodeId>) {
    && TopLamport(log) + |targets| <= INT64_MAX
    && forall k :: 0 <= k < |targets| ==>
         targets[k] in log.members && env.encodedLength(CommandBody(CommandFor(log, env, r, targets[k]))) <= 1048576
  }

  /** What the checks before the transaction leave true of a request. */
  ghost predicate Checked(env: Env, r: Request) {
    && ValidKind(r.kind) && (r.delivery.Online? || r.delivery.Deferred?)
    && (r.delivery.Deferred? ==> env.now < r.expiresAt)
  }

  lemma CheckedCommand(log: Log, env: Env, r: Request, target: NodeId)
    requires Checked(env, r) && target in log.members
    ensures WellFormedCommand(log.fleet, CommandFor(log, env, r, target))
  {
    KindShort(r.kind);
    hide ValidKind;
    var open := r.payload - {"password"};
    assert "password" !in open && "match" != "password";
  }

  lemma KindShort(kind: string)
    requires ValidKind(kind)
    ensures kind != "" && |kind| <= MAX_KIND
  {
  }

  lemma StepOutcome(db: Db, env: Env, r: Request, target: NodeId, rest: seq<NodeId>)
    requires target in db.log.members && Known(db.log, db.self) && Checked(env, r)
    requires Unsubmitted(db.log, r.submissionId, [target] + rest) && JournalInv(db)
    ensures var c := CommandFor(db.log, env, r, target);
      var result := AppendBody(db, env, CommandBody(c), AdmissionOf(db.log, target));
      && (result.Ok? <==> TopLamport(db.log) < INT64_MAX && env.encodedLength(CommandBody(c)) <= 1048576)
      && (result.Err? ==> AtCapacity(result.error))
  {
    hide Valid, AppendBody, CommandFor, WellFormedCommand, TopLamport, Unsubmitted, Checked, Distinct, Agrees, Covered;
    UnsubmittedFirst(db.log, r.submissionId, target, rest);
    MemberIdLength(db.log, target);
    IdIsFree(db.log, r.submissionId, target);
    CheckedCommand(db.log, env, r, target);
    CommandForId(db.log, env, r, target);
    assert AllHeld(db.log, AdmissionOf(db.log, target));
    CommandOutcome(db, env, CommandFor(db.log, env, r, target), AdmissionOf(db.log, target));
  }

  lemma CommandForId(log: Log, env: Env, r: Request, target: NodeId)
    requires target in log.members
    ensures CommandFor(log, env, r, target).id == CommandIdOf(log.fleet, r.submissionId, target)
    ensures CommandFor(log, env, r, target).target == target
  {
    hide CommandPayload;
  }

  /** What the next target needs, and what the others need after it. */
  lemma FitTarget(log: Log, next: Log, env: Env, r: Request, target: NodeId, rest: seq<NodeId>)
    requires target in log.members && next.members == log.members && next.fleet == log.fleet
    requires TopLamport(next) == TopLamport(log) + 1
    ensures CommandsFit(log, env, r, [target] + rest)
       <==> TopLamport(log) < INT64_MAX && env.encodedLength(CommandBody(CommandFor(log, env, r, target))) <= 1048576
            && CommandsFit(next, env, r, rest)
  {
    hide TopLamport, CommandPayload;
    var targets := [target] + rest;
    assert targets[0] == target && forall k :: 0 <= k < |rest| ==> targets[k + 1] == rest[k];
    assert forall t :: t in log.members ==> CommandFor(next, env, r, t) == CommandFor(log, env, r, t);
  }

  lemma FitsFirst(log: Log, env: Env, r: Request, target: NodeId, rest: seq<NodeId>)
    requires CommandsFit(log, env, r, [target] + rest) && target in log.members
    ensures TopLamport(log) < INT64_MAX && env.encodedLength(CommandBody(CommandFor(log, env, r, target))) <= 1048576
  {
    hide TopLamport, CommandFor;
    assert ([target] + rest)[0] == target;
  }

  ghost predicate AllActive(log: Log, targets: seq<NodeId>) {
    forall k :: 0 <= k < |targets| ==> targets[k] in log.members && !log.members[targets[k]].removed
  }

  lemma ActiveFirst(log: Log, next: Log, target: NodeId, rest: seq<NodeId>)
    requires next.members == log.members
    ensures AllActive(log, [target] + rest) <==> Active(log, target) && AllActive(next, rest)
  {
    var targets := [target] + rest;
    assert targets[0] == target && forall k :: 0 <= k < |rest| ==> targets[k + 1] == rest[k];
  }

  lemma AppendRaises(db: Db, env: Env, body: Body, deps: seq<EventId>, step: Commit<EventId>)
    requires JournalInv(db) && AppendBody(db, env, body, deps) == Ok(step)
    ensures TopLamport(step.db.log) == TopLamport(db.log) + 1
  {
    hide Sound, AppendBody, TopLamport, With, Extends, Distinct, Agrees, Covered;
    AppendBodyEffect(db, env, body, deps, step);
  }

  lemma {:induction false} SubmitAllOutcome(db: Db, env: Env, r: Request, targets: seq<NodeId>)
    requires JournalInv(db) && Known(db.log, db.self) && Checked(env, r)
    requires NoDuplicates(targets) && Unsubmitted(db.log, r.submissionId, targets)
    ensures SubmitAll(db, env, r, targets).Ok? <==> AllActive(db.log, targets) && CommandsFit(db.log, env, r, targets)
    ensures var result := SubmitAll(db, env, r, targets);
      result.Err? ==> AtCapacity(result.error) || (!AllActive(db.log, targets) && result == Err(Inactive))
    decreases |targets|
  {
    hide JournalInv, AppendBody, CommandFor, Checked, CommandsFit, AllActive, Unsubmitted, Found, TopLamport, Grown,
      AtCapacity;
    if targets == [] {
      NothingFits(db, env, r);
    } else {
      var target, rest := targets[0], targets[1..];
      assert targets == [target] + rest;
      ActiveFirst(db.log, db.log, target, rest);
      if Active(db.log, target) {
        KeyLength(db, target);
        StepOutcome(db, env, r, target, rest);
        var body := CommandBody(CommandFor(db.log, env, r, target));
        var step := AppendBody(db, env, body, AdmissionOf(db.log, target));
        if step.Ok? {
          SubmitStep(db, env, r, target, rest, step.value);
          AppendRaises(db, env, body, AdmissionOf(db.log, target), step.value);
          ActiveFirst(db.log, step.value.db.log, target, rest);
          FitTarget(db.log, step.value.db.log, env, r, target, rest);
          SubmitAllOutcome(step.value.db, env, r, rest);
        } else if CommandsFit(db.log, env, r, targets) {
          FitsFirst(db.log, env, r, target, rest);
        }
      }
    }
  }

  lemma KeyLength(db: Db, m: NodeId)
    requires JournalInv(db) && m in db.log.members
    ensures |db.log.members[m].member.encryptionKey| == KEY_BYTES
  {
    hide Valid, Distinct, Agrees, Covered;
    MemberIdLength(db.log, m);
  }

  lemma NothingFits(db: Db, env: Env, r: Request)
    requires JournalInv(db)
    ensures AllActive(db.log, []) && CommandsFit(db.log, env, r, [])
  {
    hide JournalInv, TopLamport;
    JournalProgress.TopBounded(db);
  }

  /** The job has commands here although this node does not remember submitting it. */
  ghost predicate Elsewhere(log: Log, job: string) {
    exists c :: c in log.commands && log.commands[c].command.jobId == job
  }

  /** A submission is new here, its targets are members not removed, and its commands fit. */
  ghost predicate MaySubmit(db: Db, env: Env, req: SubmitRequest) {
    && !Elsewhere(db.log, req.submissionId) && AllActive(db.log, Normal(req).machineIds)
    && CommandsFit(db.log, env, Normal(req), Normal(req).machineIds)
  }

  /** The node itself is a member and not removed. */
  ghost predicate SelfActive(db: Db) { db.self in db.log.members && !db.log.members[db.self].removed }

  /** The reasons `CreateCommands` gives before it appends anything. */
  ghost predicate CreateReasons(db: Db, env: Env, req: SubmitRequest, result: Result<Commit<seq<EventId>>>) {
    var ready := Allowed(env, req) && SelfActive(db);
    var known := req.submissionId in db.submissions;
    && (result == Err(InvalidRequest) <==> !Allowed(env, req))
    && (Allowed(env, req) && !SelfActive(db) ==> result == Err(Inactive))
    && (result == Err(SubmissionReused) <==> ready && known && db.submissions[req.submissionId] != Normal(req))
    && (result == Err(SubmittedElsewhere) <==> ready && !known && Elsewhere(db.log, req.submissionId))
  }

  /**
   `CreateCommands` commits if and only if the request passes its checks, the node is active, and the request is the
   one it remembers under that ID or, remembering none, may submit it; otherwise it gives the reason that applies.
   */
  lemma {:induction false} CreateOutcome(db: Db, env: Env, req: SubmitRequest)
    requires JournalInv(db) && Remembered(db)
    ensures CreateCommands(db, env, req).Ok? <==>
      && Allowed(env, req) && SelfActive(db)
      && if req.submissionId in db.submissions then db.submissions[req.submissionId] == Normal(req)
         else MaySubmit(db, env, req)
    ensures CreateReasons(db, env, req, CreateCommands(db, env, req))
  {
    hide JournalInv, Remembered, Allowed, SubmitAll, Recall, CommandsFit, AllActive, Normal, Found, Elsewhere,
      ValidRequest;
    AllowedMeans(env, req);
    NormalId(req);
    if Allowed(env, req) && SelfActive(db) {
      RequestChecked(env, Normal(req));
      if req.submissionId in db.submissions {
        if db.submissions[req.submissionId] == Normal(req) {
          RememberedTargets(db, Normal(req));
          RecallFound(db.log, req.submissionId, Normal(req).machineIds);
        }
      } else {
        ElsewhereMeans(db, req.submissionId, Normal(req).machineIds);
        if !Elsewhere(db.log, req.submissionId) { SubmitAllOutcome(db, env, Normal(req), Normal(req).machineIds); }
      }
    }
  }

  lemma ElsewhereMeans(db: Db, job: string, targets: seq<NodeId>)
    ensures Elsewhere(db.log, job) <==> exists c :: c in db.log.commands && db.log.commands[c].command.jobId == job
    ensures !Elsewhere(db.log, job) ==> Unsubmitted(db.log, job, targets)
  {
  }

  lemma RequestChecked(env: Env, r: Request)
    requires ValidRequest(env, r)
    ensures Checked(env, r) && NoDuplicates(r.machineIds)
  {
    hide ValidKind, ValidDiagnostics;
  }

  // ---- retry ------------------------------------------------------------------------------

  /** The command a retry makes. */
  function RetryOf(log: Log, env: Env, id: CommandId, submission: string): Command
    requires id in log.commands
  {
    var c := log.commands[id].command;
    Command(CommandIdOf(log.fleet, submission, c.target), submission, c.target, c.kind, c.payload, c.secret, Online, 0,
            env.now, id)
  }

  /** The retry was made before from this same command, or none was and it fits. */
  ghost predicate RetryFits(log: Log, env: Env, id: CommandId, submission: string)
    requires id in log.commands
  {
    var retry := RetryOf(log, env, id, submission);
    if retry.id in log.commands then log.commands[retry.id].command.retryOf == id
    else TopLamport(log) < INT64_MAX && env.encodedLength(CommandBody(retry)) <= 1048576
  }

  /** The reasons `RetryCommand` gives before it appends anything. */
  ghost predicate RetryReasons(
    db: Db, env: Env, id: CommandId, submission: string, result: Result<Commit<EventId>>)
  {
    var valid := 16 <= |submission| <= 128;
    var known := valid && id in db.log.commands;
    var both := known && SelfActive(db)
                && var t := db.log.commands[id].command.target; t in db.log.members && !db.log.members[t].removed;
    && (result == Err(InvalidRequest) <==> !valid)
    && (result == Err(NotFound) <==> valid && !known)
    && (result == Err(Inactive) <==> known && !both)
    && (result == Err(NotRetryable) <==> both && !Retryable(db.log, id))
    && (result == Err(RetryConflict) <==>
          both && Retryable(db.log, id) && var made := RetryOf(db.log, env, id, submission).id;
                                           made in db.log.commands && db.log.commands[made].command.retryOf != id)
  }

  /** `RetryCommand` commits if and only if the new ID is valid, the command may be retried and its retry fits. */
  lemma {:induction false} RetryOutcome(db: Db, env: Env, id: CommandId, submission: string)
    requires JournalInv(db)
    ensures RetryCommand(db, env, id, submission).Ok?
       <==> 16 <= |submission| <= 128 && MayRetry(db, id) && RetryFits(db.log, env, id, submission)
    ensures RetryReasons(db, env, id, submission, RetryCommand(db, env, id, submission))
  {
    hide JournalInv, AppendBody, TopLamport;
    if 16 <= |submission| <= 128 && MayRetry(db, id) {
      CommandRowId(db, id);
      var retry := RetryOf(db.log, env, id, submission);
      if retry.id !in db.log.commands { NewRetry(db, env, id, submission); }
    }
  }

  lemma NewRetry(db: Db, env: Env, id: CommandId, submission: string)
    requires id in db.log.commands && RetryOf(db.log, env, id, submission).id !in db.log.commands
    requires db.log.commands[id].command.target in db.log.members && Known(db.log, db.self) && JournalInv(db)
    ensures var result := AppendBody(db, env, CommandBody(RetryOf(db.log, env, id, submission)), []);
      && (result.Ok? <==> RetryFits(db.log, env, id, submission))
      && (result.Err? ==> AtCapacity(result.error))
  {
    hide JournalInv, Sound, AppendBody, TopLamport, WellFormedCommand, AtCapacity;
    RetryWellFormed(db, env, id, submission);
    CommandOutcome(db, env, RetryOf(db.log, env, id, submission), []);
  }

  lemma RetryWellFormed(db: Db, env: Env, id: CommandId, submission: string)
    requires JournalInv(db) && id in db.log.commands
    ensures WellFormedCommand(db.log.fleet, RetryOf(db.log, env, id, submission)) && Sound(db)
  {
    hide ChainValid, MembershipValid, CatalogRows, CatalogEvents, DeletionsSound, CommandEvents, ReceiptRows,
      ReceiptEvents, InventoryRows, InventoryEvents, ImportsSound, Distinct, Agrees, Covered;
  }
}
