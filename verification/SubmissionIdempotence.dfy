/**
 Submissions and retries keep the journal's invariants, and repeating one finds
 the original events and changes nothing, whatever happened in between.
 */
module SubmissionIdempotence {
  import opened Records
  import opened Admission
  import opened LogInvariant
  import opened World
  import opened Journal
  import opened JournalSteps
  import opened JournalInvariant
  import opened JournalOperations
  import opened Submission
  import opened SubmissionRules
  import opened TextSort

  // ---- appends that are not receipts -------------------------------------------

  lemma ReceiptHasCommand(log: Log, c: CommandId)
    requires Valid(log) && c in log.receipts
    ensures c in log.commands
  {
    hide ChainValid, MembershipValid, CatalogRows, CatalogEvents, DeletionsSound, CommandRows, CommandEvents,
      InventoryRows, InventoryEvents, ImportsSound;
  }

  /** What any append that is not a receipt leaves alone. */
  lemma PlainTables(log: Log, id: EventId)
    requires !id.of.body.ReceiptBody?
    ensures var next := With(log, Signed(id.of));
      && next.receipts == log.receipts && next.fleet == log.fleet
      && (forall c :: c in log.commands ==> c in next.commands && next.commands[c] == log.commands[c])
  {
  }

  lemma PlainKeepsJournal(db: Db, id: EventId, next: Db)
    requires JournalInv(db) && Appended(db, id, next) && !id.of.body.ReceiptBody?
    ensures Committed(db, [id], next)
  {
    hide Sound, Extends, With, TopLamport;
    PlainTables(db.log, id);
    assert LegalReceipt(db.log, id);
    GrownOne(db.self, db.log, id);
    hide Grown;
    forall c | c in db.log.receipts ensures c in db.log.commands {
      SoundReceiptHasCommand(db, c);
    }
  }

  lemma SoundReceiptHasCommand(db: Db, c: CommandId)
    requires Sound(db) && c in db.log.receipts
    ensures c in db.log.commands
  {
    hide Valid;
    ReceiptHasCommand(db.log, c);
  }

  lemma PlainAppendKeeps(db: Db, env: Env, body: Body, deps: seq<EventId>, commit: Commit<EventId>)
    requires JournalInv(db) && !body.ReceiptBody? && AppendBody(db, env, body, deps) == Ok(commit)
    ensures Committed(db, commit.appended, commit.db) && Appended(db, commit.value, commit.db)
    ensures commit.appended == [commit.value] && commit.value.of.body == body
  {
    hide Sound, AppendBody, Distinct, Agrees, Covered, Appended;
    AppendBodyEffect(db, env, body, deps, commit);
    PlainKeepsJournal(db, commit.value, commit.db);
  }

  // ---- the submission loop -----------------------------------------------------

  lemma CommittedConcat(db: Db, middle: Db, last: Db, xs: seq<EventId>, ys: seq<EventId>)
    requires Committed(db, xs, middle) && Committed(middle, ys, last)
    ensures Committed(db, xs + ys, last)
  {
    hide JournalInv, Grown;
    GrownConcat(db.self, db.log, middle.log, last.log, xs, ys);
  }

  /** No target still to come already has a command of this job. */
  ghost predicate Unsubmitted(log: Log, job: string, targets: seq<NodeId>) {
    forall c :: c in log.commands && log.commands[c].command.jobId == job ==> log.commands[c].command.target !in targets
  }

  /** Position k of the result is the event of the command for target k. */
  ghost predicate Found(log: Log, job: string, targets: seq<NodeId>, events: seq<EventId>) {
    && |events| == |targets|
    && forall k :: 0 <= k < |targets| ==>
         CommandIdOf(log.fleet, job, targets[k]) in log.commands
         && log.commands[CommandIdOf(log.fleet, job, targets[k])].event == events[k]
  }

  /** Later databases keep the commands and submissions of earlier ones. */
  ghost predicate Later(db: Db, next: Db) {
    && next.self == db.self && next.log.fleet == db.log.fleet
    && (forall c :: c in db.log.commands ==> c in next.log.commands && next.log.commands[c] == db.log.commands[c])
    && (forall s :: s in db.submissions ==> s in next.submissions && next.submissions[s] == db.submissions[s])
  }

  /** A new command is recorded under its ID with its own event, because no other command of the job has its target. */
  lemma NewCommandRow(log: Log, id: EventId, job: string, target: NodeId)
    requires id.of.body.CommandBody? && Refusal(log, id.of).None?
    requires id.of.body.command.jobId == job && id.of.body.command.target == target
    requires forall c :: c in log.commands && log.commands[c].command.jobId == job
               ==> log.commands[c].command.target != target
    ensures var next := With(log, Signed(id.of)); var c := id.of.body.command.id;
      c !in log.commands && next.commands == log.commands[c := CommandRow(id, id.of.body.command)]
      && next.fleet == log.fleet
  {
    hide WellFormedCommand;
  }

  lemma AppendedRefusal(db: Db, id: EventId, next: Db)
    requires Appended(db, id, next)
    ensures Refusal(db.log, id.of).None? && next == db.(log := With(db.log, Signed(id.of)))
  {
    hide Sound, Below, Verify, Gate, Refusal, TopLamport, With;
  }

  lemma SubmitStep(
      db: Db, env: Env, r: Request, target: NodeId, rest: seq<NodeId>, step: Commit<EventId>)
    requires target in db.log.members
    requires JournalInv(db) && AppendBody(db, env, CommandBody(CommandFor(db.log, env, r, target)),
                                          AdmissionOf(db.log, target)) == Ok(step)
    requires Unsubmitted(db.log, r.submissionId, [target] + rest) && target !in rest
    ensures Committed(db, step.appended, step.db) && Later(db, step.db)
    ensures Unsubmitted(step.db.log, r.submissionId, rest)
    ensures Found(step.db.log, r.submissionId, [target], [step.value])
    ensures step.db.submissions == db.submissions && step.db.log.members == db.log.members
  {
    hide JournalInv, AppendBody, Appended, Committed, Grown, With, Refusal, CommandPayload;
    var c := CommandFor(db.log, env, r, target);
    PlainAppendKeeps(db, env, CommandBody(c), AdmissionOf(db.log, target), step);
    AppendedRefusal(db, step.value, step.db);
    assert target in [target] + rest && forall t :: t in rest ==> t in [target] + rest;
    NewCommandRow(db.log, step.value, r.submissionId, target);
    CommandMembers(db.log, step.value);
  }

  lemma CommandMembers(log: Log, id: EventId)
    requires id.of.body.CommandBody?
    ensures With(log, Signed(id.of)).members == log.members
  {
  }

  lemma FoundLater(db: Db, next: Db, job: string, targets: seq<NodeId>, events: seq<EventId>)
    requires Found(db.log, job, targets, events) && Later(db, next)
    ensures Found(next.log, job, targets, events)
  {
  }

  lemma FoundPrepend(
      log: Log, job: string, target: NodeId, event: EventId, targets: seq<NodeId>, events: seq<EventId>)
    requires Found(log, job, [target], [event]) && Found(log, job, targets, events)
    ensures Found(log, job, [target] + targets, [event] + events)
  {
    assert [target][0] == target && [event][0] == event;
  }

  lemma {:induction false} SubmitAllKeeps(
      db: Db, env: Env, r: Request, targets: seq<NodeId>, commit: Commit<seq<EventId>>)
    requires JournalInv(db) && SubmitAll(db, env, r, targets) == Ok(commit)
    requires NoDuplicates(targets) && Unsubmitted(db.log, r.submissionId, targets)
    ensures Committed(db, commit.appended, commit.db) && Later(db, commit.db)
    ensures commit.db.submissions == db.submissions && commit.value == commit.appended
    ensures Found(commit.db.log, r.submissionId, targets, commit.value)
    decreases |targets|
  {
    hide JournalInv, AppendBody, Grown, Unsubmitted, CommandFor, Found;
    if targets == [] {
      CommittedRefl(db);
      FoundNothing(db.log, r.submissionId);
    } else {
      var target, rest := targets[0], targets[1..];
      assert targets == [target] + rest;
      var body := CommandBody(CommandFor(db.log, env, r, target));
      var step := AppendBody(db, env, body, AdmissionOf(db.log, target)).value;
      SubmitStep(db, env, r, target, rest, step);
      var tail := SubmitAll(step.db, env, r, rest).value;
      SubmitAllKeeps(step.db, env, r, rest, tail);
      CommittedConcat(db, step.db, tail.db, step.appended, tail.appended);
      StepValue(db, env, body, AdmissionOf(db.log, target), step);
      FoundLater(step.db, tail.db, r.submissionId, [target], [step.value]);
      FoundPrepend(tail.db.log, r.submissionId, target, step.value, rest, tail.value);
    }
  }

  /** The new commands are those the request makes for its targets. */
  ghost predicate Made(log: Log, env: Env, r: Request, targets: seq<NodeId>, next: Log) {
    forall k :: 0 <= k < |targets| ==>
      && Active(log, targets[k]) && CommandIdOf(log.fleet, r.submissionId, targets[k]) in next.commands
      && next.commands[CommandIdOf(log.fleet, r.submissionId, targets[k])].command
         == CommandFor(log, env, r, targets[k])
  }

  lemma StepMakes(db: Db, env: Env, r: Request, target: NodeId, step: Commit<EventId>, last: Db)
    requires Active(db.log, target) && JournalInv(db)
    requires AppendBody(db, env, CommandBody(CommandFor(db.log, env, r, target)),
                        AdmissionOf(db.log, target)) == Ok(step)
    requires Found(step.db.log, r.submissionId, [target], [step.value]) && Later(db, step.db) && Later(step.db, last)
    requires CommandIdOf(db.log.fleet, r.submissionId, target) !in db.log.commands
    ensures Made(db.log, env, r, [target], last.log)
  {
    hide JournalInv, AppendBody, Appended, With, Refusal, CommandPayload, Grown, Committed;
    var c := CommandFor(db.log, env, r, target);
    PlainAppendKeeps(db, env, CommandBody(c), AdmissionOf(db.log, target), step);
    AppendedRefusal(db, step.value, step.db);
    FreshCommandRow(db.log, step.value);
  }

  lemma MadeFirst(
      log: Log, middle: Log, env: Env, r: Request, target: NodeId, targets: seq<NodeId>, next: Log)
    requires Made(log, env, r, [target], next) && Made(middle, env, r, targets, next)
    requires middle.members == log.members && middle.fleet == log.fleet
    ensures Made(log, env, r, [target] + targets, next)
  {
    hide CommandPayload;
    assert [target][0] == target;
    forall k | 0 <= k < |targets|
      ensures targets[k] in log.members
      ensures CommandFor(middle, env, r, targets[k]) == CommandFor(log, env, r, targets[k])
    {
    }
  }

  lemma {:induction false} SubmitAllMakes(
      db: Db, env: Env, r: Request, targets: seq<NodeId>, commit: Commit<seq<EventId>>)
    requires JournalInv(db) && SubmitAll(db, env, r, targets) == Ok(commit)
    requires NoDuplicates(targets) && Unsubmitted(db.log, r.submissionId, targets)
    ensures Made(db.log, env, r, targets, commit.db.log)
    decreases |targets|
  {
    hide JournalInv, AppendBody, Grown, Unsubmitted, CommandFor, Found, Made, Later;
    if targets == [] {
      MadeNothing(db.log, env, r, commit.db.log);
    } else {
      var target, rest := targets[0], targets[1..];
      assert targets == [target] + rest;
      var body := CommandBody(CommandFor(db.log, env, r, target));
      var step := AppendBody(db, env, body, AdmissionOf(db.log, target)).value;
      SubmitStep(db, env, r, target, rest, step);
      var tail := SubmitAll(step.db, env, r, rest).value;
      SubmitAllKeeps(step.db, env, r, rest, tail);
      SubmitAllMakes(step.db, env, r, rest, tail);
      UnsubmittedFirst(db.log, r.submissionId, target, rest);
      NotYet(db, env, r, target, step);
      StepMakes(db, env, r, target, step, tail.db);
      SameFleet(db, step.db);
      MadeFirst(db.log, step.db.log, env, r, target, rest, tail.db.log);
    }
  }

  /** The command of a step that added it was not there before. */
  lemma NotYet(db: Db, env: Env, r: Request, target: NodeId, step: Commit<EventId>)
    requires target in db.log.members && JournalInv(db)
    requires AppendBody(db, env, CommandBody(CommandFor(db.log, env, r, target)),
                        AdmissionOf(db.log, target)) == Ok(step)
    requires Unsubmitted(db.log, r.submissionId, [target])
    ensures CommandIdOf(db.log.fleet, r.submissionId, target) !in db.log.commands
  {
    hide JournalInv, AppendBody, Appended, With, Refusal, CommandPayload, Grown, Committed;
    var c := CommandFor(db.log, env, r, target);
    PlainAppendKeeps(db, env, CommandBody(c), AdmissionOf(db.log, target), step);
    AppendedRefusal(db, step.value, step.db);
    assert target in [target];
    NewCommandRow(db.log, step.value, r.submissionId, target);
  }

  lemma UnsubmittedFirst(log: Log, job: string, target: NodeId, rest: seq<NodeId>)
    requires Unsubmitted(log, job, [target] + rest)
    ensures Unsubmitted(log, job, [target])
  {
    assert target in [target] + rest;
  }

  lemma SameFleet(db: Db, next: Db)
    requires Later(db, next)
    ensures next.log.fleet == db.log.fleet
  {
  }

  lemma MadeNothing(log: Log, env: Env, r: Request, next: Log)
    ensures Made(log, env, r, [], next)
  {
  }

  lemma StepValue(db: Db, env: Env, body: Body, deps: seq<EventId>, step: Commit<EventId>)
    requires AppendBody(db, env, body, deps) == Ok(step)
    ensures step.appended == [step.value]
  {
    hide Append, Draft;
  }

  lemma FoundNothing(log: Log, job: string)
    ensures Found(log, job, [], [])
  {
  }

  lemma {:induction false} RecallFinds(log: Log, job: string, targets: seq<NodeId>, events: seq<EventId>)
    requires Found(log, job, targets, events)
    ensures Recall(log, job, targets) == Ok(events)
    decreases |targets|
  {
    if targets != [] {
      assert forall k :: 0 <= k < |targets[1..]| ==>
        targets[1..][k] == targets[k + 1] && events[1..][k] == events[k + 1];
      RecallFinds(log, job, targets[1..], events[1..]);
      assert events == [events[0]] + events[1..];
    } else {
      assert events == [];
    }
  }

  // ---- the whole operation ------------------------------------------------------

  /** Everything the node remembers having submitted is in its commands. */
  ghost predicate Remembered(db: Db) {
    forall s :: s in db.submissions ==>
      db.submissions[s].submissionId == s
      && forall t :: t in db.submissions[s].machineIds ==> CommandIdOf(db.log.fleet, s, t) in db.log.commands
  }

  lemma {:induction false} RecallFound(log: Log, job: string, targets: seq<NodeId>)
    requires forall t :: t in targets ==> CommandIdOf(log.fleet, job, t) in log.commands
    ensures Recall(log, job, targets).Ok? && Found(log, job, targets, Recall(log, job, targets).value)
    decreases |targets|
  {
    if targets != [] {
      RecallFound(log, job, targets[1..]);
      var tail := Recall(log, job, targets[1..]).value;
      assert targets == [targets[0]] + targets[1..];
      var event := log.commands[CommandIdOf(log.fleet, job, targets[0])].event;
      FoundPrepend(log, job, targets[0], event, targets[1..], tail);
    }
  }

  lemma UnsubmittedJob(log: Log, job: string, targets: seq<NodeId>)
    requires !exists c :: c in log.commands && log.commands[c].command.jobId == job
    ensures Unsubmitted(log, job, targets)
  {
  }

  lemma RememberedAfter(db: Db, middle: Db, r: Request, events: seq<EventId>, next: Db)
    requires Remembered(db) && Later(db, middle) && middle.submissions == db.submissions
    requires Found(middle.log, r.submissionId, r.machineIds, events)
    requires next == middle.(submissions := middle.submissions[r.submissionId := r])
    ensures Remembered(next)
  {
    forall t | t in r.machineIds ensures CommandIdOf(next.log.fleet, r.submissionId, t) in next.log.commands {
      var k :| 0 <= k < |r.machineIds| && r.machineIds[k] == t;
    }
  }

  lemma SubmissionsAside(db: Db, next: Db)
    requires JournalInv(db) && next == db.(submissions := next.submissions)
    ensures JournalInv(next)
  {
    hide Valid;
  }

  /** For each target, which is a member not removed, there is now the command the request makes for it. */
  ghost predicate Created(log: Log, env: Env, req: SubmitRequest, next: Log) {
    forall t :: t in req.machineIds ==>
      && t in log.members && !log.members[t].removed
      && CommandIdOf(log.fleet, req.submissionId, t) in next.commands
      && Carries(log, env, req, t, next.commands[CommandIdOf(log.fleet, req.submissionId, t)].command)
  }

  lemma MadeIsCreated(log: Log, env: Env, req: SubmitRequest, next: Log)
    requires Made(log, env, Normal(req), Normal(req).machineIds, next)
    ensures Created(log, env, req, next)
  {
    hide Normal, CommandFor, Carries, Sorted;
    NormalMeans(req);
    var targets := Normal(req).machineIds;
    forall t | t in req.machineIds
      ensures t in log.members && !log.members[t].removed
      ensures CommandIdOf(log.fleet, req.submissionId, t) in next.commands
      ensures Carries(log, env, req, t, next.commands[CommandIdOf(log.fleet, req.submissionId, t)].command)
    {
      assert t in multiset(req.machineIds);
      assert t in multiset(targets);
      var k :| 0 <= k < |targets| && targets[k] == t;
      CommandMeans(log, env, req, t);
    }
  }

  /**
   A committed submission keeps every invariant, and its events are those of its commands.  A repeated one changes
   nothing; a new one creates, for each target, the command its request makes.
   */
  lemma {:induction false} CreateKeeps(db: Db, env: Env, req: SubmitRequest, commit: Commit<seq<EventId>>)
    requires JournalInv(db) && Remembered(db) && CreateCommands(db, env, req) == Ok(commit)
    ensures Committed(db, commit.appended, commit.db) && Later(db, commit.db) && Remembered(commit.db)
    ensures Found(commit.db.log, req.submissionId, Normal(req).machineIds, commit.value)
    ensures req.submissionId in commit.db.submissions && commit.db.submissions[req.submissionId] == Normal(req)
    ensures if req.submissionId in db.submissions then commit == Commit(db, [], commit.value)
            else commit.value == commit.appended && Created(db.log, env, req, commit.db.log)
  {
    hide JournalInv, SubmitAll, Recall, Remembered, Found, Unsubmitted, Grown, NoDuplicates, ValidKind,
      ValidDiagnostics, SortTexts, Created, Made;
    var r := Normal(req);
    if r.submissionId in db.submissions {
      RememberedTargets(db, r);
      RecallFound(db.log, r.submissionId, r.machineIds);
      CommittedRefl(db);
    } else {
      UnsubmittedJob(db.log, r.submissionId, r.machineIds);
      var inner := SubmitAll(db, env, r, r.machineIds).value;
      SubmitAllKeeps(db, env, r, r.machineIds, inner);
      SubmitAllMakes(db, env, r, r.machineIds, inner);
      MadeIsCreated(db.log, env, req, inner.db.log);
      RememberedAfter(db, inner.db, r, inner.value, commit.db);
      SubmissionsAside(inner.db, commit.db);
    }
  }

  lemma RememberedTargets(db: Db, r: Request)
    requires Remembered(db) && r.submissionId in db.submissions && db.submissions[r.submissionId] == r
    ensures forall t :: t in r.machineIds ==> CommandIdOf(db.log.fleet, r.submissionId, t) in db.log.commands
  {
  }

  /**
   Repeating a request on any later database of the same node returns the original events and changes nothing:
   the target order and absent defaults do not matter, only that the request still passes its own checks.
   */
  lemma {:induction false} ResubmissionFindsOriginals(
      db: Db, env: Env, req: SubmitRequest, commit: Commit<seq<EventId>>, later: Db, env': Env, again: SubmitRequest)
    requires JournalInv(db) && Remembered(db) && CreateCommands(db, env, req) == Ok(commit)
    requires Later(commit.db, later) && SameContents(again, req) && Allowed(env', again)
    requires later.self in later.log.members && !later.log.members[later.self].removed
    ensures CreateCommands(later, env', again) == Ok(Commit(later, [], commit.value))
  {
    SameRequest(again, req);
    AllowedMeans(env', again);
    hide SameContents, Allowed, Carries, Created;
    hide JournalInv, SubmitAll, Recall, Remembered, Found, Unsubmitted, Grown, ValidRequest, CreateCommands, SortTexts;
    CreateKeeps(db, env, req, commit);
    var r := Normal(req);
    FoundLater(commit.db, later, r.submissionId, r.machineIds, commit.value);
    RecallFinds(later.log, r.submissionId, r.machineIds, commit.value);
    RepeatedRequest(later, env', again);
  }

  lemma RepeatedRequest(db: Db, env: Env, req: SubmitRequest)
    requires var r := Normal(req);
      ValidRequest(env, r) && Active(db.log, db.self)
      && r.submissionId in db.submissions && db.submissions[r.submissionId] == r
      && Recall(db.log, r.submissionId, r.machineIds).Ok?
    ensures CreateCommands(db, env, req)
         == Ok(Commit(db, [], Recall(db.log, req.submissionId, Normal(req).machineIds).value))
  {
    hide ValidRequest, SubmitAll, Recall, SortTexts;
  }

  /** Reusing a submission ID with other contents fails, and so changes nothing, on every later database. */
  lemma {:induction false} ReuseIsRefused(
      db: Db, env: Env, req: SubmitRequest, commit: Commit<seq<EventId>>, later: Db, env': Env, other: SubmitRequest)
    requires JournalInv(db) && Remembered(db) && CreateCommands(db, env, req) == Ok(commit)
    requires Later(commit.db, later) && other.submissionId == req.submissionId && !SameContents(other, req)
    ensures CreateCommands(later, env', other).Err?
    ensures Allowed(env', other) && later.self in later.log.members && !later.log.members[later.self].removed ==>
      CreateCommands(later, env', other) == Err(SubmissionReused)
  {
    SameRequest(other, req);
    AllowedMeans(env', other);
    hide SameContents, Allowed, Carries, Created;
    hide JournalInv, SubmitAll, Recall, Remembered, Found, Unsubmitted, Grown, ValidRequest, SortTexts;
    CreateKeeps(db, env, req, commit);
  }

  // ---- retry -------------------------------------------------------------

  /** A committed retry keeps every invariant; the command it names retries `id`. */
  lemma {:induction false} RetryKeeps(db: Db, env: Env, id: CommandId, submission: string, commit: Commit<EventId>)
    requires JournalInv(db) && Remembered(db) && RetryCommand(db, env, id, submission) == Ok(commit)
    ensures Committed(db, commit.appended, commit.db) && Later(db, commit.db) && Remembered(commit.db)
    ensures id in db.log.commands
    ensures var newId := CommandIdOf(db.log.fleet, submission, db.log.commands[id].command.target);
      newId in commit.db.log.commands && commit.db.log.commands[newId].event == commit.value
      && commit.db.log.commands[newId].command.retryOf == id
      && if newId in db.log.commands then commit == Commit(db, [], commit.value)
         else commit.appended == [commit.value]
              && Repeats(db.log.fleet, env, db.log.commands[id].command, submission,
                         commit.db.log.commands[newId].command)
  {
    hide JournalInv, AppendBody, Grown, Remembered, With, Refusal, Appended;
    CommandRowId(db, id);
    var c := db.log.commands[id].command;
    var newId := CommandIdOf(db.log.fleet, submission, c.target);
    if newId in db.log.commands {
      CommittedRefl(db);
    } else {
      var retry := c.(retryOf := id, id := newId, jobId := submission, createdAt := env.now, delivery := Online,
                      expiresAt := 0);
      PlainAppendKeeps(db, env, CommandBody(retry), [], commit);
      AppendedRefusal(db, commit.value, commit.db);
      FreshCommandRow(db.log, commit.value);
      RememberedLater(db, commit.db);
    }
  }

  lemma FreshCommandRow(log: Log, id: EventId)
    requires id.of.body.CommandBody? && id.of.body.command.id !in log.commands
    ensures var next := With(log, Signed(id.of));
      next.commands == log.commands[id.of.body.command.id := CommandRow(id, id.of.body.command)]
      && next.fleet == log.fleet
  {
  }

  lemma RememberedLater(db: Db, next: Db)
    requires Remembered(db) && Later(db, next) && next.submissions == db.submissions
    ensures Remembered(next)
  {
  }

  /** The guards a retry of `id` meets before it looks for an earlier one. */
  ghost predicate MayRetry(db: Db, id: CommandId) {
    && id in db.log.commands
    && db.self in db.log.members && !db.log.members[db.self].removed
    && db.log.commands[id].command.target in db.log.members
    && !db.log.members[db.log.commands[id].command.target].removed
    && Retryable(db.log, id)
  }

  /** Repeating a retry finds the same event exactly while the original command still qualifies for one. */
  lemma {:induction false} RetryRepeats(
      db: Db, env: Env, id: CommandId, submission: string, commit: Commit<EventId>, later: Db, env': Env)
    requires JournalInv(db) && Remembered(db) && RetryCommand(db, env, id, submission) == Ok(commit)
    requires Later(commit.db, later)
    ensures RetryCommand(later, env', id, submission) == Ok(Commit(later, [], commit.value)) <==> MayRetry(later, id)
    ensures RetryCommand(later, env', id, submission).Err? <==> !MayRetry(later, id)
  {
    hide JournalInv, AppendBody, Grown, Remembered, RetryCommand, BlocksRetry;
    RetryKeeps(db, env, id, submission, commit);
    RetryId(db, env, id, submission);
    RetryAgain(later, env', id, submission);
  }

  lemma RetryId(db: Db, env: Env, id: CommandId, submission: string)
    requires RetryCommand(db, env, id, submission).Ok?
    ensures ValidSubmissionId(submission)
  {
    hide AppendBody;
  }

  lemma RetryAgain(db: Db, env: Env, id: CommandId, submission: string)
    requires ValidSubmissionId(submission) && id in db.log.commands
    requires var newId := CommandIdOf(db.log.fleet, submission, db.log.commands[id].command.target);
      newId in db.log.commands && db.log.commands[newId].command.retryOf == id
    ensures var newId := CommandIdOf(db.log.fleet, submission, db.log.commands[id].command.target);
      MayRetry(db, id) ==> RetryCommand(db, env, id, submission) == Ok(Commit(db, [], db.log.commands[newId].event))
    ensures !MayRetry(db, id) ==> RetryCommand(db, env, id, submission).Err?
  {
    hide AppendBody;
  }

  /**
   The other side of that condition is reached in practice: a retry issued before the target answered is refused the
   second time once the target has accepted the original.
   */
  lemma {:induction false} RetryAfterAcceptance(
      db: Db, env: Env, id: CommandId, submission: string, commit: Commit<EventId>,
      env2: Env, accepted: Commit<Receipt>, env3: Env)
    requires JournalInv(db) && Remembered(db) && RetryCommand(db, env, id, submission) == Ok(commit)
    requires CommandRows(commit.db.log) && Accept(commit.db, env2, id) == Ok(accepted)
    requires accepted.value.status in {Queued, Held}
    ensures RetryCommand(accepted.db, env3, id, submission) == Err(NotRetryable)
  {
    hide JournalInv, AppendBody, AppendReceipt, AcceptStatus, Grown, Remembered, RetryCommand, CommandRows, Later,
      InInbox;
    RetryKeeps(db, env, id, submission, commit);
    RetryId(db, env, id, submission);
    AcceptKeeps(commit.db, env2, id, accepted);
    WaitingBlocksRetry(accepted.db, env3, id, submission);
  }

  lemma WaitingBlocksRetry(db: Db, env: Env, id: CommandId, submission: string)
    requires ValidSubmissionId(submission) && id in db.log.commands && db.log.commands[id].command.target == db.self
    requires Active(db.log, db.self) && StatusIn(db.log, id) in {Some(Queued), Some(Held)}
    ensures RetryCommand(db, env, id, submission) == Err(NotRetryable)
  {
    hide AppendBody;
  }

  /** The retry link a node creates points to a command whose event it held, with a smaller Lamport counter. */
  lemma {:induction false} RetryLinksBack(db: Db, env: Env, id: CommandId, submission: string, commit: Commit<EventId>)
    requires JournalInv(db) && RetryCommand(db, env, id, submission) == Ok(commit) && commit.appended != []
    ensures id in db.log.commands && commit.value.of.body.CommandBody? && commit.value.of.body.command.retryOf == id
    ensures db.log.commands[id].event in db.log.events
    ensures db.log.commands[id].event.of.lamport < commit.value.of.lamport
  {
    hide JournalInv, AppendBody, Grown, With, Refusal, Appended;
    var c := db.log.commands[id].command;
    var retry := c.(retryOf := id, id := CommandIdOf(db.log.fleet, submission, c.target), jobId := submission,
                    createdAt := env.now, delivery := Online, expiresAt := 0);
    PlainAppendKeeps(db, env, CommandBody(retry), [], commit);
    AppendedBelow(db, commit.value, commit.db);
    CommandEventHeld(db, id);
  }

  lemma AppendedBelow(db: Db, id: EventId, next: Db)
    requires Appended(db, id, next)
    ensures Below(db.log, id)
  {
    hide Sound, Below, Admissible, TopLamport, With;
  }

  lemma CommandEventHeld(db: Db, id: CommandId)
    requires JournalInv(db) && id in db.log.commands
    ensures db.log.commands[id].event in db.log.events
  {
    hide ChainValid, MembershipValid, CatalogRows, CatalogEvents, DeletionsSound, CommandEvents, ReceiptRows,
      ReceiptEvents, InventoryRows, InventoryEvents, ImportsSound, Distinct, Agrees, Covered, WellFormedCommand;
  }
}
