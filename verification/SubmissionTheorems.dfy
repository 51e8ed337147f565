/** Submission and retry over whole runs: whatever happens between two attempts, the second finds the first. */
module SubmissionTheorems {
  import opened Records
  import opened Admission
  import opened World
  import opened Journal
  import opened Submission
  import opened SubmissionRules
  import opened SubmissionIdempotence
  import opened SubmissionProgress
  import opened JournalInvariant
  import opened System
  import opened NodeHistory
  import opened SystemInvariant
  import opened SystemSteps

  lemma LaterDb(fleet: string, before: seq<Step>, step: Step, after: seq<Step>, i: NodeId)
    requires i in Run(fleet, before).nodes
    ensures var s, s', s'' := Run(fleet, before), Apply(Run(fleet, before), step), Run(fleet, before + [step] + after);
      && i in s'.nodes && i in s''.nodes && Later(s'.nodes[i].db, s''.nodes[i].db)
      && JournalInv(s.nodes[i].db) && Remembered(s.nodes[i].db) && s.nodes[i].db.self == i
  {
    hide Run, SystemInv, Later, Apply, Inv, NetInv, Cut, ReplicasSound, PathsLegal, LogInvariant.Valid, JournalInv,
      Remembered, History, LogInvariant.CommandRows, Grows;
    var s := Run(fleet, before);
    RunKeeps(fleet, before);
    NodeOf(s, i);
    StepForward(s, step);
    RunSnoc(fleet, before, step);
    RunGrows(fleet, before + [step], after);
  }

  /**
   After a node committed a submission, any run later, the same request again (its targets in any order, its defaults
   spelt out or not) returns the same events and changes nothing, as long as it still passes its own checks; and the
   same submission ID with another kind, target, payload, delivery, expiry or retry link is refused.
   */
  lemma {:induction false} SubmittedOnce(
      fleet: string, before: seq<Step>, after: seq<Step>, i: NodeId, env: Env, req: SubmitRequest,
      env': Env, again: SubmitRequest)
    requires i in Run(fleet, before).nodes && again.submissionId == req.submissionId
    ensures i in Run(fleet, before + [Submit(i, env, req)] + after).nodes
    ensures var first := CreateCommands(Run(fleet, before).nodes[i].db, env, req);
      var db := Run(fleet, before + [Submit(i, env, req)] + after).nodes[i].db;
      first.Ok? ==>
        && (if SameContents(again, req) && Allowed(env', again) && i in db.log.members && !db.log.members[i].removed
            then CreateCommands(db, env', again) == Ok(Commit(db, [], first.value.value))
            else CreateCommands(db, env', again).Err?)
        && (!SameContents(again, req) && Allowed(env', again) && i in db.log.members && !db.log.members[i].removed ==>
              CreateCommands(db, env', again) == Err(SubmissionReused))
  {
    hide SameContents, Allowed, Run, Normal, CreateCommands, ValidRequest, Active, Apply, JournalInv, Remembered, Later;
    LaterDb(fleet, before, Submit(i, env, req), after, i);
    var first := CreateCommands(Run(fleet, before).nodes[i].db, env, req);
    if first.Ok? { SubmittedCommit(fleet, before, after, i, env, req, first.value, env', again); }
  }

  lemma SubmittedCommit(
      fleet: string, before: seq<Step>, after: seq<Step>, i: NodeId, env: Env, req: SubmitRequest,
      commit: Commit<seq<EventId>>, env': Env, again: SubmitRequest)
    requires i in Run(fleet, before).nodes && CreateCommands(Run(fleet, before).nodes[i].db, env, req) == Ok(commit)
    requires again.submissionId == req.submissionId
    ensures i in Run(fleet, before + [Submit(i, env, req)] + after).nodes
    ensures var db := Run(fleet, before + [Submit(i, env, req)] + after).nodes[i].db;
      && (if SameContents(again, req) && Allowed(env', again) && i in db.log.members && !db.log.members[i].removed
          then CreateCommands(db, env', again) == Ok(Commit(db, [], commit.value))
          else CreateCommands(db, env', again).Err?)
      && (!SameContents(again, req) && Allowed(env', again) && i in db.log.members && !db.log.members[i].removed ==>
            CreateCommands(db, env', again) == Err(SubmissionReused))
  {
    hide SameContents, Allowed, Run, JournalInv, Remembered, CreateCommands, Normal, ValidRequest, Later, Active,
      Snapshots;
    LaterDb(fleet, before, Submit(i, env, req), after, i);
    var s := Run(fleet, before);
    var db := Run(fleet, before + [Submit(i, env, req)] + after).nodes[i].db;
    SelfKept(commit.db, db);
    SubmitKeepsSelf(s.nodes[i].db, env, req, commit);
    if !SameContents(again, req) {
      ReuseIsRefused(s.nodes[i].db, env, req, commit, db, env', again);
    } else if Allowed(env', again) && i in db.log.members && !db.log.members[i].removed {
      ResubmissionFindsOriginals(s.nodes[i].db, env, req, commit, db, env', again);
    } else {
      Guards(db, env', again);
    }
  }

  lemma SelfKept(db: Db, next: Db)
    requires Later(db, next)
    ensures next.self == db.self
  {
  }

  lemma SubmitKeepsSelf(db: Db, env: Env, req: SubmitRequest, commit: Commit<seq<EventId>>)
    requires JournalInv(db) && Remembered(db) && CreateCommands(db, env, req) == Ok(commit)
    ensures commit.db.self == db.self
  {
    hide JournalInv, Remembered, CreateCommands, Normal, Found, JournalSteps.Grown, Created;
    CreateKeeps(db, env, req, commit);
  }

  lemma Guards(db: Db, env: Env, req: SubmitRequest)
    requires !Allowed(env, req) || db.self !in db.log.members || db.log.members[db.self].removed
    ensures CreateCommands(db, env, req).Err?
  {
    hide Allowed, ValidRequest, Normal, SubmitAll, Recall;
    AllowedMeans(env, req);
  }

  /**
   In every reachable state a submission commits exactly as `CreateOutcome` says, and a new one has created, for each
   target, the command its request makes.
   */
  lemma {:induction false} SubmissionCreates(fleet: string, steps: seq<Step>, i: NodeId, env: Env, req: SubmitRequest)
    requires i in Run(fleet, steps).nodes
    ensures var db := Run(fleet, steps).nodes[i].db; var result := CreateCommands(db, env, req);
      && (result.Ok? <==>
            && Allowed(env, req) && SelfActive(db)
            && if req.submissionId in db.submissions then db.submissions[req.submissionId] == Normal(req)
               else MaySubmit(db, env, req))
      && (result.Ok? && req.submissionId !in db.submissions ==>
            Created(db.log, env, req, result.value.db.log) && |result.value.appended| == |req.machineIds|)
  {
    hide Allowed, SelfActive, MaySubmit, Created, Run, Normal, CreateCommands, JournalInv, Remembered, Later,
      JournalSteps.Grown, Found;
    JournalOfNode(fleet, steps, i);
    var db := Run(fleet, steps).nodes[i].db;
    CreateOutcome(db, env, req);
    var result := CreateCommands(db, env, req);
    if result.Ok? {
      CreateKeeps(db, env, req, result.value);
      FoundLength(result.value.db.log, req, result.value.value);
    }
  }

  lemma FoundLength(log: Log, req: SubmitRequest, events: seq<EventId>)
    requires Found(log, req.submissionId, Normal(req).machineIds, events)
    ensures |events| == |req.machineIds|
  {
  }

  lemma JournalOfNode(fleet: string, steps: seq<Step>, i: NodeId)
    requires i in Run(fleet, steps).nodes
    ensures JournalInv(Run(fleet, steps).nodes[i].db) && Remembered(Run(fleet, steps).nodes[i].db)
  {
    hide Run, SystemInv, Inv, NetInv, PathsLegal, LogInvariant.Valid, LogInvariant.CommandRows, Cut, ReplicasSound,
      Remembered, JournalInv, History;
    RunKeeps(fleet, steps);
    NodeOf(Run(fleet, steps), i);
  }

  /** In every reachable state a retry commits exactly as `RetryOutcome` says. */
  lemma {:induction false} RetryCommitsIff(
      fleet: string, steps: seq<Step>, i: NodeId, env: Env, id: CommandId, submission: string)
    requires i in Run(fleet, steps).nodes
    ensures var db := Run(fleet, steps).nodes[i].db;
      RetryCommand(db, env, id, submission).Ok?
      <==> (16 <= |submission| <= 128 && MayRetry(db, id) && RetryFits(db.log, env, id, submission))
  {
    hide Run, JournalInv, Remembered, RetryCommand, MayRetry, RetryFits;
    JournalOfNode(fleet, steps, i);
    RetryOutcome(Run(fleet, steps).nodes[i].db, env, id, submission);
  }

  /** The same for an explicit retry: any run later it finds the same event, or is refused as it may not retry now. */
  lemma {:induction false} RetriedOnce(
      fleet: string, before: seq<Step>, after: seq<Step>, i: NodeId, env: Env, id: CommandId, submission: string,
      commit: Commit<EventId>, env': Env)
    requires i in Run(fleet, before).nodes
    requires RetryCommand(Run(fleet, before).nodes[i].db, env, id, submission) == Ok(commit)
    ensures i in Run(fleet, before + [Retry(i, env, id, submission)] + after).nodes
    ensures var db := Run(fleet, before + [Retry(i, env, id, submission)] + after).nodes[i].db;
      if MayRetry(db, id) then RetryCommand(db, env', id, submission) == Ok(Commit(db, [], commit.value))
      else RetryCommand(db, env', id, submission).Err?
  {
    hide Run, JournalInv, Remembered, RetryCommand, MayRetry, Later, Snapshots;
    LaterDb(fleet, before, Retry(i, env, id, submission), after, i);
    var db := Run(fleet, before + [Retry(i, env, id, submission)] + after).nodes[i].db;
    RetryRepeats(Run(fleet, before).nodes[i].db, env, id, submission, commit, db, env');
  }
}
