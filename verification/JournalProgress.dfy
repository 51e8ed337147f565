/**
 When the journal's operations commit, exactly.  None is ever refused because a
 receipt is terminal, a row is missing or a command is not the node's own: past
 the guards an operation reports to its caller, only two limits remain, the
 Lamport counter and the length of an encoded receipt.  The second is not a
 formality: a result too long to be reported is refused and stays running.
 */
module JournalProgress {
  import opened Records
  import opened Admission
  import opened LogInvariant
  import opened CommandRules
  import opened Journal
  import opened JournalSteps
  import opened JournalInvariant
  import opened JournalOperations
  import opened JournalFairness

  /** Room in the Lamport counter for these receipts, each short enough. */
  ghost predicate AllFit(log: Log, env: Env, due: seq<Receipt>) {
    && TopLamport(log) + |due| <= INT64_MAX
    && forall k :: 0 <= k < |due| ==> env.encodedLength(ReceiptBody(due[k])) <= MAX_BODY / 2
  }

  lemma FitFirst(log: Log, next: Log, env: Env, r: Receipt, rest: seq<Receipt>)
    requires TopLamport(next) == TopLamport(log) + 1
    ensures AllFit(log, env, [r] + rest) <==> Fits(log, env, r) && AllFit(next, env, rest)
  {
    hide TopLamport;
    var due := [r] + rest;
    assert due[0] == r && forall k :: 0 <= k < |rest| ==> due[k + 1] == rest[k];
  }

  lemma FitOne(log: Log, env: Env, r: Receipt, rest: seq<Receipt>)
    ensures AllFit(log, env, [r]) <==> Fits(log, env, r)
    ensures AllFit(log, env, [r] + rest) ==> Fits(log, env, r)
  {
    hide TopLamport;
    assert ([r] + rest)[0] == r && [r][0] == r;
  }

  lemma FitNone(log: Log, env: Env)
    requires TopLamport(log) <= INT64_MAX
    ensures AllFit(log, env, [])
  {
    hide TopLamport;
  }

  lemma TopBounded(db: Db)
    requires JournalInv(db)
    ensures TopLamport(db.log) <= INT64_MAX
  {
    hide Unforked, Chained, Causal, MembershipValid, TablesValid, Distinct, Agrees, Covered;
    if TopLamport(db.log) > 0 {
      var id :| id in db.log.events && id.of.lamport == TopLamport(db.log);
      assert Verify(Signed(id.of), db.log.fleet).None?;
    }
  }

  // ---- Next -------------------------------------------------------------

  /** The receipts a scan of these commands writes: up to and including the first that runs. */
  function Due(log: Log, env: Env, ids: seq<CommandId>): seq<Receipt> {
    if ids == [] || ids[0] !in log.commands then []
    else
      var verdict := VerdictOf(log, env, ids[0]);
      if verdict.None? then Due(log, env, ids[1..])
      else
        var r := ReceiptFor(log.commands[ids[0]].command, env, verdict.value.0, verdict.value.1, NO_DETAILS);
        if verdict.value.0 == Running then [r] else [r] + Due(log, env, ids[1..])
  }

  lemma {:induction false} DueStable(db: Db, next: Db, env: Env, ids: seq<CommandId>)
    requires SameTables(db, next)
    ensures Due(next.log, env, ids) == Due(db.log, env, ids)
    decreases |ids|
  {
    hide ReceiptFor;
    VerdictStable(db, next, env);
    if ids != [] { DueStable(db, next, env, ids[1..]); }
  }

  lemma {:induction false} ScanOutcome(db: Db, env: Env, ids: seq<CommandId>)
    requires JournalInv(db) && Pending(db, ids)
    ensures Scan(db, env, ids).Ok? <==> AllFit(db.log, env, Due(db.log, env, ids))
    ensures Scan(db, env, ids).Err? ==> AtCapacity(Scan(db, env, ids).error)
    decreases |ids|
  {
    hide JournalInv, Advance, Pending, Verdict, TopLamport, Grown, SameTables, SameRows, Moved, AllFit, Fits,
      AtCapacity;
    TopBounded(db);
    if ids == [] {
      FitNone(db.log, env);
    } else {
      var rest := ids[1..];
      assert ids == [ids[0]] + rest;
      PendingTail(db, ids);
      var verdict := VerdictOf(db.log, env, ids[0]);
      if verdict.None? {
        ScanOutcome(db, env, rest);
      } else {
        ScanStepOutcome(db, env, rest, ids);
      }
    }
  }

  lemma {:induction false} ScanStepOutcome(db: Db, env: Env, rest: seq<CommandId>, ids: seq<CommandId>)
    requires ids != [] && rest == ids[1..] && ids[0] in db.log.commands
    requires JournalInv(db) && Pending(db, ids) && VerdictOf(db.log, env, ids[0]).Some?
    ensures Scan(db, env, ids).Ok? <==> AllFit(db.log, env, Due(db.log, env, ids))
    ensures Scan(db, env, ids).Err? ==> AtCapacity(Scan(db, env, ids).error)
    decreases |ids|, 0
  {
    hide JournalInv, Advance, Pending, Verdict, TopLamport, Grown, SameTables, SameRows, Moved, AllFit, Fits,
      AtCapacity;
    assert ids == [ids[0]] + rest;
    PendingHead(db, ids);
    CommandRowId(db, ids[0]);
    var c := db.log.commands[ids[0]].command;
    var (status, message) := VerdictOf(db.log, env, ids[0]).value;
    var r := ReceiptFor(c, env, status, message, NO_DETAILS);
    VerdictStatus(db, env, ids[0]);
    AdvanceOutcome(db, env, c, status, message, NO_DETAILS);
    FitOne(db.log, env, r, Due(db.log, env, rest));
    var step := Advance(db, env, c, status, message, NO_DETAILS);
    if step.Ok? {
      ScanStep(db, env, c, rest, status, message, step.value);
      if status != Running {
        ScanOutcome(step.value.db, env, rest);
        DueStable(db, step.value.db, env, rest);
        FitFirst(db.log, step.value.db.log, env, r, Due(db.log, env, rest));
      }
    }
  }

  lemma PendingHead(db: Db, ids: seq<CommandId>)
    requires Pending(db, ids) && ids != []
    ensures Targets(db.log, ids[0], db.self)
    ensures ids[0] in db.log.receipts && !Terminal(db.log.receipts[ids[0]].receipt.status)
  {
  }

  lemma VerdictStatus(db: Db, env: Env, id: CommandId)
    requires id in db.log.commands && VerdictOf(db.log, env, id).Some?
    ensures !VerdictOf(db.log, env, id).value.0.OtherStatus?
  {
  }

  /** Everything the scan has to write fits. */
  ghost predicate NextFits(db: Db, env: Env) {
    AllFit(db.log, env, Due(db.log, env, Select(db.inbox, {Queued, Held})))
  }

  /** `Next` commits if and only if the receipts it has to write fit; it fails only for a limit. */
  lemma {:induction false} NextOutcome(db: Db, env: Env)
    requires JournalInv(db)
    ensures Next(db, env).Ok? <==> NextFits(db, env)
    ensures Next(db, env).Err? ==> AtCapacity(Next(db, env).error)
  {
    hide JournalInv, Pending, Scan, AllFit, Due, AtCapacity;
    SelectPending(db);
    ScanOutcome(db, env, Select(db.inbox, {Queued, Held}));
  }

  // ---- Recover ----------------------------------------------------------

  /** The receipts recovery writes for these commands. */
  function Settled(log: Log, env: Env, ids: seq<CommandId>): seq<Receipt> {
    if ids == [] || ids[0] !in log.commands then []
    else
      var c := log.commands[ids[0]].command;
      [ReceiptFor(c, env, Interrupted(c.kind).0, Interrupted(c.kind).1, NO_DETAILS)] + Settled(log, env, ids[1..])
  }

  lemma {:induction false} SettledStable(db: Db, next: Db, env: Env, ids: seq<CommandId>)
    requires SameTables(db, next)
    ensures Settled(next.log, env, ids) == Settled(db.log, env, ids)
    decreases |ids|
  {
    if ids != [] { SettledStable(db, next, env, ids[1..]); }
  }

  lemma {:induction false} SettleOutcome(db: Db, env: Env, ids: seq<CommandId>)
    requires JournalInv(db) && Halted(db, ids)
    ensures Settle(db, env, ids).Ok? <==> AllFit(db.log, env, Settled(db.log, env, ids))
    ensures Settle(db, env, ids).Err? ==> AtCapacity(Settle(db, env, ids).error)
    decreases |ids|
  {
    hide JournalInv, Advance, Halted, TopLamport, Grown, SameTables, SameRows, Moved, AllFit, Fits, AtCapacity,
      Interrupted;
    TopBounded(db);
    if ids == [] {
      FitNone(db.log, env);
    } else {
      var rest := ids[1..];
      assert ids == [ids[0]] + rest;
      HaltedHead(db, ids);
      CommandRowId(db, ids[0]);
      var c := db.log.commands[ids[0]].command;
      var (status, message) := Interrupted(c.kind);
      var r := ReceiptFor(c, env, status, message, NO_DETAILS);
      InterruptedStatus(c.kind);
      AdvanceOutcome(db, env, c, status, message, NO_DETAILS);
      FitOne(db.log, env, r, Settled(db.log, env, rest));
      var step := Advance(db, env, c, status, message, NO_DETAILS);
      if step.Ok? {
        SettleStep(db, env, c, rest, status, message, step.value);
        SettleOutcome(step.value.db, env, rest);
        SettledStable(db, step.value.db, env, rest);
        FitFirst(db.log, step.value.db.log, env, r, Settled(db.log, env, rest));
      }
    }
  }

  lemma InterruptedStatus(kind: string)
    ensures !Interrupted(kind).0.OtherStatus?
  {
  }

  /** Everything recovery has to write fits. */
  ghost predicate RecoverFits(db: Db, env: Env, pendingUpdate: CommandId) {
    AllFit(db.log, env, Settled(db.log, env, RunningExcept(db, pendingUpdate)))
  }

  /** `RecoverExcept` commits if and only if the receipts it has to write fit; it fails only for a limit. */
  lemma {:induction false} RecoverOutcome(db: Db, env: Env, pendingUpdate: CommandId)
    requires JournalInv(db)
    ensures Recover(db, env, pendingUpdate).Ok? <==> RecoverFits(db, env, pendingUpdate)
    ensures Recover(db, env, pendingUpdate).Err? ==> AtCapacity(Recover(db, env, pendingUpdate).error)
  {
    hide JournalInv, Halted, Settle, AllFit, Settled, AtCapacity;
    RunningHalted(db, pendingUpdate);
    SettleOutcome(db, env, RunningExcept(db, pendingUpdate));
  }

  // ---- Complete ---------------------------------------------------------

  /** The guards of `Complete`: a running row, and one of the three executor results. */
  predicate MayComplete(db: Db, c: CommandId, status: Status) {
    StateOf(db.inbox, c) == Some(Running) && status in {Done, Failed, Unknown}
  }

  /** `Complete` commits if and only if its guards hold and the result fits; past them it fails only for a limit. */
  lemma {:induction false} CompleteOutcome(
      db: Db, env: Env, c: Command, status: Status, message: string, details: Details)
    requires c.id in db.log.commands ==> db.log.commands[c.id].command == c
    requires JournalInv(db)
    ensures var result := Complete(db, env, c, status, message, details);
      var r := ReceiptFor(c, env, status, message, details);
      && (result.Ok? <==> MayComplete(db, c.id, status) && Fits(db.log, env, r))
      && (result.Err? && MayComplete(db, c.id, status) ==> AtCapacity(result.error))
      && (result == Err(NotFound) <==> StateOf(db.inbox, c.id).None?)
      && (result == Err(NotRunning) <==> StateOf(db.inbox, c.id) !in {None, Some(Running)})
      && (result == Err(InvalidResult) <==>
            StateOf(db.inbox, c.id) == Some(Running) && status !in {Done, Failed, Unknown})
  {
    hide JournalInv, Advance, StateOf, InInbox, Fits;
    if MayComplete(db, c.id, status) {
      StateRow(db, c.id, Running);
      AdvanceOutcome(db, env, c, status, message, details);
    }
  }

  /**
   Where that fails: an execution that ended well, but whose receipt is too long, is refused, so its row stays running;
   the next recovery then reports it unknown, or queues it again if it is a check or a diagnostics run.
   */
  lemma {:induction false} OversizedResultIsLost(
      db: Db, env: Env, c: Command, message: string, details: Details, later: Env, commit: Commit<()>)
    requires c.id in db.log.commands && db.log.commands[c.id].command == c && JournalInv(db)
    requires StateOf(db.inbox, c.id) == Some(Running) && TopLamport(db.log) < INT64_MAX
    requires env.encodedLength(ReceiptBody(ReceiptFor(c, env, Done, message, details))) > MAX_BODY / 2
    requires c.id != "" && Recover(db, later, "") == Ok(commit)
    ensures Complete(db, env, c, Done, message, details) == Err(Oversized)
    ensures StatusIn(commit.db.log, c.id) == Some(if c.kind in {"check", "diagnostics"} then Queued else Unknown)
  {
    hide JournalInv, AppendReceipt, Recover, StateOf, InInbox, Committed, SameRows, SameTables, Halted, RecoveredRows,
      RunningExcept, Recovered, TopLamport;
    CompleteOutcome(db, env, c, Done, message, details);
    StateRow(db, c.id, Running);
    AdvanceOutcome(db, env, c, Done, message, details);
    RecoverKeeps(db, later, "", commit);
    RunningSelected(db, c.id);
    AfterRecovery(db, RunningExcept(db, ""), commit.db, c.id);
  }

  lemma AfterRecovery(db: Db, ids: seq<CommandId>, next: Db, id: CommandId)
    requires Recovered(db, ids, next) && id in ids && id in db.log.commands
    ensures StatusIn(next.log, id) ==
      Some(if db.log.commands[id].command.kind in {"check", "diagnostics"} then Queued else Unknown)
  {
  }

  lemma RunningSelected(db: Db, id: CommandId)
    requires StateOf(db.inbox, id) == Some(Running) && id != ""
    ensures id in RunningExcept(db, "")
  {
    hide StateOf;
  }

  // ---- Accept -----------------------------------------------------------

  /** The guards of `Accept`: the node's own command, target and origin not removed. */
  ghost predicate MayAccept(db: Db, id: CommandId) {
    id in db.log.commands && db.log.commands[id].command.target == db.self && InFleet(db.log, id)
  }

  /** The reasons `Accept` gives: an unknown command, another node's, a removed target, a removed origin. */
  ghost predicate AcceptReasons(db: Db, id: CommandId, result: Result<Commit<Receipt>>) {
    var known := id in db.log.commands;
    var mine := known && db.log.commands[id].command.target == db.self;
    var here := mine && db.self in db.log.members && !db.log.members[db.self].removed;
    && (result == Err(NotFound) <==> !known)
    && (result == Err(WrongTarget) <==> known && !mine)
    && (result == Err(Inactive) <==> mine && !here)
    && (result == Err(OriginRemoved) <==> here && !InFleet(db.log, id))
  }

  /** The receipt a first acceptance writes. */
  function AcceptReceipt(log: Log, env: Env, id: CommandId): Receipt
    requires id in log.commands
  {
    var c := log.commands[id].command;
    ReceiptFor(c, env, AcceptStatus(c, env).0, AcceptStatus(c, env).1, NO_DETAILS)
  }

  /** The command was answered before, or a first answer fits. */
  ghost predicate MayAnswer(log: Log, env: Env, id: CommandId)
    requires id in log.commands
  {
    id in log.receipts || Fits(log, env, AcceptReceipt(log, env, id))
  }

  /**
   `Accept` succeeds if and only if its guards hold and it has answered before or its receipt fits; otherwise it gives
   the reason that applies.
   */
  lemma {:induction false} AcceptOutcome(db: Db, env: Env, id: CommandId)
    requires JournalInv(db)
    ensures var result := Accept(db, env, id);
      && (result.Ok? <==> MayAccept(db, id) && MayAnswer(db.log, env, id))
      && (result.Err? && MayAccept(db, id) ==> AtCapacity(result.error))
      && AcceptReasons(db, id, result)
  {
    hide FirstAnswer, JournalInv, Sound, AppendReceipt, Fits, AcceptStatus, InInbox, AtCapacity, TopLamport;
    if Targets(db.log, id, db.self) && id !in db.log.receipts {
      CommandRowId(db, id);
      NotInInbox(db, id);
      var c := db.log.commands[id].command;
      var (status, message) := AcceptStatus(c, env);
      AcceptMeans(c, env);
      SoundOf(db);
      AppendReceiptOutcome(db, env, c, status, message, NO_DETAILS);
      FitsIs(db.log, env, AcceptReceipt(db.log, env, id));
    }
  }

  lemma FitsIs(log: Log, env: Env, r: Receipt)
    ensures Fits(log, env, r) <==> TopLamport(log) < INT64_MAX && env.encodedLength(ReceiptBody(r)) <= MAX_BODY / 2
    ensures AtCapacity(LamportExhausted) && AtCapacity(Oversized)
  {
    hide TopLamport;
  }

  lemma SoundOf(db: Db)
    requires JournalInv(db)
    ensures Sound(db)
  {
    hide Sound;
  }

  lemma NotInInbox(db: Db, id: CommandId)
    requires JournalInv(db) && id !in db.log.receipts
    ensures !InInbox(db.inbox, id)
  {
    hide Sound, Covered;
  }
}
