/**
 Runs in which the premises and exceptions of other modules really occur: a
 retry that is refused the second time, a good result that is too long to be
 recorded, and two nodes that issue different commands under one execution ID.
 */
module Witness {
  import opened Records
  import opened Admission
  import opened LogInvariant
  import opened World
  import opened Ordering
  import opened Convergence
  import opened Exchange
  import opened LocalAppend
  import opened Journal
  import opened JournalSteps
  import opened JournalInvariant
  import opened JournalOperations
  import opened JournalFairness
  import opened JournalProgress
  import opened TextSort
  import opened Submission
  import opened SubmissionIdempotence
  import opened System
  import opened NodeHistory
  import opened SystemInvariant
  import opened SystemSteps
  import opened RunTheorems
  import Restore

  const FOUNDER: NodeId := "aaaaaaaaaaaaaaaaaaaaaaaaaaaaaaaa"
  const FLEET: string := FleetOf(FOUNDER)
  const JOB: string := "0123456789abcdef"
  const RETRY: string := "fedcba9876543210"

  function Env0(): Env {
    Env(1, false, (b: Body) => if b.ReceiptBody? then |b.receipt.message| else 0,
        (r: Request) => 0, (key: string, secret: string) => "", (package: string) => None)
  }

  function MemberOf(i: NodeId): Member { Member(i, i, i, "", "") }

  function RequestFor(kind: string, target: NodeId): SubmitRequest {
    SubmitRequest(JOB, kind, [target], None, None, 0, "")
  }

  function CommandOf(job: string, kind: string, target: NodeId, retryOf: string): Command {
    Command(CommandIdOf(FLEET, job, target), job, target, kind, map[], "", Online, 0, 1, retryOf)
  }

  // ---- appends that succeed ----------------------------------------------------------

  /** When `appendTx` succeeds for an admitted node and a body that no rule refuses. */
  lemma PlainAppendOk(db: Db, env: Env, body: Body, deps: seq<EventId>)
    requires Sound(db) && TopLamport(db.log) < INT64_MAX && env.encodedLength(body) <= MAX_BODY / 2
    requires |deps| + 2 <= MAX_DEPENDENCIES && AllHeld(db.log, deps) && Known(db.log, db.self)
    requires Refusal(db.log, Draft(db.log, db.self, env, body, deps)).None?
    ensures AppendBody(db, env, body, deps).Ok?
  {
    hide Valid, With, LastSequence, Head, AdmissionOf, Append, Genesis, Extends, TopLamport, Refusal, AllHeld;
    AppendOutcome(db.log, db.self, env, body, deps);
    DraftShort(db.log, db.self, env, body, deps);
  }

  /** A node of a fleet that can act: admitted, with little history. */
  ghost predicate Ready(db: Db, self: NodeId, top: nat) {
    && db.self == self && db.log.fleet == FLEET && JournalInv(db) && Remembered(db)
    && Active(db.log, self) && TopLamport(db.log) == top
  }

  /** ... and that has seen no command. */
  ghost predicate Idle(db: Db) {
    db.log.commands == map[] && db.log.receipts == map[] && db.inbox == [] && db.submissions == map[]
  }

  // ---- founding -------------------------------------------------------------------------

  lemma FounderMayAppend(db: Db)
    requires db == Db(FOUNDER, EmptyLog(FLEET), [], map[])
    ensures AppendBody(db, Env0(), MemberBody(MemberOf(FOUNDER)), []).Ok?
    ensures Sound(db)
  {
    hide Valid, Append, Extends;
    EmptyValid(FLEET);
    assert |FOUNDER| == KEY_BYTES;
    assert [] + Head(db.log, FOUNDER) + AdmissionOf(db.log, FOUNDER) == [];
    AppendOutcome(db.log, FOUNDER, Env0(), MemberBody(MemberOf(FOUNDER)), []);
  }

  lemma MemberTables(log: Log, id: EventId, m: NodeId)
    requires id.of.body == MemberBody(MemberOf(m)) && m !in log.members && m !in log.removals
    ensures var next := With(log, Signed(id.of));
      && next.fleet == log.fleet && Active(next, m) && next.removals == log.removals
      && next.members == log.members[m := MemberRow(id, MemberOf(m), false)]
      && next.commands == log.commands && next.receipts == log.receipts
      && next.events == log.events[id := Signed(id.of)]
  {
  }

  ghost function Founding(): seq<Step> { [Boot(FOUNDER), Bootstrap(FOUNDER, Env0(), MemberOf(FOUNDER))] }

  /** A new fleet's first event, in the founder's database. */
  lemma FoundingAppend(start: Db) returns (commit: Commit<EventId>)
    requires start == Db(FOUNDER, EmptyLog(FLEET), [], map[])
    ensures AppendBody(start, Env0(), MemberBody(MemberOf(FOUNDER)), []) == Ok(commit)
    ensures var db, genesis := commit.db, commit.value;
      && commit.appended == [genesis] && genesis.of.body == MemberBody(MemberOf(FOUNDER))
      && genesis.of.origin == FOUNDER && genesis.of.sequence == 1
      && db == start.(log := db.log) && db.log.fleet == FLEET && Active(db.log, FOUNDER) && TopLamport(db.log) == 1
      && db.log.commands == map[] && db.log.receipts == map[]
      && db.log.events.Keys == {genesis} && db.log.removals == {} && db.log.members.Keys == {FOUNDER}
  {
    hide AppendBody, Valid, TopLamport, With, Extends, Sound, Active;
    FounderMayAppend(start);
    commit := AppendBody(start, Env0(), MemberBody(MemberOf(FOUNDER)), []).value;
    AppendBodyEffect(start, Env0(), MemberBody(MemberOf(FOUNDER)), [], commit);
    MemberTables(start.log, commit.value, FOUNDER);
    AppendedOrigin(start, commit.value, commit.db);
    EmptyTop(FLEET);
    EmptyLast(FLEET, FOUNDER);
  }

  lemma EmptyLast(fleet: string, origin: NodeId)
    ensures LastSequence(EmptyLog(fleet), origin) == 0
  {
  }

  lemma NodeInvParts(i: NodeId, node: Node)
    requires NodeInv(i, node)
    ensures JournalInv(node.db) && Remembered(node.db) && node.db.self == i
  {
    hide JournalInv, Remembered, History;
  }

  /** In a reachable state, a node's journal is in order. */
  lemma Reached(steps: seq<Step>, i: NodeId)
    requires i in Run(FLEET, steps).nodes
    ensures var db := Run(FLEET, steps).nodes[i].db;
      JournalInv(db) && Remembered(db) && db.self == i && CommandRows(db.log) && Sound(db)
  {
    hide Run, JournalInv, Remembered, SystemInv, NodeInv, Inv, Cut, Valid, CommandRows, NetInv, ReplicasSound,
      PathsLegal, Sound;
    RunKeeps(FLEET, steps);
    NodeOf(Run(FLEET, steps), i);
    NodeInvParts(i, Run(FLEET, steps).nodes[i]);
    SoundOf(Run(FLEET, steps).nodes[i].db);
  }

  lemma Founded() returns (db: Db, genesis: EventId)
    ensures var s := Run(FLEET, Founding());
      && s.nodes.Keys == {FOUNDER} && s.nodes[FOUNDER].db == db && s.fleet == FLEET
      && s.born == map[genesis := EmptyLog(FLEET)] && s.mail == {} && s.reports == {}
    ensures Ready(db, FOUNDER, 1) && Idle(db)
    ensures db.log.events.Keys == {genesis} && genesis.of.body == MemberBody(MemberOf(FOUNDER))
    ensures genesis.of.origin == FOUNDER && genesis.of.sequence == 1
    ensures db.log.removals == {} && db.log.members.Keys == {FOUNDER}
  {
    hide Run, JournalInv, Remembered, AppendBody, Valid, CommandRows, TopLamport, With, Extends, Sound, Active;
    var first := [Boot(FOUNDER)];
    assert [] + first == first;
    RunEmpty(FLEET);
    RunSnoc(FLEET, [], Boot(FOUNDER));
    var start := Db(FOUNDER, EmptyLog(FLEET), [], map[]);
    assert |FOUNDER| == KEY_BYTES;
    assert Run(FLEET, first).nodes == map[FOUNDER := NewNode(FOUNDER, EmptyLog(FLEET))];
    var commit := FoundingAppend(start);
    db, genesis := commit.db, commit.value;
    var second := Bootstrap(FOUNDER, Env0(), MemberOf(FOUNDER));
    assert first + [second] == Founding();
    RunSnoc(FLEET, first, second);
    SnapshotOne(map[], start.log, genesis);
    Reached(Founding(), FOUNDER);
  }

  lemma RunEmpty(fleet: string)
    ensures Run(fleet, []) == Initial(fleet)
  {
  }

  lemma EmptyTop(fleet: string)
    ensures TopLamport(EmptyLog(fleet)) == 0
  {
  }

  lemma SnapshotOne(born: map<EventId, Log>, log: Log, id: EventId)
    ensures Snapshots(born, log, [id]) == born[id := log]
  {
    hide With;
    assert [id][1..] == [];
  }

  // ---- submitting -------------------------------------------------------------------------

  lemma RequestIsValid(kind: string, target: NodeId)
    requires kind in {"launch", "check"}
    ensures ValidRequest(Env0(), Normal(RequestFor(kind, target)))
    ensures Normal(RequestFor(kind, target)).machineIds == [target]
  {
    assert KINDS[0] == "check" && KINDS[7] == "launch";
    assert |JOB| == 16;
    assert [target][1..] == [];
    assert SortTexts([]) == [];
  }

  lemma FreshCommandOk(log: Log, self: NodeId, c: Command, deps: seq<EventId>)
    requires log.fleet == FLEET && c.target in log.members && c.id !in log.commands
    requires c.kind in {"launch", "check"} && c == CommandOf(c.jobId, c.kind, c.target, c.retryOf)
    ensures Refusal(log, Draft(log, self, Env0(), CommandBody(c), deps)).None?
  {
  }

  /** A ready node submits its first command, to an active target. */
  lemma SubmitOk(db: Db, self: NodeId, top: nat, kind: string, target: NodeId)
      returns (commit: Commit<seq<EventId>>)
    requires kind in {"launch", "check"} && Ready(db, self, top) && Idle(db) && Active(db.log, target) && top < 10
    ensures CreateCommands(db, Env0(), RequestFor(kind, target)) == Ok(commit)
    ensures var c := CommandOf(JOB, kind, target, "");
      && c.id in commit.db.log.commands && commit.db.log.commands[c.id].command == c
      && commit.db.log.commands[c.id].event.of.origin == self
      && commit.db.log.receipts == map[] && commit.db.inbox == [] && commit.db.log.commands.Keys == {c.id}
      && commit.db.log.members == db.log.members && commit.db.log.fleet == FLEET
      && TopLamport(commit.db.log) == top + 1 && |commit.appended| == 1
  {
    hide JournalInv, Remembered, AppendBody, TopLamport, ValidRequest, Normal, With, Sound, Extends, Refusal, Recall;
    var r := Normal(RequestFor(kind, target));
    RequestIsValid(kind, target);
    NormalFields(kind, target);
    var c := CommandOf(JOB, kind, target, "");
    assert CommandFor(db.log, Env0(), r, target) == c;
    SoundOf(db);
    var deps := AdmissionOf(db.log, target);
    FreshCommandOk(db.log, self, c, deps);
    AdmissionIsHeld(db, target);
    PlainAppendOk(db, Env0(), CommandBody(c), deps);
    var step := AppendBody(db, Env0(), CommandBody(c), deps).value;
    AppendBodyEffect(db, Env0(), CommandBody(c), deps, step);
    CommandTables(db.log, step.value, c);
    AppendedOrigin(db, step.value, step.db);
    assert [target][1..] == [];
    assert SubmitAll(step.db, Env0(), r, []) == Ok(Commit(step.db, [], []));
    assert step.appended + [] == step.appended;
    SubmitUnfold(db, r, target);
    commit := CreateCommands(db, Env0(), RequestFor(kind, target)).value;
  }

  lemma NormalFields(kind: string, target: NodeId)
    ensures Normal(RequestFor(kind, target)) == Request(JOB, kind, [target], map[], Online, 0, "")
  {
    assert [target][1..] == [];
    assert SortTexts([]) == [];
  }

  lemma SubmitUnfold(db: Db, r: Request, target: NodeId)
    requires r.machineIds == [target] && Active(db.log, target) && Field(r.payload, "password") == ""
    requires AppendBody(db, Env0(), CommandBody(CommandFor(db.log, Env0(), r, target)), AdmissionOf(db.log, target)).Ok?
    ensures var step :=
        AppendBody(db, Env0(), CommandBody(CommandFor(db.log, Env0(), r, target)), AdmissionOf(db.log, target)).value;
      SubmitAll(db, Env0(), r, [target]) == Ok(Commit(step.db, step.appended + [], [step.value] + []))
  {
    hide AppendBody, CommandFor;
    assert [target][1..] == [];
  }

  lemma AdmissionIsHeld(db: Db, m: NodeId)
    requires m in db.log.members && Sound(db)
    ensures AllHeld(db.log, AdmissionOf(db.log, m)) && |AdmissionOf(db.log, m)| == 1
  {
    hide ChainValid, Authored, LegacySound, RemovalsSound, TablesValid;
  }

  lemma CommandTables(log: Log, id: EventId, c: Command)
    requires id.of.body == CommandBody(c) && c.id !in log.commands
    ensures var next := With(log, Signed(id.of));
      && next.commands == log.commands[c.id := CommandRow(id, c)] && next.receipts == log.receipts
      && next.members == log.members && next.fleet == log.fleet && next.removals == log.removals
  {
  }

  lemma AppendedOrigin(db: Db, id: EventId, next: Db)
    requires Appended(db, id, next)
    ensures id.of.origin == db.self && next.inbox == db.inbox && next.submissions == db.submissions
    ensures next.log == With(db.log, Signed(id.of)) && TopLamport(next.log) == TopLamport(db.log) + 1
  {
    hide Sound, Below, Admissible, TopLamport, With;
  }

  // ---- a retry that is refused the second time ------------------------------------------

  ghost function Submitting(kind: string): seq<Step> {
    Founding() + [Submit(FOUNDER, Env0(), RequestFor(kind, FOUNDER))]
  }

  /** The founder has issued a command to itself. */
  lemma Submitted(kind: string) returns (db: Db, c: Command)
    requires kind in {"launch", "check"}
    ensures FOUNDER in Run(FLEET, Submitting(kind)).nodes && Run(FLEET, Submitting(kind)).nodes[FOUNDER].db == db
    ensures db.self == FOUNDER && JournalInv(db) && Remembered(db) && CommandRows(db.log) && Sound(db)
    ensures c == CommandOf(JOB, kind, FOUNDER, "") && c.id in db.log.commands && db.log.commands[c.id].command == c
    ensures db.log.commands.Keys == {c.id} && db.log.receipts == map[] && db.inbox == [] && db.log.fleet == FLEET
    ensures Active(db.log, FOUNDER) && db.log.commands[c.id].event.of.origin == FOUNDER && TopLamport(db.log) == 2
  {
    hide Run, JournalInv, Remembered, CreateCommands, Snapshots, CommandRows, TopLamport, Sound;
    var first, genesis := Founded();
    var commit := SubmitOk(first, FOUNDER, 1, kind, FOUNDER);
    db, c := commit.db, CommandOf(JOB, kind, FOUNDER, "");
    RunSnoc(FLEET, Founding(), Submit(FOUNDER, Env0(), RequestFor(kind, FOUNDER)));
    Reached(Submitting(kind), FOUNDER);
  }

  lemma OtherJob()
    ensures CommandIdOf(FLEET, RETRY, FOUNDER) != CommandIdOf(FLEET, JOB, FOUNDER)
  {
    var n := |FLEET| + 1;
    assert CommandIdOf(FLEET, RETRY, FOUNDER)[n] == RETRY[0] && CommandIdOf(FLEET, JOB, FOUNDER)[n] == JOB[0];
  }

  /** A node that holds its own command without a receipt may retry it, and may accept it afterwards. */
  lemma RetryOk(db: Db, c: Command) returns (commit: Commit<EventId>)
    requires db.self == FOUNDER && JournalInv(db) && Remembered(db) && Sound(db)
    requires c == CommandOf(JOB, "launch", FOUNDER, "") && c.id in db.log.commands && db.log.commands[c.id].command == c
    requires db.log.commands.Keys == {c.id} && db.log.receipts == map[] && db.log.fleet == FLEET
    requires Active(db.log, FOUNDER) && TopLamport(db.log) == 2
    ensures RetryCommand(db, Env0(), c.id, RETRY) == Ok(commit)
    ensures commit.db.self == FOUNDER && commit.db.log.receipts == map[] && TopLamport(commit.db.log) == 3
    ensures commit.db.log.members == db.log.members
    ensures c.id in commit.db.log.commands && commit.db.log.commands[c.id] == db.log.commands[c.id]
  {
    hide JournalInv, Remembered, AppendBody, TopLamport, With, Sound, Extends, Refusal, BlocksRetry;
    var retry := CommandOf(RETRY, "launch", FOUNDER, c.id);
    OtherJob();
    assert |RETRY| == 16;
    FreshCommandOk(db.log, FOUNDER, retry, []);
    PlainAppendOk(db, Env0(), CommandBody(retry), []);
    commit := AppendBody(db, Env0(), CommandBody(retry), []).value;
    AppendBodyEffect(db, Env0(), CommandBody(retry), [], commit);
    CommandTables(db.log, commit.value, retry);
    AppendedOrigin(db, commit.value, commit.db);
  }

  /** Nothing forbids the acceptance of an own, active, online command. */
  lemma AcceptOk(db: Db, c: Command) returns (accepted: Commit<Receipt>)
    requires db.self == FOUNDER && JournalInv(db) && CommandRows(db.log) && TopLamport(db.log) < 10
    requires c == CommandOf(JOB, "launch", FOUNDER, "") && c.id in db.log.commands && db.log.commands[c.id].command == c
    requires db.log.commands[c.id].event.of.origin == FOUNDER && Active(db.log, FOUNDER) && db.log.receipts == map[]
    ensures Accept(db, Env0(), c.id) == Ok(accepted)
    ensures Accepted(db, c.id, Queued, accepted.db) && accepted.value.status == Queued
  {
    hide JournalInv, CommandRows, TopLamport, Accept, Accepted;
    assert KINDS[7] == "launch";
    AcceptOutcome(db, Env0(), c.id);
    accepted := Accept(db, Env0(), c.id).value;
    AcceptKeeps(db, Env0(), c.id, accepted);
  }

  /**
   A retry issued before its target answered succeeds, its target then accepts the original, and the same retry, under
   the same submission ID, is refused.
   */
  lemma {:induction false} RetryRefusedLater() returns (db: Db, id: CommandId)
    ensures FOUNDER in Run(FLEET, Submitting("launch")).nodes
    ensures db == Run(FLEET, Submitting("launch")).nodes[FOUNDER].db
    ensures var first := RetryCommand(db, Env0(), id, RETRY);
      && first.Ok?
      && var accepted := Accept(first.value.db, Env0(), id);
         && accepted.Ok? && RetryCommand(accepted.value.db, Env0(), id, RETRY) == Err(NotRetryable)
  {
    hide Run, JournalInv, Remembered, CommandRows, RetryCommand, Accept, TopLamport, Sound, Active, Grown;
    var c;
    db, c := Submitted("launch");
    id := c.id;
    var commit := RetryOk(db, c);
    RetryKeeps(db, Env0(), id, RETRY, commit);
    RowsOf(commit.db);
    ActiveByMembers(db.log, commit.db.log, FOUNDER);
    var accepted := AcceptOk(commit.db, c);
    RetryAfterAcceptance(db, Env0(), id, RETRY, commit, Env0(), accepted, Env0());
  }

  lemma RowsOf(db: Db)
    requires JournalInv(db)
    ensures CommandRows(db.log)
  {
    hide ChainValid, MembershipValid, CatalogRows, CatalogEvents, DeletionsSound, CommandRows, CommandEvents,
      ReceiptRows, ReceiptEvents, InventoryRows, InventoryEvents, ImportsSound, Distinct, Agrees, Covered;
  }

  lemma ActiveByMembers(log: Log, next: Log, m: NodeId)
    requires next.members == log.members
    ensures Active(next, m) <==> Active(log, m)
  {
  }

  // ---- a good result too long to be recorded ----------------------------------------------

  ghost function Starting(): seq<Step> {
    Submitting("launch") + [AcceptOne(FOUNDER, Env0(), CommandIdOf(FLEET, JOB, FOUNDER))] + [StartNext(FOUNDER, Env0())]
  }

  /** The scan of an inbox with one queued online command hands it out. */
  lemma NextOk(db: Db, c: Command) returns (commit: Commit<Option<Command>>)
    requires c == CommandOf(JOB, "launch", FOUNDER, "") && c.id in db.log.commands && db.log.commands[c.id].command == c
    requires db.self == FOUNDER && JournalInv(db) && TopLamport(db.log) < 10
    requires db.log.commands[c.id].event.of.origin == FOUNDER && Active(db.log, FOUNDER)
    requires db.inbox == [InboxRow(c.id, Queued)]
    ensures Next(db, Env0()) == Ok(commit) && commit.value == Some(c)
    ensures commit.db.inbox == [InboxRow(c.id, Running)] && commit.db.self == FOUNDER
    ensures commit.db.log.commands == db.log.commands && TopLamport(commit.db.log) == TopLamport(db.log) + 1
  {
    hide JournalInv, TopLamport, Advance, Active, Grown, InInbox;
    assert db.inbox[0] == InboxRow(c.id, Queued) && db.inbox[..0] == [];
    assert Select([], {Queued, Held}) == [];
    assert Select(db.inbox, {Queued, Held}) == [c.id];
    RowOpen(db, c.id);
    var message := "Running on target";
    AdvanceOutcome(db, Env0(), c, Running, message, NO_DETAILS);
    var step := Advance(db, Env0(), c, Running, message, NO_DETAILS).value;
    AdvanceKeeps(db, Env0(), c, Running, message, NO_DETAILS, step);
    commit := Commit(step.db, step.appended, Some(c));
    assert Verdict(db.log, Env0(), c, FOUNDER) == Some((Running, message));
    assert SetState(db.inbox, c.id, Running) == [InboxRow(c.id, Running)];
  }

  lemma RowOpen(db: Db, id: CommandId)
    requires JournalInv(db) && db.inbox == [InboxRow(id, Queued)]
    ensures InInbox(db.inbox, id) && StatusIn(db.log, id) == Some(Queued)
  {
    hide Sound, Covered;
    assert db.inbox[0].id == id;
  }

  lemma AcceptTop(db: Db, id: CommandId, accepted: Commit<Receipt>)
    requires Sound(db) && Accept(db, Env0(), id) == Ok(accepted) && id !in db.log.receipts
    ensures TopLamport(accepted.db.log) == TopLamport(db.log) + 1
  {
    hide Sound, AppendReceipt, AcceptStatus, TopLamport, InInbox, With, Extends;
    var c := db.log.commands[id].command;
    var (status, message) := AcceptStatus(c, Env0());
    var inner := AppendReceipt(db, Env0(), c, status, message, NO_DETAILS).value;
    AppendReceiptEffect(db, Env0(), c, status, message, NO_DETAILS, inner);
  }

  /** ... and the executor's good result is refused for its length: the command stays running. */
  lemma {:induction false} OversizedResultInARun() returns (db: Db, c: Command, message: string)
    ensures FOUNDER in Run(FLEET, Starting()).nodes && db == Run(FLEET, Starting()).nodes[FOUNDER].db
    ensures StateOf(db.inbox, c.id) == Some(Running)
    ensures Complete(db, Env0(), c, Done, message, NO_DETAILS) == Err(Oversized)
    ensures Complete(db, Env0(), c, Done, "", NO_DETAILS).Ok?
  {
    hide Run, JournalInv, Remembered, CommandRows, Accept, Next, Complete, TopLamport, Sound, Active, Grown, Snapshots;
    var first, accepting := Submitting("launch"), AcceptOne(FOUNDER, Env0(), CommandIdOf(FLEET, JOB, FOUNDER));
    var submitted;
    submitted, c := Submitted("launch");
    var accepted := AcceptOk(submitted, c);
    RunSnoc(FLEET, first, accepting);
    Reached(first + [accepting], FOUNDER);
    AcceptTop(submitted, c.id, accepted);
    ActiveByMembers(submitted.log, accepted.db.log, FOUNDER);
    var next := NextOk(accepted.db, c);
    RunSnoc(FLEET, first + [accepting], StartNext(FOUNDER, Env0()));
    Reached(Starting(), FOUNDER);
    db := next.db;
    message := seq(MAX_BODY, i => 'x');
    CompleteOutcome(db, Env0(), c, Done, message, NO_DETAILS);
    CompleteOutcome(db, Env0(), c, Done, "", NO_DETAILS);
    TooLong(db, c, message);
  }

  lemma TooLong(db: Db, c: Command, message: string)
    requires JournalInv(db) && c.id in db.log.commands && db.log.commands[c.id].command == c && c.target == db.self
    requires StateOf(db.inbox, c.id) == Some(Running) && TopLamport(db.log) < INT64_MAX && |message| == MAX_BODY
    ensures Complete(db, Env0(), c, Done, message, NO_DETAILS) == Err(Oversized)
  {
    hide JournalInv, AppendReceipt, StateOf, InInbox, TopLamport;
    StateRow(db, c.id, Running);
    AdvanceOutcome(db, Env0(), c, Done, message, NO_DETAILS);
  }

  // ---- two commands under one execution ID ------------------------------------------------

  const PEER: NodeId := "bbbbbbbbbbbbbbbbbbbbbbbbbbbbbbbb"

  /** The founder admits the peer. */
  lemma AdmitOk(db: Db, genesis: EventId) returns (commit: Commit<EventId>)
    requires Ready(db, FOUNDER, 1) && Idle(db) && db.log.events.Keys == {genesis} && genesis.of.origin == FOUNDER
    requires genesis.of.sequence == 1 && db.log.removals == {} && db.log.members.Keys == {FOUNDER}
    ensures AppendBody(db, Env0(), MemberBody(MemberOf(PEER)), []) == Ok(commit) && commit.appended == [commit.value]
    ensures var next, e := commit.db, commit.value;
      && next == db.(log := next.log) && next.log.fleet == FLEET && next.log.events.Keys == {genesis, e}
      && e.of.body == MemberBody(MemberOf(PEER)) && e.of.origin == FOUNDER && genesis.of.lamport < e.of.lamport
      && Active(next.log, FOUNDER) && Active(next.log, PEER) && TopLamport(next.log) == 2
      && next.log.commands == map[] && next.log.receipts == map[]
  {
    hide JournalInv, Remembered, AppendBody, TopLamport, With, Sound, Extends;
    var body := MemberBody(MemberOf(PEER));
    SoundOf(db);
    assert |PEER| == KEY_BYTES;
    assert LastSequence(db.log, FOUNDER) >= 1;
    PlainAppendOk(db, Env0(), body, []);
    commit := AppendBody(db, Env0(), body, []).value;
    AppendBodyEffect(db, Env0(), body, [], commit);
    assert PEER[0] != FOUNDER[0];
    MemberTables(db.log, commit.value, PEER);
    AppendedOrigin(db, commit.value, commit.db);
    AppendedBelow(db, commit.value, commit.db);
  }

  function NoLength(): Event -> nat { (e: Event) => 0 }

  /** A log of two events, exported whole. */
  lemma TwoRowExport(log: Log, first: EventId, second: EventId)
    requires Valid(log) && log.events.Keys == {first, second} && first.of.lamport < second.of.lamport
    ensures IsExport(log, map[], MAX_BATCH, NoLength(), [Signed(first.of), Signed(second.of)])
  {
    hide Valid;
    var batch := [Signed(first.of), Signed(second.of)];
    SignedRow(log, first);
    SignedRow(log, second);
    Restore.SequenceAboveZero(log, first);
    Restore.SequenceAboveZero(log, second);
    assert batch[0].id == first && batch[1].id == second;
    assert Total(NoLength(), batch) == 0 by {
      assert batch[..1] == [batch[0]] && [batch[0]][..0] == [];
      assert Total(NoLength(), [batch[0]]) == 0;
    }
    RankTotal(RankOf(first), RankOf(second));
    RankTotal(RankOf(first), RankOf(first));
    RankTotal(RankOf(second), RankOf(second));
  }

  lemma SameTop(a: Log, b: Log)
    requires SameEvents(a, b)
    ensures TopLamport(a) == TopLamport(b)
  {
  }

  /** A new node appears and announces its empty cursors. */
  lemma PeerAppears(steps: seq<Step>)
    requires PEER !in Run(FLEET, steps).nodes && Run(FLEET, steps).fleet == FLEET
    ensures var s, s' := Run(FLEET, steps), Run(FLEET, steps + [Boot(PEER)] + [Announce(PEER, map[])]);
      && s'.nodes == s.nodes[PEER := NewNode(PEER, EmptyLog(FLEET))] && s'.born == s.born && s'.mail == s.mail
      && s'.reports == s.reports + {Report(PEER, map[], [])} && s'.fleet == FLEET
  {
    hide Run, LastSequence;
    assert |PEER| == KEY_BYTES;
    RunSnoc(FLEET, steps, Boot(PEER));
    forall origin ensures LastSequence(EmptyLog(FLEET), origin) == 0 { EmptyLast(FLEET, origin); }
    RunSnoc(FLEET, steps + [Boot(PEER)], Announce(PEER, map[]));
  }

  lemma Published(s: System, i: NodeId, env: Env, body: Body, commit: Commit<EventId>)
    requires i in s.nodes && Direct(body) && Active(s.nodes[i].db.log, i)
    requires AppendBody(s.nodes[i].db, env, body, []) == Ok(commit)
    ensures Apply(s, Publish(i, env, body, []))
         == CommitLocal(s, i, commit.appended, s.nodes[i].(db := commit.db))
  {
    hide AppendBody, Snapshots;
  }

  /** The founder has admitted the peer, which has announced its empty cursors. */
  lemma Admitted() returns (steps: seq<Step>, db: Db, first: EventId, second: EventId)
    ensures var s := Run(FLEET, steps);
      && s.nodes.Keys == {FOUNDER, PEER} && s.fleet == FLEET && s.nodes[FOUNDER].db == db
      && s.nodes[PEER] == NewNode(PEER, EmptyLog(FLEET)) && s.reports == {Report(PEER, map[], [])} && s.mail == {}
      && s.born.Keys == {first, second}
    ensures db.log.events.Keys == {first, second} && first.of.lamport < second.of.lamport
    ensures first.of.body.MemberBody? && second.of.body.MemberBody?
    ensures first.of.origin == FOUNDER == second.of.origin
    ensures Ready(db, FOUNDER, 2) && Idle(db) && Active(db.log, PEER) && Valid(db.log)
  {
    hide Run, JournalInv, Remembered, AppendBody, Valid, CommandRows, TopLamport, With, Sound, Active, LastSequence,
      Apply;
    var founded, genesis := Founded();
    var commit := AdmitOk(founded, genesis);
    db, first, second := commit.db, genesis, commit.value;
    assert |PEER| == KEY_BYTES && PEER[0] != FOUNDER[0];
    PeerAppears(Founding());
    var announced := Founding() + [Boot(PEER)] + [Announce(PEER, map[])];
    var publish := Publish(FOUNDER, Env0(), MemberBody(MemberOf(PEER)), []);
    RunSnoc(FLEET, announced, publish);
    Published(Run(FLEET, announced), FOUNDER, Env0(), MemberBody(MemberOf(PEER)), commit);
    steps := announced + [publish];
    SnapshotOne(Run(FLEET, announced).born, founded.log, second);
    Reached(steps, FOUNDER);
    ValidOf(db);
  }

  lemma ValidOf(db: Db)
    requires Sound(db)
    ensures Valid(db.log)
  {
    hide Valid;
  }

  lemma OnlyMembers(s: System, first: EventId, second: EventId)
    requires s.born.Keys == {first, second} && first.of.body.MemberBody? && second.of.body.MemberBody?
    ensures NoConflicts(WorldOf(s))
  {
  }

  /** What the peer's database holds once both events have arrived. */
  lemma ArrivedAll(log: Log, first: Event, second: Event)
    requires InsertAll(EmptyLog(FLEET), [first, second]).Ok? && Valid(log)
    requires log.events.Keys == {first.id, second.id} && log.fleet == FLEET
    ensures var next := InsertAll(EmptyLog(FLEET), [first, second]).value;
      Valid(next) && SameEvents(next, log) && Converged(next, log) && TopLamport(next) == TopLamport(log)
  {
    hide Valid, InsertAll, Converged, TopLamport;
    EmptyValid(FLEET);
    InsertAllKeepsValid(EmptyLog(FLEET), [first, second]);
    var next := InsertAll(EmptyLog(FLEET), [first, second]).value;
    assert next.events.Keys == {first.id, second.id};
    SameTop(next, log);
    SameEventsConverge(next, log);
  }

  lemma OneOriginCursors(log: Log, first: EventId, second: EventId)
    requires log.events.Keys == {first, second} && first.of.origin == FOUNDER == second.of.origin
    ensures ExactCursors(log, map[FOUNDER := LastSequence(log, FOUNDER)])
  {
  }

  /** The founder's whole log is on its way to the peer. */
  lemma Sent() returns (steps: seq<Step>, db: Db, first: EventId, second: EventId)
    ensures var s := Run(FLEET, steps); var m := Message(PEER, [Signed(first.of), Signed(second.of)]);
      && s.nodes.Keys == {FOUNDER, PEER} && s.fleet == FLEET && s.nodes[FOUNDER].db == db
      && s.nodes[PEER] == NewNode(PEER, EmptyLog(FLEET)) && m in s.mail && s.born.Keys == {first, second}
    ensures db.log.events.Keys == {first, second} && first.of.body.MemberBody? && second.of.body.MemberBody?
    ensures first.of.origin == FOUNDER == second.of.origin
    ensures Ready(db, FOUNDER, 2) && Idle(db) && Active(db.log, PEER) && Valid(db.log)
  {
    hide Run, JournalInv, Remembered, Valid, TopLamport, Active, IsExport;
    var before;
    before, db, first, second := Admitted();
    var batch := [Signed(first.of), Signed(second.of)];
    TwoRowExport(db.log, first, second);
    var send := Send(FOUNDER, Report(PEER, map[], []), MAX_BATCH, NoLength(), batch);
    RunSnoc(FLEET, before, send);
    steps := before + [send];
  }

  /** The peer ingests the two events. */
  lemma DeliverTwo(sent: seq<Step>, first: EventId, second: EventId, log: Log) returns (steps: seq<Step>)
    requires var s := Run(FLEET, sent);
      && s.nodes.Keys == {FOUNDER, PEER} && s.nodes[PEER] == NewNode(PEER, EmptyLog(FLEET))
      && Message(PEER, [Signed(first.of), Signed(second.of)]) in s.mail
    requires Ingest(EmptyLog(FLEET), [Signed(first.of), Signed(second.of)]) == Ok(log)
    requires log.events.Keys == {first, second} && first.of.origin == FOUNDER == second.of.origin
    ensures Run(FLEET, steps).nodes.Keys == {FOUNDER, PEER}
    ensures Run(FLEET, steps).nodes[FOUNDER] == Run(FLEET, sent).nodes[FOUNDER]
    ensures Run(FLEET, steps).nodes[PEER].db == Db(PEER, log, [], map[])
  {
    hide Run, InsertAll, ExactCursors;
    OneOriginCursors(log, first, second);
    assert PEER[0] != FOUNDER[0];
    var m := Message(PEER, [Signed(first.of), Signed(second.of)]);
    var deliver := Deliver(m, map[FOUNDER := LastSequence(log, FOUNDER)]);
    RunSnoc(FLEET, sent, deliver);
    steps := sent + [deliver];
  }

  /** The peer has joined: both nodes are active and have seen no command. */
  lemma Joined() returns (steps: seq<Step>, founder: Db, peer: Db)
    ensures var s := Run(FLEET, steps);
      s.nodes.Keys == {FOUNDER, PEER} && s.nodes[FOUNDER].db == founder && s.nodes[PEER].db == peer
    ensures Ready(founder, FOUNDER, 2) && Idle(founder)
    ensures Ready(peer, PEER, 2) && Idle(peer) && Active(peer.log, FOUNDER)
  {
    hide Run, JournalInv, Remembered, Valid, CommandRows, TopLamport, Sound, Active, InsertAll, Converged, SameEvents,
      NoConflicts, Idle;
    var sent, first, second;
    sent, founder, first, second := Sent();
    var batch := [Signed(first.of), Signed(second.of)];
    OnlyMembers(Run(FLEET, sent), first, second);
    MailIsAccepted(FLEET, sent, Message(PEER, batch));
    ArrivedAll(founder.log, Signed(first.of), Signed(second.of));
    var log := InsertAll(EmptyLog(FLEET), batch).value;
    SameKeys(log, founder.log);
    steps := DeliverTwo(sent, first, second, log);
    peer := Db(PEER, log, [], map[]);
    Reached(steps, PEER);
    ConvergedIdle(peer, founder);
  }

  lemma SameKeys(a: Log, b: Log)
    requires SameEvents(a, b)
    ensures a.events.Keys == b.events.Keys && a.fleet == b.fleet
  {
  }

  lemma ConvergedIdle(a: Db, b: Db)
    requires Converged(a.log, b.log) && Idle(b) && a.inbox == [] && a.submissions == map[]
    ensures Idle(a) && forall m :: Active(a.log, m) <==> Active(b.log, m)
  {
    hide LastSequence;
    assert a.log.commands.Keys == {};
  }

  /** From some point on, each node refuses every batch with the other's event. */
  ghost predicate MutuallyBlocked(s: System, mine: EventId, theirs: EventId, batch: seq<Event>) {
    && FOUNDER in s.nodes && PEER in s.nodes
    && (Signed(theirs.of) in batch ==> Ingest(s.nodes[FOUNDER].db.log, batch).Err?)
    && (Signed(mine.of) in batch ==> Ingest(s.nodes[PEER].db.log, batch).Err?)
  }

  lemma Blocks(steps: seq<Step>, after: seq<Step>, c: CommandId, batch: seq<Event>)
    requires var s := Run(FLEET, steps);
      && FOUNDER in s.nodes && PEER in s.nodes
      && c in s.nodes[FOUNDER].db.log.commands && c in s.nodes[PEER].db.log.commands
      && s.nodes[FOUNDER].db.log.commands[c].command != s.nodes[PEER].db.log.commands[c].command
    ensures var s := Run(FLEET, steps);
      MutuallyBlocked(Run(FLEET, steps + after), s.nodes[FOUNDER].db.log.commands[c].event,
                      s.nodes[PEER].db.log.commands[c].event, batch)
  {
    hide Run, Ingest, Later, Grows;
    var s := Run(FLEET, steps);
    var mine, theirs := s.nodes[FOUNDER].db.log.commands[c].event, s.nodes[PEER].db.log.commands[c].event;
    Collides(steps, c);
    RunGrows(FLEET, steps, after);
    assert FOUNDER in {FOUNDER, PEER} && PEER in {FOUNDER, PEER};
    if Signed(theirs.of) in batch {
      CollisionBlocksForever(FLEET, steps, after, FOUNDER, c, Signed(theirs.of), batch);
    }
    if Signed(mine.of) in batch { CollisionBlocksForever(FLEET, steps, after, PEER, c, Signed(mine.of), batch); }
  }

  /**
   One submission ID used on two nodes before they synchronise: each then holds its own command under the same execution
   ID, and each refuses, in every later state, every batch with the other's.
   */
  lemma {:induction false} CollisionInARun() returns (steps: seq<Step>, c: CommandId, mine: EventId, theirs: EventId)
    ensures var s := Run(FLEET, steps);
      && FOUNDER in s.nodes && PEER in s.nodes && !NoConflicts(WorldOf(s))
      && c in s.nodes[FOUNDER].db.log.commands && s.nodes[FOUNDER].db.log.commands[c].event == mine
      && c in s.nodes[PEER].db.log.commands && s.nodes[PEER].db.log.commands[c].event == theirs
    ensures forall after, batch :: MutuallyBlocked(Run(FLEET, steps + after), mine, theirs, batch)
  {
    hide Run, JournalInv, Remembered, CreateCommands, Snapshots, CommandRows, TopLamport, Sound, Active, NoConflicts,
      MutuallyBlocked;
    var before, founder, peer := Joined();
    var first := Submit(FOUNDER, Env0(), RequestFor("launch", FOUNDER));
    var second := Submit(PEER, Env0(), RequestFor("check", FOUNDER));
    var here := SubmitOk(founder, FOUNDER, 2, "launch", FOUNDER);
    var there := SubmitOk(peer, PEER, 2, "check", FOUNDER);
    assert PEER[0] != FOUNDER[0];
    RunSnoc(FLEET, before, first);
    RunSnoc(FLEET, before + [first], second);
    steps := before + [first] + [second];
    c := CommandIdOf(FLEET, JOB, FOUNDER);
    mine, theirs := here.db.log.commands[c].event, there.db.log.commands[c].event;
    Collides(steps, c);
    forall after, batch ensures MutuallyBlocked(Run(FLEET, steps + after), mine, theirs, batch) {
      Blocks(steps, after, c, batch);
    }
  }

  /** Two nodes with different commands under one ID: a conflict, and each row's event submits its command. */
  lemma Collides(steps: seq<Step>, c: CommandId)
    requires var s := Run(FLEET, steps);
      && FOUNDER in s.nodes && PEER in s.nodes
      && c in s.nodes[FOUNDER].db.log.commands && c in s.nodes[PEER].db.log.commands
      && s.nodes[FOUNDER].db.log.commands[c].command != s.nodes[PEER].db.log.commands[c].command
    ensures !NoConflicts(WorldOf(Run(FLEET, steps)))
    ensures var s := Run(FLEET, steps);
      forall i :: i in {FOUNDER, PEER} ==>
        Submits(s.nodes[i].db.log.commands[c].event, c)
        && s.nodes[i].db.log.commands[c].event.of.body.command == s.nodes[i].db.log.commands[c].command
  {
    hide Run, SystemInv, NodeInv, Inv, Valid, NetInv, ReplicasSound, PathsLegal, WellFormedCommand;
    RunKeeps(FLEET, steps);
    var s := Run(FLEET, steps);
    NodeOf(s, FOUNDER);
    NodeOf(s, PEER);
    var a, b := s.nodes[FOUNDER].db.log.commands[c], s.nodes[PEER].db.log.commands[c];
    assert a.event in WorldOf(s).born && b.event in WorldOf(s).born;
  }
}
