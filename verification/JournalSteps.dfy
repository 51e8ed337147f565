/**
 One receipt append, in detail: when it succeeds, and exactly what it changes.
 Everything about the journal's operations is built from these lemmas.
 */
module JournalSteps {
  import opened Records
  import opened Ordering
  import opened Admission
  import opened LogInvariant
  import opened World
  import opened LocalAppend
  import opened Journal

  function StatusIn(log: Log, c: CommandId): Option<Status> {
    if c in log.receipts then Some(log.receipts[c].receipt.status) else None
  }

  /** The legal next status of a command after the latest one, if any. */
  predicate LegalMove(prior: Option<Status>, next: Status, kind: string) {
    match prior
    case None => next in {Queued, Held, Failed, Expired}
    case Some(s) =>
      || (s in {Queued, Held} && next in {Running, Failed, Expired})
      || (s == Running && (next in {Done, Failed, Unknown} || (next == Queued && kind in {"check", "diagnostics"})))
  }

  /** Only a final receipt carries output. */
  predicate OutputFinal(r: Receipt) { r.details.outputHash.OutputHash? ==> Terminal(r.status) }

  /** An appended receipt continues the command's path from the status its origin then had; only its end has output. */
  ghost predicate LegalReceipt(log: Log, id: EventId) {
    id.of.body.ReceiptBody? ==>
      var r := id.of.body.receipt;
      r.commandId in log.commands
      && LegalMove(StatusIn(log, r.commandId), r.status, log.commands[r.commandId].command.kind) && OutputFinal(r)
  }

  /** b is a after the local appends ids, each of them legal. */
  ghost predicate Grown(self: NodeId, a: Log, b: Log, ids: seq<EventId>)
    decreases |ids|
  {
    if ids == [] then b == a
    else Extends(self, a, ids[0]) && LegalReceipt(a, ids[0]) && Grown(self, With(a, Signed(ids[0].of)), b, ids[1..])
  }

  lemma {:induction false} GrownConcat(self: NodeId, a: Log, b: Log, c: Log, xs: seq<EventId>, ys: seq<EventId>)
    requires Grown(self, a, b, xs) && Grown(self, b, c, ys)
    ensures Grown(self, a, c, xs + ys)
    decreases |xs|
  {
    hide Extends, LegalReceipt, With;
    if xs == [] {
      assert xs + ys == ys;
    } else {
      GrownConcat(self, With(a, Signed(xs[0].of)), b, c, xs[1..], ys);
      assert (xs + ys)[1..] == xs[1..] + ys;
    }
  }

  lemma GrownOne(self: NodeId, a: Log, id: EventId)
    requires Extends(self, a, id) && LegalReceipt(a, id)
    ensures Grown(self, a, With(a, Signed(id.of)), [id])
  {
    hide Extends, LegalReceipt, With;
    assert Grown(self, With(a, Signed(id.of)), With(a, Signed(id.of)), [id][1..]);
  }

  lemma {:induction false} GrownValid(self: NodeId, a: Log, b: Log, ids: seq<EventId>)
    requires Valid(a) && Grown(self, a, b, ids)
    ensures Valid(b) && b.fleet == a.fleet
    decreases |ids|
  {
    hide Valid, Admissible, Below, LegalReceipt;
    if ids != [] {
      AdmissibleKeepsValid(a, ids[0], With(a, Signed(ids[0].of)));
      GrownValid(self, With(a, Signed(ids[0].of)), b, ids[1..]);
    }
  }

  /** db is a node's own database: admitted tables and an identity of the right form. */
  ghost predicate Sound(db: Db) { Valid(db.log) && |db.self| == KEY_BYTES }

  /** One event was appended to a database; nothing local changed. */
  ghost predicate Appended(db: Db, id: EventId, next: Db) {
    && next == db.(log := With(db.log, Signed(id.of))) && TopLamport(next.log) == TopLamport(db.log) + 1
    && Extends(db.self, db.log, id) && Sound(next)
  }

  lemma AppendBodyEffect(db: Db, env: Env, body: Body, deps: seq<EventId>, commit: Commit<EventId>)
    requires Sound(db) && AppendBody(db, env, body, deps) == Ok(commit)
    ensures Appended(db, commit.value, commit.db) && commit.appended == [commit.value]
    ensures commit.value == Hash(Draft(db.log, db.self, env, body, deps)) && commit.value.of.body == body
  {
    hide Valid, Refusal, Admissible, AllHeld, Genesis, With, Known;
    AppendOutcome(db.log, db.self, env, body, deps);
    var id := commit.value;
    AdmissibleKeepsValid(db.log, id, With(db.log, Signed(id.of)));
    TopAfter(db.log, id, With(db.log, Signed(id.of)));
  }

  lemma TopAfter(log: Log, id: EventId, next: Log)
    requires Adds(log, id, next) && id.of.lamport == TopLamport(log) + 1
    ensures TopLamport(next) == TopLamport(log) + 1
  {
    assert id in next.events;
  }

  /** A receipt was committed: by the target, over an open or missing one. */
  ghost predicate Reported(db: Db, r: Receipt, id: EventId, next: Db) {
    && r.commandId in db.log.commands && db.log.commands[r.commandId].command.target == db.self == r.target
    && (r.commandId in db.log.receipts ==> !Terminal(db.log.receipts[r.commandId].receipt.status))
    && id.of.body == ReceiptBody(r) && Appended(db, id, next)
  }

  lemma AppendReceiptEffect(
      db: Db, env: Env, c: Command, status: Status, message: string, details: Details, commit: Commit<Receipt>)
    requires Sound(db) && AppendReceipt(db, env, c, status, message, details) == Ok(commit)
    ensures commit.value == ReceiptFor(c, env, status, message, details) && |commit.appended| == 1
    ensures Reported(db, commit.value, commit.appended[0], commit.db)
  {
    hide Valid, Gate, Verify, With, AppendBody, Below, TopLamport;
    var body := ReceiptBody(ReceiptFor(c, env, status, message, details));
    AppendBodyEffect(db, env, body, [db.log.commands[c.id].event],
      AppendBody(db, env, body, [db.log.commands[c.id].event]).value);
  }

  /** The tables after a receipt: the same members and commands, one receipt row replaced. */
  lemma ReceiptTables(log: Log, id: EventId)
    requires id.of.body.ReceiptBody?
    ensures var next := With(log, Signed(id.of)); var r := id.of.body.receipt;
      && next.members == log.members && next.commands == log.commands && next.removals == log.removals
      && next.catalog == log.catalog && next.fleet == log.fleet
      && next.receipts == log.receipts[r.commandId := ReceiptRow(id, id.of.sequence, r)]
  {
  }

  /** The two limits any append meets: the Lamport counter and the length of an encoded body. */
  ghost predicate Fits(log: Log, env: Env, r: Receipt) {
    TopLamport(log) < INT64_MAX && env.encodedLength(ReceiptBody(r)) <= MAX_BODY / 2
  }

  predicate AtCapacity(e: Rejection) { e == LamportExhausted || e == Oversized }

  /** A target's report on its own open command is refused for the two limits only, in this order. */
  lemma AppendReceiptOutcome(
      db: Db, env: Env, c: Command, status: Status, message: string, details: Details)
    requires c.id in db.log.commands && db.log.commands[c.id].command == c && c.target == db.self
    requires c.id in db.log.receipts ==> !Terminal(db.log.receipts[c.id].receipt.status)
    requires !status.OtherStatus? && Sound(db)
    ensures var r := ReceiptFor(c, env, status, message, details);
      var result := AppendReceipt(db, env, c, status, message, details);
      if TopLamport(db.log) >= INT64_MAX then result == Err(LamportExhausted)
      else if env.encodedLength(ReceiptBody(r)) > MAX_BODY / 2 then result == Err(Oversized)
      else result.Ok?
  {
    hide Authentic, Unforked, Chained, Causal, MembershipValid, CatalogRows, CatalogEvents, DeletionsSound,
      CommandEvents, ReceiptRows, ReceiptEvents, InventoryRows, InventoryEvents, ImportsSound, With, LastSequence,
      Head, AdmissionOf, Append, Genesis, Extends, WellFormedCommand, TopLamport;
    var body := ReceiptBody(ReceiptFor(c, env, status, message, details));
    var deps := [db.log.commands[c.id].event];
    AppendOutcome(db.log, db.self, env, body, deps);
    DraftShort(db.log, db.self, env, body, deps);
  }

  lemma DraftShort(log: Log, self: NodeId, env: Env, body: Body, deps: seq<EventId>)
    ensures |Draft(log, self, env, body, deps).dependencies| <= |deps| + 2
  {
  }
}
