/**
 Journal agreement: a node's inbox has one row per command it reported on, and
 the row's state is always the latest receipt's status.  Every operation keeps
 this, appends only legal receipts, and is never refused by the rule that
 terminal receipts are immutable.
 */
module JournalInvariant {
  import opened Records
  import opened Admission
  import opened LogInvariant
  import opened World
  import opened Journal
  import opened JournalSteps

  ghost predicate Distinct(inbox: seq<InboxRow>) {
    forall i, j :: 0 <= i < j < |inbox| ==> inbox[i].id != inbox[j].id
  }

  ghost predicate NoRepeats(ids: seq<CommandId>) {
    forall i, j :: 0 <= i < j < |ids| ==> ids[i] != ids[j]
  }

  predicate Targets(log: Log, c: CommandId, self: NodeId) {
    c in log.commands && log.commands[c].command.target == self
  }

  ghost predicate Agrees(db: Db) {
    forall k :: 0 <= k < |db.inbox| ==>
      Targets(db.log, db.inbox[k].id, db.self) && StatusIn(db.log, db.inbox[k].id) == Some(db.inbox[k].state)
  }

  /** Every receipt this node published is for a command in its inbox. */
  ghost predicate Covered(db: Db) {
    forall c :: c in db.log.receipts && Targets(db.log, c, db.self) ==> InInbox(db.inbox, c)
  }

  ghost predicate JournalInv(db: Db) { Sound(db) && Distinct(db.inbox) && Agrees(db) && Covered(db) }

  /** The journal's view of the tables: same members and commands, one command at a new status. */
  ghost predicate Moved(db: Db, c: CommandId, status: Status, next: Db) {
    && next.self == db.self && next.submissions == db.submissions
    && next.log.members == db.log.members && next.log.commands == db.log.commands
    && next.log.removals == db.log.removals && next.log.fleet == db.log.fleet
    && StatusIn(next.log, c) == Some(status)
    && (forall x :: x != c ==> StatusIn(next.log, x) == StatusIn(db.log, x))
  }

  lemma ReportedMoves(db: Db, r: Receipt, id: EventId, next: Db)
    requires Reported(db, r, id, next)
    ensures Moved(db, r.commandId, r.status, next) && next.inbox == db.inbox
  {
    hide Extends, Sound, Terminal, With, TopLamport;
    ReceiptTables(db.log, id);
  }

  lemma MoveKeepsInbox(db: Db, c: CommandId, status: Status, next: Db)
    requires Distinct(db.inbox) && Agrees(db) && Covered(db) && InInbox(db.inbox, c)
    requires Moved(db, c, status, next) && next.inbox == SetState(db.inbox, c, status)
    ensures Distinct(next.inbox) && Agrees(next) && Covered(next)
  {
    forall x | x in next.log.receipts && Targets(next.log, x, next.self) ensures InInbox(next.inbox, x) {
      assert x != c ==> StatusIn(next.log, x) == StatusIn(db.log, x);
      var k :| 0 <= k < |db.inbox| && db.inbox[k].id == x;
      assert next.inbox[k].id == x;
    }
  }

  /** What `Advance` does to a journal that satisfies the invariant. */
  ghost predicate Advanced(db: Db, c: CommandId, status: Status, appended: seq<EventId>, next: Db) {
    && Moved(db, c, status, next) && next.inbox == SetState(db.inbox, c, status)
    && TopLamport(next.log) == TopLamport(db.log) + 1
    && JournalInv(next) && Grown(db.self, db.log, next.log, appended)
  }

  lemma ReportedGrows(db: Db, r: Receipt, id: EventId, next: Db)
    requires Reported(db, r, id, next)
    requires LegalMove(StatusIn(db.log, r.commandId), r.status, db.log.commands[r.commandId].command.kind)
    requires OutputFinal(r)
    ensures Grown(db.self, db.log, next.log, [id])
  {
    hide Extends, Sound, Terminal, With, TopLamport;
    GrownOne(db.self, db.log, id);
  }

  lemma {:induction false} AdvanceKeeps(
      db: Db, env: Env, c: Command, status: Status, message: string, details: Details, commit: Commit<Receipt>)
    requires JournalInv(db) && InInbox(db.inbox, c.id) && Advance(db, env, c, status, message, details) == Ok(commit)
    requires c.id in db.log.commands && LegalMove(StatusIn(db.log, c.id), status, db.log.commands[c.id].command.kind)
    requires details.outputHash.OutputHash? ==> Terminal(status)
    ensures Advanced(db, c.id, status, commit.appended, commit.db)
    ensures commit.value == ReceiptFor(c, env, status, message, details)
  {
    hide Sound, AppendReceipt, Appended, Distinct, Agrees, Covered, TopLamport;
    var inner := AppendReceipt(db, env, c, status, message, details).value;
    AppendReceiptEffect(db, env, c, status, message, details, inner);
    var id := inner.appended[0];
    assert inner.appended == [id];
    ReportedMoves(db, inner.value, id, inner.db);
    ReportedGrows(db, inner.value, id, inner.db);
    MoveKeepsInbox(db, c.id, status, commit.db);
    ReportedSound(db, inner.value, id, inner.db);
    SoundLog(inner.db, commit.db);
  }

  lemma ReportedSound(db: Db, r: Receipt, id: EventId, next: Db)
    requires Reported(db, r, id, next)
    ensures Sound(next) && TopLamport(next.log) == TopLamport(db.log) + 1
  {
    hide Sound, Extends, TopLamport, With;
  }

  lemma SoundLog(db: Db, next: Db)
    requires Sound(db) && next.log == db.log && next.self == db.self
    ensures Sound(next)
  {
    hide Valid;
  }

  lemma AdvanceOutcome(
      db: Db, env: Env, c: Command, status: Status, message: string, details: Details)
    requires c.id in db.log.commands && db.log.commands[c.id].command == c && c.target == db.self
    requires c.id in db.log.receipts ==> !Terminal(db.log.receipts[c.id].receipt.status)
    requires !status.OtherStatus? && JournalInv(db)
    ensures var result := Advance(db, env, c, status, message, details);
      && (result.Ok? <==> Fits(db.log, env, ReceiptFor(c, env, status, message, details)))
      && (result.Err? ==> AtCapacity(result.error))
      && (result == Err(LamportExhausted) <==> TopLamport(db.log) >= INT64_MAX)
  {
    hide Sound, AppendReceipt, Distinct, Agrees, Covered, TopLamport;
    AppendReceiptOutcome(db, env, c, status, message, details);
  }
}
