/**
 Accept, Next, Complete and Recover: each keeps journal agreement and appends
 only legal receipts; `Next` is a fair scan; none is refused for an internal
 reason.
 */
module JournalOperations {
  import opened Records
  import opened Admission
  import opened LogInvariant
  import opened World
  import opened CommandRules
  import opened Journal
  import opened JournalSteps
  import opened JournalInvariant

  /** What every committed operation guarantees. */
  ghost predicate Committed(db: Db, appended: seq<EventId>, next: Db) {
    next.self == db.self && JournalInv(next) && Grown(db.self, db.log, next.log, appended)
  }

  lemma CommittedRefl(db: Db)
    requires JournalInv(db)
    ensures Committed(db, [], db)
  {
    hide JournalInv;
  }

  // ---- Accept -----------------------------------------------------------

  /** A first acceptance adds one inbox row, at the end, in the state of its receipt. */
  ghost predicate Accepted(db: Db, id: CommandId, status: Status, next: Db) {
    && Moved(db, id, status, next) && next.inbox == db.inbox + [InboxRow(id, status)]
    && id !in db.log.receipts && !InInbox(db.inbox, id) && status in {Queued, Held, Failed, Expired}
  }

  lemma AcceptKeepsInbox(db: Db, c: CommandId, status: Status, next: Db)
    requires Distinct(db.inbox) && Agrees(db) && Covered(db) && !InInbox(db.inbox, c)
    requires Targets(db.log, c, db.self)
    requires Moved(db, c, status, next) && next.inbox == db.inbox + [InboxRow(c, status)]
    ensures Distinct(next.inbox) && Agrees(next) && Covered(next)
  {
    forall k | 0 <= k < |next.inbox|
      ensures Targets(next.log, next.inbox[k].id, next.self)
      ensures StatusIn(next.log, next.inbox[k].id) == Some(next.inbox[k].state)
    {
      assert k < |db.inbox| ==> db.inbox[k].id != c;
    }
    forall x | x in next.log.receipts && Targets(next.log, x, next.self) ensures InInbox(next.inbox, x) {
      if x == c {
        assert next.inbox[|db.inbox|].id == c;
      } else {
        assert StatusIn(next.log, x) == StatusIn(db.log, x);
        var k :| 0 <= k < |db.inbox| && db.inbox[k].id == x;
        assert next.inbox[k].id == x;
      }
    }
  }

  /** A first acceptance. */
  lemma FirstAcceptKeeps(
      db: Db, env: Env, c: Command, status: Status, message: string, inner: Commit<Receipt>, next: Db)
    requires c.id in db.log.commands && Targets(db.log, c.id, db.self)
    requires c.id !in db.log.receipts && !InInbox(db.inbox, c.id) && status in {Queued, Held, Failed, Expired}
    requires JournalInv(db) && AppendReceipt(db, env, c, status, message, NO_DETAILS) == Ok(inner)
    requires next == inner.db.(inbox := inner.db.inbox + [InboxRow(c.id, status)])
    ensures Committed(db, inner.appended, next) && Accepted(db, c.id, status, next)
    ensures inner.value == Receipt(c.id, c.target, status, message, env.now, NO_DETAILS)
  {
    hide Sound, AppendReceipt, Appended, Distinct, Agrees, Covered, TopLamport, Grown, Moved, InInbox, Targets;
    AppendReceiptEffect(db, env, c, status, message, NO_DETAILS, inner);
    var event := inner.appended[0];
    assert inner.appended == [event];
    ReportedMoves(db, inner.value, event, inner.db);
    ReportedGrows(db, inner.value, event, inner.db);
    ReportedSound(db, inner.value, event, inner.db);
    SoundLog(inner.db, next);
    MovedInbox(db, c.id, status, inner.db, next);
    MovedSelf(db, c.id, status, inner.db);
    AcceptKeepsInbox(db, c.id, status, next);
  }

  lemma MovedSelf(db: Db, c: CommandId, status: Status, next: Db)
    requires Moved(db, c, status, next)
    ensures next.self == db.self
  {
  }

  lemma {:induction false} AcceptKeeps(db: Db, env: Env, id: CommandId, commit: Commit<Receipt>)
    requires JournalInv(db) && CommandRows(db.log) && Accept(db, env, id) == Ok(commit)
    ensures Committed(db, commit.appended, commit.db)
    ensures id in db.log.commands
    ensures if id in db.log.receipts
            then commit == Commit(db, [], db.log.receipts[id].receipt)
            else Accepted(db, id, AcceptStatus(db.log.commands[id].command, env).0, commit.db)
                 && commit.value.status == AcceptStatus(db.log.commands[id].command, env).0
                 && FirstAnswer(db.log.commands[id].command, env, commit.value.status)
                 && commit.value == Receipt(id, db.self, commit.value.status, commit.value.message, env.now, NO_DETAILS)
  {
    hide FirstAnswer, JournalInv, AppendReceipt, AcceptStatus, WellFormedCommand, Grown, InInbox, Accepted;
    if id in db.log.receipts {
      CommittedRefl(db);
    } else {
      var c := db.log.commands[id].command;
      var (status, message) := AcceptStatus(c, env);
      AcceptMeans(c, env);
      var inner := AppendReceipt(db, env, c, status, message, NO_DETAILS).value;
      FirstAcceptKeeps(db, env, c, status, message, inner, commit.db);
    }
  }

  lemma MovedInbox(db: Db, c: CommandId, status: Status, next: Db, last: Db)
    requires Moved(db, c, status, next)
    requires last.log == next.log && last.self == next.self && last.submissions == next.submissions
    ensures Moved(db, c, status, last)
  {
  }

  // ---- Next -------------------------------------------------------------

  /** The commands still to be scanned: distinct, in the inbox, queued or held. */
  ghost predicate Pending(db: Db, ids: seq<CommandId>) {
    && NoRepeats(ids)
    && (forall i :: 0 <= i < |ids| ==>
          InInbox(db.inbox, ids[i]) && Targets(db.log, ids[i], db.self)
          && StatusIn(db.log, ids[i]) in {Some(Queued), Some(Held)})
  }

  function VerdictOf(log: Log, env: Env, id: CommandId): Option<(Status, string)>
    requires id in log.commands
  {
    Verdict(log, env, log.commands[id].command, log.commands[id].event.of.origin)
  }

  /** Neither the target of a command nor the node that submitted it has been removed. */
  ghost predicate InFleet(log: Log, id: CommandId)
    requires id in log.commands
  {
    var target, origin := log.commands[id].command.target, log.commands[id].event.of.origin;
    && target in log.members && !log.members[target].removed
    && origin in log.members && !log.members[origin].removed
  }

  /** A waiting command may run: at once if it is online, before its expiry by a certain clock if it is deferred. */
  ghost predicate Eligible(log: Log, env: Env, id: CommandId)
    requires id in log.commands
  {
    var c := log.commands[id].command;
    InFleet(log, id) && (c.delivery.Deferred? ==> !env.clockUncertain && env.now < c.expiresAt)
  }

  /** A deferred command whose expiry a certain clock has reached. */
  ghost predicate Overdue(log: Log, env: Env, id: CommandId)
    requires id in log.commands
  {
    var c := log.commands[id].command;
    InFleet(log, id) && c.delivery.Deferred? && !env.clockUncertain && c.expiresAt <= env.now
  }

  /** A deferred command under a clock that cannot be trusted. */
  ghost predicate Postponed(log: Log, env: Env, id: CommandId)
    requires id in log.commands
  {
    InFleet(log, id) && log.commands[id].command.delivery.Deferred? && env.clockUncertain
  }

  /** The verdict on a waiting command, on its fields, the members and the clock. */
  lemma VerdictMeans(log: Log, env: Env, id: CommandId)
    requires id in log.commands
    ensures VerdictOf(log, env, id) ==
      if !InFleet(log, id) then Some((Failed, "Target or command origin was removed before execution"))
      else if Postponed(log, env, id) then None
      else if Overdue(log, env, id) then Some((Expired, "Expired before execution"))
      else Some((Running, "Running on target"))
    ensures Eligible(log, env, id) <==> VerdictOf(log, env, id).Some? && VerdictOf(log, env, id).value.0 == Running
    ensures Eligible(log, env, id) <==> InFleet(log, id) && !Overdue(log, env, id) && !Postponed(log, env, id)
  {
  }

  /**
   How a waiting command that does not run leaves the scan: failed if it or its origin was removed, expired if it is
   overdue, as it was if the clock cannot tell.
   */
  ghost predicate Passed(log: Log, env: Env, id: CommandId, prior: Option<Status>, next: Option<Status>)
    requires id in log.commands
  {
    && !Eligible(log, env, id)
    && (next == Some(Failed) <==> !InFleet(log, id))
    && (next == Some(Expired) <==> Overdue(log, env, id))
    && (next == prior <==> Postponed(log, env, id))
  }

  /** A verdict other than running, carried out, is one of those three. */
  lemma PassedBy(log: Log, env: Env, id: CommandId, prior: Option<Status>, next: Option<Status>)
    requires id in log.commands && prior in {Some(Queued), Some(Held)}
    requires match VerdictOf(log, env, id)
             case None => next == prior
             case Some(v) => v.0 in {Failed, Expired} && next == Some(v.0)
    ensures Passed(log, env, id, prior, next)
  {
    hide VerdictOf, InFleet, Eligible;
    VerdictMeans(log, env, id);
  }

  ghost predicate SameRows(db: Db, next: Db) {
    |next.inbox| == |db.inbox| && forall k :: 0 <= k < |db.inbox| ==> next.inbox[k].id == db.inbox[k].id
  }

  ghost predicate SameTables(db: Db, next: Db) {
    && next.log.members == db.log.members && next.log.commands == db.log.commands
    && next.log.removals == db.log.removals && next.log.fleet == db.log.fleet && next.submissions == db.submissions
  }

  /**
   The scan stopped at position `stop`: the command there may run and does, no earlier one may, each of those left the
   scan as `Passed` says, and no other command changed.
   */
  ghost predicate Fair(db: Db, env: Env, ids: seq<CommandId>, stop: nat, value: Option<Command>, next: Db) {
    && stop <= |ids| && (value.None? <==> stop == |ids|)
    && (forall q :: 0 <= q < |ids| ==> ids[q] in db.log.commands)
    && (stop < |ids| ==>
          && value == Some(db.log.commands[ids[stop]].command)
          && Eligible(db.log, env, ids[stop]) && StatusIn(next.log, ids[stop]) == Some(Running))
    && (forall q :: 0 <= q < stop ==>
          Passed(db.log, env, ids[q], StatusIn(db.log, ids[q]), StatusIn(next.log, ids[q])))
    && (forall x :: (forall q :: 0 <= q < |ids| && q <= stop ==> ids[q] != x) ==>
          StatusIn(next.log, x) == StatusIn(db.log, x))
  }

  lemma CommandRowId(db: Db, id: CommandId)
    requires JournalInv(db) && id in db.log.commands
    ensures db.log.commands[id].command.id == id
  {
    hide ChainValid, MembershipValid, CatalogRows, CatalogEvents, DeletionsSound, CommandEvents, ReceiptRows,
      ReceiptEvents, InventoryRows, InventoryEvents, ImportsSound, Distinct, Agrees, Covered, WellFormedCommand;
  }

  /** One verdict of the scan, carried out. */
  lemma ScanStep(
      db: Db, env: Env, c: Command, rest: seq<CommandId>, status: Status, message: string, step: Commit<Receipt>)
    requires c.id in db.log.commands && c == db.log.commands[c.id].command
    requires VerdictOf(db.log, env, c.id) == Some((status, message))
    requires Pending(db, [c.id] + rest) && JournalInv(db)
    requires Advance(db, env, c, status, message, NO_DETAILS) == Ok(step)
    ensures Advanced(db, c.id, status, step.appended, step.db) && status in {Running, Failed, Expired}
    ensures Pending(step.db, rest) && SameTables(db, step.db) && SameRows(db, step.db) && step.db.self == db.self
  {
    hide JournalInv, Advance, Grown, TopLamport, InInbox, Moved, Pending, SetState, SameTables, SameRows;
    assert ([c.id] + rest)[0] == c.id;
    PendingRow(db, [c.id] + rest);
    AdvanceKeeps(db, env, c, status, message, NO_DETAILS, step);
    MovedShape(db, c.id, status, step.db);
    PendingRest(db, c.id, rest, status, step.db);
  }

  lemma PendingRow(db: Db, ids: seq<CommandId>)
    requires Pending(db, ids) && ids != []
    ensures InInbox(db.inbox, ids[0]) && StatusIn(db.log, ids[0]) in {Some(Queued), Some(Held)}
  {
    hide InInbox;
  }

  lemma PendingRest(db: Db, c: CommandId, rest: seq<CommandId>, status: Status, next: Db)
    requires Pending(db, [c] + rest) && Moved(db, c, status, next) && next.inbox == SetState(db.inbox, c, status)
    ensures Pending(next, rest)
  {
    hide InInbox;
    var ids := [c] + rest;
    assert ids[0] == c && forall i :: 0 <= i < |rest| ==> ids[i + 1] == rest[i];
    forall i | 0 <= i < |rest| ensures InInbox(next.inbox, rest[i]) {
      SetStateKeepsIds(db.inbox, c, status, rest[i]);
    }
  }

  /** An advance keeps the tables a verdict depends on and the rows of the inbox. */
  lemma MovedShape(db: Db, c: CommandId, status: Status, next: Db)
    requires Moved(db, c, status, next) && next.inbox == SetState(db.inbox, c, status)
    ensures SameTables(db, next) && SameRows(db, next) && next.self == db.self
  {
  }

  lemma VerdictStable(db: Db, next: Db, env: Env)
    requires SameTables(db, next)
    ensures forall x :: x in db.log.commands ==> VerdictOf(next.log, env, x) == VerdictOf(db.log, env, x)
  {
  }

  lemma EligibleStable(db: Db, next: Db, env: Env)
    requires SameTables(db, next)
    ensures forall x :: x in db.log.commands ==> (Eligible(next.log, env, x) <==> Eligible(db.log, env, x))
  {
  }

  lemma PassedStable(db: Db, next: Db, env: Env, id: CommandId, prior: Option<Status>, after: Option<Status>)
    requires SameTables(db, next) && id in db.log.commands
    ensures Passed(next.log, env, id, prior, after) <==> Passed(db.log, env, id, prior, after)
  {
  }

  lemma SetStateKeepsIds(inbox: seq<InboxRow>, id: CommandId, state: Status, x: CommandId)
    requires InInbox(inbox, x)
    ensures InInbox(SetState(inbox, id, state), x)
  {
    var k :| 0 <= k < |inbox| && inbox[k].id == x;
    assert SetState(inbox, id, state)[k].id == x;
  }

  lemma FairRunning(db: Db, env: Env, ids: seq<CommandId>, next: Db)
    requires Pending(db, ids) && ids != [] && VerdictOf(db.log, env, ids[0]).Some?
    requires VerdictOf(db.log, env, ids[0]).value.0 == Running && Moved(db, ids[0], Running, next)
    ensures Fair(db, env, ids, 0, Some(db.log.commands[ids[0]].command), next)
  {
    hide VerdictOf, InFleet, Eligible;
    VerdictMeans(db.log, env, ids[0]);
    forall x | forall q :: 0 <= q < |ids| && q <= 0 ==> ids[q] != x
      ensures StatusIn(next.log, x) == StatusIn(db.log, x)
    {
      assert ids[0] != x;
    }
  }

  /** Going past a command that does not run. */
  lemma FairPast(
      db: Db, env: Env, ids: seq<CommandId>, stop: nat, value: Option<Command>, middle: Db, next: Db)
    requires Pending(db, ids) && ids != [] && SameTables(db, middle)
    requires match VerdictOf(db.log, env, ids[0])
             case None => middle == db
             case Some(v) => v.0 in {Failed, Expired} && Moved(db, ids[0], v.0, middle)
    requires Fair(middle, env, ids[1..], stop, value, next)
    ensures Fair(db, env, ids, stop + 1, value, next)
  {
    hide VerdictOf, Eligible, Passed;
    var rest := ids[1..];
    forall q | 0 <= q < |ids| ensures ids[q] in db.log.commands { }
    assert forall q :: 0 <= q < |rest| ==> rest[q] == ids[q + 1] && rest[q] != ids[0];
    EligibleStable(db, middle, env);
    forall q | 0 <= q < stop + 1
      ensures Passed(db.log, env, ids[q], StatusIn(db.log, ids[q]), StatusIn(next.log, ids[q]))
    {
      if q == 0 {
        PassedBy(db.log, env, ids[0], StatusIn(db.log, ids[0]), StatusIn(next.log, ids[0]));
      } else {
        assert ids[q] == rest[q - 1];
        PassedStable(db, middle, env, ids[q], StatusIn(db.log, ids[q]), StatusIn(next.log, ids[q]));
      }
    }
    forall x | forall q :: 0 <= q < |ids| && q <= stop + 1 ==> ids[q] != x
      ensures StatusIn(next.log, x) == StatusIn(db.log, x)
    {
      assert ids[0] != x;
      assert forall q :: 0 <= q < |rest| && q <= stop ==> rest[q] != x;
    }
  }

  /** The whole loop: agreement kept, legal receipts only, and a fair choice. */
  lemma {:induction false} ScanKeeps(db: Db, env: Env, ids: seq<CommandId>, commit: Commit<Option<Command>>)
    returns (stop: nat)
    requires JournalInv(db) && Pending(db, ids) && Scan(db, env, ids) == Ok(commit)
    ensures Committed(db, commit.appended, commit.db) && SameTables(db, commit.db) && SameRows(db, commit.db)
    ensures Fair(db, env, ids, stop, commit.value, commit.db)
    decreases |ids|
  {
    hide JournalInv, Advance, Grown, TopLamport, Fair, Pending, VerdictOf, SameTables, SameRows, SetState, Moved,
      Verdict;
    if ids == [] {
      CommittedRefl(db);
      SameSelf(db);
      stop := 0;
      FairEmpty(db, env);
    } else {
      var rest := ids[1..];
      assert ids == [ids[0]] + rest;
      CommandRowId(db, ids[0]);
      var c := db.log.commands[ids[0]].command;
      var verdict := VerdictOf(db.log, env, ids[0]);
      assert verdict == Verdict(db.log, env, c, db.log.commands[ids[0]].event.of.origin) by {
        VerdictUnfold(db, env, ids[0]);
      }
      if verdict.None? {
        PendingTail(db, ids);
        var s := ScanKeeps(db, env, rest, commit);
        SameSelf(db);
        FairPast(db, env, ids, s, commit.value, db, commit.db);
        stop := s + 1;
      } else {
        var step := Advance(db, env, c, verdict.value.0, verdict.value.1, NO_DETAILS).value;
        ScanStep(db, env, c, rest, verdict.value.0, verdict.value.1, step);
        if verdict.value.0 == Running {
          stop := 0;
          FairRunning(db, env, ids, step.db);
        } else {
          var tail := Scan(step.db, env, rest).value;
          var s := ScanKeeps(step.db, env, rest, tail);
          GrownConcat(db.self, db.log, step.db.log, tail.db.log, step.appended, tail.appended);
          SameThrough(db, step.db, tail.db);
          FairPast(db, env, ids, s, commit.value, step.db, commit.db);
          stop := s + 1;
        }
      }
    }
  }

  lemma SameSelf(db: Db)
    ensures SameTables(db, db) && SameRows(db, db)
  {
  }

  lemma SameThrough(a: Db, b: Db, c: Db)
    requires SameTables(a, b) && SameRows(a, b) && SameTables(b, c) && SameRows(b, c)
    ensures SameTables(a, c) && SameRows(a, c)
  {
  }

  lemma FairEmpty(db: Db, env: Env)
    ensures Fair(db, env, [], 0, None, db)
  {
  }

  lemma PendingTail(db: Db, ids: seq<CommandId>)
    requires Pending(db, ids) && ids != []
    ensures Pending(db, ids[1..]) && ids[0] in db.log.commands
  {
  }

  lemma VerdictUnfold(db: Db, env: Env, id: CommandId)
    requires id in db.log.commands
    ensures var row := db.log.commands[id];
      VerdictOf(db.log, env, id) == Verdict(db.log, env, row.command, row.event.of.origin)
  {
  }
}
