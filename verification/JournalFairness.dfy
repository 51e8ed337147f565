/** `Next` as a scan of the inbox in acceptance order, and Complete and Recover over any inbox. */
module JournalFairness {
  import opened Records
  import opened Admission
  import opened LogInvariant
  import opened World
  import opened Journal
  import opened JournalSteps
  import opened JournalInvariant
  import opened JournalOperations

  predicate Waiting(s: Status) { s in {Queued, Held} }

  /** The row of a command in an inbox. */
  predicate RowOf(inbox: seq<InboxRow>, k: nat, id: CommandId) { k < |inbox| && inbox[k].id == id }

  lemma {:induction false} SelectOrdered(inbox: seq<InboxRow>, wanted: set<Status>)
    requires Distinct(inbox)
    ensures var ids := Select(inbox, wanted);
      forall i, j, k, l :: 0 <= i < j < |ids| && RowOf(inbox, k, ids[i]) && RowOf(inbox, l, ids[j]) ==> k < l
    ensures NoRepeats(Select(inbox, wanted))
  {
    if inbox != [] {
      var init := inbox[..|inbox| - 1];
      var last := inbox[|inbox| - 1];
      SelectOrdered(init, wanted);
      var ids := Select(inbox, wanted);
      forall i, j, k, l | 0 <= i < j < |ids| && RowOf(inbox, k, ids[i]) && RowOf(inbox, l, ids[j])
        ensures k < l && ids[i] != ids[j]
      {
        assert ids[i] in Select(init, wanted);
        var k' :| 0 <= k' < |init| && init[k'].id == ids[i] && init[k'].state in wanted;
        assert RowOf(init, k', ids[i]) && inbox[k'] == init[k'];
        if j < |Select(init, wanted)| {
          assert ids[j] in Select(init, wanted);
          var l' :| 0 <= l' < |init| && init[l'].id == ids[j] && init[l'].state in wanted;
          assert RowOf(init, l', ids[j]) && inbox[l'] == init[l'];
        }
      }
      forall i, j | 0 <= i < j < |ids| ensures ids[i] != ids[j] {
        assert ids[i] in ids && ids[j] in ids;
        var k :| 0 <= k < |inbox| && inbox[k].id == ids[i] && inbox[k].state in wanted;
        var l :| 0 <= l < |inbox| && inbox[l].id == ids[j] && inbox[l].state in wanted;
        assert RowOf(inbox, k, ids[i]) && RowOf(inbox, l, ids[j]);
      }
    }
  }

  lemma SelectPending(db: Db)
    requires JournalInv(db)
    ensures Pending(db, Select(db.inbox, {Queued, Held}))
  {
    hide Sound, Covered;
    SelectOrdered(db.inbox, {Queued, Held});
    var ids := Select(db.inbox, {Queued, Held});
    forall i | 0 <= i < |ids|
      ensures InInbox(db.inbox, ids[i]) && Targets(db.log, ids[i], db.self)
      ensures StatusIn(db.log, ids[i]) in {Some(Queued), Some(Held)}
    {
      assert ids[i] in ids;
    }
  }

  lemma NextKeeps(db: Db, env: Env, commit: Commit<Option<Command>>)
    requires JournalInv(db) && Next(db, env) == Ok(commit)
    ensures Committed(db, commit.appended, commit.db) && SameTables(db, commit.db) && SameRows(db, commit.db)
  {
    hide JournalInv, Scan, Fair, Pending, Committed;
    SelectPending(db);
    var _ := ScanKeeps(db, env, Select(db.inbox, {Queued, Held}), commit);
  }

  /** The scan, row by row: p is the row that runs, or the end of the inbox. */
  ghost predicate FairRows(db: Db, env: Env, p: nat, value: Option<Command>, next: Db)
    requires |next.inbox| == |db.inbox|
    requires forall k :: 0 <= k < |db.inbox| ==> db.inbox[k].id in db.log.commands
  {
    && p <= |db.inbox| && (value.None? <==> p == |db.inbox|)
    && (p < |db.inbox| ==>
          && Waiting(db.inbox[p].state) && value == Some(db.log.commands[db.inbox[p].id].command)
          && Eligible(db.log, env, db.inbox[p].id) && next.inbox[p] == InboxRow(db.inbox[p].id, Running))
    && (forall k :: 0 <= k < p && Waiting(db.inbox[k].state) ==>
          && next.inbox[k].id == db.inbox[k].id
          && Passed(db.log, env, db.inbox[k].id, Some(db.inbox[k].state), Some(next.inbox[k].state)))
    && (forall k :: 0 <= k < |db.inbox| && (k > p || !Waiting(db.inbox[k].state)) ==> next.inbox[k] == db.inbox[k])
  }

  /**
   `Next` is a fair scan in acceptance order: it returns the first waiting row that may run, and none if and only if no
   waiting row may; each earlier one is failed, expired or left as it is, by the condition for each.
   */
  lemma {:induction false} NextIsFair(db: Db, env: Env, commit: Commit<Option<Command>>) returns (p: nat)
    requires JournalInv(db) && Next(db, env) == Ok(commit)
    ensures SameRows(db, commit.db)
    ensures forall k :: 0 <= k < |db.inbox| ==> db.inbox[k].id in db.log.commands
    ensures FairRows(db, env, p, commit.value, commit.db)
    ensures commit.value.None? <==>
      forall k :: 0 <= k < |db.inbox| && Waiting(db.inbox[k].state) ==> !Eligible(db.log, env, db.inbox[k].id)
  {
    hide Sound, Scan, Covered, Grown, Eligible, Passed;
    var ids := Select(db.inbox, {Queued, Held});
    var next := commit.db;
    SelectPending(db);
    var stop := ScanKeeps(db, env, ids, commit);
    if stop == |ids| {
      p := |db.inbox|;
    } else {
      p :| 0 <= p < |db.inbox| && db.inbox[p].id == ids[stop] && db.inbox[p].state in {Queued, Held};
    }
    SelectOrdered(db.inbox, {Queued, Held});
    forall k | 0 <= k < |db.inbox|
      ensures next.inbox[k] == InboxRow(db.inbox[k].id, StatusIn(next.log, db.inbox[k].id).value)
      ensures k < p && Waiting(db.inbox[k].state) ==>
        Passed(db.log, env, db.inbox[k].id, Some(db.inbox[k].state), Some(next.inbox[k].state))
      ensures k > p || !Waiting(db.inbox[k].state) ==> next.inbox[k] == db.inbox[k]
    {
      RowFate(db, env, ids, stop, p, commit.value, next, k);
    }
    FirstEligible(db, env, p, commit.value, next);
  }

  lemma FirstEligible(db: Db, env: Env, p: nat, value: Option<Command>, next: Db)
    requires |next.inbox| == |db.inbox|
    requires forall k :: 0 <= k < |db.inbox| ==> db.inbox[k].id in db.log.commands
    requires FairRows(db, env, p, value, next)
    ensures value.None? <==>
      forall k :: 0 <= k < |db.inbox| && Waiting(db.inbox[k].state) ==> !Eligible(db.log, env, db.inbox[k].id)
  {
    hide Eligible;
  }

  lemma RowFate(
      db: Db, env: Env, ids: seq<CommandId>, stop: nat, p: nat, value: Option<Command>, next: Db, k: nat)
    requires Distinct(db.inbox) && Agrees(db) && Agrees(next) && SameRows(db, next) && k < |db.inbox|
    requires ids == Select(db.inbox, {Queued, Held}) && Fair(db, env, ids, stop, value, next)
    requires forall i, j, k, l ::
      0 <= i < j < |ids| && RowOf(db.inbox, k, ids[i]) && RowOf(db.inbox, l, ids[j]) ==> k < l
    requires if stop == |ids| then p == |db.inbox| else RowOf(db.inbox, p, ids[stop])
    ensures next.inbox[k] == InboxRow(db.inbox[k].id, StatusIn(next.log, db.inbox[k].id).value)
    ensures k < p && Waiting(db.inbox[k].state) ==>
      Passed(db.log, env, db.inbox[k].id, Some(db.inbox[k].state), Some(next.inbox[k].state))
    ensures k > p || !Waiting(db.inbox[k].state) ==> next.inbox[k] == db.inbox[k]
  {
    hide Eligible, Passed;
    var id := db.inbox[k].id;
    if Waiting(db.inbox[k].state) {
      assert id in ids;
      var q :| 0 <= q < |ids| && ids[q] == id;
      assert RowOf(db.inbox, k, ids[q]);
      if k > p {
        assert q > stop;
        forall r | 0 <= r < |ids| && r <= stop ensures ids[r] != id {
          var x := ids[r];
          assert x == id ==> RowOf(db.inbox, k, x);
        }
      }
    } else {
      assert forall r :: 0 <= r < |ids| ==> ids[r] in ids;
    }
  }

  // ---- Complete ---------------------------------------------------------

  lemma StateRow(db: Db, id: CommandId, state: Status)
    requires JournalInv(db) && StateOf(db.inbox, id) == Some(state)
    ensures InInbox(db.inbox, id) && Targets(db.log, id, db.self) && StatusIn(db.log, id) == Some(state)
  {
    hide Sound, Covered;
    var k :| 0 <= k < |db.inbox| && db.inbox[k] == InboxRow(id, state);
  }

  lemma {:induction false} CompleteKeeps(
      db: Db, env: Env, c: Command, status: Status, message: string, details: Details, commit: Commit<Receipt>)
    requires JournalInv(db) && Complete(db, env, c, status, message, details) == Ok(commit)
    ensures Committed(db, commit.appended, commit.db) && StatusIn(db.log, c.id) == Some(Running)
    ensures Advanced(db, c.id, status, commit.appended, commit.db) && status in {Done, Failed, Unknown}
  {
    hide JournalInv, Advance, Grown, StateOf, TopLamport, InInbox;
    StateRow(db, c.id, Running);
    AdvanceKeeps(db, env, c, status, message, details, commit);
  }

  // ---- Recover ----------------------------------------------------------

  /** Distinct running commands of the inbox. */
  ghost predicate Halted(db: Db, ids: seq<CommandId>) {
    && NoRepeats(ids)
    && (forall i :: 0 <= i < |ids| ==>
          InInbox(db.inbox, ids[i]) && Targets(db.log, ids[i], db.self) && StatusIn(db.log, ids[i]) == Some(Running))
  }

  lemma SettleStep(
      db: Db, env: Env, c: Command, rest: seq<CommandId>, status: Status, message: string, step: Commit<Receipt>)
    requires c.id in db.log.commands && c == db.log.commands[c.id].command
    requires Interrupted(c.kind) == (status, message)
    requires Halted(db, [c.id] + rest) && JournalInv(db)
    requires Advance(db, env, c, status, message, NO_DETAILS) == Ok(step)
    ensures Advanced(db, c.id, status, step.appended, step.db)
    ensures Halted(step.db, rest) && SameTables(db, step.db) && SameRows(db, step.db) && step.db.self == db.self
  {
    hide JournalInv, Advance, Grown, TopLamport, InInbox, Moved, Halted, SetState, SameTables, SameRows;
    assert ([c.id] + rest)[0] == c.id;
    HaltedHead(db, [c.id] + rest);
    HaltedRow(db, [c.id] + rest);
    AdvanceKeeps(db, env, c, status, message, NO_DETAILS, step);
    MovedShape(db, c.id, status, step.db);
    HaltedRest(db, c.id, rest, status, step.db);
  }

  lemma HaltedRow(db: Db, ids: seq<CommandId>)
    requires Halted(db, ids) && ids != []
    ensures InInbox(db.inbox, ids[0]) && StatusIn(db.log, ids[0]) == Some(Running)
  {
    hide InInbox;
  }

  lemma HaltedRest(db: Db, c: CommandId, rest: seq<CommandId>, status: Status, next: Db)
    requires Halted(db, [c] + rest) && Moved(db, c, status, next) && next.inbox == SetState(db.inbox, c, status)
    ensures Halted(next, rest)
  {
    hide InInbox;
    var ids := [c] + rest;
    assert ids[0] == c && forall i :: 0 <= i < |rest| ==> ids[i + 1] == rest[i];
    forall i | 0 <= i < |rest| ensures InInbox(next.inbox, rest[i]) {
      SetStateKeepsIds(db.inbox, c, status, rest[i]);
    }
  }

  lemma HaltedHead(db: Db, ids: seq<CommandId>)
    requires Halted(db, ids) && ids != []
    ensures Targets(db.log, ids[0], db.self)
    ensures ids[0] in db.log.receipts && !Terminal(db.log.receipts[ids[0]].receipt.status)
  {
  }

  /** What an interrupted command becomes: waiting again if it only looked at the machine, unknown otherwise. */
  function AfterCrash(kind: string): Status { if kind in {"check", "diagnostics"} then Queued else Unknown }

  lemma InterruptedMeans(kind: string)
    ensures Interrupted(kind).0 == AfterCrash(kind)
  {
  }

  /** Recovery settles each listed command by its kind and touches no other. */
  ghost predicate Recovered(db: Db, ids: seq<CommandId>, next: Db) {
    && (forall x :: x in ids ==>
          x in db.log.commands && StatusIn(next.log, x) == Some(AfterCrash(db.log.commands[x].command.kind)))
    && (forall x :: x !in ids ==> StatusIn(next.log, x) == StatusIn(db.log, x))
  }

  lemma RecoveredPast(db: Db, ids: seq<CommandId>, middle: Db, next: Db)
    requires ids != [] && Halted(db, ids) && SameTables(db, middle)
    requires ids[0] in db.log.commands && Moved(db, ids[0], AfterCrash(db.log.commands[ids[0]].command.kind), middle)
    requires Recovered(middle, ids[1..], next)
    ensures Recovered(db, ids, next)
  {
    assert forall x :: x in ids <==> x == ids[0] || x in ids[1..];
    assert ids[0] !in ids[1..];
  }

  lemma {:induction false} SettleKeeps(db: Db, env: Env, ids: seq<CommandId>, commit: Commit<()>)
    requires JournalInv(db) && Halted(db, ids) && Settle(db, env, ids) == Ok(commit)
    ensures Committed(db, commit.appended, commit.db) && SameTables(db, commit.db) && SameRows(db, commit.db)
    ensures Recovered(db, ids, commit.db)
    decreases |ids|
  {
    hide JournalInv, Advance, Grown, TopLamport, Recovered, Halted, SetState, SameTables, SameRows, Moved, Interrupted,
      AfterCrash;
    if ids == [] {
      CommittedRefl(db);
      SameSelf(db);
      RecoveredNothing(db);
    } else {
      var rest := ids[1..];
      assert ids == [ids[0]] + rest;
      HaltedHead(db, ids);
      CommandRowId(db, ids[0]);
      var c := db.log.commands[ids[0]].command;
      var (status, message) := Interrupted(c.kind);
      InterruptedMeans(c.kind);
      var step := Advance(db, env, c, status, message, NO_DETAILS).value;
      SettleStep(db, env, c, rest, status, message, step);
      var tail := Settle(step.db, env, rest).value;
      SettleKeeps(step.db, env, rest, tail);
      GrownConcat(db.self, db.log, step.db.log, tail.db.log, step.appended, tail.appended);
      SameThrough(db, step.db, tail.db);
      RecoveredPast(db, ids, step.db, commit.db);
    }
  }

  lemma RecoveredNothing(db: Db)
    ensures Recovered(db, [], db)
  {
  }

  lemma {:induction false} WithoutDistinct(s: seq<CommandId>, x: CommandId)
    requires NoRepeats(s)
    ensures NoRepeats(Without(s, x))
  {
    if s != [] {
      var init, last := s[..|s| - 1], s[|s| - 1];
      WithoutDistinct(init, x);
      if last != x {
        var kept := Without(init, x);
        forall i | 0 <= i < |kept| ensures kept[i] != last {
          assert kept[i] in kept;
          var k :| 0 <= k < |init| && init[k] == kept[i];
          assert s[k] != s[|s| - 1];
        }
      }
    }
  }

  ghost function RunningExcept(db: Db, pendingUpdate: CommandId): seq<CommandId> {
    Without(Select(db.inbox, {Running}), pendingUpdate)
  }

  lemma RunningHalted(db: Db, pendingUpdate: CommandId)
    requires JournalInv(db)
    ensures Halted(db, RunningExcept(db, pendingUpdate))
  {
    hide Sound, Covered;
    SelectOrdered(db.inbox, {Running});
    WithoutDistinct(Select(db.inbox, {Running}), pendingUpdate);
    var ids := RunningExcept(db, pendingUpdate);
    forall i | 0 <= i < |ids|
      ensures InInbox(db.inbox, ids[i]) && Targets(db.log, ids[i], db.self)
      ensures StatusIn(db.log, ids[i]) == Some(Running)
    {
      assert ids[i] in ids;
    }
  }

  /**
   Recovery, row by row: a running command other than the pending update is queued again if it is a check or a
   diagnostics run and unknown if it is anything else; every other row stays.
   */
  ghost predicate RecoveredRows(db: Db, pendingUpdate: CommandId, next: Db) {
    && |next.inbox| == |db.inbox|
    && forall k :: 0 <= k < |db.inbox| ==>
         var row := db.inbox[k];
         && row.id in db.log.commands
         && next.inbox[k] ==
            if row.state != Running || row.id == pendingUpdate then row
            else InboxRow(row.id, if db.log.commands[row.id].command.kind in {"check", "diagnostics"} then Queued
                                  else Unknown)
  }

  lemma RecoveredInbox(db: Db, pendingUpdate: CommandId, next: Db)
    requires Agrees(db) && Agrees(next) && Distinct(db.inbox) && SameRows(db, next)
    requires Recovered(db, RunningExcept(db, pendingUpdate), next)
    ensures RecoveredRows(db, pendingUpdate, next)
  {
    forall k | 0 <= k < |db.inbox|
      ensures db.inbox[k].id in RunningExcept(db, pendingUpdate)
         <==> db.inbox[k].state == Running && db.inbox[k].id != pendingUpdate
    {
    }
  }

  lemma {:induction false} RecoverKeeps(db: Db, env: Env, pendingUpdate: CommandId, commit: Commit<()>)
    requires JournalInv(db) && Recover(db, env, pendingUpdate) == Ok(commit)
    ensures Committed(db, commit.appended, commit.db) && SameTables(db, commit.db) && SameRows(db, commit.db)
    ensures Recovered(db, RunningExcept(db, pendingUpdate), commit.db)
    ensures Halted(db, RunningExcept(db, pendingUpdate)) && RecoveredRows(db, pendingUpdate, commit.db)
  {
    hide Sound, Covered, Agrees, Distinct, Settle, Halted, Grown, Recovered, SameRows, SameTables, RecoveredRows;
    RunningHalted(db, pendingUpdate);
    SettleKeeps(db, env, RunningExcept(db, pendingUpdate), commit);
    RecoveredInbox(db, pendingUpdate, commit.db);
  }
}
