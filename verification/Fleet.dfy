/**
 The fleet as a whole catches up: from every reachable state, nodes that take
 each other for active members can exchange pulls until all of them hold
 everything any of them held, without anybody else taking part and without a
 single change to any journal.
 */
module Fleet {
  import opened Records
  import opened Ordering
  import opened Admission
  import opened LogInvariant
  import opened Convergence
  import opened World
  import opened Exchange
  import opened System
  import opened SystemInvariant
  import opened SystemSteps
  import opened PeerSteps
  import StoreLoops

  // ---- exports and cursors exist ------------------------------------------------------

  lemma {:induction false} SortedRows(log: Log, ids: set<EventId>) returns (rows: seq<Event>)
    requires StoreLoops.WellKeyed(log) && ids <= log.events.Keys
    ensures Ordered(rows) && forall k :: 0 <= k < |rows| ==> rows[k].id in ids && rows[k] == log.events[rows[k].id]
    ensures forall id :: id in ids ==> Contains(rows, id)
    decreases |ids|
  {
    hide StoreLoops.WellKeyed, Before;
    if ids == {} {
      rows := [];
    } else {
      StoreLoops.LeastExists(log, ids);
      var least :| least in ids && forall id :: id in ids && id != least ==> Before(least, id);
      var rest := SortedRows(log, ids - {least});
      StoreLoops.KeyedRow(log, least);
      rows := [log.events[least]] + rest;
      forall id | id in ids ensures Contains(rows, id) {
        if id == least {
          assert rows[0].id == id;
        } else {
          assert id in ids - {least};
          var k :| 0 <= k < |rest| && rest[k].id == id;
          assert rows[k + 1].id == id;
        }
      }
    }
  }

  /** How many rows an export takes: up to the batch limit, and up to the first that does not fit, but never none. */
  function Fitting(rows: seq<Event>, rowLength: Event -> nat, n: nat): (m: nat)
    requires n <= |rows| && n <= MAX_BATCH && (n <= 1 || Total(rowLength, rows[..n]) <= MAX_BODY / 2)
    ensures n <= m <= |rows| && m <= MAX_BATCH && (m <= 1 || Total(rowLength, rows[..m]) <= MAX_BODY / 2)
    ensures m == |rows| || m == MAX_BATCH || (m >= 1 && Total(rowLength, rows[..m + 1]) > MAX_BODY / 2)
    decreases |rows| - n
  {
    if n == |rows| || n == MAX_BATCH || (n >= 1 && Total(rowLength, rows[..n + 1]) > MAX_BODY / 2) then n
    else Fitting(rows, rowLength, n + 1)
  }

  /** The first n of all missing rows, in order. */
  lemma PrefixRows(log: Log, c: Cursors, rows: seq<Event>, n: nat)
    requires Ordered(rows) && n <= |rows|
    requires forall k :: 0 <= k < |rows| ==> Missing(log, c, rows[k].id) && rows[k] == log.events[rows[k].id]
    requires forall id :: Missing(log, c, id) ==> Contains(rows, id)
    ensures Rows(log, c, rows[..n]) && Ordered(rows[..n]) && NoSkips(log, c, rows[..n])
    ensures n == |rows| ==> Whole(log, c, rows[..n])
    ensures n < |rows| ==> NextLeft(log, c, rows[..n], rows[n].id)
  {
    hide Missing, Before;
    var batch := rows[..n];
    forall id, k | Missing(log, c, id) && 0 <= k < |batch| && Before(id, batch[k].id)
      ensures exists j :: 0 <= j < k && batch[j].id == id
    {
      var j :| 0 <= j < |rows| && rows[j].id == id;
      StoreLoops.RowOrder(rows, j, k);
      assert batch[j].id == id;
    }
    forall id | Missing(log, c, id)
      ensures Contains(batch, id) || exists j :: n <= j < |rows| && rows[j].id == id
    {
      var j :| 0 <= j < |rows| && rows[j].id == id;
      if j < n { assert batch[j].id == id; }
    }
    if n == |rows| { assert batch == rows; }
    if n < |rows| { NotInPrefix(rows, n); }
  }

  lemma NotInPrefix(rows: seq<Event>, n: nat)
    requires Ordered(rows) && n < |rows|
    ensures !Contains(rows[..n], rows[n].id)
  {
    hide Before;
    forall j | 0 <= j < n ensures rows[..n][j].id != rows[n].id {
      assert Before(rows[j].id, rows[n].id);
      BeforeDiffers(rows[j].id, rows[n].id);
    }
  }

  lemma {:induction false} ExportExists(log: Log, c: Cursors, rowLength: Event -> nat) returns (batch: seq<Event>)
    requires Valid(log)
    ensures IsExport(log, c, MAX_BATCH, rowLength, batch)
  {
    hide Valid, Rows, Ordered, NoSkips, Total, NextLeft;
    StoreLoops.ValidKeyed(log);
    var missing := set id | id in log.events && Missing(log, c, id);
    var rows := SortedRows(log, missing);
    assert Total(rowLength, rows[..0]) >= 0;
    var n := Fitting(rows, rowLength, 0);
    PrefixRows(log, c, rows, n);
    batch := rows[..n];
    if n < |rows| && n < MAX_BATCH {
      assert rows[..n + 1][..n] == batch;
      StoreLoops.TotalSnoc(rowLength, rows[..n + 1]);
    }
  }

  lemma CursorsExist(log: Log) returns (c: Cursors)
    ensures ExactCursors(log, c)
  {
    var origins := set id | id in log.events :: id.of.origin;
    c := map origin | origin in origins :: LastSequence(log, origin);
    forall origin ensures CursorAt(c, origin) == LastSequence(log, origin) {
      assert origin !in origins ==> forall id :: id in log.events ==> id.of.origin != origin;
    }
  }

  // ---- exchanges inside a group ----------------------------------------------------------

  /** All members of a group take each other, and themselves, for active members. */
  ghost predicate MutuallyActive(s: System, g: set<NodeId>) {
    forall i, j :: i in g && j in g ==> i in s.nodes && Active(s.nodes[i].db.log, j)
  }

  /** A step of an exchange between members of a group. */
  predicate Exchanges(step: Step, g: set<NodeId>) {
    || (step.Announce? && step.node in g)
    || (step.Send? && step.node in g && step.report.peer in g && step.limit == MAX_BATCH)
    || (step.Deliver? && step.mail.to in g)
  }

  /** Steps that are all exchanges in the group, each made while its members take each other for active. */
  ghost predicate Talk(fleet: string, steps: seq<Step>, more: seq<Step>, g: set<NodeId>)
    decreases |more|
  {
    more == []
    || (var init := more[..|more| - 1];
        && Talk(fleet, steps, init, g) && Exchanges(more[|more| - 1], g)
        && MutuallyActive(Run(fleet, steps + init), g))
  }

  lemma {:induction false} TalkConcat(fleet: string, steps: seq<Step>, a: seq<Step>, b: seq<Step>, g: set<NodeId>)
    requires Talk(fleet, steps, a, g) && Talk(fleet, steps + a, b, g)
    ensures Talk(fleet, steps, a + b, g)
    decreases |b|
  {
    hide Run, MutuallyActive, Exchanges;
    if b == [] {
      assert a + b == a;
    } else {
      var init := b[..|b| - 1];
      TalkConcat(fleet, steps, a, init, g);
      assert (a + b)[..|a + b| - 1] == a + init && (a + b)[|a + b| - 1] == b[|b| - 1];
      assert steps + (a + init) == steps + a + init;
    }
  }

  lemma TalkOne(fleet: string, steps: seq<Step>, a: seq<Step>, step: Step, g: set<NodeId>)
    requires Talk(fleet, steps, a, g) && Exchanges(step, g) && MutuallyActive(Run(fleet, steps + a), g)
    ensures Talk(fleet, steps, a + [step], g)
  {
    hide Run, MutuallyActive, Exchanges;
    var more := a + [step];
    assert more[..|more| - 1] == a;
  }

  // ---- what exchanges change ---------------------------------------------------------------

  /** An event held by some member of the group. */
  ghost predicate HeldIn(s: System, g: set<NodeId>, id: EventId) {
    exists y :: y in g && y in s.nodes && id in s.nodes[y].db.log.events
  }

  /** Only the logs of group members change: they grow, by events of the group. */
  ghost predicate OnlyLogs(s: System, s': System, g: set<NodeId>) {
    && s'.born == s.born && s'.fleet == s.fleet && s'.nodes.Keys == s.nodes.Keys
    && forall x :: x in s.nodes ==> LogGrew(s, s', g, x)
  }

  ghost predicate LogGrew(s: System, s': System, g: set<NodeId>, x: NodeId)
    requires x in s.nodes && x in s'.nodes
  {
    var log, log' := s.nodes[x].db.log, s'.nodes[x].db.log;
    && s'.nodes[x] == s.nodes[x].(db := s.nodes[x].db.(log := log'))
    && Covers(log', log) && (x !in g ==> log' == log)
    && forall id :: id in log'.events ==> id in log.events || HeldIn(s, g, id)
  }

  lemma OnlyLogsSame(s: System, s': System, g: set<NodeId>)
    requires s'.nodes == s.nodes && s'.born == s.born && s'.fleet == s.fleet
    ensures OnlyLogs(s, s', g)
  {
    hide HeldIn;
  }

  lemma HeldBefore(s: System, t: System, g: set<NodeId>, id: EventId)
    requires OnlyLogs(s, t, g) && HeldIn(t, g, id)
    ensures HeldIn(s, g, id)
  {
    hide Covers;
    var y :| y in g && y in t.nodes && id in t.nodes[y].db.log.events;
    assert LogGrew(s, t, g, y);
    if id in s.nodes[y].db.log.events { assert HeldIn(s, g, id); }
  }

  lemma OnlyLogsTransitive(s: System, t: System, u: System, g: set<NodeId>)
    requires OnlyLogs(s, t, g) && OnlyLogs(t, u, g)
    ensures OnlyLogs(s, u, g)
  {
    forall x | x in s.nodes ensures LogGrew(s, u, g, x) {
      assert LogGrew(s, t, g, x) && LogGrew(t, u, g, x);
      forall id | id in u.nodes[x].db.log.events ensures id in s.nodes[x].db.log.events || HeldIn(s, g, id) {
        if HeldIn(t, g, id) { HeldBefore(s, t, g, id); }
      }
    }
  }

  lemma NoConflictsStay(s: System, t: System, g: set<NodeId>)
    requires NoConflicts(WorldOf(s)) && OnlyLogs(s, t, g)
    ensures NoConflicts(WorldOf(t))
  {
    hide LogGrew;
    SameConflicts(WorldOf(s), WorldOf(t));
  }

  lemma SameConflicts(w: World, w': World)
    requires NoConflicts(w) && w'.born == w.born
    ensures NoConflicts(w')
  {
  }

  // ---- activity survives exchanges -------------------------------------------------------------

  lemma ActivityOf(s: System, s': System, g: set<NodeId>, i: NodeId, j: NodeId)
    requires i in g && j in g && OnlyLogs(s, s', g) && MutuallyActive(s, g)
    requires forall x :: x in s.nodes ==> Valid(s.nodes[x].db.log)
    requires i in s'.nodes && Valid(s'.nodes[i].db.log)
    ensures Active(s'.nodes[i].db.log, j)
  {
    hide Valid, Active;
    var log, log' := s.nodes[i].db.log, s'.nodes[i].db.log;
    assert LogGrew(s, s', g, i);
    ActiveMeans(log, j);
    ActiveMeans(log', j);
    var a :| a in log.events && Admits(a, j);
    assert a in log'.events;
    if x :| x in log'.events && Removes(x, j) {
      if x !in log.events {
        var y :| y in g && y in s.nodes && x in s.nodes[y].db.log.events;
        ActiveMeans(s.nodes[y].db.log, j);
      }
    }
  }

  lemma StayActive(fleet: string, steps: seq<Step>, more: seq<Step>, g: set<NodeId>)
    requires OnlyLogs(Run(fleet, steps), Run(fleet, steps + more), g) && MutuallyActive(Run(fleet, steps), g)
    ensures MutuallyActive(Run(fleet, steps + more), g)
  {
    hide Run, Valid, Active, OnlyLogs;
    var s, s' := Run(fleet, steps), Run(fleet, steps + more);
    forall x | x in s.nodes ensures Valid(s.nodes[x].db.log) { RunValid(fleet, steps, x); }
    KeysSame(s, s', g);
    forall i, j | i in g && j in g ensures i in s'.nodes && Active(s'.nodes[i].db.log, j) {
      RunValid(fleet, steps + more, i);
      ActivityOf(s, s', g, i, j);
    }
  }

  lemma KeysSame(s: System, s': System, g: set<NodeId>)
    requires OnlyLogs(s, s', g)
    ensures s'.nodes.Keys == s.nodes.Keys
  {
    hide LogGrew;
  }

  lemma RunValid(fleet: string, steps: seq<Step>, i: NodeId)
    requires i in Run(fleet, steps).nodes
    ensures Valid(Run(fleet, steps).nodes[i].db.log)
  {
    hide Run, SystemInv, NodeHistory.NodeInv, Cut, Inv, NetInv, ReplicasSound, PathsLegal, Valid, CommandRows;
    RunKeeps(fleet, steps);
    NodeOf(Run(fleet, steps), i);
  }

  // ---- one pull -----------------------------------------------------------------------------------

  /** Everything an exchange needs of a state. */
  ghost predicate Talking(fleet: string, steps: seq<Step>, g: set<NodeId>) {
    var s := Run(fleet, steps);
    && g <= s.nodes.Keys && NoConflicts(WorldOf(s)) && MutuallyActive(s, g)
  }

  /** What one exchange has achieved. */
  ghost predicate Talked(fleet: string, steps: seq<Step>, more: seq<Step>, g: set<NodeId>) {
    Talk(fleet, steps, more, g) && OnlyLogs(Run(fleet, steps), Run(fleet, steps + more), g)
  }

  lemma TalkedNothing(fleet: string, steps: seq<Step>, g: set<NodeId>)
    ensures Talked(fleet, steps, [], g) && steps + [] == steps
  {
    hide Run, OnlyLogs;
    assert steps + [] == steps;
    OnlyLogsSame(Run(fleet, steps), Run(fleet, steps), g);
  }

  lemma TalkedMore(fleet: string, steps: seq<Step>, a: seq<Step>, b: seq<Step>, g: set<NodeId>)
    requires Talked(fleet, steps, a, g) && Talked(fleet, steps + a, b, g)
    ensures Talked(fleet, steps, a + b, g) && steps + (a + b) == steps + a + b
  {
    hide Run, OnlyLogs, Talk;
    assert steps + (a + b) == steps + a + b;
    TalkConcat(fleet, steps, a, b, g);
    OnlyLogsTransitive(Run(fleet, steps), Run(fleet, steps + a), Run(fleet, steps + a + b), g);
  }

  lemma StillTalking(fleet: string, steps: seq<Step>, more: seq<Step>, g: set<NodeId>)
    requires Talking(fleet, steps, g) && Talked(fleet, steps, more, g)
    ensures Talking(fleet, steps + more, g)
  {
    hide Run, OnlyLogs, Talk, NoConflicts, MutuallyActive;
    KeysSame(Run(fleet, steps), Run(fleet, steps + more), g);
    StayActive(fleet, steps, more, g);
    NoConflictsStay(Run(fleet, steps), Run(fleet, steps + more), g);
  }

  /** Node i announces its cursors, and j sends a batch against them. */
  lemma Request(fleet: string, steps: seq<Step>, g: set<NodeId>, i: NodeId, j: NodeId, rowLength: Event -> nat)
    returns (more: seq<Step>, c: Cursors, batch: seq<Event>)
    requires Talking(fleet, steps, g) && i in g && j in g
    ensures var s, s' := Run(fleet, steps), Run(fleet, steps + more);
      && i in s.nodes && j in s.nodes && ExactCursors(s.nodes[i].db.log, c)
      && IsExport(s.nodes[j].db.log, c, MAX_BATCH, rowLength, batch)
      && s'.nodes == s.nodes && s'.born == s.born && s'.fleet == s.fleet && Message(i, batch) in s'.mail
    ensures Talk(fleet, steps, more, g)
  {
    hide Run, NoConflicts, MutuallyActive, IsExport, ExactCursors, Talk, Valid, WorldOf;
    var s := Run(fleet, steps);
    c := CursorsExist(s.nodes[i].db.log);
    RunValid(fleet, steps, j);
    batch := ExportExists(s.nodes[j].db.log, c, rowLength);
    var announce, report := Announce(i, c), Report(i, c, []);
    var send := Send(j, report, MAX_BATCH, rowLength, batch);
    RunSnoc(fleet, steps, announce);
    RunSnoc(fleet, steps + [announce], send);
    assert steps + [announce] + [send] == steps + ([announce] + [send]);
    more := [announce] + [send];
    TalkedNothing(fleet, steps, g);
    TalkOne(fleet, steps, [], announce, g);
    assert [] + [announce] == [announce];
    SameNodesActive(s, Run(fleet, steps + [announce]), g);
    TalkOne(fleet, steps, [announce], send, g);
  }

  lemma SameNodesActive(s: System, s': System, g: set<NodeId>)
    requires MutuallyActive(s, g) && s'.nodes == s.nodes
    ensures MutuallyActive(s', g)
  {
  }

  /** Node i ingests the batch. */
  lemma Arrive(fleet: string, steps: seq<Step>, i: NodeId, batch: seq<Event>) returns (deliver: Step)
    requires i in Run(fleet, steps).nodes && Message(i, batch) in Run(fleet, steps).mail
    requires Ingest(Run(fleet, steps).nodes[i].db.log, batch).Ok?
    ensures deliver.Deliver? && deliver.mail.to == i
    ensures var s, s' := Run(fleet, steps), Run(fleet, steps + [deliver]);
      && s'.born == s.born && s'.fleet == s.fleet
      && s'.nodes == s.nodes[i := s.nodes[i].(db := s.nodes[i].db.(log := Ingest(s.nodes[i].db.log, batch).value))]
  {
    hide Run, Ingest, ExactCursors;
    var log := Ingest(Run(fleet, steps).nodes[i].db.log, batch).value;
    var c := CursorsExist(log);
    deliver := Deliver(Message(i, batch), c);
    RunSnoc(fleet, steps, deliver);
  }

  /** One node's log grew by events of another. */
  lemma OneGrew(s: System, s': System, g: set<NodeId>, i: NodeId, j: NodeId, log: Log)
    requires i in g && j in g && i in s.nodes && j in s.nodes && s'.born == s.born && s'.fleet == s.fleet
    requires s'.nodes == s.nodes[i := s.nodes[i].(db := s.nodes[i].db.(log := log))]
    requires Covers(log, s.nodes[i].db.log)
    requires forall id :: id in log.events ==> id in s.nodes[i].db.log.events || id in s.nodes[j].db.log.events
    ensures OnlyLogs(s, s', g)
  {
    forall x | x in s.nodes ensures LogGrew(s, s', g, x) {
    }
  }

  lemma PulledBatch(w: World, a: Log, b: Log, c: Cursors, rowLength: Event -> nat, batch: seq<Event>)
    requires Inv(w) && Cut(w, a) && Cut(w, b) && NoConflicts(w) && !Covers(b, a)
    requires ExactCursors(b, c) && IsExport(a, c, MAX_BATCH, rowLength, batch)
    ensures Ingest(b, batch).Ok?
    ensures var next := Ingest(b, batch).value;
      && Covers(next, b) && (forall id :: id in next.events ==> id in b.events || id in a.events)
      && Gap(a, next) < Gap(a, b)
  {
    hide Inv, Cut, NoConflicts, Covers, IsExport, ExactCursors, AtMost, InsertAll, Gap, ShortRows;
    ExactAtMost(b, c);
    BatchFacts(w, a, b, c, rowLength, batch);
    BatchMoves(w, a, b, batch);
    AnyOneFits(a.events.Keys, rowLength);
    BatchProgress(w, a, b, c, rowLength, batch, 1);
    NoGap(a, b);
  }

  lemma AnyOneFits(ids: set<EventId>, rowLength: Event -> nat)
    ensures ShortRows(ids, rowLength, 1)
  {
  }

  /** Node i pulls one batch from j, which has something that it lacks. */
  lemma PullOnce(fleet: string, steps: seq<Step>, g: set<NodeId>, i: NodeId, j: NodeId, rowLength: Event -> nat)
    returns (more: seq<Step>)
    requires Talking(fleet, steps, g) && i in g && j in g && i != j
    requires var s := Run(fleet, steps); i in s.nodes && j in s.nodes && !Covers(s.nodes[i].db.log, s.nodes[j].db.log)
    ensures Talked(fleet, steps, more, g)
    ensures var s, s' := Run(fleet, steps), Run(fleet, steps + more);
      && (forall x :: x in s.nodes && x != i ==> x in s'.nodes && s'.nodes[x] == s.nodes[x])
      && i in s'.nodes && Gap(s.nodes[j].db.log, s'.nodes[i].db.log) < Gap(s.nodes[j].db.log, s.nodes[i].db.log)
  {
    hide Run, NoConflicts, MutuallyActive, IsExport, ExactCursors, Talk, Valid, Inv, Cut, SystemInv,
      NodeHistory.NodeInv, NetInv, ReplicasSound, PathsLegal, CommandRows, Ingest, Covers, Gap, OnlyLogs;
    var s := Run(fleet, steps);
    RunKeeps(fleet, steps);
    NodeOf(s, i);
    NodeOf(s, j);
    var request, c, batch := Request(fleet, steps, g, i, j, rowLength);
    PulledBatch(WorldOf(s), s.nodes[j].db.log, s.nodes[i].db.log, c, rowLength, batch);
    var deliver := Arrive(fleet, steps + request, i, batch);
    assert steps + request + [deliver] == steps + (request + [deliver]);
    more := request + [deliver];
    SameNodesActive(s, Run(fleet, steps + request), g);
    TalkOne(fleet, steps, request, deliver, g);
    OneGrew(s, Run(fleet, steps + more), g, i, j, Ingest(s.nodes[i].db.log, batch).value);
  }

  /** Node i pulls from j until it lacks nothing. */
  lemma {:induction false} CatchUp(
      fleet: string, steps: seq<Step>, g: set<NodeId>, i: NodeId, j: NodeId, rowLength: Event -> nat)
    returns (more: seq<Step>)
    requires Talking(fleet, steps, g) && i in g && j in g
    requires i in Run(fleet, steps).nodes && j in Run(fleet, steps).nodes
    ensures Talked(fleet, steps, more, g)
    ensures var s, s' := Run(fleet, steps), Run(fleet, steps + more);
      && (forall x :: x in s.nodes && x != i ==> x in s'.nodes && s'.nodes[x] == s.nodes[x])
      && i in s'.nodes && Covers(s'.nodes[i].db.log, s.nodes[j].db.log)
    decreases Gap(Run(fleet, steps).nodes[j].db.log, Run(fleet, steps).nodes[i].db.log)
  {
    hide Run, Talked, Talking, Gap, Covers;
    var s := Run(fleet, steps);
    CoversSelf(s.nodes[i].db.log);
    if Covers(s.nodes[i].db.log, s.nodes[j].db.log) {
      more := [];
      TalkedNothing(fleet, steps, g);
    } else {
      var first := PullOnce(fleet, steps, g, i, j, rowLength);
      StillTalking(fleet, steps, first, g);
      var rest := CatchUp(fleet, steps + first, g, i, j, rowLength);
      more := first + rest;
      TalkedMore(fleet, steps, first, rest, g);
    }
  }

  // ---- everybody catches up -----------------------------------------------------------------------

  /** The log of a node covers a log. */
  ghost predicate CoversNode(s: System, i: NodeId, past: Log) { i in s.nodes && Covers(s.nodes[i].db.log, past) }

  /** A hub pulls from each of some members; their own logs stay. */
  lemma {:induction false} Gather(
      fleet: string, steps: seq<Step>, g: set<NodeId>, hub: NodeId, todo: set<NodeId>, rowLength: Event -> nat)
    returns (more: seq<Step>)
    requires Talking(fleet, steps, g) && hub in g && todo <= g && g <= Run(fleet, steps).nodes.Keys
    ensures Talked(fleet, steps, more, g)
    ensures var s, s' := Run(fleet, steps), Run(fleet, steps + more);
      && (forall x :: x in s.nodes && x != hub ==> x in s'.nodes && s'.nodes[x] == s.nodes[x])
      && (forall j :: j in todo ==> j in s.nodes && CoversNode(s', hub, s.nodes[j].db.log))
      && CoversNode(s', hub, s.nodes[hub].db.log)
    decreases |todo|
  {
    hide Run, Talked, Talking, Covers;
    var s := Run(fleet, steps);
    CoversSelf(s.nodes[hub].db.log);
    if todo == {} {
      more := [];
      TalkedNothing(fleet, steps, g);
    } else {
      var j :| j in todo;
      var first := CatchUp(fleet, steps, g, hub, j, rowLength);
      StillTalking(fleet, steps, first, g);
      TalkedNode(fleet, steps, first, g, hub);
      TalkedKeys(fleet, steps, first, g);
      var rest := Gather(fleet, steps + first, g, hub, todo - {j}, rowLength);
      more := first + rest;
      TalkedMore(fleet, steps, first, rest, g);
      var t, u := Run(fleet, steps + first), Run(fleet, steps + more);
      CoversTransitive(u.nodes[hub].db.log, t.nodes[hub].db.log, s.nodes[hub].db.log);
      CoversTransitive(u.nodes[hub].db.log, t.nodes[hub].db.log, s.nodes[j].db.log);
      forall x | x in todo ensures CoversNode(u, hub, s.nodes[x].db.log) {
        if x != j {
          assert x in todo - {j};
          if x == hub { } else { assert t.nodes[x] == s.nodes[x]; }
        }
      }
    }
  }

  lemma TalkedNode(fleet: string, steps: seq<Step>, more: seq<Step>, g: set<NodeId>, i: NodeId)
    requires Talked(fleet, steps, more, g) && i in Run(fleet, steps).nodes
    ensures i in Run(fleet, steps + more).nodes
    ensures Covers(Run(fleet, steps + more).nodes[i].db.log, Run(fleet, steps).nodes[i].db.log)
  {
    hide Run, Talk;
    assert LogGrew(Run(fleet, steps), Run(fleet, steps + more), g, i);
  }

  lemma TalkedKeys(fleet: string, steps: seq<Step>, more: seq<Step>, g: set<NodeId>)
    requires Talked(fleet, steps, more, g)
    ensures Run(fleet, steps + more).nodes.Keys == Run(fleet, steps).nodes.Keys
  {
    hide Run, Talk, LogGrew;
  }

  /** Each of some members pulls from the hub, whose own log stays. */
  lemma {:induction false} Spread(
      fleet: string, steps: seq<Step>, g: set<NodeId>, hub: NodeId, todo: set<NodeId>, rowLength: Event -> nat)
    returns (more: seq<Step>)
    requires Talking(fleet, steps, g) && hub in g && todo <= g - {hub} && g <= Run(fleet, steps).nodes.Keys
    ensures Talked(fleet, steps, more, g)
    ensures var s, s' := Run(fleet, steps), Run(fleet, steps + more);
      && (forall x :: x in s.nodes && x !in todo ==> x in s'.nodes && s'.nodes[x] == s.nodes[x])
      && (forall j :: j in todo ==> CoversNode(s', j, s.nodes[hub].db.log))
    decreases |todo|
  {
    hide Run, Talked, Talking, Covers;
    var s := Run(fleet, steps);
    if todo == {} {
      more := [];
      TalkedNothing(fleet, steps, g);
    } else {
      var j :| j in todo;
      var first := CatchUp(fleet, steps, g, j, hub, rowLength);
      StillTalking(fleet, steps, first, g);
      TalkedKeys(fleet, steps, first, g);
      var rest := Spread(fleet, steps + first, g, hub, todo - {j}, rowLength);
      more := first + rest;
      TalkedMore(fleet, steps, first, rest, g);
    }
  }

  /** A group whose members all hold the same events and tables. */
  ghost predicate AllAlike(s: System, g: set<NodeId>) {
    forall i, j :: i in g && j in g ==>
      && i in s.nodes && j in s.nodes
      && SameEvents(s.nodes[i].db.log, s.nodes[j].db.log) && Converged(s.nodes[i].db.log, s.nodes[j].db.log)
  }

  /**
   From every reachable state without conflicting records, the members of a group that take each other for active can,
   by exchanges among themselves alone, all come to hold exactly the events that any of them held, and so the same
   tables.  Nothing else changes at any node: no journal, no submission, no other database.
   */
  lemma {:induction false} FleetConverges(fleet: string, steps: seq<Step>, g: set<NodeId>, rowLength: Event -> nat)
    returns (more: seq<Step>)
    requires Talking(fleet, steps, g)
    ensures Talk(fleet, steps, more, g)
    ensures var s, s' := Run(fleet, steps), Run(fleet, steps + more);
      && OnlyLogs(s, s', g) && MutuallyActive(s', g) && AllAlike(s', g)
      && forall i, id :: i in g && i in s'.nodes ==> (id in s'.nodes[i].db.log.events <==> HeldIn(s, g, id))
  {
    hide Run, Covers, OnlyLogs, MutuallyActive, AllAlike, HeldIn, NoConflicts, Talk;
    var s := Run(fleet, steps);
    if g == {} {
      more := [];
      TalkedNothing(fleet, steps, g);
      Nobody(s);
      StayActive(fleet, steps, [], g);
    } else {
      var hub :| hub in g;
      var first := Gather(fleet, steps, g, hub, g, rowLength);
      StillTalking(fleet, steps, first, g);
      TalkedKeys(fleet, steps, first, g);
      var rest := Spread(fleet, steps + first, g, hub, g - {hub}, rowLength);
      more := first + rest;
      TalkedMore(fleet, steps, first, rest, g);
      StayActive(fleet, steps, more, g);
      var t, u := Run(fleet, steps + first), Run(fleet, steps + more);
      CoversSelf(u.nodes[hub].db.log);
      forall i | i in g ensures CoversNode(u, i, t.nodes[hub].db.log) { assert i != hub ==> i in g - {hub}; }
      AllHold(s, t, u, g, hub);
      AlikeInRun(fleet, steps, more, g);
    }
  }

  lemma Nobody(s: System)
    ensures AllAlike(s, {})
  {
  }

  lemma AllHold(s: System, t: System, u: System, g: set<NodeId>, hub: NodeId)
    requires OnlyLogs(s, u, g) && hub in g && g <= s.nodes.Keys && hub in t.nodes
    requires forall j :: j in g ==> CoversNode(t, hub, s.nodes[j].db.log)
    requires forall i :: i in g ==> CoversNode(u, i, t.nodes[hub].db.log)
    ensures forall i, id :: i in g && i in u.nodes ==> (id in u.nodes[i].db.log.events <==> HeldIn(s, g, id))
  {
    forall i, id | i in g && i in u.nodes ensures id in u.nodes[i].db.log.events <==> HeldIn(s, g, id) {
      assert LogGrew(s, u, g, i);
      if HeldIn(s, g, id) {
        var y :| y in g && y in s.nodes && id in s.nodes[y].db.log.events;
        assert CoversNode(t, hub, s.nodes[y].db.log) && CoversNode(u, i, t.nodes[hub].db.log);
      }
      if id in s.nodes[i].db.log.events { assert HeldIn(s, g, id); }
    }
  }

  lemma AlikeInRun(fleet: string, steps: seq<Step>, more: seq<Step>, g: set<NodeId>)
    requires var s, s' := Run(fleet, steps), Run(fleet, steps + more);
      && g <= s'.nodes.Keys
      && forall i, id :: i in g && i in s'.nodes ==> (id in s'.nodes[i].db.log.events <==> HeldIn(s, g, id))
    ensures AllAlike(Run(fleet, steps + more), g)
  {
    hide Run, HeldIn, Valid, Converged;
    var s' := Run(fleet, steps + more);
    RunKeeps(fleet, steps + more);
    forall i, j | i in g && j in g
      ensures SameEvents(s'.nodes[i].db.log, s'.nodes[j].db.log) && Converged(s'.nodes[i].db.log, s'.nodes[j].db.log)
    {
      RunValid(fleet, steps + more, i);
      RunValid(fleet, steps + more, j);
      RunFleet(fleet, steps + more, i);
      RunFleet(fleet, steps + more, j);
      var here, there := s'.nodes[i].db.log, s'.nodes[j].db.log;
      forall id ensures id in here.events <==> id in there.events {
        assert id in here.events <==> HeldIn(Run(fleet, steps), g, id);
        assert id in there.events <==> HeldIn(Run(fleet, steps), g, id);
      }
      SameEventsConverge(s'.nodes[i].db.log, s'.nodes[j].db.log);
    }
  }

  lemma RunFleet(fleet: string, steps: seq<Step>, i: NodeId)
    requires i in Run(fleet, steps).nodes
    ensures Run(fleet, steps).nodes[i].db.log.fleet == fleet
  {
    hide Run, SystemInv, NodeHistory.NodeInv, Inv, NetInv, ReplicasSound, PathsLegal, Valid, CommandRows;
    RunKeeps(fleet, steps);
    NodeOf(Run(fleet, steps), i);
  }
}
