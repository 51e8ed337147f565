/** What one exchanged batch does to the two databases. */
module PeerSteps {
  import opened Records
  import opened Admission
  import opened LogInvariant
  import opened Convergence
  import opened World
  import opened Exchange
  import opened Ordering
  import System
  import Restore
  import StoreLoops

  /** How many events of a are missing from b. */
  ghost function Gap(a: Log, b: Log): nat { |a.events.Keys - b.events.Keys| }

  lemma CoversAll(a: Log, b: Log)
    requires Covers(a, b)
    ensures forall id :: id in b.events ==> id in a.events
  {
  }

  lemma BothCovered(w: World, a: Log, b: Log)
    requires Cut(w, a) && Cut(w, b) && Covers(a, b) && Covers(b, a)
    ensures SameEvents(a, b)
  {
    hide Valid;
  }

  lemma CoversTransitive(a: Log, b: Log, c: Log)
    requires Covers(a, b) && Covers(b, c)
    ensures Covers(a, c)
  {
  }

  /** A batch exported against cursors at or below the receiver's: deliverable, and empty only if nothing is missing. */
  lemma BatchFacts(
      w: World, a: Log, b: Log, c: Cursors, rowLength: Event -> nat, batch: seq<Event>)
    requires Inv(w) && Cut(w, a) && Cut(w, b) && AtMost(c, b) && IsExport(a, c, MAX_BATCH, rowLength, batch)
    ensures batch == [] ==> Covers(b, a)
    ensures Deliverable(w, b, batch) && |batch| <= MAX_BATCH
    ensures NoConflicts(w) ==> InsertAll(b, batch).Ok?
    ensures forall k :: 0 <= k < |batch| ==> batch[k].id in a.events
  {
    hide Inv, Cut, AtMost, IsExport, NoConflicts, InsertAll, Covers, Deliverable, LastSequence;
    ExportDeliverable(w, a, b, c, MAX_BATCH, rowLength, batch);
    ExportShape(a, c, rowLength, batch);
    if NoConflicts(w) { DeliveryAccepted(w, b, batch); }
    if batch == [] { NothingMissing(w, a, b, c); }
  }

  lemma NothingMissing(w: World, a: Log, b: Log, c: Cursors)
    requires Inv(w) && Cut(w, a) && Cut(w, b) && AtMost(c, b) && Whole(a, c, [])
    ensures Covers(b, a)
  {
    hide Inv, Valid, LastSequence, CursorAt;
    forall d | d in a.events ensures d in b.events {
      assert !Missing(a, c, d);
      CursorMeaning(w, b, d);
    }
  }

  /** The events two databases hold between them. */
  ghost function HeldBy(a: Log, b: Log): set<EventId> { a.events.Keys + b.events.Keys }

  /**
   Rows of these events are short enough that any k of them fit in a batch.  One always does, however long, because an
   export never stops before its first row.
   */
  ghost predicate ShortRows(ids: set<EventId>, rowLength: Event -> nat, k: nat) {
    k == 1 || (1 <= k <= MAX_BATCH && forall id :: id in ids ==> rowLength(Signed(id.of)) * k <= MAX_BODY / 2)
  }

  lemma FewerShortRows(ids: set<EventId>, more: set<EventId>, rowLength: Event -> nat, k: nat)
    requires ShortRows(more, rowLength, k) && ids <= more
    ensures ShortRows(ids, rowLength, k)
  {
  }

  lemma {:induction false} TotalShort(rowLength: Event -> nat, k: nat, events: seq<Event>)
    requires forall e :: e in events ==> rowLength(e) * k <= MAX_BODY / 2
    ensures Total(rowLength, events) * k <= |events| * (MAX_BODY / 2)
  {
    if events != [] {
      var init, last := events[..|events| - 1], events[|events| - 1];
      TotalShort(rowLength, k, init);
      assert Total(rowLength, events) * k == Total(rowLength, init) * k + rowLength(last) * k;
    }
  }

  /** A batch brings everything missing, or at least k events. */
  lemma BatchSize(
      a: Log, c: Cursors, rowLength: Event -> nat, batch: seq<Event>, k: nat)
    requires Valid(a) && IsExport(a, c, MAX_BATCH, rowLength, batch) && ShortRows(a.events.Keys, rowLength, k)
    ensures Whole(a, c, batch) || |batch| >= k
  {
    hide Valid, NoSkips, Ordered, Whole, Total;
    if !Whole(a, c, batch) && |batch| < MAX_BATCH && k > 1 {
      forall e | e in batch ensures rowLength(e) * k <= MAX_BODY / 2 { SignedRow(a, e.id); }
      var id :| NextLeft(a, c, batch, id) && Total(rowLength, batch) + rowLength(a.events[id]) > MAX_BODY / 2;
      SignedRow(a, id);
      TotalShort(rowLength, k, batch);
      ManyRows(Total(rowLength, batch), rowLength(a.events[id]), |batch|, k, MAX_BODY / 2);
    }
  }

  lemma ManyRows(total: nat, row: nat, n: nat, k: nat, half: nat)
    requires total * k <= n * half && row * k <= half && total + row > half
    ensures n >= k
  {
    if n < k {
      TimesMonotone(n + 1, k, half);
      TimesMonotone(half + 1, total + row, k);
      TimesPlus(total, row, k);
      TimesPlus(half, 1, k);
      TimesPlus(n, 1, half);
    }
  }

  lemma TimesMonotone(a: int, b: int, c: int)
    requires a <= b && 0 <= c
    ensures a * c <= b * c
  {
  }

  lemma TimesPlus(a: int, b: int, c: int)
    ensures (a + b) * c == a * c + b * c
  {
  }

  /** Against exact cursors every exported event is new to the receiver, and no two are the same. */
  lemma ExactBatch(w: World, a: Log, b: Log, c: Cursors, rowLength: Event -> nat, batch: seq<Event>)
    requires Inv(w) && Cut(w, a) && Cut(w, b) && ExactCursors(b, c) && IsExport(a, c, MAX_BATCH, rowLength, batch)
    ensures forall k :: 0 <= k < |batch| ==> batch[k].id !in b.events
    ensures forall j, k :: 0 <= j < k < |batch| ==> batch[j].id != batch[k].id
  {
    hide Inv, Cut, ExactCursors, NoSkips, Whole, Before;
    forall k | 0 <= k < |batch| ensures batch[k].id !in b.events { NewToReceiver(w, a, b, c, batch, k); }
    forall j, k | 0 <= j < k < |batch| ensures batch[j].id != batch[k].id {
      assert Before(batch[j].id, batch[k].id);
      BeforeDiffers(batch[j].id, batch[k].id);
    }
  }

  lemma BeforeDiffers(x: EventId, y: EventId)
    requires Before(x, y)
    ensures x != y
  {
    hide RankLess;
    RankTotal(RankOf(x), RankOf(y));
  }

  lemma ExactAtMost(log: Log, c: Cursors)
    requires ExactCursors(log, c)
    ensures AtMost(c, log)
  {
    hide LastSequence, CursorAt;
  }

  lemma ExportShape(a: Log, c: Cursors, rowLength: Event -> nat, batch: seq<Event>)
    requires IsExport(a, c, MAX_BATCH, rowLength, batch)
    ensures Rows(a, c, batch) && |batch| <= MAX_BATCH && (batch == [] ==> Whole(a, c, []))
    ensures forall k :: 0 <= k < |batch| ==> batch[k].id in a.events
  {
    hide NoSkips, Ordered, Whole;
  }

  lemma NewToReceiver(w: World, a: Log, b: Log, c: Cursors, batch: seq<Event>, k: nat)
    requires Inv(w) && Cut(w, a) && Cut(w, b) && ExactCursors(b, c) && Rows(a, c, batch) && k < |batch|
    ensures batch[k].id !in b.events
  {
    hide Inv, Valid, Covers, LastSequence, CursorAt;
    assert Missing(a, c, batch[k].id);
    CursorMeaning(w, b, batch[k].id);
  }

  /** After the batch: still a cut, and nothing but the batch was added. */
  lemma BatchMoves(w: World, a: Log, b: Log, batch: seq<Event>)
    requires Inv(w) && Cut(w, b) && Deliverable(w, b, batch) && InsertAll(b, batch).Ok?
    requires forall k :: 0 <= k < |batch| ==> batch[k].id in a.events
    ensures var next := InsertAll(b, batch).value;
      && Cut(w, next) && Covers(next, b)
      && (forall id :: id in next.events ==> id in b.events || id in a.events)
      && Gap(next, a) == Gap(b, a) && Gap(a, next) <= Gap(a, b)
  {
    hide Inv, Valid, InsertAll, Deliverable;
    var next := InsertAll(b, batch).value;
    DeliveryKeepsCut(w, b, batch);
    InsertAllKeepsValid(b, batch);
    hide Cut;
    forall id | id in next.events ensures id in b.events || id in a.events {
      if id !in b.events {
        var e :| e in batch && e.id == id;
        var k :| 0 <= k < |batch| && batch[k] == e;
      }
    }
    SameOutside(a.events.Keys, b.events.Keys, next.events.Keys);
    Smaller(a.events.Keys - next.events.Keys, a.events.Keys - b.events.Keys);
  }

  /** A batch of new events closes the gap by its length. */
  lemma BatchCloses(a: Log, b: Log, batch: seq<Event>)
    requires Valid(b) && InsertAll(b, batch).Ok?
    requires forall k :: 0 <= k < |batch| ==> batch[k].id in a.events && batch[k].id !in b.events
    requires forall j, k :: 0 <= j < k < |batch| ==> batch[j].id != batch[k].id
    ensures Gap(a, InsertAll(b, batch).value) == Gap(a, b) - |batch|
  {
    hide Valid, InsertAll;
    InsertAllKeepsValid(b, batch);
    hide *;
    IdsCount(batch);
    var ids := set e | e in batch :: e.id;
    forall id | id in ids ensures id in a.events.Keys && id !in b.events.Keys {
      var e :| e in batch && e.id == id;
      var k :| 0 <= k < |batch| && batch[k] == e;
    }
    GapOf(a, b);
    GapOf(a, InsertAll(b, batch).value);
    Closes(a.events.Keys, b.events.Keys, ids);
  }

  lemma GapOf(a: Log, b: Log)
    ensures Gap(a, b) == |a.events.Keys - b.events.Keys|
  {
  }

  lemma Closes(a: set<EventId>, b: set<EventId>, ids: set<EventId>)
    requires ids <= a && ids !! b
    ensures |a - (b + ids)| == |a - b| - |ids|
  {
    assert a - b == (a - (b + ids)) + ids;
  }

  lemma {:induction false} IdsCount(batch: seq<Event>)
    requires forall j, k :: 0 <= j < k < |batch| ==> batch[j].id != batch[k].id
    ensures |set e | e in batch :: e.id| == |batch|
  {
    if batch != [] {
      var init, last := batch[..|batch| - 1], batch[|batch| - 1];
      IdsCount(init);
      var before := set e | e in init :: e.id;
      assert last.id !in before;
      assert forall e :: e in batch <==> e in init || e == last;
      assert (set e | e in batch :: e.id) == before + {last.id};
    }
  }

  /** A batch that holds everything missing leaves no gap. */
  lemma WholeCloses(w: World, a: Log, b: Log, c: Cursors, batch: seq<Event>)
    requires Inv(w) && Cut(w, a) && Cut(w, b) && AtMost(c, b) && Whole(a, c, batch) && InsertAll(b, batch).Ok?
    ensures Gap(a, InsertAll(b, batch).value) == 0
  {
    hide Inv, Valid, InsertAll, LastSequence, CursorAt, Covers;
    var next := InsertAll(b, batch).value;
    InsertAllKeepsValid(b, batch);
    forall d | d in a.events ensures d in next.events {
      if Missing(a, c, d) {
        var j :| 0 <= j < |batch| && batch[j].id == d;
        assert batch[j] in batch;
      } else {
        CursorMeaning(w, b, d);
      }
    }
    assert a.events.Keys - next.events.Keys == {};
  }

  /** A pull or push against exact cursors leaves no gap, or closes at least k events of it. */
  lemma BatchProgress(
      w: World, a: Log, b: Log, c: Cursors, rowLength: Event -> nat, batch: seq<Event>, k: nat)
    requires Inv(w) && Cut(w, a) && Cut(w, b) && ExactCursors(b, c) && IsExport(a, c, MAX_BATCH, rowLength, batch)
    requires InsertAll(b, batch).Ok? && ShortRows(a.events.Keys, rowLength, k)
    ensures var next := InsertAll(b, batch).value;
      && Gap(a, next) == Gap(a, b) - |batch| && (Gap(a, next) == 0 || Gap(a, next) + k <= Gap(a, b))
  {
    hide Inv, Valid, InsertAll, ExactCursors, IsExport, ShortRows, Whole, AtMost, Covers, Gap;
    ExactBatch(w, a, b, c, rowLength, batch);
    ExportShape(a, c, rowLength, batch);
    BatchCloses(a, b, batch);
    BatchSize(a, c, rowLength, batch, k);
    ExactAtMost(b, c);
    if Whole(a, c, batch) { WholeCloses(w, a, b, c, batch); }
  }

  /** A gap of zero means nothing is missing. */
  lemma NoGap(a: Log, b: Log)
    ensures Gap(a, b) == 0 <==> Covers(b, a)
  {
    if Covers(b, a) {
      assert a.events.Keys - b.events.Keys == {};
    } else {
      var x :| x in a.events && x !in b.events;
      assert x in a.events.Keys - b.events.Keys;
    }
  }

  lemma SameOutside(a: set<EventId>, b: set<EventId>, next: set<EventId>)
    requires b <= next && forall id :: id in next ==> id in b || id in a
    ensures next - a == b - a
  {
  }

  lemma {:induction false} Smaller(s: set<EventId>, t: set<EventId>)
    requires s <= t
    ensures |s| <= |t|
    decreases |s|
  {
    if s != {} {
      var x :| x in s;
      Smaller(s - {x}, t - {x});
    }
  }

  lemma BatchHeld(b: Log, batch: seq<Event>)
    requires Valid(b) && InsertAll(b, batch).Ok?
    ensures forall id :: id in System.IdsOf(batch) ==> id in InsertAll(b, batch).value.events
  {
    hide Valid, InsertAll;
    InsertAllKeepsValid(b, batch);
    forall id | id in System.IdsOf(batch) ensures id in InsertAll(b, batch).value.events {
      var k :| 0 <= k < |batch| && System.IdsOf(batch)[k] == id;
      assert batch[k] in batch;
    }
  }

  lemma BatchHeldBy(w: World, b: Log, batch: seq<Event>)
    requires Cut(w, b) && InsertAll(b, batch).Ok?
    ensures forall id :: id in System.IdsOf(batch) ==> id in InsertAll(b, batch).value.events
  {
    hide Valid, InsertAll, Covers;
    BatchHeld(b, batch);
  }

  lemma ValidOfCut(w: World, log: Log)
    requires Cut(w, log)
    ensures Valid(log)
  {
    hide Valid, Covers;
  }

  /** A joiner that holds everything the peer does, and nothing else. */
  lemma SameAsPeer(w: World, mine: Log, theirs: Log, self: NodeId)
    requires Cut(w, mine) && Cut(w, theirs) && Covers(mine, theirs)
    requires forall id :: id in mine.events ==> id in theirs.events
    ensures SameEvents(mine, theirs) && Converged(mine, theirs) && (Active(mine, self) <==> Active(theirs, self))
  {
    hide Cut, Valid, Covers, SameEvents, Converged, Active;
    OnlyTheirs(mine, theirs);
    BothCovered(w, mine, theirs);
    ValidOfCut(w, mine);
    ValidOfCut(w, theirs);
    SameEventsConverge(mine, theirs);
    ActiveConverges(mine, theirs, self);
  }

  /** Every replica row that is new names the peer and an event it holds. */
  ghost predicate NewRowsTrue(
    before: set<(EventId, NodeId)>, after: set<(EventId, NodeId)>, peer: NodeId, log: Log)
  {
    forall row :: row in after && row !in before ==> row.1 == peer && row.0 in log.events
  }

  lemma NoNewRows(rows: set<(EventId, NodeId)>, peer: NodeId, log: Log)
    ensures NewRowsTrue(rows, rows, peer, log)
  {
  }

  lemma MoreRowsTrue(
      before: set<(EventId, NodeId)>, middle: set<(EventId, NodeId)>, after: set<(EventId, NodeId)>, peer: NodeId,
      log: Log, next: Log)
    requires NewRowsTrue(before, middle, peer, log) && Covers(next, log) && NewRowsTrue(middle, after, peer, next)
    ensures NewRowsTrue(before, after, peer, next)
  {
  }

  lemma AddedRowsTrue(
      before: set<(EventId, NodeId)>, middle: set<(EventId, NodeId)>, more: set<(EventId, NodeId)>, peer: NodeId,
      log: Log)
    requires NewRowsTrue(before, middle, peer, log)
    requires forall row :: row in more ==> row.1 == peer && row.0 in log.events
    ensures NewRowsTrue(before, middle + more, peer, log)
  {
  }

  /** The rows a peer's cursors stand for: all of them true, and one for each event both hold. */
  lemma RowsOfCursors(w: World, mine: Log, theirs: Log, peer: NodeId, c: Cursors)
    requires Inv(w) && Cut(w, mine) && Cut(w, theirs) && ExactCursors(theirs, c)
    ensures var rows := System.CursorReplicas(mine, System.Report(peer, c, []));
      && (forall row :: row in rows ==> row.1 == peer && row.0 in theirs.events)
      && (forall id :: id in mine.events && id in theirs.events ==> (id, peer) in rows)
  {
    hide Inv, Valid, Covers, CursorAt, LastSequence;
    var report := System.Report(peer, c, []);
    forall id | id in mine.events
      ensures id in theirs.events <==> id.of.sequence <= CursorAt(c, id.of.origin)
    {
      CursorMeaning(w, theirs, id);
    }
  }

  // ---- who is welcome -----------------------------------------------------------------

  /** A member is active exactly when it was admitted and not removed, by events that are held. */
  lemma ActiveMeans(log: Log, m: NodeId)
    requires Valid(log)
    ensures Active(log, m) <==>
      (exists x :: x in log.events && Admits(x, m)) && !(exists x :: x in log.events && Removes(x, m))
  {
    hide ChainValid, TablesValid, Authored, LegacySound;
    if m in log.members { assert Admits(log.members[m].admission, m); }
    if x :| x in log.events && Removes(x, m) { assert m in log.removals; }
    if m in log.removals { var x :| x in log.events && Removes(x, m); }
  }

  /** A database takes both of these for members that are not removed. */
  ghost predicate Welcome(log: Log, x: NodeId, y: NodeId) {
    && x in log.members && !log.members[x].removed
    && y in log.members && !log.members[y].removed
  }

  lemma WelcomeMeans(log: Log, x: NodeId, y: NodeId)
    ensures Welcome(log, x, y) <==> Active(log, x) && Active(log, y)
  {
  }

  /** The first of these databases, which has everything of the second and nothing but what that and the third have. */
  ghost predicate Between(log: Log, a: Log, b: Log) {
    Covers(log, a) && forall id :: id in log.events ==> id in a.events || id in b.events
  }

  /** Whoever is active in one database and not removed in another is active in whatever the first takes from it. */
  lemma StaysActive(log: Log, a: Log, b: Log, m: NodeId)
    requires Valid(log) && Valid(a) && Valid(b) && Between(log, a, b) && Active(a, m) && m !in b.removals
    ensures Active(log, m)
  {
    hide Valid, Active;
    ActiveMeans(log, m);
    ActiveMeans(a, m);
    var x :| x in a.events && Admits(x, m);
    assert x in log.events;
    if r :| r in log.events && Removes(r, m) {
      assert r in b.events;
      RemovalHeld(b, r, m);
    }
  }

  lemma RemovalHeld(log: Log, r: EventId, m: NodeId)
    requires Valid(log) && r in log.events && Removes(r, m)
    ensures m in log.removals
  {
    hide ChainValid, TablesValid, Authored, LegacySound, MembersSound, Founded;
  }

  lemma NotRemoved(log: Log, m: NodeId)
    requires Valid(log) && Active(log, m)
    ensures m !in log.removals
  {
    hide ChainValid, TablesValid, Authored, LegacySound, RemovalsSound, Founded, SameMember, WellFormedMember;
  }

  /** Two members welcome on both sides stay so on either, whatever the two exchange. */
  lemma StaysWelcome(log: Log, a: Log, b: Log, x: NodeId, y: NodeId)
    requires Valid(log) && Valid(a) && Valid(b) && Between(log, a, b) && Welcome(a, x, y) && Welcome(b, x, y)
    ensures Welcome(log, x, y)
  {
    hide Valid, Active, Between, Welcome;
    WelcomeMeans(a, x, y);
    WelcomeMeans(b, x, y);
    WelcomeMeans(log, x, y);
    NotRemoved(b, x);
    NotRemoved(b, y);
    StaysActive(log, a, b, x);
    StaysActive(log, a, b, y);
  }

  lemma HeldBetween(log: Log, other: Log, a: Log, b: Log)
    requires HeldBy(log, other) <= HeldBy(a, b) && Covers(log, a)
    ensures Between(log, a, b)
  {
    forall id | id in log.events ensures id in a.events || id in b.events {
      assert id in HeldBy(log, other);
      assert id in HeldBy(a, b);
    }
  }

  /** In the middle of a synchronisation the peer still welcomes both, if both sides did at its start. */
  lemma StillWelcome(w: World, mine: Log, theirs: Log, a: Log, b: Log, x: NodeId, y: NodeId)
    requires Cut(w, mine) && Cut(w, theirs) && Cut(w, a) && Cut(w, b)
    requires Covers(theirs, b) && HeldBy(mine, theirs) <= HeldBy(a, b)
    requires Welcome(a, x, y) && Welcome(b, x, y)
    ensures Welcome(theirs, x, y)
  {
    hide Cut, Valid, Covers, HeldBy, Between, Welcome;
    ValidOfCut(w, theirs);
    ValidOfCut(w, a);
    ValidOfCut(w, b);
    assert HeldBy(theirs, mine) <= HeldBy(b, a) by { HeldSwap(mine, theirs); HeldSwap(a, b); }
    HeldBetween(theirs, mine, b, a);
    StaysWelcome(theirs, b, a, x, y);
  }

  lemma HeldSwap(a: Log, b: Log)
    ensures HeldBy(a, b) == HeldBy(b, a)
  {
  }

  // ---- joining and restoring --------------------------------------------------------

  lemma FleetOfCut(w: World, log: Log)
    requires Cut(w, log)
    ensures log.fleet == w.fleet
  {
    hide Valid;
  }

  lemma OnlyTheirs(mine: Log, theirs: Log)
    requires forall id :: id in mine.events ==> id in theirs.events
    ensures Covers(theirs, mine)
  {
  }

  lemma ActiveConverges(a: Log, b: Log, m: NodeId)
    requires Converged(a, b)
    ensures Active(a, m) <==> Active(b, m)
  {
    hide SameCommands, LastSequence;
  }

  lemma EverythingMissing(log: Log)
    requires Valid(log)
    ensures forall id :: id in log.events ==> Missing(log, map[], id)
  {
    hide Valid;
    forall id | id in log.events ensures Missing(log, map[], id) { Restore.SequenceAboveZero(log, id); }
  }

  /** All rows of a log, in order, are what a restore replays. */
  lemma RowsRestore(log: Log, rows: seq<Event>)
    requires Valid(log) && Ordered(rows)
    requires forall k :: 0 <= k < |rows| ==> rows[k].id in log.events && rows[k] == log.events[rows[k].id]
    requires forall id :: id in log.events ==> Contains(rows, id)
    ensures System.RestoreOrder(log, rows)
  {
    hide Valid, Before, Ordered;
    EverythingMissing(log);
    forall id, k | id in log.events && 0 <= k < |rows| && Before(id, rows[k].id)
      ensures exists j :: 0 <= j < k && rows[j].id == id
    {
      var j :| 0 <= j < |rows| && rows[j].id == id;
      StoreLoops.RowOrder(rows, j, k);
    }
  }

  lemma OneRow(log: Log, rows: seq<Event>)
    requires rows != []
    ensures Admission.Ingest(log, [rows[0]]) == Insert(log, rows[0])
    ensures InsertAll(log, rows) ==
      if Insert(log, rows[0]).Err? then Insert(log, rows[0]) else InsertAll(Insert(log, rows[0]).value, rows[1..])
  {
    hide Insert;
    assert [rows[0]][1..] == [];
    var first := Insert(log, rows[0]);
    assert InsertAll(log, [rows[0]]) == if first.Err? then first else InsertAll(first.value, [rows[0]][1..]);
  }

  lemma NoRows(log: Log)
    ensures InsertAll(log, []) == Ok(log)
  {
  }
}
