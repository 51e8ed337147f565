/** What the loops and queries of the store compute, row by row. */
module StoreLoops {
  import opened Records
  import opened Ordering
  import opened Admission
  import opened LogInvariant
  import opened World
  import opened Exchange
  import opened Journal
  import System

  /**
   What the database's own keys guarantee, whatever its fleet: rows under their signed content's hash, one event per
   origin and sequence, commands under their execution IDs.
   */
  ghost predicate WellKeyed(log: Log) {
    && (forall id :: id in log.events ==> log.events[id] == Signed(id.of) && id.of.sequence >= 1)
    && Unforked(log)
    && (forall c :: c in log.commands ==> log.commands[c].command.id == c)
  }

  lemma ValidKeyed(log: Log)
    requires Valid(log)
    ensures WellKeyed(log)
  {
    hide Unforked, Chained, Causal, MembershipValid, CatalogRows, CatalogEvents, DeletionsSound, CommandEvents,
      ReceiptRows, ReceiptEvents, InventoryRows, InventoryEvents, ImportsSound, WellFormedCommand;
    forall id | id in log.events ensures id.of.sequence >= 1 { assert Verify(Signed(id.of), log.fleet).None?; }
  }

  lemma {:induction false} InsertKeepsKeyed(log: Log, e: Event)
    requires WellKeyed(log) && Insert(log, e).Ok?
    ensures WellKeyed(Insert(log, e).value)
  {
    hide Refusal, With, LastSequence, Precedes, CausallyBelow, Unforked;
    InsertCases(log, e);
    if e.id !in log.events {
      WithRows(log, e);
      NewestUnforked(log, e.id, With(log, e));
    }
  }

  lemma WithRows(log: Log, e: Event)
    ensures With(log, e).events == log.events[e.id := e]
    ensures With(log, e).commands == CommandsAfter(log, e.id)
  {
  }

  lemma NewestUnforked(log: Log, id: EventId, next: Log)
    requires Unforked(log) && id.of.sequence == LastSequence(log, id.of.origin) + 1
    requires forall x :: x in next.events <==> x in log.events || x == id
    ensures Unforked(next)
  {
  }

  /** The keys do not depend on the fleet. */
  lemma SameKeys(log: Log, next: Log)
    requires WellKeyed(log) && next == log.(fleet := next.fleet)
    ensures WellKeyed(next)
  {
  }

  lemma KeyedRow(log: Log, id: EventId)
    requires WellKeyed(log) && id in log.events
    ensures log.events[id] == Signed(id.of)
  {
  }

  lemma OnePredecessor(log: Log, id: EventId, previous: EventId)
    requires WellKeyed(log) && previous in log.events && previous.of.origin == id.of.origin
    requires previous.of.sequence + 1 == id.of.sequence
    ensures HasPredecessor(log, id) <==> previous in id.of.dependencies
  {
    if previous in id.of.dependencies { assert Precedes(previous, id); }
  }

  lemma OneHead(log: Log, origin: NodeId, previous: EventId)
    requires WellKeyed(log) && previous in log.events && previous.of.origin == origin
    requires previous.of.sequence == LastSequence(log, origin) && LastSequence(log, origin) > 0
    ensures Head(log, origin) == [previous]
  {
    hide LastSequence;
    var h := Head(log, origin)[0];
    assert h == previous;
  }

  /** A nonempty set of admitted events has one that comes before all others. */
  lemma {:induction false} LeastExists(log: Log, ids: set<EventId>)
    requires WellKeyed(log) && ids != {} && ids <= log.events.Keys
    ensures exists least :: least in ids && forall id :: id in ids && id != least ==> Before(least, id)
    decreases |ids|
  {
    hide WellKeyed, RankLess;
    var x :| x in ids;
    var rest := ids - {x};
    if rest == {} {
      forall id | id in ids ensures id == x { assert id != x ==> id in rest; }
    } else {
      LeastExists(log, rest);
      var least :| least in rest && forall id :: id in rest && id != least ==> Before(least, id);
      RankTotal(RankOf(x), RankOf(least));
      DistinctRanks(log, x, least);
      if Before(x, least) {
        forall id | id in ids && id != x ensures Before(x, id) {
          assert id in rest;
          if id != least { RankTransitive(RankOf(x), RankOf(least), RankOf(id)); }
        }
      } else {
        assert forall id :: id in ids && id != least ==> Before(least, id);
      }
    }
  }

  lemma DistinctRanks(log: Log, x: EventId, y: EventId)
    requires WellKeyed(log) && x in log.events && y in log.events && x != y
    ensures RankOf(x) != RankOf(y)
  {
  }

  // ---- the loop of Export --------------------------------------------------------

  /** batch is what the cursors lack of the first k rows, taken at the increasing positions `picked`. */
  ghost predicate Picked(log: Log, c: Exchange.Cursors, rows: seq<Event>, picked: seq<nat>, batch: seq<Event>, k: nat) {
    && k <= |rows| && |picked| == |batch|
    && (forall q :: 0 <= q < |rows| ==> rows[q].id in log.events && rows[q] == log.events[rows[q].id])
    && (forall j :: 0 <= j < |picked| ==> picked[j] < k && rows[picked[j]] == batch[j] && Missing(log, c, batch[j].id))
    && (forall i, j :: 0 <= i < j < |picked| ==> picked[i] < picked[j])
    && (forall q :: 0 <= q < k && Missing(log, c, rows[q].id) ==> exists j :: 0 <= j < |picked| && picked[j] == q)
  }

  lemma PickedNothing(log: Log, c: Exchange.Cursors, rows: seq<Event>)
    requires forall q :: 0 <= q < |rows| ==> rows[q].id in log.events && rows[q] == log.events[rows[q].id]
    ensures Picked(log, c, rows, [], [], 0)
  {
  }

  lemma SkipRow(
      log: Log, c: Exchange.Cursors, rows: seq<Event>, picked: seq<nat>, batch: seq<Event>, k: nat)
    requires Picked(log, c, rows, picked, batch, k) && k < |rows|
    requires rows[k].id.of.sequence <= CursorAt(c, rows[k].id.of.origin)
    ensures Picked(log, c, rows, picked, batch, k + 1)
  {
  }

  lemma TakeRow(
      log: Log, c: Exchange.Cursors, rows: seq<Event>, picked: seq<nat>, batch: seq<Event>, k: nat)
    requires Picked(log, c, rows, picked, batch, k) && k < |rows|
    requires rows[k].id.of.sequence > CursorAt(c, rows[k].id.of.origin)
    ensures Picked(log, c, rows, picked + [k], batch + [rows[k]], k + 1)
  {
    var p := picked + [k];
    forall q | 0 <= q < k + 1 && Missing(log, c, rows[q].id) ensures exists j :: 0 <= j < |p| && p[j] == q {
      if q == k { assert p[|picked|] == k; }
      else { var j :| 0 <= j < |picked| && picked[j] == q; assert p[j] == q; }
    }
  }

  lemma TotalSnoc(rowLength: Event -> nat, events: seq<Event>)
    ensures Total(rowLength, events) ==
      if events == [] then 0 else Total(rowLength, events[..|events| - 1]) + rowLength(events[|events| - 1])
  {
  }

  lemma RowOrder(rows: seq<Event>, p: nat, q: nat)
    requires Ordered(rows) && p < |rows| && q < |rows| && Before(rows[p].id, rows[q].id)
    ensures p < q
  {
    hide RankLess;
    RankTotal(RankOf(rows[p].id), RankOf(rows[q].id));
  }

  lemma TotalMore(rowLength: Event -> nat, events: seq<Event>, e: Event)
    ensures Total(rowLength, events + [e]) == Total(rowLength, events) + rowLength(e)
  {
    assert (events + [e])[..|events|] == events;
  }

  /** What sorts before a picked row and is missing was picked earlier. */
  lemma PickedOrder(
      log: Log, c: Exchange.Cursors, rows: seq<Event>, picked: seq<nat>, batch: seq<Event>, k: nat)
    requires Picked(log, c, rows, picked, batch, k) && Ordered(rows)
    requires forall id :: id in log.events ==> Contains(rows, id)
    ensures Rows(log, c, batch) && Ordered(batch) && NoSkips(log, c, batch)
  {
    hide RankLess;
    forall id, j | Missing(log, c, id) && 0 <= j < |batch| && Before(id, batch[j].id)
      ensures exists i :: 0 <= i < j && batch[i].id == id
    {
      var q :| 0 <= q < |rows| && rows[q].id == id;
      RowOrder(rows, q, picked[j]);
      var i :| 0 <= i < |picked| && picked[i] == q;
      assert batch[i].id == id;
    }
  }

  /** Everything missing is in the batch or at row k or later. */
  lemma PickedWhole(
      log: Log, c: Exchange.Cursors, rows: seq<Event>, picked: seq<nat>, batch: seq<Event>, k: nat, id: EventId)
    requires Picked(log, c, rows, picked, batch, k) && Missing(log, c, id)
    requires forall x :: x in log.events ==> Contains(rows, x)
    ensures Contains(batch, id) || exists q :: k <= q < |rows| && rows[q].id == id
  {
    var q :| 0 <= q < |rows| && rows[q].id == id;
    if q < k {
      var j :| 0 <= j < |picked| && picked[j] == q;
      assert batch[j].id == id;
    }
  }

  /** Row k of distinct rows is not in the batch yet. */
  lemma NotPicked(
      log: Log, c: Exchange.Cursors, rows: seq<Event>, picked: seq<nat>, batch: seq<Event>, k: nat)
    requires Picked(log, c, rows, picked, batch, k) && Ordered(rows) && k < |rows|
    ensures !Contains(batch, rows[k].id)
  {
    hide RankLess;
    if Contains(batch, rows[k].id) {
      var j :| 0 <= j < |batch| && batch[j].id == rows[k].id;
      assert Before(rows[picked[j]].id, rows[k].id);
      RankTotal(RankOf(rows[k].id), RankOf(rows[k].id));
    }
  }

  /** The loop's result is an export: it saw every row, or filled the batch, or met a row too large to add. */
  lemma PickedIsExport(
      log: Log, c: Exchange.Cursors, limit: int, rowLength: Event -> nat, rows: seq<Event>, picked: seq<nat>,
      batch: seq<Event>, k: nat)
    requires Picked(log, c, rows, picked, batch, k) && Ordered(rows)
    requires forall id :: id in log.events ==> Contains(rows, id)
    requires |batch| <= Cap(limit) && (|batch| <= 1 || Total(rowLength, batch) <= MAX_BODY / 2)
    requires k == |rows| || |batch| == Cap(limit)
      || (batch != [] && k < |rows| && rows[k].id.of.sequence > CursorAt(c, rows[k].id.of.origin)
          && Total(rowLength, batch) + rowLength(rows[k]) > MAX_BODY / 2)
    ensures IsExport(log, c, limit, rowLength, batch)
  {
    hide Before, Total, Picked, Rows, Ordered, NoSkips, NextLeft, Contains, CursorAt;
    PickedOrder(log, c, rows, picked, batch, k);
    if k == |rows| {
      forall id | Missing(log, c, id) ensures Contains(batch, id) {
        PickedWhole(log, c, rows, picked, batch, k, id);
      }
    } else if |batch| != Cap(limit) {
      PickedRow(log, c, rows, picked, batch, k);
      PickedNext(log, c, rows, picked, batch, k);
    }
  }

  /** The row the loop stopped at is the first one left. */
  lemma PickedNext(
      log: Log, c: Exchange.Cursors, rows: seq<Event>, picked: seq<nat>, batch: seq<Event>, k: nat)
    requires Picked(log, c, rows, picked, batch, k) && Ordered(rows) && k < |rows| && Missing(log, c, rows[k].id)
    requires forall x :: x in log.events ==> Contains(rows, x)
    ensures NextLeft(log, c, batch, rows[k].id)
  {
    hide Picked, Before, Contains;
    NotPicked(log, c, rows, picked, batch, k);
    forall x | Missing(log, c, x) && !Contains(batch, x) && x != rows[k].id ensures Before(rows[k].id, x) {
      PickedWhole(log, c, rows, picked, batch, k, x);
    }
  }

  lemma PickedRow(
      log: Log, c: Exchange.Cursors, rows: seq<Event>, picked: seq<nat>, batch: seq<Event>, k: nat)
    requires Picked(log, c, rows, picked, batch, k) && k != |rows|
    ensures k < |rows| && rows[k].id in log.events && rows[k] == log.events[rows[k].id]
  {
  }

  // ---- the loop over a peer's cursors -----------------------------------------------

  ghost function UpTo(log: Log, peer: NodeId, cursors: Exchange.Cursors, origins: set<NodeId>): set<(EventId, NodeId)>
    requires origins <= cursors.Keys
  {
    set id | id in log.events && id.of.origin in origins && id.of.sequence <= cursors[id.of.origin] :: (id, peer)
  }

  lemma UpToAdds(
      log: Log, peer: NodeId, cursors: Exchange.Cursors, origins: set<NodeId>, origin: NodeId)
    requires origins <= cursors.Keys && origin in cursors
    ensures UpTo(log, peer, cursors, origins + {origin}) == UpTo(log, peer, cursors, origins)
      + set id | id in log.events && id.of.origin == origin && id.of.sequence <= cursors[origin] :: (id, peer)
  {
  }

  lemma UpToAll(log: Log, peer: NodeId, cursors: Exchange.Cursors)
    requires WellKeyed(log)
    ensures UpTo(log, peer, cursors, cursors.Keys) == System.CursorReplicas(log, System.Report(peer, cursors, []))
  {
    hide Unforked;
  }

  /** `Gate`, in the order of its checks. */
  lemma GateCases(log: Log, id: EventId)
    ensures var last := LastSequence(log, id.of.origin);
      Gate(log, id) ==
      if id.of.sequence != last + 1 then Some(SequenceGap)
      else if last > 0 && !HasPredecessor(log, id) then Some(MissingPredecessor)
      else if !CausallyBelow(log, id) then Some(MissingDependency)
      else if id.of.origin !in log.members && !Genesis(id.of) then Some(NoAdmission)
      else None
  {
  }

  /** The kind-specific rules and projections do not look at the event table. */
  lemma RowAside(log: Log, e: Event)
    ensures var row := log.(events := log.events[e.id := e]);
      Refusal(row, e.content) == Refusal(log, e.content) && With(row, e) == With(log, e)
  {
  }

  // ---- loops inside one transaction ---------------------------------------------------

  /** A result with the events appended before it. */
  ghost function After<T>(done: seq<EventId>, r: Result<Commit<T>>): Result<Commit<T>> {
    if r.Err? then r else Ok(r.value.(appended := done + r.value.appended))
  }

  lemma AfterNothing<T>(r: Result<Commit<T>>)
    ensures After([], r) == r
  {
    if r.Ok? { assert [] + r.value.appended == r.value.appended; }
  }

  lemma AfterMore<T>(done: seq<EventId>, more: seq<EventId>, r: Result<Commit<T>>)
    ensures After(done, After(more, r)) == After(done + more, r)
  {
    if r.Ok? { assert done + (more + r.value.appended) == done + more + r.value.appended; }
  }

  /** The same for a loop that also collects its results. */
  ghost function AfterBoth(done: seq<EventId>, found: seq<EventId>, r: Result<Commit<seq<EventId>>>)
    : Result<Commit<seq<EventId>>>
  {
    if r.Err? then r else Ok(Commit(r.value.db, done + r.value.appended, found + r.value.value))
  }

  lemma BothNothing(r: Result<Commit<seq<EventId>>>)
    ensures AfterBoth([], [], r) == r
  {
    if r.Ok? {
      assert [] + r.value.appended == r.value.appended && [] + r.value.value == r.value.value;
    }
  }

  lemma BothMore(
      done: seq<EventId>, more: seq<EventId>, found: seq<EventId>, e: EventId, r: Result<Commit<seq<EventId>>>)
    ensures AfterBoth(done, found, AfterBoth(more, [e], r)) == AfterBoth(done + more, found + [e], r)
  {
    if r.Ok? {
      assert done + (more + r.value.appended) == done + more + r.value.appended;
      assert found + ([e] + r.value.value) == found + [e] + r.value.value;
    }
  }

  ghost function AfterFound(found: seq<EventId>, r: Result<seq<EventId>>): Result<seq<EventId>> {
    if r.Err? then r else Ok(found + r.value)
  }

  lemma FoundNone(r: Result<seq<EventId>>)
    ensures AfterFound([], r) == r
  {
    if r.Ok? { assert [] + r.value == r.value; }
  }

  lemma FoundMore(found: seq<EventId>, e: EventId, r: Result<seq<EventId>>)
    ensures AfterFound(found, AfterFound([e], r)) == AfterFound(found + [e], r)
  {
    if r.Ok? { assert found + ([e] + r.value) == found + [e] + r.value; }
  }

  lemma RowCommandId(log: Log, id: CommandId)
    requires WellKeyed(log) && id in log.commands
    ensures log.commands[id].command.id == id
  {
  }
}
