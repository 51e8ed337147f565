/**
 Anti-entropy: a batch exported against cursors at or below the receiver's is
 accepted in full, an export is empty exactly when the cursors lack nothing, and
 cursors alone tell what a peer holds.
 */
module Exchange {
  import opened Records
  import opened Ordering
  import opened Admission
  import opened LogInvariant
  import opened Convergence
  import opened World

  type Cursors = map<NodeId, int>

  /** A missing origin reads as zero. */
  function CursorAt(c: Cursors, origin: NodeId): int { if origin in c then c[origin] else 0 }

  predicate Missing(log: Log, c: Cursors, id: EventId) {
    id in log.events && id.of.sequence > CursorAt(c, id.of.origin)
  }

  ghost predicate ExactCursors(log: Log, c: Cursors) {
    forall origin :: CursorAt(c, origin) == LastSequence(log, origin)
  }

  ghost predicate AtMost(c: Cursors, log: Log) {
    forall origin :: CursorAt(c, origin) <= LastSequence(log, origin)
  }

  function Cap(limit: int): nat { if limit < 1 || limit > MAX_BATCH then MAX_BATCH else limit }

  function Total(rowLength: Event -> nat, events: seq<Event>): nat {
    if events == [] then 0 else Total(rowLength, events[..|events| - 1]) + rowLength(events[|events| - 1])
  }

  ghost predicate Contains(events: seq<Event>, id: EventId) { exists j :: 0 <= j < |events| && events[j].id == id }

  /** Rows in `ORDER BY lamport, origin, seq`. */
  ghost predicate Ordered(events: seq<Event>) {
    forall j, k :: 0 <= j < k < |events| ==> Before(events[j].id, events[k].id)
  }

  /** Nothing missing was passed over: whatever sorts before an exported event is exported before it. */
  ghost predicate NoSkips(log: Log, c: Cursors, events: seq<Event>) {
    forall id, k :: Missing(log, c, id) && 0 <= k < |events| && Before(id, events[k].id) ==>
      exists j :: 0 <= j < k && events[j].id == id
  }

  ghost predicate Rows(log: Log, c: Cursors, events: seq<Event>) {
    forall k :: 0 <= k < |events| ==> Missing(log, c, events[k].id) && events[k] == log.events[events[k].id]
  }

  /** Everything missing is exported. */
  ghost predicate Whole(log: Log, c: Cursors, events: seq<Event>) {
    forall id :: Missing(log, c, id) ==> Contains(events, id)
  }

  /** The first event, in order, that is missing and not exported. */
  ghost predicate NextLeft(log: Log, c: Cursors, events: seq<Event>, id: EventId) {
    && Missing(log, c, id) && !Contains(events, id)
    && forall x :: Missing(log, c, x) && !Contains(events, x) && x != id ==> Before(id, x)
  }

  /** The most events of a batch: what was asked for, between 1 and 128, and 128 otherwise. */
  ghost function Limit(asked: int): nat { if 1 <= asked <= 128 then asked else 128 }

  /** `Export`: the events the cursors lack, in order, up to the batch and size limits, but never none of some. */
  ghost predicate IsExport(log: Log, c: Cursors, limit: int, rowLength: Event -> nat, events: seq<Event>) {
    && Rows(log, c, events) && Ordered(events) && NoSkips(log, c, events)
    && |events| <= Limit(limit)
    && (|events| <= 1 || Total(rowLength, events) <= 1048576)
    && (events == [] ==> Whole(log, c, events))
    && (Whole(log, c, events) || |events| == Limit(limit)
        || exists id :: NextLeft(log, c, events, id)
                     && Total(rowLength, events) + rowLength(log.events[id]) > 1048576)
  }

  // ---- what a batch delivers -----------------------------------------------

  lemma ExportRipe(w: World, a: Log, b: Log, c: Cursors, events: seq<Event>, k: nat)
    requires Inv(w) && Cut(w, a) && Cut(w, b) && AtMost(c, b)
    requires Rows(a, c, events) && NoSkips(a, c, events) && k < |events|
    ensures Ripe(w, b, events, k)
  {
    hide Inv, Valid, LastSequence, Covers;
    var id := events[k].id;
    assert events[k] == Signed(id.of) by { SignedRow(a, id); }
    forall d | d in w.born[id].events
      ensures d in b.events || exists j :: 0 <= j < k && events[j].id == d
    {
      HappensBefore(w, a, id, d);
      assert Before(d, id);
      if !Missing(a, c, d) {
        CursorMeaning(w, b, d);
      }
    }
  }

  lemma SignedRow(log: Log, id: EventId)
    requires Valid(log) && id in log.events
    ensures log.events[id] == Signed(id.of)
  {
    hide Unforked, Chained, Causal, MembershipValid, TablesValid, Verify;
  }

  /**
   Whatever a node exports against cursors at or below the receiver's is deliverable to the receiver: each event
   arrives after everything its origin held when it was made.
   */
  lemma {:induction false} ExportDeliverable(
      w: World, a: Log, b: Log, c: Cursors, limit: int, rowLength: Event -> nat, events: seq<Event>)
    requires Inv(w) && Cut(w, a) && Cut(w, b) && AtMost(c, b) && IsExport(a, c, limit, rowLength, events)
    ensures Deliverable(w, b, events)
  {
    hide Inv, Cut, AtMost, Rows, NoSkips, Ordered, Whole, Ripe;
    forall k | 0 <= k < |events| ensures Ripe(w, b, events, k) {
      ExportRipe(w, a, b, c, events, k);
    }
  }

  /** ... and is ingested in full, although few of those pasts are named as dependencies. */
  lemma {:induction false} ExportAccepted(
      w: World, a: Log, b: Log, c: Cursors, limit: int, rowLength: Event -> nat, events: seq<Event>)
    requires Inv(w) && Cut(w, a) && Cut(w, b) && NoConflicts(w)
    requires AtMost(c, b) && IsExport(a, c, limit, rowLength, events)
    ensures Ingest(b, events).Ok? && Cut(w, Ingest(b, events).value)
  {
    hide Inv, Cut, NoConflicts, Deliverable, InsertAll, Rows, NoSkips, Ordered, Whole, AtMost;
    ExportDeliverable(w, a, b, c, limit, rowLength, events);
    DeliveryAccepted(w, b, events);
    DeliveryKeepsCut(w, b, events);
  }

  // ---- cursors ----------------------------------------------------------

  /** An export against a cut's own cursors is empty exactly when the cut has everything the exporter has. */
  lemma {:induction false} EmptyMeansCovered(
      w: World, a: Log, b: Log, c: Cursors, limit: int, rowLength: Event -> nat, events: seq<Event>)
    requires Inv(w) && Cut(w, a) && Cut(w, b) && ExactCursors(b, c) && IsExport(a, c, limit, rowLength, events)
    ensures events == [] <==> Covers(b, a)
  {
    hide Inv, Valid, LastSequence, NoSkips, Ordered;
    if events == [] {
      forall d | d in a.events ensures d in b.events {
        assert !Missing(a, c, d);
        CursorMeaning(w, b, d);
      }
    } else {
      CursorMeaning(w, b, events[0].id);
    }
  }

  /** A peer whose cursors were at least c holds every event of the world up to c: replica rows need only cursors. */
  lemma {:induction false} CursorsAreReplicas(w: World, peer: Log, c: Cursors, id: EventId)
    requires Inv(w) && Cut(w, peer) && AtMost(c, peer) && id in w.born && id.of.sequence <= CursorAt(c, id.of.origin)
    ensures id in peer.events
  {
    hide Inv, Cut, LastSequence;
    assert id.of.sequence <= LastSequence(peer, id.of.origin);
    CursorMeaning(w, peer, id);
  }

  lemma AtMostGrows(c: Cursors, log: Log, next: Log)
    requires AtMost(c, log) && Covers(next, log)
    ensures AtMost(c, next)
  {
    forall origin ensures CursorAt(c, origin) <= LastSequence(next, origin) {
      LastGrows(log, next, origin);
    }
  }

  lemma LastGrows(log: Log, next: Log, origin: NodeId)
    requires Covers(next, log)
    ensures LastSequence(log, origin) <= LastSequence(next, origin)
  {
    if LastSequence(log, origin) > 0 {
      var id :| id in log.events && id.of.origin == origin && id.of.sequence == LastSequence(log, origin);
      assert id in next.events;
    }
  }
}
