/**
 The receipts of one command, in the order its target made them: at every
 database they are a prefix of one legal path, although admission itself only
 checks that terminal receipts stay.
 */
module Trail {
  import opened Records
  import opened Admission
  import opened LogInvariant
  import opened World
  import opened JournalSteps
  import opened System
  import opened Authority
  import opened SystemInvariant
  import opened SystemSteps

  /** The event of an origin at a sequence number is a receipt for the command. */
  predicate ReportsAt(id: EventId, c: CommandId, origin: NodeId, n: int) {
    Reports(id, c) && id.of.origin == origin && id.of.sequence == n
  }

  ghost function ReceiptAt(log: Log, c: CommandId, origin: NodeId, n: int): (r: Option<EventId>)
    ensures r.Some? ==> r.value in log.events && ReportsAt(r.value, c, origin, n)
    ensures r.None? ==> forall id :: id in log.events ==> !ReportsAt(id, c, origin, n)
  {
    if exists id :: id in log.events && ReportsAt(id, c, origin, n) then
      var id :| id in log.events && ReportsAt(id, c, origin, n);
      Some(id)
    else None
  }

  /** The receipts of a command up to an origin's sequence number. */
  ghost function Receipts(log: Log, c: CommandId, origin: NodeId, n: nat): (r: seq<EventId>)
    ensures forall k :: 0 <= k < |r| ==> r[k].of.body.ReceiptBody?
  {
    if n == 0 then []
    else
      var here := ReceiptAt(log, c, origin, n);
      Receipts(log, c, origin, n - 1) + if here.Some? then [here.value] else []
  }

  function StatusesOf(receipts: seq<EventId>): (r: seq<Status>)
    requires forall k :: 0 <= k < |receipts| ==> receipts[k].of.body.ReceiptBody?
    ensures |r| == |receipts| && forall k :: 0 <= k < |r| ==> r[k] == receipts[k].of.body.receipt.status
  {
    seq(|receipts|, k requires 0 <= k < |receipts| => receipts[k].of.body.receipt.status)
  }

  /** All receipts of a command that a database holds. */
  ghost function Path(log: Log, c: CommandId, origin: NodeId): seq<EventId> {
    Receipts(log, c, origin, LastSequence(log, origin))
  }

  function LastStatus(path: seq<Status>): Option<Status> { if path == [] then None else Some(path[|path| - 1]) }

  predicate LegalPath(path: seq<Status>, kind: string) {
    forall k :: 0 <= k < |path| ==> LegalMove(LastStatus(path[..k]), path[k], kind)
  }

  // ---- the last of a trail --------------------------------------------------------

  /** The trail's last entry is the greatest receipt up to n; an empty trail has none. */
  lemma {:induction false} TrailEnds(log: Log, c: CommandId, origin: NodeId, n: nat)
    ensures var t := Receipts(log, c, origin, n);
      if t == [] then forall id, k :: 1 <= k <= n && id in log.events ==> !ReportsAt(id, c, origin, k)
      else var x := t[|t| - 1];
        && x in log.events && Reports(x, c) && x.of.origin == origin && 1 <= x.of.sequence <= n
        && forall id, k :: x.of.sequence < k <= n && id in log.events ==> !ReportsAt(id, c, origin, k)
  {
    if n > 0 { TrailEnds(log, c, origin, n - 1); }
  }

  /** What the target's database said of the command when it made receipt id is what any holder's trail says so far. */
  lemma PriorStatus(past: Log, log: Log, id: EventId, c: CommandId, n: nat, trail: seq<EventId>)
    requires c in past.commands && c in log.commands && Reports(id, c) && n + 1 == id.of.sequence
    requires trail == Receipts(log, c, id.of.origin, n)
    requires Valid(past) && Valid(log) && Covers(log, past) && id in log.events
    requires LastSequence(past, id.of.origin) == n
    ensures StatusIn(past, c) == LastStatus(StatusesOf(trail))
  {
    hide Valid, Covers, LastSequence, Receipts, StatusIn;
    var t := id.of.origin;
    TrailEnds(log, c, t, n);
    ReceiptSeen(log, id);
    SameCommand(past, log, c);
    if c in past.receipts {
      var latest := past.receipts[c].event;
      LatestReceipt(past, c);
      CoversHas(log, past, latest);
      NotLater(past, id, latest);
      SequencePositive(past, latest);
      assert ReportsAt(latest, c, t, latest.of.sequence);
      var x := trail[|trail| - 1];
      HeldBefore(past, log, id, x);
      ReceiptSeen(past, x);
      SameSequence(past, x, latest);
      StatusOf(past, c);
    } else {
      if trail != [] {
        HeldBefore(past, log, id, trail[|trail| - 1]);
        ReceiptSeen(past, trail[|trail| - 1]);
      }
      NoStatus(past, c);
    }
  }

  lemma StatusOf(log: Log, c: CommandId)
    requires c in log.receipts
    ensures StatusIn(log, c) == Some(log.receipts[c].receipt.status)
  {
  }

  lemma NoStatus(log: Log, c: CommandId)
    requires c !in log.receipts
    ensures StatusIn(log, c) == None
  {
  }

  lemma CoversHas(log: Log, past: Log, x: EventId)
    requires Covers(log, past) && x in past.events
    ensures x in log.events
  {
  }

  lemma SequencePositive(log: Log, x: EventId)
    requires Valid(log) && x in log.events
    ensures x.of.sequence >= 1
  {
    hide Unforked, Chained, Causal, MembershipValid, TablesValid;
    assert Verify(Signed(x.of), log.fleet).None?;
  }

  lemma NotLater(past: Log, id: EventId, x: EventId)
    requires x in past.events && x.of.origin == id.of.origin && id.of.sequence == LastSequence(past, id.of.origin) + 1
    ensures x.of.sequence < id.of.sequence
  {
  }

  lemma HeldBefore(past: Log, log: Log, id: EventId, x: EventId)
    requires Valid(past) && Valid(log) && Covers(log, past) && id.of.sequence == LastSequence(past, id.of.origin) + 1
    requires x in log.events && x.of.origin == id.of.origin && 1 <= x.of.sequence < id.of.sequence
    ensures x in past.events
  {
    hide MembershipValid, TablesValid, Covers, Authentic, Unforked, Chained, Causal, LastSequence;
    HoldsEarlier(past, log, id, x);
  }

  lemma SameCommand(past: Log, log: Log, c: CommandId)
    requires Valid(past) && Valid(log) && Covers(log, past) && c in past.commands
    ensures c in log.commands && log.commands[c].command == past.commands[c].command
  {
    hide ChainValid, MembershipValid, CatalogRows, CatalogEvents, DeletionsSound, ReceiptRows, ReceiptEvents,
      InventoryRows, InventoryEvents, ImportsSound, WellFormedCommand;
    assert past.commands[c].event in log.events;
  }

  lemma Ancestry(w: World, log: Log, id: EventId)
    requires Inv(w) && Cut(w, log) && id in log.events && id in w.born
    ensures Valid(w.born[id]) && Covers(log, w.born[id]) && id.of.sequence >= 1
    ensures id.of.sequence == LastSequence(w.born[id], id.of.origin) + 1
  {
    hide Valid, Covers, Below, Refusal, LastSequence, Precedes, CausallyBelow;
    assert WellBorn(w, id);
  }

  // ---- legal paths -----------------------------------------------------------------

  lemma LegalSnoc(before: seq<Status>, next: Status, kind: string)
    requires LegalPath(before, kind) && LegalMove(LastStatus(before), next, kind)
    ensures LegalPath(before + [next], kind)
  {
    hide LegalMove;
    var after := before + [next];
    assert after[..|before|] == before;
    assert forall k :: 0 <= k < |before| ==> after[..k] == before[..k] && after[k] == before[k];
  }

  lemma ReceiptLegal(w: World, log: Log, id: EventId, c: CommandId, n: nat, trail: seq<EventId>)
    requires c in log.commands && Reports(id, c) && n + 1 == id.of.sequence
    requires trail == Receipts(log, c, id.of.origin, n)
    requires Inv(w) && PathsLegal(w) && Cut(w, log) && id in log.events
    ensures LegalMove(LastStatus(StatusesOf(trail)), id.of.body.receipt.status, log.commands[c].command.kind)
  {
    hide Inv, Valid, Covers, LegalMove, PathsLegal, Receipts, LastSequence;
    var past := w.born[id];
    Ancestry(w, log, id);
    LegalHere(w, id);
    SameCommand(past, log, c);
    PriorStatus(past, log, id, c, n, trail);
  }

  lemma {:induction false} ReceiptsLegal(w: World, log: Log, c: CommandId, origin: NodeId, n: nat)
    requires c in log.commands
    requires Inv(w) && PathsLegal(w) && Cut(w, log)
    ensures LegalPath(StatusesOf(Receipts(log, c, origin, n)), log.commands[c].command.kind)
  {
    hide Inv, Cut, LegalPath, PathsLegal, LegalMove;
    if n == 0 {
      NothingLegal(log.commands[c].command.kind);
    } else {
      ReceiptsLegal(w, log, c, origin, n - 1);
      var here, before := ReceiptAt(log, c, origin, n), Receipts(log, c, origin, n - 1);
      if here.Some? {
        var id := here.value;
        ReceiptLegal(w, log, id, c, n - 1, before);
        LegalSnoc(StatusesOf(before), id.of.body.receipt.status, log.commands[c].command.kind);
        assert StatusesOf(before + [id]) == StatusesOf(before) + [id.of.body.receipt.status];
      } else {
        assert before + [] == before;
      }
    }
  }

  lemma NothingLegal(kind: string)
    ensures LegalPath([], kind)
  {
  }

  lemma LegalHere(w: World, id: EventId)
    requires PathsLegal(w) && id in w.born && id.of.body.ReceiptBody?
    ensures var r := id.of.body.receipt; var past := w.born[id];
      r.commandId in past.commands
      && LegalMove(StatusIn(past, r.commandId), r.status, past.commands[r.commandId].command.kind)
  {
    hide LegalMove;
    assert LegalReceipt(w.born[id], id);
  }

  /** The recorded receipt of a command is the last of its path. */
  lemma LatestEndsPath(log: Log, c: CommandId)
    requires Valid(log) && c in log.commands
    ensures StatusIn(log, c) == LastStatus(StatusesOf(Path(log, c, log.commands[c].command.target)))
  {
    hide Valid;
    var t := log.commands[c].command.target;
    var path := Path(log, c, t);
    TrailEnds(log, c, t, LastSequence(log, t));
    hide LastSequence, Receipts;
    if c in log.receipts {
      LatestReceipt(log, c);
      SequencePositive(log, log.receipts[c].event);
      assert ReportsAt(log.receipts[c].event, c, t, log.receipts[c].event.of.sequence);
      LastBounds(log, log.receipts[c].event);
      var x := path[|path| - 1];
      ReceiptSeen(log, x);
      assert x.of.sequence == log.receipts[c].event.of.sequence;
      SameSequence(log, x, log.receipts[c].event);
    } else if path != [] {
      ReceiptSeen(log, path[|path| - 1]);
    }
  }

  lemma LastBounds(log: Log, x: EventId)
    requires x in log.events
    ensures x.of.sequence <= LastSequence(log, x.of.origin)
  {
  }

  lemma {:induction false} ReceiptsHoldAll(log: Log, id: EventId, c: CommandId, n: nat)
    requires Unforked(log) && id in log.events && Reports(id, c) && 1 <= id.of.sequence <= n
    ensures id in Receipts(log, c, id.of.origin, n)
  {
    assert ReportsAt(id, c, id.of.origin, id.of.sequence);
    if id.of.sequence < n { ReceiptsHoldAll(log, id, c, n - 1); }
  }

  /** A command's path has every receipt for it that the database holds. */
  lemma {:induction false} PathHoldsAll(log: Log, id: EventId, c: CommandId)
    requires Valid(log) && id in log.events && Reports(id, c)
    ensures id in Path(log, c, id.of.origin)
  {
    hide Authentic, Chained, Causal, MembershipValid, TablesValid;
    SequencePositive(log, id);
    LastBounds(log, id);
    ReceiptsHoldAll(log, id, c, LastSequence(log, id.of.origin));
  }

  // ---- prefixes -----------------------------------------------------------------------

  lemma SameReceiptAt(w: World, log: Log, c: CommandId, t: NodeId, n: int)
    requires Inv(w) && Cut(w, log) && t in w.logs && n <= LastSequence(log, t)
    ensures ReceiptAt(log, c, t, n) == ReceiptAt(w.logs[t], c, t, n)
  {
    hide Valid, WellBorn, Covers, LastSequence;
    var own := w.logs[t];
    assert Cut(w, own);
    var here, there := ReceiptAt(log, c, t, n), ReceiptAt(own, c, t, n);
    if here.Some? {
      OriginHolds(w, log, here.value);
      assert there.Some?;
      SameSequence(own, here.value, there.value);
    } else if there.Some? {
      assert there.value in w.born;
      CursorMeaning(w, log, there.value);
      assert false;
    }
  }

  lemma {:induction false} SamePrefix(w: World, log: Log, c: CommandId, t: NodeId, n: nat)
    requires Inv(w) && Cut(w, log) && t in w.logs && n <= LastSequence(log, t)
    ensures Receipts(log, c, t, n) == Receipts(w.logs[t], c, t, n)
  {
    hide Inv, Cut, LastSequence;
    if n > 0 {
      SamePrefix(w, log, c, t, n - 1);
      SameReceiptAt(w, log, c, t, n);
    }
  }

  lemma {:induction false} ReceiptsExtend(log: Log, c: CommandId, t: NodeId, n: nat, m: nat)
    requires n <= m
    ensures Receipts(log, c, t, n) <= Receipts(log, c, t, m)
    decreases m - n
  {
    if n < m { ReceiptsExtend(log, c, t, n, m - 1); }
  }

  /** Whatever a database holds of a command's receipts is a prefix of what its target holds. */
  lemma {:induction false} ReplicaIsPrefix(w: World, log: Log, c: CommandId, t: NodeId)
    requires Inv(w) && Cut(w, log) && t in w.logs
    ensures Path(log, c, t) <= Path(w.logs[t], c, t)
  {
    hide Cut, WellBorn, Receipts, LastSequence;
    assert Cut(w, w.logs[t]);
    SamePrefix(w, log, c, t, LastSequence(log, t));
    LastInOwn(w, log, t);
    ReceiptsExtend(w.logs[t], c, t, LastSequence(log, t), LastSequence(w.logs[t], t));
  }

  lemma LastInOwn(w: World, log: Log, t: NodeId)
    requires Inv(w) && Cut(w, log) && t in w.logs
    ensures LastSequence(log, t) <= LastSequence(w.logs[t], t)
  {
    hide Inv, Cut;
    if LastSequence(log, t) > 0 {
      var x :| x in log.events && x.of.origin == t && x.of.sequence == LastSequence(log, t);
      OriginHolds(w, log, x);
      LastBounds(w.logs[t], x);
    }
  }

  // ---- over runs -------------------------------------------------------------------------

  /** In every run, at every node, a command's receipts form a legal path that ends with the recorded status. */
  lemma {:induction false} PathsAreLegal(fleet: string, steps: seq<Step>, i: NodeId, c: CommandId)
    requires i in Run(fleet, steps).nodes && c in Run(fleet, steps).nodes[i].db.log.commands
    ensures var log := Run(fleet, steps).nodes[i].db.log; var t := log.commands[c].command.target;
      && LegalPath(StatusesOf(Path(log, c, t)), log.commands[c].command.kind)
      && StatusIn(log, c) == LastStatus(StatusesOf(Path(log, c, t)))
  {
    hide Run, SystemInv, NodeHistory.NodeInv, Inv, Cut, Valid, Path, NetInv, ReplicasSound, LegalPath, PathsLegal;
    RunKeeps(fleet, steps);
    var s := Run(fleet, steps);
    var log := s.nodes[i].db.log;
    NodeOf(s, i);
    PathLegal(WorldOf(s), log, c, log.commands[c].command.target);
    LatestEndsPath(log, c);
  }

  /** In every run, the receipts any node holds of a command are a prefix of what their author holds. */
  lemma {:induction false} ReplicasArePrefixes(fleet: string, steps: seq<Step>, i: NodeId, c: CommandId, t: NodeId)
    requires i in Run(fleet, steps).nodes && t in Run(fleet, steps).nodes
    ensures Path(Run(fleet, steps).nodes[i].db.log, c, t) <= Path(Run(fleet, steps).nodes[t].db.log, c, t)
  {
    hide Run, SystemInv, NodeHistory.NodeInv, Inv, Cut, Valid, Path, NetInv, ReplicasSound, PathsLegal;
    RunKeeps(fleet, steps);
    NodeOf(Run(fleet, steps), i);
    NodeOf(Run(fleet, steps), t);
    ReplicaIsPrefix(WorldOf(Run(fleet, steps)), Run(fleet, steps).nodes[i].db.log, c, t);
  }

  lemma PathLegal(w: World, log: Log, c: CommandId, t: NodeId)
    requires Inv(w) && PathsLegal(w) && Cut(w, log) && c in log.commands
    ensures LegalPath(StatusesOf(Path(log, c, t)), log.commands[c].command.kind)
  {
    hide Inv, PathsLegal, Cut;
    ReceiptsLegal(w, log, c, t, LastSequence(log, t));
  }
}
