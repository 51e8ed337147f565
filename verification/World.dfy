/**
 All nodes together.  Each identity has one database and only that database
 appends under it (no cloned identity).  `born` remembers, for every event, what
 its origin held when it appended it.  The invariant is happens-before closure:
 whoever holds an event holds everything its origin held then.  From it follows
 that replication never gets stuck: an event admitted once is admitted by every
 database that holds its past, although most of that past is never named among
 its dependencies.
 */
module World {
  import opened Records
  import opened Ordering
  import opened Admission
  import opened LogInvariant
  import opened HashDag

  datatype World = World(fleet: string, logs: map<NodeId, Log>, born: map<EventId, Log>)

  ghost predicate Covers(log: Log, past: Log) { forall d :: d in past.events ==> d in log.events }

  /** A database whose events all come from this world and which is closed under "held by the origin". */
  ghost predicate Cut(w: World, log: Log) {
    && Valid(log) && log.fleet == w.fleet
    && forall id :: id in log.events ==> id in w.born && Covers(log, w.born[id])
  }

  ghost predicate Below(past: Log, id: EventId) { forall d :: d in past.events ==> d.of.lamport < id.of.lamport }

  /** An event of this world was admitted by its origin on top of a closed past of smaller Lamport counters. */
  ghost predicate WellBorn(w: World, id: EventId)
    requires id in w.born
  {
    && Cut(w, w.born[id]) && Admissible(w.born[id], id) && Below(w.born[id], id)
    && id.of.origin in w.logs && id in w.logs[id.of.origin].events
  }

  ghost predicate Inv(w: World) {
    && (forall i :: i in w.logs ==> Cut(w, w.logs[i]))
    && (forall id :: id in w.born ==> WellBorn(w, id))
  }

  // ---- consequences -------------------------------------------------------

  /** Each origin speaks once per sequence number. */
  lemma OneVoice(w: World, a: EventId, b: EventId)
    requires Inv(w) && a in w.born && b in w.born && a.of.origin == b.of.origin && a.of.sequence == b.of.sequence
    ensures a == b
  {
    hide Authentic, Chained, Causal, MembershipValid, TablesValid, Admissible, Below, Covers;
    assert WellBorn(w, a) && WellBorn(w, b);
    assert Cut(w, w.logs[a.of.origin]);
  }

  /** Single-writer authority: an event held anywhere is in its origin's own database. */
  lemma OriginHolds(w: World, log: Log, id: EventId)
    requires Inv(w) && Cut(w, log) && id in log.events
    ensures id.of.origin in w.logs && id in w.logs[id.of.origin].events
  {
    hide Valid, Admissible, Below, Covers;
    assert WellBorn(w, id);
  }

  /** Happens-before closure: everything the origin held when it appended a held event is held, with smaller Lamport. */
  lemma HappensBefore(w: World, log: Log, id: EventId, d: EventId)
    requires Inv(w) && Cut(w, log) && id in log.events && d in w.born[id].events
    ensures d in log.events && d.of.lamport < id.of.lamport
  {
    hide Valid, Admissible;
    assert Covers(log, w.born[id]) && WellBorn(w, id);
  }

  /** The event at a given number of an origin, if a later one is held, is the same in any two cuts. */
  lemma CutHoldsEarlier(w: World, log: Log, e: EventId, p: EventId)
    requires Inv(w) && Cut(w, log) && e in log.events && p in w.born
    requires p.of.origin == e.of.origin && 1 <= p.of.sequence <= e.of.sequence
    ensures p in log.events
  {
    hide Authentic, Unforked, Chained, Causal, MembershipValid, TablesValid, Covers, WellBorn;
    var q := Contiguous(log, e, p.of.sequence);
    OneVoice(w, p, q);
  }

  /** Events of the world are numbered from 1. */
  lemma NumberedFromOne(w: World, p: EventId)
    requires Inv(w) && p in w.born
    ensures p.of.sequence >= 1
  {
    hide Valid, Below, Gate, Refusal, Covers;
    assert WellBorn(w, p);
  }

  lemma ReachedIsHeld(w: World, log: Log, p: EventId)
    requires Inv(w) && Cut(w, log) && p in w.born && p.of.sequence <= LastSequence(log, p.of.origin)
    ensures p in log.events
  {
    hide Inv, Cut;
    NumberedFromOne(w, p);
    var e :| e in log.events && e.of.origin == p.of.origin && e.of.sequence == LastSequence(log, p.of.origin);
    CutHoldsEarlier(w, log, e, p);
  }

  /** A cut holds exactly the world's events of an origin up to its cursor. */
  lemma {:induction false} CursorMeaning(w: World, log: Log, p: EventId)
    requires Inv(w) && Cut(w, log) && p in w.born
    ensures p in log.events <==> p.of.sequence <= LastSequence(log, p.of.origin)
  {
    hide Inv, Cut;
    if p.of.sequence <= LastSequence(log, p.of.origin) { ReachedIsHeld(w, log, p); }
  }

  // ---- admission is monotone -------------------------------------------------

  /** No two commands share an execution ID, and no member is bound to two legacy identities. */
  ghost predicate NoConflicts(w: World) {
    && (forall a, b :: a in w.born && b in w.born && a.of.body.CommandBody? && Submits(b, a.of.body.command.id)
          ==> a.of.body.command == b.of.body.command)
    && (forall a, b, l :: a in w.born && b in w.born && a.of.body.AliasBody? && Binds(b, a.of.body.memberId, l)
          ==> l == "" || l == a.of.body.legacyId)
  }

  /** log holds nothing of the event's origin at its sequence or later. */
  ghost predicate Behind(log: Log, id: EventId) {
    forall x :: x in log.events && x.of.origin == id.of.origin ==> x.of.sequence < id.of.sequence
  }

  lemma GateMonotone(past: Log, log: Log, id: EventId)
    requires ChainValid(past) && MembershipValid(past) && MembershipValid(log)
    requires Covers(log, past) && Gate(past, id).None? && Behind(log, id)
    ensures Gate(log, id).None?
  {
    hide Authentic, Unforked, Chained, Causal, RemovalsSound, LegacySound, Authored, Founded, SameMember,
      WellFormedMember;
    var last := LastSequence(past, id.of.origin);
    if last > 0 {
      var p :| p in past.events && Precedes(p, id);
      assert p in log.events;
    }
    assert LastSequence(log, id.of.origin) == last by {
      if last > 0 {
        var h :| h in past.events && h.of.origin == id.of.origin && h.of.sequence == last;
        assert h in log.events;
      }
    }
    if Known(past, id.of.origin) {
      assert past.members[id.of.origin].admission in log.events;
    }
  }

  lemma CommandMonotone(past: Log, log: Log, cmd: Command)
    requires MembersSound(past) && MembersSound(log) && Covers(log, past) && past.fleet == log.fleet
    requires CommandRefusal(past, cmd).None?
    requires cmd.id in log.commands ==> log.commands[cmd.id].command == cmd
    ensures CommandRefusal(log, cmd).None?
  {
    assert past.members[cmd.target].admission in log.events;
  }

  lemma AliasMonotone(past: Log, log: Log, m: NodeId, legacy: string)
    requires MembersSound(past) && MembersSound(log) && Covers(log, past)
    requires AliasRefusal(past, m, legacy).None?
    requires m in log.members ==> log.members[m].member.legacyId in {"", legacy}
    ensures AliasRefusal(log, m, legacy).None?
  {
    assert past.members[m].admission in log.events;
  }

  /** The receipt a covering cut has is by the target, and so in the target's past. */
  lemma LatestWasHeld(past: Log, log: Log, id: EventId, c: CommandId)
    requires ChainValid(past) && ChainValid(log) && Covers(log, past) && Behind(log, id)
    requires id.of.sequence == LastSequence(past, id.of.origin) + 1
    requires c in log.commands && log.commands[c].command.target == id.of.origin && c in log.receipts
    requires ReceiptRows(log) && ReceiptEvents(log)
    ensures log.receipts[c].event in past.events && Reports(log.receipts[c].event, c)
  {
    hide Chained, Causal, LastSequence;
    var y := log.receipts[c].event;
    assert y.of.origin == id.of.origin && 1 <= y.of.sequence by { assert Verify(Signed(y.of), log.fleet).None?; }
    HoldsEarlier(past, log, id, y);
  }

  lemma SameCommandInCover(past: Log, log: Log, c: CommandId)
    requires CommandRows(past) && CommandEvents(log) && Covers(log, past) && c in past.commands
    ensures c in log.commands && log.commands[c].command == past.commands[c].command
  {
    hide WellFormedCommand;
    assert past.commands[c].event in log.events;
  }

  /** A covering database's latest receipt for a command is no earlier. */
  lemma LatestInCover(past: Log, log: Log, c: CommandId)
    requires ReceiptRows(past) && ReceiptEvents(log) && Covers(log, past) && c in past.receipts
    ensures c in log.receipts && c in log.commands
    ensures var x := past.receipts[c].event;
      && x in log.events && past.receipts[c].sequence == x.of.sequence <= log.receipts[c].sequence
      && x.of.origin == log.commands[c].command.target
  {
    assert past.receipts[c].event in log.events;
  }

  lemma LatestAgrees(past: Log, log: Log, c: CommandId)
    requires c in log.receipts && ReceiptRows(log) && ReceiptEvents(past) && Unforked(log) && Covers(log, past)
    requires ReceiptRows(past) && ReceiptEvents(log)
    requires log.receipts[c].event in past.events
    ensures c in past.receipts && past.receipts[c].event == log.receipts[c].event
  {
    var y := log.receipts[c].event;
    assert c in past.receipts && y.of.sequence <= past.receipts[c].sequence;
    LatestInCover(past, log, c);
    assert y in log.events && y.of.origin == log.commands[c].command.target;
  }

  /** The receipt the target had for a command when it appended the next one is what every covering cut has. */
  lemma SameLatestReceipt(past: Log, log: Log, id: EventId)
    requires ChainValid(past) && ChainValid(log) && Covers(log, past) && Behind(log, id)
    requires CommandRows(past) && CommandEvents(log)
    requires ReceiptRows(past) && ReceiptEvents(past) && ReceiptRows(log) && ReceiptEvents(log)
    requires id.of.sequence == LastSequence(past, id.of.origin) + 1
    requires id.of.body.ReceiptBody? && ReceiptRefusal(past, id.of.origin, id.of.body.receipt).None?
    ensures var c := id.of.body.receipt.commandId;
      (c in past.receipts <==> c in log.receipts)
      && (c in log.receipts ==> past.receipts[c].event == log.receipts[c].event)
  {
    hide CommandRows, CommandEvents, ReceiptRows, ReceiptEvents, Authentic, Unforked, Chained, Causal, LastSequence,
      Behind, Covers;
    var c := id.of.body.receipt.commandId;
    SameCommandInCover(past, log, c);
    if c in past.receipts { LatestInCover(past, log, c); }
    if c in log.receipts {
      LatestWasHeld(past, log, id, c);
      LatestAgrees(past, log, c);
    }
  }

  /** A past that ends just before id holds every earlier event of its origin that a covering database holds. */
  lemma HoldsEarlier(past: Log, log: Log, id: EventId, y: EventId)
    requires ChainValid(past) && Unforked(log) && Covers(log, past)
    requires id.of.sequence == LastSequence(past, id.of.origin) + 1
    requires y in log.events && y.of.origin == id.of.origin && 1 <= y.of.sequence < id.of.sequence
    ensures y in past.events
  {
    hide Chained, Causal, Authentic;
    var h :| h in past.events && h.of.origin == id.of.origin && h.of.sequence == LastSequence(past, id.of.origin);
    var z := Contiguous(past, h, y.of.sequence);
    assert z in log.events;
  }

  lemma ReceiptMonotone(past: Log, log: Log, id: EventId)
    requires Valid(past) && Valid(log) && Covers(log, past) && Behind(log, id)
    requires Gate(past, id).None? && id.of.body.ReceiptBody?
    requires ReceiptRefusal(past, id.of.origin, id.of.body.receipt).None?
    ensures ReceiptRefusal(log, id.of.origin, id.of.body.receipt).None?
  {
    hide ChainValid, MembershipValid, CatalogRows, CatalogEvents, DeletionsSound, InventoryRows, InventoryEvents,
      ImportsSound, LastSequence, Precedes, CausallyBelow, Behind, ReceiptEvents, WellFormedCommand;
    SameLatestReceipt(past, log, id);
    var c := id.of.body.receipt.commandId;
    assert past.commands[c].event in log.events;
  }

  /** What the world promises about a database that is about to receive id. */
  ghost predicate Compatible(log: Log, id: EventId) {
    && (id.of.body.CommandBody? && id.of.body.command.id in log.commands ==>
          log.commands[id.of.body.command.id].command == id.of.body.command)
    && (id.of.body.AliasBody? && id.of.body.memberId in log.members ==>
          log.members[id.of.body.memberId].member.legacyId in {"", id.of.body.legacyId})
  }

  /** An event admitted on top of its past is admitted by every database that covers that past. */
  lemma {:induction false} AdmissionMonotone(past: Log, log: Log, id: EventId)
    requires Valid(past) && Valid(log) && past.fleet == log.fleet && Covers(log, past)
    requires Admissible(past, id) && id !in log.events && Behind(log, id) && Compatible(log, id)
    ensures Admissible(log, id)
  {
    hide ChainValid, TablesValid, Authored, LegacySound, RemovalsSound, Covers, Behind, Gate, CommandRefusal,
      ReceiptRefusal, AliasRefusal, MembersSound, Verify;
    GateMonotone(past, log, id);
    match id.of.body
    case CommandBody(cmd) => CommandMonotone(past, log, cmd);
    case ReceiptBody(_) => ReceiptMonotone(past, log, id);
    case AliasBody(m, legacy) => AliasMonotone(past, log, m, legacy);
    case _ =>
  }

  lemma WorldCompatible(w: World, log: Log, id: EventId)
    requires NoConflicts(w) && Cut(w, log) && id in w.born
    ensures Compatible(log, id)
  {
    hide ChainValid, Covers, Authored, RemovalsSound, CatalogRows, CatalogEvents, DeletionsSound, CommandEvents,
      ReceiptRows, ReceiptEvents, InventoryRows, InventoryEvents, ImportsSound, WellFormedCommand;
    if id.of.body.CommandBody? && id.of.body.command.id in log.commands {
      assert log.commands[id.of.body.command.id].event in w.born;
    }
    if id.of.body.AliasBody? && id.of.body.memberId in log.members {
      var m := id.of.body.memberId;
      var x :| x in log.events && Binds(x, m, log.members[m].member.legacyId);
      assert x in w.born;
    }
  }

  lemma CutIsBehind(w: World, log: Log, id: EventId)
    requires Inv(w) && Cut(w, log) && id in w.born && id !in log.events
    ensures Behind(log, id)
  {
    hide Valid, Covers, WellBorn, LastSequence;
    forall x | x in log.events && x.of.origin == id.of.origin
      ensures x.of.sequence < id.of.sequence
    {
      CursorMeaning(w, log, id);
      CursorMeaning(w, log, x);
    }
  }

  lemma CutGrows(w: World, log: Log, id: EventId)
    requires Cut(w, log) && id in w.born && Covers(log, w.born[id]) && Admissible(log, id)
    ensures Cut(w, With(log, Signed(id.of)))
  {
    hide Valid, Admissible;
    AdmissibleKeepsValid(log, id, With(log, Signed(id.of)));
  }

  // ---- delivery ---------------------------------------------------------

  /** Position k of a batch brings nothing whose past is neither held nor earlier in the batch. */
  ghost predicate Ripe(w: World, log: Log, batch: seq<Event>, k: nat)
    requires k < |batch|
  {
    && batch[k].id in w.born && batch[k] == Signed(batch[k].id.of)
    && forall d :: d in w.born[batch[k].id].events ==> d in log.events || exists j :: 0 <= j < k && batch[j].id == d
  }

  ghost predicate Deliverable(w: World, log: Log, batch: seq<Event>) {
    forall k :: 0 <= k < |batch| ==> Ripe(w, log, batch, k)
  }

  lemma DeliveryInsertKeepsCut(w: World, log: Log, batch: seq<Event>)
    requires Inv(w) && Cut(w, log) && Deliverable(w, log, batch) && batch != [] && Insert(log, batch[0]).Ok?
    ensures Cut(w, Insert(log, batch[0]).value)
    ensures Insert(log, batch[0]).value.events.Keys == log.events.Keys + {batch[0].id}
  {
    hide Inv, Valid, Insert, Admissible, With, Verify;
    assert Ripe(w, log, batch, 0);
    assert Valid(log);
    InsertKeepsValid(log, batch[0]);
    InsertCases(log, batch[0]);
    hide Cut;
    if batch[0].id !in log.events { CutGrows(w, log, batch[0].id); }
  }

  /** The rest of a deliverable batch is deliverable once its first event is held. */
  lemma RipeAfter(w: World, log: Log, next: Log, batch: seq<Event>, k: nat)
    requires k + 1 < |batch| && Ripe(w, log, batch, k + 1) && next.events.Keys == log.events.Keys + {batch[0].id}
    ensures Ripe(w, next, batch[1..], k)
  {
    forall d | d in w.born[batch[k + 1].id].events
      ensures d in next.events || exists j :: 0 <= j < k && batch[1..][j].id == d
    {
      if d !in next.events {
        assert d !in log.events.Keys;
        var j :| 0 <= j < k + 1 && batch[j].id == d;
        assert batch[1..][j - 1] == batch[j];
      }
    }
  }

  /** Whatever part of a deliverable batch is ingested, the receiver stays a cut. */
  lemma DeliveryStep(w: World, log: Log, batch: seq<Event>)
    requires Inv(w) && Cut(w, log) && Deliverable(w, log, batch) && batch != []
    requires Insert(log, batch[0]).Ok?
    ensures Cut(w, Insert(log, batch[0]).value)
    ensures Deliverable(w, Insert(log, batch[0]).value, batch[1..])
  {
    hide Inv, Cut, Insert, Ripe;
    DeliveryInsertKeepsCut(w, log, batch);
    forall k | 0 <= k < |batch| - 1 ensures Ripe(w, Insert(log, batch[0]).value, batch[1..], k) {
      assert Ripe(w, log, batch, k + 1);
      RipeAfter(w, log, Insert(log, batch[0]).value, batch, k);
    }
  }

  lemma RefusedIfIncompatible(log: Log, id: EventId)
    requires Valid(log) && Refusal(log, id.of).None? && id !in log.events
    ensures Compatible(log, id)
  {
    hide Valid, WellFormedCommand;
  }

  lemma ExactAdmission(past: Log, log: Log, id: EventId)
    requires Valid(past) && Valid(log) && past.fleet == log.fleet && Covers(log, past)
    requires Admissible(past, id) && id !in log.events && Behind(log, id)
    ensures Insert(log, Signed(id.of)).Ok? <==> Compatible(log, id)
  {
    hide Valid, Covers, Gate, Refusal, Behind, Compatible, Verify;
    if Compatible(log, id) {
      AdmissionMonotone(past, log, id);
    } else if Refusal(log, id.of).None? {
      RefusedIfIncompatible(log, id);
    }
  }

  lemma HeldInsert(log: Log, id: EventId)
    requires Valid(log)
    ensures id in log.events ==> Insert(log, Signed(id.of)) == Ok(log)
  {
    hide Unforked, Chained, Causal, MembershipValid, TablesValid, Gate, Refusal;
    if id in log.events { assert Verify(Signed(id.of), log.fleet).None?; }
  }

  /**
   The exact condition: the next event of a deliverable batch is admitted if and only if it is already held or does not
   contradict a record of the same command or alias.
   */
  lemma {:induction false} AdmittedUnlessConflict(w: World, log: Log, batch: seq<Event>)
    requires Inv(w) && Cut(w, log) && Deliverable(w, log, batch) && batch != []
    ensures Insert(log, batch[0]).Ok? <==> batch[0].id in log.events || Compatible(log, batch[0].id)
  {
    hide Valid, Admissible, Behind, Compatible, Below, Insert;
    var id := batch[0].id;
    assert Ripe(w, log, batch, 0);
    assert WellBorn(w, id);
    HeldInsert(log, id);
    if id !in log.events {
      CutIsBehind(w, log, id);
      ExactAdmission(w.born[id], log, id);
    }
  }

  /** Each event of the batch is held by then, or contradicts no record of a command or alias made by then. */
  ghost predicate Unopposed(log: Log, batch: seq<Event>)
    decreases |batch|
  {
    batch == []
    || (if batch[0].id in log.events then Unopposed(log, batch[1..])
        else Compatible(log, batch[0].id) && Unopposed(With(log, batch[0]), batch[1..]))
  }

  /** The exact condition for a whole deliverable batch. */
  lemma {:induction false} AcceptedIffUnopposed(w: World, log: Log, batch: seq<Event>)
    requires Inv(w) && Cut(w, log) && Deliverable(w, log, batch)
    ensures InsertAll(log, batch).Ok? <==> Unopposed(log, batch)
    decreases |batch|
  {
    hide Inv, Cut, Insert, Deliverable, Compatible, With;
    if batch != [] {
      AdmittedUnlessConflict(w, log, batch);
      if Insert(log, batch[0]).Ok? {
        InsertCases(log, batch[0]);
        DeliveryStep(w, log, batch);
        AcceptedIffUnopposed(w, Insert(log, batch[0]).value, batch[1..]);
      }
    }
  }

  lemma DeliveryAdmits(w: World, log: Log, batch: seq<Event>)
    requires Inv(w) && Cut(w, log) && NoConflicts(w) && Deliverable(w, log, batch) && batch != []
    ensures Insert(log, batch[0]).Ok?
  {
    hide Inv, Valid, Insert, Compatible, NoConflicts;
    AdmittedUnlessConflict(w, log, batch);
    assert Ripe(w, log, batch, 0);
    if batch[0].id !in log.events { WorldCompatible(w, log, batch[0].id); }
  }

  lemma {:induction false} DeliveryKeepsCut(w: World, log: Log, batch: seq<Event>)
    requires Inv(w) && Cut(w, log) && Deliverable(w, log, batch) && InsertAll(log, batch).Ok?
    ensures Cut(w, InsertAll(log, batch).value)
    decreases |batch|
  {
    hide Inv, Cut, Insert, Deliverable;
    if batch != [] {
      DeliveryStep(w, log, batch);
      DeliveryKeepsCut(w, Insert(log, batch[0]).value, batch[1..]);
    }
  }

  /** A deliverable batch is admitted in full. */
  lemma {:induction false} DeliveryAccepted(w: World, log: Log, batch: seq<Event>)
    requires Inv(w) && Cut(w, log) && NoConflicts(w) && Deliverable(w, log, batch)
    ensures InsertAll(log, batch).Ok?
    decreases |batch|
  {
    hide Inv, Cut, Insert, NoConflicts, Deliverable;
    if batch != [] {
      DeliveryAdmits(w, log, batch);
      DeliveryStep(w, log, batch);
      DeliveryAccepted(w, Insert(log, batch[0]).value, batch[1..]);
    }
  }

  // ---- local appends -----------------------------------------------------

  /** id is what `appendTx` makes at this point: own origin, larger than every Lamport counter held, admissible. */
  ghost predicate Extends(self: NodeId, log: Log, id: EventId) {
    id.of.origin == self && Below(log, id) && Admissible(log, id)
  }

  ghost function AppendTo(w: World, i: NodeId, id: EventId): World
    requires i in w.logs
  {
    World(w.fleet, w.logs[i := With(w.logs[i], Signed(id.of))], w.born[id := w.logs[i]])
  }

  /** Nothing is ever forgotten: the world's events and every database only grow. */
  ghost predicate Grows(w: World, w': World) {
    && w'.fleet == w.fleet
    && (forall id :: id in w.born ==> id in w'.born && w'.born[id] == w.born[id])
    && (forall i :: i in w.logs ==> i in w'.logs && Covers(w'.logs[i], w.logs[i]))
  }

  lemma CutPersists(w: World, w': World, log: Log)
    requires Cut(w, log) && Grows(w, w')
    ensures Cut(w', log)
  {
    hide Valid;
  }

  lemma BornPersists(w: World, w': World, x: EventId)
    requires Grows(w, w') && x in w.born && WellBorn(w, x)
    ensures WellBorn(w', x)
  {
    hide Valid, Admissible, Below;
    CutPersists(w, w', w.born[x]);
    hide Cut;
  }

  lemma AppendGrows(w: World, i: NodeId, id: EventId)
    requires Inv(w) && i in w.logs && Extends(i, w.logs[i], id)
    ensures Grows(w, AppendTo(w, i, id)) && id !in w.born && id !in w.logs[i].events
  {
    hide Cut, Below, Gate, Refusal, Verify, Covers, With;
    assert id !in w.born by { assert id in w.born ==> WellBorn(w, id); }
    hide Inv, WellBorn;
    WithCovers(w.logs[i], id);
    forall j | j in w.logs ensures Covers(AppendTo(w, i, id).logs[j], w.logs[j]) { CoversSelf(w.logs[j]); }
  }

  lemma WithCovers(log: Log, id: EventId)
    ensures Covers(With(log, Signed(id.of)), log)
  {
  }

  lemma AppendBorn(w: World, i: NodeId, id: EventId)
    requires Inv(w) && i in w.logs && Extends(i, w.logs[i], id)
    ensures WellBorn(AppendTo(w, i, id), id)
  {
    hide Valid, Admissible, Below, Covers;
    AppendGrows(w, i, id);
    CutPersists(w, AppendTo(w, i, id), w.logs[i]);
    hide Cut;
  }

  lemma {:induction false} AppendKeepsInv(w: World, i: NodeId, id: EventId)
    requires Inv(w) && i in w.logs && Extends(i, w.logs[i], id)
    ensures Inv(AppendTo(w, i, id)) && Grows(w, AppendTo(w, i, id)) && id !in w.born
  {
    hide Valid, Admissible, Below, Covers, WellBorn, With, Grows, Cut;
    var w' := AppendTo(w, i, id);
    AppendGrows(w, i, id);
    forall j | j in w.logs ensures Cut(w', w.logs[j]) {
      CutPersists(w, w', w.logs[j]);
    }
    CoversSelf(w.logs[i]);
    CutGrows(w', w.logs[i], id);
    forall x | x in w'.born ensures WellBorn(w', x) {
      if x == id { AppendBorn(w, i, id); } else { BornPersists(w, w', x); }
    }
  }

  ghost function Receive(w: World, i: NodeId, log: Log): World { w.(logs := w.logs[i := log]) }

  /** A node that joins, or grows to a larger cut, keeps the invariant. */
  lemma ReceiveKeepsInv(w: World, i: NodeId, log: Log)
    requires Inv(w) && Cut(w, log) && (i in w.logs ==> Covers(log, w.logs[i]))
    ensures Inv(Receive(w, i, log)) && Grows(w, Receive(w, i, log))
  {
    hide Valid, Admissible, Below, WellBorn;
    var w' := Receive(w, i, log);
    assert Grows(w, w');
    hide Grows, Covers, Cut;
    forall j | j in w'.logs ensures Cut(w', w'.logs[j]) {
      CutPersists(w, w', w'.logs[j]);
    }
    forall x | x in w'.born ensures WellBorn(w', x) {
      BornPersists(w, w', x);
    }
  }

  lemma CoversSelf(log: Log)
    ensures Covers(log, log)
  {
  }
}
