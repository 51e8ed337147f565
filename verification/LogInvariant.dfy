/**
 What every database admitted event by event satisfies: the events form a
 contiguous, causally closed hash chain per origin, and every projected table
 is the one the set of events determines.  `InsertKeepsValid` carries it
 through every admission, whoever made the event.
 */
module LogInvariant {
  import opened Records
  import opened Ordering
  import opened Admission

  // ---- the chain ----------------------------------------------------------

  ghost predicate Authentic(log: Log) {
    forall id :: id in log.events ==> log.events[id] == Signed(id.of) && Verify(Signed(id.of), log.fleet).None?
  }

  ghost predicate Unforked(log: Log) {
    forall a, b :: a in log.events && b in log.events && a.of.origin == b.of.origin && a.of.sequence == b.of.sequence
      ==> a == b
  }

  ghost predicate Chained(log: Log) {
    forall id {:trigger HasPredecessor(log, id)} :: id in log.events && id.of.sequence > 1 ==> HasPredecessor(log, id)
  }

  ghost predicate Causal(log: Log) {
    forall id :: id in log.events ==> CausallyBelow(log, id)
  }

  ghost predicate Authored(log: Log) {
    forall id {:trigger Known(log, id.of.origin)} :: id in log.events ==> Known(log, id.of.origin)
  }

  // ---- the projections -----------------------------------------------------

  predicate Admits(id: EventId, m: NodeId) { id.of.body.MemberBody? && id.of.body.member.id == m }
  predicate Removes(id: EventId, m: NodeId) { id.of.body == RemoveBody(m) }
  predicate Edits(id: EventId, k: string) { id.of.body.CatalogBody? && id.of.body.item.id == k }
  predicate Deletes(id: EventId, k: string) { Edits(id, k) && id.of.body.remove }
  predicate Submits(id: EventId, c: CommandId) { id.of.body.CommandBody? && id.of.body.command.id == c }
  predicate Reports(id: EventId, c: CommandId) { id.of.body.ReceiptBody? && id.of.body.receipt.commandId == c }
  predicate Observes(id: EventId, m: NodeId) { id.of.body.InventoryBody? && id.of.origin == m }
  predicate Binds(id: EventId, m: NodeId, legacy: string) {
    id.of.body == AliasBody(m, legacy) || (Admits(id, m) && id.of.body.member.legacyId == legacy)
  }

  /** A member row is the member its admission carries; only the legacy ID may be bound later. */
  predicate SameMember(admitted: Member, member: Member) {
    && member.id == admitted.id && member.publicKey == admitted.publicKey
    && member.encryptionKey == admitted.encryptionKey && member.hostname == admitted.hostname
  }

  ghost predicate MembersSound(log: Log) {
    && (forall m :: m in log.members ==>
          && log.members[m].admission in log.events && Admits(log.members[m].admission, m)
          && SameMember(log.members[m].admission.of.body.member, log.members[m].member)
          && WellFormedMember(log.members[m].member) && log.members[m].member.id == m
          && (log.members[m].removed <==> m in log.removals))
    && (forall id :: id in log.events && id.of.body.MemberBody? ==> id.of.body.member.id in log.members)
  }

  ghost predicate LegacySound(log: Log) {
    && (forall m :: m in log.members ==> exists id :: id in log.events && Binds(id, m, log.members[m].member.legacyId))
    && (forall id :: id in log.events && id.of.body.AliasBody? && id.of.body.legacyId != "" ==>
          && id.of.body.memberId in log.members
          && log.members[id.of.body.memberId].member.legacyId == id.of.body.legacyId)
  }

  /** A database with any event in it holds the one its founder admitted itself with. */
  ghost predicate Founded(log: Log) {
    log.events != map[] ==> exists id :: id in log.events && Genesis(id.of)
  }

  ghost predicate RemovalsSound(log: Log) {
    && (forall m :: m in log.removals ==> exists id :: id in log.events && Removes(id, m))
    && (forall id :: id in log.events && id.of.body.RemoveBody? ==> id.of.body.removedId in log.removals)
  }

  ghost predicate CatalogRows(log: Log) {
    forall k :: k in log.catalog ==>
      var row := log.catalog[k];
      && row.event in log.events && Edits(row.event, k) && row.item == row.event.of.body.item
      && row.rank == RankOf(row.event)
  }

  ghost predicate CatalogEvents(log: Log) {
    forall id :: id in log.events && id.of.body.CatalogBody? ==>
      var k := id.of.body.item.id;
      && k in log.catalog && !RankLess(log.catalog[k].rank, RankOf(id))
      && (id.of.body.remove ==> log.catalog[k].removed)
  }

  ghost predicate DeletionsSound(log: Log) {
    forall k :: k in log.catalog && log.catalog[k].removed ==> exists id :: id in log.events && Deletes(id, k)
  }

  ghost predicate CommandRows(log: Log) {
    forall c :: c in log.commands ==>
      var row := log.commands[c];
      && row.event in log.events && Submits(row.event, c) && row.event.of.body.command == row.command
      && row.command.target in log.members && WellFormedCommand(log.fleet, row.command)
  }

  ghost predicate CommandEvents(log: Log) {
    forall id :: id in log.events && id.of.body.CommandBody? ==>
      var c := id.of.body.command;
      c.id in log.commands && log.commands[c.id].command == c
  }

  ghost predicate ReceiptRows(log: Log) {
    forall c :: c in log.receipts ==>
      var row := log.receipts[c];
      && row.event in log.events && Reports(row.event, c) && row.event.of.body.receipt == row.receipt
      && row.sequence == row.event.of.sequence
  }

  ghost predicate ReceiptEvents(log: Log) {
    forall id :: id in log.events && id.of.body.ReceiptBody? ==>
      var r := id.of.body.receipt;
      && r.commandId in log.commands && log.commands[r.commandId].command.target == id.of.origin == r.target
      && !r.status.OtherStatus?
      && r.commandId in log.receipts && id.of.sequence <= log.receipts[r.commandId].sequence
      && (Terminal(r.status) ==> log.receipts[r.commandId].event == id)
  }

  ghost predicate InventoryRows(log: Log) {
    forall m :: m in log.inventory ==>
      exists id :: id in log.events && Observes(id, m) && id.of.sequence == log.inventory[m].sequence
                && id.of.body.observation == log.inventory[m].observation
  }

  ghost predicate InventoryEvents(log: Log) {
    forall id :: id in log.events && id.of.body.InventoryBody? ==>
      id.of.origin in log.inventory && id.of.sequence <= log.inventory[id.of.origin].sequence
  }

  ghost predicate ImportsSound(log: Log) {
    && (forall id :: id in log.imports ==> id in log.events && id.of.body == ImportBody(log.imports[id]))
    && (forall id :: id in log.events && id.of.body.ImportBody? ==> id in log.imports)
  }

  ghost predicate ChainValid(log: Log) {
    Authentic(log) && Unforked(log) && Chained(log) && Causal(log)
  }

  ghost predicate MembershipValid(log: Log) {
    Authored(log) && MembersSound(log) && LegacySound(log) && RemovalsSound(log) && Founded(log)
  }

  ghost predicate TablesValid(log: Log) {
    && CatalogRows(log) && CatalogEvents(log) && DeletionsSound(log) && CommandRows(log) && CommandEvents(log)
    && ReceiptRows(log) && ReceiptEvents(log) && InventoryRows(log) && InventoryEvents(log) && ImportsSound(log)
  }

  ghost predicate Valid(log: Log) {
    ChainValid(log) && MembershipValid(log) && TablesValid(log)
  }

  lemma EmptyValid(fleet: string)
    ensures Valid(EmptyLog(fleet))
  {
  }

  // ---- preservation -----------------------------------------------------------

  /** The event under `id` is new to the log and passes every check. */
  ghost predicate Admissible(log: Log, id: EventId) {
    && Verify(Signed(id.of), log.fleet).None? && id !in log.events
    && Gate(log, id).None? && Refusal(log, id.of).None?
  }

  /** `next` holds one event more than `log`. */
  ghost predicate Adds(log: Log, id: EventId, next: Log) {
    && next.fleet == log.fleet && id !in log.events
    && (forall x :: x in next.events <==> x in log.events || x == id)
  }

  lemma InsertCases(log: Log, e: Event)
    requires Insert(log, e).Ok?
    ensures e == Signed(e.id.of)
    ensures e.id in log.events ==> Insert(log, e).value == log
    ensures e.id !in log.events ==> Admissible(log, e.id) && Insert(log, e).value == With(log, e)
  {
  }

  lemma AddsUnforked(log: Log, id: EventId, next: Log)
    requires Unforked(log) && Adds(log, id, next) && id.of.sequence > LastSequence(log, id.of.origin)
    ensures Unforked(next)
  {
  }

  lemma AddsChained(log: Log, id: EventId, next: Log)
    requires Chained(log) && Adds(log, id, next)
    requires id.of.sequence > 1 ==> HasPredecessor(log, id)
    ensures Chained(next)
  {
    forall x | x in next.events && x.of.sequence > 1
      ensures HasPredecessor(next, x)
    {
      assert HasPredecessor(log, x);
      var p :| p in log.events && Precedes(p, x);
      assert p in next.events;
    }
  }

  lemma AddsCausal(log: Log, id: EventId, next: Log)
    requires Causal(log) && Adds(log, id, next) && CausallyBelow(log, id)
    ensures Causal(next)
  {
    forall x | x in next.events ensures CausallyBelow(next, x) {
      assert CausallyBelow(log, x);
    }
  }

  lemma AddsAuthentic(log: Log, id: EventId, next: Log)
    requires Authentic(log) && Adds(log, id, next) && Verify(Signed(id.of), log.fleet).None?
    requires next.events == log.events[id := Signed(id.of)]
    ensures Authentic(next)
  {
  }

  lemma AddsAuthored(log: Log, id: EventId, next: Log)
    requires Authored(log) && Adds(log, id, next) && next.members == MembersAfter(log, id)
    requires (Known(log, id.of.origin) || Genesis(id.of)) && Refusal(log, id.of).None?
    ensures Authored(next)
  {
    forall x | x in next.events ensures Known(next, x.of.origin) { assert x != id ==> Known(log, x.of.origin); }
  }

  lemma AddsRemovals(log: Log, id: EventId, next: Log)
    requires RemovalsSound(log) && Adds(log, id, next) && next.removals == RemovalsAfter(log, id)
    ensures RemovalsSound(next)
  {
    forall m | m in next.removals
      ensures exists x :: x in next.events && Removes(x, m)
    {
      if m in log.removals {
        var x :| x in log.events && Removes(x, m);
        assert x in next.events;
      } else {
        assert id in next.events && Removes(id, m);
      }
    }
  }

  lemma AddsMembers(log: Log, id: EventId, next: Log)
    requires MembersSound(log) && Adds(log, id, next) && Refusal(log, id.of).None?
    requires next.members == MembersAfter(log, id) && next.removals == RemovalsAfter(log, id)
    ensures MembersSound(next)
  {
    MemberFormed(log, id);
    hide WellFormedMember, Refusal;
  }

  lemma MemberFormed(log: Log, id: EventId)
    requires Refusal(log, id.of).None?
    ensures id.of.body.MemberBody? ==> WellFormedMember(id.of.body.member)
    ensures forall m: Member, legacy :: WellFormedMember(m) ==> WellFormedMember(m.(legacyId := legacy))
  {
  }

  lemma AddsFounded(log: Log, id: EventId, next: Log)
    requires Founded(log) && MembersSound(log) && Adds(log, id, next) && (Known(log, id.of.origin) || Genesis(id.of))
    ensures Founded(next)
  {
    hide Genesis, WellFormedMember, SameMember;
    assert id in next.events;
    if !Genesis(id.of) {
      assert log.members[id.of.origin].admission in log.events;
      var x :| x in log.events && Genesis(x.of);
      assert x in next.events;
    }
  }

  lemma AddsLegacy(log: Log, id: EventId, next: Log)
    requires LegacySound(log) && Adds(log, id, next) && next.members == MembersAfter(log, id)
    requires Refusal(log, id.of).None?
    ensures LegacySound(next)
  {
    forall x | x in next.events && x.of.body.AliasBody? && x.of.body.legacyId != ""
      ensures x.of.body.memberId in next.members
      ensures next.members[x.of.body.memberId].member.legacyId == x.of.body.legacyId
    {
    }
    hide Refusal;
    forall m | m in next.members
      ensures exists x :: x in next.events && Binds(x, m, next.members[m].member.legacyId)
    {
      if m in log.members && log.members[m].member.legacyId == next.members[m].member.legacyId {
        var x :| x in log.events && Binds(x, m, log.members[m].member.legacyId);
        assert x in next.events;
      } else {
        assert id in next.events && Binds(id, m, next.members[m].member.legacyId);
      }
    }
  }

  lemma AddsDeletions(log: Log, id: EventId, next: Log)
    requires DeletionsSound(log) && Adds(log, id, next) && next.catalog == CatalogAfter(log, id)
    ensures DeletionsSound(next)
  {
    hide RankLess;
    forall k | k in next.catalog && next.catalog[k].removed
      ensures exists x :: x in next.events && Deletes(x, k)
    {
      if k in log.catalog && log.catalog[k].removed {
        var x :| x in log.events && Deletes(x, k);
        assert x in next.events;
      } else {
        assert id in next.events && Deletes(id, k);
      }
    }
  }

  /** An upsert keeps the greater of the two ranks. */
  lemma UpsertRank(row: CatalogRow, edit: CatalogRow, r: Rank)
    requires !RankLess(row.rank, r) || r == edit.rank
    ensures !RankLess(UpsertCatalog(Some(row), edit).rank, r)
  {
    RankTotal(row.rank, edit.rank);
    RankTotal(edit.rank, edit.rank);
    if RankLess(row.rank, edit.rank) && RankLess(edit.rank, r) {
      RankTransitive(row.rank, edit.rank, r);
    }
  }

  lemma AddsCatalogRows(log: Log, id: EventId, next: Log)
    requires CatalogRows(log) && Adds(log, id, next) && next.catalog == CatalogAfter(log, id)
    ensures CatalogRows(next)
  {
    hide RankLess;
  }

  lemma AddsCatalogEvents(log: Log, id: EventId, next: Log)
    requires CatalogEvents(log) && Adds(log, id, next) && next.catalog == CatalogAfter(log, id)
    ensures CatalogEvents(next)
  {
    forall x | x in next.events && x.of.body.CatalogBody?
      ensures !RankLess(next.catalog[x.of.body.item.id].rank, RankOf(x))
    {
      var k := x.of.body.item.id;
      RankTotal(RankOf(id), RankOf(id));
      if Edits(id, k) && k in log.catalog {
        UpsertRank(log.catalog[k], CatalogRow(id, RankOf(id), id.of.body.item, id.of.body.remove), RankOf(x));
      }
    }
    hide RankLess;
  }

  lemma AddsCommandRows(log: Log, id: EventId, next: Log)
    requires CommandRows(log) && Adds(log, id, next) && next.commands == CommandsAfter(log, id)
    requires next.members.Keys >= log.members.Keys && Refusal(log, id.of).None?
    ensures CommandRows(next)
  {
    hide WellFormedCommand;
  }

  lemma AddsCommandEvents(log: Log, id: EventId, next: Log)
    requires CommandEvents(log) && Adds(log, id, next) && next.commands == CommandsAfter(log, id)
    requires Refusal(log, id.of).None?
    ensures CommandEvents(next)
  {
    hide WellFormedCommand;
  }

  lemma AddsReceiptRows(log: Log, id: EventId, next: Log)
    requires ReceiptRows(log) && Adds(log, id, next) && next.receipts == ReceiptsAfter(log, id)
    ensures ReceiptRows(next)
  {
  }

  /** Earlier receipts for the command of an admitted one have its origin, a smaller sequence and an open status. */
  lemma EarlierReceipts(log: Log, id: EventId, x: EventId)
    requires ReceiptRows(log) && ReceiptEvents(log) && Refusal(log, id.of).None?
    requires id.of.sequence > LastSequence(log, id.of.origin)
    requires id.of.body.ReceiptBody? && x in log.events && Reports(x, id.of.body.receipt.commandId)
    ensures x.of.sequence < id.of.sequence && !Terminal(x.of.body.receipt.status)
  {
    assert x.of.origin == id.of.origin;
  }

  lemma AddsReceiptEvents(log: Log, id: EventId, next: Log)
    requires ReceiptRows(log) && ReceiptEvents(log) && Adds(log, id, next) && next.receipts == ReceiptsAfter(log, id)
    requires forall c :: c in log.commands ==> c in next.commands && next.commands[c] == log.commands[c]
    requires id.of.sequence > LastSequence(log, id.of.origin) && Refusal(log, id.of).None?
    ensures ReceiptEvents(next)
  {
    hide LastSequence;
    if id.of.body.ReceiptBody? {
      forall x | x in log.events && Reports(x, id.of.body.receipt.commandId)
        ensures x.of.sequence < id.of.sequence && !Terminal(x.of.body.receipt.status)
      {
        EarlierReceipts(log, id, x);
      }
    }
    hide ReceiptRows;
  }

  lemma AddsInventoryRows(log: Log, id: EventId, next: Log)
    requires InventoryRows(log) && Adds(log, id, next) && next.inventory == InventoryAfter(log, id)
    ensures InventoryRows(next)
  {
    forall m | m in next.inventory
      ensures exists x :: x in next.events && Observes(x, m) && x.of.sequence == next.inventory[m].sequence
                        && x.of.body.observation == next.inventory[m].observation
    {
      if m in log.inventory && next.inventory[m] == log.inventory[m] {
        var x :| x in log.events && Observes(x, m) && x.of.sequence == log.inventory[m].sequence
                 && x.of.body.observation == log.inventory[m].observation;
        assert x in next.events;
      } else {
        assert id in next.events && Observes(id, m);
      }
    }
  }

  lemma AddsInventoryEvents(log: Log, id: EventId, next: Log)
    requires InventoryEvents(log) && Adds(log, id, next) && next.inventory == InventoryAfter(log, id)
    ensures InventoryEvents(next)
  {
  }

  lemma AddsImports(log: Log, id: EventId, next: Log)
    requires ImportsSound(log) && Adds(log, id, next) && next.imports == ImportsAfter(log, id)
    ensures ImportsSound(next)
  {
  }

  lemma GateFacts(log: Log, id: EventId)
    requires Gate(log, id).None?
    ensures id.of.sequence > LastSequence(log, id.of.origin) && CausallyBelow(log, id)
    ensures id.of.sequence > 1 ==> HasPredecessor(log, id)
    ensures Known(log, id.of.origin) || Genesis(id.of)
  {
  }

  /** No projection ever drops a member or changes a command. */
  lemma TablesGrow(log: Log, id: EventId, next: Log)
    requires next.members == MembersAfter(log, id) && next.commands == CommandsAfter(log, id)
    ensures next.members.Keys >= log.members.Keys
    ensures forall c :: c in log.commands ==> c in next.commands && next.commands[c] == log.commands[c]
  {
  }

  lemma AddsChain(log: Log, id: EventId, next: Log)
    requires ChainValid(log) && Verify(Signed(id.of), log.fleet).None? && Adds(log, id, next) && Gate(log, id).None?
    requires next.events == log.events[id := Signed(id.of)]
    ensures ChainValid(next)
  {
    hide Gate, Authentic, Unforked, Chained, Causal, Precedes, CausallyBelow, LastSequence, Verify, Genesis, Known,
      Adds, Signed;
    GateFacts(log, id);
    AddsAuthentic(log, id, next);
    AddsUnforked(log, id, next);
    AddsChained(log, id, next);
    AddsCausal(log, id, next);
  }

  lemma AddsMembership(log: Log, id: EventId, next: Log)
    requires MembershipValid(log) && Adds(log, id, next) && Gate(log, id).None? && Refusal(log, id.of).None?
    requires next.members == MembersAfter(log, id) && next.removals == RemovalsAfter(log, id)
    ensures MembershipValid(next)
  {
    hide Gate, Refusal, Authored, MembersSound, RemovalsSound, LegacySound, Founded, MembersAfter, RemovalsAfter, Known,
      Genesis, Adds, HasPredecessor, CausallyBelow, LastSequence;
    GateFacts(log, id);
    AddsAuthored(log, id, next);
    AddsRemovals(log, id, next);
    AddsMembers(log, id, next);
    AddsLegacy(log, id, next);
    AddsFounded(log, id, next);
  }

  lemma AddsTables(log: Log, id: EventId, next: Log)
    requires TablesValid(log) && Adds(log, id, next) && Gate(log, id).None? && Refusal(log, id.of).None?
    requires next == With(log, Signed(id.of))
    ensures TablesValid(next)
  {
    hide Gate, Refusal, CatalogRows, CatalogEvents, DeletionsSound, CommandRows, CommandEvents, ReceiptRows,
      ReceiptEvents, InventoryRows, InventoryEvents, ImportsSound, MembersAfter, RemovalsAfter, CatalogAfter,
      CommandsAfter, ReceiptsAfter, InventoryAfter, ImportsAfter, Known, Genesis, Adds, HasPredecessor, CausallyBelow,
      LastSequence;
    GateFacts(log, id);
    TablesGrow(log, id, next);
    AddsCatalogRows(log, id, next);
    AddsCatalogEvents(log, id, next);
    AddsDeletions(log, id, next);
    AddsCommandRows(log, id, next);
    AddsCommandEvents(log, id, next);
    AddsReceiptRows(log, id, next);
    AddsReceiptEvents(log, id, next);
    AddsInventoryRows(log, id, next);
    AddsInventoryEvents(log, id, next);
    AddsImports(log, id, next);
  }

  lemma AdmissibleKeepsValid(log: Log, id: EventId, next: Log)
    requires Valid(log) && Admissible(log, id) && next == With(log, Signed(id.of))
    ensures Valid(next) && Adds(log, id, next)
  {
    hide ChainValid, MembershipValid, TablesValid, Gate, Refusal, Verify, MembersAfter, RemovalsAfter, CatalogAfter,
      CommandsAfter, ReceiptsAfter, InventoryAfter, ImportsAfter;
    AddsChain(log, id, next);
    AddsMembership(log, id, next);
    AddsTables(log, id, next);
  }

  /** Every admission, of any event by anyone, keeps the invariant and adds exactly that event. */
  lemma {:induction false} InsertKeepsValid(log: Log, e: Event)
    requires Valid(log) && Insert(log, e).Ok?
    ensures Valid(Insert(log, e).value)
    ensures Insert(log, e).value.events.Keys == log.events.Keys + {e.id} && Insert(log, e).value.fleet == log.fleet
  {
    hide Valid, Admissible, Gate, Refusal, Verify, With;
    InsertCases(log, e);
    if e.id !in log.events {
      AdmissibleKeepsValid(log, e.id, With(log, e));
    }
  }

  /** An ingested batch is committed whole or not at all, and a committed one keeps the invariant. */
  lemma {:induction false} InsertAllKeepsValid(log: Log, events: seq<Event>)
    requires Valid(log) && InsertAll(log, events).Ok?
    ensures Valid(InsertAll(log, events).value) && InsertAll(log, events).value.fleet == log.fleet
    ensures InsertAll(log, events).value.events.Keys == log.events.Keys + set e | e in events :: e.id
    decreases |events|
  {
    hide Valid, Insert;
    if events != [] {
      InsertKeepsValid(log, events[0]);
      InsertAllKeepsValid(Insert(log, events[0]).value, events[1..]);
      assert forall e :: e in events <==> e == events[0] || e in events[1..];
    }
  }
}
