/**
 Order-independence and agreement, with no assumption about who made the
 events: `Replica` is any database reached by any batches, refused or not, in
 any order (a local append is a batch of one).
 */
module Convergence {
  import opened Records
  import opened Ordering
  import opened Admission
  import opened LogInvariant

  /** One transaction of `Ingest`: the whole batch, or no change. */
  ghost function AfterBatch(log: Log, batch: seq<Event>): Log {
    if Ingest(log, batch).Ok? then Ingest(log, batch).value else log
  }

  ghost function Replica(fleet: string, batches: seq<seq<Event>>): Log
    decreases |batches|
  {
    if batches == [] then EmptyLog(fleet)
    else AfterBatch(Replica(fleet, batches[..|batches| - 1]), batches[|batches| - 1])
  }

  lemma {:induction false} ReplicaValid(fleet: string, batches: seq<seq<Event>>)
    ensures Valid(Replica(fleet, batches)) && Replica(fleet, batches).fleet == fleet
    decreases |batches|
  {
    hide Valid, InsertAll;
    if batches == [] {
      EmptyValid(fleet);
    } else {
      var log := Replica(fleet, batches[..|batches| - 1]);
      ReplicaValid(fleet, batches[..|batches| - 1]);
      if Ingest(log, batches[|batches| - 1]).Ok? {
        InsertAllKeepsValid(log, batches[|batches| - 1]);
      }
    }
  }

  // ---- order-independence -------------------------------------------------

  ghost predicate SameEvents(a: Log, b: Log) { a.fleet == b.fleet && forall id :: id in a.events <==> id in b.events }

  /** Members agree up to the columns that keep the first arrival. */
  ghost predicate SameMembership(a: Log, b: Log) {
    && (forall m :: m in a.members <==> m in b.members)
    && (forall m :: m in a.members && m in b.members ==> (a.members[m].removed <==> b.members[m].removed))
    && (forall m :: m in a.removals <==> m in b.removals)
  }

  ghost predicate SameCommands(a: Log, b: Log) {
    && (forall c :: c in a.commands <==> c in b.commands)
    && (forall c :: c in a.commands && c in b.commands ==> a.commands[c].command == b.commands[c].command)
  }

  lemma MembershipConverges(a: Log, b: Log)
    requires MembershipValid(a) && MembershipValid(b) && SameEvents(a, b)
    ensures SameMembership(a, b)
  {
    hide Authored, LegacySound;
    forall m ensures m in a.removals <==> m in b.removals {
      if m in a.removals { var id :| id in a.events && Removes(id, m); assert id in b.events; }
      if m in b.removals { var id :| id in b.events && Removes(id, m); assert id in a.events; }
    }
    forall m ensures m in a.members <==> m in b.members {
      if m in a.members { assert a.members[m].admission in b.events; }
      if m in b.members { assert b.members[m].admission in a.events; }
    }
  }

  lemma CatalogConverges(a: Log, b: Log)
    requires Unforked(a) && CatalogRows(a) && CatalogEvents(a) && DeletionsSound(a)
    requires CatalogRows(b) && CatalogEvents(b) && DeletionsSound(b) && SameEvents(a, b)
    ensures a.catalog == b.catalog
  {
    forall k ensures k in a.catalog <==> k in b.catalog {
      if k in a.catalog { assert a.catalog[k].event in b.events; }
      if k in b.catalog { assert b.catalog[k].event in a.events; }
    }
    forall k | k in a.catalog && k in b.catalog ensures a.catalog[k] == b.catalog[k] {
      CatalogRowConverges(a, b, k);
    }
  }

  /** Both rows come from the edit of the greatest rank, and ranks do not tie. */
  lemma CatalogEditConverges(a: Log, b: Log, k: string)
    requires Unforked(a) && CatalogRows(a) && CatalogEvents(a) && CatalogRows(b) && CatalogEvents(b) && SameEvents(a, b)
    requires k in a.catalog && k in b.catalog
    ensures a.catalog[k].(removed := b.catalog[k].removed) == b.catalog[k]
  {
    var x, y := a.catalog[k].event, b.catalog[k].event;
    assert x in b.events && y in a.events;
    assert RankOf(x) == RankOf(y) by { RankTotal(RankOf(x), RankOf(y)); }
    hide RankLess;
    assert x == y;
  }

  /** A deletion held here is held there. */
  lemma DeletionConverges(a: Log, b: Log, k: string)
    requires DeletionsSound(a) && CatalogEvents(b) && SameEvents(a, b) && k in a.catalog && k in b.catalog
    ensures a.catalog[k].removed ==> b.catalog[k].removed
  {
    hide RankLess;
    if a.catalog[k].removed { var d :| d in a.events && Deletes(d, k); assert d in b.events; }
  }

  lemma CatalogRowConverges(a: Log, b: Log, k: string)
    requires Unforked(a) && CatalogRows(a) && CatalogEvents(a) && DeletionsSound(a)
    requires CatalogRows(b) && CatalogEvents(b) && DeletionsSound(b) && SameEvents(a, b)
    requires k in a.catalog && k in b.catalog
    ensures a.catalog[k] == b.catalog[k]
  {
    hide CatalogRows, CatalogEvents, DeletionsSound, Unforked;
    CatalogEditConverges(a, b, k);
    DeletionConverges(a, b, k);
    DeletionConverges(b, a, k);
  }

  lemma CommandsConverge(a: Log, b: Log)
    requires CommandRows(a) && CommandEvents(a) && CommandRows(b) && CommandEvents(b) && SameEvents(a, b)
    ensures SameCommands(a, b)
  {
    hide WellFormedCommand;
    forall c ensures c in a.commands <==> c in b.commands {
      if c in a.commands { assert a.commands[c].event in b.events; }
      if c in b.commands { assert b.commands[c].event in a.events; }
    }
    forall c | c in a.commands && c in b.commands ensures a.commands[c].command == b.commands[c].command {
      assert a.commands[c].event in b.events;
    }
  }

  lemma ReceiptsConverge(a: Log, b: Log)
    requires Unforked(a) && ReceiptRows(a) && ReceiptEvents(a) && ReceiptRows(b) && ReceiptEvents(b)
    requires SameCommands(a, b) && SameEvents(a, b)
    ensures a.receipts == b.receipts
  {
    hide Unforked;
    forall c ensures c in a.receipts <==> c in b.receipts {
      if c in a.receipts { assert a.receipts[c].event in b.events; }
      if c in b.receipts { assert b.receipts[c].event in a.events; }
    }
    forall c | c in a.receipts && c in b.receipts ensures a.receipts[c] == b.receipts[c] {
      ReceiptConverges(a, b, c);
    }
  }

  lemma ReceiptConverges(a: Log, b: Log, c: CommandId)
    requires Unforked(a) && ReceiptRows(a) && ReceiptEvents(a) && ReceiptRows(b) && ReceiptEvents(b)
    requires SameCommands(a, b) && SameEvents(a, b) && c in a.receipts && c in b.receipts
    ensures a.receipts[c] == b.receipts[c]
  {
    // Both rows name the latest of the same target's receipts, and the target's sequence has no ties.
    var x, y := a.receipts[c].event, b.receipts[c].event;
    assert x in b.events && y in a.events;
    assert x.of.sequence == y.of.sequence && x.of.origin == y.of.origin;
    assert x == y;
  }

  lemma LatestObservation(log: Log, m: NodeId) returns (x: EventId)
    requires InventoryRows(log) && m in log.inventory
    ensures x in log.events && Observes(x, m)
    ensures log.inventory[m] == InventoryRow(x.of.sequence, x.of.body.observation)
  {
    x :| x in log.events && Observes(x, m) && x.of.sequence == log.inventory[m].sequence
         && x.of.body.observation == log.inventory[m].observation;
  }

  lemma InventoryConverges(a: Log, b: Log)
    requires Unforked(a) && InventoryRows(a) && InventoryEvents(a) && InventoryRows(b) && InventoryEvents(b)
    requires SameEvents(a, b)
    ensures a.inventory == b.inventory
  {
    hide InventoryRows;
    forall m
      ensures m in a.inventory <==> m in b.inventory
      ensures m in a.inventory && m in b.inventory ==> a.inventory[m] == b.inventory[m]
    {
      if m in a.inventory { var x := LatestObservation(a, m); assert x in b.events; }
      if m in b.inventory { var y := LatestObservation(b, m); assert y in a.events; }
      if m in a.inventory && m in b.inventory {
        var x := LatestObservation(a, m);
        var y := LatestObservation(b, m);
        assert x in b.events && y in a.events;
        assert x == y;
      }
    }
  }

  lemma ImportsConverge(a: Log, b: Log)
    requires ImportsSound(a) && ImportsSound(b) && SameEvents(a, b)
    ensures a.imports == b.imports
  {
    assert forall id :: id in a.imports <==> id in b.imports;
  }

  lemma CursorsConverge(a: Log, b: Log, origin: NodeId)
    requires SameEvents(a, b)
    ensures LastSequence(a, origin) == LastSequence(b, origin)
  {
  }

  ghost predicate Converged(a: Log, b: Log) {
    && SameMembership(a, b) && SameCommands(a, b)
    && a.catalog == b.catalog && a.receipts == b.receipts && a.inventory == b.inventory && a.imports == b.imports
    && forall origin :: LastSequence(a, origin) == LastSequence(b, origin)
  }

  lemma {:induction false} SameEventsConverge(a: Log, b: Log)
    requires Valid(a) && Valid(b) && SameEvents(a, b)
    ensures Converged(a, b)
  {
    hide MembershipValid, Unforked, CatalogRows, CatalogEvents, DeletionsSound, CommandRows, CommandEvents,
      ReceiptRows, ReceiptEvents, InventoryRows, InventoryEvents, ImportsSound, SameMembership, SameCommands,
      SameEvents, LastSequence, Authentic, Chained, Causal;
    MembershipConverges(a, b);
    CatalogConverges(a, b);
    CommandsConverge(a, b);
    ReceiptsConverge(a, b);
    InventoryConverges(a, b);
    ImportsConverge(a, b);
    forall origin ensures LastSequence(a, origin) == LastSequence(b, origin) {
      CursorsConverge(a, b, origin);
    }
  }

  /** Two databases holding the same events agree, whatever the orders, batchings and refusals that led to them. */
  lemma {:induction false} OrderIndependence(fleet: string, left: seq<seq<Event>>, right: seq<seq<Event>>)
    requires SameEvents(Replica(fleet, left), Replica(fleet, right))
    ensures Converged(Replica(fleet, left), Replica(fleet, right))
  {
    hide Valid, Converged, SameEvents, Replica;
    ReplicaValid(fleet, left);
    ReplicaValid(fleet, right);
    SameEventsConverge(Replica(fleet, left), Replica(fleet, right));
  }
}
