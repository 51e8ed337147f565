/**
 Two stores exchanging events (node.go, enrollment.go, recovery.go): the join
 loop, the rounds of a synchronisation, and the replay of a backup.  The ghost
 world is where all events come from; neither node ever sees it.
 */
module Peers {
  import opened Records
  import opened Admission
  import opened LogInvariant
  import opened Convergence
  import opened World
  import opened Exchange
  import opened Journal
  import opened Database
  import opened System
  import opened SystemSteps
  import opened Restore
  import opened PeerSteps
  import opened DeliverySteps
  import opened Outputs
  import StoreLoops

  /** `Active(self)` and `Active(peer)`, as each side of a request checks them. */
  predicate BothActive(here: Log, self: NodeId, other: NodeId) { Active(here, self) && Active(here, other) }

  // ---- joining ----------------------------------------------------------------

  /**
   The pull loop of `Join`.  Against a peer that stands still it ends, and the joiner then has the peer's whole log on
   top of its own, and nothing of its own journal changed.
   */
  method PullAll(joiner: Store, peer: Store, rowLength: Event -> nat, here: int, there: int, ghost w: World)
    returns (error: Option<Rejection>)
    requires joiner != peer && joiner.Sound() && peer.Sound()
    requires Inv(w) && Cut(w, joiner.Log()) && Cut(w, peer.Log())
    modifies joiner
    ensures joiner.Sound() && Cut(w, joiner.Log()) && Covers(joiner.Log(), old(joiner.Log()))
    ensures forall id :: id in joiner.events ==> id in old(joiner.events) || id in peer.events
    ensures error.None? ==> Covers(joiner.Log(), peer.Log())
    ensures Peaceful(w) ==> error.None?
    ensures joiner.inbox == old(joiner.inbox) && joiner.submissions == old(joiner.submissions)
    ensures joiner.replicas == old(joiner.replicas)
  {
    hide Inv, Cut, Valid, NoConflicts, OutputsFinal, AttachedFrom, GoodBlob, BlobsSound, InsertAll, IsExport,
      ExactCursors, AtMost, Covers, Gap;
    CoversSelf(joiner.Log());
    while true
      invariant joiner.Sound() && Cut(w, joiner.Log()) && Covers(joiner.Log(), old(joiner.Log()))
      invariant forall id :: id in joiner.events ==> id in old(joiner.events) || id in peer.events
      invariant joiner.inbox == old(joiner.inbox) && joiner.submissions == old(joiner.submissions)
      invariant joiner.replicas == old(joiner.replicas)
      decreases Gap(peer.Log(), joiner.Log())
    {
      var cursors := joiner.Cursors();
      var batch, outs := peer.Export(cursors, MAX_BATCH, rowLength, there);
      ExactAtMost(joiner.Log(), cursors);
      BatchFacts(w, peer.Log(), joiner.Log(), cursors, rowLength, batch);
      if batch == [] { return None; }
      ghost var before := joiner.Log();
      EnvelopeGood(w, before, batch, peer.outputs, outs);
      var result := joiner.Ingest(batch, outs, here);
      if result.Err? { return Some(result.error); }
      BatchMoves(w, peer.Log(), before, batch);
      BatchProgress(w, peer.Log(), before, cursors, rowLength, batch, 1);
      CoversTransitive(joiner.Log(), before, old(joiner.Log()));
    }
  }

  /**
   `Join` after approval: adopt the fleet unless it is known, pull everything, and check that the admission arrived.
   What the joiner may hold already, from an earlier attempt, is history of the same fleet.  Without conflicting records
   joining succeeds exactly when this identity is then admitted and not removed; a joiner that held nothing the peer
   lacks ends with the peer's events and tables.
   */
  method Join(joiner: Store, peer: Store, fleet: string, rowLength: Event -> nat, here: int, there: int, ghost w: World)
    returns (error: Option<Rejection>)
    requires joiner != peer && joiner.Sound() && peer.Sound() && Inv(w) && Cut(w, peer.Log())
    requires Cut(w, joiner.Log().(fleet := w.fleet))
    modifies joiner
    ensures joiner.Sound()
    ensures joiner.inbox == old(joiner.inbox) && joiner.submissions == old(joiner.submissions)
    ensures if old(joiner.fleet) !in {"", fleet} || peer.fleet != fleet then
              error == Some(OtherFleet) && joiner.State() == old(joiner.State())
            else if old(joiner.fleet) == "" && old(joiner.stored).Some? then
              error == Some(AlreadyInitialized) && joiner.events == old(joiner.events)
            else
              && Cut(w, joiner.Log())
              && (forall id :: id in old(joiner.events) ==> id in joiner.events)
              && (forall id :: id in joiner.events ==> id in old(joiner.events) || id in peer.events)
              && (error.None? ==> Covers(joiner.Log(), peer.Log()) && Active(joiner.Log(), joiner.self))
              && (Peaceful(w) ==>
                    && Covers(joiner.Log(), peer.Log())
                    && error == (if Active(joiner.Log(), joiner.self) then None else Some(Inactive)))
              && (Peaceful(w) && (forall id :: id in old(joiner.events) ==> id in peer.events) ==>
                    && SameEvents(joiner.Log(), peer.Log()) && Converged(joiner.Log(), peer.Log())
                    && error == (if Active(peer.Log(), joiner.self) then None else Some(Inactive)))
  {
    hide Inv, Cut, Valid, NoConflicts, Covers, SameEvents, Converged, Active, StoreLoops.WellKeyed;
    if joiner.fleet != "" && joiner.fleet != fleet { return Some(OtherFleet); }
    if peer.fleet != fleet { return Some(OtherFleet); }
    FleetOfCut(w, peer.Log());
    ghost var start := joiner.Log().(fleet := w.fleet);
    StoreLoops.SameKeys(joiner.Log(), start);
    if joiner.fleet == "" {
      joiner.fleet := fleet;
      if joiner.stored.Some? { return Some(AlreadyInitialized); }
      joiner.stored := Some(fleet);
    }
    error := PullAll(joiner, peer, rowLength, here, there, w);
    CoversAll(joiner.Log(), start);
    if error.None? {
      if forall id :: id in start.events ==> id in peer.events {
        SameAsPeer(w, joiner.Log(), peer.Log(), joiner.self);
      }
      if !Active(joiner.Log(), joiner.self) { error := Some(Inactive); }
    }
  }

  // ---- restoring ----------------------------------------------------------------

  /** The bodies of the blobs that have not expired. */
  function Unexpired(blobs: Blobs, now: int): map<OutputHash, seq<Byte>> {
    map h | h in blobs && blobs[h].expires > now :: blobs[h].body
  }

  /** The last loop of `RestoreHistory`: each unexpired blob, one transaction each. */
  method RestoreBlobs(restored: Store, blobs: Blobs, now: int) returns (error: Option<Rejection>)
    requires restored.Sound() && BlobsSound(blobs)
    modifies restored
    ensures restored.Sound() && restored.Log() == old(restored.Log())
    ensures restored.inbox == old(restored.inbox) && restored.submissions == old(restored.submissions)
    ensures BlobsReferenced(restored.Log(), blobs) ==> error.None?
    ensures error.None? ==>
      restored.outputs == Merged(old(restored.outputs), restored.Log(),
                                 map h | h in blobs && now < blobs[h].expires :: blobs[h].body, now)
  {
    hide StoreLoops.WellKeyed, Merged, Expiry, WithBlob, Referenced;
    ghost var start := restored.outputs;
    ghost var log := restored.Log();
    var bodies := Unexpired(blobs, now);
    assert bodies == map h | h in blobs && now < blobs[h].expires :: blobs[h].body;
    var todo := bodies.Keys;
    ghost var done: map<OutputHash, seq<Byte>> := map[];
    MergedNothing(start, log, now);
    NoRows(log);
    while todo != {}
      invariant todo <= bodies.Keys && done.Keys == bodies.Keys - todo
      invariant forall h :: h in done ==> done[h] == bodies[h]
      invariant restored.Sound() && restored.Log() == log && restored.outputs == Merged(start, log, done, now)
      invariant restored.inbox == old(restored.inbox) && restored.submissions == old(restored.submissions)
    {
      var h :| h in todo;
      MergedMore(start, log, done, now, h, bodies[h]);
      MergedNothing(restored.outputs, log, now);
      MergedMore(restored.outputs, log, map[], now, h, bodies[h]);
      var result := restored.Ingest([], map[h := bodies[h]], now);
      if result.Err? { return Some(result.error); }
      todo := todo - {h};
      done := done[h := bodies[h]];
    }
    assert done == bodies;
    return None;
  }

  /**
   `RestoreHistory`: replay a backup's rows, one transaction each, into a new identity's database, and then its
   unexpired blobs.  Without conflicting records, and with every blob in use, it never fails; done, it has rebuilt
   everything the events determine, with nothing accepted for execution.
   */
  method RestoreHistory(backup: Store, id: NodeId, now: int, ghost w: World)
    returns (error: Option<Rejection>, restored: Store)
    requires backup.Sound() && |id| == KEY_BYTES && Inv(w) && (backup.stored.Some? ==> Cut(w, backup.Persisted()))
    ensures fresh(restored) && restored.self == id && restored.Sound()
    ensures backup.stored.None? ==> error == Some(NotFound)
    ensures backup.stored.Some? && NoConflicts(w) && BlobsReferenced(backup.Persisted(), backup.outputs) ==> error.None?
    ensures error.None? ==>
      && SameEvents(backup.Persisted(), restored.Log()) && Converged(backup.Persisted(), restored.Log())
      && restored.outputs == Merged(map[], restored.Log(),
           map h | h in backup.outputs && now < backup.outputs[h].expires :: backup.outputs[h].body, now)
    ensures restored.inbox == [] && restored.submissions == map[]
  {
    hide Inv, Cut, Valid, NoConflicts, InsertAll, Insert, RestoreOrder, SameEvents, Converged, Contains, Ordered,
      StoreLoops.WellKeyed, Merged, BlobsReferenced, BlobsSound;
    restored := new Store(id);
    if backup.stored.None? { return Some(NotFound), restored; }
    ghost var held := backup.Persisted();
    StoreLoops.SameKeys(restored.Log(), EmptyLog(backup.stored.value));
    restored.fleet, restored.stored := backup.stored.value, backup.stored;
    var rows := backup.OrderedRows();
    FleetOfCut(w, held);
    ValidOfCut(w, held);
    RowsRestore(held, rows);
    if NoConflicts(w) { ReplayAccepted(w, held, rows); }
    assert rows[0..] == rows;
    for k := 0 to |rows|
      invariant restored.Sound() && restored.inbox == [] && restored.submissions == map[] && restored.outputs == map[]
      invariant InsertAll(EmptyLog(w.fleet), rows) == InsertAll(restored.Log(), rows[k..])
    {
      assert rows[k..][0] == rows[k] && rows[k..][1..] == rows[k + 1..];
      OneRow(restored.Log(), rows[k..]);
      var result := restored.Ingest([rows[k]], map[], now);
      if result.Err? { return Some(result.error), restored; }
      MergedNothing(map[], restored.Log(), now);
    }
    assert rows[|rows|..] == [];
    NoRows(restored.Log());
    ReplayConverges(w, held, rows);
    SameReferences(held, restored.Log(), backup.outputs);
    error := RestoreBlobs(restored, backup.outputs, now);
  }

  // ---- synchronising -------------------------------------------------------------

  /** One pull: what the peer has beyond our cursors. */
  method Pull(me: Store, peer: Store, rowLength: Event -> nat, here: int, there: int, ghost k: nat, ghost w: World)
    returns (error: Option<Rejection>, count: nat)
    requires me != peer && me.Sound() && peer.Sound() && Inv(w) && Cut(w, me.Log()) && Cut(w, peer.Log())
    requires ShortRows(peer.events.Keys, rowLength, k)
    modifies me
    ensures me.Sound() && Cut(w, me.Log()) && Covers(me.Log(), old(me.Log()))
    ensures forall id :: id in me.events ==> id in old(me.events) || id in peer.events
    ensures me.inbox == old(me.inbox) && me.submissions == old(me.submissions) && me.replicas == old(me.replicas)
    ensures if !Welcome(peer.Log(), peer.self, me.self) then error == Some(Inactive) && me.State() == old(me.State())
            else Peaceful(w) ==> error.None?
    ensures error.None? ==> Closer(old(Gap(peer.Log(), me.Log())), Gap(peer.Log(), me.Log()), count, k)
    ensures error.None? && count == 0 ==> Covers(me.Log(), peer.Log())
    ensures Gap(me.Log(), peer.Log()) == Gap(old(me.Log()), peer.Log())
  {
    hide Inv, Cut, Valid, NoConflicts, OutputsFinal, AttachedFrom, GoodBlob, BlobsSound, InsertAll, IsExport,
      ExactCursors, AtMost, Covers, Gap, ShortRows, Welcome, Active, StoreLoops.WellKeyed;
    CoversSelf(me.Log());
    WelcomeMeans(peer.Log(), peer.self, me.self);
    if !BothActive(peer.Log(), peer.self, me.self) { return Some(Inactive), 0; }
    var cursors := me.Cursors();
    var batch, outs := peer.Export(cursors, MAX_BATCH, rowLength, there);
    ExactAtMost(me.Log(), cursors);
    BatchFacts(w, peer.Log(), me.Log(), cursors, rowLength, batch);
    NoGap(peer.Log(), me.Log());
    if batch == [] { return None, 0; }
    ghost var before := me.Log();
    EnvelopeGood(w, before, batch, peer.outputs, outs);
    var result := me.Ingest(batch, outs, here);
    if result.Err? { return Some(result.error), 0; }
    BatchMoves(w, peer.Log(), before, batch);
    BatchProgress(w, peer.Log(), before, cursors, rowLength, batch, k);
    return None, |batch|;
  }

  /** A gap after a transfer of `count` events: none before, or none any more, or smaller by at least k. */
  predicate Closer(before: nat, after: nat, count: nat, k: nat) {
    after + count == before && (count == 0 <==> before == 0) && (after == 0 || after + k <= before)
  }

  /**
   One push: what we have beyond the cursors the peer reported, which may lag behind.  An acknowledgment names what the
   peer has just committed and its cursors now.
   */
  method Push(
      me: Store, peer: Store, reported: Exchange.Cursors, rowLength: Event -> nat, here: int, there: int, ghost k: nat,
      ghost w: World)
    returns (error: Option<Rejection>, count: nat, cursors: Exchange.Cursors)
    requires me != peer && me.Sound() && peer.Sound() && Inv(w) && Cut(w, me.Log()) && Cut(w, peer.Log())
    requires AtMost(reported, peer.Log()) && ShortRows(me.events.Keys, rowLength, k)
    modifies me`replicas, peer
    ensures peer.Sound() && Cut(w, peer.Log()) && Covers(peer.Log(), old(peer.Log()))
    ensures forall id :: id in peer.events ==> id in old(peer.events) || id in me.events
    ensures peer.inbox == old(peer.inbox) && peer.submissions == old(peer.submissions)
    ensures peer.replicas == old(peer.replicas)
    ensures !Welcome(old(peer.Log()), peer.self, me.self) ==>
      && error in {None, Some(Inactive)} && (error.None? ==> Covers(peer.Log(), me.Log()))
      && peer.State() == old(peer.State()) && me.State() == old(me.State())
    ensures Peaceful(w) && Welcome(old(peer.Log()), peer.self, me.self) ==> error.None?
    ensures error.None? ==> AtMost(cursors, peer.Log()) && (count > 0 ==> ExactCursors(peer.Log(), cursors))
    ensures error.None? && count == 0 ==> Covers(peer.Log(), me.Log()) && cursors == reported
    ensures count == 0 ==> peer.Log() == old(peer.Log())
    ensures error.None? && ExactCursors(old(peer.Log()), reported) ==>
      && ExactCursors(peer.Log(), cursors)
      && Closer(Gap(me.Log(), old(peer.Log())), Gap(me.Log(), peer.Log()), count, k)
    ensures Gap(peer.Log(), me.Log()) == Gap(old(peer.Log()), me.Log())
    ensures old(me.replicas) <= me.replicas
    ensures NewRowsTrue(old(me.replicas), me.replicas, peer.self, peer.Log())
  {
    hide Inv, Cut, Valid, NoConflicts, OutputsFinal, AttachedFrom, GoodBlob, BlobsSound, InsertAll, IsExport,
      ExactCursors, AtMost, Covers, Gap, ShortRows, Welcome, Active, StoreLoops.WellKeyed;
    CoversSelf(peer.Log());
    WelcomeMeans(peer.Log(), peer.self, me.self);
    cursors := reported;
    var batch, outs := me.Export(reported, MAX_BATCH, rowLength, here);
    BatchFacts(w, me.Log(), peer.Log(), reported, rowLength, batch);
    NoGap(me.Log(), peer.Log());
    if batch == [] { return None, 0, cursors; }
    if !BothActive(peer.Log(), peer.self, me.self) { return Some(Inactive), 0, cursors; }
    ghost var before := peer.Log();
    EnvelopeGood(w, before, batch, me.outputs, outs);
    var result := peer.Ingest(batch, outs, there);
    if result.Err? { return Some(result.error), 0, cursors; }
    BatchMoves(w, me.Log(), before, batch);
    if ExactCursors(before, reported) { BatchProgress(w, me.Log(), before, reported, rowLength, batch, k); }
    BatchHeldBy(w, before, batch);
    cursors := peer.Cursors();
    ExactAtMost(peer.Log(), cursors);
    me.RememberReplicas(peer.self, result.value);
    return None, |batch|, cursors;
  }

  /** One round: pull, then push. */
  method Round(
      me: Store, peer: Store, reported: Exchange.Cursors, rowLength: Event -> nat, here: int, there: int, ghost k: nat,
      ghost w: World)
    returns (error: Option<Rejection>, done: bool, cursors: Exchange.Cursors)
    requires me != peer && me.Sound() && peer.Sound() && Inv(w) && Cut(w, me.Log()) && Cut(w, peer.Log())
    requires ExactCursors(peer.Log(), reported) && ShortRows(HeldBy(me.Log(), peer.Log()), rowLength, k)
    modifies me, peer
    ensures me.Sound() && peer.Sound() && Cut(w, me.Log()) && Cut(w, peer.Log())
    ensures Covers(me.Log(), old(me.Log())) && Covers(peer.Log(), old(peer.Log()))
    ensures HeldBy(me.Log(), peer.Log()) <= old(HeldBy(me.Log(), peer.Log()))
    ensures me.inbox == old(me.inbox) && me.submissions == old(me.submissions)
    ensures peer.inbox == old(peer.inbox) && peer.submissions == old(peer.submissions)
    ensures peer.replicas == old(peer.replicas) && old(me.replicas) <= me.replicas
    ensures NewRowsTrue(old(me.replicas), me.replicas, peer.self, peer.Log())
    ensures !Welcome(old(peer.Log()), peer.self, me.self) ==>
      error == Some(Inactive) && me.State() == old(me.State()) && peer.State() == old(peer.State())
    ensures Peaceful(w) && Welcome(old(peer.Log()), peer.self, me.self) ==> error.None?
    ensures error.None? ==>
      && ExactCursors(peer.Log(), cursors)
      && Shrunk(old(Gap(peer.Log(), me.Log())), Gap(peer.Log(), me.Log()), k)
      && Shrunk(old(Gap(me.Log(), peer.Log())), Gap(me.Log(), peer.Log()), k)
      && (done <==> old(Gap(peer.Log(), me.Log())) == 0 && old(Gap(me.Log(), peer.Log())) == 0)
      && (done ==> SameEvents(me.Log(), peer.Log()))
  {
    hide Inv, Cut, Valid, NoConflicts, OutputsFinal, AttachedFrom, GoodBlob, BlobsSound, InsertAll, IsExport,
      ExactCursors, AtMost, Covers, Gap, ShortRows, Welcome, StoreLoops.WellKeyed;
    done, cursors := false, reported;
    CoversSelf(peer.Log());
    ghost var rows := HeldBy(me.Log(), peer.Log());
    FewerShortRows(peer.events.Keys, rows, rowLength, k);
    var pulled;
    error, pulled := Pull(me, peer, rowLength, here, there, k, w);
    if error.Some? { return; }
    ExactAtMost(peer.Log(), reported);
    FewerShortRows(me.events.Keys, rows, rowLength, k);
    var pushed;
    error, pushed, cursors := Push(me, peer, reported, rowLength, here, there, k, w);
    if error.Some? { return; }
    done := pulled == 0 && pushed == 0;
    if done { BothCovered(w, me.Log(), peer.Log()); }
  }

  /** A gap that a round closed, or by at least k. */
  predicate Shrunk(before: nat, after: nat, k: nat) { after == 0 || after + k <= before }

  /**
   `Sync`: up to 32 rounds of pull and push, then every event up to the peer's last cursors counts as a copy there, so
   there is a replica row for every event both sides hold.  A synchronisation that ends on two empty batches leaves both
   logs with the same events.  If any k rows of the events the two hold fit in a batch (one always does), it does so
   whenever at most 31 * k events are missing on either side.  If either side takes one of the two for inactive at the
   start, it is refused before anything moves; if both sides take both for active and no records conflict, it never
   fails.  Neither journal is touched, so synchronising cannot make anything run.
   */
  method Sync(me: Store, peer: Store, rowLength: Event -> nat, here: int, there: int, ghost k: nat, ghost w: World)
    returns (error: Option<Rejection>, quiet: bool)
    requires me != peer && me.Sound() && peer.Sound() && Inv(w) && Cut(w, me.Log()) && Cut(w, peer.Log())
    requires ShortRows(HeldBy(me.Log(), peer.Log()), rowLength, k)
    modifies me, peer
    ensures me.Sound() && peer.Sound() && Cut(w, me.Log()) && Cut(w, peer.Log())
    ensures Covers(me.Log(), old(me.Log())) && Covers(peer.Log(), old(peer.Log()))
    ensures me.inbox == old(me.inbox) && me.submissions == old(me.submissions)
    ensures peer.inbox == old(peer.inbox) && peer.submissions == old(peer.submissions)
    ensures HeldBy(me.Log(), peer.Log()) <= old(HeldBy(me.Log(), peer.Log()))
    ensures peer.replicas == old(peer.replicas) && old(me.replicas) <= me.replicas
    ensures NewRowsTrue(old(me.replicas), me.replicas, peer.self, peer.Log())
    ensures !Welcome(old(me.Log()), peer.self, me.self) || !Welcome(old(peer.Log()), peer.self, me.self) ==>
      && error == Some(Inactive) && !quiet
      && me.State() == old(me.State()) && peer.State() == old(peer.State())
    ensures Peaceful(w) && Welcome(old(me.Log()), peer.self, me.self) && Welcome(old(peer.Log()), peer.self, me.self)
      ==> error.None?
    ensures error.None? ==> forall id :: id in me.events && id in peer.events ==> (id, peer.self) in me.replicas
    ensures error.None? && quiet ==> SameEvents(me.Log(), peer.Log())
    ensures error.None? && old(Gap(peer.Log(), me.Log())) <= 31 * k && old(Gap(me.Log(), peer.Log())) <= 31 * k
      ==> quiet && SameEvents(me.Log(), peer.Log())
  {
    hide Inv, Cut, Valid, NoConflicts, OutputsFinal, AttachedFrom, GoodBlob, BlobsSound, InsertAll, IsExport,
      ExactCursors, AtMost, Covers, Gap, ShortRows, StoreLoops.WellKeyed, Peaceful, Active, NewRowsTrue, SameEvents,
      CursorReplicas, HeldBy, Welcome;
    ghost var ours, its := me.Log(), peer.Log();
    WelcomeMeans(ours, peer.self, me.self);
    WelcomeMeans(its, peer.self, me.self);
    CoversSelf(me.Log());
    CoversSelf(peer.Log());
    error, quiet := None, false;
    NoNewRows(me.replicas, peer.self, peer.Log());
    if !Active(me.Log(), peer.self) || !Active(me.Log(), me.self) { return Some(Inactive), false; }
    if !BothActive(peer.Log(), peer.self, me.self) { return Some(Inactive), false; }
    var reported := peer.Cursors();
    ghost var lacking, owed := Gap(peer.Log(), me.Log()), Gap(me.Log(), peer.Log());
    ghost var closed := 0;
    ghost var held := HeldBy(me.Log(), peer.Log());
    for round := 0 to 32
      invariant me.Sound() && peer.Sound() && Cut(w, me.Log()) && Cut(w, peer.Log())
      invariant Covers(me.Log(), old(me.Log())) && Covers(peer.Log(), old(peer.Log()))
      invariant HeldBy(me.Log(), peer.Log()) <= held
      invariant me.inbox == old(me.inbox) && me.submissions == old(me.submissions)
      invariant peer.inbox == old(peer.inbox) && peer.submissions == old(peer.submissions)
      invariant peer.replicas == old(peer.replicas) && old(me.replicas) <= me.replicas
      invariant NewRowsTrue(old(me.replicas), me.replicas, peer.self, peer.Log())
      invariant ExactCursors(peer.Log(), reported) && !quiet && error.None?
      invariant closed == round * k
      invariant Gap(peer.Log(), me.Log()) == 0 || Gap(peer.Log(), me.Log()) + closed <= lacking
      invariant Gap(me.Log(), peer.Log()) == 0 || Gap(me.Log(), peer.Log()) + closed <= owed
      invariant lacking <= 31 * k && owed <= 31 * k ==> round <= 31
    {
      ghost var mine, theirs, rows := me.Log(), peer.Log(), me.replicas;
      assert round == 31 ==> closed == 31 * k;
      FewerShortRows(HeldBy(me.Log(), peer.Log()), held, rowLength, k);
      StillWelcome(w, mine, theirs, ours, its, peer.self, me.self);
      error, quiet, reported := Round(me, peer, reported, rowLength, here, there, k, w);
      CoversTransitive(me.Log(), mine, old(me.Log()));
      CoversTransitive(peer.Log(), theirs, old(peer.Log()));
      MoreRowsTrue(old(me.replicas), rows, me.replicas, peer.self, theirs, peer.Log());
      if error.Some? { return; }
      if quiet { break; }
      closed := closed + k;
    }
    ghost var rows := me.replicas;
    RowsOfCursors(w, me.Log(), peer.Log(), peer.self, reported);
    AddedRowsTrue(old(me.replicas), rows, CursorReplicas(me.Log(), Report(peer.self, reported, [])),
      peer.self, peer.Log());
    me.RememberCursors(peer.self, reported);
  }

  // ---- delivering a command -------------------------------------------------------

  /**
   Nothing the two know stands in the way of a delivery: both take each other for active, the command is for the target
   and nobody who submitted it was removed, the target's answer is there or fits, and few events are missing.
   */
  ghost predicate MayDeliver(w: World, mine: Log, self: NodeId, theirs: Db, env: Env, id: CommandId) {
    && Peaceful(w) && Welcome(mine, theirs.self, self) && Welcome(theirs.log, theirs.self, self)
    && Addressed(mine, theirs.log, theirs.self, id) && CanAnswer(mine, theirs, env, id)
    && Gap(theirs.log, mine) <= 31 && Gap(mine, theirs.log) <= 31
  }

  /** What a delivery may do to the target's inbox: one new row for the command, none if it was reported on before. */
  ghost predicate AtMostOneRow(before: Db, after: Db, id: CommandId) {
    && (after.inbox == before.inbox || exists state :: after.inbox == before.inbox + [InboxRow(id, state)])
    && (id in before.log.receipts ==> after.inbox == before.inbox)
  }

  /**
   `Deliver`.  A command for this node is accepted here.  Otherwise: bring the target what it needs, ask it to accept,
   and bring back its signed receipt.  The answer may be lost after the target committed; asking again then finds the
   same receipt.  The caller's own journal never changes, the target gains at most the one inbox row, and a delivery
   that ends quietly leaves both with the same receipts.  It does end so, and unless the answer is lost without an
   error, whenever nothing the two know stands in its way.
   */
  method Deliver(
      me: Store, peer: Store, env: Env, c: Command, answered: bool, rowLength: Event -> nat, here: int,
      there: int, ghost w: World)
    returns (error: Option<Rejection>, quiet: bool)
    requires me != peer && me.Sound() && peer.Sound() && Inv(w) && Cut(w, me.Log()) && Cut(w, peer.Log())
    requires peer.self in w.logs && w.logs[peer.self] == peer.Log()
    requires me.self != peer.self && c.target in {me.self, peer.self}
    modifies me, peer
    ensures me.Sound() && peer.Sound()
    ensures c.target == me.self ==>
      && peer.State() == old(peer.State())
      && match Journal.Accept(old(me.Db()), env, c.id)
         case Ok(commit) => error.None? && me.Db() == commit.db
         case Err(reason) => error == Some(reason) && me.State() == old(me.State())
    ensures c.target == peer.self ==>
      && Covers(me.Log(), old(me.Log())) && Covers(peer.Log(), old(peer.Log()))
      && me.inbox == old(me.inbox) && me.submissions == old(me.submissions)
      && AtMostOneRow(old(peer.Db()), peer.Db(), c.id)
      && (error.None? ==> c.id in peer.receipts)
      && (error.None? && quiet ==> me.receipts == peer.receipts)
      && (MayDeliver(w, old(me.Log()), me.self, old(peer.Db()), env, c.id) ==>
            error == (if answered then None else Some(Unanswered)) && c.id in peer.receipts && (answered ==> quiet))
  {
    hide MayDeliver, Inv, Cut, Valid, Covers, Journal.Accept, AtMostOneRow, ShortRows, StoreLoops.WellKeyed;
    if c.target == me.self {
      var receipt := me.Accept(env, c.id);
      return if receipt.Err? then Some(receipt.error) else None, true;
    }
    error, quiet := DeliverTo(me, peer, env, c.id, answered, rowLength, here, there, w);
  }

  /** The part of that which the first synchronisation needs. */
  lemma ClearStart(w: World, mine: Log, self: NodeId, theirs: Db, env: Env, id: CommandId)
    requires MayDeliver(w, mine, self, theirs, env, id)
    ensures Peaceful(w) && Welcome(mine, theirs.self, self) && Welcome(theirs.log, theirs.self, self)
    ensures Gap(theirs.log, mine) <= 31 && Gap(mine, theirs.log) <= 31
  {
    hide Peaceful, Welcome, Addressed, CanAnswer, Gap;
  }

  lemma SamePeace(w: World, w1: World)
    requires w1.born == w.born
    ensures Peaceful(w) ==> Peaceful(w1)
  {
  }

  /** After the first synchronisation the target can be asked, and will accept. */
  lemma ReadyToAsk(
      w: World, mine: Log, db: Db, first: Log, asked: Db, self: NodeId, env: Env, id: CommandId)
    requires MayDeliver(w, first, self, asked, env, id)
    requires Cut(w, mine) && Cut(w, db.log) && Cut(w, first) && Cut(w, asked.log) && |db.self| == KEY_BYTES
    requires SameEvents(mine, db.log) && Covers(mine, first) && Covers(db.log, asked.log)
    requires HeldBy(mine, db.log) <= HeldBy(first, asked.log) && db.self == asked.self && db.inbox == asked.inbox
    ensures Journal.Accept(db, env, id).Ok?
    ensures Welcome(mine, db.self, self) && Welcome(db.log, db.self, self)
  {
    hide Cut, Valid, Active, Welcome, Peaceful, Addressed, CanAnswer, Gap, HeldBy, Between, Journal.Accept, InInbox;
    ValidOfCut(w, db.log);
    ValidOfCut(w, first);
    ValidOfCut(w, asked.log);
    HeldSwap(mine, db.log);
    HeldSwap(first, asked.log);
    HeldBetween(db.log, mine, asked.log, first);
    assert Covers(db.log, first);
    hide Covers, SameEvents;
    StillWelcome(w, mine, db.log, first, asked.log, db.self, self);
    StillWelcome(w, db.log, mine, asked.log, first, db.self, self);
    WelcomeMeans(db.log, db.self, self);
    TargetAccepts(first, asked, db, env, id);
  }

  /** After the acceptance the two can synchronise again, quietly. */
  lemma ReadyToReturn(mine: Log, db: Db, next: Db, self: NodeId, id: CommandId)
    requires SameEvents(mine, db.log) && NewRow(db, id, next) && Welcome(db.log, db.self, self)
    ensures Gap(next.log, mine) <= 31 && Gap(mine, next.log) <= 31 && Welcome(next.log, db.self, self)
  {
    hide Gap, NewRow, SameEvents;
    OneToReturn(mine, db, next, id);
  }

  /** The target is asked to accept, and its signed receipt is brought back. */
  method Ask(
      me: Store, peer: Store, env: Env, id: CommandId, answered: bool, rowLength: Event -> nat, here: int,
      there: int, ghost w: World)
    returns (error: Option<Rejection>, quiet: bool)
    requires me != peer && me.Sound() && peer.Sound() && Inv(w) && Cut(w, me.Log()) && Cut(w, peer.Log())
    requires peer.self in w.logs && w.logs[peer.self] == peer.Log()
    modifies me, peer
    ensures me.Sound() && peer.Sound()
    ensures Covers(me.Log(), old(me.Log())) && Covers(peer.Log(), old(peer.Log()))
    ensures me.inbox == old(me.inbox) && me.submissions == old(me.submissions)
    ensures AtMostOneRow(old(peer.Db()), peer.Db(), id)
    ensures error.None? ==> id in peer.receipts
    ensures error.None? && quiet ==> me.receipts == peer.receipts
    ensures !Welcome(old(peer.Log()), peer.self, me.self) ==>
      error == Some(Inactive) && me.State() == old(me.State()) && peer.State() == old(peer.State())
    ensures && Peaceful(w) && SameEvents(old(me.Log()), old(peer.Log())) && Journal.Accept(old(peer.Db()), env, id).Ok?
            && Welcome(old(me.Log()), peer.self, me.self) && Welcome(old(peer.Log()), peer.self, me.self) ==>
      error == (if answered then None else Some(Unanswered)) && id in peer.receipts && (answered ==> quiet)
  {
    hide Inv, Cut, Valid, Covers, Converged, SameEvents, Active, Welcome, Peaceful, Gap, Journal.Accept, InInbox,
      NewRow, HeldBy, StoreLoops.WellKeyed, Grows;
    WelcomeMeans(peer.Log(), peer.self, me.self);
    CoversSelf(me.Log());
    CoversSelf(peer.Log());
    if !BothActive(peer.Log(), peer.self, me.self) { return Some(Inactive), false; }
    ghost var asked, mine := peer.Db(), me.Log();
    ValidOfCut(w, asked.log);
    var receipt := peer.Accept(env, id);
    if receipt.Err? { return Some(receipt.error), false; }
    AcceptAppends(asked, env, id, Journal.Accept(asked, env, id).value);
    ghost var w2 := WorldAfterAccept(w, asked, peer.Db(), id);
    NewRowInbox(asked, peer.Db(), id);
    if !answered { return Some(Unanswered), false; }
    CutPersists(w, w2, mine);
    if SameEvents(mine, asked.log) && Welcome(asked.log, peer.self, me.self) {
      ReadyToReturn(mine, asked, peer.Db(), me.self, id);
    }
    ghost var accepted := peer.Log();
    error, quiet := Sync(me, peer, rowLength, here, there, 1, w2);
    CoversTransitive(peer.Log(), accepted, asked.log);
    ValidOfCut(w2, me.Log());
    ValidOfCut(w2, accepted);
    ValidOfCut(w2, peer.Log());
    ReceiptStays(accepted, peer.Log(), id);
    if error.None? && quiet { SameEventsConverge(me.Log(), peer.Log()); ReceiptsEqual(me.Log(), peer.Log()); }
  }

  /** `Deliver` to another node. */
  method DeliverTo(
      me: Store, peer: Store, env: Env, id: CommandId, answered: bool, rowLength: Event -> nat, here: int,
      there: int, ghost w: World)
    returns (error: Option<Rejection>, quiet: bool)
    requires me != peer && me.Sound() && peer.Sound() && Inv(w) && Cut(w, me.Log()) && Cut(w, peer.Log())
    requires peer.self in w.logs && w.logs[peer.self] == peer.Log()
    modifies me, peer
    ensures me.Sound() && peer.Sound()
    ensures Covers(me.Log(), old(me.Log())) && Covers(peer.Log(), old(peer.Log()))
    ensures me.inbox == old(me.inbox) && me.submissions == old(me.submissions)
    ensures AtMostOneRow(old(peer.Db()), peer.Db(), id)
    ensures error.None? ==> id in peer.receipts
    ensures error.None? && quiet ==> me.receipts == peer.receipts
    ensures MayDeliver(w, old(me.Log()), me.self, old(peer.Db()), env, id) ==>
      error == (if answered then None else Some(Unanswered)) && id in peer.receipts && (answered ==> quiet)
  {
    hide Inv, Cut, Valid, Covers, SameEvents, Active, Welcome, Peaceful, MayDeliver, Gap, Journal.Accept, HeldBy,
      StoreLoops.WellKeyed;
    ghost var start, first, asked := peer.Log(), me.Log(), peer.Db();
    ghost var clear := MayDeliver(w, first, me.self, asked, env, id);
    if clear { ClearStart(w, first, me.self, asked, env, id); }
    error, quiet := Sync(me, peer, rowLength, here, there, 1, w);
    if error.Some? { return; }
    ghost var w1 := Receive(w, peer.self, peer.Log());
    ghost var middle, mine := peer.Db(), me.Log();
    if clear { ReadyToAsk(w, mine, middle, first, asked, me.self, env, id); }
    ValidOfCut(w, start);
    ValidOfCut(w, peer.Log());
    ReceiveKeepsInv(w, peer.self, peer.Log());
    CutPersists(w, w1, mine);
    CutPersists(w, w1, middle.log);
    SamePeace(w, w1);
    ReceiptStays(start, peer.Log(), id);
    error, quiet := Ask(me, peer, env, id, answered, rowLength, here, there, w1);
    CoversTransitive(me.Log(), mine, first);
    CoversTransitive(peer.Log(), middle.log, start);
  }
}
