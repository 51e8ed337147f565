/**
 Output blobs beside the log: what a result stores, what an envelope carries
 along, and what its receiver keeps.  A bad blob refuses the whole envelope, so
 it matters that the blobs a node attaches never are.
 */
module Outputs {
  import opened Records
  import opened Admission
  import opened LogInvariant
  import opened Convergence
  import opened World
  import opened Exchange
  import opened JournalSteps
  import opened OutputBound

  const NINETY_DAYS := 90 * 24 * 60 * 60 * 1000
  const RESERVE := 65536

  datatype Blob = Blob(body: seq<Byte>, expires: int)

  type Blobs = map<OutputHash, Blob>

  /** The output of a result as it is stored and hashed. */
  function StoredOutput(e: Executed): seq<Byte> { Bounded(Cleaned(e.output)) }

  function HashOf(body: seq<Byte>): OutputHash { if body == [] then NoOutput else OutputHash(body) }

  /** What the receipt of a result says; a receipt without a result says nothing. */
  function DetailsOf(result: Option<Executed>): Details {
    match result
    case None => NO_DETAILS
    case Some(e) => Details(e.via, e.installed, e.installations, HashOf(StoredOutput(e)))
  }

  /**
   A receipt says of a result how it was reached and what is installed, and names by its hash what is kept of the
   output: the longest valid text, of at most 64 KiB, that the cleaned output starts with, unless that is empty.
   */
  lemma {:induction false} DetailsMean(e: Executed)
    ensures var d := DetailsOf(Some(e)); var kept := StoredOutput(e); var cleaned := Cleaned(e.output);
      && d.via == e.via && d.installed == e.installed && d.installations == e.installations
      && kept <= cleaned && ValidText(kept) && |kept| <= 65536 && (|cleaned| <= 65536 ==> kept == cleaned)
      && (forall n :: |kept| < n <= |cleaned| && n <= 65536 ==> !Boundary(cleaned, n))
      && d.outputHash == if kept == [] then NoOutput else OutputHash(kept)
  {
    CleanedIsValid(e.output);
    hide Cleaned;
    var cleaned := Cleaned(e.output);
    if |cleaned| > 65536 { assert StoredOutput(e) == cleaned[..Longest(cleaned, 65536)]; }
  }

  /** A result's output, if any is kept, is stored for ninety days under its hash, unless it is there already. */
  lemma ResultStored(blobs: Blobs, e: Executed, now: int, h: OutputHash)
    ensures var kept := StoredOutput(e); var after := AfterResult(blobs, Some(e), now);
      && (h in after <==> h in blobs || (kept != [] && h == OutputHash(kept)))
      && (h in blobs ==> after[h] == blobs[h])
      && (h in after && h !in blobs ==> after[h] == Blob(kept, now + 7776000000))
  {
    hide StoredOutput;
  }

  /** `INSERT OR IGNORE INTO outputs`. */
  function WithBlob(blobs: Blobs, h: OutputHash, blob: Blob): Blobs { if h in blobs then blobs else blobs[h := blob] }

  /** The blobs after a result is reported. */
  function AfterResult(blobs: Blobs, result: Option<Executed>, now: int): Blobs {
    if result.None? || StoredOutput(result.value) == [] then blobs
    else
      var body := StoredOutput(result.value);
      WithBlob(blobs, HashOf(body), Blob(body, now + NINETY_DAYS))
  }

  /** Every blob is what its hash says, and short enough. */
  ghost predicate BlobsSound(blobs: Blobs) {
    forall h :: h in blobs ==> h == OutputHash(blobs[h].body) && |blobs[h].body| <= MAX_OUTPUT
  }

  lemma BoundedFits(e: Executed)
    ensures |StoredOutput(e)| <= MAX_OUTPUT && ValidText(StoredOutput(e))
  {
    CleanedIsValid(e.output);
    hide Cleaned;
    assert Bounded(Cleaned(e.output)) == Cleaned(e.output)[..|Bounded(Cleaned(e.output))|];
  }

  lemma AfterResultSound(blobs: Blobs, result: Option<Executed>, now: int)
    requires BlobsSound(blobs)
    ensures BlobsSound(AfterResult(blobs, result, now))
  {
    hide StoredOutput;
    if result.Some? { BoundedFits(result.value); }
  }

  // ---- what a receiver keeps ------------------------------------------------------------

  predicate Uses(row: ReceiptRow, h: OutputHash) { row.receipt.details.outputHash == h }

  predicate Referenced(log: Log, h: OutputHash) { exists c :: c in log.receipts && Uses(log.receipts[c], h) }

  /** The checks of `Ingest` on one blob. */
  predicate GoodBlob(log: Log, h: OutputHash, body: seq<Byte>) {
    |body| <= MAX_OUTPUT && h == OutputHash(body) && Referenced(log, h)
  }

  /** An envelope's blob passes if it has at most 64 KiB, is what its hash says, and a recorded receipt names it. */
  lemma GoodMeans(log: Log, h: OutputHash, body: seq<Byte>)
    ensures GoodBlob(log, h, body) <==>
      && |body| <= 65536 && h == OutputHash(body)
      && exists c :: c in log.receipts && log.receipts[c].receipt.details.outputHash == h
    ensures GoodBlob(log, h, body) <==> |body| <= 65536 && h == OutputHash(body) && Referenced(log, h)
  {
    assert Referenced(log, h) <==> exists c :: c in log.receipts && log.receipts[c].receipt.details.outputHash == h by {
      if c :| c in log.receipts && log.receipts[c].receipt.details.outputHash == h {
        assert Uses(log.receipts[c], h);
      }
    }
  }

  /** t is the time of the latest recorded receipt that names the blob. */
  ghost predicate LastNamed(log: Log, h: OutputHash, t: int) {
    && (exists c :: c in log.receipts && Uses(log.receipts[c], h) && log.receipts[c].receipt.updatedAt == t)
    && forall c :: c in log.receipts && Uses(log.receipts[c], h) ==> log.receipts[c].receipt.updatedAt <= t
  }

  /** Merging keeps every blob there was, and adds a new one until ninety days after it was last named. */
  lemma {:induction false} MergedMeans(
      blobs: Blobs, log: Log, outs: map<OutputHash, seq<Byte>>, now: int, h: OutputHash, t: int)
    requires LastNamed(log, h, t)
    ensures var after := Merged(blobs, log, outs, now);
      && (h in after <==> h in blobs || (h in outs && now < t + 7776000000))
      && (h in blobs ==> after[h] == blobs[h])
      && (h in after && h !in blobs ==> after[h] == Blob(outs[h], t + 7776000000))
  {
    var c :| c in log.receipts && Uses(log.receipts[c], h) && log.receipts[c].receipt.updatedAt == t;
    assert t in Times(log, h) && forall x :: x in Times(log, h) ==> x <= t;
    assert LatestUse(log, h) == t;
  }

  /** The times of the receipts that use a blob. */
  function Times(log: Log, h: OutputHash): set<int> {
    set c | c in log.receipts && Uses(log.receipts[c], h) :: log.receipts[c].receipt.updatedAt
  }

  lemma HasGreatest(s: set<int>, x: int)
    requires x in s
    ensures exists t :: t in s && forall y :: y in s ==> y <= t
    decreases |s|
  {
    var rest := s - {x};
    if y :| y in rest {
      HasGreatest(rest, y);
      var t :| t in rest && forall z :: z in rest ==> z <= t;
      assert forall z :: z in s ==> z == x || z in rest;
      assert x > t ==> forall z :: z in s ==> z <= x;
    } else {
      assert forall z :: z in s ==> z == x || z in rest;
    }
  }

  /** `SELECT MAX(updatedAt)` over the receipts that use a blob, which there are. */
  ghost function LatestUse(log: Log, h: OutputHash): (t: int)
    requires Referenced(log, h)
    ensures t in Times(log, h) && forall x :: x in Times(log, h) ==> x <= t
  {
    var c :| c in log.receipts && Uses(log.receipts[c], h);
    HasGreatest(Times(log, h), log.receipts[c].receipt.updatedAt);
    var t :| t in Times(log, h) && forall x :: x in Times(log, h) ==> x <= t;
    t
  }

  /** The blobs after an envelope's are merged in: none replaced, none that has expired since its receipts. */
  ghost function Merged(blobs: Blobs, log: Log, outs: map<OutputHash, seq<Byte>>, now: int): Blobs {
    map h | h in blobs.Keys + outs.Keys && (h in blobs || Expiry(log, h) > now) ::
      if h in blobs then blobs[h] else Blob(outs[h], Expiry(log, h))
  }

  /** Ninety days after the last receipt that uses a blob. */
  ghost function Expiry(log: Log, h: OutputHash): int {
    if Referenced(log, h) then LatestUse(log, h) + NINETY_DAYS else 0
  }

  lemma BlobAdded(blobs: Blobs, h: OutputHash, blob: Blob)
    requires BlobsSound(blobs) && h == OutputHash(blob.body) && |blob.body| <= MAX_OUTPUT
    ensures BlobsSound(WithBlob(blobs, h, blob))
  {
  }

  lemma MergedNothing(blobs: Blobs, log: Log, now: int)
    ensures Merged(blobs, log, map[], now) == blobs
  {
    hide Expiry;
  }

  lemma MergedMore(
      blobs: Blobs, log: Log, done: map<OutputHash, seq<Byte>>, now: int, h: OutputHash, body: seq<Byte>)
    requires h !in done
    ensures var merged := Merged(blobs, log, done, now);
      Merged(blobs, log, done[h := body], now)
        == if Expiry(log, h) > now then WithBlob(merged, h, Blob(body, Expiry(log, h))) else merged
  {
    hide Expiry;
  }

  // ---- what an envelope carries -------------------------------------------------------------

  /** The hash an event refers to. */
  function HashIn(e: Event): OutputHash {
    if e.content.body.ReceiptBody? then e.content.body.receipt.details.outputHash else NoOutput
  }

  /** A stored blob that has not expired and still fits the envelope. */
  predicate Attachable(blobs: Blobs, now: int, h: OutputHash, size: nat) {
    h.OutputHash? && h in blobs && blobs[h].expires > now && size + |blobs[h].body| < MAX_BODY - RESERVE
  }

  lemma AttachableBlob(blobs: Blobs, now: int, h: OutputHash, size: nat)
    requires Attachable(blobs, now, h, size)
    ensures h in blobs
  {
  }

  /** The loop of `Export` that attaches the blobs of a batch's receipts. */
  function Attach(
    blobs: Blobs, now: int, batch: seq<Event>, size: nat, outs: map<OutputHash, seq<Byte>>)
    : map<OutputHash, seq<Byte>>
    decreases |batch|
  {
    if batch == [] then outs
    else
      var h := HashIn(batch[0]);
      if Attachable(blobs, now, h, size)
      then Attach(blobs, now, batch[1..], size + |blobs[h].body|, outs[h := blobs[h].body])
      else Attach(blobs, now, batch[1..], size, outs)
  }

  /** Everything attached is a stored blob that some event of the batch refers to. */
  ghost predicate AttachedFrom(blobs: Blobs, batch: seq<Event>, outs: map<OutputHash, seq<Byte>>) {
    forall h :: h in outs ==>
      h.OutputHash? && h in blobs && outs[h] == blobs[h].body && exists e :: e in batch && HashIn(e) == h
  }

  lemma {:induction false} AttachFrom(
      blobs: Blobs, now: int, batch: seq<Event>, rest: seq<Event>, size: nat, outs: map<OutputHash, seq<Byte>>)
    requires AttachedFrom(blobs, batch, outs) && forall e :: e in rest ==> e in batch
    ensures AttachedFrom(blobs, batch, Attach(blobs, now, rest, size, outs))
    decreases |rest|
  {
    if rest != [] {
      var h := HashIn(rest[0]);
      if Attachable(blobs, now, h, size) {
        assert rest[0] in batch;
        AttachFrom(blobs, now, batch, rest[1..], size + |blobs[h].body|, outs[h := blobs[h].body]);
      } else {
        AttachFrom(blobs, now, batch, rest[1..], size, outs);
      }
    }
  }

  /**
   What an envelope carries, event by event: sizes[k] is the size before event k, and a stored, unexpired blob its
   receipt names goes along exactly if it leaves the envelope below two mebibytes less 64 KiB.
   */
  ghost predicate Carried(
    blobs: Blobs, now: int, batch: seq<Event>, sizes: seq<nat>, outs: map<OutputHash, seq<Byte>>)
  {
    && |sizes| == |batch| + 1
    && (forall k :: 0 <= k < |batch| ==>
          sizes[k + 1] == if GoesAlong(blobs, now, batch[k], sizes[k]) then sizes[k] + |blobs[HashIn(batch[k])].body|
                          else sizes[k])
    && (forall h :: h in outs <==> Goes(blobs, now, batch, sizes, h))
    && (forall h :: h in outs ==> h in blobs && outs[h] == blobs[h].body)
  }

  ghost predicate Goes(blobs: Blobs, now: int, batch: seq<Event>, sizes: seq<nat>, h: OutputHash)
    requires |sizes| == |batch| + 1
  {
    exists k :: 0 <= k < |batch| && HashIn(batch[k]) == h && GoesAlong(blobs, now, batch[k], sizes[k])
  }

  lemma GoesFirst(blobs: Blobs, now: int, batch: seq<Event>, size: nat, rest: seq<nat>, h: OutputHash)
    requires batch != [] && |rest| == |batch|
    ensures Goes(blobs, now, batch, [size] + rest, h) <==>
      (HashIn(batch[0]) == h && GoesAlong(blobs, now, batch[0], size)) || Goes(blobs, now, batch[1..], rest, h)
  {
    hide GoesAlong, HashIn;
    var sizes := [size] + rest;
    assert forall k :: 0 <= k < |batch| - 1 ==> batch[1..][k] == batch[k + 1] && sizes[k + 1] == rest[k];
    if j :| 0 <= j < |batch| - 1 && HashIn(batch[1..][j]) == h && GoesAlong(blobs, now, batch[1..][j], rest[j]) {
      assert HashIn(batch[j + 1]) == h && GoesAlong(blobs, now, batch[j + 1], sizes[j + 1]);
    }
    if k :| 0 <= k < |batch| && HashIn(batch[k]) == h && GoesAlong(blobs, now, batch[k], sizes[k]) {
      if k > 0 { assert HashIn(batch[1..][k - 1]) == h && GoesAlong(blobs, now, batch[1..][k - 1], rest[k - 1]); }
    }
  }

  ghost predicate GoesAlong(blobs: Blobs, now: int, e: Event, size: nat)
    ensures GoesAlong(blobs, now, e, size) ==> HashIn(e) in blobs
  {
    && e.content.body.ReceiptBody? && e.content.body.receipt.details.outputHash.OutputHash?
    && var h := e.content.body.receipt.details.outputHash;
       h in blobs && now < blobs[h].expires && size + |blobs[h].body| < 2031616
  }

  lemma AttachableMeans(blobs: Blobs, now: int, e: Event, size: nat)
    ensures Attachable(blobs, now, HashIn(e), size) <==> GoesAlong(blobs, now, e, size)
  {
  }

  /** The attaching loop is that walk, and a blob it leaves behind would not fit beside what it took. */
  lemma {:induction false} AttachCarries(
      blobs: Blobs, now: int, batch: seq<Event>, size: nat) returns (sizes: seq<nat>)
    ensures Carried(blobs, now, batch, sizes, Attach(blobs, now, batch, size, map[])) && sizes[0] == size
    ensures forall k :: 0 <= k < |batch| ==>
      var h := HashIn(batch[k]);
      h.OutputHash? && h in blobs && now < blobs[h].expires && h !in Attach(blobs, now, batch, size, map[]) ==>
        sizes[|batch|] + |blobs[h].body| >= 2031616
  {
    sizes := AttachWalk(blobs, now, batch, size, map[]);
    var outs := Attach(blobs, now, batch, size, map[]);
    assert Carried(blobs, now, batch, sizes, outs) by { hide Attach; }
    forall k | 0 <= k < |batch| ensures sizes[k] <= sizes[|batch|] { SizesGrow(blobs, now, batch, sizes, outs, k); }
  }

  lemma {:induction false} SizesGrow(
      blobs: Blobs, now: int, batch: seq<Event>, sizes: seq<nat>, outs: map<OutputHash, seq<Byte>>, k: nat)
    requires Carried(blobs, now, batch, sizes, outs) && k <= |batch|
    ensures sizes[k] <= sizes[|batch|]
    decreases |batch| - k
  {
    hide GoesAlong;
    if k < |batch| { SizesGrow(blobs, now, batch, sizes, outs, k + 1); }
  }

  lemma {:induction false} AttachWalk(
      blobs: Blobs, now: int, batch: seq<Event>, size: nat, outs: map<OutputHash, seq<Byte>>)
    returns (sizes: seq<nat>)
    requires forall h :: h in outs ==> h in blobs && outs[h] == blobs[h].body
    ensures |sizes| == |batch| + 1 && sizes[0] == size
    ensures forall k :: 0 <= k < |batch| ==>
      sizes[k + 1] == if GoesAlong(blobs, now, batch[k], sizes[k]) then sizes[k] + |blobs[HashIn(batch[k])].body|
                      else sizes[k]
    ensures var after := Attach(blobs, now, batch, size, outs);
      && (forall h :: h in after <==> h in outs || Goes(blobs, now, batch, sizes, h))
      && (forall h :: h in after ==> h in blobs && after[h] == blobs[h].body)
    decreases |batch|
  {
    if batch == [] {
      sizes := [size];
    } else {
      var h := HashIn(batch[0]);
      AttachableMeans(blobs, now, batch[0], size);
      hide GoesAlong, Attachable, HashIn, Goes;
      var goes := GoesAlong(blobs, now, batch[0], size);
      var next := if goes then size + |blobs[h].body| else size;
      var more := if goes then outs[h := blobs[h].body] else outs;
      var rest := AttachWalk(blobs, now, batch[1..], next, more);
      sizes := [size] + rest;
      forall k | 0 <= k < |batch|
        ensures sizes[k + 1] == if GoesAlong(blobs, now, batch[k], sizes[k])
                                then sizes[k] + |blobs[HashIn(batch[k])].body| else sizes[k]
      {
        if k > 0 { assert batch[1..][k - 1] == batch[k] && sizes[k] == rest[k - 1] && sizes[k + 1] == rest[k]; }
      }
      forall x
        ensures Goes(blobs, now, batch, sizes, x) <==> (goes && x == h) || Goes(blobs, now, batch[1..], rest, x)
      {
        GoesFirst(blobs, now, batch, size, rest, x);
      }
    }
  }

  // ---- blobs never block a batch ---------------------------------------------------------------

  /** In this world only final receipts carry output. */
  ghost predicate OutputsFinal(w: World) {
    forall id :: id in w.born && id.of.body.ReceiptBody? ==> OutputFinal(id.of.body.receipt)
  }

  /** A final receipt stays the recorded one. */
  lemma FinalIsRecorded(log: Log, id: EventId)
    requires Valid(log) && id in log.events && id.of.body.ReceiptBody? && Terminal(id.of.body.receipt.status)
    ensures var c := id.of.body.receipt.commandId; c in log.receipts && log.receipts[c].receipt == id.of.body.receipt
  {
    hide ChainValid, MembershipValid, CatalogRows, CatalogEvents, DeletionsSound, CommandRows, CommandEvents,
      InventoryRows, InventoryEvents, ImportsSound;
  }

  /** The blobs attached to a deliverable batch pass every check of the database that ingested it. */
  lemma AttachedIsGood(
      w: World, b: Log, batch: seq<Event>, blobs: Blobs, outs: map<OutputHash, seq<Byte>>, h: OutputHash)
    requires OutputsFinal(w) && Cut(w, b) && Deliverable(w, b, batch) && InsertAll(b, batch).Ok?
    requires BlobsSound(blobs) && AttachedFrom(blobs, batch, outs) && h in outs
    ensures GoodBlob(InsertAll(b, batch).value, h, outs[h])
  {
    hide Valid, InsertAll, Covers;
    InsertAllKeepsValid(b, batch);
    var next := InsertAll(b, batch).value;
    var e :| e in batch && HashIn(e) == h;
    var k :| 0 <= k < |batch| && batch[k] == e;
    assert Ripe(w, b, batch, k);
    FinalIsRecorded(next, e.id);
    assert Uses(next.receipts[e.id.of.body.receipt.commandId], h);
  }

  /** Nothing in this world can block a batch: no conflicting records, and output on final receipts only. */
  ghost predicate Peaceful(w: World) { NoConflicts(w) && OutputsFinal(w) }

  /** ... and so they never refuse an envelope whose events are accepted. */
  lemma EnvelopeGood(
      w: World, b: Log, batch: seq<Event>, blobs: Blobs, outs: map<OutputHash, seq<Byte>>)
    requires Cut(w, b) && Deliverable(w, b, batch) && BlobsSound(blobs) && AttachedFrom(blobs, batch, outs)
    ensures OutputsFinal(w) && InsertAll(b, batch).Ok? ==>
      forall h :: h in outs ==> GoodBlob(InsertAll(b, batch).value, h, outs[h])
  {
    hide OutputsFinal, Cut, Deliverable, InsertAll, BlobsSound, AttachedFrom, GoodBlob;
    if OutputsFinal(w) && InsertAll(b, batch).Ok? {
      forall h | h in outs ensures GoodBlob(InsertAll(b, batch).value, h, outs[h]) {
        AttachedIsGood(w, b, batch, blobs, outs, h);
      }
    }
  }

  // ---- stored blobs stay in use -------------------------------------------------------------------

  /** Every stored blob is used by a receipt that is recorded. */
  ghost predicate BlobsReferenced(log: Log, blobs: Blobs) { forall h :: h in blobs ==> Referenced(log, h) }

  lemma UseIsFinal(w: World, log: Log, c: CommandId, h: OutputHash)
    requires OutputsFinal(w) && Cut(w, log) && c in log.receipts && Uses(log.receipts[c], h) && h.OutputHash?
    ensures var row := log.receipts[c];
      row.event in log.events && row.event.of.body == ReceiptBody(row.receipt) && Terminal(row.receipt.status)
  {
    hide ChainValid, MembershipValid, CatalogRows, CatalogEvents, DeletionsSound, CommandRows, CommandEvents,
      InventoryRows, InventoryEvents, ImportsSound, ReceiptEvents, Covers;
    assert log.receipts[c].event in w.born;
  }

  /** However a database grows, the blobs it stores stay in use: their receipts are final and are never replaced. */
  lemma ReferencesPersist(w: World, log: Log, next: Log, blobs: Blobs)
    requires OutputsFinal(w) && Cut(w, log) && Cut(w, next) && Covers(next, log)
    requires BlobsSound(blobs) && BlobsReferenced(log, blobs)
    ensures BlobsReferenced(next, blobs)
  {
    hide Valid, OutputsFinal;
    forall h | h in blobs ensures Referenced(next, h) {
      assert Referenced(log, h);
      var c :| c in log.receipts && Uses(log.receipts[c], h);
      UseIsFinal(w, log, c, h);
      FinalIsRecorded(next, log.receipts[c].event);
      assert Uses(next.receipts[log.receipts[c].receipt.commandId], h);
    }
  }

  /** A result's own receipt uses the blob it stores. */
  lemma ResultReferenced(log: Log, id: EventId, result: Executed)
    requires id.of.body.ReceiptBody? && id.of.body.receipt.details == DetailsOf(Some(result))
    requires StoredOutput(result) != []
    ensures Referenced(With(log, Signed(id.of)), HashOf(StoredOutput(result)))
  {
    hide StoredOutput;
    var c := id.of.body.receipt.commandId;
    ReceiptTables(log, id);
    assert Uses(With(log, Signed(id.of)).receipts[c], HashOf(StoredOutput(result)));
  }

  /** Use depends on the receipts only. */
  lemma SameReferences(a: Log, b: Log, blobs: Blobs)
    requires Converged(a, b)
    ensures BlobsReferenced(a, blobs) ==> BlobsReferenced(b, blobs)
  {
    hide SameMembership, SameCommands, LastSequence;
  }

  /** What is merged in is in use. */
  lemma MergedReferenced(blobs: Blobs, log: Log, outs: map<OutputHash, seq<Byte>>, now: int)
    requires BlobsReferenced(log, blobs) && forall h :: h in outs ==> GoodBlob(log, h, outs[h])
    ensures BlobsReferenced(log, Merged(blobs, log, outs, now))
  {
    hide Expiry, Referenced;
  }
}
