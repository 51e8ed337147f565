/**
 The store itself (store.go, jobs.go): a node's database as an object whose
 tables each transaction updates in place.  Every method is proved to do
 exactly what the specification functions of Admission, Journal and Submission
 say, and to leave the database as it was when it fails.
 */
module Database {
  import opened Records
  import opened Ordering
  import opened Admission
  import opened LogInvariant
  import opened World
  import opened LocalAppend
  import opened AdmissionRules
  import opened Exchange
  import opened Journal
  import opened Submission
  import opened OutputBound
  import opened Outputs
  import System
  import opened StoreLoops

  /** The tables that are neither replicated nor part of the execution journal. */
  datatype LocalTables = LocalTables(
    stored: Option<string>, replicas: set<(EventId, NodeId)>, outputs: Blobs, preferences: Option<DrivePreferences>)

  /** Everything a rolled-back transaction restores. */
  datatype Tables = Tables(
    log: Log, inbox: seq<InboxRow>, submissions: map<string, Request>, local: LocalTables)

  class Store {
    const self: NodeId
    /** The fleet in memory, empty before there is one, and the fleet in the database. */
    var fleet: string
    var stored: Option<string>
    var events: map<EventId, Event>
    var members: map<NodeId, MemberRow>
    var removals: set<NodeId>
    var catalog: map<string, CatalogRow>
    var commands: map<CommandId, CommandRow>
    var receipts: map<CommandId, ReceiptRow>
    var inventory: map<NodeId, InventoryRow>
    var imports: map<EventId, string>
    var inbox: seq<InboxRow>
    var submissions: map<string, Request>
    var replicas: set<(EventId, NodeId)>
    var outputs: Blobs
    var preferences: Option<DrivePreferences>

    /** A new database: no fleet, no rows. */
    constructor (id: NodeId)
      requires |id| == KEY_BYTES
      ensures self == id && State() == Tables(EmptyLog(""), [], map[], LocalTables(None, {}, map[], None)) && Sound()
    {
      self, fleet, stored := id, "", None;
      events, members, removals, catalog, commands := map[], map[], {}, map[], map[];
      receipts, inventory, imports := map[], map[], map[];
      inbox, submissions, replicas, outputs, preferences := [], map[], {}, map[], None;
    }

    /** Closing and opening an existing database: the fleet in memory becomes the one stored. */
    method Reopen()
      modifies this`fleet
      ensures fleet == if stored.Some? then stored.value else ""
      ensures State() == old(State()).(log := old(Persisted()))
    {
      fleet := if stored.Some? then stored.value else "";
    }

    function Log(): Log
      reads this
    {
      Records.Log(fleet, events, members, removals, catalog, commands, receipts, inventory, imports)
    }

    /** What the database holds, under its own fleet. */
    function Persisted(): Log
      reads this
    {
      Log().(fleet := if stored.Some? then stored.value else "")
    }

    function Db(): Db
      reads this
    {
      Journal.Db(self, Log(), inbox, submissions)
    }

    function State(): Tables
      reads this
    {
      Tables(Log(), inbox, submissions, Local())
    }

    function Local(): LocalTables
      reads this
    {
      LocalTables(stored, replicas, outputs, preferences)
    }

    ghost predicate Sound()
      reads this
    {
      WellKeyed(Log()) && |self| == KEY_BYTES && BlobsSound(outputs)
    }

    // ---- transactions ----------------------------------------------------------

    method RestoreViews(log: Log)
      modifies this`catalog, this`commands, this`receipts, this`inventory, this`imports
      ensures catalog == log.catalog && commands == log.commands && receipts == log.receipts
      ensures inventory == log.inventory && imports == log.imports
    {
      catalog := log.catalog;
      commands := log.commands;
      receipts := log.receipts;
      inventory := log.inventory;
      imports := log.imports;
    }

    method RestoreMembership(log: Log)
      modifies this`fleet, this`events, this`members, this`removals
      ensures fleet == log.fleet && events == log.events && members == log.members && removals == log.removals
    {
      fleet := log.fleet;
      events := log.events;
      members := log.members;
      removals := log.removals;
    }

    method RestoreLocal(local: LocalTables)
      modifies this`stored, this`replicas, this`outputs, this`preferences
      ensures Local() == local
    {
      stored := local.stored;
      replicas := local.replicas;
      outputs := local.outputs;
      preferences := local.preferences;
    }

    /** Undo everything since the transaction began. */
    method Rollback(saved: Tables)
      modifies this
      ensures State() == saved
    {
      RestoreMembership(saved.log);
      RestoreViews(saved.log);
      inbox, submissions := saved.inbox, saved.submissions;
      RestoreLocal(saved.local);
    }

    // ---- queries ---------------------------------------------------------------

    /** `SELECT COALESCE(MAX(seq),0) FROM events WHERE origin=?`. */
    method LastOf(origin: NodeId) returns (last: int)
      ensures last == LastSequence(Log(), origin)
    {
      var numbers := {0} + set id | id in events && id.of.origin == origin :: id.of.sequence;
      ghost var greatest := LastSequence(Log(), origin);
      assert greatest in numbers && forall n :: n in numbers ==> n <= greatest;
      last :| last in numbers && forall n :: n in numbers ==> n <= last;
    }

    /** `SELECT COALESCE(MAX(lamport),0) FROM events`. */
    method LastLamport() returns (last: int)
      ensures last == TopLamport(Log())
    {
      var counters := {0} + set id | id in events :: id.of.lamport;
      ghost var greatest := TopLamport(Log());
      assert greatest in counters && forall n :: n in counters ==> n <= greatest;
      last :| last in counters && forall n :: n in counters ==> n <= last;
    }

    // ---- admission ----------------------------------------------------------------

    /** The two loops of `insertTx` over the dependencies. */
    method CheckDependencies(e: Event, last: int) returns (error: Option<Rejection>)
      requires WellKeyed(Log()) && e.id.of == e.content
      requires last == LastSequence(Log(), e.content.origin) && e.content.sequence == last + 1
      ensures error == if last > 0 && !HasPredecessor(Log(), e.id) then Some(MissingPredecessor)
                       else if !CausallyBelow(Log(), e.id) then Some(MissingDependency) else None
    {
      hide WellKeyed;
      var deps := e.content.dependencies;
      if last > 0 {
        var previous := Predecessor(e.content.origin, last);
        var found := false;
        for k := 0 to |deps|
          invariant found <==> previous in deps[..k]
        {
          if deps[k] == previous { found := true; }
        }
        assert deps[..|deps|] == deps;
        assert HasPredecessor(Log(), e.id) <==> previous in deps by {
          OnePredecessor(Log(), e.id, previous);
        }
        if !found { return Some(MissingPredecessor); }
      }
      for k := 0 to |deps|
        invariant forall j :: 0 <= j < k ==> deps[j] in events && deps[j].of.lamport < e.content.lamport
      {
        if deps[k] !in events { return Some(MissingDependency); }
        KeyedRow(Log(), deps[k]);
        if events[deps[k]].content.lamport >= e.content.lamport { return Some(MissingDependency); }
      }
      return None;
    }

    /** `SELECT id FROM events WHERE origin=? AND seq=?`. */
    method Predecessor(origin: NodeId, last: int) returns (id: EventId)
      requires last == LastSequence(Log(), origin) && last > 0
      ensures id in events && id.of.origin == origin && id.of.sequence == last
    {
      id :| id in events && id.of.origin == origin && id.of.sequence == last;
    }

    /** The rules and projections of member, remove and alias events. */
    method ProjectMembership(e: Event) returns (error: Option<Rejection>)
      modifies this
      requires e.content.body.MemberBody? || e.content.body.RemoveBody? || e.content.body.AliasBody?
      requires e.id.of == e.content && e.id in events && events[e.id] == e
      ensures error == Refusal(old(Log()), e.content)
      ensures error.None? ==> Log() == With(old(Log()), e)
      ensures inbox == old(inbox) && submissions == old(submissions)
      ensures Local() == old(Local())
    {
      var c := e.content;
      match c.body {
        case MemberBody(m) =>
          if !WellFormedMember(m) { return Some(InvalidMember); }
          if Genesis(c) && m.id != c.origin { return Some(InvalidGenesis); }
          if m.id !in members { members := members[m.id := MemberRow(e.id, m, m.id in removals)]; }
        case RemoveBody(m) =>
          removals := removals + {m};
          if m in members { members := members[m := members[m].(removed := true)]; }
        case AliasBody(m, legacy) =>
          if m !in members { return Some(UnknownMember); }
          var bound := members[m].member.legacyId;
          if bound != "" && bound != legacy { return Some(AliasBound); }
          members := members[m := members[m].(member := members[m].member.(legacyId := legacy))];
      }
      return None;
    }

    /** The rules and projections of command and receipt events. */
    method ProjectExecution(e: Event) returns (error: Option<Rejection>)
      modifies this
      requires e.content.body.CommandBody? || e.content.body.ReceiptBody?
      requires e.id.of == e.content && e.id in events && events[e.id] == e
      ensures error == Refusal(old(Log()), e.content)
      ensures error.None? ==> Log() == With(old(Log()), e)
      ensures inbox == old(inbox) && submissions == old(submissions)
      ensures Local() == old(Local())
    {
      hide WellFormedCommand;
      var c := e.content;
      match c.body {
        case CommandBody(cmd) =>
          if !WellFormedCommand(fleet, cmd) { return Some(InvalidCommand); }
          if cmd.target !in members { return Some(UnknownTarget); }
          if cmd.id in commands {
            if commands[cmd.id].command != cmd { return Some(CommandConflict); }
          } else {
            commands := commands[cmd.id := CommandRow(e.id, cmd)];
          }
        case ReceiptBody(r) =>
          if r.commandId !in commands || commands[r.commandId].command.target != c.origin || r.target != c.origin {
            return Some(NotTarget);
          }
          if r.status.OtherStatus? { return Some(InvalidStatus); }
          if r.commandId in receipts && Terminal(receipts[r.commandId].receipt.status) { return Some(TerminalReceipt); }
          receipts := receipts[r.commandId := ReceiptRow(e.id, c.sequence, r)];
      }
      return None;
    }

    /** The rules and projections of catalog, inventory and import events. */
    method ProjectRecord(e: Event) returns (error: Option<Rejection>)
      modifies this
      requires e.content.body.CatalogBody? || e.content.body.InventoryBody? || e.content.body.ImportBody?
      requires e.id.of == e.content && e.id in events && events[e.id] == e
      ensures error == Refusal(old(Log()), e.content)
      ensures error.None? ==> Log() == With(old(Log()), e)
      ensures inbox == old(inbox) && submissions == old(submissions)
      ensures Local() == old(Local())
    {
      var c := e.content;
      match c.body {
        case CatalogBody(item, remove) =>
          if item.id == "" { return Some(InvalidCatalogItem); }
          var edit := CatalogRow(e.id, RankOf(e.id), item, remove);
          catalog := catalog[item.id := UpsertCatalog(Lookup(catalog, item.id), edit)];
        case InventoryBody(observation) =>
          if c.origin !in inventory || c.sequence > inventory[c.origin].sequence {
            inventory := inventory[c.origin := InventoryRow(c.sequence, observation)];
          }
        case ImportBody(archive) =>
          if e.id !in imports { imports := imports[e.id := archive]; }
      }
      return None;
    }

    /** The per-kind rules and projections of `insertTx`, once the event's row is written. */
    method Project(e: Event) returns (error: Option<Rejection>)
      modifies this
      requires e.id.of == e.content && e.id in events && events[e.id] == e
      ensures error == Refusal(old(Log()), e.content)
      ensures error.None? ==> Log() == With(old(Log()), e)
      ensures inbox == old(inbox) && submissions == old(submissions)
      ensures Local() == old(Local())
    {
      hide With;
      match e.content.body {
        case MemberBody(_) => error := ProjectMembership(e);
        case RemoveBody(_) => error := ProjectMembership(e);
        case AliasBody(_, _) => error := ProjectMembership(e);
        case CommandBody(_) => error := ProjectExecution(e);
        case ReceiptBody(_) => error := ProjectExecution(e);
        case CatalogBody(_, _) => error := ProjectRecord(e);
        case InventoryBody(_) => error := ProjectRecord(e);
        case ImportBody(_) => error := ProjectRecord(e);
        case Undecodable(_) => error := Some(Unsupported);
      }
    }

    /** The checks of `insertTx` before a row is written. */
    method CheckPlace(e: Event) returns (error: Option<Rejection>)
      requires WellKeyed(Log()) && e.id.of == e.content
      ensures error == Gate(Log(), e.id)
    {
      hide WellKeyed, Gate, LastSequence, HasPredecessor, CausallyBelow, Genesis;
      GateCases(Log(), e.id);
      var last := LastOf(e.content.origin);
      if e.content.sequence != last + 1 { return Some(SequenceGap); }
      error := CheckDependencies(e, last);
      if error.None? && e.content.origin !in members && !Genesis(e.content) { error := Some(NoAdmission); }
    }

    /** `insertTx`: the only admission gate. */
    method InsertTx(e: Event) returns (error: Option<Rejection>)
      modifies this
      requires Sound()
      ensures match Insert(old(Log()), e)
              case Ok(next) => error.None? && Log() == next && Sound()
              case Err(reason) => error == Some(reason)
      ensures !Genuine(e, old(fleet)) ==> error.Some? && Log() == old(Log())
      ensures inbox == old(inbox) && submissions == old(submissions)
      ensures Local() == old(Local())
    {
      hide WellKeyed, Gate, Refusal, With, Verify, Genuine;
      if Insert(Log(), e).Ok? { InsertKeepsKeyed(Log(), e); }
      GenuineVerifies(e, fleet);
      error := Verify(e, fleet);
      if error.Some? { return; }
      VerifiedIsSigned(e, fleet);
      if e.id in events { return; }
      error := CheckPlace(e);
      if error.Some? { return; }
      RowAside(Log(), e);
      events := events[e.id := e];
      error := Project(e);
    }

    // ---- local appends ----------------------------------------------------------

    /** The tail of `appendTx` that removes repeated dependencies. */
    method WithoutRepeats(deps: seq<EventId>) returns (unique: seq<EventId>)
      ensures unique == Unique(deps)
    {
      unique := [];
      for k := 0 to |deps|
        invariant unique == Unique(deps[..k])
      {
        assert deps[..k + 1][..k] == deps[..k];
        if deps[k] !in unique { unique := unique + [deps[k]]; }
      }
      assert deps[..|deps|] == deps;
    }

    /** The dependencies of the next event: those asked for, the predecessor, and this node's admission. */
    method Dependencies(deps: seq<EventId>, last: int) returns (unique: seq<EventId>)
      requires Sound() && last == LastSequence(Log(), self)
      ensures unique == Unique(deps + Head(Log(), self) + AdmissionOf(Log(), self))
    {
      hide WellKeyed, Unique;
      var all := deps;
      if last > 0 {
        var previous := Predecessor(self, last);
        OneHead(Log(), self, previous);
        all := all + [previous];
      }
      if self in members { all := all + [members[self].admission]; }
      assert all == deps + Head(Log(), self) + AdmissionOf(Log(), self);
      unique := WithoutRepeats(all);
    }

    /** `appendTx`: sign the node's next event and admit it like any other. */
    method AppendTx(env: Env, body: Body, deps: seq<EventId>) returns (r: Result<EventId>)
      modifies this
      requires Sound()
      ensures match AppendBody(old(Db()), env, body, deps)
              case Ok(commit) => r == Ok(commit.value) && Db() == commit.db && Sound()
              case Err(reason) => r == Err(reason)
      ensures inbox == old(inbox) && submissions == old(submissions)
      ensures Local() == old(Local())
    {
      hide WellKeyed, Insert, Unique, Head, AdmissionOf, LastSequence, TopLamport;
      var last := LastOf(self);
      var unique := Dependencies(deps, last);
      var top := LastLamport();
      if top >= INT64_MAX { return Err(LamportExhausted); }
      var c := Content(fleet, self, last + 1, top + 1, PROTOCOL, env.now, unique, body, env.encodedLength(body), self);
      assert c == Draft(Log(), self, env, body, deps);
      var error := InsertTx(Signed(c));
      if error.Some? { return Err(error.value); }
      return Ok(Hash(c));
    }

    /** `Append`, one transaction. */
    method Append(env: Env, body: Body, deps: seq<EventId>) returns (r: Result<EventId>)
      modifies this
      requires Sound()
      ensures if !Active(old(Log()), self) then r == Err(Inactive) && State() == old(State())
              else match AppendBody(old(Db()), env, body, deps)
                   case Ok(commit) => r == Ok(commit.value) && Db() == commit.db && Sound()
                   case Err(reason) => r == Err(reason) && State() == old(State())
      ensures Local() == old(Local())
    {
      hide WellKeyed, AppendBody;
      if !Active(Log(), self) { return Err(Inactive); }
      var saved := State();
      r := AppendTx(env, body, deps);
      if r.Err? { Rollback(saved); }
    }

    /** `Bootstrap`: found a fleet with this identity's own admission, unless the database has one. */
    method Bootstrap(env: Env, member: Member) returns (r: Result<EventId>)
      modifies this
      requires Sound()
      ensures if old(fleet) != "" || old(stored).Some? then r == Err(AlreadyInitialized) && State() == old(State())
              else match AppendBody(old(Db()).(log := old(Log()).(fleet := FleetOf(self))), env, MemberBody(member), [])
                   case Ok(commit) =>
                     r == Ok(commit.value) && Db() == commit.db && Sound() && stored == Some(FleetOf(self))
                   case Err(reason) => r == Err(reason) && State() == old(State())
      ensures Local() == old(Local()).(stored := stored)
    {
      hide WellKeyed, AppendBody;
      if fleet != "" { return Err(AlreadyInitialized); }
      if stored.Some? { return Err(AlreadyInitialized); }
      var saved := State();
      fleet := FleetOf(self);
      SameKeys(saved.log, Log());
      stored := Some(fleet);
      r := AppendTx(env, MemberBody(member), []);
      if r.Err? { Rollback(saved); }
    }

    // ---- batches ---------------------------------------------------------------

    /** The loop of `Ingest` and `InitializeJoin`. */
    method InsertEvents(batch: seq<Event>) returns (error: Option<Rejection>)
      modifies this
      requires Sound()
      ensures match InsertAll(old(Log()), batch)
              case Ok(next) => error.None? && Log() == next && Sound()
              case Err(reason) => error == Some(reason)
      ensures inbox == old(inbox) && submissions == old(submissions)
      ensures Local() == old(Local())
    {
      hide WellKeyed, Insert;
      assert batch[0..] == batch;
      for k := 0 to |batch|
        invariant Sound() && InsertAll(old(Log()), batch) == InsertAll(Log(), batch[k..])
        invariant inbox == old(inbox) && submissions == old(submissions)
        invariant Local() == old(Local())
      {
        assert batch[k..][0] == batch[k] && batch[k..][1..] == batch[k + 1..];
        error := InsertTx(batch[k]);
        if error.Some? { return; }
      }
      return None;
    }

    /** The checks and inserts of `Ingest` for the blobs of an envelope. */
    method InsertBlobs(outs: map<OutputHash, seq<Byte>>, now: int) returns (error: Option<Rejection>)
      modifies this`outputs
      requires BlobsSound(outputs)
      ensures error.None? <==> forall h :: h in outs ==> GoodBlob(Log(), h, outs[h])
      ensures error.Some? ==> error.value == InvalidOutput || error.value == UnreferencedOutput
      ensures error.None? ==> outputs == Merged(old(outputs), Log(), outs, now) && BlobsSound(outputs)
    {
      hide Referenced, Merged, Expiry, BlobsSound, WithBlob, GoodBlob;
      var todo := outs.Keys;
      ghost var done: map<OutputHash, seq<Byte>> := map[];
      ghost var log := Log();
      MergedNothing(outputs, log, now);
      while todo != {}
        invariant todo <= outs.Keys && done.Keys == outs.Keys - todo && forall h :: h in done ==> done[h] == outs[h]
        invariant forall h :: h in done ==> GoodBlob(log, h, outs[h])
        invariant outputs == Merged(old(outputs), log, done, now) && BlobsSound(outputs)
        invariant Log() == log
      {
        var h :| h in todo;
        var out := outs[h];
        GoodMeans(log, h, out);
        if |out| > MAX_OUTPUT || h != OutputHash(out) { return Some(InvalidOutput); }
        if !Referenced(Log(), h) { return Some(UnreferencedOutput); }
        var expires := ExpiryOf(h);
        MergedMore(old(outputs), log, done, now, h, out);
        BlobAdded(outputs, h, Blob(out, expires));
        if expires > now { outputs := WithBlob(outputs, h, Blob(out, expires)); }
        todo := todo - {h};
        done := done[h := out];
      }
      assert done == outs;
      return None;
    }

    /** `SELECT MAX(updatedAt)` over the receipts that use a blob, and ninety days. */
    method ExpiryOf(h: OutputHash) returns (expires: int)
      requires Referenced(Log(), h)
      ensures expires == Expiry(Log(), h)
    {
      var times := Times(Log(), h);
      ghost var latest := LatestUse(Log(), h);
      var last :| last in times && forall t :: t in times ==> t <= last;
      expires := last + NINETY_DAYS;
    }

    /** `Ingest`: a whole envelope in one transaction, or nothing. */
    method Ingest(batch: seq<Event>, outs: map<OutputHash, seq<Byte>>, now: int) returns (r: Result<seq<EventId>>)
      modifies this
      requires Sound()
      ensures match Admission.Ingest(old(Log()), batch)
              case Ok(next) =>
                if forall h :: h in outs ==> GoodBlob(next, h, outs[h]) then
                  && r == Ok(System.IdsOf(batch)) && Log() == next && Sound()
                  && outputs == Merged(old(outputs), next, outs, now)
                else r in {Err(InvalidOutput), Err(UnreferencedOutput)} && State() == old(State())
              case Err(reason) => r == Err(reason) && State() == old(State())
      ensures r.Ok? ==> AllGenuine(batch, old(fleet))
      ensures Sound() && inbox == old(inbox) && submissions == old(submissions)
      ensures Local() == old(Local()).(outputs := outputs)
    {
      hide WellKeyed, InsertAll, GoodBlob, Merged, BlobsSound, AllGenuine;
      if InsertAll(Log(), batch).Ok? { AllAreGenuine(Log(), batch); }
      if |batch| > MAX_BATCH { return Err(BatchLimit); }
      var saved := State();
      var error := InsertEvents(batch);
      if error.None? { error := InsertBlobs(outs, now); }
      if error.Some? {
        Rollback(saved);
        return Err(error.value);
      }
      return Ok(System.IdsOf(batch));
    }

    /**
     `InitializeJoin`: adopt a fleet and its history if this identity is admitted in it.  A failure clears the fleet in
     memory, even one the database has; opening it again brings that back.
     */
    method InitializeJoin(f: string, batch: seq<Event>) returns (error: Option<Rejection>)
      modifies this
      requires Sound()
      ensures if old(fleet) != "" && old(fleet) != f then error == Some(AlreadyInitialized) && State() == old(State())
              else match InsertAll(old(Log()).(fleet := f), batch)
                   case Ok(next) =>
                     if Active(next, self) then error.None? && Log() == next && Sound() && stored == Some(f)
                     else error == Some(Inactive) && State() == old(State()).(log := old(Log()).(fleet := ""))
                   case Err(reason) =>
                     error == Some(reason) && State() == old(State()).(log := old(Log()).(fleet := ""))
      ensures error.None? ==> AllGenuine(batch, f) && self in members && !members[self].removed
      ensures inbox == old(inbox) && submissions == old(submissions)
      ensures Local() == old(Local()).(stored := stored)
    {
      hide WellKeyed, InsertAll, AllGenuine;
      if fleet != "" && fleet != f { return Some(AlreadyInitialized); }
      var saved := State();
      fleet := f;
      SameKeys(saved.log, Log());
      stored := Some(f);
      if InsertAll(Log(), batch).Ok? { AllAreGenuine(Log(), batch); }
      error := InsertEvents(batch);
      if error.None? && !Active(Log(), self) { error := Some(Inactive); }
      if error.Some? {
        Rollback(saved);
        fleet := "";
      }
    }

    // ---- exports ------------------------------------------------------------------

    /** `SELECT origin,MAX(seq) FROM events GROUP BY origin`. */
    method Cursors() returns (cursors: Exchange.Cursors)
      ensures ExactCursors(Log(), cursors)
    {
      cursors := map[];
      var origins := set id | id in events :: id.of.origin;
      var todo := origins;
      while todo != {}
        invariant todo <= origins && cursors.Keys == origins - todo
        invariant forall origin :: origin in cursors ==> cursors[origin] == LastSequence(Log(), origin)
      {
        var origin :| origin in todo;
        var last := LastOf(origin);
        cursors := cursors[origin := last];
        todo := todo - {origin};
      }
      forall origin ensures CursorAt(cursors, origin) == LastSequence(Log(), origin) {
        assert origin !in origins ==> forall id :: id in events ==> id.of.origin != origin;
      }
    }

    /** `SELECT body FROM events ORDER BY lamport,origin,seq`. */
    method OrderedRows() returns (rows: seq<Event>)
      requires Sound()
      ensures Ordered(rows) && forall k :: 0 <= k < |rows| ==> rows[k].id in events && rows[k] == events[rows[k].id]
      ensures forall id :: id in events ==> Contains(rows, id)
    {
      hide WellKeyed, RankLess;
      rows := [];
      var todo := events.Keys;
      while todo != {}
        invariant todo <= events.Keys && Ordered(rows)
        invariant forall k :: 0 <= k < |rows| ==> rows[k].id in events && rows[k] == events[rows[k].id]
        invariant forall id, k :: id in todo && 0 <= k < |rows| ==> Before(rows[k].id, id)
        invariant forall id :: id in events ==> id in todo || Contains(rows, id)
      {
        LeastExists(Log(), todo);
        var least :| least in todo && forall id :: id in todo && id != least ==> Before(least, id);
        KeyedRow(Log(), least);
        ghost var before := rows;
        rows := rows + [events[least]];
        todo := todo - {least};
        forall id | id in events && id !in todo ensures Contains(rows, id) {
          if id == least { assert rows[|before|].id == id; }
          else { var j :| 0 <= j < |before| && before[j].id == id; assert rows[j].id == id; }
        }
      }
    }

    /** The first loop of `Export`: one bounded batch of what the cursors lack, in order. */
    method ExportRows(cursors: Exchange.Cursors, limit: int, rowLength: Event -> nat)
      returns (batch: seq<Event>, size: nat)
      requires Sound()
      ensures IsExport(Log(), cursors, limit, rowLength, batch) && size == Total(rowLength, batch)
    {
      hide WellKeyed, Before, Rows, Ordered, NoSkips, Whole, IsExport, Total, Picked, Contains, Missing, CursorAt,
        NextLeft;
      var cap := if limit < 1 || limit > MAX_BATCH then MAX_BATCH else limit;
      var rows := OrderedRows();
      batch, size := [], 0;
      ghost var picked: seq<nat> := [];
      ghost var next := 0;
      PickedNothing(Log(), cursors, rows);
      assert size == Total(rowLength, batch) by { TotalSnoc(rowLength, batch); }
      for k := 0 to |rows|
        invariant next == k && Picked(Log(), cursors, rows, picked, batch, k)
        invariant size == Total(rowLength, batch) && |batch| < cap && (|batch| <= 1 || size <= MAX_BODY / 2)
      {
        var e := rows[k];
        KeyedRow(Log(), e.id);
        if e.content.sequence <= CursorAt(cursors, e.content.origin) {
          SkipRow(Log(), cursors, rows, picked, batch, k);
          next := k + 1;
          continue;
        }
        var length := rowLength(e);
        if |batch| > 0 && size + length > MAX_BODY / 2 {
          PickedIsExport(Log(), cursors, limit, rowLength, rows, picked, batch, k);
          return;
        }
        TakeRow(Log(), cursors, rows, picked, batch, k);
        TotalMore(rowLength, batch, e);
        batch := batch + [e];
        picked := picked + [k];
        size := size + length;
        next := k + 1;
        if |batch| >= cap { break; }
      }
      PickedIsExport(Log(), cursors, limit, rowLength, rows, picked, batch, next);
    }

    /** `Export`: one bounded batch, and the stored blobs of its receipts as far as they fit. */
    method Export(cursors: Exchange.Cursors, limit: int, rowLength: Event -> nat, now: int)
      returns (batch: seq<Event>, outs: map<OutputHash, seq<Byte>>)
      requires Sound()
      ensures IsExport(Log(), cursors, limit, rowLength, batch)
      ensures outs == Attach(outputs, now, batch, Total(rowLength, batch), map[])
      ensures AttachedFrom(outputs, batch, outs)
    {
      hide WellKeyed, IsExport, Attachable, Total;
      var size: nat;
      batch, size := ExportRows(cursors, limit, rowLength);
      ghost var start := size;
      outs := map[];
      assert batch[0..] == batch;
      for k := 0 to |batch|
        invariant Attach(outputs, now, batch, start, map[]) == Attach(outputs, now, batch[k..], size, outs)
      {
        assert batch[k..][0] == batch[k] && batch[k..][1..] == batch[k + 1..];
        var h := HashIn(batch[k]);
        if Attachable(outputs, now, h, size) {
          AttachableBlob(outputs, now, h, size);
          outs := outs[h := outputs[h].body];
          size := size + |outputs[h].body|;
        }
      }
      AttachFrom(outputs, now, batch, batch, start, map[]);
    }

    // ---- replica accounting ------------------------------------------------------

    /** `RememberReplicas`. */
    method RememberReplicas(peer: NodeId, ids: seq<EventId>)
      modifies this`replicas
      ensures replicas == old(replicas) + System.AckReplicas(System.Report(peer, map[], ids))
    {
      for k := 0 to |ids|
        invariant replicas == old(replicas) + set id | id in ids[..k] :: (id, peer)
      {
        assert ids[..k + 1] == ids[..k] + [ids[k]];
        replicas := replicas + {(ids[k], peer)};
      }
      assert ids[..|ids|] == ids;
    }

    /** The last transaction of `Sync`: events up to the peer's cursors are copies at the peer. */
    method RememberCursors(peer: NodeId, cursors: Exchange.Cursors)
      modifies this`replicas
      requires Sound()
      ensures replicas == old(replicas) + System.CursorReplicas(Log(), System.Report(peer, cursors, []))
    {
      hide WellKeyed;
      var todo := cursors.Keys;
      ghost var done: set<NodeId> := {};
      while todo != {}
        invariant todo <= cursors.Keys && done == cursors.Keys - todo
        invariant replicas == old(replicas) + UpTo(Log(), peer, cursors, done)
      {
        var origin :| origin in todo;
        var last := cursors[origin];
        var reached := set id | id in events && id.of.origin == origin && id.of.sequence <= last :: (id, peer);
        UpToAdds(Log(), peer, cursors, done, origin);
        replicas := replicas + reached;
        todo := todo - {origin};
        done := done + {origin};
      }
      UpToAll(Log(), peer, cursors);
    }

    // ---- execution journal ---------------------------------------------------------

    /** `receiptTx`: store the output of a result, and append the receipt. */
    method ReceiptTx(env: Env, c: Command, status: Status, message: string, result: Option<Executed>)
      returns (r: Result<Receipt>)
      modifies this
      requires Sound()
      ensures match AppendReceipt(old(Db()), env, c, status, message, DetailsOf(result))
              case Ok(commit) => r == Ok(commit.value) && Db() == commit.db && Sound()
              case Err(reason) => r == Err(reason)
      ensures inbox == old(inbox) && submissions == old(submissions)
      ensures Local() == old(Local()).(outputs := AfterResult(old(outputs), result, env.now))
    {
      hide WellKeyed, AppendBody, StoredOutput, BlobsSound, WithBlob;
      AfterResultSound(outputs, result, env.now);
      var details := NO_DETAILS;
      if result.Some? {
        var e := result.value;
        var output := OutputOf(e);
        details := Details(e.via, e.installed, e.installations, HashOf(output));
        if output != [] { outputs := WithBlob(outputs, details.outputHash, Blob(output, env.now + NINETY_DAYS)); }
      }
      var receipt := ReceiptFor(c, env, status, message, details);
      if c.id !in commands { return Err(NotFound); }
      var e := AppendTx(env, ReceiptBody(receipt), [commands[c.id].event]);
      if e.Err? { return Err(e.error); }
      return Ok(receipt);
    }

    /** What is kept of an output: cleaned of invalid bytes, cut and trimmed. */
    method OutputOf(e: Executed) returns (output: seq<Byte>)
      ensures output == StoredOutput(e)
    {
      CleanedIsValid(e.output);
      output := OutputBound.Bound(Cleaned(e.output));
    }

    /** A receipt and the matching `UPDATE inbox SET state=? WHERE id=?`. */
    method AdvanceTx(env: Env, c: Command, status: Status, message: string, result: Option<Executed>)
      returns (r: Result<Receipt>)
      modifies this
      requires Sound()
      ensures match Advance(old(Db()), env, c, status, message, DetailsOf(result))
              case Ok(commit) => r == Ok(commit.value) && Db() == commit.db && Sound()
              case Err(reason) => r == Err(reason)
      ensures Local() == old(Local()).(outputs := AfterResult(old(outputs), result, env.now))
    {
      hide WellKeyed, AppendReceipt, DetailsOf, AfterResult;
      r := ReceiptTx(env, c, status, message, result);
      if r.Ok? { inbox := SetState(inbox, c.id, status); }
    }

    /** The first answer to a command this node is asked to accept. */
    method Judge(env: Env, c: Command) returns (status: Status, message: string)
      ensures (status, message) == AcceptStatus(c, env)
    {
      hide ValidKind, ValidDiagnostics;
      status, message := Queued, "Accepted durably by target";
      if !ValidKind(c.kind) {
        status, message := Failed, "This node version does not support the command";
      } else if c.kind == "diagnostics" && (!ValidDiagnostics(c.payload) || c.secret != "") {
        status, message := Failed, "Invalid diagnostic profile or parameters";
      } else if c.delivery.Deferred? && env.clockUncertain {
        status, message := Held, "Clock uncertain; waiting for trustworthy time";
      } else if c.delivery.Deferred? && c.expiresAt <= env.now {
        status, message := Expired, "Expired before target acceptance";
      }
    }

    /** `Accept`: the only way a command becomes executable work. */
    method Accept(env: Env, id: CommandId) returns (r: Result<Receipt>)
      modifies this
      requires Sound()
      ensures match Journal.Accept(old(Db()), env, id)
              case Ok(commit) => r == Ok(commit.value) && Db() == commit.db && Sound()
              case Err(reason) => r == Err(reason) && State() == old(State())
      ensures Local() == old(Local())
    {
      hide WellKeyed, AppendReceipt, AcceptStatus, InInbox;
      if id !in commands { return Err(NotFound); }
      var c := commands[id].command;
      if c.target != self { return Err(WrongTarget); }
      if !Active(Log(), c.target) { return Err(Inactive); }
      if !Active(Log(), commands[id].event.of.origin) { return Err(OriginRemoved); }
      if id in receipts { return Ok(receipts[id].receipt); }
      var saved := State();
      var status, message := Judge(env, c);
      r := ReceiptTx(env, c, status, message, None);
      if r.Ok? && InInbox(inbox, id) { r := Err(InboxConflict); }
      if r.Err? { Rollback(saved); } else { inbox := inbox + [InboxRow(id, status)]; }
    }

    /** `Next`: hand out the first accepted command that may run, settling those that no longer may. */
    method Next(env: Env) returns (r: Result<Option<Command>>)
      modifies this
      requires Sound()
      ensures match Journal.Next(old(Db()), env)
              case Ok(commit) => r == Ok(commit.value) && Db() == commit.db && Sound()
              case Err(reason) => r == Err(reason) && State() == old(State())
      ensures Local() == old(Local())
    {
      hide WellKeyed, Advance, Active;
      var saved := State();
      var ids := Select(inbox, {Queued, Held});
      ghost var done: seq<EventId> := [];
      assert ids[0..] == ids;
      AfterNothing(Scan(Db(), env, ids));
      for k := 0 to |ids|
        invariant Sound() && Local() == old(Local())
        invariant Scan(old(Db()), env, ids) == After(done, Scan(Db(), env, ids[k..]))
      {
        var id := ids[k];
        assert ids[k..][0] == id && ids[k..][1..] == ids[k + 1..];
        if id !in commands {
          Rollback(saved);
          return Err(NotFound);
        }
        RowCommandId(Log(), id);
        var c, origin := commands[id].command, commands[id].event.of.origin;
        var status, message := Running, "Running on target";
        if !Active(Log(), c.target) || !Active(Log(), origin) {
          status, message := Failed, "Target or command origin was removed before execution";
        } else if c.delivery.Deferred? && env.clockUncertain {
          continue;
        } else if c.delivery.Deferred? && c.expiresAt <= env.now {
          status, message := Expired, "Expired before execution";
        }
        ghost var step := Advance(Db(), env, c, status, message, NO_DETAILS);
        var receipt := AdvanceTx(env, c, status, message, None);
        if receipt.Err? {
          Rollback(saved);
          return Err(receipt.error);
        }
        if status == Running { return Ok(Some(c)); }
        AfterMore(done, step.value.appended, Scan(Db(), env, ids[k + 1..]));
        done := done + step.value.appended;
      }
      return Ok(None);
    }

    /** `Complete`: record the executor's result for a running command. */
    method Complete(env: Env, c: Command, result: Executed) returns (r: Result<Receipt>)
      modifies this
      requires Sound()
      ensures match Journal.Complete(old(Db()), env, c, result.status, result.message, DetailsOf(Some(result)))
              case Ok(commit) =>
                r == Ok(commit.value) && Db() == commit.db && Sound()
                && outputs == AfterResult(old(outputs), Some(result), env.now)
              case Err(reason) => r == Err(reason) && State() == old(State())
      ensures Local() == old(Local()).(outputs := outputs)
    {
      hide WellKeyed, Advance, DetailsOf, AfterResult;
      var state := StateOf(inbox, c.id);
      if state.None? { return Err(NotFound); }
      if state.value != Running { return Err(NotRunning); }
      if result.status != Done && result.status != Failed && result.status != Unknown { return Err(InvalidResult); }
      var saved := State();
      r := AdvanceTx(env, c, result.status, result.message, Some(result));
      if r.Err? { Rollback(saved); }
    }

    /** `RecoverExcept`: after a crash, requeue read-only work and give up on the rest. */
    method RecoverExcept(env: Env, pendingUpdate: CommandId) returns (error: Option<Rejection>)
      modifies this
      requires Sound()
      ensures match Recover(old(Db()), env, pendingUpdate)
              case Ok(commit) => error.None? && Db() == commit.db && Sound()
              case Err(reason) => error == Some(reason) && State() == old(State())
      ensures Local() == old(Local())
    {
      hide WellKeyed, Advance;
      var saved := State();
      var ids := Without(Select(inbox, {Running}), pendingUpdate);
      ghost var done: seq<EventId> := [];
      assert ids[0..] == ids;
      AfterNothing(Settle(Db(), env, ids));
      for k := 0 to |ids|
        invariant Sound() && Local() == old(Local())
        invariant Settle(old(Db()), env, ids) == After(done, Settle(Db(), env, ids[k..]))
      {
        var id := ids[k];
        assert ids[k..][0] == id && ids[k..][1..] == ids[k + 1..];
        if id !in commands {
          Rollback(saved);
          return Some(NotFound);
        }
        var c := commands[id].command;
        var status, message := Unknown, "Interrupted during execution; inspect the machine before an explicit retry";
        if c.kind == "check" || c.kind == "diagnostics" {
          status, message := Queued, "Retrying interrupted read-only check";
        }
        ghost var step := Advance(Db(), env, c, status, message, NO_DETAILS);
        var receipt := AdvanceTx(env, c, status, message, None);
        if receipt.Err? {
          Rollback(saved);
          return Some(receipt.error);
        }
        AfterMore(done, step.value.appended, Settle(Db(), env, ids[k + 1..]));
        done := done + step.value.appended;
      }
      return None;
    }

    // ---- submission -----------------------------------------------------------------

    /** The loop of `CreateCommands` that looks up what a remembered submission created. */
    method RecallAll(job: string, targets: seq<NodeId>) returns (r: Result<seq<EventId>>)
      ensures r == Recall(Log(), job, targets)
    {
      var found: seq<EventId> := [];
      assert targets[0..] == targets;
      FoundNone(Recall(Log(), job, targets));
      for k := 0 to |targets|
        invariant Recall(Log(), job, targets) == AfterFound(found, Recall(Log(), job, targets[k..]))
      {
        assert targets[k..][0] == targets[k] && targets[k..][1..] == targets[k + 1..];
        var id := CommandIdOf(fleet, job, targets[k]);
        if id !in commands { return Err(NotFound); }
        FoundMore(found, commands[id].event, Recall(Log(), job, targets[k + 1..]));
        found := found + [commands[id].event];
      }
      assert found + [] == found;
      return Ok(found);
    }

    /** The loop of `CreateCommands` that appends one command per target. */
    method SubmitEach(env: Env, request: Request) returns (r: Result<seq<EventId>>)
      modifies this
      requires Sound()
      ensures match SubmitAll(old(Db()), env, request, request.machineIds)
              case Ok(commit) => r == Ok(commit.value) && Db() == commit.db && Sound()
              case Err(reason) => r == Err(reason)
      ensures Local() == old(Local())
    {
      hide WellKeyed, AppendBody, CommandFor;
      var targets := request.machineIds;
      var found: seq<EventId> := [];
      ghost var done: seq<EventId> := [];
      assert targets[0..] == targets;
      BothNothing(SubmitAll(Db(), env, request, targets));
      for k := 0 to |targets|
        invariant Sound() && Local() == old(Local())
        invariant SubmitAll(old(Db()), env, request, targets)
          == AfterBoth(done, found, SubmitAll(Db(), env, request, targets[k..]))
      {
        var target := targets[k];
        assert targets[k..][0] == target && targets[k..][1..] == targets[k + 1..];
        if !Active(Log(), target) { return Err(Inactive); }
        if Field(request.payload, "password") != "" && |members[target].member.encryptionKey| != KEY_BYTES {
          return Err(InvalidMember);
        }
        var c := CommandFor(Log(), env, request, target);
        ghost var step := AppendBody(Db(), env, CommandBody(c), AdmissionOf(Log(), target));
        var e := AppendTx(env, CommandBody(c), [members[target].admission]);
        if e.Err? { return Err(e.error); }
        BothMore(done, step.value.appended, found, e.value, SubmitAll(Db(), env, request, targets[k + 1..]));
        found := found + [e.value];
        done := done + step.value.appended;
      }
      assert found + [] == found;
      return Ok(found);
    }

    /** `CreateCommands`. */
    method CreateCommands(env: Env, req: SubmitRequest) returns (r: Result<seq<EventId>>)
      modifies this
      requires Sound()
      ensures match Submission.CreateCommands(old(Db()), env, req)
              case Ok(commit) => r == Ok(commit.value) && Db() == commit.db && Sound()
              case Err(reason) => r == Err(reason) && State() == old(State())
      ensures Local() == old(Local()).(preferences :=
        if r.Ok? && req.submissionId !in old(submissions) then PreferencesAfter(old(preferences), Normal(req))
        else old(preferences))
    {
      hide WellKeyed, SubmitAll, ValidRequest, Normal, Recall;
      var request := Normal(req);
      NormalId(req);
      if !ValidRequest(env, request) { return Err(InvalidRequest); }
      if !Active(Log(), self) { return Err(Inactive); }
      if request.submissionId in submissions {
        if submissions[request.submissionId] != request { return Err(SubmissionReused); }
        r := RecallAll(request.submissionId, request.machineIds);
        return;
      }
      if exists c :: c in commands && commands[c].command.jobId == request.submissionId {
        return Err(SubmittedElsewhere);
      }
      var saved := State();
      r := SubmitEach(env, request);
      if r.Err? {
        Rollback(saved);
      } else {
        preferences := PreferencesAfter(preferences, request);
        submissions := submissions[request.submissionId := request];
      }
    }

    /** `RetryCommand`. */
    method RetryCommand(env: Env, id: CommandId, submission: string) returns (r: Result<EventId>)
      modifies this
      requires Sound()
      ensures match Submission.RetryCommand(old(Db()), env, id, submission)
              case Ok(commit) => r == Ok(commit.value) && Db() == commit.db && Sound()
              case Err(reason) => r == Err(reason) && State() == old(State())
      ensures Local() == old(Local())
    {
      hide WellKeyed, AppendBody;
      if !ValidSubmissionId(submission) { return Err(InvalidRequest); }
      if id !in commands { return Err(NotFound); }
      var c := commands[id].command;
      if !Active(Log(), self) || !Active(Log(), c.target) { return Err(Inactive); }
      if id in receipts && BlocksRetry(receipts[id].receipt.status) { return Err(NotRetryable); }
      var newId := CommandIdOf(fleet, submission, c.target);
      if newId in commands {
        if commands[newId].command.retryOf != id { return Err(RetryConflict); }
        return Ok(commands[newId].event);
      }
      var saved := State();
      var retry := c.(retryOf := id, id := newId, jobId := submission, createdAt := env.now, delivery := Online,
                      expiresAt := 0);
      r := AppendTx(env, CommandBody(retry), []);
      if r.Err? { Rollback(saved); }
    }
  }
}
