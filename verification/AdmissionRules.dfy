/**
 What admission means on the fields of events, members, commands and receipts
 alone: which events a database takes, whose they are, and what a local append
 puts into one.
 */
module AdmissionRules {
  import opened Records
  import opened Ordering
  import opened Admission
  import opened LogInvariant
  import opened World
  import opened LocalAppend

  // ---- whose an event is -----------------------------------------------------

  /** The ID is the hash of the content, the key signed it, and the origin is that key's digest. */
  ghost predicate ByItsOwner(e: Event) {
    && e.id == Hash(e.content) && e.signature == Signature(e.content.publicKey, e.content)
    && e.content.origin == Digest(e.content.publicKey)
  }

  /** The protocol, the fleet and the ranges every event keeps to. */
  ghost predicate InRange(e: Event, fleet: string) {
    var c := e.content;
    && c.version == 2 && c.fleet == fleet && |c.publicKey| == 32
    && 1 <= c.sequence <= 9223372036854775807 && 1 <= c.lamport <= 9223372036854775807
  }

  /** A body of at most one mebibyte and at most 64 dependencies. */
  ghost predicate Short(e: Event) { e.content.bodyLength <= 1048576 && |e.content.dependencies| <= 64 }

  lemma VerifyMeans(e: Event, fleet: string)
    ensures Verify(e, fleet) ==
      if !ByItsOwner(e) || !InRange(e, fleet) then Some(Unverified) else if !Short(e) then Some(Oversized) else None
  {
  }

  /** The event an ID names, as a database stores it, passes every check on its own. */
  ghost predicate Genuine(e: Event, fleet: string) { ByItsOwner(e) && InRange(e, fleet) && Short(e) }

  /** Everything an admitted database holds is its origin's own, and signed with the key its admission names. */
  lemma {:induction false} HeldIsGenuine(log: Log, id: EventId)
    requires Valid(log) && id in log.events
    ensures var e := log.events[id];
      e.id == id && Genuine(e, log.fleet) && e.content.origin in log.members
      && e.signature == Signature(log.members[e.content.origin].member.publicKey, e.content)
  {
    hide Unforked, Chained, Causal, LegacySound, RemovalsSound, TablesValid, Founded, Verify, Genuine, SameMember;
    VerifyMeans(log.events[id], log.fleet);
    assert Known(log, id.of.origin);
    assert Genuine(log.events[id], log.fleet) by { GenuineVerifies(log.events[id], log.fleet); }
  }

  lemma GenuineVerifies(e: Event, fleet: string)
    ensures Genuine(e, fleet) <==> Verify(e, fleet).None?
  {
    hide Verify, ByItsOwner, InRange, Short;
    VerifyMeans(e, fleet);
  }

  /** An event that is not its origin's own is refused as such, whatever else it gets right. */
  lemma {:induction false} ForgeryIsUnverified(log: Log, e: Event)
    requires !ByItsOwner(e)
    ensures Insert(log, e) == Err(Unverified)
  {
    hide ByItsOwner, InRange, Short, Gate, Refusal;
    VerifyMeans(e, log.fleet);
  }

  /** One such event anywhere in a batch refuses the batch; if all before it are admissible, as unverified. */
  lemma {:induction false} ForgeryRefusesBatch(log: Log, events: seq<Event>, k: nat)
    requires k < |events| && !ByItsOwner(events[k])
    ensures InsertAll(log, events).Err? && Ingest(log, events).Err?
    ensures InsertAll(log, events[..k]).Ok? ==> InsertAll(log, events) == Err(Unverified)
    decreases k
  {
    hide ByItsOwner, Insert;
    if k == 0 {
      ForgeryIsUnverified(log, events[0]);
    } else if Insert(log, events[0]).Ok? {
      ForgeryRefusesBatch(Insert(log, events[0]).value, events[1..], k - 1);
      assert events[..k][0] == events[0] && events[..k][1..] == events[1..][..k - 1];
    } else {
      assert events[..k][0] == events[0];
    }
  }

  /** So whatever a committed batch contains is genuine. */
  lemma {:induction false} AdmittedIsGenuine(log: Log, events: seq<Event>, k: nat)
    requires k < |events| && InsertAll(log, events).Ok?
    ensures Genuine(events[k], log.fleet)
    decreases k
  {
    hide Genuine, Verify, Gate, Refusal, With;
    if k == 0 {
      GenuineVerifies(events[0], log.fleet);
    } else {
      InsertFleet(log, events[0]);
      AdmittedIsGenuine(Insert(log, events[0]).value, events[1..], k - 1);
    }
  }

  ghost predicate AllGenuine(events: seq<Event>, fleet: string) {
    forall k :: 0 <= k < |events| ==> Genuine(events[k], fleet)
  }

  lemma AllAreGenuine(log: Log, events: seq<Event>)
    requires InsertAll(log, events).Ok?
    ensures AllGenuine(events, log.fleet)
  {
    hide Genuine, InsertAll;
    forall k | 0 <= k < |events| ensures Genuine(events[k], log.fleet) { AdmittedIsGenuine(log, events, k); }
  }

  lemma InsertFleet(log: Log, e: Event)
    requires Insert(log, e).Ok?
    ensures Insert(log, e).value.fleet == log.fleet
  {
    hide Verify, Gate, Refusal;
  }

  // ---- which events a database takes -------------------------------------------

  /**
   The event continues its origin's chain: every held event of the origin has a smaller sequence, the one before it is
   held and named, and so is everything it depends on, with a smaller Lamport counter; and its origin is a member, or
   is the founder admitting itself.
   */
  ghost predicate InPlace(log: Log, id: EventId) {
    var c := id.of;
    && (forall p :: p in log.events && p.of.origin == c.origin ==> p.of.sequence < c.sequence)
    && (c.sequence > 1 ==>
          exists p :: p in log.events && p.of.origin == c.origin && p.of.sequence == c.sequence - 1
                      && p in c.dependencies)
    && (forall d :: d in c.dependencies ==> d in log.events && d.of.lamport < c.lamport)
    && (c.origin in log.members || FoundsFleet(c))
  }

  /** A member event that opens a fleet: the first of its origin, in the fleet its origin founds, after nothing. */
  ghost predicate FoundsFleet(c: Content) {
    c.body.MemberBody? && c.sequence == 1 && c.dependencies == [] && c.fleet == Digest("PrettyDamnFleet/v2/" + c.origin)
  }

  /** What each kind of event must satisfy against the tables. */
  ghost predicate Acceptable(log: Log, c: Content) {
    match c.body
    case MemberBody(m) =>
      && |m.publicKey| == 32 && |m.encryptionKey| == 32 && m.id == Digest(m.publicKey) && |m.hostname| <= 255
      && (FoundsFleet(c) ==> m.id == c.origin)
    case RemoveBody(_) => true
    case CatalogBody(item, _) => item.id != ""
    case CommandBody(cmd) =>
      && cmd.id == Digest(log.fleet + "/" + cmd.jobId + "/" + cmd.target) && 1 <= |cmd.kind| <= 64
      && cmd.delivery in {Online, Deferred} && (cmd.delivery == Deferred ==> cmd.createdAt < cmd.expiresAt)
      && ("password" in cmd.payload ==> cmd.payload["password"] == "") && cmd.target in log.members
      && (cmd.id in log.commands ==> log.commands[cmd.id].command == cmd)
    case ReceiptBody(r) =>
      && r.commandId in log.commands && log.commands[r.commandId].command.target == c.origin && r.target == c.origin
      && r.status in {Queued, Held, Running, Done, Failed, Unknown, Expired}
      && (r.commandId in log.receipts ==> log.receipts[r.commandId].receipt.status !in {Done, Failed, Unknown, Expired})
    case InventoryBody(_) => true
    case ImportBody(_) => true
    case AliasBody(m, legacy) => m in log.members && log.members[m].member.legacyId in {"", legacy}
    case Undecodable(_) => false
  }

  lemma PlaceMeans(log: Log, id: EventId)
    requires Valid(log) && 1 <= id.of.sequence
    ensures Gate(log, id).None? <==> InPlace(log, id)
  {
    hide Unforked, Chained, Causal, MembershipValid, TablesValid, LastSequence, Verify;
    var last := LastSequence(log, id.of.origin);
    assert forall p :: p in log.events ==> 1 <= p.of.sequence by {
      forall p | p in log.events ensures 1 <= p.of.sequence { HeldSequence(log, p); }
    }
  }

  lemma HeldSequence(log: Log, p: EventId)
    requires Authentic(log) && p in log.events
    ensures 1 <= p.of.sequence
  {
    assert Verify(Signed(p.of), log.fleet).None?;
  }

  lemma AcceptableMeans(log: Log, c: Content)
    ensures Refusal(log, c).None? <==> Acceptable(log, c)
  {
  }

  /** A database takes an event if and only if it is genuine and held already, or in its place and acceptable. */
  lemma {:induction false} AdmittedIff(log: Log, e: Event)
    requires Valid(log)
    ensures Insert(log, e).Ok?
       <==> Genuine(e, log.fleet) && (e.id in log.events || (InPlace(log, e.id) && Acceptable(log, e.content)))
  {
    hide Valid, Verify, Genuine, Gate, InPlace, Refusal, Acceptable, With;
    GenuineVerifies(e, log.fleet);
    if Verify(e, log.fleet).None? {
      GenuineShape(e, log.fleet);
      PlaceMeans(log, e.id);
      AcceptableMeans(log, e.content);
    }
  }

  lemma GenuineShape(e: Event, fleet: string)
    requires Genuine(e, fleet)
    ensures 1 <= e.id.of.sequence && e.id.of == e.content
  {
  }

  // ---- who may be in a fleet ------------------------------------------------------

  /** A fleet has one founder: whoever opened it is whoever else opened it, and it admitted itself. */
  lemma {:induction false} OneFounder(log: Log, a: EventId, b: EventId)
    requires Valid(log) && a in log.events && b in log.events && FoundsFleet(a.of) && FoundsFleet(b.of)
    ensures a == b
  {
    hide Chained, Causal, MembershipValid, TablesValid, Verify;
    var prefix := "PrettyDamnFleet/v2/";
    FleetHeld(log, a);
    FleetHeld(log, b);
    assert (prefix + a.of.origin)[|prefix|..] == a.of.origin && (prefix + b.of.origin)[|prefix|..] == b.of.origin;
  }

  lemma FleetHeld(log: Log, id: EventId)
    requires Authentic(log) && id in log.events
    ensures id.of.fleet == log.fleet
  {
    assert Verify(Signed(id.of), log.fleet).None?;
  }

  /** Every database with a member in it holds its founder's admission of itself. */
  lemma {:induction false} FounderIsHeld(log: Log, m: NodeId)
    requires Valid(log) && m in log.members
    ensures exists id :: id in log.events && FoundsFleet(id.of)
  {
    hide ChainValid, TablesValid, Authored, LegacySound, RemovalsSound, SameMember, WellFormedMember;
    assert log.members[m].admission in log.events;
    var id :| id in log.events && Genesis(id.of);
    assert FoundsFleet(id.of);
  }

  // ---- what a local append makes -----------------------------------------------------

  /**
   The event of a local append: its origin's own, dated now, one sequence after its origin's last, one Lamport counter
   above everything held, after its origin's last event, its own admission and what it was told to follow.
   */
  ghost predicate Drafted(log: Log, self: NodeId, env: Env, body: Body, deps: seq<EventId>, id: EventId) {
    var c := id.of;
    && c.origin == self && c.publicKey == self && c.fleet == log.fleet && c.version == 2 && c.createdAt == env.now
    && c.body == body && c.bodyLength == env.encodedLength(body)
    && (forall p :: p in log.events ==> p.of.lamport < c.lamport)
    && (c.lamport > 1 ==> exists p :: p in log.events && p.of.lamport == c.lamport - 1)
    && (forall p :: p in log.events && p.of.origin == self ==> p.of.sequence < c.sequence)
    && (forall d :: d in c.dependencies <==>
          || d in deps
          || (d in log.events && d.of.origin == self && d.of.sequence == c.sequence - 1)
          || (self in log.members && d == log.members[self].admission))
  }

  lemma {:induction false} AppendedIsDrafted(log: Log, self: NodeId, env: Env, body: Body, deps: seq<EventId>)
    requires Valid(log)
    ensures Drafted(log, self, env, body, deps, Hash(Draft(log, self, env, body, deps)))
  {
    hide Authentic, Chained, Causal, MembershipValid, TablesValid;
    var id := Hash(Draft(log, self, env, body, deps));
    hide LastSequence, TopLamport, Head;
    var last := LastSequence(log, self);
    forall d | d in log.events && d.of.origin == self && d.of.sequence == last ensures d in Head(log, self) {
      if last == 0 { HeldAbove(log, d); } else { assert IsHead(log, self, Head(log, self)[0]); }
    }
  }

  lemma HeldAbove(log: Log, p: EventId)
    requires Valid(log) && p in log.events
    ensures 1 <= p.of.sequence
  {
    hide Unforked, Chained, Causal, MembershipValid, TablesValid, Verify;
    HeldSequence(log, p);
  }
}
