/**
 Agreement of databases as hash DAGs: an event ID commits to its whole past, so
 sharing one event means sharing everything it depends on, and no database
 holds two branches of a fork.  Nothing is assumed about the signers.
 */
module HashDag {
  import opened Records
  import opened Admission
  import opened LogInvariant
  import opened Convergence

  /** x is e or a direct or indirect dependency of e. */
  ghost predicate InPast(x: EventId, e: EventId)
    decreases e
  {
    x == e || exists d :: d in e.of.dependencies && InPast(x, d)
  }

  lemma {:induction false} PastHeld(log: Log, x: EventId, e: EventId)
    requires Causal(log) && e in log.events && InPast(x, e)
    ensures x in log.events && (x == e || x.of.lamport < e.of.lamport)
    decreases e
  {
    if x != e {
      var d :| d in e.of.dependencies && InPast(x, d);
      assert CausallyBelow(log, e);
      PastHeld(log, x, d);
    }
  }

  lemma {:induction false} PastTransitive(x: EventId, y: EventId, z: EventId)
    requires InPast(x, y) && InPast(y, z)
    ensures InPast(x, z)
    decreases z
  {
    if y != z {
      var d :| d in z.of.dependencies && InPast(y, d);
      PastTransitive(x, y, d);
    }
  }

  /** The earlier events of an origin are all in the past of its later ones. */
  lemma {:induction false} EarlierInPast(log: Log, p: EventId, e: EventId)
    requires ChainValid(log) && p in log.events && e in log.events
    requires p.of.origin == e.of.origin && p.of.sequence <= e.of.sequence
    ensures InPast(p, e)
    decreases e.of.sequence - p.of.sequence
  {
    assert Verify(Signed(p.of), log.fleet).None?;
    if p.of.sequence == e.of.sequence {
      assert p == e;
    } else {
      assert HasPredecessor(log, e);
      var q :| q in log.events && Precedes(q, e);
      EarlierInPast(log, p, q);
      PastTransitive(p, q, e);
    }
  }

  /** Sequences are contiguous: every number from 1 to a held event's has a held event of the same origin. */
  lemma {:induction false} Contiguous(log: Log, e: EventId, n: int) returns (p: EventId)
    requires ChainValid(log) && e in log.events && 1 <= n <= e.of.sequence
    ensures p in log.events && p.of.origin == e.of.origin && p.of.sequence == n
    decreases e.of.sequence - n
  {
    if n == e.of.sequence {
      p := e;
    } else {
      assert HasPredecessor(log, e);
      var q :| q in log.events && Precedes(q, e);
      p := Contiguous(log, q, n);
    }
  }

  /** If two databases share an event, they hold identical rows for its whole past. */
  lemma {:induction false} SharedPast(
      fleet: string, left: seq<seq<Event>>, right: seq<seq<Event>>, e: EventId, x: EventId)
    requires e in Replica(fleet, left).events && e in Replica(fleet, right).events && InPast(x, e)
    ensures x in Replica(fleet, left).events && x in Replica(fleet, right).events
    ensures Replica(fleet, left).events[x] == Replica(fleet, right).events[x]
  {
    hide Replica, InPast, MembershipValid, TablesValid;
    ReplicaValid(fleet, left);
    ReplicaValid(fleet, right);
    PastHeld(Replica(fleet, left), x, e);
    PastHeld(Replica(fleet, right), x, e);
  }

  /** If two databases share an event, they hold the same event at every earlier sequence of its origin. */
  lemma {:induction false} PrefixAgreement(
      fleet: string, left: seq<seq<Event>>, right: seq<seq<Event>>, e: EventId, p: EventId, q: EventId)
    requires e in Replica(fleet, left).events && e in Replica(fleet, right).events
    requires p in Replica(fleet, left).events && q in Replica(fleet, right).events
    requires p.of.origin == q.of.origin == e.of.origin && p.of.sequence == q.of.sequence <= e.of.sequence
    ensures p == q
  {
    hide Replica, InPast, MembershipValid, TablesValid;
    ReplicaValid(fleet, left);
    ReplicaValid(fleet, right);
    EarlierInPast(Replica(fleet, left), p, e);
    PastHeld(Replica(fleet, right), p, e);
  }

  /** No database holds descendants of both branches of a fork. */
  lemma {:induction false} NoForkMerges(
      fleet: string, batches: seq<seq<Event>>, a: EventId, b: EventId, x: EventId, y: EventId)
    requires a.of.origin == b.of.origin && a.of.sequence == b.of.sequence && a != b
    requires InPast(a, x) && InPast(b, y)
    ensures x !in Replica(fleet, batches).events || y !in Replica(fleet, batches).events
  {
    hide Replica, InPast, MembershipValid, TablesValid;
    ReplicaValid(fleet, batches);
    if x in Replica(fleet, batches).events && y in Replica(fleet, batches).events {
      PastHeld(Replica(fleet, batches), a, x);
      PastHeld(Replica(fleet, batches), b, y);
    }
  }
}
