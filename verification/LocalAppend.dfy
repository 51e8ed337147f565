/**
 What `appendTx` builds is never refused for its sequence, its predecessor, its
 Lamport counter or the dependencies it adds itself; `AppendOutcome` lists the
 only reasons left.
 */
module LocalAppend {
  import opened Records
  import opened Ordering
  import opened Admission
  import opened LogInvariant
  import opened World

  /** Lamport counters outrun sequence numbers, so the sequence cannot overflow first. */
  lemma {:induction false} SequenceBelowLamport(log: Log, id: EventId)
    requires ChainValid(log) && id in log.events
    ensures id.of.sequence <= id.of.lamport
    decreases id.of.sequence
  {
    hide Unforked;
    assert id.of.lamport >= 1 by { assert Verify(Signed(id.of), log.fleet).None?; }
    if id.of.sequence > 1 {
      assert HasPredecessor(log, id);
      var p :| p in log.events && Precedes(p, id);
      assert p.of.lamport < id.of.lamport by { assert CausallyBelow(log, id); }
      hide Authentic, Chained, Causal;
      SequenceBelowLamport(log, p);
    }
  }

  lemma LastBelowTop(log: Log, origin: NodeId)
    requires ChainValid(log)
    ensures LastSequence(log, origin) <= TopLamport(log)
  {
    if LastSequence(log, origin) > 0 {
      var h :| h in log.events && h.of.origin == origin && h.of.sequence == LastSequence(log, origin);
      hide Authentic, Unforked, Chained, Causal;
      SequenceBelowLamport(log, h);
    }
  }

  ghost predicate AllHeld(log: Log, deps: seq<EventId>) { forall d :: d in deps ==> d in log.events }

  lemma DraftIsNew(log: Log, self: NodeId, env: Env, body: Body, deps: seq<EventId>)
    ensures var id := Hash(Draft(log, self, env, body, deps));
      Below(log, id) && id !in log.events && id.of.origin == self
  {
    hide LastSequence, Head, AdmissionOf;
  }

  lemma DraftVerifies(log: Log, self: NodeId, env: Env, body: Body, deps: seq<EventId>)
    requires ChainValid(log) && |self| == KEY_BYTES && TopLamport(log) < INT64_MAX
    ensures var c := Draft(log, self, env, body, deps);
      Verify(Signed(c), log.fleet) ==
      if c.bodyLength > MAX_BODY / 2 || |c.dependencies| > MAX_DEPENDENCIES then Some(Oversized) else None
  {
    hide Authentic, Unforked, Chained, Causal, Head, AdmissionOf, Unique;
    LastBelowTop(log, self);
  }

  lemma DraftDependencies(log: Log, self: NodeId, env: Env, body: Body, deps: seq<EventId>)
    requires MembersSound(log)
    ensures CausallyBelow(log, Hash(Draft(log, self, env, body, deps))) <==> AllHeld(log, deps)
  {
    var id := Hash(Draft(log, self, env, body, deps));
    assert forall d :: d in id.of.dependencies <==> d in deps || d in Head(log, self) || d in AdmissionOf(log, self);
    if AllHeld(log, deps) {
      forall d | d in id.of.dependencies ensures d in log.events && d.of.lamport < id.of.lamport {
      }
    } else {
      var d :| d in deps && d !in log.events;
      assert d in id.of.dependencies;
    }
  }

  lemma DraftGate(log: Log, self: NodeId, env: Env, body: Body, deps: seq<EventId>)
    requires MembersSound(log)
    ensures var c := Draft(log, self, env, body, deps);
      Gate(log, Hash(c)) ==
      if !AllHeld(log, deps) then Some(MissingDependency)
      else if !Known(log, self) && !Genesis(c) then Some(NoAdmission)
      else None
  {
    var id := Hash(Draft(log, self, env, body, deps));
    DraftDependencies(log, self, env, body, deps);
    hide MembersSound, CausallyBelow, Genesis;
    if LastSequence(log, self) > 0 {
      var h := Head(log, self)[0];
      assert h in id.of.dependencies;
      assert h in log.events && Precedes(h, id);
    }
  }

  /** The result of `appendTx`, case by case. */
  ghost function Outcome(log: Log, self: NodeId, env: Env, body: Body, deps: seq<EventId>): Result<Log> {
    var c := Draft(log, self, env, body, deps);
    if TopLamport(log) >= INT64_MAX then Err(LamportExhausted)
    else if c.bodyLength > MAX_BODY / 2 || |c.dependencies| > MAX_DEPENDENCIES then Err(Oversized)
    else if !AllHeld(log, deps) then Err(MissingDependency)
    else if !Known(log, self) && !Genesis(c) then Err(NoAdmission)
    else if Refusal(log, c).Some? then Err(Refusal(log, c).value)
    else Ok(With(log, Signed(c)))
  }

  lemma {:induction false} AppendOutcome(log: Log, self: NodeId, env: Env, body: Body, deps: seq<EventId>)
    requires Valid(log) && |self| == KEY_BYTES
    ensures Append(log, self, env, body, deps) == Outcome(log, self, env, body, deps)
    ensures Append(log, self, env, body, deps).Ok? ==> Extends(self, log, Hash(Draft(log, self, env, body, deps)))
  {
    hide Authentic, Unforked, Chained, Causal, Authored, MembersSound, LegacySound, RemovalsSound, TablesValid, Head,
      AdmissionOf, Unique, AllHeld, Gate, Refusal, Verify, LastSequence, TopLamport, Known, Genesis, Below, With,
      Draft;
    DraftIsNew(log, self, env, body, deps);
    DraftGate(log, self, env, body, deps);
    if TopLamport(log) < INT64_MAX {
      DraftVerifies(log, self, env, body, deps);
    }
  }
}
