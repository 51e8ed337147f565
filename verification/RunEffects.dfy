/** What one step of a run leaves behind for ever: an answer, a result, a member. */
module RunEffects {
  import opened Records
  import opened Admission
  import opened LogInvariant
  import opened AdmissionRules
  import opened World
  import opened LocalAppend
  import opened Journal
  import opened JournalSteps
  import opened JournalInvariant
  import opened JournalOperations
  import opened JournalFairness
  import opened CommandRules
  import opened System
  import opened NodeHistory
  import opened SystemInvariant
  import opened SystemSteps
  import opened RunTheorems
  import DeliverySteps
  import Outputs

  /** The database of a node just after a step, and any run later. */
  lemma LaterLog(fleet: string, before: seq<Step>, step: Step, after: seq<Step>, i: NodeId)
    requires i in Apply(Run(fleet, before), step).nodes
    ensures var s', s'' := Apply(Run(fleet, before), step), Run(fleet, before + [step] + after);
      && i in s''.nodes && Valid(s'.nodes[i].db.log) && Valid(s''.nodes[i].db.log)
      && Covers(s''.nodes[i].db.log, s'.nodes[i].db.log)
  {
    hide Run, Apply, SystemInv, NodeInv, Inv, Cut, NetInv, ReplicasSound, PathsLegal, Valid, CommandRows, Covers;
    RunSnoc(fleet, before, step);
    RunKeeps(fleet, before + [step]);
    RunKeeps(fleet, before + [step] + after);
    RunGrows(fleet, before + [step], after);
    NodeOf(Run(fleet, before + [step]), i);
    NodeOf(Run(fleet, before + [step] + after), i);
    assert i in WorldOf(Run(fleet, before + [step])).logs;
  }

  // ---- results ------------------------------------------------------------------------

  /** A committed completion records exactly this receipt. */
  lemma CompletedRow(
      db: Db, env: Env, c: Command, status: Status, message: string, details: Details, commit: Commit<Receipt>)
    requires JournalInv(db) && Complete(db, env, c, status, message, details) == Ok(commit)
    ensures c.id in commit.db.log.receipts
    ensures commit.db.log.receipts[c.id].receipt == Receipt(c.id, c.target, status, message, env.now, details)
    ensures commit.db.log.receipts[c.id].event in commit.db.log.events
    ensures commit.db.log.receipts[c.id].event.of.body == ReceiptBody(commit.db.log.receipts[c.id].receipt)
    ensures status in {Done, Failed, Unknown}
  {
    hide Valid, Distinct, Agrees, Covered, AppendReceipt, Extends, TopLamport, StateOf;
    var inner := AppendReceipt(db, env, c, status, message, details).value;
    AppendReceiptEffect(db, env, c, status, message, details, inner);
    ReceiptTables(db.log, inner.appended[0]);
  }

  /**
   Once a result is recorded it stands: any run later the node's receipt for the command is the one of the result, with
   its status, message, time and details.
   */
  lemma {:induction false} ResultStands(
      fleet: string, before: seq<Step>, after: seq<Step>, i: NodeId, env: Env, c: Command, status: Status,
      message: string, details: Details)
    requires i in Run(fleet, before).nodes
    ensures var result := Complete(Run(fleet, before).nodes[i].db, env, c, status, message, details);
      var s := Run(fleet, before + [Finish(i, env, c, status, message, details)] + after);
      result.Ok? ==>
        && i in s.nodes && c.id in s.nodes[i].db.log.receipts
        && s.nodes[i].db.log.receipts[c.id].receipt == Receipt(c.id, c.target, status, message, env.now, details)
  {
    hide Run, JournalInv, Complete, Valid, Covers, Snapshots;
    var step := Finish(i, env, c, status, message, details);
    JournalOf(fleet, before, i);
    var db := Run(fleet, before).nodes[i].db;
    var result := Complete(db, env, c, status, message, details);
    if result.Ok? {
      CompletedRow(db, env, c, status, message, details, result.value);
      LaterLog(fleet, before, step, after, i);
      FinalStays(result.value.db.log, Run(fleet, before + [step] + after).nodes[i].db.log, c.id);
    }
  }

  lemma FinalStays(log: Log, later: Log, c: CommandId)
    requires c in log.receipts && Terminal(log.receipts[c].receipt.status)
    requires log.receipts[c].event in log.events
    requires log.receipts[c].event.of.body == ReceiptBody(log.receipts[c].receipt)
    requires Valid(log) && Valid(later) && Covers(later, log)
    ensures c in later.receipts && later.receipts[c].receipt == log.receipts[c].receipt
  {
    hide Valid;
    Outputs.FinalIsRecorded(later, log.receipts[c].event);
    LatestIs(log, c);
  }

  lemma LatestIs(log: Log, c: CommandId)
    requires Valid(log) && c in log.receipts
    ensures log.receipts[c].receipt.commandId == c
  {
    hide ChainValid, MembershipValid, CatalogRows, CatalogEvents, DeletionsSound, CommandRows, CommandEvents,
      ReceiptEvents, InventoryRows, InventoryEvents, ImportsSound;
  }

  // ---- answers -------------------------------------------------------------------------

  /** A node that accepted a command, asked to or by itself, has answered it for ever after. */
  lemma {:induction false} AnswerStands(
      fleet: string, before: seq<Step>, step: Step, after: seq<Step>, i: NodeId, env: Env, id: CommandId)
    requires i in Run(fleet, before).nodes
    requires var db := Run(fleet, before).nodes[i].db;
      step == AcceptOne(i, env, id) || (step == Reconcile(i, env, id) && AwaitsAcceptance(db, id) && Active(db.log, i))
    ensures var result := Accept(Run(fleet, before).nodes[i].db, env, id);
      var s := Run(fleet, before + [step] + after);
      result.Ok? ==> i in s.nodes && id in s.nodes[i].db.log.receipts
  {
    hide Run, JournalInv, Accept, Valid, Covers, Snapshots;
    JournalOf(fleet, before, i);
    var db := Run(fleet, before).nodes[i].db;
    var result := Accept(db, env, id);
    if result.Ok? {
      AnsweredRow(db, env, id, result.value);
      LaterLog(fleet, before, step, after, i);
      DeliverySteps.ReceiptStays(result.value.db.log, Run(fleet, before + [step] + after).nodes[i].db.log, id);
    }
  }

  lemma AnsweredRow(db: Db, env: Env, id: CommandId, commit: Commit<Receipt>)
    requires JournalInv(db) && Accept(db, env, id) == Ok(commit)
    ensures id in commit.db.log.receipts
  {
    hide Sound, Distinct, Agrees, Covered, Accept, DeliverySteps.AppendsRow;
    DeliverySteps.AcceptAppends(db, env, id, commit);
  }

  // ---- members ---------------------------------------------------------------------------

  /**
   In every reachable state an active node can admit exactly the well-formed members: two keys of 32 bytes, the digest
   of the first as ID, and a host name of at most 255, as far as the two limits of any append allow.
   */
  lemma {:induction false} MembersAreAdmitted(fleet: string, steps: seq<Step>, i: NodeId, env: Env, m: Member)
    requires i in Run(fleet, steps).nodes && Active(Run(fleet, steps).nodes[i].db.log, i)
    ensures var log := Run(fleet, steps).nodes[i].db.log;
      var result := Append(log, i, env, MemberBody(m), []);
      && (result.Ok? <==>
            && |m.publicKey| == 32 && |m.encryptionKey| == 32 && m.id == Digest(m.publicKey) && |m.hostname| <= 255
            && TopLamport(log) < INT64_MAX && env.encodedLength(MemberBody(m)) <= 1048576)
      && (result.Ok? ==> m.id in result.value.members)
  {
    hide Run, JournalInv, Append, TopLamport;
    AppendsFit(fleet, steps, i, env, MemberBody(m), []);
    MemberOutcome(Run(fleet, steps).nodes[i].db.log, i, env, m);
  }

  lemma MemberOutcome(log: Log, self: NodeId, env: Env, m: Member)
    requires Active(log, self)
    ensures var result := Outcome(log, self, env, MemberBody(m), []);
      && (result.Ok? <==>
            && |m.publicKey| == 32 && |m.encryptionKey| == 32 && m.id == Digest(m.publicKey) && |m.hostname| <= 255
            && TopLamport(log) < INT64_MAX && env.encodedLength(MemberBody(m)) <= 1048576)
      && (result.Ok? ==> m.id in result.value.members)
  {
    hide TopLamport, LastSequence, Head;
    var c := Draft(log, self, env, MemberBody(m), []);
    DraftShort(log, self, env, MemberBody(m), []);
    assert log.members[self].admission in AdmissionOf(log, self);
    assert log.members[self].admission in c.dependencies;
  }
}
