# The fleet mesh: replicated log, execution journal, anti-entropy

This project models `agent/mesh` of the fleet manager and proves its
guarantees. A fleet has no leader. Every node keeps a database with a signed
event log, and tables projected from it: members, removals, catalog, commands,
receipts, inventory, imports. Nodes exchange log events in bounded batches.
Log events never execute anything: a command runs on its target only after the
target accepted it into its own inbox, and every change of an execution's state
is a receipt, signed by the target, in the log.

Several guarantees rest on facts the code never checks. Admission looks only at
the named dependencies, and yet a batch is never refused for a record it did not
name. The reason is global: a Lamport counter is one more than everything its
origin held, exports are in Lamport order, and each origin has a single
database. The proofs make this explicit.

## How it is organised

- `Records`, `Ordering`: the entities, signing, and the stored order of events.
- `Admission`: `insertTx` and `appendTx` as functions on one database's tables.
- `LogInvariant`: what every sequence of admissions keeps, by anyone;
  `AdmissionRules`: what admission means, on the fields of events alone.
- `Convergence`, `HashDag`: order-independence and agreement, with no
  assumption about signers.
- `World`: all databases, and the past of every event (what its origin held
  when it appended it); `LocalAppend`, `Exchange`: local appends, exports,
  cursors.
- `Journal`, `JournalSteps`, `JournalInvariant`, `JournalOperations`,
  `JournalFairness`, `JournalProgress`, `CommandRules`: the execution journal.
- `TextSort`, `Submission`, `SubmissionRules`, `SubmissionIdempotence`,
  `SubmissionProgress`: submissions and retries.
- `System`: the mesh as a state machine over 17 kinds of step. Messages and
  reported cursors may be lost, repeated, delayed and reordered; an accept may
  arrive many times; a node may crash at any point between transactions, and a
  commit of `Next` may fail after its command was handed out.
  `NodeHistory`, `Authority`, `SystemInvariant`, `SystemSteps`: its invariant.
- `RunTheorems`, `RunEffects`, `Trail`, `Restore`, `SubmissionTheorems`:
  theorems over runs; `Witness`: runs in which premises fail and exceptions
  occur.
- `Database`, `StoreLoops`: the store as a class whose methods update its tables
  in place, proved equal to the specification functions, rollback included.
- `PeerSteps`, `DeliverySteps`, `Peers`: join, sync, deliver and restore over
  two such stores. Each takes the world as a ghost argument; `RunKeeps` shows
  that every reachable state supplies one.
- `Fleet`: a group of active members can always catch up with each other.
  `Outputs`: the blobs that travel beside the log.
- `CatalogText`: rank texts and the catalog merge. `BinarySwap`: replacing the
  service's binary. `OutputBound`: bounding an output.

The specification functions (`Admission`, `Journal`, `Submission`, `Outputs`)
follow the code branch by branch. What they mean is stated apart from them, by
lemmas and theorems that speak of the fields of events, commands, requests and
results, with each kind, status, limit and comparison written out.

## Premises

- Hashes are modelled by what they hash, so equal hashes mean equal contents.
  A node ID stands for its key. A signature is valid exactly when made with the
  event's key over its content.
- No cloned identity: each node ID has one database. `LogInvariant`,
  `Convergence` and `HashDag` do not need this.
- "Never refused" for batches needs `NoConflicts`: two commands never share an
  execution ID, and aliases of a member do not contradict.
  `World.AcceptedIffUnopposed` and `RunTheorems.MailIsAcceptedIff` give the exact
  condition without it, and `Witness.CollisionInARun` a run that violates it.
- Where blobs travel along, `Peers` also asks that only final receipts carry
  output; `RunTheorems.OutputIsFinal` proves it of every reachable state.
- A transaction is atomic, and reads the clock once. `Env` carries the clock,
  whether it is uncertain, encoded lengths, credential sealing and the result of
  the catalog lookup for a check.
- `Next` sets its result before the commit (agent/mesh/jobs.go:298-305) and the
  worker runs whatever it returned (agent/mesh/node.go:299-317). A failed commit
  is a step of its own, and `RunTheorems.AtMostOnce` counts it.
- "Never refused" is meant up to two limits that every append meets: the Lamport
  counter must not overflow, and an encoded body has at most 1 MiB. The
  receipts of Accept, Next and recovery have fixed short texts; the receipt of a
  result is as long as the result.
- A command body is compared as a record; the code compares encoded bytes.

## Where the code does less than it seems to promise

- docs/mesh-protocol.md says every event references its predecessor and
  admission and that receipts reference their commands. Admission enforces only
  the predecessor (agent/mesh/store.go:248-273); the other references are what
  this code's own appends add. The model follows the code.
- The code looks for an earlier retry under the same submission ID and returns
  it (agent/mesh/jobs.go:412-423), which suggests a retry may be repeated like a
  submission. It checks the original's status first (lines 405-411), so
  repeating it can be refused: `SubmissionIdempotence.RetryRepeats` states
  exactly when, and `Witness.RetryRefusedLater` is a run in which it happens.
- `Complete` is written to end every execution. Its receipt carries a message
  and an installation list of any length (agent/mesh/jobs.go:149-174), and one
  over 1 MiB is refused (agent/mesh/identity.go:135-137), so the command stays
  running although it ended well: `JournalProgress.CompleteOutcome` states
  exactly when a result is recorded, `JournalProgress.OversizedResultIsLost` what
  becomes of it, and `Witness.OversizedResultInARun` is a run in which it happens.

## Model

| member | source | states |
|---|---|---|
| `LogInvariant.InsertKeepsValid` | agent/mesh/store.go:233-386 | Every admission, of any signed event by anyone, keeps the database's invariant: contiguous causally closed hash chains per origin, the founder's self-admission held, and every projected table equal to what the event set determines (rows backed by events and events reflected in rows, a member as its admission describes it, aliases bound, latest receipt per command, greatest catalog rank, removal flags). It adds exactly that event or, for a known one, nothing. |
| `LogInvariant.InsertAllKeepsValid` | agent/mesh/store.go:388-426 | A committed batch keeps that invariant and adds exactly its own events. |
| `AdmissionRules.AdmittedIff` | agent/mesh/store.go:233-386 | A database takes an event if and only if it is genuine (protocol 2, this fleet, counters from 1 to 2^63-1, a 32-byte key whose digest is the origin, the right hash and signature, at most 1 MiB and 64 dependencies) and held already, or next in its origin's chain after its dependencies, from a member or a founder, and acceptable by the rule for its kind, each limit and comparison written out. |
| `AdmissionRules.HeldIsGenuine` | agent/mesh/identity.go:131-139 | Every event of an admitted database is genuine and signed with the key that its origin's admission names. |
| `AdmissionRules.ForgeryIsUnverified` | agent/mesh/identity.go:132-134 | An event whose origin is not the digest of its key, or whose hash or signature is not its own, is refused as unverified whatever else it gets right. |
| `AdmissionRules.ForgeryRefusesBatch` | agent/mesh/store.go:388-399 | One such event anywhere refuses its whole batch; as unverified, if those before it are admissible. |
| `AdmissionRules.AdmittedIsGenuine` | agent/mesh/store.go:388-426 | Every event of a committed batch is genuine. |
| `AdmissionRules.OneFounder` | agent/mesh/store.go:270 | A database holds one founding admission at most: a fleet's ID fixes its founder. |
| `AdmissionRules.FounderIsHeld` | agent/mesh/store.go:269-273 | A database with any member holds the admission its founder gave itself. |
| `LocalAppend.AppendOutcome` | agent/mesh/store.go:194-222 | What `appendTx` builds is never refused for sequence, predecessor, Lamport counter or the dependencies it adds itself; the complete list of reasons left, in order, and in every other case the event is admitted with a Lamport counter above everything held. |
| `AdmissionRules.AppendedIsDrafted` | agent/mesh/store.go:179-222 | A local append's event, field by field: this node's key, dated now, one sequence after its own last event, a Lamport counter exactly one above everything held, and as dependencies its last event, its admission and what it was given. |
| `Convergence.SameEventsConverge` | agent/mesh/store.go:277-364 | Two valid databases with the same events agree on cursors, member IDs and removed flags, removals, command bodies, catalog, receipts, inventory and imports. |
| `Convergence.OrderIndependence` | agent/mesh/store.go:388-426 | ... whatever batches, orders, repetitions and refused batches led to them, with no assumption about the signers. |
| `HashDag.SharedPast` | agent/mesh/identity.go:124-140 | Databases that share an event hold identical rows for its whole dependency closure. |
| `HashDag.PrefixAgreement` | agent/mesh/store.go:237-268 | Databases that share an event hold the same event at every earlier sequence of its origin. |
| `HashDag.NoForkMerges` | agent/mesh/store.go:237-268 | No database holds events descending from both branches of a fork. |
| `HashDag.Contiguous` | agent/mesh/store.go:241-262 | Every sequence number from 1 to a held one is held: cursors stand for whole prefixes. |
| `World.CursorMeaning` | agent/mesh/store.go:428-444 | A database holds an event of the world if and only if its cursor for that origin has reached it. |
| `World.AppendKeepsInv` | agent/mesh/store.go:194-222 | A local append keeps global happens-before closure: every database holds the whole past of everything it holds, with smaller Lamport counters, and every event was admissible on its origin's past. |
| `World.AdmissionMonotone` | agent/mesh/store.go:233-386 | An event admitted on top of its origin's past is admitted by every database that holds that past, nothing later of its origin, and no contradicting record of its execution ID or alias, although most of that past is not named among its dependencies. |
| `World.AdmittedUnlessConflict` | agent/mesh/store.go:233-386 | The exact condition: the next event of a deliverable batch is admitted if and only if it is held already or contradicts no record of the same execution ID and no alias of the same member. |
| `World.AcceptedIffUnopposed` | agent/mesh/store.go:388-426 | The exact condition for a whole deliverable batch: each event is held by then or contradicts nothing recorded by then. |
| `World.DeliveryAccepted` | agent/mesh/store.go:388-426 | Without colliding execution IDs or conflicting aliases a deliverable batch is ingested in full. |
| `World.DeliveryKeepsCut` | agent/mesh/store.go:388-426 | Whatever is ingested from a deliverable batch, the receiver still holds the past of everything it holds. |
| `Exchange.ExportDeliverable` | agent/mesh/store.go:445-496 | What a node exports against cursors at or below the receiver's brings each event after everything its origin held when it made it. |
| `Exchange.ExportAccepted` | agent/mesh/store.go:445-496 | ... and is therefore ingested in full. |
| `Exchange.EmptyMeansCovered` | agent/mesh/store.go:445-477 | An export against a database's own cursors is empty if and only if that database has everything the exporter has; one row over the size cap is still sent. |
| `Exchange.CursorsAreReplicas` | agent/mesh/node.go:511-521 | A peer whose cursors reached an event has committed it: replica rows may be derived from cursors alone. |
| `Authority.OwnReceipts` | agent/mesh/store.go:338-351 | Any larger closed database has, for commands targeting a node, exactly that node's own receipts. |
| `Authority.IngestKeepsNode` | agent/mesh/store.go:388-426 | A delivered batch leaves a node's inbox, states, submissions and execution history true: receipts for commands that target it never change by ingestion. |
| `JournalInvariant.AdvanceKeeps` | agent/mesh/jobs.go:149-174 | One receipt plus inbox update keeps journal agreement: one row per command reported on, in the state of the latest receipt, every other command untouched, the appended event a legal step. |
| `JournalOperations.AcceptKeeps` | agent/mesh/jobs.go:179-218 | A committed Accept is either the recorded receipt and no change, or one receipt, dated now, and one inbox row at the end in the same state; that state is error exactly for an unsupported command, else held for deferred delivery under an uncertain clock, expired for deferred delivery past its expiry, and queued otherwise; agreement is kept. |
| `JournalOperations.ScanKeeps` | agent/mesh/jobs.go:277-303 | The scan of Next from any pending list: it stops at the first command that may run (both nodes unremoved; online, or before its expiry by a certain clock), none before it may, each of those was failed, expired or passed over exactly by the condition for it, and nothing later is touched. |
| `JournalFairness.NextIsFair` | agent/mesh/jobs.go:260-306 | In inbox order, Next returns the first queued or held row that may run, and nothing if and only if none may; an earlier one becomes error if and only if target or origin was removed, expired if and only if it is deferred and a certain clock has reached its expiry, and stays if and only if it is deferred under an uncertain clock; later and other rows are untouched. |
| `JournalFairness.CompleteKeeps` | agent/mesh/jobs.go:308-326 | A committed Complete moves exactly one running command to a result and keeps agreement. |
| `JournalFairness.RecoverKeeps` | agent/mesh/jobs.go:224-258 | Recovery, row by row: a running check or diagnostics run is queued again, every other running command becomes unknown, the pending update and all rows that are not running stay. |
| `JournalProgress.NextOutcome` | agent/mesh/jobs.go:260-306 | Next commits if and only if the receipts this scan has to write fit the Lamport counter and the body limit; it fails for nothing else, in particular never for a terminal receipt. |
| `JournalProgress.RecoverOutcome` | agent/mesh/jobs.go:224-258 | Recovery commits if and only if the receipts it has to write fit the same limits; it fails for nothing else. |
| `JournalProgress.CompleteOutcome` | agent/mesh/jobs.go:308-326 | Complete commits if and only if the command is running, the status is ok, error or unknown, the Lamport counter has room and the receipt of this result encodes to at most 1 MiB; past its guards it fails only for those two limits, and each guard gives its own reason. |
| `JournalProgress.OversizedResultIsLost` | agent/mesh/identity.go:135-137 | Where a good result is not recorded: a receipt over 1 MiB is refused, the command stays running, and the next recovery reports it unknown, or queues it again if it is a check or a diagnostics run. |
| `JournalProgress.AcceptOutcome` | agent/mesh/jobs.go:179-218 | Accept succeeds if and only if the command is known and targets this node, neither target nor origin is removed, and it was answered before or the answer's receipt fits the two limits; past its guards it fails only for them, and each guard gives its own reason. |
| `TextSort.SortIgnoresOrder` | agent/mesh/jobs.go:38-43 | Two target lists with the same members sort to the same list. |
| `SubmissionRules.SameRequest` | agent/mesh/jobs.go:20-46 | Two requests digest the same if and only if they agree on submission ID, kind, expiry, retry link, the multiset of targets, and delivery and payload up to those defaults. |
| `SubmissionRules.AllowedMeans` | agent/mesh/jobs.go:16-43 | The checks before the transaction on the request as submitted: an ID of 16 to 128, one of ten kinds, 1 to 50 targets without repeats, online or deferred with an expiry within thirty days, one of six profiles and nothing else for diagnostics, at most 128 KiB. |
| `SubmissionIdempotence.CreateKeeps` | agent/mesh/jobs.go:48-132 | A committed submission yields one event per target, each the event of that target's command; a repeated one changes nothing, a new one has created for each target, an unremoved member, exactly the command its request makes; commands and submissions only grow, agreement is kept. |
| `SubmissionIdempotence.ResubmissionFindsOriginals` | agent/mesh/jobs.go:52-69 | On any later database of the node, repeating a request that still passes its checks returns exactly the original events and changes nothing. |
| `SubmissionIdempotence.ReuseIsRefused` | agent/mesh/jobs.go:52-56 | On every later database the same submission ID with another kind, target, payload, delivery, expiry or retry link fails, as reused if the request passes its own checks. |
| `SubmissionIdempotence.RetryKeeps` | agent/mesh/jobs.go:389-434 | A committed retry leaves a command under the derived ID that names the original; a new one repeats its target, kind, payload and secret, online and dated now; every invariant is kept. |
| `SubmissionIdempotence.RetryRepeats` | agent/mesh/jobs.go:394-423 | Repeating a retry finds the same event if and only if both nodes are still unremoved and the original is unanswered or ended in neither success nor a waiting or running state; otherwise it is refused. |
| `SubmissionIdempotence.RetryAfterAcceptance` | agent/mesh/jobs.go:405-411 | Where it does not: a retry issued before the target answered is refused the second time once the target accepted the original. |
| `SubmissionIdempotence.RetryLinksBack` | agent/mesh/jobs.go:424-430 | The link of a new retry points to a command whose event the node held, with a smaller Lamport counter, although no dependency names it. |
| `SubmissionProgress.CreateOutcome` | agent/mesh/jobs.go:16-133 | A submission commits if and only if it passes its checks, this node is unremoved, and it is the one remembered under its ID or, none being remembered, no command of the job is known, every target is an unremoved member and the commands fit the two limits; each check gives its own reason. |
| `SubmissionProgress.RetryOutcome` | agent/mesh/jobs.go:389-434 | A retry commits if and only if its ID has 16 to 128 characters, the original may be retried, and the command under the derived ID retries it or is not there and fits the two limits; each check gives its own reason. |
| `SubmissionTheorems.SubmittedOnce` | agent/mesh/jobs.go:16-133 | Over every run: after a committed submission, at any later time, the same contents (targets in any order, defaults spelt out or not) return the same events and change nothing if the request passes its checks and the node is unremoved, and fail otherwise; other contents under the ID fail, as reused if they pass their checks. |
| `SubmissionTheorems.SubmissionCreates` | agent/mesh/jobs.go:16-133 | In every reachable state a submission commits exactly under the condition of CreateOutcome, and a new one appends one event per target and creates the commands its request makes. |
| `SubmissionTheorems.RetriedOnce` | agent/mesh/jobs.go:389-434 | Over every run: the same retry later finds the same event if and only if it may still retry, and fails otherwise. |
| `SubmissionTheorems.RetryCommitsIff` | agent/mesh/jobs.go:389-434 | In every reachable state a retry commits exactly under the condition of RetryOutcome. |
| `Witness.RetryRefusedLater` | agent/mesh/jobs.go:405-423 | A run in which that happens: a founder submits to itself, retries, accepts the original, and the same retry is refused. |
| `Witness.OversizedResultInARun` | agent/mesh/identity.go:135-137 | A run in which a running command's good result is refused for its length, while a short one would be recorded. |
| `Witness.CollisionInARun` | agent/mesh/store.go:324-330 | A run in which one submission ID is used on two nodes before they synchronise, after which each refuses every batch with the other's command forever. |
| `SystemSteps.StepForward` | agent/mesh/node.go:448-557 | Each step of any node or of the network, with messages lost, repeated, delayed and reordered, keeps the global invariant, and nothing any node holds is lost. |
| `SystemSteps.RunKeeps` | agent/mesh/store.go:123-135 | Every reachable state satisfies the global invariant. |
| `SystemSteps.RunGrows` | agent/mesh/store.go:123-135 | Between two states of a run, events, commands and submissions are only added. |
| `RunTheorems.MailIsAccepted` | agent/mesh/store.go:388-496 | Over every run: any batch ever exported to a node is ingested in full whenever it arrives, stale cursors included. |
| `RunTheorems.MailIsAcceptedIff` | agent/mesh/store.go:388-426 | Over every run, without that premise: such a batch is ingested if and only if none of its events contradicts a record of its execution ID or alias that is there by then. |
| `RunTheorems.CollisionBlocksForever` | agent/mesh/store.go:324-330 | Over every run: a node that holds a command refuses, then and ever after, every batch with an event that submits another command under that execution ID. |
| `RunTheorems.PastIsHeld` | agent/mesh/store.go:194-222 | Over every run: whoever holds an event holds everything its origin held when appending it, all with smaller Lamport counters. |
| `RunTheorems.SingleWriter` | agent/mesh/store.go:194-222 | Over every run: every held event is in its own origin's database. |
| `RunTheorems.HeldIsSigned` | agent/mesh/identity.go:131-139 | Over every run: every event any node holds under a member's name is signed with the key of that member's admission, its ID is its hash and its origin the digest of that key. |
| `RunTheorems.NodesConverge` | agent/mesh/store.go:277-364 | Over every run: two nodes with the same events agree on everything the events determine. |
| `RunTheorems.CursorsTellAll` | agent/mesh/store.go:428-444 | Over every run: a node holds an event if and only if its cursor for that origin has reached it. |
| `Fleet.FleetConverges` | agent/mesh/node.go:448-524 | From every reachable state without conflicting records, the members of a group that take each other for active can, by announcements, exports and deliveries among themselves alone, all come to hold exactly the events that any of them held, and so the same tables; nothing else changes at any node. |
| `Fleet.ExportExists` | agent/mesh/store.go:445-477 | Against any cursors there is a batch of the specified form. |
| `Fleet.StayActive` | agent/mesh/store.go:289-304 | Exchanges inside a group never make its members inactive for each other: a removal would have been held by one of them. |
| `RunTheorems.AppendsFit` | agent/mesh/store.go:194-222 | Over every run: what a node appends is refused only for the listed reasons, never for its place in the log. |
| `RunTheorems.ReplicaRowsAreTrue` | agent/mesh/node.go:489-521 | Over every run: every replica row names an event that peer has committed. |
| `RunTheorems.AtMostOnce` | agent/mesh/jobs.go:260-306 | Over every run, for each command: started at most once more than recovery found it running and commits were lost; only if accepted on request or reconciled with deferred delivery; a command whose kind is neither check nor diagnostics is handed out by a committed Next at most once, and so runs at most once if and only if no commit was lost after handing it out, or one was and nothing followed. |
| `RunTheorems.RecoveryByKind` | agent/mesh/jobs.go:224-258 | In every reachable state recovery does to each row what RecoverKeeps says. |
| `RunTheorems.LostCommitRunsTwice` | agent/mesh/node.go:299-317 | Over every run: whenever Next hands out a command and its commit fails, the next call under the same clock hands it out again. |
| `RunTheorems.InboxIsLatestReceipts` | agent/mesh/jobs.go:177-218 | Over every run: the inbox state of every command is the status of its latest receipt if it targets the node, and there is none otherwise. |
| `RunTheorems.JournalNeverStuck` | agent/mesh/store.go:344-350 | Over every run: Next, recovery and, past its guards, Accept fail only for the Lamport counter or the length of a receipt they have to write; no terminal receipt or missing row ever refuses them. |
| `RunTheorems.NextCommitsIff` | agent/mesh/jobs.go:260-306 | Over every run: Next commits if and only if the receipts of its scan fit those two limits. |
| `RunTheorems.RecoveryCommitsIff` | agent/mesh/jobs.go:224-258 | Over every run: recovery commits if and only if the receipts it has to write fit. |
| `RunTheorems.AcceptsIff` | agent/mesh/jobs.go:179-218 | Over every run: Accept succeeds if and only if the command is known and targets this node, target and origin are not removed, and the answer is recorded already or its receipt fits. |
| `RunTheorems.ResultsAreRecorded` | agent/mesh/jobs.go:308-326 | Over every run: a result is recorded if and only if its command is running, its status is one of the three and its receipt fits. |
| `RunTheorems.OnlyPermittedRuns` | agent/mesh/jobs.go:260-306 | Over every run: whatever Next returns targets this node, was asked for or reconciled, has target and origin unremoved, is online or before its expiry by a certain clock, and was never started before unless it is a check or a diagnostics run. |
| `RunTheorems.NextIsAlwaysFair` | agent/mesh/jobs.go:260-306 | In every reachable state Next is the fair scan of NextIsFair, and returns nothing if and only if no waiting command may run. |
| `RunTheorems.RemovalIsPermanent` | agent/mesh/store.go:289-304 | Over every run: a removed member stays removed in a database, whatever admissions arrive later or concurrently. |
| `RunTheorems.DeletionIsPermanent` | agent/mesh/store.go:305-312 | Over every run: a deleted catalog item stays deleted. |
| `RunTheorems.OneFinalResult` | agent/mesh/store.go:344-351 | Over every run: no two nodes hold different terminal receipts for a command. |
| `RunEffects.ResultStands` | agent/mesh/jobs.go:308-326 | Over every run: once a result is recorded, the node's receipt for the command is ever after that one, with its status, message, time and details. |
| `RunEffects.AnswerStands` | agent/mesh/jobs.go:179-218 | Over every run: a node that accepted a command, asked to or by its own reconciliation, has answered it ever after. |
| `RunEffects.MembersAreAdmitted` | agent/mesh/store.go:277-288 | In every reachable state an active node's admission of a member succeeds if and only if both keys have 32 bytes, the ID is the digest of the first, the host name has at most 255 and the two limits allow it; the member is then known. |
| `RunTheorems.OutputIsFinal` | agent/mesh/jobs.go:308-326 | Over every run: only final receipts carry output. |
| `Outputs.DetailsMean` | agent/mesh/jobs.go:149-168 | What a receipt says of a result: how it was reached, what is installed, and the hash of what is kept, which is the longest valid text of at most 64 KiB that the cleaned output starts with. |
| `Outputs.MergedMeans` | agent/mesh/store.go:400-424 | Merging keeps every stored blob, and adds a new one until ninety days after the latest receipt that names it, unless that has passed. |
| `Outputs.AttachCarries` | agent/mesh/store.go:478-494 | Event by event, a stored unexpired blob that a receipt names goes along if and only if it leaves the envelope below 2 MiB less 64 KiB; one left behind would not have fitted beside what was taken. |
| `Outputs.AttachedIsGood` | agent/mesh/store.go:400-424 | Where only final receipts carry output, every blob a node attaches to a batch passes the receiver's checks of size, hash and reference once the batch is in, so a blob never refuses an envelope. |
| `Outputs.ReferencesPersist` | agent/mesh/store.go:400-411 | However a database grows, the blobs it stores stay in use: their receipts are final and never replaced. |
| `RunTheorems.RestoredRunsOnlyNewCommands` | agent/mesh/recovery.go:268-349 | Over every run: a restored identity never runs a command that existed when it was restored, whatever it ingests or is asked later. |
| `Trail.ReceiptsLegal` | agent/mesh/jobs.go:179-326 | The receipts a closed database holds for a command, in origin-sequence order, form a legal path. |
| `Trail.ReplicaIsPrefix` | agent/mesh/store.go:241-262 | What any closed database holds of a command's receipts is a prefix of what the target holds. |
| `Trail.PathHoldsAll` | agent/mesh/store.go:333-353 | That path has every receipt the database holds for the command. |
| `Trail.PathsAreLegal` | agent/mesh/jobs.go:200-324 | Over every run, at every node: queued, held, error or expired first; queued or held to running, error or expired; running to ok, error or unknown, or back to queued for a check or a diagnostics run only; the path ends in the recorded status. |
| `Trail.ReplicasArePrefixes` | agent/mesh/store.go:241-262 | Over every run: the receipts any node holds of a command are a prefix of what their author holds. |
| `Restore.ReplayAccepted` | agent/mesh/recovery.go:305-328 | Re-ingesting a whole log one event at a time in (lamport, origin, sequence) order into an empty database is never refused. |
| `Restore.ReplayConverges` | agent/mesh/recovery.go:305-328 | A finished replay holds the same events and rebuilds every convergent projection. |
| `Restore.EveryBackupRestores` | agent/mesh/recovery.go:271-349 | Over every run: every backup ever taken restores to a fresh identity with the same projections and an empty inbox and submission table. |
| `CatalogText.PaddedOrder` | agent/mesh/store.go:310 | Zero-padded decimals of one width compare as the numbers do. |
| `CatalogText.RankTextOrder` | agent/mesh/store.go:310 | For all 64-bit counters and identities of one length, text order on `%020d:origin:%020d` is tuple order, with no ties between distinct tuples. |
| `CatalogText.StoredRanks` | agent/mesh/store.go:310-311 | In every database, rank texts of admitted events are ordered as (lamport, origin, sequence), and tie only for the same event. |
| `CatalogText.UpsertTextIsUpsert` | agent/mesh/store.go:311 | The upsert comparing texts is the upsert comparing ranks. |
| `CatalogText.MergeCommutes` | agent/mesh/store.go:311 | The upsert commutes. |
| `CatalogText.MergeAssociates` | agent/mesh/store.go:311 | The upsert associates. |
| `CatalogText.MergeIdempotent` | agent/mesh/store.go:311 | The upsert is idempotent. |
| `CatalogText.ArrivalOrderIrrelevant` | agent/mesh/store.go:305-312 | The same edits in any order, any number of times, leave the same row, deleted if and only if one of them was a deletion. |
| `Database.Store.constructor` | agent/mesh/store.go:98-109 | A database created anew has no fleet and no rows. |
| `Database.Store.Reopen` | agent/mesh/store.go:113-118 | Opening an existing database takes the fleet stored in it and changes nothing else. |
| `Database.Store.CheckDependencies` | agent/mesh/store.go:248-268 | The two loops over the dependencies find a missing predecessor, then a missing or later dependency, exactly when there is one. |
| `Database.Store.CheckPlace` | agent/mesh/store.go:241-273 | The checks before a row is written: sequence, predecessor, dependencies, admission, in this order, and exactly these. |
| `Database.Store.ProjectMembership` | agent/mesh/store.go:278-304 | In-place member, remove and alias projections: refused or the specified next tables. |
| `Database.Store.ProjectExecution` | agent/mesh/store.go:313-353 | In-place command and receipt projections: refused or the specified next tables. |
| `Database.Store.ProjectRecord` | agent/mesh/store.go:305-364 | In-place catalog, inventory and import projections: refused or the specified next tables. |
| `Database.Store.Project` | agent/mesh/store.go:277-384 | All per-kind projections. |
| `Database.Store.InsertTx` | agent/mesh/store.go:233-386 | `insertTx` in place does what the admission specification says, error by error; an event that is not genuine is refused and changes nothing. |
| `Database.Store.InsertBlobs` | agent/mesh/store.go:400-424 | Succeeds if and only if every blob has the right size and hash and is referenced; then keeps those not expired since their latest receipt, and replaces none. |
| `StoreLoops.InsertKeepsKeyed` | agent/mesh/store.go:29 | Admission keeps what the table keys promise, in any fleet: rows under their content's hash, one event per origin and sequence, commands under their IDs. |
| `Database.Store.WithoutRepeats` | agent/mesh/store.go:213-219 | The deduplicating loop keeps each dependency once. |
| `Database.Store.AppendTx` | agent/mesh/store.go:194-222 | `appendTx` in place appends the specified next event. |
| `Database.Store.Append` | agent/mesh/store.go:224-231 | One transaction: the specified append, or no change. |
| `Database.Store.Bootstrap` | agent/mesh/store.go:137-154 | Founds the fleet of this identity with its own admission, in memory and in the database; changes nothing if either has a fleet or the append fails. |
| `Database.Store.InitializeJoin` | agent/mesh/store.go:156-177 | Adopts a fleet and a history of genuine events that admits this identity unremoved, on top of whatever is held; otherwise leaves every table as it was and clears the fleet in memory, even one the database has. |
| `Database.Store.Ingest` | agent/mesh/store.go:388-426 | A whole envelope in one transaction, or no change: it is refused if and only if an event is, or a blob is bad; every event of a committed one is genuine; inbox, submissions and replica rows never change. |
| `Database.Store.Cursors` | agent/mesh/store.go:428-444 | The greatest sequence held of every origin. |
| `Database.Store.OrderedRows` | agent/mesh/store.go:449 | All rows, strictly ordered by lamport, origin and sequence. |
| `Database.Store.ExportRows` | agent/mesh/store.go:445-477 | Exactly the missing events in order with none skipped, within both limits, at least one if any is missing; it stops short only when the batch is full or the very next missing row does not fit. |
| `Database.Store.Export` | agent/mesh/store.go:445-496 | That batch, and the stored unexpired blobs of its receipts, one by one as long as they fit. |
| `Database.Store.RememberReplicas` | agent/mesh/store.go:569-578 | Adds a row for each acknowledged event and nothing else. |
| `Database.Store.RememberCursors` | agent/mesh/node.go:511-521 | Adds a row for exactly the held events up to the peer's cursors. |
| `Database.Store.ReceiptTx` | agent/mesh/jobs.go:149-174 | Appends the specified receipt with all fields of the result, and stores its output cleaned and cut under its hash, unless one is there. |
| `Database.Store.Accept` | agent/mesh/jobs.go:179-218 | One transaction: the specified acceptance, or no change and the first reason that applies. |
| `Database.Store.Next` | agent/mesh/jobs.go:260-306 | The loop computes the specified scan, or rolls everything back. |
| `Database.Store.Complete` | agent/mesh/jobs.go:308-326 | One transaction: the specified completion with its output stored, or no change. |
| `Database.Store.RecoverExcept` | agent/mesh/jobs.go:224-258 | The loop computes the specified recovery, or rolls everything back. |
| `Database.Store.RecallAll` | agent/mesh/jobs.go:57-67 | Finds the event of the command for each target, or fails. |
| `Database.Store.SubmitEach` | agent/mesh/jobs.go:76-121 | Appends the specified command for each target. |
| `Database.Store.CreateCommands` | agent/mesh/jobs.go:16-133 | One transaction: the specified submission, or no change; a new map_drive submission leaves its letter, path and user name as preferences, never the password. |
| `Database.Store.RetryCommand` | agent/mesh/jobs.go:389-434 | One transaction: the specified retry, or no change. |
| `Peers.PullAll` | agent/mesh/enrollment.go:152-167 | Against a peer that stands still the unbounded pull loop terminates, with the peer's whole log on top of the joiner's own and nothing foreign. |
| `Peers.Join` | agent/mesh/enrollment.go:117-172 | From any state of an earlier attempt: without conflicts the joiner gains exactly what the peer has and it lacks, and joining succeeds if and only if this identity is then admitted and unremoved; a joiner that held nothing the peer lacks ends with the peer's events and projections; another fleet is refused. |
| `Peers.RestoreHistory` | agent/mesh/recovery.go:271-349 | The replay loops over two stores: refused for a backup without a fleet, otherwise never without conflicts and with its blobs in use; same events and projections, the unexpired blobs, empty inbox. |
| `Peers.RestoreBlobs` | agent/mesh/recovery.go:326-347 | Each unexpired blob is kept as long as its receipts are recent; none is refused if all are in use. |
| `Peers.Pull` | agent/mesh/node.go:476-488 | One pull closes the gap by the batch: all that is missing, or at least k events if any k rows the peer holds fit in a batch (one always does); it is empty only if nothing is missing. Refused without effect if the peer takes either for inactive, and otherwise, without conflicting records, never. |
| `Peers.Push` | agent/mesh/node.go:489-505 | With cursors that may lag behind: an empty push means the peer lacks nothing; acknowledged rows and cursors are true; with exact cursors the gap closes by the batch, all of it or at least k events if any k rows we hold fit in a batch. It never fails while the peer takes both for active and no records conflict, and otherwise moves nothing. |
| `Peers.Round` | agent/mesh/node.go:475-509 | One round shrinks the gap on both sides, or there was none; refused without effect if the peer takes either for inactive, never if it takes both for active and no records conflict. |
| `Peers.Sync` | agent/mesh/node.go:448-524 | If at the start either side takes either identity for inactive it fails as inactive and neither store changes; if both take both for active and no records conflict it never fails, because no exchange between the two can make either inactive. After it there is a replica row for each event both hold, and all new rows are true; if any k rows of the events the two hold fit in a batch, at most 31 * k missing events on either side are enough for both logs to end equal. Neither inbox changes. |
| `Peers.Ask` | agent/mesh/node.go:531-557 | The target's half of a delivery: refused without effect if it takes either for inactive; otherwise its acceptance, and the way back for its receipt. |
| `Peers.Deliver` | agent/mesh/node.go:531-557 | A command for this node is accepted here; for another, with or without a lost answer, the caller's journal is untouched, the target gains at most one inbox row and none on a repeat, and a quiet delivery leaves both with the same receipts. If both take each other for active, nobody who submitted the command was removed, the target's answer is there or fits, at most 31 events are missing on either side and no records conflict, the target does answer, and the answer comes back unless it is lost. |
| `BinarySwap.Machine.CopyBinary` | agent/mesh_update_windows.go:62-81 | Only the target changes, one byte at a time from empty; it succeeds if and only if the source is there and nothing fails, and then the whole source is in place. |
| `BinarySwap.Machine.SaveOld` | agent/mesh_update_windows.go:218-225 | Stops the service and copies its binary aside, leaving it in place; it is started again if that copy fails. |
| `BinarySwap.Machine.PutNew` | agent/mesh_update_windows.go:226-238 | Success means the expected hash, a start and a passed health check, in that order, and comes about if and only if each of these goes well. |
| `BinarySwap.Machine.PutBack` | agent/mesh_update_windows.go:242-251 | Rolled back means the old binary is in place; in every outcome the backup holds it. |
| `BinarySwap.Machine.Replace` | agent/mesh_update_windows.go:226-252 | With the old binary kept: the new one put in place or the old one put back, and which of the outcomes, as the schedule of faults decides. |
| `BinarySwap.Machine.SwapBinary` | agent/mesh_update_windows.go:217-252 | Under every fault schedule, at every moment: the old binary is whole in place or in the backup, the installed file is written only between a successful stop and the next start, and the service is only started on the old binary or one with the expected hash. The outcome for every schedule: without a fault a staged binary of the expected hash is in place at the end; and what holds after each outcome. |
| `OutputBound.BoundaryNear` | agent/mesh/jobs.go:156-160 | Within three bytes before any position of valid UTF-8 there is a boundary. |
| `OutputBound.CleanedIsValid` | agent/mesh/jobs.go:155 | Cleaning makes any bytes valid UTF-8 and changes no valid text. |
| `OutputBound.CleaningKeeps` | agent/mesh/jobs.go:155 | Cleaning keeps every well-formed stretch of any bytes, wherever it stands and whatever surrounds it: a character is never swallowed by garbage before it. |
| `OutputBound.CleaningDrops` | agent/mesh/jobs.go:155 | Bytes among which no well-formed character starts leave nothing. |
| `OutputBound.Bound` | agent/mesh/jobs.go:155-161 | For every valid text the cut-and-trim loop ends with the longest valid prefix of at most 65536 bytes, at most three below the cut; shorter texts are unchanged. |

## Left out

- TLS, certificates, HTTP, discovery, server-sent events and JSON: only the hello, pull, push, accept and join payloads remain, as messages or arguments.
- Real cryptography (SHA-256, HMAC, Ed25519, NaCl box, DPAPI): injective constructors and predicates.
- SQLite, WAL, file permissions and integrity checks: a transaction is atomic; row order of the inbox is sequence order.
- Quarantine of duplicate identities: it enforces the premise that no identity is cloned.
- Who decides that a clock is uncertain: an input of each transaction.
- Worker and reconciliation loops with their timers, back-off and peer states: each iteration is a step (`StartNext`, `Finish`, `Reconcile`, `Deliver`, `Account`), in any order.
- Executor, staged updates and redaction of secrets in results: the executor's result is an argument of `Complete`.
- Fetching missing output blobs one by one and deleting expired ones (`syncOutputs`, `reconcile`); blobs that travel with receipts are modelled.
- The delivery table, peer addresses, hidden jobs and dashboard snapshots: local views.
- Legacy import, `mergeImports` and scrubbing: one-off migration; import events themselves are modelled.
- Join requests waiting for approval: an approval is an append of a member event, without the ten-minute window and the check for a removed identity; `RunTheorems.RemovalIsPermanent` shows a later admission has no effect.
- Validation of catalog edits before the append: easy string checks; the append and its projection are modelled.
- Convergence of member bodies, aliases and source-event columns: they keep the first arrival by design; only member IDs, removed flags and command bodies are claimed.
- Dependencies are sorted before signing in the code; the model keeps first occurrences in order, since nothing depends on their order.
- Release download, manifests, publishing and the Windows service calls around the swap.
- Legacy agent, host and Node server, drives, sessions, tray and all web code: separate programs.
- Peers.Sync: the peer changes only through this synchronisation, and rounds beyond the 32nd are left to the next call as in the code; concurrent changes are covered by the runs of `System`.
- Peers.Deliver: the two databases change only through this delivery; arbitrary interleavings are covered by the runs of `System`.
- Database.Store.constructor: without the integrity, version and identity checks of opening.
