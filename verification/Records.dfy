/**
 The records of the mesh: members, commands, receipts, events and the tables
 of one node's database (types.go, identity.go, the schema in store.go).

 Hashes are modelled by what they hash.  An event ID is the free constructor
 `Hash` applied to the event's signed content, and `Digest` on strings is the
 identity, so two digests are equal exactly when their preimages are.  A
 signature is valid exactly when it was made with the event's own key over the
 event's own content.
 */
module Records {

  type NodeId = string
  type CommandId = string

  const PROTOCOL := 2
  const MAX_BATCH := 128
  const MAX_BODY := 2 * 1024 * 1024
  const MAX_DEPENDENCIES := 64
  const MAX_HOSTNAME := 255
  const MAX_KIND := 64
  const KEY_BYTES := 32
  const INT64_MAX := 0x7fff_ffff_ffff_ffff

  datatype Option<+T> = None | Some(value: T)
  datatype Result<+T> = Ok(value: T) | Err(error: Rejection)

  datatype Rejection =
    | Unverified | Oversized | SequenceGap | MissingPredecessor | MissingDependency | NoAdmission
    | InvalidMember | InvalidGenesis | InvalidCatalogItem | InvalidCommand | UnknownTarget
    | CommandConflict | NotTarget | InvalidStatus | TerminalReceipt | UnknownMember | AliasBound
    | Unsupported | LamportExhausted
    | NotFound | WrongTarget | Inactive | OriginRemoved | NotRunning | InvalidResult | InboxConflict
    | InvalidRequest | SubmissionReused | SubmittedElsewhere | NotRetryable | RetryConflict
    | AlreadyInitialized | BatchLimit | OtherFleet | Unanswered
    | InvalidOutput | UnreferencedOutput

  function Digest(preimage: string): string { preimage }

  function FleetOf(founder: NodeId): string { Digest("PrettyDamnFleet/v2/" + founder) }

  function CommandIdOf(fleet: string, job: string, target: NodeId): CommandId {
    Digest(fleet + "/" + job + "/" + target)
  }

  datatype Member = Member(id: NodeId, publicKey: string, encryptionKey: string, hostname: string, legacyId: string)

  datatype Delivery = Online | Deferred | OtherDelivery(text: string)

  datatype Command = Command(
    id: CommandId, jobId: string, target: NodeId, kind: string, payload: map<string, string>,
    secret: string, delivery: Delivery, expiresAt: int, createdAt: int, retryOf: string)

  datatype Status = Queued | Held | Running | Done | Failed | Unknown | Expired | OtherStatus(text: string)

  predicate Terminal(s: Status) { s in {Done, Failed, Unknown, Expired} }

  type Byte = b: int | 0 <= b < 256

  /** The hash of an execution's output, if it had one. */
  datatype OutputHash = NoOutput | OutputHash(of: seq<Byte>)

  datatype Installation = Installation(name: string, version: string)

  /** What a receipt says about a result beyond its status and message. */
  datatype Details = Details(
    via: string, installed: Option<bool>, installations: seq<Installation>, outputHash: OutputHash)

  const NO_DETAILS: Details := Details("", None, [], NoOutput)

  datatype Receipt = Receipt(
    commandId: CommandId, target: NodeId, status: Status, message: string, updatedAt: int, details: Details)

  /** What the executor returns. */
  datatype Executed = Executed(
    status: Status, message: string, via: string, output: seq<Byte>, installed: Option<bool>,
    installations: seq<Installation>)

  /** A submission request as the node digests it: targets sorted, delivery and payload defaulted. */
  datatype Request = Request(
    submissionId: string, kind: string, machineIds: seq<NodeId>, payload: map<string, string>,
    delivery: Delivery, expiresAt: int, retryOf: string)

  datatype CatalogItem = CatalogItem(id: string, name: string, match_: string, wingetId: string)

  /** An event body, decoded by its kind; `Undecodable` is an unknown kind or a body that does not parse. */
  datatype Body =
    | MemberBody(member: Member)
    | RemoveBody(removedId: NodeId)
    | CatalogBody(item: CatalogItem, remove: bool)
    | CommandBody(command: Command)
    | ReceiptBody(receipt: Receipt)
    | InventoryBody(observation: string)
    | ImportBody(archive: string)
    | AliasBody(memberId: NodeId, legacyId: string)
    | Undecodable(text: string)

  /** What the hash and the signature of an event cover.  `bodyLength` is the length of the encoded body. */
  datatype Content = Content(
    fleet: string, origin: NodeId, sequence: int, lamport: int, version: int, createdAt: int,
    dependencies: seq<EventId>, body: Body, bodyLength: nat, publicKey: string)

  datatype EventId = Hash(of: Content)

  datatype Signature = Signature(key: string, over: Content)

  datatype Event = Event(id: EventId, content: Content, signature: Signature)

  /** `sign`: the event whose hash and signature belong to its content. */
  function Signed(c: Content): Event {
    Event(Hash(c), c, Signature(c.publicKey, c))
  }

  /** `verify`: the first reason to refuse an event, if any. */
  function Verify(e: Event, fleet: string): Option<Rejection> {
    var c := e.content;
    if c.version != PROTOCOL || c.fleet != fleet || !(1 <= c.sequence <= INT64_MAX) || !(1 <= c.lamport <= INT64_MAX)
       || |c.publicKey| != KEY_BYTES || c.origin != Digest(c.publicKey) || e.id != Hash(c)
       || e.signature != Signature(c.publicKey, c) then Some(Unverified)
    else if c.bodyLength > MAX_BODY / 2 || |c.dependencies| > MAX_DEPENDENCIES then Some(Oversized)
    else None
  }

  /** Only one event carries a given ID past `verify`: the signed content under that hash. */
  lemma VerifiedIsSigned(e: Event, fleet: string)
    requires Verify(e, fleet).None?
    ensures e == Signed(e.id.of)
  {
  }

  // ---- rows -------------------------------------------------------------

  datatype MemberRow = MemberRow(admission: EventId, member: Member, removed: bool)

  /** The rank of a catalog edit: Lamport counter, origin, origin sequence. */
  datatype Rank = Rank(lamport: int, origin: NodeId, sequence: int)

  datatype CatalogRow = CatalogRow(event: EventId, rank: Rank, item: CatalogItem, removed: bool)
  datatype CommandRow = CommandRow(event: EventId, command: Command)
  datatype ReceiptRow = ReceiptRow(event: EventId, sequence: int, receipt: Receipt)
  datatype InventoryRow = InventoryRow(sequence: int, observation: string)

  /** The replicated part of a node's database: the event log and the tables projected from it. */
  datatype Log = Log(
    fleet: string,
    events: map<EventId, Event>,
    members: map<NodeId, MemberRow>,
    removals: set<NodeId>,
    catalog: map<string, CatalogRow>,
    commands: map<CommandId, CommandRow>,
    receipts: map<CommandId, ReceiptRow>,
    inventory: map<NodeId, InventoryRow>,
    imports: map<EventId, string>)

  function EmptyLog(fleet: string): Log {
    Log(fleet, map[], map[], {}, map[], map[], map[], map[], map[])
  }

  predicate Known(log: Log, m: NodeId) { m in log.members }

  /** `memberTx(id, true)` succeeds. */
  predicate Active(log: Log, m: NodeId) { m in log.members && !log.members[m].removed }
}
