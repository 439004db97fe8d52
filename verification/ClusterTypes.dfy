/** Messages, nodes and simulated disks of the replicated cluster (simulator/src). */
module ClusterTypes {
  import opened Prelude
  import opened LedgerTypes
  import opened WalRecord

  type NodeId = nat

  datatype WorkloadOp =
    | DirectTransfer(transferId: TransferId, from: AccountId, to: AccountId, amount: Amount)
    | CreateHold(transferId: TransferId, from: AccountId, to: AccountId, amount: Amount)
    | PostHold(pendingId: TransferId, postId: TransferId, amount: Amount)
    | VoidHold(pendingId: TransferId, voidId: TransferId)

  /** A committed operation with its canonical timestamp. */
  datatype Entry = Entry(op: WorkloadOp, timestamp: u64)

  datatype Message =
    | Propose(term: nat, index: nat, op: WorkloadOp)
    | Ack(ackFrom: NodeId, term: nat, index: nat)
    | Commit(term: nat, index: nat, entry: Entry)
    | RequestVote(term: nat, candidate: NodeId, lastIndex: nat)
    | VoteGranted(voter: NodeId, term: nat)
    | Heartbeat(term: nat, leader: NodeId, leaderCommit: nat)
    | CatchupRequest(requester: NodeId, lastIndex: nat)
    | CatchupResponse(responder: NodeId, entries: map<nat, Entry>)

  datatype Packet = Packet(src: NodeId, dst: NodeId, msg: Message)

  datatype Role = Follower | Candidate | Leader

  datatype Disk = Disk(flushed: Bytes, buffered: Bytes)

  /** An in-flight proposal and who acknowledged it. */
  datatype Proposal = Proposal(op: WorkloadOp, acks: set<NodeId>)

  /** One simulated node. Its timers are not part of the model: a timeout may fire at any moment. */
  datatype Node = Node(
    id: NodeId,
    ledger: LedgerState,
    disk: Disk,
    active: bool,
    role: Role,
    term: nat,
    isLeader: bool,
    votedFor: Option<NodeId>,
    votes: set<NodeId>,
    committed: map<nat, Entry>,
    pending: map<nat, Entry>,
    uncommitted: map<nat, Proposal>,
    commitIndex: nat)

  /** What a node writes to its log for one committed operation. */
  datatype WalEntry = WalEntry(index: nat, entry: Entry)

  /** The entry codec (postcard), known by its round trip and the size of what it writes. */
  datatype EntryCodec = EntryCodec(encode: WalEntry -> Bytes, decode: Bytes -> Option<WalEntry>)

  datatype Config = Config(codec: EntryCodec, genesis: LedgerState, ids: set<NodeId>)

  /** Round trip and size for every entry whose index is a 64-bit number, as in the source. */
  ghost predicate CodecOk(codec: EntryCodec) {
    forall e: WalEntry :: e.index < U64_LIMIT ==> Stores(codec, e)
  }

  predicate Stores(codec: EntryCodec, e: WalEntry) {
    codec.decode(codec.encode(e)) == Some(e) && |codec.encode(e)| <= DEFAULT_MAX_PAYLOAD_LEN
  }

  /** All indexes are 64-bit numbers. */
  predicate InRange(entries: map<nat, Entry>) {
    forall i :: i in entries ==> i < U64_LIMIT
  }
}
