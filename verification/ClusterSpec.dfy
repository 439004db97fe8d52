/**
 The replication protocol as functions on one node's state: how a node applies operations,
 recovers from its disk and reacts to each message (simulator/src/cluster.rs, storage.rs).
 */
module ClusterSpec {
  import opened Prelude
  import opened LedgerTypes
  import LedgerSpec
  import opened WalRecord
  import opened ClusterTypes

  // ----- storage.rs

  function DiskWrite(d: Disk, data: Bytes): Disk {
    d.(buffered := d.buffered + data)
  }

  function DiskSync(d: Disk): Disk {
    Disk(d.flushed + d.buffered, [])
  }

  /** Bytes a torn sector write leaves behind when nothing was buffered. */
  function Fragment(len: nat): Bytes {
    seq(len, i => (i + 0xEE) % 256)
  }

  /** Power loss. A torn write keeps a prefix of the buffer, or appends 1 to 15 invalid bytes. */
  function DiskCrash(d: Disk, torn: bool, tornLen: nat): Disk {
    if !torn then Disk(d.flushed, [])
    else if d.buffered != [] then Disk(d.flushed + Truncate(d.buffered, Max(1, tornLen)), [])
    else if d.flushed != [] then Disk(d.flushed + Fragment(Max(1, Min(tornLen, 15))), [])
    else Disk(d.flushed, [])
  }

  function DiskTruncate(d: Disk, len: nat): Disk {
    d.(flushed := Truncate(d.flushed, len))
  }

  // ----- SimNode

  function Keep(l: LedgerState, r: Result<LedgerState, LedgerError>): LedgerState {
    if r.Ok? then r.value else l
  }

  /** Apply one operation to a ledger; a failing operation leaves it unchanged. */
  function ApplyWorkload(l: LedgerState, e: Entry): LedgerState {
    match e.op
    case DirectTransfer(id, from, to, amount) =>
      var t := LedgerSpec.NewImmediate(id, from, to, amount, e.timestamp);
      if t.Ok? then Keep(l, LedgerSpec.CreateTransfer(l, t.value)) else l
    case CreateHold(id, from, to, amount) =>
      var t := LedgerSpec.NewPending(id, from, to, amount, e.timestamp);
      if t.Ok? then Keep(l, LedgerSpec.CreatePending(l, t.value)) else l
    case PostHold(p, q, amount) => Keep(l, LedgerSpec.PostPending(l, p, q, amount, e.timestamp))
    case VoidHold(p, _) => Keep(l, LedgerSpec.VoidPending(l, p, e.timestamp))
  }

  /** `apply_op_in_memory`. */
  function ApplyInMemory(n: Node, index: nat, e: Entry): Node {
    n.(ledger := ApplyWorkload(n.ledger, e),
       committed := n.committed[index := e],
       commitIndex := Max(n.commitIndex, index))
  }

  function EntryPayload(cfg: Config, index: nat, e: Entry): Bytes {
    cfg.codec.encode(WalEntry(index, e))
  }

  /** `apply_op`: apply, then write one frame and sync it. A payload too large is silently not written. */
  function ApplyOp(cfg: Config, n: Node, index: nat, e: Entry): Node {
    var m := ApplyInMemory(n, index, e);
    var payload := EntryPayload(cfg, index, e);
    if |payload| > DEFAULT_MAX_PAYLOAD_LEN then m
    else m.(disk := DiskSync(DiskWrite(m.disk, Frame(index, payload))))
  }

  /** Take index `i` out of the pending commits and apply it. */
  function DrainOne(cfg: Config, n: Node, i: nat): (m: Node)
    requires i in n.pending
    ensures m.pending == n.pending - {i}
  {
    var m := ApplyOp(cfg, n.(pending := n.pending - {i}), i, n.pending[i]);
    m.(uncommitted := m.uncommitted - {i})
  }

  /** Apply pending commits for as long as the next index is there. */
  function Drain(cfg: Config, n: Node): Node
    decreases |n.pending|
  {
    var i := n.commitIndex + 1;
    if i in n.pending then Drain(cfg, DrainOne(cfg, n, i)) else n
  }

  /** The scan loop of `recover`: re-apply decoded entries, counting the bytes that were valid. */
  function Reapply(cfg: Config, n: Node, b: Bytes, valid: nat): (r: (Node, nat))
    decreases |b|
  {
    var step := Next(b, DEFAULT_MAX_PAYLOAD_LEN, true);
    if !step.Record? then (n, valid)
    else
      match cfg.codec.decode(step.payload.value)
      case None => (n, valid)
      case Some(w) =>
        Reapply(cfg, ApplyInMemory(n, w.index, w.entry), b[FrameLen(step.len)..], valid + FrameLen(step.len))
  }

  function Wiped(cfg: Config, n: Node): Node {
    n.(ledger := cfg.genesis, committed := map[], pending := map[], uncommitted := map[], commitIndex := 0)
  }

  /** `recover`: rebuild from the durable bytes and cut off the torn tail. */
  function RecoverNode(cfg: Config, n: Node): Node {
    var (m, valid) := Reapply(cfg, Wiped(cfg, n), n.disk.flushed, 0);
    m.(disk := DiskTruncate(m.disk, valid))
  }

  // ----- reactions to messages

  datatype Reaction = Reaction(node: Node, out: set<Packet>)

  function Quorum(cfg: Config): nat {
    |cfg.ids| / 2 + 1
  }

  function Broadcast(cfg: Config, src: NodeId, msg: Message): set<Packet> {
    set p | p in cfg.ids - {src} :: Packet(src, p, msg)
  }

  /** A higher term always makes a follower without a vote. */
  function Observe(n: Node, term: nat): Node {
    if term > n.term then n.(term := term, role := Follower, isLeader := false, votedFor := None) else n
  }

  function OnPropose(n: Node, src: NodeId, term: nat, index: nat, op: WorkloadOp): Reaction {
    var m := Observe(n, term);
    if term < m.term then Reaction(m, {})
    else Reaction(m.(uncommitted := m.uncommitted[index := Proposal(op, {})]),
                  {Packet(n.id, src, Ack(n.id, term, index))})
  }

  /** The commits a drain made, announced to every peer. */
  function Announce(cfg: Config, before: Node, after: Node, term: nat): set<Packet> {
    set p, i | p in cfg.ids - {before.id} && i in after.committed && before.commitIndex < i <= after.commitIndex ::
      Packet(before.id, p, Commit(term, i, after.committed[i]))
  }

  function OnAck(cfg: Config, n: Node, ackFrom: NodeId, term: nat, index: nat, now: u64): Reaction {
    if !n.isLeader || n.term != term || index !in n.uncommitted then Reaction(n, {})
    else
      var prop := n.uncommitted[index];
      var acks := prop.acks + {ackFrom};
      var m := n.(uncommitted := n.uncommitted[index := Proposal(prop.op, acks)]);
      if |acks| < Quorum(cfg) || index in n.committed then Reaction(m, {})
      else
        var d := Drain(cfg, m.(pending := m.pending[index := Entry(prop.op, now)]));
        Reaction(d, Announce(cfg, n, d, term))
  }

  function OnCommit(cfg: Config, n: Node, term: nat, index: nat, e: Entry): Reaction {
    var m := Observe(n, term);
    if term < m.term || index in m.committed then Reaction(m, {})
    else Reaction(Drain(cfg, m.(pending := m.pending[index := e])), {})
  }

  function OnHeartbeat(n: Node, term: nat, leader: NodeId, leaderCommit: nat): Reaction {
    var m := Observe(n, term);
    if term < m.term then Reaction(m, {})
    else
      Reaction(m.(role := Follower, isLeader := false),
               if leaderCommit > m.commitIndex
               then {Packet(n.id, leader, CatchupRequest(n.id, m.commitIndex))} else {})
  }

  function OnRequestVote(n: Node, term: nat, candidate: NodeId, lastIndex: nat): Reaction {
    var m := Observe(n, term);
    if term == m.term && (m.votedFor.None? || m.votedFor == Some(candidate)) && lastIndex >= m.commitIndex
    then Reaction(m.(votedFor := Some(candidate)), {Packet(n.id, candidate, VoteGranted(n.id, term))})
    else Reaction(m, {})
  }

  function OnVoteGranted(cfg: Config, n: Node, voter: NodeId, term: nat): Reaction {
    if n.term != term || n.role != Candidate then Reaction(n, {})
    else
      var m := n.(votes := n.votes + {voter});
      if |m.votes| < Quorum(cfg) then Reaction(m, {})
      else Reaction(m.(role := Leader, isLeader := true),
                    Broadcast(cfg, n.id, Heartbeat(term, n.id, n.commitIndex)))
  }

  function EntriesAfter(committed: map<nat, Entry>, last: nat): map<nat, Entry> {
    map i | i in committed && i > last :: committed[i]
  }

  function OnCatchupRequest(n: Node, requester: NodeId, last: nat): Reaction {
    var entries := EntriesAfter(n.committed, last);
    Reaction(n, if entries == map[] then {} else {Packet(n.id, requester, CatchupResponse(n.id, entries))})
  }

  function NotCommitted(committed: map<nat, Entry>, entries: map<nat, Entry>): map<nat, Entry> {
    map i | i in entries && i !in committed :: entries[i]
  }

  function OnCatchupResponse(cfg: Config, n: Node, entries: map<nat, Entry>): Reaction {
    Reaction(Drain(cfg, n.(pending := n.pending + NotCommitted(n.committed, entries))), {})
  }

  /** `process_packet` at an active node. `now` is the timestamp a commit would get. */
  function React(cfg: Config, n: Node, src: NodeId, msg: Message, now: u64): Reaction {
    match msg
    case Propose(term, index, op) => OnPropose(n, src, term, index, op)
    case Ack(from, term, index) => OnAck(cfg, n, from, term, index, now)
    case Commit(term, index, e) => OnCommit(cfg, n, term, index, e)
    case RequestVote(term, candidate, last) => OnRequestVote(n, term, candidate, last)
    case VoteGranted(voter, term) => OnVoteGranted(cfg, n, voter, term)
    case Heartbeat(term, leader, leaderCommit) => OnHeartbeat(n, term, leader, leaderCommit)
    case CatchupRequest(requester, last) => OnCatchupRequest(n, requester, last)
    case CatchupResponse(_, entries) => OnCatchupResponse(cfg, n, entries)
  }

  // ----- steps a node takes by itself

  /** The leader side of `propose`. */
  function StartProposal(cfg: Config, n: Node, index: nat, op: WorkloadOp): Reaction {
    Reaction(n.(uncommitted := n.uncommitted[index := Proposal(op, {n.id})]),
             Broadcast(cfg, n.id, Propose(n.term, index, op)))
  }

  /** An election timeout, or `trigger_election`. */
  function StartElection(cfg: Config, n: Node): Reaction {
    Reaction(n.(term := n.term + 1, role := Candidate, isLeader := false, votedFor := Some(n.id), votes := {n.id}),
             Broadcast(cfg, n.id, RequestVote(n.term + 1, n.id, n.commitIndex)))
  }

  /** A leader's periodic heartbeat. */
  function Beat(cfg: Config, n: Node): Reaction {
    Reaction(n, Broadcast(cfg, n.id, Heartbeat(n.term, n.id, n.commitIndex)))
  }

  function CrashNode(n: Node, torn: bool, tornLen: nat): Node {
    n.(active := false, role := Follower, isLeader := false, votedFor := None, votes := {},
       uncommitted := map[], pending := map[], disk := DiskCrash(n.disk, torn, tornLen))
  }

  function RebootNode(cfg: Config, n: Node): Reaction {
    var m := RecoverNode(cfg, n).(active := true, role := Follower, isLeader := false, votedFor := None, votes := {});
    Reaction(m, Broadcast(cfg, n.id, CatchupRequest(n.id, m.commitIndex)))
  }

  // ----- the cluster

  /** All nodes, the global index counter and every packet ever sent. Any of those packets may be
      delivered at any time, any number of times or never. */
  datatype Cluster = Cluster(nodes: map<NodeId, Node>, nextLogIndex: nat, sent: set<Packet>)

  datatype Event =
    | ClientOp(leader: NodeId, op: WorkloadOp)
    | Deliver(packet: Packet, now: u64)
    | HeartbeatTick(node: NodeId)
    | ElectionTimeout(node: NodeId)
    | CrashEvent(node: NodeId, torn: bool, tornLen: nat)
    | RebootEvent(node: NodeId)

  function InitNode(cfg: Config, id: NodeId): Node {
    Node(id, cfg.genesis, Disk([], []), true, if id == 1 then Leader else Follower, 1, id == 1,
         if id == 1 then Some(1) else None, {}, map[], map[], map[], 0)
  }

  function Init(cfg: Config): Cluster {
    Cluster(map id | id in cfg.ids :: InitNode(cfg, id), 0, {})
  }

  /** Replace one node and send its packets. */
  function Effect(c: Cluster, id: NodeId, r: Reaction): Cluster {
    c.(nodes := c.nodes[id := r.node], sent := c.sent + r.out)
  }

  predicate Alive(c: Cluster, id: NodeId) {
    id in c.nodes && c.nodes[id].active
  }

  /** One step of the cluster. An event that is not enabled changes nothing. */
  function StepCluster(cfg: Config, c: Cluster, ev: Event): Cluster {
    match ev
    case ClientOp(id, op) =>
      if Alive(c, id) && c.nodes[id].isLeader then
        Effect(c.(nextLogIndex := c.nextLogIndex + 1), id, StartProposal(cfg, c.nodes[id], c.nextLogIndex + 1, op))
      else c
    case Deliver(p, now) =>
      if p in c.sent && Alive(c, p.dst) then Effect(c, p.dst, React(cfg, c.nodes[p.dst], p.src, p.msg, now)) else c
    case HeartbeatTick(id) =>
      if Alive(c, id) && c.nodes[id].role == Leader then Effect(c, id, Beat(cfg, c.nodes[id])) else c
    case ElectionTimeout(id) =>
      if Alive(c, id) then Effect(c, id, StartElection(cfg, c.nodes[id])) else c
    case CrashEvent(id, torn, tornLen) =>
      if id in c.nodes then Effect(c, id, Reaction(CrashNode(c.nodes[id], torn, tornLen), {})) else c
    case RebootEvent(id) =>
      if id in c.nodes then Effect(c, id, RebootNode(cfg, c.nodes[id]))
      else c.(sent := c.sent + Broadcast(cfg, id, CatchupRequest(id, 0)))
  }

  /** The cluster after a sequence of events. */
  function Run(cfg: Config, evs: seq<Event>): Cluster {
    if evs == [] then Init(cfg) else StepCluster(cfg, Run(cfg, evs[..|evs| - 1]), evs[|evs| - 1])
  }
}
