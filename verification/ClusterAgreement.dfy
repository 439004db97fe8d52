/**
 Log agreement: in every run, with messages lost, duplicated, delayed or reordered, with several
 nodes believing they lead, with crashes, torn writes and reboots, two nodes that committed the
 same index committed the same operation with the same timestamp.
 */
module ClusterAgreement {
  import opened Prelude
  import opened ClusterTypes
  import opened ClusterSpec
  import opened ClusterDurability

  // ----- one node, one message

  /** The log part of a node is untouched. */
  predicate SameLog(n: Node, m: Node) {
    && m.committed == n.committed && m.pending == n.pending && m.commitIndex == n.commitIndex
    && m.ledger == n.ledger && m.disk == n.disk && m.active == n.active && m.id == n.id
  }

  lemma SameLogOk(cfg: Config, n: Node, m: Node)
    requires NodeOk(cfg, n) && SameLog(n, m)
    ensures NodeOk(cfg, m) && Grows(n, m, n.pending)
  {
  }

  predicate Commits(cfg: Config, n: Node, ackFrom: NodeId, term: nat, index: nat) {
    && n.isLeader && n.term == term && index in n.uncommitted && index !in n.committed
    && |n.uncommitted[index].acks + {ackFrom}| >= Quorum(cfg)
  }

  /** What may be committed while reacting to a message: the pending commits and what the message adds. */
  function SourceOf(cfg: Config, n: Node, msg: Message, now: u64): map<nat, Entry> {
    match msg
    case Ack(from, term, index) =>
      if Commits(cfg, n, from, term, index) then n.pending[index := Entry(n.uncommitted[index].op, now)] else n.pending
    case Commit(term, index, e) =>
      if term < n.term || index in n.committed then n.pending else n.pending[index := e]
    case CatchupResponse(_, entries) => n.pending + NotCommitted(n.committed, entries)
    case _ => n.pending
  }

  /** Put commits that are not committed yet into `pending`, then drain. */
  lemma DrainFrom(cfg: Config, n: Node, m: Node)
    requires CodecOk(cfg.codec) && NodeOk(cfg, n) && n.active
    requires SameLog(n, m.(pending := n.pending))
    requires (forall i :: i in m.pending ==> i !in n.committed) && InRange(m.pending)
    ensures var d := Drain(cfg, m);
      NodeOk(cfg, d) && Grows(n, d, m.pending) && SameElection(m, d)
  {
    hide Fold, DiskLog, CodecOk;
    assert NodeOk(cfg, m);
    hide OnDisk, Drain;
    DrainOk(cfg, m);
  }

  /** Every other reaction leaves the log alone. */
  predicate Quiet(cfg: Config, n: Node, msg: Message) {
    match msg
    case Ack(from, term, index) => !Commits(cfg, n, from, term, index)
    case Commit(term, index, e) => term < n.term || index in n.committed
    case CatchupResponse(_, _) => false
    case _ => true
  }

  lemma QuietReaction(cfg: Config, n: Node, src: NodeId, msg: Message, now: u64)
    requires Quiet(cfg, n, msg)
    ensures SameLog(n, React(cfg, n, src, msg, now).node)
    ensures SourceOf(cfg, n, msg, now) == n.pending
  {
    hide SameLog, OnAck, OnCommit, OnCatchupResponse, OnPropose, OnRequestVote, OnVoteGranted, OnHeartbeat,
         OnCatchupRequest;
    match msg
    case Ack(from, term, index) => QuietAck(cfg, n, from, term, index, now);
    case Commit(term, index, e) => QuietCommit(cfg, n, term, index, e);
    case Propose(term, index, op) => QuietPropose(n, src, term, index, op);
    case RequestVote(term, candidate, last) => QuietRequestVote(n, term, candidate, last);
    case VoteGranted(voter, term) => QuietVoteGranted(cfg, n, voter, term);
    case Heartbeat(term, leader, k) => QuietHeartbeat(n, term, leader, k);
    case CatchupRequest(requester, last) => QuietCatchupRequest(n, requester, last);
  }

  lemma QuietPropose(n: Node, src: NodeId, term: nat, index: nat, op: WorkloadOp)
    ensures SameLog(n, OnPropose(n, src, term, index, op).node)
  {
  }

  lemma QuietRequestVote(n: Node, term: nat, candidate: NodeId, last: nat)
    ensures SameLog(n, OnRequestVote(n, term, candidate, last).node)
  {
  }

  lemma QuietVoteGranted(cfg: Config, n: Node, voter: NodeId, term: nat)
    ensures SameLog(n, OnVoteGranted(cfg, n, voter, term).node)
  {
    hide Broadcast;
  }

  lemma QuietHeartbeat(n: Node, term: nat, leader: NodeId, k: nat)
    ensures SameLog(n, OnHeartbeat(n, term, leader, k).node)
  {
  }

  lemma QuietCatchupRequest(n: Node, requester: NodeId, last: nat)
    ensures SameLog(n, OnCatchupRequest(n, requester, last).node)
  {
  }

  lemma QuietAck(cfg: Config, n: Node, from: NodeId, term: nat, index: nat, now: u64)
    requires !Commits(cfg, n, from, term, index)
    ensures SameLog(n, OnAck(cfg, n, from, term, index, now).node)
  {
    hide Drain, Announce;
  }

  lemma QuietCommit(cfg: Config, n: Node, term: nat, index: nat, e: Entry)
    requires term < n.term || index in n.committed
    ensures SameLog(n, OnCommit(cfg, n, term, index, e).node)
  {
    hide Drain;
  }

  lemma ReactOk(cfg: Config, n: Node, src: NodeId, msg: Message, now: u64)
    requires CodecOk(cfg.codec) && NodeOk(cfg, n) && n.active && InRange(SourceOf(cfg, n, msg, now))
    ensures var m := React(cfg, n, src, msg, now).node;
      NodeOk(cfg, m) && Grows(n, m, SourceOf(cfg, n, msg, now)) && m.active && m.id == n.id
  {
    hide NodeOk, CodecOk, Drain, Grows, OnAck, OnCommit, OnCatchupResponse;
    if Quiet(cfg, n, msg) {
      QuietReaction(cfg, n, src, msg, now);
      SameLogOk(cfg, n, React(cfg, n, src, msg, now).node);
    } else {
      match msg
      case Ack(from, term, index) => AckCommitOk(cfg, n, from, term, index, now);
      case Commit(term, index, e) => CommitOk(cfg, n, term, index, e);
      case CatchupResponse(_, entries) => CatchupOk(cfg, n, entries);
    }
  }

  lemma PendingApart(cfg: Config, n: Node)
    requires NodeOk(cfg, n)
    ensures forall i :: i in n.pending ==> i !in n.committed
  {
  }

  lemma AckCommitOk(cfg: Config, n: Node, from: NodeId, term: nat, index: nat, now: u64)
    requires CodecOk(cfg.codec) && NodeOk(cfg, n) && n.active && Commits(cfg, n, from, term, index)
    requires InRange(SourceOf(cfg, n, Ack(from, term, index), now))
    ensures var m := OnAck(cfg, n, from, term, index, now).node;
      NodeOk(cfg, m) && Grows(n, m, SourceOf(cfg, n, Ack(from, term, index), now)) && m.active && m.id == n.id
  {
    hide NodeOk, CodecOk, Drain, Grows;
    PendingApart(cfg, n);
    var prop := n.uncommitted[index];
    var m := n.(uncommitted := n.uncommitted[index := Proposal(prop.op, prop.acks + {from})],
                pending := n.pending[index := Entry(prop.op, now)]);
    DrainFrom(cfg, n, m);
  }

  lemma CommitOk(cfg: Config, n: Node, term: nat, index: nat, e: Entry)
    requires CodecOk(cfg.codec) && NodeOk(cfg, n) && n.active && term >= n.term && index !in n.committed
    requires InRange(n.pending[index := e])
    ensures var m := OnCommit(cfg, n, term, index, e).node;
      NodeOk(cfg, m) && Grows(n, m, n.pending[index := e]) && m.active && m.id == n.id
  {
    hide NodeOk, CodecOk, Drain, Grows, SourceOf;
    PendingApart(cfg, n);
    var o := Observe(n, term);
    var m := o.(pending := n.pending[index := e]);
    assert SameLog(n, o) && o.term <= term;
    assert OnCommit(cfg, n, term, index, e).node == Drain(cfg, m);
    DrainFrom(cfg, n, m);
  }

  lemma CatchupOk(cfg: Config, n: Node, entries: map<nat, Entry>)
    requires CodecOk(cfg.codec) && NodeOk(cfg, n) && n.active
    requires InRange(n.pending + NotCommitted(n.committed, entries))
    ensures var m := OnCatchupResponse(cfg, n, entries).node;
      NodeOk(cfg, m) && Grows(n, m, n.pending + NotCommitted(n.committed, entries)) && m.active && m.id == n.id
  {
    hide NodeOk, CodecOk, Drain, Grows;
    PendingApart(cfg, n);
    DrainFrom(cfg, n, n.(pending := n.pending + NotCommitted(n.committed, entries)));
  }

  // ----- the cluster invariant

  /** `e` is what the node that proposed index `i` committed there. */
  ghost predicate Settled(c: Cluster, owner: map<nat, NodeId>, i: nat, e: Entry) {
    && i in owner && owner[i] in c.nodes
    && i in c.nodes[owner[i]].committed && c.nodes[owner[i]].committed[i] == e
  }

  /** Proposals come from the owner of their index, acknowledgements go to it, and what is
      announced or handed over is settled. */
  ghost predicate PacketOk(c: Cluster, owner: map<nat, NodeId>, p: Packet) {
    match p.msg
    case Propose(_, i, _) => i in owner && owner[i] == p.src
    case Ack(_, _, i) => i in owner && owner[i] == p.dst
    case Commit(_, i, e) => Settled(c, owner, i, e)
    case CatchupResponse(_, entries) => forall i :: i in entries ==> Settled(c, owner, i, entries[i])
    case _ => true
  }

  /** Only the owner of an index may hold a pending commit for it that is not settled yet. */
  ghost predicate LogOk(c: Cluster, owner: map<nat, NodeId>, id: NodeId)
    requires id in c.nodes
  {
    var n := c.nodes[id];
    && (forall i :: i in n.committed ==> Settled(c, owner, i, n.committed[i]))
    && (forall i :: i in n.pending ==> i in owner && (owner[i] == id || Settled(c, owner, i, n.pending[i])))
  }

  ghost predicate Numbered(c: Cluster, owner: map<nat, NodeId>) {
    forall i :: i in owner ==> 1 <= i <= c.nextLogIndex
  }

  ghost predicate NodesOk(cfg: Config, c: Cluster) {
    && c.nodes.Keys == cfg.ids
    && (forall id :: id in c.nodes ==> c.nodes[id].id == id && NodeOk(cfg, c.nodes[id]))
  }

  /** Each index belongs to the one node that proposed it. */
  ghost predicate OwnedBy(c: Cluster, owner: map<nat, NodeId>) {
    && Numbered(c, owner)
    && (forall id :: id in c.nodes ==> LogOk(c, owner, id))
    && (forall p :: p in c.sent ==> PacketOk(c, owner, p))
  }

  ghost predicate Agreeing(cfg: Config, c: Cluster) {
    NodesOk(cfg, c) && exists owner :: OwnedBy(c, owner)
  }

  /** Logs only grow at node `id`, from `source`, and nothing else changes. */
  ghost predicate GrowsAt(c: Cluster, c': Cluster, id: NodeId, source: map<nat, Entry>) {
    && id in c.nodes && c'.nodes.Keys == c.nodes.Keys
    && (forall x :: x in c.nodes && x != id ==> c'.nodes[x] == c.nodes[x])
    && Grows(c.nodes[id], c'.nodes[id], source)
  }

  lemma SettledStays(c: Cluster, c': Cluster, id: NodeId, source: map<nat, Entry>, owner: map<nat, NodeId>,
                     i: nat, e: Entry)
    requires GrowsAt(c, c', id, source) && Settled(c, owner, i, e)
    ensures Settled(c', owner, i, e)
  {
  }

  lemma PacketStaysOk(c: Cluster, c': Cluster, id: NodeId, source: map<nat, Entry>, owner: map<nat, NodeId>, p: Packet)
    requires GrowsAt(c, c', id, source) && PacketOk(c, owner, p)
    ensures PacketOk(c', owner, p)
  {
    match p.msg
    case Commit(_, i, e) => SettledStays(c, c', id, source, owner, i, e);
    case CatchupResponse(_, entries) =>
      forall i | i in entries ensures Settled(c', owner, i, entries[i]) {
        SettledStays(c, c', id, source, owner, i, entries[i]);
      }
    case _ =>
  }

  /** An entry a node may take up: its own index, or one that is settled. */
  ghost predicate Admissible(c: Cluster, owner: map<nat, NodeId>, id: NodeId, source: map<nat, Entry>) {
    forall i :: i in source ==> i in owner && (owner[i] == id || Settled(c, owner, i, source[i]))
  }

  lemma LogsStayOk(c: Cluster, c': Cluster, id: NodeId, source: map<nat, Entry>, owner: map<nat, NodeId>, x: NodeId)
    requires GrowsAt(c, c', id, source) && x in c.nodes && LogOk(c, owner, x) && LogOk(c, owner, id)
    requires Admissible(c, owner, id, source)
    ensures LogOk(c', owner, x)
  {
    var m := c'.nodes[x];
    forall i | i in m.committed ensures Settled(c', owner, i, m.committed[i]) {
      if i in c.nodes[x].committed {
        SettledStays(c, c', id, source, owner, i, m.committed[i]);
      } else if owner[i] != id {
        SettledStays(c, c', id, source, owner, i, source[i]);
      }
    }
    forall i | i in m.pending ensures i in owner && (owner[i] == x || Settled(c', owner, i, m.pending[i])) {
      if i in owner && owner[i] != x {
        SettledStays(c, c', id, source, owner, i, m.pending[i]);
      }
    }
  }

  /** A node that grows from admissible entries, and sends packets that are in order, keeps ownership. */
  lemma GrowthKeepsOwnership(c: Cluster, c': Cluster, id: NodeId, source: map<nat, Entry>, owner: map<nat, NodeId>,
                             out: set<Packet>)
    requires OwnedBy(c, owner) && GrowsAt(c, c', id, source) && Admissible(c, owner, id, source)
    requires c'.nextLogIndex == c.nextLogIndex && c'.sent == c.sent + out
    requires forall x :: x in c'.nodes ==> LogOk(c', owner, x)
    requires forall p :: p in out ==> PacketOk(c', owner, p)
    ensures OwnedBy(c', owner)
  {
    forall p | p in c'.sent ensures PacketOk(c', owner, p) {
      if p in c.sent {
        PacketStaysOk(c, c', id, source, owner, p);
      }
    }
  }

  lemma AllLogsStayOk(c: Cluster, c': Cluster, id: NodeId, source: map<nat, Entry>, owner: map<nat, NodeId>)
    requires OwnedBy(c, owner) && GrowsAt(c, c', id, source) && Admissible(c, owner, id, source)
    ensures forall x :: x in c'.nodes ==> LogOk(c', owner, x)
  {
    forall x | x in c'.nodes ensures LogOk(c', owner, x) {
      LogsStayOk(c, c', id, source, owner, x);
    }
  }

  // ----- packets a reaction sends

  lemma SourceAdmissible(cfg: Config, c: Cluster, owner: map<nat, NodeId>, p: Packet, now: u64)
    requires OwnedBy(c, owner) && p in c.sent && p.dst in c.nodes
    ensures Admissible(c, owner, p.dst, SourceOf(cfg, c.nodes[p.dst], p.msg, now))
  {
    assert LogOk(c, owner, p.dst) && PacketOk(c, owner, p);
  }

  lemma AdmissibleInRange(c: Cluster, owner: map<nat, NodeId>, id: NodeId, source: map<nat, Entry>)
    requires OwnedBy(c, owner) && Admissible(c, owner, id, source) && c.nextLogIndex < U64_LIMIT
    ensures InRange(source)
  {
    hide Settled, LogOk, PacketOk;
  }

  lemma OutgoingOk(cfg: Config, c: Cluster, c': Cluster, owner: map<nat, NodeId>, p: Packet, now: u64)
    requires OwnedBy(c, owner) && p in c.sent && p.dst in c.nodes && c.nodes[p.dst].id == p.dst
    requires p.dst in c'.nodes && LogOk(c', owner, p.dst)
    requires React(cfg, c.nodes[p.dst], p.src, p.msg, now).node == c'.nodes[p.dst]
    ensures forall q :: q in React(cfg, c.nodes[p.dst], p.src, p.msg, now).out ==> PacketOk(c', owner, q)
  {
    hide Drain, Settled;
    var n := c.nodes[p.dst];
    var r := React(cfg, n, p.src, p.msg, now);
    assert PacketOk(c, owner, p);
    forall q | q in r.out ensures PacketOk(c', owner, q) {
      match p.msg
      case Propose(_, _, _) =>
      case Ack(_, _, _) =>
      case CatchupRequest(_, _) =>
      case _ =>
    }
  }

  // ----- steps

  lemma DeliverKeeps(cfg: Config, c: Cluster, p: Packet, now: u64, owner: map<nat, NodeId>)
    requires CodecOk(cfg.codec) && NodesOk(cfg, c) && OwnedBy(c, owner) && p in c.sent && Alive(c, p.dst)
    requires c.nextLogIndex < U64_LIMIT
    ensures var c' := StepCluster(cfg, c, Deliver(p, now)); NodesOk(cfg, c') && OwnedBy(c', owner)
  {
    hide NodeOk, CodecOk, React, OwnedBy;
    var n := c.nodes[p.dst];
    var r := React(cfg, n, p.src, p.msg, now);
    var c' := StepCluster(cfg, c, Deliver(p, now));
    var source := SourceOf(cfg, n, p.msg, now);
    SourceAdmissible(cfg, c, owner, p, now);
    AdmissibleInRange(c, owner, p.dst, source);
    ReactOk(cfg, n, p.src, p.msg, now);
    hide Grows, SourceOf;
    assert GrowsAt(c, c', p.dst, source);
    hide Admissible, LogOk;
    AllLogsStayOk(c, c', p.dst, source, owner);
    OutgoingOk(cfg, c, c', owner, p, now);
    GrowthKeepsOwnership(c, c', p.dst, source, owner, r.out);
  }

  /** Packets that carry no log entry. */
  predicate LogFree(m: Message) {
    m.RequestVote? || m.VoteGranted? || m.Heartbeat? || m.CatchupRequest?
  }

  /** A proposal sent by the owner of its index. */
  predicate OwnProposal(owner: map<nat, NodeId>, p: Packet) {
    p.msg.Propose? && p.msg.index in owner && owner[p.msg.index] == p.src
  }

  /** A node changes by itself, growing from admissible entries. */
  lemma OwnStepKeeps(cfg: Config, c: Cluster, id: NodeId, r: Reaction, source: map<nat, Entry>, owner: map<nat, NodeId>)
    requires NodesOk(cfg, c) && OwnedBy(c, owner) && id in c.nodes
    requires NodeOk(cfg, r.node) && r.node.id == id && Grows(c.nodes[id], r.node, source)
    requires Admissible(c, owner, id, source)
    requires forall p :: p in r.out ==> LogFree(p.msg) || OwnProposal(owner, p)
    ensures NodesOk(cfg, Effect(c, id, r)) && OwnedBy(Effect(c, id, r), owner)
  {
    hide NodeOk, Grows, Admissible, LogOk, OwnedBy;
    var c' := Effect(c, id, r);
    assert GrowsAt(c, c', id, source);
    AllLogsStayOk(c, c', id, source, owner);
    GrowthKeepsOwnership(c, c', id, source, owner, r.out);
  }

  lemma PendingAdmissible(c: Cluster, owner: map<nat, NodeId>, id: NodeId)
    requires OwnedBy(c, owner) && id in c.nodes
    ensures Admissible(c, owner, id, c.nodes[id].pending) && Admissible(c, owner, id, map[])
  {
    assert LogOk(c, owner, id);
  }

  /** A step that leaves the node's log alone. */
  lemma QuietStepKeeps(cfg: Config, c: Cluster, id: NodeId, r: Reaction, owner: map<nat, NodeId>)
    requires NodesOk(cfg, c) && OwnedBy(c, owner) && id in c.nodes && SameLog(c.nodes[id], r.node)
    requires forall p :: p in r.out ==> LogFree(p.msg) || OwnProposal(owner, p)
    ensures NodesOk(cfg, Effect(c, id, r)) && OwnedBy(Effect(c, id, r), owner)
  {
    hide NodeOk, Grows, Admissible, OwnedBy;
    SameLogOk(cfg, c.nodes[id], r.node);
    PendingAdmissible(c, owner, id);
    OwnStepKeeps(cfg, c, id, r, c.nodes[id].pending, owner);
  }

  /** Handing out the next index to a node. */
  lemma NewIndexOwned(cfg: Config, c: Cluster, owner: map<nat, NodeId>, id: NodeId)
    requires NodesOk(cfg, c) && OwnedBy(c, owner)
    ensures var i := c.nextLogIndex + 1;
      NodesOk(cfg, c.(nextLogIndex := i)) && OwnedBy(c.(nextLogIndex := i), owner[i := id])
  {
    hide NodeOk, Settled;
    var i := c.nextLogIndex + 1;
    var c', owner' := c.(nextLogIndex := i), owner[i := id];
    assert i !in owner;
    forall x | x in c'.nodes ensures LogOk(c', owner', x) {
      LogWithNewIndex(c, owner, id, x);
    }
    forall p | p in c'.sent ensures PacketOk(c', owner', p) {
      assert PacketOk(c, owner, p);
      match p.msg
      case Commit(_, j, e) => SettledWithNewIndex(c, owner, id, j, e);
      case CatchupResponse(_, entries) =>
        forall j | j in entries ensures Settled(c', owner', j, entries[j]) {
          SettledWithNewIndex(c, owner, id, j, entries[j]);
        }
      case _ =>
    }
  }

  lemma SettledWithNewIndex(c: Cluster, owner: map<nat, NodeId>, id: NodeId, j: nat, e: Entry)
    requires Numbered(c, owner) && Settled(c, owner, j, e)
    ensures var i := c.nextLogIndex + 1; Settled(c.(nextLogIndex := i), owner[i := id], j, e)
  {
  }

  lemma LogWithNewIndex(c: Cluster, owner: map<nat, NodeId>, id: NodeId, x: NodeId)
    requires Numbered(c, owner) && x in c.nodes && LogOk(c, owner, x)
    ensures var i := c.nextLogIndex + 1; LogOk(c.(nextLogIndex := i), owner[i := id], x)
  {
    hide Settled;
    var n := c.nodes[x];
    forall j | j in n.committed
      ensures Settled(c.(nextLogIndex := c.nextLogIndex + 1), owner[c.nextLogIndex + 1 := id], j, n.committed[j])
    {
      SettledWithNewIndex(c, owner, id, j, n.committed[j]);
    }
    forall j | j in n.pending && j in owner && owner[j] != x
      ensures Settled(c.(nextLogIndex := c.nextLogIndex + 1), owner[c.nextLogIndex + 1 := id], j, n.pending[j])
    {
      SettledWithNewIndex(c, owner, id, j, n.pending[j]);
    }
  }

  lemma ClientOpKeeps(cfg: Config, c: Cluster, id: NodeId, op: WorkloadOp, owner: map<nat, NodeId>)
    requires NodesOk(cfg, c) && OwnedBy(c, owner) && Alive(c, id) && c.nodes[id].isLeader
    ensures var c' := StepCluster(cfg, c, ClientOp(id, op));
      NodesOk(cfg, c') && OwnedBy(c', owner[c.nextLogIndex + 1 := id])
  {
    hide NodeOk, OwnedBy;
    var i := c.nextLogIndex + 1;
    NewIndexOwned(cfg, c, owner, id);
    QuietStepKeeps(cfg, c.(nextLogIndex := i), id, StartProposal(cfg, c.nodes[id], i, op), owner[i := id]);
  }

  /** The catch-up requests of a reboot that names no node. */
  lemma StrayKeeps(cfg: Config, c: Cluster, id: NodeId, owner: map<nat, NodeId>)
    requires NodesOk(cfg, c) && OwnedBy(c, owner)
    ensures var c' := c.(sent := c.sent + Broadcast(cfg, id, CatchupRequest(id, 0)));
      NodesOk(cfg, c') && OwnedBy(c', owner)
  {
    hide NodeOk, Settled;
    var c' := c.(sent := c.sent + Broadcast(cfg, id, CatchupRequest(id, 0)));
    forall x | x in c'.nodes ensures LogOk(c', owner, x) {
      assert LogOk(c, owner, x);
      assert forall i, e :: Settled(c, owner, i, e) ==> Settled(c', owner, i, e) by { SameNodesSettled(c, c', owner); }
    }
    forall p | p in c'.sent ensures PacketOk(c', owner, p) {
      SameNodesSettled(c, c', owner);
      assert p in c.sent ==> PacketOk(c, owner, p);
    }
  }

  lemma SameNodesSettled(c: Cluster, c': Cluster, owner: map<nat, NodeId>)
    requires c'.nodes == c.nodes
    ensures forall i, e :: Settled(c, owner, i, e) ==> Settled(c', owner, i, e)
  {
  }

  lemma PowerKeeps(cfg: Config, c: Cluster, ev: Event, owner: map<nat, NodeId>)
    requires CodecOk(cfg.codec) && NodesOk(cfg, c) && OwnedBy(c, owner) && (ev.CrashEvent? || ev.RebootEvent?)
    ensures var c' := StepCluster(cfg, c, ev); NodesOk(cfg, c') && OwnedBy(c', owner)
  {
    hide NodeOk, OwnedBy, CodecOk, Grows, Admissible, RecoverNode;
    var id := ev.node;
    if id in c.nodes {
      PendingAdmissible(c, owner, id);
      match ev
      case CrashEvent(_, torn, tornLen) =>
        CrashOk(cfg, c.nodes[id], torn, tornLen);
        OwnStepKeeps(cfg, c, id, Reaction(CrashNode(c.nodes[id], torn, tornLen), {}), map[], owner);
      case RebootEvent(_) =>
        RebootOk(cfg, c.nodes[id]);
        RecoverExact(cfg, c.nodes[id]);
        OwnStepKeeps(cfg, c, id, RebootNode(cfg, c.nodes[id]), map[], owner);
    } else if ev.RebootEvent? {
      StrayKeeps(cfg, c, id, owner);
    }
  }

  /** Every step keeps ownership of indexes, with at most one index handed out. */
  lemma StepKeepsAgreement(cfg: Config, c: Cluster, ev: Event)
    requires CodecOk(cfg.codec) && Agreeing(cfg, c) && c.nextLogIndex < U64_LIMIT
    ensures Agreeing(cfg, StepCluster(cfg, c, ev))
  {
    hide NodeOk, OwnedBy, CodecOk, React;
    var owner :| OwnedBy(c, owner);
    match ev
    case ClientOp(id, op) =>
      if Alive(c, id) && c.nodes[id].isLeader { ClientOpKeeps(cfg, c, id, op, owner); }
    case Deliver(p, now) =>
      if p in c.sent && Alive(c, p.dst) { DeliverKeeps(cfg, c, p, now, owner); }
    case HeartbeatTick(id) =>
      if Alive(c, id) && c.nodes[id].role == Leader { QuietStepKeeps(cfg, c, id, Beat(cfg, c.nodes[id]), owner); }
    case ElectionTimeout(id) =>
      if Alive(c, id) { QuietStepKeeps(cfg, c, id, StartElection(cfg, c.nodes[id]), owner); }
    case CrashEvent(_, _, _) => PowerKeeps(cfg, c, ev, owner);
    case RebootEvent(_) => PowerKeeps(cfg, c, ev, owner);
  }

  lemma InitAgrees(cfg: Config)
    ensures Agreeing(cfg, Init(cfg))
  {
    var c := Init(cfg);
    forall id | id in c.nodes ensures NodeOk(cfg, c.nodes[id]) {
      assert LogPayloads(cfg, c.nodes[id].committed, 0) == [];
      assert DiskLog(cfg, c.nodes[id].committed, 0) == [];
    }
    assert OwnedBy(c, map[]);
  }

  /** Fewer than 2^64 operations were proposed, so no index has been used twice. */
  predicate Indexed(cfg: Config, evs: seq<Event>) {
    Run(cfg, evs).nextLogIndex < U64_LIMIT
  }

  lemma IndexesGrow(cfg: Config, evs: seq<Event>)
    requires evs != [] && Indexed(cfg, evs)
    ensures Indexed(cfg, evs[..|evs| - 1])
  {
    hide React, StartProposal, StartElection, Beat, CrashNode, RebootNode, Broadcast;
  }

  lemma {:induction false} RunsAgree(cfg: Config, evs: seq<Event>)
    requires CodecOk(cfg.codec) && Indexed(cfg, evs)
    ensures Agreeing(cfg, Run(cfg, evs))
    decreases |evs|
  {
    hide Agreeing, CodecOk;
    if evs == [] {
      InitAgrees(cfg);
    } else {
      IndexesGrow(cfg, evs);
      RunsAgree(cfg, evs[..|evs| - 1]);
      StepKeepsAgreement(cfg, Run(cfg, evs[..|evs| - 1]), evs[|evs| - 1]);
    }
  }

  /** Log agreement, for every run and every pair of nodes. */
  lemma LogAgreement(cfg: Config, evs: seq<Event>, a: NodeId, b: NodeId, i: nat)
    requires CodecOk(cfg.codec) && Indexed(cfg, evs)
    requires var c := Run(cfg, evs);
      a in c.nodes && b in c.nodes && i in c.nodes[a].committed && i in c.nodes[b].committed
    ensures var c := Run(cfg, evs); c.nodes[a].committed[i] == c.nodes[b].committed[i]
  {
    hide NodeOk, Run, CodecOk;
    RunsAgree(cfg, evs);
    var c := Run(cfg, evs);
    var owner :| OwnedBy(c, owner);
    assert LogOk(c, owner, a) && LogOk(c, owner, b);
  }

  // ----- durability over runs

  /** In every run each node's committed indexes are `1..commit_index`, its ledger is the fold of
      its log, and its disk holds exactly that log, followed by torn bytes only while it is down. */
  lemma NodesStayOk(cfg: Config, evs: seq<Event>, id: NodeId)
    requires CodecOk(cfg.codec) && Indexed(cfg, evs) && id in cfg.ids
    ensures id in Run(cfg, evs).nodes && NodeOk(cfg, Run(cfg, evs).nodes[id])
  {
    hide NodeOk, Run, CodecOk, OwnedBy;
    RunsAgree(cfg, evs);
  }

  /** A node's log never shrinks or changes from `a` to `b`. */
  ghost predicate LogExtends(a: Node, b: Node) {
    && a.commitIndex <= b.commitIndex
    && (forall i :: i in a.committed ==> i in b.committed && b.committed[i] == a.committed[i])
  }

  lemma StepExtendsLogs(cfg: Config, c: Cluster, ev: Event, id: NodeId)
    requires CodecOk(cfg.codec) && Agreeing(cfg, c) && c.nextLogIndex < U64_LIMIT && id in c.nodes
    ensures id in StepCluster(cfg, c, ev).nodes
    ensures LogExtends(c.nodes[id], StepCluster(cfg, c, ev).nodes[id])
  {
    hide NodeOk, CodecOk, React, RecoverNode, OwnedBy, SourceOf, Admissible;
    match ev
    case Deliver(p, now) =>
      if p in c.sent && Alive(c, p.dst) {
        var owner :| OwnedBy(c, owner);
        SourceAdmissible(cfg, c, owner, p, now);
        AdmissibleInRange(c, owner, p.dst, SourceOf(cfg, c.nodes[p.dst], p.msg, now));
        ReactOk(cfg, c.nodes[p.dst], p.src, p.msg, now);
      }
    case RebootEvent(x) => if x in c.nodes { RebootOk(cfg, c.nodes[x]); }
    case CrashEvent(x, torn, tornLen) => if x in c.nodes { CrashOk(cfg, c.nodes[x], torn, tornLen); }
    case ClientOp(_, _) =>
    case HeartbeatTick(_) =>
    case ElectionTimeout(_) =>
  }

  /** Nothing a node committed is ever lost or rewritten, whatever crashes and reboots follow. */
  lemma {:induction false} CommitsArePermanent(cfg: Config, evs: seq<Event>, more: seq<Event>, id: NodeId)
    requires CodecOk(cfg.codec) && Indexed(cfg, evs + more) && id in cfg.ids
    ensures id in Run(cfg, evs).nodes && id in Run(cfg, evs + more).nodes
    ensures LogExtends(Run(cfg, evs).nodes[id], Run(cfg, evs + more).nodes[id])
    decreases |more|
  {
    hide NodeOk, CodecOk, StepCluster, OwnedBy;
    if more == [] {
      assert evs + more == evs;
      RunsAgree(cfg, evs);
    } else {
      var most := more[..|more| - 1];
      assert (evs + more)[..|evs + more| - 1] == evs + most;
      IndexesGrow(cfg, evs + more);
      CommitsArePermanent(cfg, evs, most, id);
      RunsAgree(cfg, evs + most);
      StepExtendsLogs(cfg, Run(cfg, evs + most), more[|more| - 1], id);
    }
  }
}
