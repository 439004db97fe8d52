/**
 Whether a proposal can still be committed. A proposal is never sent again, so its fate hangs on
 the node that made it: the last lemmas say exactly when some continuation of a run commits it,
 and that an index which cannot be committed stops the log of every node for good.
 */
module ClusterLiveness {
  import opened Prelude
  import opened WalRecord
  import opened ClusterTypes
  import opened ClusterSpec
  import opened ClusterDurability
  import opened ClusterAgreement
  import opened ClusterElection
  import opened ClusterProgress

  // ----- where proposals come from

  /** Who proposed an operation, and in which term. */
  datatype Origin = Origin(proposer: NodeId, term: nat, op: WorkloadOp)

  /** The proposal made at each index. */
  function Origins(cfg: Config, evs: seq<Event>): map<nat, Origin> {
    if evs == [] then map[]
    else NewOrigin(Run(cfg, evs[..|evs| - 1]), Origins(cfg, evs[..|evs| - 1]), evs[|evs| - 1])
  }

  function NewOrigin(c: Cluster, origin: map<nat, Origin>, ev: Event): map<nat, Origin> {
    if ev.ClientOp? && Alive(c, ev.leader) && c.nodes[ev.leader].isLeader
    then origin[c.nextLogIndex + 1 := Origin(ev.leader, c.nodes[ev.leader].term, ev.op)]
    else origin
  }

  /** The node still holds its proposal for index `i`. */
  predicate Holds(n: Node, i: nat, op: WorkloadOp) {
    i in n.uncommitted && n.uncommitted[i].op == op && n.id in n.uncommitted[i].acks
  }

  /** A node that proposed in `term` is in that term or a later one, and in that term it does not
      campaign any more; while it leads the term it holds what it has not committed. */
  ghost predicate Proposed(n: Node, i: nat, o: Origin) {
    && n.id == o.proposer && n.term >= o.term && (n.term == o.term ==> n.role != Candidate)
    && (n.isLeader && n.term == o.term && i !in n.committed ==> Holds(n, i, o.op))
  }

  ghost predicate OriginOk(cfg: Config, c: Cluster, i: nat, o: Origin) {
    && 1 <= i <= c.nextLogIndex && o.proposer in c.nodes && Proposed(c.nodes[o.proposer], i, o)
    && (forall q :: q in cfg.ids && q != o.proposer ==> Packet(o.proposer, q, Propose(o.term, i, o.op)) in c.sent)
  }

  /** Proposals and acknowledgements travel between the proposer and another node. */
  ghost predicate TraceOk(c: Cluster, origin: map<nat, Origin>, p: Packet) {
    match p.msg
    case Propose(t, i, op) => i in origin && origin[i] == Origin(p.src, t, op) && p.dst != p.src && p.dst in c.nodes
    case Ack(f, t, i) =>
      && i in origin && origin[i].proposer == p.dst && origin[i].term == t
      && f == p.src && f != p.dst && f in c.nodes
    case _ => true
  }

  /** An acknowledgement that was counted was sent. */
  ghost predicate CountOk(c: Cluster, origin: map<nat, Origin>, n: Node) {
    forall i, f :: i in n.uncommitted && f in n.uncommitted[i].acks && f != n.id ==>
      i in origin && Packet(f, n.id, Ack(f, origin[i].term, i)) in c.sent
  }

  ghost predicate Traced(cfg: Config, c: Cluster, origin: map<nat, Origin>) {
    && c.nodes.Keys == cfg.ids
    && (forall i :: i in origin ==> OriginOk(cfg, c, i, origin[i]))
    && (forall p :: p in c.sent ==> TraceOk(c, origin, p))
    && (forall id :: id in c.nodes ==> c.nodes[id].id == id && CountOk(c, origin, c.nodes[id]))
  }

  // ----- one node, one message

  /** How the proposal a node holds for index `i` may change. */
  ghost predicate HeldChange(n: Node, m: Node, msg: Message, i: nat) {
    if i in m.uncommitted then
      || (i in n.uncommitted && m.uncommitted[i] == n.uncommitted[i])
      || (msg.Propose? && msg.index == i && m.uncommitted[i].acks == {})
      || (&& msg.Ack? && msg.index == i && i in n.uncommitted && n.isLeader && n.term == msg.term
          && m.uncommitted[i] == Proposal(n.uncommitted[i].op, n.uncommitted[i].acks + {msg.ackFrom}))
    else i in n.uncommitted ==> i in m.committed
  }

  lemma DrainHeld(cfg: Config, m: Node, i: nat)
    ensures var d := Drain(cfg, m);
      if i in d.uncommitted then i in m.uncommitted && d.uncommitted[i] == m.uncommitted[i]
      else i in m.uncommitted ==> i in d.committed
  {
    hide Drained;
    DrainIsExact(cfg, m);
    DrainedAt(m, Drain(cfg, m), i);
  }

  lemma ReactHeld(cfg: Config, n: Node, src: NodeId, msg: Message, now: u64, i: nat)
    ensures HeldChange(n, React(cfg, n, src, msg, now).node, msg, i)
  {
    hide Drain, Broadcast, OnAck;
    match msg
    case Ack(from, term, index) => AckHeld(cfg, n, from, term, index, now, i);
    case Commit(term, index, e) => DrainHeld(cfg, Observe(n, term).(pending := n.pending[index := e]), i);
    case CatchupResponse(_, entries) =>
      DrainHeld(cfg, n.(pending := n.pending + NotCommitted(n.committed, entries)), i);
    case _ =>
  }

  lemma AckHeld(cfg: Config, n: Node, from: NodeId, term: nat, index: nat, now: u64, i: nat)
    ensures HeldChange(n, OnAck(cfg, n, from, term, index, now).node, Ack(from, term, index), i)
  {
    hide Drain, Announce;
    if Commits(cfg, n, from, term, index) {
      var prop := n.uncommitted[index];
      var m := n.(uncommitted := n.uncommitted[index := Proposal(prop.op, prop.acks + {from})]);
      DrainHeld(cfg, m.(pending := m.pending[index := Entry(prop.op, now)]), i);
    }
  }

  /** Reacting never takes an index out of the log. */
  lemma ReactKeepsLog(cfg: Config, n: Node, src: NodeId, msg: Message, now: u64, i: nat)
    ensures var m := React(cfg, n, src, msg, now).node;
      && (i in n.committed ==> i in m.committed)
      && ((i in m.committed || i in m.pending) ==> i in n.committed || i in SourceOf(cfg, n, msg, now))
  {
    hide React, Drained, SourceOf;
    ReactDrains(cfg, n, src, msg, now);
    var d := React(cfg, n, src, msg, now).node;
    if exists m: Node :: DrainsFrom(n, m, d, SourceOf(cfg, n, msg, now)) {
      var m: Node :| DrainsFrom(n, m, d, SourceOf(cfg, n, msg, now));
      DrainedAt(m, d, i);
    } else {
      QuietSource(cfg, n, src, msg, now, i);
    }
  }

  lemma QuietSource(cfg: Config, n: Node, src: NodeId, msg: Message, now: u64, i: nat)
    ensures i in n.pending ==> i in SourceOf(cfg, n, msg, now)
  {
  }

  /** A node that leads after a message led the same term before it, or won it by that message. */
  lemma ReactLeads(cfg: Config, n: Node, src: NodeId, msg: Message, now: u64)
    ensures var m := React(cfg, n, src, msg, now).node;
      && n.term <= m.term && m.id == n.id && m.active == n.active
      && (m.term == n.term && n.role != Candidate ==> m.role != Candidate && (m.isLeader ==> n.isLeader))
      && (m.term > n.term ==> !m.isLeader && m.role == Follower)
      && (m.isLeader ==> m.role == Leader || (n.isLeader && m.role == n.role))
  {
    if msg.RequestVote? || msg.VoteGranted? {
      hide Broadcast;
    } else {
      hide React;
      LogMessagesPassive(cfg, n, src, msg, now);
    }
  }

  lemma ReactProposed(cfg: Config, n: Node, src: NodeId, msg: Message, now: u64, i: nat, o: Origin)
    requires Proposed(n, i, o) && !(msg.Propose? && msg.index == i)
    ensures Proposed(React(cfg, n, src, msg, now).node, i, o)
  {
    hide React;
    ReactLeads(cfg, n, src, msg, now);
    ReactHeld(cfg, n, src, msg, now, i);
    ReactKeepsLog(cfg, n, src, msg, now, i);
  }

  // ----- every step keeps the trace

  ghost predicate TracedNode(c: Cluster, origin: map<nat, Origin>, n: Node) {
    && CountOk(c, origin, n)
    && (forall i :: i in origin && origin[i].proposer == n.id ==> Proposed(n, i, origin[i]))
  }

  /** A node changes and sends packets that are in order. */
  lemma EffectTraced(cfg: Config, c: Cluster, id: NodeId, r: Reaction, origin: map<nat, Origin>)
    requires Traced(cfg, c, origin) && id in c.nodes && r.node.id == id
    requires TracedNode(Effect(c, id, r), origin, r.node)
    requires forall p :: p in r.out ==> TraceOk(c, origin, p)
    ensures Traced(cfg, Effect(c, id, r), origin)
  {
    hide Proposed;
    var c' := Effect(c, id, r);
    forall i | i in origin ensures OriginOk(cfg, c', i, origin[i]) {
      assert OriginOk(cfg, c, i, origin[i]);
    }
    forall p | p in c'.sent ensures TraceOk(c', origin, p) {
      assert TraceOk(c, origin, p);
    }
    forall x | x in c'.nodes ensures c'.nodes[x].id == x && CountOk(c', origin, c'.nodes[x]) {
      if x != id { assert CountOk(c, origin, c.nodes[x]); }
    }
  }

  lemma NewTraces(cfg: Config, n: Node, src: NodeId, msg: Message, now: u64)
    ensures forall p :: p in React(cfg, n, src, msg, now).out ==>
      && !p.msg.Propose?
      && (p.msg.Ack? ==> msg.Propose? && n.term <= msg.term && p == Packet(n.id, src, Ack(n.id, msg.term, msg.index)))
  {
    hide Drain;
  }

  lemma DeliverCounts(cfg: Config, c: Cluster, p: Packet, now: u64, origin: map<nat, Origin>)
    requires Traced(cfg, c, origin) && p in c.sent && p.dst in c.nodes
    ensures CountOk(c, origin, React(cfg, c.nodes[p.dst], p.src, p.msg, now).node)
  {
    hide React, OriginOk;
    var n := c.nodes[p.dst];
    var m := React(cfg, n, p.src, p.msg, now).node;
    assert TraceOk(c, origin, p) && CountOk(c, origin, n);
    ReactLeads(cfg, n, p.src, p.msg, now);
    forall i, f | i in m.uncommitted && f in m.uncommitted[i].acks && f != m.id
      ensures i in origin && Packet(f, m.id, Ack(f, origin[i].term, i)) in c.sent
    {
      ReactHeld(cfg, n, p.src, p.msg, now, i);
    }
  }

  lemma DeliverTraced(cfg: Config, c: Cluster, p: Packet, now: u64, origin: map<nat, Origin>)
    requires Traced(cfg, c, origin) && p in c.sent && Alive(c, p.dst)
    ensures Traced(cfg, StepCluster(cfg, c, Deliver(p, now)), origin)
  {
    hide React, CountOk, Proposed;
    var n := c.nodes[p.dst];
    var r := React(cfg, n, p.src, p.msg, now);
    var c' := Effect(c, p.dst, r);
    assert TraceOk(c, origin, p);
    ReactLeads(cfg, n, p.src, p.msg, now);
    DeliverCounts(cfg, c, p, now, origin);
    CountStays(c, c', origin, r.node);
    forall i | i in origin && origin[i].proposer == p.dst ensures Proposed(r.node, i, origin[i]) {
      assert OriginOk(cfg, c, i, origin[i]);
      ReactProposed(cfg, n, p.src, p.msg, now, i, origin[i]);
    }
    NewTraces(cfg, n, p.src, p.msg, now);
    EffectTraced(cfg, c, p.dst, r, origin);
  }

  lemma CountStays(c: Cluster, c': Cluster, origin: map<nat, Origin>, n: Node)
    requires CountOk(c, origin, n) && c.sent <= c'.sent
    ensures CountOk(c', origin, n)
  {
  }

  /** The next index goes to the node that proposes. */
  lemma ClientTraced(cfg: Config, c: Cluster, id: NodeId, op: WorkloadOp, origin: map<nat, Origin>)
    requires Traced(cfg, c, origin) && Alive(c, id) && c.nodes[id].isLeader && c.nodes[id].role != Candidate
    ensures Traced(cfg, StepCluster(cfg, c, ClientOp(id, op)), NewOrigin(c, origin, ClientOp(id, op)))
  {
    hide Traced, StepCluster, NewOrigin, OriginOk, TraceOk, CountOk;
    var c', origin' := StepCluster(cfg, c, ClientOp(id, op)), NewOrigin(c, origin, ClientOp(id, op));
    SameNodes(cfg, c, ClientOp(id, op));
    TracedNodes(cfg, c, origin);
    forall i | i in origin' ensures OriginOk(cfg, c', i, origin'[i]) {
      ClientOrigin(cfg, c, id, op, origin, i);
    }
    forall p | p in c'.sent ensures TraceOk(c', origin', p) {
      ClientPacket(cfg, c, id, op, origin, p);
    }
    forall x | x in c'.nodes ensures c'.nodes[x].id == x && CountOk(c', origin', c'.nodes[x]) {
      ClientCount(cfg, c, id, op, origin, x);
    }
    assert Traced(cfg, c', origin') by { TracedParts(cfg, c', origin'); }
  }

  lemma TracedNodes(cfg: Config, c: Cluster, origin: map<nat, Origin>)
    requires Traced(cfg, c, origin)
    ensures c.nodes.Keys == cfg.ids && forall id :: id in c.nodes ==> c.nodes[id].id == id
  {
  }

  lemma TracedParts(cfg: Config, c: Cluster, origin: map<nat, Origin>)
    requires c.nodes.Keys == cfg.ids && (forall i :: i in origin ==> OriginOk(cfg, c, i, origin[i]))
    requires forall p :: p in c.sent ==> TraceOk(c, origin, p)
    requires forall id :: id in c.nodes ==> c.nodes[id].id == id && CountOk(c, origin, c.nodes[id])
    ensures Traced(cfg, c, origin)
  {
  }

  lemma ClientOrigin(cfg: Config, c: Cluster, id: NodeId, op: WorkloadOp, origin: map<nat, Origin>, i: nat)
    requires Traced(cfg, c, origin) && Alive(c, id) && c.nodes[id].isLeader && c.nodes[id].role != Candidate
    requires i in NewOrigin(c, origin, ClientOp(id, op))
    ensures OriginOk(cfg, StepCluster(cfg, c, ClientOp(id, op)), i, NewOrigin(c, origin, ClientOp(id, op))[i])
  {
    hide TraceOk, CountOk;
    if i == c.nextLogIndex + 1 {
      assert forall q :: q in cfg.ids && q != id ==> q in cfg.ids - {id};
    } else {
      assert OriginOk(cfg, c, i, origin[i]);
    }
  }

  lemma ClientPacket(cfg: Config, c: Cluster, id: NodeId, op: WorkloadOp, origin: map<nat, Origin>, p: Packet)
    requires Traced(cfg, c, origin) && Alive(c, id) && c.nodes[id].isLeader
    requires p in StepCluster(cfg, c, ClientOp(id, op)).sent
    ensures TraceOk(StepCluster(cfg, c, ClientOp(id, op)), NewOrigin(c, origin, ClientOp(id, op)), p)
  {
    hide OriginOk, CountOk;
    assert p in c.sent ==> TraceOk(c, origin, p);
    if p in c.sent && (p.msg.Propose? || p.msg.Ack?) { SmallIndex(cfg, c, origin, p); }
  }

  lemma ClientCount(cfg: Config, c: Cluster, id: NodeId, op: WorkloadOp, origin: map<nat, Origin>, x: NodeId)
    requires Traced(cfg, c, origin) && Alive(c, id) && c.nodes[id].isLeader && x in c.nodes
    ensures var c' := StepCluster(cfg, c, ClientOp(id, op));
      && x in c'.nodes && c'.nodes[x].id == x
      && CountOk(c', NewOrigin(c, origin, ClientOp(id, op)), c'.nodes[x])
  {
    hide OriginOk, TraceOk;
    assert CountOk(c, origin, c.nodes[x]);
    NextIsFresh(cfg, c, origin);
  }

  lemma NextIsFresh(cfg: Config, c: Cluster, origin: map<nat, Origin>)
    requires Traced(cfg, c, origin)
    ensures c.nextLogIndex + 1 !in origin
  {
    hide Proposed;
  }

  lemma SmallIndex(cfg: Config, c: Cluster, origin: map<nat, Origin>, p: Packet)
    requires Traced(cfg, c, origin) && p in c.sent && (p.msg.Propose? || p.msg.Ack?)
    ensures p.msg.index <= c.nextLogIndex
  {
    assert TraceOk(c, origin, p);
    assert OriginOk(cfg, c, p.msg.index, origin[p.msg.index]);
  }

  lemma {:induction false} ReapplyHeld(cfg: Config, n: Node, b: Bytes, valid: nat)
    ensures Reapply(cfg, n, b, valid).0.uncommitted == n.uncommitted
    decreases |b|
  {
    hide Next, ApplyWorkload;
    var step := Next(b, DEFAULT_MAX_PAYLOAD_LEN, true);
    if step.Record? && cfg.codec.decode(step.payload.value).Some? {
      var w := cfg.codec.decode(step.payload.value).value;
      ReapplyHeld(cfg, ApplyInMemory(n, w.index, w.entry), b[FrameLen(step.len)..], valid + FrameLen(step.len));
    }
  }

  lemma RebootHeld(cfg: Config, n: Node)
    ensures RebootNode(cfg, n).node.uncommitted == map[]
  {
    hide Reapply;
    ReapplyHeld(cfg, Wiped(cfg, n), n.disk.flushed, 0);
  }

  /** A step of a node by itself that moves to a later term, or gives up leading. */
  lemma ResignTraced(cfg: Config, c: Cluster, id: NodeId, r: Reaction, origin: map<nat, Origin>)
    requires Traced(cfg, c, origin) && id in c.nodes && r.node.id == id && !r.node.isLeader
    requires r.node.term > c.nodes[id].term || (r.node.term == c.nodes[id].term && r.node.role == Follower)
    requires r.node.uncommitted == map[] || r.node.uncommitted == c.nodes[id].uncommitted
    requires forall p :: p in r.out ==> !p.msg.Propose? && !p.msg.Ack?
    ensures Traced(cfg, Effect(c, id, r), origin)
  {
    var c' := Effect(c, id, r);
    forall i | i in origin && origin[i].proposer == id ensures Proposed(r.node, i, origin[i]) {
      assert OriginOk(cfg, c, i, origin[i]);
    }
    assert CountOk(c, origin, c.nodes[id]);
    EffectTraced(cfg, c, id, r, origin);
  }

  lemma BeatTraced(cfg: Config, c: Cluster, id: NodeId, origin: map<nat, Origin>)
    requires Traced(cfg, c, origin) && id in c.nodes
    ensures Traced(cfg, Effect(c, id, Beat(cfg, c.nodes[id])), origin)
  {
    hide Proposed;
    forall i | i in origin && origin[i].proposer == id ensures Proposed(c.nodes[id], i, origin[i]) {
      assert OriginOk(cfg, c, i, origin[i]);
    }
    assert CountOk(c, origin, c.nodes[id]);
    EffectTraced(cfg, c, id, Beat(cfg, c.nodes[id]), origin);
  }

  /** The catch-up requests of a reboot that names no node. */
  lemma StrayTraced(cfg: Config, c: Cluster, id: NodeId, origin: map<nat, Origin>)
    requires Traced(cfg, c, origin)
    ensures Traced(cfg, c.(sent := c.sent + Broadcast(cfg, id, CatchupRequest(id, 0))), origin)
  {
    hide Proposed;
    var c' := c.(sent := c.sent + Broadcast(cfg, id, CatchupRequest(id, 0)));
    forall i | i in origin ensures OriginOk(cfg, c', i, origin[i]) {
      assert OriginOk(cfg, c, i, origin[i]);
    }
    forall p | p in c'.sent ensures TraceOk(c', origin, p) {
      assert p in c.sent ==> TraceOk(c, origin, p);
    }
    forall x | x in c'.nodes ensures CountOk(c', origin, c'.nodes[x]) {
      CountStays(c, c', origin, c.nodes[x]);
    }
  }

  /** A leader is not a candidate. */
  ghost predicate LeadersSit(c: Cluster) {
    forall id :: id in c.nodes && c.nodes[id].isLeader ==> c.nodes[id].role == Leader
  }

  lemma StepTraced(cfg: Config, c: Cluster, ev: Event, origin: map<nat, Origin>)
    requires Traced(cfg, c, origin) && LeadersSit(c)
    ensures Traced(cfg, StepCluster(cfg, c, ev), NewOrigin(c, origin, ev))
  {
    hide Traced, React, RebootNode, StartElection, Effect, Broadcast, CrashNode, Beat;
    match ev
    case ClientOp(id, op) => if Alive(c, id) && c.nodes[id].isLeader { ClientTraced(cfg, c, id, op, origin); }
    case Deliver(p, now) => if p in c.sent && Alive(c, p.dst) { DeliverTraced(cfg, c, p, now, origin); }
    case HeartbeatTick(id) =>
      if Alive(c, id) && c.nodes[id].role == Leader { BeatTraced(cfg, c, id, origin); }
    case _ => PowerTraced(cfg, c, ev, origin);
  }

  lemma PowerTraced(cfg: Config, c: Cluster, ev: Event, origin: map<nat, Origin>)
    requires Traced(cfg, c, origin) && (ev.ElectionTimeout? || ev.CrashEvent? || ev.RebootEvent?)
    ensures Traced(cfg, StepCluster(cfg, c, ev), origin)
  {
    hide DiskCrash, RecoverNode, Effect, OriginOk, TraceOk, CountOk;
    match ev
    case ElectionTimeout(id) => if Alive(c, id) { ResignTraced(cfg, c, id, StartElection(cfg, c.nodes[id]), origin); }
    case CrashEvent(id, torn, tornLen) =>
      if id in c.nodes { ResignTraced(cfg, c, id, Reaction(CrashNode(c.nodes[id], torn, tornLen), {}), origin); }
    case RebootEvent(id) =>
      if id in c.nodes {
        RebootForgets(cfg, c.nodes[id]);
        RebootHeld(cfg, c.nodes[id]);
        ResignTraced(cfg, c, id, RebootNode(cfg, c.nodes[id]), origin);
      } else {
        StrayTraced(cfg, c, id, origin);
      }
  }

  lemma StepSits(cfg: Config, c: Cluster, ev: Event)
    requires LeadersSit(c)
    ensures LeadersSit(StepCluster(cfg, c, ev))
  {
    hide React, RebootNode, Broadcast, DiskCrash;
    match ev
    case Deliver(p, now) =>
      if p in c.sent && Alive(c, p.dst) { ReactLeads(cfg, c.nodes[p.dst], p.src, p.msg, now); }
    case RebootEvent(id) => if id in c.nodes { RebootForgets(cfg, c.nodes[id]); }
    case _ =>
  }

  lemma {:induction false} RunsTraced(cfg: Config, evs: seq<Event>)
    ensures Traced(cfg, Run(cfg, evs), Origins(cfg, evs)) && LeadersSit(Run(cfg, evs))
    decreases |evs|
  {
    hide StepCluster;
    if evs != [] {
      hide Traced, NewOrigin;
      var before := evs[..|evs| - 1];
      RunsTraced(cfg, before);
      StepTraced(cfg, Run(cfg, before), evs[|evs| - 1], Origins(cfg, before));
      StepSits(cfg, Run(cfg, before), evs[|evs| - 1]);
    }
  }

  // ----- an index that cannot be committed any more

  /** Nodes that acknowledged the proposal, or still would if it reached them. */
  function Willing(c: Cluster, a: NodeId, term: nat, i: nat): set<NodeId> {
    set f | f in c.nodes && (f == a || c.nodes[f].term <= term || Packet(f, a, Ack(f, term, i)) in c.sent)
  }

  /** The proposer is up and still leads the term it proposed in. */
  predicate StillLeads(c: Cluster, a: NodeId, term: nat) {
    Alive(c, a) && c.nodes[a].isLeader && c.nodes[a].term == term
  }

  /** The condition under which a proposal made by `a` in `term` at index `i` can be committed. */
  predicate CanCommit(cfg: Config, c: Cluster, a: NodeId, term: nat, i: nat) {
    StillLeads(c, a, term) && |Willing(c, a, term, i)| >= Quorum(cfg)
  }

  /** The message hands over an entry for index `i`. */
  predicate Carries(m: Message, i: nat) {
    (m.Commit? && m.index == i) || (m.CatchupResponse? && i in m.entries)
  }

  /** No node committed index `i` or is about to, and no message brings it. */
  ghost predicate Nowhere(c: Cluster, i: nat) {
    && (forall id :: id in c.nodes ==> i !in c.nodes[id].committed && i !in c.nodes[id].pending)
    && (forall p :: p in c.sent ==> !Carries(p.msg, i))
  }

  ghost predicate Lost(cfg: Config, c: Cluster, a: NodeId, term: nat, i: nat) {
    Nowhere(c, i) && !CanCommit(cfg, c, a, term, i)
  }

  lemma NothingNewCarries(cfg: Config, n: Node, src: NodeId, msg: Message, now: u64, i: nat)
    requires i !in n.committed && i !in React(cfg, n, src, msg, now).node.committed
    ensures forall p :: p in React(cfg, n, src, msg, now).out ==> !Carries(p.msg, i)
  {
    hide Drain;
  }

  /** Delivering a message brings the index only when it completes a quorum for its proposer. */
  lemma DeliverNowhere(cfg: Config, c: Cluster, p: Packet, now: u64, origin: map<nat, Origin>, i: nat)
    requires Traced(cfg, c, origin) && i in origin && Nowhere(c, i) && p in c.sent && Alive(c, p.dst)
    requires !CanCommit(cfg, c, origin[i].proposer, origin[i].term, i)
    ensures Nowhere(StepCluster(cfg, c, Deliver(p, now)), i)
  {
    hide React, Traced, Willing;
    var n := c.nodes[p.dst];
    assert i !in SourceOf(cfg, n, p.msg, now) by {
      if p.msg.Ack? && p.msg.index == i && Commits(cfg, n, p.msg.ackFrom, p.msg.term, i) {
        QuorumIsWilling(cfg, c, p, origin, i);
        assert false;
      }
    }
    hide SourceOf;
    ReactKeepsLog(cfg, n, p.src, p.msg, now, i);
    NothingNewCarries(cfg, n, p.src, p.msg, now, i);
  }

  lemma QuorumIsWilling(cfg: Config, c: Cluster, p: Packet, origin: map<nat, Origin>, i: nat)
    requires Traced(cfg, c, origin) && i in origin && p in c.sent && Alive(c, p.dst)
    requires p.msg.Ack? && p.msg.index == i && Commits(cfg, c.nodes[p.dst], p.msg.ackFrom, p.msg.term, i)
    ensures CanCommit(cfg, c, origin[i].proposer, origin[i].term, i)
  {
    var n := c.nodes[p.dst];
    assert TraceOk(c, origin, p) && CountOk(c, origin, n);
    var acks, willing := n.uncommitted[i].acks + {p.msg.ackFrom}, Willing(c, p.dst, p.msg.term, i);
    forall f | f in acks ensures f in willing {
      if f != n.id && f != p.msg.ackFrom {
        assert TraceOk(c, origin, Packet(f, n.id, Ack(f, origin[i].term, i)));
      }
    }
    SubsetSize(acks, willing);
  }

  /** Who is not willing stays so, and who stopped leading a term never leads it again. */
  lemma StepKeepsHopeless(cfg: Config, c: Cluster, ev: Event, origin: map<nat, Origin>, i: nat)
    requires Traced(cfg, c, origin) && i in origin
    requires !CanCommit(cfg, c, origin[i].proposer, origin[i].term, i)
    ensures !CanCommit(cfg, StepCluster(cfg, c, ev), origin[i].proposer, origin[i].term, i)
  {
    hide Traced, StepCluster;
    var o, c' := origin[i], StepCluster(cfg, c, ev);
    if StillLeads(c, o.proposer, o.term) {
      assert forall f :: f in Willing(c', o.proposer, o.term, i) ==> f in Willing(c, o.proposer, o.term, i) by {
        forall f | f in Willing(c', o.proposer, o.term, i) ensures f in Willing(c, o.proposer, o.term, i) {
          StaysUnwilling(cfg, c, ev, origin, i, f);
        }
      }
      SubsetSize(Willing(c', o.proposer, o.term, i), Willing(c, o.proposer, o.term, i));
    } else {
      NeverLeadsAgain(cfg, c, ev, origin, i);
    }
  }

  lemma StaysUnwilling(cfg: Config, c: Cluster, ev: Event, origin: map<nat, Origin>, i: nat, f: NodeId)
    requires Traced(cfg, c, origin) && i in origin
    requires f in Willing(StepCluster(cfg, c, ev), origin[i].proposer, origin[i].term, i)
    ensures f in Willing(c, origin[i].proposer, origin[i].term, i)
  {
    hide React, RecoverNode, DiskCrash, Traced;
    var o, c' := origin[i], StepCluster(cfg, c, ev);
    assert c'.nodes.Keys == c.nodes.Keys by { SameNodes(cfg, c, ev); }
    TermsGrow(cfg, c, ev, f);
    if ev.Deliver? && ev.packet in c.sent && Alive(c, ev.packet.dst) {
      NewTraces(cfg, c.nodes[ev.packet.dst], ev.packet.src, ev.packet.msg, ev.now);
      assert c.nodes[ev.packet.dst].id == ev.packet.dst by { TracedIds(cfg, c, origin, ev.packet.dst); }
    }
  }

  lemma TracedIds(cfg: Config, c: Cluster, origin: map<nat, Origin>, id: NodeId)
    requires Traced(cfg, c, origin) && id in c.nodes
    ensures c.nodes[id].id == id
  {
  }

  lemma SameNodes(cfg: Config, c: Cluster, ev: Event)
    ensures StepCluster(cfg, c, ev).nodes.Keys == c.nodes.Keys
  {
    hide React, RebootNode, CrashNode, StartElection, StartProposal, Beat, Broadcast;
  }

  lemma NeverLeadsAgain(cfg: Config, c: Cluster, ev: Event, origin: map<nat, Origin>, i: nat)
    requires Traced(cfg, c, origin) && i in origin && !StillLeads(c, origin[i].proposer, origin[i].term)
    ensures !StillLeads(StepCluster(cfg, c, ev), origin[i].proposer, origin[i].term)
  {
    hide React, RebootNode, Broadcast, DiskCrash, TraceOk, CountOk;
    var o := origin[i];
    assert OriginOk(cfg, c, i, o);
    match ev
    case Deliver(p, now) =>
      if p in c.sent && Alive(c, p.dst) { ReactLeads(cfg, c.nodes[p.dst], p.src, p.msg, now); }
    case RebootEvent(id) => if id in c.nodes { RebootForgets(cfg, c.nodes[id]); }
    case _ =>
  }

  /** Only a delivery can bring an index anywhere. */
  lemma StepNowhere(cfg: Config, c: Cluster, ev: Event, i: nat)
    requires CodecOk(cfg.codec) && NodesOk(cfg, c) && Nowhere(c, i) && !ev.Deliver?
    ensures Nowhere(StepCluster(cfg, c, ev), i)
  {
    hide RecoverNode, NodeOk, DiskCrash, CodecOk, Effect;
    match ev
    case ClientOp(id, op) =>
      if Alive(c, id) && c.nodes[id].isLeader {
        EffectNowhere(c.(nextLogIndex := c.nextLogIndex + 1), id,
                      StartProposal(cfg, c.nodes[id], c.nextLogIndex + 1, op), i);
      }
    case HeartbeatTick(id) =>
      if Alive(c, id) && c.nodes[id].role == Leader { EffectNowhere(c, id, Beat(cfg, c.nodes[id]), i); }
    case ElectionTimeout(id) => if Alive(c, id) { EffectNowhere(c, id, StartElection(cfg, c.nodes[id]), i); }
    case _ => PowerNowhere(cfg, c, ev, i);
  }

  lemma PowerNowhere(cfg: Config, c: Cluster, ev: Event, i: nat)
    requires CodecOk(cfg.codec) && NodesOk(cfg, c) && Nowhere(c, i) && (ev.CrashEvent? || ev.RebootEvent?)
    ensures Nowhere(StepCluster(cfg, c, ev), i)
  {
    hide RebootNode, NodeOk, DiskCrash, CodecOk, Effect, Nowhere, Broadcast;
    match ev
    case CrashEvent(id, torn, tornLen) =>
      if id in c.nodes { EffectNowhere(c, id, Reaction(CrashNode(c.nodes[id], torn, tornLen), {}), i); }
    case RebootEvent(id) =>
      if id in c.nodes {
        RebootNowhere(cfg, c.nodes[id], i);
        EffectNowhere(c, id, RebootNode(cfg, c.nodes[id]), i);
      } else {
        StrayNowhere(cfg, c, id, i);
      }
  }

  lemma RebootNowhere(cfg: Config, n: Node, i: nat)
    requires CodecOk(cfg.codec) && NodeOk(cfg, n)
    ensures var r := RebootNode(cfg, n);
      && r.node.committed == n.committed && r.node.pending == map[]
      && forall p :: p in r.out ==> !Carries(p.msg, i)
  {
    hide RecoverNode, NodeOk, CodecOk;
    RecoverExact(cfg, n);
  }

  /** A node changes without the index, and sends nothing that brings it. */
  lemma EffectNowhere(c: Cluster, id: NodeId, r: Reaction, i: nat)
    requires Nowhere(c, i) && id in c.nodes && (r.node.pending == c.nodes[id].pending || r.node.pending == map[])
    requires r.node.committed == c.nodes[id].committed && forall p :: p in r.out ==> !Carries(p.msg, i)
    ensures Nowhere(Effect(c, id, r), i)
  {
  }

  lemma StrayNowhere(cfg: Config, c: Cluster, id: NodeId, i: nat)
    requires Nowhere(c, i)
    ensures Nowhere(c.(sent := c.sent + Broadcast(cfg, id, CatchupRequest(id, 0))), i)
  {
  }

  lemma StepKeepsLost(cfg: Config, c: Cluster, ev: Event, origin: map<nat, Origin>, i: nat)
    requires CodecOk(cfg.codec) && NodesOk(cfg, c) && Traced(cfg, c, origin) && i in origin
    requires Lost(cfg, c, origin[i].proposer, origin[i].term, i)
    ensures Lost(cfg, StepCluster(cfg, c, ev), origin[i].proposer, origin[i].term, i)
  {
    hide CodecOk, NodesOk, Traced, CanCommit, Nowhere;
    StepKeepsHopeless(cfg, c, ev, origin, i);
    if ev.Deliver? {
      if ev.packet in c.sent && Alive(c, ev.packet.dst) { DeliverNowhere(cfg, c, ev.packet, ev.now, origin, i); }
    } else {
      StepNowhere(cfg, c, ev, i);
    }
  }

  /** What a proposal found among the packets of a run says of the run's origins. */
  lemma PacketOrigin(cfg: Config, evs: seq<Event>, p: Packet)
    requires p in Run(cfg, evs).sent && p.msg.Propose?
    ensures var origin := Origins(cfg, evs);
      && p.msg.index in origin && origin[p.msg.index] == Origin(p.src, p.msg.term, p.msg.op)
      && OriginOk(cfg, Run(cfg, evs), p.msg.index, origin[p.msg.index])
  {
    hide Run, Origins, OriginOk;
    RunsTraced(cfg, evs);
    assert TraceOk(Run(cfg, evs), Origins(cfg, evs), p);
  }

  lemma SentStays(cfg: Config, c: Cluster, ev: Event)
    ensures c.sent <= StepCluster(cfg, c, ev).sent
  {
    hide React, RebootNode, CrashNode, StartElection, StartProposal, Beat, Broadcast;
  }

  /** An index its proposer has not committed, and does not hold a quorum for, is nowhere. */
  lemma NotCommittedYet(cfg: Config, evs: seq<Event>, p: Packet)
    requires CodecOk(cfg.codec) && Indexed(cfg, evs) && p in Run(cfg, evs).sent && p.msg.Propose?
    requires p.src in Run(cfg, evs).nodes && p.msg.index !in Run(cfg, evs).nodes[p.src].committed
    requires p.msg.index !in Run(cfg, evs).nodes[p.src].pending
    ensures Nowhere(Run(cfg, evs), p.msg.index)
  {
    hide Run, CodecOk, NodeOk;
    RunsAgree(cfg, evs);
    var c, i := Run(cfg, evs), p.msg.index;
    var owner :| OwnedBy(c, owner);
    assert PacketOk(c, owner, p);
    forall id | id in c.nodes ensures i !in c.nodes[id].committed && i !in c.nodes[id].pending {
      assert LogOk(c, owner, id);
    }
    forall q | q in c.sent ensures !Carries(q.msg, i) {
      assert PacketOk(c, owner, q);
    }
  }

  lemma {:induction false} LostStays(cfg: Config, evs: seq<Event>, more: seq<Event>, p: Packet)
    requires CodecOk(cfg.codec) && Indexed(cfg, evs + more) && p in Run(cfg, evs).sent && p.msg.Propose?
    requires Lost(cfg, Run(cfg, evs), p.src, p.msg.term, p.msg.index)
    ensures p in Run(cfg, evs + more).sent && Lost(cfg, Run(cfg, evs + more), p.src, p.msg.term, p.msg.index)
    decreases |more|
  {
    hide CodecOk, Lost, StepCluster, Origins, OwnedBy, NodesOk, Traced;
    if more == [] {
      assert evs + more == evs;
    } else {
      var most := more[..|more| - 1];
      assert (evs + more)[..|evs + more| - 1] == evs + most;
      IndexesGrow(cfg, evs + more);
      LostStays(cfg, evs, most, p);
      RunsAgree(cfg, evs + most);
      RunsTraced(cfg, evs + most);
      PacketOrigin(cfg, evs + most, p);
      StepKeepsLost(cfg, Run(cfg, evs + most), more[|more| - 1], Origins(cfg, evs + most), p.msg.index);
      SentStays(cfg, Run(cfg, evs + most), more[|more| - 1]);
    }
  }

  /** A proposal whose proposer neither committed it nor holds a quorum for it, and which cannot be
      committed any more, stops every log below its index in every continuation. */
  lemma LostIndexStopsLogs(cfg: Config, evs: seq<Event>, more: seq<Event>, p: Packet, id: NodeId)
    requires CodecOk(cfg.codec) && Indexed(cfg, evs + more) && p in Run(cfg, evs).sent && p.msg.Propose?
    requires p.src in Run(cfg, evs).nodes && p.msg.index !in Run(cfg, evs).nodes[p.src].committed
    requires p.msg.index !in Run(cfg, evs).nodes[p.src].pending
    requires !CanCommit(cfg, Run(cfg, evs), p.src, p.msg.term, p.msg.index) && id in cfg.ids
    ensures id in Run(cfg, evs + more).nodes && Run(cfg, evs + more).nodes[id].commitIndex < p.msg.index
  {
    hide CodecOk, Run, CanCommit, OriginOk, OnDisk, Fold;
    IndexedPrefix(cfg, evs, more);
    NotCommittedYet(cfg, evs, p);
    LostStays(cfg, evs, more, p);
    NodesStayOk(cfg, evs + more, id);
    PacketOrigin(cfg, evs, p);
    assert p.msg.index >= 1 by { SmallestIndex(cfg, evs, p); }
  }

  lemma SmallestIndex(cfg: Config, evs: seq<Event>, p: Packet)
    requires p in Run(cfg, evs).sent && p.msg.Propose?
    ensures p.msg.index >= 1
  {
    hide Run, Origins;
    PacketOrigin(cfg, evs, p);
  }

  lemma {:induction false} IndexedPrefix(cfg: Config, evs: seq<Event>, more: seq<Event>)
    requires Indexed(cfg, evs + more)
    ensures Indexed(cfg, evs)
    decreases |more|
  {
    if more == [] {
      assert evs + more == evs;
    } else {
      hide Run;
      IndexesGrow(cfg, evs + more);
      assert (evs + more)[..|evs + more| - 1] == evs + more[..|more| - 1];
      IndexedPrefix(cfg, evs, more[..|more| - 1]);
    }
  }

  // ----- an index that can be committed

  lemma UpSteps(cfg: Config, c: Cluster, f: NodeId)
    requires f in c.nodes && c.nodes[f].id == f
    ensures var c' := StepCluster(cfg, c, RebootEvent(f));
      && Touches(c, c', f) && c'.nodes[f].active && c'.nodes[f].term == c.nodes[f].term && c'.nodes[f].id == f
  {
    hide RebootNode;
    RebootForgets(cfg, c.nodes[f]);
  }

  lemma AckSteps(cfg: Config, c: Cluster, a: NodeId, f: NodeId, term: nat, i: nat, op: WorkloadOp)
    requires Alive(c, f) && c.nodes[f].id == f && c.nodes[f].term <= term
    requires Packet(a, f, Propose(term, i, op)) in c.sent
    ensures var c' := StepCluster(cfg, c, Deliver(Packet(a, f, Propose(term, i, op)), 0));
      && Touches(c, c', f) && c'.nodes[f].term <= term && Packet(f, a, Ack(f, term, i)) in c'.sent
  {
  }

  lemma WillingStays(c: Cluster, c': Cluster, a: NodeId, f: NodeId, term: nat, i: nat)
    requires Touches(c, c', f) && c'.nodes[f].term <= term
    ensures Willing(c, a, term, i) <= Willing(c', a, term, i)
  {
  }

  /** The events that make a willing node acknowledge: nothing if it did, else bring it up and
      deliver the proposal. */
  lemma MakeAck(cfg: Config, evs: seq<Event>, p: Packet, f: NodeId) returns (more: seq<Event>)
    requires p in Run(cfg, evs).sent && p.msg.Propose? && f != p.src
    requires f in Willing(Run(cfg, evs), p.src, p.msg.term, p.msg.index)
    ensures NoClient(more)
    ensures var c, c' := Run(cfg, evs), Run(cfg, evs + more);
      && p.src in c.nodes && p.src in c'.nodes && c'.nodes[p.src] == c.nodes[p.src] && c.sent <= c'.sent
      && Packet(f, p.src, Ack(f, p.msg.term, p.msg.index)) in c'.sent
      && Willing(c, p.src, p.msg.term, p.msg.index) <= Willing(c', p.src, p.msg.term, p.msg.index)
  {
    hide Run, StepCluster, Origins, Proposed;
    var c := Run(cfg, evs);
    var a, term, i := p.src, p.msg.term, p.msg.index;
    PacketOrigin(cfg, evs, p);
    RunsTraced(cfg, evs);
    if Packet(f, a, Ack(f, term, i)) in c.sent {
      more := [];
      assert evs + more == evs;
    } else {
      assert c.nodes[f].id == f && Packet(a, f, Propose(term, i, p.msg.op)) in c.sent;
      hide Traced, OriginOk, Willing;
      more := UpAndAck(cfg, evs, a, f, term, i, p.msg.op);
      WillingStays(c, Run(cfg, evs + more), a, f, term, i);
    }
  }

  lemma UpAndAck(cfg: Config, evs: seq<Event>, a: NodeId, f: NodeId, term: nat, i: nat, op: WorkloadOp)
      returns (more: seq<Event>)
    requires f in Run(cfg, evs).nodes && Run(cfg, evs).nodes[f].id == f && Run(cfg, evs).nodes[f].term <= term
    requires Packet(a, f, Propose(term, i, op)) in Run(cfg, evs).sent
    ensures NoClient(more)
    ensures var c, c' := Run(cfg, evs), Run(cfg, evs + more);
      && Touches(c, c', f) && c'.nodes[f].term <= term && Packet(f, a, Ack(f, term, i)) in c'.sent
  {
    hide Run, StepCluster;
    var propose := Deliver(Packet(a, f, Propose(term, i, op)), 0);
    UpSteps(cfg, Run(cfg, evs), f);
    var up := if Run(cfg, evs).nodes[f].active then [] else [RebootEvent(f)];
    more := up + [propose];
    assert evs + more == evs + up + [propose] && evs + [] == evs;
    RunOneMore(cfg, evs, RebootEvent(f));
    RunOneMore(cfg, evs + up, propose);
    AckSteps(cfg, Run(cfg, evs + up), a, f, term, i, op);
  }

  /** An acknowledgement short of a quorum is only counted. */
  lemma AckCounts(cfg: Config, c: Cluster, a: NodeId, f: NodeId, i: nat)
    requires a in c.nodes && StillLeads(c, a, c.nodes[a].term) && c.nodes[a].id == a && i in c.nodes[a].uncommitted
    requires |c.nodes[a].uncommitted[i].acks + {f}| < Quorum(cfg)
    requires Packet(f, a, Ack(f, c.nodes[a].term, i)) in c.sent
    ensures var n, prop := c.nodes[a], c.nodes[a].uncommitted[i];
      var c' := StepCluster(cfg, c, Deliver(Packet(f, a, Ack(f, n.term, i)), 0));
      c' == c.(nodes := c.nodes[a := n.(uncommitted := n.uncommitted[i := Proposal(prop.op, prop.acks + {f})])])
  {
  }

  /** Some willing node can be counted next: one that was not counted, or any peer once the quorum is there. */
  lemma NextVoice(cfg: Config, evs: seq<Event>, p: Packet) returns (f: NodeId)
    requires p in Run(cfg, evs).sent && p.msg.Propose?
    requires CanCommit(cfg, Run(cfg, evs), p.src, p.msg.term, p.msg.index)
    requires p.msg.index in Run(cfg, evs).nodes[p.src].uncommitted
    requires p.src in Run(cfg, evs).nodes[p.src].uncommitted[p.msg.index].acks
    ensures f != p.src && f in Willing(Run(cfg, evs), p.src, p.msg.term, p.msg.index)
    ensures var acks := Run(cfg, evs).nodes[p.src].uncommitted[p.msg.index].acks;
      f !in acks || |acks + {f}| >= Quorum(cfg)
  {
    hide Run, Origins, Proposed;
    var c, i := Run(cfg, evs), p.msg.index;
    var acks, willing := c.nodes[p.src].uncommitted[i].acks, Willing(c, p.src, p.msg.term, i);
    RunsTraced(cfg, evs);
    PacketOrigin(cfg, evs, p);
    assert TraceOk(c, Origins(cfg, evs), p) && CountOk(c, Origins(cfg, evs), c.nodes[p.src]);
    if |acks| >= Quorum(cfg) {
      TwoVotes(cfg.ids, p.src, p.dst);
      f := AnotherOne(acks, p.src);
      assert acks + {f} == acks;
    } else {
      if willing <= acks { SubsetSize(willing, acks); }
      f :| f in willing && f !in acks;
    }
  }

  lemma AnotherOne(s: set<NodeId>, a: NodeId) returns (f: NodeId)
    requires |s| >= 2
    ensures f in s && f != a
  {
    if s <= {a} { SubsetSize(s, {a}); }
    f :| f in s && f != a;
  }

  /** When the condition holds for the next index of its proposer, these events commit it. */
  lemma {:induction false} Gather(cfg: Config, evs: seq<Event>, p: Packet, short: nat) returns (more: seq<Event>)
    requires p in Run(cfg, evs).sent && p.msg.Propose?
    requires CanCommit(cfg, Run(cfg, evs), p.src, p.msg.term, p.msg.index)
    requires Run(cfg, evs).nodes[p.src].commitIndex + 1 == p.msg.index
    requires p.msg.index in Run(cfg, evs).nodes[p.src].uncommitted
    requires |Run(cfg, evs).nodes[p.src].uncommitted[p.msg.index].acks| + short >= Quorum(cfg)
    ensures NoClient(more) && p.src in Run(cfg, evs + more).nodes
    ensures p.msg.index in Run(cfg, evs + more).nodes[p.src].committed
    decreases short
  {
    hide Run, StepCluster, Origins, OriginOk;
    var a, i := p.src, p.msg.index;
    var n := Run(cfg, evs).nodes[a];
    assert Holds(n, i, p.msg.op) && n.id == a by { StillHolds(cfg, evs, p); }
    var f := NextVoice(cfg, evs, p);
    var ask := MakeAck(cfg, evs, p, f);
    var ack := Packet(f, a, Ack(f, n.term, i));
    var evs' := evs + ask;
    more := ask + [Deliver(ack, 0)];
    assert evs + more == evs' + [Deliver(ack, 0)];
    RunOneMore(cfg, evs', Deliver(ack, 0));
    if |n.uncommitted[i].acks + {f}| >= Quorum(cfg) {
      QuorumCommits(cfg, evs', ack, 0);
    } else {
      AckCounts(cfg, Run(cfg, evs'), a, f, i);
      var c := Run(cfg, evs + more);
      assert Willing(Run(cfg, evs'), a, n.term, i) <= Willing(c, a, n.term, i);
      SubsetSize(Willing(Run(cfg, evs), a, n.term, i), Willing(c, a, n.term, i));
      var rest := Gather(cfg, evs + more, p, short - 1);
      assert evs + more + rest == evs + (more + rest);
      more := more + rest;
    }
  }

  /** A proposer that still leads its term holds what it has not committed. */
  lemma StillHolds(cfg: Config, evs: seq<Event>, p: Packet)
    requires p in Run(cfg, evs).sent && p.msg.Propose? && StillLeads(Run(cfg, evs), p.src, p.msg.term)
    requires Run(cfg, evs).nodes[p.src].commitIndex < p.msg.index
    ensures Holds(Run(cfg, evs).nodes[p.src], p.msg.index, p.msg.op) && Run(cfg, evs).nodes[p.src].id == p.src
  {
    hide Run, Origins;
    RunsRest(cfg, evs);
    PacketOrigin(cfg, evs, p);
    assert AtRest(Run(cfg, evs).nodes[p.src]);
  }

  /** Some continuation of the run commits index `i` at some node. */
  ghost predicate CommitsLater(cfg: Config, evs: seq<Event>, more: seq<Event>, i: nat) {
    && Indexed(cfg, evs + more)
    && exists id :: id in Run(cfg, evs + more).nodes && i in Run(cfg, evs + more).nodes[id].committed
  }

  /** Exactly when a proposal that is next in its proposer's log can still be committed, by any node
      and in any continuation: its proposer is up and leads the term it proposed in, and a quorum
      acknowledged it or is not past that term. */
  lemma CommitsLaterIff(cfg: Config, evs: seq<Event>, p: Packet)
    requires CodecOk(cfg.codec) && Indexed(cfg, evs) && p in Run(cfg, evs).sent && p.msg.Propose?
    requires p.src in Run(cfg, evs).nodes && Run(cfg, evs).nodes[p.src].commitIndex + 1 == p.msg.index
    ensures CanCommit(cfg, Run(cfg, evs), p.src, p.msg.term, p.msg.index)
      <==> exists more :: CommitsLater(cfg, evs, more, p.msg.index)
  {
    hide CodecOk, Run, CanCommit;
    var i := p.msg.index;
    if CanCommit(cfg, Run(cfg, evs), p.src, p.msg.term, i) {
      assert StillLeads(Run(cfg, evs), p.src, p.msg.term) by { LeadsThen(cfg, Run(cfg, evs), p.src, p.msg.term, i); }
      StillHolds(cfg, evs, p);
      var more := Gather(cfg, evs, p, Quorum(cfg));
      NoneProposed(cfg, evs, more);
      assert CommitsLater(cfg, evs, more, i);
    } else {
      RunsRest(cfg, evs);
      assert AtRest(Run(cfg, evs).nodes[p.src]);
      forall more ensures !CommitsLater(cfg, evs, more, i) {
        if CommitsLater(cfg, evs, more, i) {
          NotCommittedYet(cfg, evs, p);
          LostStays(cfg, evs, more, p);
          assert false;
        }
      }
    }
  }

  lemma LeadsThen(cfg: Config, c: Cluster, a: NodeId, term: nat, i: nat)
    requires CanCommit(cfg, c, a, term, i)
    ensures StillLeads(c, a, term)
  {
  }

  // ----- a cluster that stops

  /** The first leader proposes and crashes. */
  function ProposeThenCrash(op: WorkloadOp): seq<Event> {
    [ClientOp(1, op), CrashEvent(1, false, 0)]
  }

  lemma LeaderCrashes(cfg: Config, op: WorkloadOp, q: NodeId)
    requires 1 in cfg.ids && q in cfg.ids && q != 1
    ensures var c := Run(cfg, ProposeThenCrash(op));
      && Packet(1, q, Propose(1, 1, op)) in c.sent && 1 in c.nodes && !c.nodes[1].active
      && c.nodes[1].committed == map[] && c.nodes[1].pending == map[]
  {
    hide Run, DiskCrash;
    var evs := ProposeThenCrash(op);
    RunOneMore(cfg, [], evs[0]);
    RunOneMore(cfg, [evs[0]], evs[1]);
    assert [] + [evs[0]] == [evs[0]] && [evs[0]] + [evs[1]] == evs;
    RunsFromInit(cfg);
    assert Packet(1, q, Propose(1, 1, op)) in Run(cfg, [evs[0]]).sent by { assert q in cfg.ids - {1}; }
  }

  /** A leader that crashes right after its first proposal stops the cluster for good: whatever is
      elected, delivered, rebooted or proposed afterwards, no node ever commits anything. */
  lemma CrashedProposalStopsCluster(cfg: Config, op: WorkloadOp, more: seq<Event>, id: NodeId, q: NodeId)
    requires CodecOk(cfg.codec) && Indexed(cfg, ProposeThenCrash(op) + more)
    requires 1 in cfg.ids && q in cfg.ids && q != 1 && id in cfg.ids
    ensures var c := Run(cfg, ProposeThenCrash(op) + more); id in c.nodes && c.nodes[id].commitIndex == 0
  {
    hide CodecOk, Run;
    LeaderCrashes(cfg, op, q);
    LostIndexStopsLogs(cfg, ProposeThenCrash(op), more, Packet(1, q, Propose(1, 1, op)), id);
  }
}
