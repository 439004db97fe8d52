/**
 Validity: what a node commits at an index is the operation a client proposed at that index,
 whichever messages carried it there.
 */
module ClusterValidity {
  import opened Prelude
  import opened ClusterTypes
  import opened ClusterSpec
  import opened ClusterDurability
  import opened ClusterAgreement

  /** The operations proposed so far; index `i` was given to the one at position `i - 1`. */
  function ProposedOps(cfg: Config, evs: seq<Event>): seq<WorkloadOp> {
    if evs == [] then []
    else
      var before, ev := evs[..|evs| - 1], evs[|evs| - 1];
      ProposedOps(cfg, before) + NewOps(Run(cfg, before), ev)
  }

  function NewOps(c: Cluster, ev: Event): seq<WorkloadOp> {
    if ev.ClientOp? && Alive(c, ev.leader) && c.nodes[ev.leader].isLeader then [ev.op] else []
  }

  ghost predicate Is(ops: seq<WorkloadOp>, i: nat, op: WorkloadOp) {
    1 <= i <= |ops| && ops[i - 1] == op
  }

  ghost predicate EntriesAre(ops: seq<WorkloadOp>, entries: map<nat, Entry>) {
    forall i :: i in entries ==> Is(ops, i, entries[i].op)
  }

  ghost predicate NodeIs(ops: seq<WorkloadOp>, n: Node) {
    && EntriesAre(ops, n.committed) && EntriesAre(ops, n.pending)
    && (forall i :: i in n.uncommitted ==> Is(ops, i, n.uncommitted[i].op))
  }

  ghost predicate PacketIs(ops: seq<WorkloadOp>, p: Packet) {
    match p.msg
    case Propose(_, i, op) => Is(ops, i, op)
    case Commit(_, i, e) => Is(ops, i, e.op)
    case CatchupResponse(_, entries) => EntriesAre(ops, entries)
    case _ => true
  }

  ghost predicate Faithful(c: Cluster, ops: seq<WorkloadOp>) {
    && |ops| == c.nextLogIndex
    && (forall id :: id in c.nodes ==> NodeIs(ops, c.nodes[id]))
    && (forall p :: p in c.sent ==> PacketIs(ops, p))
  }

  lemma EffectFaithful(c: Cluster, id: NodeId, r: Reaction, ops: seq<WorkloadOp>)
    requires Faithful(c, ops) && NodeIs(ops, r.node) && (forall p :: p in r.out ==> PacketIs(ops, p))
    ensures Faithful(Effect(c, id, r), ops)
  {
    hide NodeIs, PacketIs;
  }

  /** Logs that grow from faithful sources stay faithful. */
  lemma GrowthFaithful(n: Node, m: Node, source: map<nat, Entry>, ops: seq<WorkloadOp>)
    requires EntriesAre(ops, n.committed) && EntriesAre(ops, source) && Grows(n, m, source)
    ensures EntriesAre(ops, m.committed) && EntriesAre(ops, m.pending)
  {
  }

  lemma {:induction false} DrainUncommitted(cfg: Config, n: Node)
    ensures forall i :: i in Drain(cfg, n).uncommitted ==>
      i in n.uncommitted && Drain(cfg, n).uncommitted[i] == n.uncommitted[i]
    decreases |n.pending|
  {
    hide ApplyOp;
    var i := n.commitIndex + 1;
    if i in n.pending {
      ApplyOpShape(cfg, n.(pending := n.pending - {i}), i, n.pending[i]);
      DrainUncommitted(cfg, DrainOne(cfg, n, i));
    }
  }

  ghost predicate UncommittedAre(ops: seq<WorkloadOp>, n: Node) {
    forall i :: i in n.uncommitted ==> Is(ops, i, n.uncommitted[i].op)
  }

  lemma AckUncommitted(cfg: Config, n: Node, from: NodeId, term: nat, index: nat, now: u64, ops: seq<WorkloadOp>)
    requires NodeIs(ops, n)
    ensures UncommittedAre(ops, OnAck(cfg, n, from, term, index, now).node)
  {
    hide Drain, Is, EntriesAre, Announce;
    if index in n.uncommitted {
      var prop := n.uncommitted[index];
      var m := n.(uncommitted := n.uncommitted[index := Proposal(prop.op, prop.acks + {from})]);
      DrainUncommitted(cfg, m.(pending := m.pending[index := Entry(prop.op, now)]));
    }
  }

  lemma CommitUncommitted(cfg: Config, n: Node, term: nat, index: nat, e: Entry, ops: seq<WorkloadOp>)
    requires NodeIs(ops, n)
    ensures UncommittedAre(ops, OnCommit(cfg, n, term, index, e).node)
  {
    hide Drain, Is, EntriesAre;
    DrainUncommitted(cfg, Observe(n, term).(pending := n.pending[index := e]));
  }

  lemma CatchupUncommitted(cfg: Config, n: Node, entries: map<nat, Entry>, ops: seq<WorkloadOp>)
    requires NodeIs(ops, n)
    ensures UncommittedAre(ops, OnCatchupResponse(cfg, n, entries).node)
  {
    hide Drain, Is, EntriesAre;
    DrainUncommitted(cfg, n.(pending := n.pending + NotCommitted(n.committed, entries)));
  }

  lemma ReactUncommitted(cfg: Config, n: Node, p: Packet, now: u64, ops: seq<WorkloadOp>)
    requires NodeIs(ops, n) && PacketIs(ops, p)
    ensures UncommittedAre(ops, React(cfg, n, p.src, p.msg, now).node)
  {
    hide Is, EntriesAre, OnAck, OnCommit, OnCatchupResponse, OnRequestVote, OnVoteGranted, OnHeartbeat,
         OnCatchupRequest;
    match p.msg
    case Propose(_, _, _) =>
    case Ack(from, term, index) => AckUncommitted(cfg, n, from, term, index, now, ops);
    case Commit(term, index, e) => CommitUncommitted(cfg, n, term, index, e, ops);
    case CatchupResponse(_, entries) => CatchupUncommitted(cfg, n, entries, ops);
    case _ => OthersUncommitted(cfg, n, p.src, p.msg, now);
  }

  lemma OthersUncommitted(cfg: Config, n: Node, src: NodeId, msg: Message, now: u64)
    requires msg.RequestVote? || msg.VoteGranted? || msg.Heartbeat? || msg.CatchupRequest?
    ensures React(cfg, n, src, msg, now).node.uncommitted == n.uncommitted
  {
    hide OnAck, OnCommit, OnCatchupResponse, OnPropose, Broadcast;
  }

  lemma SourceFaithful(cfg: Config, n: Node, p: Packet, now: u64, ops: seq<WorkloadOp>)
    requires NodeIs(ops, n) && PacketIs(ops, p)
    ensures EntriesAre(ops, SourceOf(cfg, n, p.msg, now))
  {
    hide Is;
  }

  lemma FaithfulInRange(ops: seq<WorkloadOp>, entries: map<nat, Entry>)
    requires EntriesAre(ops, entries) && |ops| < U64_LIMIT
    ensures InRange(entries)
  {
  }

  lemma OutgoingFaithful(cfg: Config, n: Node, p: Packet, now: u64, ops: seq<WorkloadOp>)
    requires NodeIs(ops, n) && NodeIs(ops, React(cfg, n, p.src, p.msg, now).node)
    ensures forall q :: q in React(cfg, n, p.src, p.msg, now).out ==> PacketIs(ops, q)
  {
    hide Drain, Is;
  }

  lemma DeliverFaithful(cfg: Config, c: Cluster, p: Packet, now: u64, ops: seq<WorkloadOp>)
    requires CodecOk(cfg.codec) && NodesOk(cfg, c) && Faithful(c, ops) && p in c.sent && Alive(c, p.dst)
    requires c.nextLogIndex < U64_LIMIT
    ensures Faithful(StepCluster(cfg, c, Deliver(p, now)), ops)
  {
    hide NodeOk, CodecOk, React, Grows, SourceOf, PacketIs;
    var n := c.nodes[p.dst];
    assert NodeIs(ops, n) && PacketIs(ops, p);
    hide EntriesAre;
    SourceFaithful(cfg, n, p, now, ops);
    FaithfulInRange(ops, SourceOf(cfg, n, p.msg, now));
    ReactOk(cfg, n, p.src, p.msg, now);
    GrowthFaithful(n, React(cfg, n, p.src, p.msg, now).node, SourceOf(cfg, n, p.msg, now), ops);
    ReactUncommitted(cfg, n, p, now, ops);
    OutgoingFaithful(cfg, n, p, now, ops);
    EffectFaithful(c, p.dst, React(cfg, n, p.src, p.msg, now), ops);
  }

  lemma MoreOps(c: Cluster, ops: seq<WorkloadOp>, op: WorkloadOp)
    requires Faithful(c, ops)
    ensures Faithful(c.(nextLogIndex := c.nextLogIndex + 1), ops + [op])
  {
    forall p | p in c.sent ensures PacketIs(ops + [op], p) {
      assert PacketIs(ops, p);
    }
  }

  lemma ClientFaithful(cfg: Config, c: Cluster, id: NodeId, op: WorkloadOp, ops: seq<WorkloadOp>)
    requires Faithful(c, ops) && Alive(c, id) && c.nodes[id].isLeader
    ensures Faithful(StepCluster(cfg, c, ClientOp(id, op)), ops + [op])
  {
    hide EntriesAre;
    var c1 := c.(nextLogIndex := c.nextLogIndex + 1);
    MoreOps(c, ops, op);
    assert NodeIs(ops + [op], c1.nodes[id]);
    EffectFaithful(c1, id, StartProposal(cfg, c.nodes[id], c1.nextLogIndex, op), ops + [op]);
  }

  lemma CrashIs(n: Node, torn: bool, tornLen: nat, ops: seq<WorkloadOp>)
    requires NodeIs(ops, n)
    ensures NodeIs(ops, CrashNode(n, torn, tornLen))
  {
    hide DiskCrash, Is;
  }

  lemma RebootIs(cfg: Config, n: Node, ops: seq<WorkloadOp>)
    requires CodecOk(cfg.codec) && NodeOk(cfg, n) && NodeIs(ops, n)
    ensures NodeIs(ops, RebootNode(cfg, n).node)
    ensures forall p :: p in RebootNode(cfg, n).out ==> PacketIs(ops, p)
  {
    hide NodeOk, CodecOk, RecoverNode, Is;
    RecoverExact(cfg, n);
  }

  /** The catch-up requests of a reboot that names no node. */
  lemma StrayFaithful(cfg: Config, c: Cluster, id: NodeId, ops: seq<WorkloadOp>)
    requires Faithful(c, ops)
    ensures Faithful(c.(sent := c.sent + Broadcast(cfg, id, CatchupRequest(id, 0))), ops)
  {
    hide NodeIs;
  }

  lemma PowerFaithful(cfg: Config, c: Cluster, ev: Event, ops: seq<WorkloadOp>)
    requires CodecOk(cfg.codec) && NodesOk(cfg, c) && Faithful(c, ops) && (ev.CrashEvent? || ev.RebootEvent?)
    ensures Faithful(StepCluster(cfg, c, ev), ops)
  {
    hide NodeOk, CodecOk, CrashNode, RebootNode, NodeIs, PacketIs, Effect;
    if ev.node in c.nodes {
      var n := c.nodes[ev.node];
      match ev
      case CrashEvent(id, torn, tornLen) =>
        CrashIs(n, torn, tornLen, ops);
        EffectFaithful(c, id, Reaction(CrashNode(n, torn, tornLen), {}), ops);
      case RebootEvent(id) =>
        RebootIs(cfg, n, ops);
        EffectFaithful(c, id, RebootNode(cfg, n), ops);
    } else if ev.RebootEvent? {
      StrayFaithful(cfg, c, ev.node, ops);
    }
  }

  lemma TimerFaithful(cfg: Config, c: Cluster, ev: Event, ops: seq<WorkloadOp>)
    requires Faithful(c, ops) && (ev.HeartbeatTick? || ev.ElectionTimeout?)
    ensures Faithful(StepCluster(cfg, c, ev), ops)
  {
    hide EntriesAre, Is;
    if Alive(c, ev.node) {
      assert NodeIs(ops, c.nodes[ev.node]);
      match ev
      case HeartbeatTick(id) => EffectFaithful(c, id, Beat(cfg, c.nodes[id]), ops);
      case ElectionTimeout(id) => EffectFaithful(c, id, StartElection(cfg, c.nodes[id]), ops);
    }
  }

  lemma {:induction false} RunsAreFaithful(cfg: Config, evs: seq<Event>)
    requires CodecOk(cfg.codec) && Indexed(cfg, evs)
    ensures Faithful(Run(cfg, evs), ProposedOps(cfg, evs))
    decreases |evs|
  {
    if evs == [] {
      assert Faithful(Init(cfg), []);
    } else {
      hide CodecOk, NodeOk, OwnedBy, Faithful;
      var before, ev := evs[..|evs| - 1], evs[|evs| - 1];
      var c, ops := Run(cfg, before), ProposedOps(cfg, before);
      IndexesGrow(cfg, evs);
      RunsAreFaithful(cfg, before);
      RunsAgree(cfg, before);
      assert ops + [] == ops;
      match ev
      case ClientOp(id, op) => if Alive(c, id) && c.nodes[id].isLeader { ClientFaithful(cfg, c, id, op, ops); }
      case Deliver(p, now) => if p in c.sent && Alive(c, p.dst) { DeliverFaithful(cfg, c, p, now, ops); }
      case HeartbeatTick(_) => TimerFaithful(cfg, c, ev, ops);
      case ElectionTimeout(_) => TimerFaithful(cfg, c, ev, ops);
      case CrashEvent(_, _, _) => PowerFaithful(cfg, c, ev, ops);
      case RebootEvent(_) => PowerFaithful(cfg, c, ev, ops);
    }
  }

  /** Every committed entry is the operation proposed at its index. */
  lemma CommittedWasProposed(cfg: Config, evs: seq<Event>, id: NodeId, i: nat)
    requires CodecOk(cfg.codec) && Indexed(cfg, evs)
    requires id in Run(cfg, evs).nodes && i in Run(cfg, evs).nodes[id].committed
    ensures 1 <= i <= |ProposedOps(cfg, evs)|
    ensures Run(cfg, evs).nodes[id].committed[i].op == ProposedOps(cfg, evs)[i - 1]
  {
    hide Run, CodecOk, ProposedOps;
    RunsAreFaithful(cfg, evs);
    assert NodeIs(ProposedOps(cfg, evs), Run(cfg, evs).nodes[id]);
  }
}
