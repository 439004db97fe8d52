/**
 Elections. In every run, two leaders of one term mean that some voter backed both, and a voter
 backs two candidates in one term only across a reboot that made it forget the first. So terms have
 one leader in every run whose reboots forget no vote. A reboot forgets the vote but keeps the term,
 so with arbitrary reboots the property fails; the last lemmas say exactly when.
 */
module ClusterElection {
  import opened Prelude
  import opened ClusterTypes
  import opened ClusterSpec
  import opened ClusterDurability
  import opened WalRecord

  /** A voter, a term and the candidate it backed. */
  type Vote = (NodeId, nat, NodeId)

  function VoteOf(n: Node): set<Vote> {
    if n.votedFor.Some? then {(n.id, n.term, n.votedFor.value)} else {}
  }

  function VotesHeld(c: Cluster): set<Vote> {
    set id | id in c.nodes && c.nodes[id].votedFor.Some? :: (id, c.nodes[id].term, c.nodes[id].votedFor.value)
  }

  /** Every vote held at some moment of a run. */
  function Votes(cfg: Config, evs: seq<Event>): set<Vote> {
    if evs == [] then VotesHeld(Run(cfg, evs)) else Votes(cfg, evs[..|evs| - 1]) + VotesHeld(Run(cfg, evs))
  }

  // ----- what the votes of a run say about its nodes

  /** A candidate stands for a later term, backed itself and nobody else in it, and counts only votes cast for it. */
  ghost predicate Stands(cfg: Config, n: Node, votes: set<Vote>) {
    && n.term >= 2 && n.active && n.votedFor == Some(n.id) && n.id in n.votes && n.votes <= cfg.ids
    && (forall v :: v in n.votes ==> (v, n.term, n.id) in votes)
    && (forall x :: (n.id, n.term, x) in votes ==> x == n.id)
  }

  ghost predicate BallotOk(cfg: Config, n: Node, votes: set<Vote>) {
    && n.term >= 1
    && (forall t, x :: (n.id, t, x) in votes ==> t <= n.term)
    && (n.votedFor.Some? ==> n.active && (n.id, n.term, n.votedFor.value) in votes)
    && (n.isLeader ==> n.role == Leader)
    && (n.role == Candidate ==> Stands(cfg, n, votes))
    && (n.role == Leader ==> if n.term == 1 then n.id == 1 else Stands(cfg, n, votes) && |n.votes| >= Quorum(cfg))
  }

  /** A vote that is granted in a packet was cast. */
  ghost predicate GrantOk(cfg: Config, p: Packet, votes: set<Vote>) {
    p.msg.VoteGranted? ==> p.msg.voter in cfg.ids && (p.msg.voter, p.msg.term, p.dst) in votes
  }

  function Grant(vote: Vote): Packet {
    Packet(vote.0, vote.2, VoteGranted(vote.0, vote.1))
  }

  /** Every vote for somebody else was sent to that candidate. */
  ghost predicate AllSent(votes: set<Vote>, sent: set<Packet>) {
    forall k :: k in votes && k.0 != k.2 ==> Grant(k) in sent
  }

  ghost predicate Honest(cfg: Config, c: Cluster, votes: set<Vote>) {
    && c.nodes.Keys == cfg.ids
    && (forall id :: id in c.nodes ==> c.nodes[id].id == id && BallotOk(cfg, c.nodes[id], votes))
    && (forall p :: p in c.sent ==> GrantOk(cfg, p, votes))
    && AllSent(votes, c.sent)
  }

  // ----- elections at one node

  /** Nothing about an election changes, except that the node may step down, or move on to a later term. */
  predicate Passive(n: Node, m: Node) {
    && m.id == n.id && m.active == n.active && m.votes == n.votes
    && (|| (&& m.term == n.term && m.votedFor == n.votedFor
            && ((m.role == n.role && m.isLeader == n.isLeader) || (m.role == Follower && !m.isLeader)))
        || (m.term > n.term && m.votedFor == None && m.role == Follower && !m.isLeader))
  }

  lemma PassiveOk(cfg: Config, n: Node, m: Node, votes: set<Vote>)
    requires BallotOk(cfg, n, votes) && Passive(n, m)
    ensures BallotOk(cfg, m, votes) && VoteOf(m) <= votes
  {
  }

  lemma {:induction false} DrainElection(cfg: Config, n: Node)
    ensures SameElection(n, Drain(cfg, n))
    decreases |n.pending|
  {
    hide ApplyOp;
    var i := n.commitIndex + 1;
    if i in n.pending {
      ApplyOpShape(cfg, n.(pending := n.pending - {i}), i, n.pending[i]);
      DrainElection(cfg, DrainOne(cfg, n, i));
    }
  }

  lemma AckElection(cfg: Config, n: Node, from: NodeId, term: nat, index: nat, now: u64)
    ensures SameElection(n, OnAck(cfg, n, from, term, index, now).node)
  {
    hide Drain, Announce;
    if index in n.uncommitted {
      var prop := n.uncommitted[index];
      var m := n.(uncommitted := n.uncommitted[index := Proposal(prop.op, prop.acks + {from})]);
      DrainElection(cfg, m.(pending := m.pending[index := Entry(prop.op, now)]));
    }
  }

  /** Messages that are not about votes leave elections alone. */
  lemma LogMessagesPassive(cfg: Config, n: Node, src: NodeId, msg: Message, now: u64)
    requires !msg.RequestVote? && !msg.VoteGranted?
    ensures Passive(n, React(cfg, n, src, msg, now).node)
  {
    hide Drain, OnAck, OnCommit, OnCatchupResponse;
    match msg
    case Ack(from, term, index) => AckElection(cfg, n, from, term, index, now);
    case Commit(term, index, e) => CommitElection(cfg, n, term, index, e);
    case CatchupResponse(_, entries) => CatchupElection(cfg, n, entries);
    case _ =>
  }

  lemma CommitElection(cfg: Config, n: Node, term: nat, index: nat, e: Entry)
    ensures Passive(n, OnCommit(cfg, n, term, index, e).node)
  {
    hide Drain;
    DrainElection(cfg, Observe(n, term).(pending := n.pending[index := e]));
  }

  lemma CatchupElection(cfg: Config, n: Node, entries: map<nat, Entry>)
    ensures SameElection(n, OnCatchupResponse(cfg, n, entries).node)
  {
    hide Drain;
    DrainElection(cfg, n.(pending := n.pending + NotCommitted(n.committed, entries)));
  }

  /** A vote request is refused, or answered with the one vote of the term. */
  lemma RequestOk(cfg: Config, n: Node, term: nat, candidate: NodeId, last: nat, votes: set<Vote>)
    requires BallotOk(cfg, n, votes) && n.active && n.id in cfg.ids
    ensures var r := OnRequestVote(n, term, candidate, last);
      var votes' := votes + VoteOf(r.node);
      && r.node.id == n.id && BallotOk(cfg, r.node, votes')
      && (forall p :: p in r.out ==> GrantOk(cfg, p, votes'))
      && (forall k :: k in VoteOf(r.node) && k !in votes ==> Grant(k) in r.out)
  {
    hide BallotOk;
    var m := Observe(n, term);
    PassiveOk(cfg, n, m, votes);
    assert votes + VoteOf(m) == votes;
    if OnRequestVote(n, term, candidate, last).out != {} {
      CastOk(cfg, m, candidate, votes);
    }
  }

  /** A node that has not voted for anybody else in its term casts its vote. */
  lemma CastOk(cfg: Config, n: Node, candidate: NodeId, votes: set<Vote>)
    requires BallotOk(cfg, n, votes) && n.active && n.id in cfg.ids
    requires n.votedFor.None? || n.votedFor == Some(candidate)
    ensures var m := n.(votedFor := Some(candidate));
      BallotOk(cfg, m, votes + VoteOf(m)) && VoteOf(m) == {(n.id, n.term, candidate)}
  {
  }

  lemma GrantCounted(cfg: Config, n: Node, voter: NodeId, term: nat, votes: set<Vote>)
    requires BallotOk(cfg, n, votes) && voter in cfg.ids && (voter, term, n.id) in votes
    ensures var m := OnVoteGranted(cfg, n, voter, term).node;
      m.id == n.id && BallotOk(cfg, m, votes) && VoteOf(m) <= votes
  {
    hide Broadcast;
  }

  lemma CandidacyOk(cfg: Config, n: Node, votes: set<Vote>)
    requires BallotOk(cfg, n, votes) && n.active && n.id in cfg.ids
    ensures var m := StartElection(cfg, n).node;
      m.id == n.id && BallotOk(cfg, m, votes + VoteOf(m)) && forall k :: k in VoteOf(m) ==> k.0 == k.2
  {
    hide Broadcast;
  }

  // ----- steps

  lemma OthersStayOk(cfg: Config, n: Node, votes: set<Vote>, votes': set<Vote>, id: NodeId)
    requires BallotOk(cfg, n, votes) && n.id != id && votes <= votes'
    requires forall k :: k in votes' && k !in votes ==> k.0 == id
    ensures BallotOk(cfg, n, votes')
  {
    forall t, x | (n.id, t, x) in votes' ensures (n.id, t, x) in votes {
      assert (n.id, t, x).0 == n.id;
    }
  }

  /** One node changes; the votes grow by the one it holds. */
  lemma EffectHonest(cfg: Config, c: Cluster, id: NodeId, r: Reaction, votes: set<Vote>)
    requires Honest(cfg, c, votes) && id in c.nodes && r.node.id == id
    requires BallotOk(cfg, r.node, votes + VoteOf(r.node))
    requires forall p :: p in r.out ==> GrantOk(cfg, p, votes + VoteOf(r.node))
    requires forall k :: k in VoteOf(r.node) && k !in votes && k.0 != k.2 ==> Grant(k) in r.out
    ensures Honest(cfg, Effect(c, id, r), votes + VotesHeld(Effect(c, id, r)))
  {
    hide BallotOk;
    var c', votes' := Effect(c, id, r), votes + VoteOf(r.node);
    HeldAfter(cfg, c, id, r, votes);
    forall x | x in c'.nodes ensures c'.nodes[x].id == x && BallotOk(cfg, c'.nodes[x], votes') {
      if x != id {
        OthersStayOk(cfg, c.nodes[x], votes, votes', id);
      }
    }
    forall p | p in c'.sent ensures GrantOk(cfg, p, votes') {
      if p in c.sent {
        assert GrantOk(cfg, p, votes);
      }
    }
  }

  lemma HeldAfter(cfg: Config, c: Cluster, id: NodeId, r: Reaction, votes: set<Vote>)
    requires Honest(cfg, c, votes) && id in c.nodes && r.node.id == id
    ensures votes + VotesHeld(Effect(c, id, r)) == votes + VoteOf(r.node)
  {
    hide GrantOk, Stands, AllSent;
    var c' := Effect(c, id, r);
    forall k | k in VotesHeld(c') ensures k in votes + VoteOf(r.node) {
      assert k.0 in c'.nodes;
      if k.0 != id {
        assert BallotOk(cfg, c.nodes[k.0], votes);
      }
    }
    assert VoteOf(r.node) <= VotesHeld(c') by {
      assert id in c'.nodes && c'.nodes[id] == r.node;
    }
  }

  /** A step in which the node casts no vote and grants none. */
  lemma VotelessHonest(cfg: Config, c: Cluster, id: NodeId, r: Reaction, votes: set<Vote>)
    requires Honest(cfg, c, votes) && id in c.nodes && r.node.id == id
    requires BallotOk(cfg, r.node, votes) && VoteOf(r.node) <= votes
    requires forall p :: p in r.out ==> !p.msg.VoteGranted?
    ensures Honest(cfg, Effect(c, id, r), votes + VotesHeld(Effect(c, id, r)))
  {
    hide BallotOk, Honest;
    assert votes + VoteOf(r.node) == votes;
    EffectHonest(cfg, c, id, r, votes);
  }

  /** Only a vote request is answered with a vote. */
  lemma NoGrants(cfg: Config, n: Node, src: NodeId, msg: Message, now: u64)
    requires !msg.RequestVote?
    ensures forall p :: p in React(cfg, n, src, msg, now).out ==> !p.msg.VoteGranted?
  {
    hide Drain;
  }

  lemma DeliverHonest(cfg: Config, c: Cluster, p: Packet, now: u64, votes: set<Vote>)
    requires Honest(cfg, c, votes) && p in c.sent && Alive(c, p.dst)
    ensures var c' := StepCluster(cfg, c, Deliver(p, now)); Honest(cfg, c', votes + VotesHeld(c'))
  {
    hide BallotOk, OnAck, OnCommit, OnCatchupResponse, OnPropose, OnHeartbeat, OnCatchupRequest, OnVoteGranted,
         OnRequestVote, VoteOf, VotesHeld;
    var n := c.nodes[p.dst];
    if p.msg.RequestVote? {
      RequestOk(cfg, n, p.msg.term, p.msg.candidate, p.msg.lastIndex, votes);
      EffectHonest(cfg, c, p.dst, React(cfg, n, p.src, p.msg, now), votes);
    } else {
      NoGrants(cfg, n, p.src, p.msg, now);
      if p.msg.VoteGranted? {
        assert GrantOk(cfg, p, votes);
        GrantCounted(cfg, n, p.msg.voter, p.msg.term, votes);
      } else {
        LogMessagesPassive(cfg, n, p.src, p.msg, now);
        PassiveOk(cfg, n, React(cfg, n, p.src, p.msg, now).node, votes);
      }
      VotelessHonest(cfg, c, p.dst, React(cfg, n, p.src, p.msg, now), votes);
    }
  }

  lemma {:induction false} ReapplyElection(cfg: Config, n: Node, b: Bytes, valid: nat)
    ensures SameElection(n, Reapply(cfg, n, b, valid).0)
    decreases |b|
  {
    hide Next, ApplyWorkload;
    var step := Next(b, DEFAULT_MAX_PAYLOAD_LEN, true);
    if step.Record? && cfg.codec.decode(step.payload.value).Some? {
      var w := cfg.codec.decode(step.payload.value).value;
      ReapplyElection(cfg, ApplyInMemory(n, w.index, w.entry), b[FrameLen(step.len)..], valid + FrameLen(step.len));
    }
  }

  /** A reboot keeps the term and forgets the vote. */
  lemma RebootForgets(cfg: Config, n: Node)
    ensures var m := RebootNode(cfg, n).node;
      && m.id == n.id && m.active && m.term == n.term && m.votedFor == None && m.role == Follower && !m.isLeader
      && forall p :: p in RebootNode(cfg, n).out ==> !p.msg.VoteGranted?
  {
    hide Reapply;
    ReapplyElection(cfg, Wiped(cfg, n), n.disk.flushed, 0);
  }

  lemma PowerHonest(cfg: Config, c: Cluster, ev: Event, votes: set<Vote>)
    requires Honest(cfg, c, votes) && (ev.CrashEvent? || ev.RebootEvent?)
    ensures var c' := StepCluster(cfg, c, ev); Honest(cfg, c', votes + VotesHeld(c'))
  {
    hide DiskCrash, RebootNode, VotesHeld, GrantOk, Stands, Effect;
    if ev.node in c.nodes {
      var n := c.nodes[ev.node];
      assert BallotOk(cfg, n, votes);
      match ev
      case CrashEvent(id, torn, tornLen) =>
        VotelessHonest(cfg, c, id, Reaction(CrashNode(n, torn, tornLen), {}), votes);
      case RebootEvent(id) =>
        RebootForgets(cfg, n);
        VotelessHonest(cfg, c, id, RebootNode(cfg, n), votes);
    } else {
      StrayHonest(cfg, c, ev, votes);
    }
  }

  /** Nobody's vote changes. */
  lemma StrayHonest(cfg: Config, c: Cluster, ev: Event, votes: set<Vote>)
    requires Honest(cfg, c, votes) && StepCluster(cfg, c, ev).nodes == c.nodes && c.sent <= StepCluster(cfg, c, ev).sent
    requires forall p :: p in StepCluster(cfg, c, ev).sent && p !in c.sent ==> !p.msg.VoteGranted?
    ensures var c' := StepCluster(cfg, c, ev); Honest(cfg, c', votes + VotesHeld(c'))
  {
    hide StepCluster, Stands;
    var c' := StepCluster(cfg, c, ev);
    forall k | k in VotesHeld(c') ensures k in votes {
      assert k.0 in c.nodes && BallotOk(cfg, c.nodes[k.0], votes);
    }
    assert votes + VotesHeld(c') == votes;
  }

  /** Every step keeps what the votes say. */
  lemma StepHonest(cfg: Config, c: Cluster, ev: Event, votes: set<Vote>)
    requires Honest(cfg, c, votes)
    ensures var c' := StepCluster(cfg, c, ev); Honest(cfg, c', votes + VotesHeld(c'))
  {
    hide React, CrashNode, RebootNode, VotesHeld, StartElection, StartProposal, Beat, BallotOk, GrantOk;
    match ev
    case ClientOp(id, op) =>
      if Alive(c, id) && c.nodes[id].isLeader { ClientHonest(cfg, c, id, op, votes); }
      else { StrayHonest(cfg, c, ev, votes); }
    case Deliver(p, now) =>
      if p in c.sent && Alive(c, p.dst) { DeliverHonest(cfg, c, p, now, votes); }
      else { StrayHonest(cfg, c, ev, votes); }
    case HeartbeatTick(id) =>
      if Alive(c, id) && c.nodes[id].role == Leader { BeatHonest(cfg, c, id, votes); }
      else { StrayHonest(cfg, c, ev, votes); }
    case ElectionTimeout(id) =>
      if Alive(c, id) { TimeoutHonest(cfg, c, id, votes); } else { StrayHonest(cfg, c, ev, votes); }
    case CrashEvent(_, _, _) => PowerHonest(cfg, c, ev, votes);
    case RebootEvent(_) => PowerHonest(cfg, c, ev, votes);
  }

  lemma ClientHonest(cfg: Config, c: Cluster, id: NodeId, op: WorkloadOp, votes: set<Vote>)
    requires Honest(cfg, c, votes) && Alive(c, id) && c.nodes[id].isLeader
    ensures var c' := StepCluster(cfg, c, ClientOp(id, op)); Honest(cfg, c', votes + VotesHeld(c'))
  {
    hide BallotOk, VoteOf, VotesHeld, GrantOk;
    var r := StartProposal(cfg, c.nodes[id], c.nextLogIndex + 1, op);
    PassiveOk(cfg, c.nodes[id], r.node, votes);
    VotelessHonest(cfg, c.(nextLogIndex := c.nextLogIndex + 1), id, r, votes);
  }

  lemma BeatHonest(cfg: Config, c: Cluster, id: NodeId, votes: set<Vote>)
    requires Honest(cfg, c, votes) && Alive(c, id) && c.nodes[id].role == Leader
    ensures var c' := StepCluster(cfg, c, HeartbeatTick(id)); Honest(cfg, c', votes + VotesHeld(c'))
  {
    hide BallotOk, VoteOf, VotesHeld, GrantOk;
    PassiveOk(cfg, c.nodes[id], c.nodes[id], votes);
    VotelessHonest(cfg, c, id, Beat(cfg, c.nodes[id]), votes);
  }

  lemma TimeoutHonest(cfg: Config, c: Cluster, id: NodeId, votes: set<Vote>)
    requires Honest(cfg, c, votes) && Alive(c, id)
    ensures var c' := StepCluster(cfg, c, ElectionTimeout(id)); Honest(cfg, c', votes + VotesHeld(c'))
  {
    hide BallotOk, VoteOf, VotesHeld;
    CandidacyOk(cfg, c.nodes[id], votes);
    EffectHonest(cfg, c, id, StartElection(cfg, c.nodes[id]), votes);
  }

  lemma InitHonest(cfg: Config)
    ensures Honest(cfg, Init(cfg), VotesHeld(Init(cfg)))
  {
  }

  /** In every run, with whatever reboots, the votes cast explain every candidate and every leader. */
  lemma {:induction false} RunsAreHonest(cfg: Config, evs: seq<Event>)
    ensures Honest(cfg, Run(cfg, evs), Votes(cfg, evs))
    decreases |evs|
  {
    hide Honest, StepCluster, VotesHeld, Init;
    if evs == [] {
      InitHonest(cfg);
    } else {
      RunsAreHonest(cfg, evs[..|evs| - 1]);
      StepHonest(cfg, Run(cfg, evs[..|evs| - 1]), evs[|evs| - 1], Votes(cfg, evs[..|evs| - 1]));
    }
  }

  lemma {:induction false} VotesGrow(cfg: Config, evs: seq<Event>, more: seq<Event>)
    ensures Votes(cfg, evs) <= Votes(cfg, evs + more)
    decreases |more|
  {
    hide Run, VotesHeld;
    if more == [] {
      assert evs + more == evs;
    } else {
      assert (evs + more)[..|evs + more| - 1] == evs + more[..|more| - 1];
      VotesGrow(cfg, evs, more[..|more| - 1]);
    }
  }

  // ----- two leaders of one term

  predicate LeadsIn(c: Cluster, id: NodeId, term: nat) {
    Alive(c, id) && c.nodes[id].isLeader && c.nodes[id].term == term
  }

  /** A leader was elected by a quorum, or is the initial leader. */
  lemma LeaderWasElected(cfg: Config, c: Cluster, id: NodeId, term: nat, votes: set<Vote>)
    requires Honest(cfg, c, votes) && LeadsIn(c, id, term)
    ensures term == 1 ==> id == 1
    ensures term != 1 ==> c.nodes[id].votes <= cfg.ids && |c.nodes[id].votes| >= Quorum(cfg)
    ensures term != 1 ==> forall v :: v in c.nodes[id].votes ==> (v, term, id) in votes
  {
    hide GrantOk, AllSent;
    assert BallotOk(cfg, c.nodes[id], votes);
  }

  lemma QuorumsMeet(ids: set<NodeId>, a: set<NodeId>, b: set<NodeId>)
    requires a <= ids && b <= ids && |a| > |ids| / 2 && |b| > |ids| / 2
    ensures a * b != {}
  {
    if a * b == {} {
      DisjointSize(a, b);
      SubsetSize(a + b, ids);
    }
  }

  lemma DisjointSize(a: set<NodeId>, b: set<NodeId>)
    requires a * b == {}
    ensures |a + b| == |a| + |b|
  {
  }

  lemma SubsetSize(a: set<NodeId>, b: set<NodeId>)
    requires a <= b
    ensures |a| <= |b|
  {
    assert b == a + (b - a);
    DisjointSize(a, b - a);
  }

  /** In every run, if two nodes ever led the same term, at whatever times, then some voter backed both in it. */
  lemma TwoLeadersShareAVoter(cfg: Config, evs: seq<Event>, more: seq<Event>, a: NodeId, b: NodeId, term: nat)
    returns (v: NodeId)
    requires LeadsIn(Run(cfg, evs), a, term) && LeadsIn(Run(cfg, evs + more), b, term) && a != b
    ensures (v, term, a) in Votes(cfg, evs + more) && (v, term, b) in Votes(cfg, evs + more)
  {
    hide Run, Votes, Honest;
    RunsAreHonest(cfg, evs);
    RunsAreHonest(cfg, evs + more);
    LeaderWasElected(cfg, Run(cfg, evs), a, term, Votes(cfg, evs));
    LeaderWasElected(cfg, Run(cfg, evs + more), b, term, Votes(cfg, evs + more));
    VotesGrow(cfg, evs, more);
    QuorumsMeet(cfg.ids, Run(cfg, evs).nodes[a].votes, Run(cfg, evs + more).nodes[b].votes);
    v :| v in Run(cfg, evs).nodes[a].votes * Run(cfg, evs + more).nodes[b].votes;
  }

  // ----- a second vote needs a forgetful reboot

  /** After `evs`, a reboot of a node that voted in the term it still carries. */
  ghost predicate Forgets(cfg: Config, evs: seq<Event>, ev: Event) {
    var c := Run(cfg, evs);
    ev.RebootEvent? && ev.node in c.nodes && exists x :: (ev.node, c.nodes[ev.node].term, x) in Votes(cfg, evs)
  }

  /** The vote of a node that was up or down: it stands, or the node is down, or it moved on. */
  predicate VoteKept(n: Node, term: nat, x: NodeId) {
    n.term > term || (n.term == term && (!n.active || n.votedFor == Some(x)))
  }

  lemma ReactKeepsVote(cfg: Config, n: Node, src: NodeId, msg: Message, now: u64, term: nat, x: NodeId)
    requires n.active && VoteKept(n, term, x)
    ensures VoteKept(React(cfg, n, src, msg, now).node, term, x)
  {
    hide Drain, OnAck, OnCommit, OnCatchupResponse, OnPropose, OnHeartbeat, OnCatchupRequest, Broadcast;
    if !msg.RequestVote? && !msg.VoteGranted? {
      LogMessagesPassive(cfg, n, src, msg, now);
    }
  }

  /** Only a reboot of the voter itself can take its vote back within the term. */
  lemma StepKeepsVote(cfg: Config, c: Cluster, ev: Event, v: NodeId, term: nat, x: NodeId)
    requires v in c.nodes && VoteKept(c.nodes[v], term, x) && ev != RebootEvent(v)
    ensures var c' := StepCluster(cfg, c, ev); v in c'.nodes && VoteKept(c'.nodes[v], term, x)
  {
    hide React, RebootNode, DiskCrash, Broadcast;
    if ev.Deliver? && ev.packet.dst == v && c.nodes[v].active {
      ReactKeepsVote(cfg, c.nodes[v], ev.packet.src, ev.packet.msg, ev.now, term, x);
    }
  }

  lemma RebootKeepsTerm(cfg: Config, c: Cluster, v: NodeId)
    requires v in c.nodes
    ensures var c' := StepCluster(cfg, c, RebootEvent(v));
      v in c'.nodes && c'.nodes[v].term == c.nodes[v].term && c'.nodes[v].votedFor == None
  {
    hide RebootNode;
    RebootForgets(cfg, c.nodes[v]);
  }

  lemma HeldVote(cfg: Config, evs: seq<Event>, v: NodeId, term: nat, x: NodeId)
    requires (v, term, x) in VotesHeld(Run(cfg, evs))
    ensures var c := Run(cfg, evs); v in c.nodes && c.nodes[v].term == term && c.nodes[v].votedFor == Some(x)
  {
  }

  lemma RunLast(cfg: Config, evs: seq<Event>)
    requires evs != []
    ensures Run(cfg, evs) == StepCluster(cfg, Run(cfg, evs[..|evs| - 1]), evs[|evs| - 1])
    ensures Votes(cfg, evs) == Votes(cfg, evs[..|evs| - 1]) + VotesHeld(Run(cfg, evs))
  {
    hide StepCluster;
  }

  /** At position `k` of the run the voter reboots in the term, after voting for `x` in it. */
  ghost predicate ForgotAt(cfg: Config, evs: seq<Event>, k: nat, v: NodeId, term: nat, x: NodeId) {
    && k < |evs| && evs[k] == RebootEvent(v) && (v, term, x) in Votes(cfg, evs[..k])
    && v in Run(cfg, evs[..k]).nodes && Run(cfg, evs[..k]).nodes[v].term == term
  }

  /** A vote once cast is kept, unless a reboot in its term forgot it. */
  lemma {:induction false} CastVoteIsKept(cfg: Config, evs: seq<Event>, v: NodeId, term: nat, x: NodeId)
    requires (v, term, x) in Votes(cfg, evs)
    ensures v in Run(cfg, evs).nodes
    ensures VoteKept(Run(cfg, evs).nodes[v], term, x) || exists k :: ForgotAt(cfg, evs, k, v, term, x)
    decreases |evs|
  {
    hide Run, Votes, VotesHeld, StepCluster;
    if (v, term, x) in VotesHeld(Run(cfg, evs)) {
      HeldVote(cfg, evs, v, term, x);
    } else {
      assert evs != [] by { VotesAtStart(cfg); }
      var last := |evs| - 1;
      var before := evs[..last];
      RunLast(cfg, evs);
      CastVoteIsKept(cfg, before, v, term, x);
      var c := Run(cfg, before);
      if VoteKept(c.nodes[v], term, x) {
        if evs[last] != RebootEvent(v) {
          StepKeepsVote(cfg, c, evs[last], v, term, x);
        } else {
          RebootKeepsTerm(cfg, c, v);
          if c.nodes[v].term == term {
            assert ForgotAt(cfg, evs, last, v, term, x);
          }
        }
      } else {
        var k: nat :| ForgotAt(cfg, before, k, v, term, x);
        assert before[..k] == evs[..k];
        assert ForgotAt(cfg, evs, k, v, term, x);
        NodesStay(cfg, c, evs[last]);
      }
    }
  }

  lemma VotesAtStart(cfg: Config)
    ensures Votes(cfg, []) == VotesHeld(Run(cfg, []))
  {
  }

  lemma NodesStay(cfg: Config, c: Cluster, ev: Event)
    ensures c.nodes.Keys <= StepCluster(cfg, c, ev).nodes.Keys
  {
    hide React, RebootNode, CrashNode, StartElection, StartProposal, Beat, Broadcast;
  }

  /** A voter that backed two candidates in one term rebooted in that term between the two votes. */
  lemma {:induction false} SecondVoteNeedsForgetting(cfg: Config, evs: seq<Event>, v: NodeId, term: nat,
                                                     a: NodeId, b: NodeId)
    returns (k: nat)
    requires (v, term, a) in Votes(cfg, evs) && (v, term, b) in Votes(cfg, evs) && a != b
    ensures k < |evs| && evs[k] == RebootEvent(v) && Forgets(cfg, evs[..k], evs[k])
    ensures (v, term, a) in Votes(cfg, evs[..k]) <==> (v, term, b) !in Votes(cfg, evs[..k])
    decreases |evs|
  {
    hide Run, Votes, VotesHeld, StepCluster;
    if evs == [] {
      VotesAtStart(cfg);
      HeldVote(cfg, evs, v, term, a);
      HeldVote(cfg, evs, v, term, b);
      assert false;
    }
    var before := evs[..|evs| - 1];
    RunLast(cfg, evs);
    if (v, term, a) in Votes(cfg, before) && (v, term, b) in Votes(cfg, before) {
      k := SecondVoteNeedsForgetting(cfg, before, v, term, a, b);
      assert before[..k] == evs[..k];
    } else if (v, term, a) in Votes(cfg, before) {
      k := LateVote(cfg, evs, v, term, a, b);
    } else if (v, term, b) in Votes(cfg, before) {
      k := LateVote(cfg, evs, v, term, b, a);
    } else {
      HeldVote(cfg, evs, v, term, a);
      HeldVote(cfg, evs, v, term, b);
      assert false;
    }
  }

  /** The second vote is cast in the last step. */
  lemma LateVote(cfg: Config, evs: seq<Event>, v: NodeId, term: nat, a: NodeId, b: NodeId) returns (k: nat)
    requires evs != [] && a != b && (v, term, a) in Votes(cfg, evs[..|evs| - 1])
    requires (v, term, b) in Votes(cfg, evs) && (v, term, b) !in Votes(cfg, evs[..|evs| - 1])
    ensures k < |evs| && evs[k] == RebootEvent(v) && Forgets(cfg, evs[..k], evs[k])
    ensures (v, term, a) in Votes(cfg, evs[..k]) && (v, term, b) !in Votes(cfg, evs[..k])
  {
    hide Run, Votes, VotesHeld, StepCluster;
    var last := |evs| - 1;
    var before := evs[..last];
    RunLast(cfg, evs);
    HeldVote(cfg, evs, v, term, b);
    CastVoteIsKept(cfg, before, v, term, a);
    var c := Run(cfg, before);
    if VoteKept(c.nodes[v], term, a) {
      if evs[last] != RebootEvent(v) {
        StepKeepsVote(cfg, c, evs[last], v, term, a);
        HolderIsUp(cfg, evs, v);
      } else {
        RebootKeepsTerm(cfg, c, v);
      }
      assert false;
    }
    k :| ForgotAt(cfg, before, k, v, term, a);
    assert before[..k] == evs[..k] && before == before[..k] + before[k..];
    VotesGrow(cfg, before[..k], before[k..]);
  }

  lemma HolderIsUp(cfg: Config, evs: seq<Event>, v: NodeId)
    requires v in Run(cfg, evs).nodes && Run(cfg, evs).nodes[v].votedFor.Some?
    ensures Run(cfg, evs).nodes[v].active
  {
    hide Run, Votes, GrantOk, AllSent, Stands;
    RunsAreHonest(cfg, evs);
    assert BallotOk(cfg, Run(cfg, evs).nodes[v], Votes(cfg, evs));
  }

  /** Why a term ever has two leaders, in any run: some voter backed both, and between its two votes
      it rebooted in that term. */
  lemma TwoLeadersNeedForgetting(cfg: Config, evs: seq<Event>, more: seq<Event>, a: NodeId, b: NodeId, term: nat)
    returns (v: NodeId, k: nat)
    requires LeadsIn(Run(cfg, evs), a, term) && LeadsIn(Run(cfg, evs + more), b, term) && a != b
    ensures var all := evs + more;
      && (v, term, a) in Votes(cfg, all) && (v, term, b) in Votes(cfg, all)
      && k < |all| && all[k] == RebootEvent(v) && Forgets(cfg, all[..k], all[k])
      && ((v, term, a) in Votes(cfg, all[..k]) <==> (v, term, b) !in Votes(cfg, all[..k]))
  {
    hide Run, Votes, Forgets, LeadsIn;
    v := TwoLeadersShareAVoter(cfg, evs, more, a, b, term);
    k := SecondVoteNeedsForgetting(cfg, evs + more, v, term, a, b);
  }

  /** No reboot of the run forgets a vote. */
  ghost predicate Careful(cfg: Config, evs: seq<Event>) {
    forall k :: 0 <= k < |evs| ==> !Forgets(cfg, evs[..k], evs[k])
  }

  /** Then no two distinct nodes are ever leader in the same term, even at different times. */
  lemma ElectionSafety(cfg: Config, evs: seq<Event>, more: seq<Event>, a: NodeId, b: NodeId, term: nat)
    requires Careful(cfg, evs + more)
    requires LeadsIn(Run(cfg, evs), a, term) && LeadsIn(Run(cfg, evs + more), b, term)
    ensures a == b
  {
    hide Run, Votes, Forgets;
    if a != b {
      var v, k := TwoLeadersNeedForgetting(cfg, evs, more, a, b, term);
      assert false;
    }
  }

  // ----- a reboot that forgets a vote breaks it

  /** Two nodes lead the same term at the same moment. */
  ghost predicate SplitTerm(c: Cluster) {
    exists a, b, term :: a != b && LeadsIn(c, a, term) && LeadsIn(c, b, term)
  }

  const ASK2: Packet := Packet(2, 3, RequestVote(2, 2, 0))
  const ASK1: Packet := Packet(1, 3, RequestVote(2, 1, 0))
  const FOR2: Packet := Packet(3, 2, VoteGranted(3, 2))
  const FOR1: Packet := Packet(3, 1, VoteGranted(3, 2))

  /** Node 3 votes for node 2, crashes, reboots, and votes for node 1 in the same term. */
  const FORGETFUL_RUN: seq<Event> :=
    [ElectionTimeout(2), Deliver(ASK2, 0), Deliver(FOR2, 0), CrashEvent(3, false, 0), RebootEvent(3),
     ElectionTimeout(1), Deliver(ASK1, 0), Deliver(FOR1, 0)]

  /** The election state of a node that never committed anything. */
  predicate Idle(n: Node, id: NodeId, active: bool, role: Role, term: nat, votedFor: Option<NodeId>,
                 votes: set<NodeId>)
  {
    && n.id == id && n.active == active && n.role == role && n.isLeader == (role == Leader) && n.term == term
    && n.votedFor == votedFor && n.votes == votes && n.commitIndex == 0 && n.disk == Disk([], [])
  }

  /** Only node `id` changed, and no packet was lost. */
  predicate Touches(c: Cluster, c': Cluster, id: NodeId) {
    && id in c.nodes && c'.nodes.Keys == c.nodes.Keys && c.sent <= c'.sent
    && (forall x :: x in c.nodes && x != id ==> c'.nodes[x] == c.nodes[x])
  }

  lemma CandidateSteps(cfg: Config, c: Cluster, id: NodeId, peer: NodeId, role: Role, votedFor: Option<NodeId>)
    requires id in c.nodes && Idle(c.nodes[id], id, true, role, 1, votedFor, {}) && peer in cfg.ids - {id}
    ensures var c' := StepCluster(cfg, c, ElectionTimeout(id));
      && Touches(c, c', id) && Idle(c'.nodes[id], id, true, Candidate, 2, Some(id), {id})
      && Packet(id, peer, RequestVote(2, id, 0)) in c'.sent
  {
  }

  lemma VoterSteps(cfg: Config, c: Cluster, v: NodeId, cand: NodeId, term: nat)
    requires v in c.nodes && term <= 2 && Idle(c.nodes[v], v, true, Follower, term, None, {})
    requires Packet(cand, v, RequestVote(2, cand, 0)) in c.sent
    ensures var c' := StepCluster(cfg, c, Deliver(Packet(cand, v, RequestVote(2, cand, 0)), 0));
      && Touches(c, c', v) && Idle(c'.nodes[v], v, true, Follower, 2, Some(cand), {})
      && Packet(v, cand, VoteGranted(v, 2)) in c'.sent
  {
  }

  lemma WinnerSteps(cfg: Config, c: Cluster, v: NodeId, cand: NodeId)
    requires cand in c.nodes && v != cand && Quorum(cfg) == 2
    requires Idle(c.nodes[cand], cand, true, Candidate, 2, Some(cand), {cand})
    requires Packet(v, cand, VoteGranted(v, 2)) in c.sent
    ensures var c' := StepCluster(cfg, c, Deliver(Packet(v, cand, VoteGranted(v, 2)), 0));
      && Touches(c, c', cand) && LeadsIn(c', cand, 2)
  {
    hide Broadcast;
  }

  lemma ForgetSteps(cfg: Config, c: Cluster, v: NodeId, cand: NodeId)
    requires v in c.nodes && Idle(c.nodes[v], v, true, Follower, 2, Some(cand), {})
    ensures var c1 := StepCluster(cfg, c, CrashEvent(v, false, 0));
      var c2 := StepCluster(cfg, c1, RebootEvent(v));
      && Touches(c, c2, v) && Idle(c2.nodes[v], v, true, Follower, 2, None, {})
  {
    hide Broadcast, Next;
  }

  lemma RunNext(cfg: Config, evs: seq<Event>, k: nat)
    requires k < |evs|
    ensures Run(cfg, evs[..k + 1]) == StepCluster(cfg, Run(cfg, evs[..k]), evs[k])
  {
    hide StepCluster;
    assert evs[..k + 1][..k] == evs[..k];
  }

  /** After five events node 2 leads term 2 and node 3, still in term 2, has forgotten its vote. */
  lemma FirstElection(cfg: Config)
    requires cfg.ids == {1, 2, 3}
    ensures var c := Run(cfg, FORGETFUL_RUN[..5]);
      && c.nodes.Keys == cfg.ids && LeadsIn(c, 2, 2)
      && Idle(c.nodes[1], 1, true, Leader, 1, Some(1), {}) && Idle(c.nodes[3], 3, true, Follower, 2, None, {})
  {
    hide StepCluster, Run;
    var evs := FORGETFUL_RUN;
    var c := Run(cfg, evs[..0]);
    assert c == Init(cfg) by { RunEmpty(cfg); }
    RunNext(cfg, evs, 0);
    RunNext(cfg, evs, 1);
    RunNext(cfg, evs, 2);
    RunNext(cfg, evs, 3);
    RunNext(cfg, evs, 4);
    CandidateSteps(cfg, c, 2, 3, Follower, None);
    VoterSteps(cfg, Run(cfg, evs[..1]), 3, 2, 1);
    WinnerSteps(cfg, Run(cfg, evs[..2]), 3, 2);
    ForgetSteps(cfg, Run(cfg, evs[..3]), 3, 2);
  }

  lemma RunEmpty(cfg: Config)
    ensures Run(cfg, FORGETFUL_RUN[..0]) == Init(cfg)
  {
    assert FORGETFUL_RUN[..0] == [];
  }

  /** The forgetful run ends with nodes 1 and 2 both leading term 2. */
  lemma ForgottenVoteSplitsTerm(cfg: Config)
    requires cfg.ids == {1, 2, 3}
    ensures SplitTerm(Run(cfg, FORGETFUL_RUN))
  {
    hide StepCluster, Run;
    var evs := FORGETFUL_RUN;
    FirstElection(cfg);
    RunNext(cfg, evs, 5);
    RunNext(cfg, evs, 6);
    RunNext(cfg, evs, 7);
    CandidateSteps(cfg, Run(cfg, evs[..5]), 1, 3, Leader, Some(1));
    VoterSteps(cfg, Run(cfg, evs[..6]), 3, 1, 2);
    WinnerSteps(cfg, Run(cfg, evs[..7]), 3, 1);
    assert evs[..8] == evs;
    assert LeadsIn(Run(cfg, evs), 1, 2) && LeadsIn(Run(cfg, evs), 2, 2);
  }

  // ----- exactly when a term splits

  /** An active candidate or leader of a term after the first. */
  predicate Contends(c: Cluster, id: NodeId, term: nat) {
    && Alive(c, id) && c.nodes[id].term == term && term >= 2
    && (c.nodes[id].role == Candidate || c.nodes[id].isLeader)
  }

  predicate BothLead(c: Cluster, a: NodeId, b: NodeId, term: nat) {
    LeadsIn(c, a, term) && LeadsIn(c, b, term)
  }

  /** Nothing happens but the arrival of granted votes. */
  predicate OnlyGrants(evs: seq<Event>) {
    forall i :: 0 <= i < |evs| ==> evs[i].Deliver? && evs[i].packet.msg.VoteGranted?
  }

  lemma GrantKeepsVotes(cfg: Config, c: Cluster, ev: Event)
    requires ev.Deliver? && ev.packet.msg.VoteGranted?
    ensures VotesHeld(StepCluster(cfg, c, ev)) == VotesHeld(c)
  {
    hide Broadcast;
    var c' := StepCluster(cfg, c, ev);
    assert c'.nodes.Keys == c.nodes.Keys;
    assert forall id :: id in c.nodes ==>
      c'.nodes[id].votedFor == c.nodes[id].votedFor && c'.nodes[id].term == c.nodes[id].term;
  }

  lemma HeldAreVotes(cfg: Config, evs: seq<Event>)
    ensures VotesHeld(Run(cfg, evs)) <= Votes(cfg, evs)
  {
    hide Run, VotesHeld;
  }

  /** Arriving grants cast no vote. */
  lemma {:induction false} GrantsCastNothing(cfg: Config, evs: seq<Event>, more: seq<Event>)
    requires OnlyGrants(more)
    ensures Votes(cfg, evs + more) == Votes(cfg, evs)
    decreases |more|
  {
    hide Run, VotesHeld, StepCluster, Votes;
    if more == [] {
      assert evs + more == evs;
    } else {
      var most := more[..|more| - 1];
      assert (evs + more)[..|evs + more| - 1] == evs + most;
      GrantsCastNothing(cfg, evs, most);
      RunLast(cfg, evs + more);
      GrantKeepsVotes(cfg, Run(cfg, evs + most), more[|more| - 1]);
      HeldAreVotes(cfg, evs + most);
    }
  }

  /** One more vote makes a contender of a three-node cluster its leader. */
  lemma GrantElects(cfg: Config, c: Cluster, votes: set<Vote>, v: NodeId, a: NodeId, term: nat)
    requires cfg.ids == {1, 2, 3} && Honest(cfg, c, votes) && Contends(c, a, term)
    requires v != a && Grant((v, term, a)) in c.sent
    ensures var c' := StepCluster(cfg, c, Deliver(Grant((v, term, a)), 0));
      && LeadsIn(c', a, term) && c.sent <= c'.sent
      && (forall x :: x in c.nodes && x != a ==> x in c'.nodes && c'.nodes[x] == c.nodes[x])
  {
    hide AllSent, GrantOk, BallotOk, OnVoteGranted;
    ContenderWins(cfg, c.nodes[a], votes, v);
  }

  lemma ContenderWins(cfg: Config, n: Node, votes: set<Vote>, v: NodeId)
    requires cfg.ids == {1, 2, 3} && BallotOk(cfg, n, votes) && n.active && n.term >= 2 && v != n.id
    requires n.role == Candidate || n.isLeader
    ensures var m := OnVoteGranted(cfg, n, v, n.term).node; m.isLeader && m.active && m.term == n.term
  {
    hide Broadcast;
    TwoVotes(n.votes + {v}, n.id, v);
    assert |cfg.ids| == 3;
  }

  lemma TwoVotes(s: set<NodeId>, a: NodeId, b: NodeId)
    requires a in s && b in s && a != b
    ensures |s| >= 2
  {
    SubsetSize({a, b}, s);
  }

  /** In the three-node cluster, two contenders of one term can both be made its leaders by votes
      already cast exactly when some voter backed both. */
  lemma SplitIffVotedTwice(cfg: Config, evs: seq<Event>, a: NodeId, b: NodeId, term: nat)
    requires cfg.ids == {1, 2, 3} && a != b
    requires Contends(Run(cfg, evs), a, term) && Contends(Run(cfg, evs), b, term)
    ensures (exists more :: OnlyGrants(more) && BothLead(Run(cfg, evs + more), a, b, term))
      <==> (exists v :: (v, term, a) in Votes(cfg, evs) && (v, term, b) in Votes(cfg, evs))
  {
    hide Run, Votes, OnlyGrants, Contends, LeadsIn;
    forall more | OnlyGrants(more) && BothLead(Run(cfg, evs + more), a, b, term)
      ensures exists v :: (v, term, a) in Votes(cfg, evs) && (v, term, b) in Votes(cfg, evs)
    {
      assert evs + more + [] == evs + more;
      var v := TwoLeadersShareAVoter(cfg, evs + more, [], a, b, term);
      GrantsCastNothing(cfg, evs, more);
    }
    forall v | (v, term, a) in Votes(cfg, evs) && (v, term, b) in Votes(cfg, evs)
      ensures exists more :: OnlyGrants(more) && BothLead(Run(cfg, evs + more), a, b, term)
    {
      var more := SplittingGrants(cfg, evs, v, a, b, term);
    }
  }

  lemma SplittingGrants(cfg: Config, evs: seq<Event>, v: NodeId, a: NodeId, b: NodeId, term: nat)
    returns (more: seq<Event>)
    requires cfg.ids == {1, 2, 3} && a != b
    requires Contends(Run(cfg, evs), a, term) && Contends(Run(cfg, evs), b, term)
    requires (v, term, a) in Votes(cfg, evs) && (v, term, b) in Votes(cfg, evs)
    ensures OnlyGrants(more) && BothLead(Run(cfg, evs + more), a, b, term)
  {
    hide Run, Votes, StepCluster, Honest;
    var c := Run(cfg, evs);
    RunsAreHonest(cfg, evs);
    ContendersBackThemselves(cfg, c, Votes(cfg, evs), v, a, b, term);
    ContendersBackThemselves(cfg, c, Votes(cfg, evs), v, b, a, term);
    var first, second := Deliver(Grant((v, term, a)), 0), Deliver(Grant((v, term, b)), 0);
    GrantElects(cfg, c, Votes(cfg, evs), v, a, term);
    RunOneMore(cfg, evs, first);
    RunOneMore(cfg, evs + [first], second);
    RunsAreHonest(cfg, evs + [first]);
    GrantElects(cfg, Run(cfg, evs + [first]), Votes(cfg, evs + [first]), v, b, term);
    more := [first, second];
    assert evs + more == evs + [first] + [second];
  }

  lemma ContendersBackThemselves(cfg: Config, c: Cluster, votes: set<Vote>, v: NodeId, a: NodeId, b: NodeId, term: nat)
    requires Honest(cfg, c, votes) && Contends(c, a, term) && a != b
    requires (v, term, a) in votes && (v, term, b) in votes
    ensures v != a && Grant((v, term, a)) in c.sent
  {
    hide GrantOk;
    assert BallotOk(cfg, c.nodes[a], votes);
    assert (v, term, a).0 == v;
  }

  lemma RunOneMore(cfg: Config, evs: seq<Event>, ev: Event)
    ensures Run(cfg, evs + [ev]) == StepCluster(cfg, Run(cfg, evs), ev)
  {
    hide StepCluster;
    assert (evs + [ev])[..|evs|] == evs;
  }
}
