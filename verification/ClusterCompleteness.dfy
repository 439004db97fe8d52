/**
 What a new leader knows. A vote goes only to a candidate whose log is not behind, so a leader of a
 new term holds an entry if and only if too few nodes lack it to elect somebody without it.
 */
module ClusterCompleteness {
  import opened Prelude
  import opened ClusterTypes
  import opened ClusterSpec
  import opened ClusterDurability
  import opened ClusterAgreement
  import opened ClusterElection
  import opened ClusterProgress

  /** The nodes that have not committed index `i`. */
  function Lacking(c: Cluster, i: nat): set<NodeId> {
    set f | f in c.nodes && c.nodes[f].commitIndex < i
  }

  /** A term no node has reached. */
  ghost predicate NewTerm(c: Cluster, t: nat) {
    forall id :: id in c.nodes ==> c.nodes[id].term < t
  }

  /** A later leader, in a term that is new, has not committed index `i`. */
  ghost predicate LacksLater(cfg: Config, evs: seq<Event>, more: seq<Event>, x: NodeId, t: nat, i: nat) {
    && Indexed(cfg, evs + more) && NewTerm(Run(cfg, evs), t)
    && LeadsIn(Run(cfg, evs + more), x, t) && Run(cfg, evs + more).nodes[x].commitIndex < i
  }

  // ----- who voted for a leader that lacks an entry

  /** The node got the vote it holds in this step. */
  predicate CastNow(n: Node, m: Node, x: NodeId) {
    m.votedFor == Some(x) && !(n.votedFor == Some(x) && n.term == m.term)
  }

  lemma CastByMessage(cfg: Config, n: Node, src: NodeId, msg: Message, now: u64, x: NodeId)
    requires CastNow(n, React(cfg, n, src, msg, now).node, x)
    ensures msg.RequestVote? && msg.candidate == x && React(cfg, n, src, msg, now).out != {}
  {
    hide Drain, Broadcast, OnAck, OnCommit, OnCatchupResponse;
    if !msg.RequestVote? && !msg.VoteGranted? { LogMessagesPassive(cfg, n, src, msg, now); }
  }

  /** A new vote goes to the voter itself, or to a candidate that asked for it. */
  lemma CastInStep(cfg: Config, c: Cluster, ev: Event, v: NodeId, x: NodeId)
    requires v in c.nodes && v in StepCluster(cfg, c, ev).nodes && c.nodes[v].id == v
    requires CastNow(c.nodes[v], StepCluster(cfg, c, ev).nodes[v], x)
    ensures x == v || (&& ev.Deliver? && ev.packet in c.sent && Alive(c, v) && ev.packet.dst == v
                       && ev.packet.msg.RequestVote? && ev.packet.msg.candidate == x
                       && React(cfg, c.nodes[v], ev.packet.src, ev.packet.msg, ev.now).out != {})
  {
    hide React, RebootNode, Broadcast, DiskCrash;
    match ev
    case Deliver(p, now) =>
      if p in c.sent && Alive(c, p.dst) && p.dst == v { CastByMessage(cfg, c.nodes[v], p.src, p.msg, now, x); }
    case RebootEvent(id) => if id in c.nodes { RebootForgets(cfg, c.nodes[id]); }
    case _ =>
  }

  /** At the moment of the vote the voter's log is not longer than the candidate's. */
  lemma VoterIsNotAhead(cfg: Config, evs: seq<Event>, ev: Event, v: NodeId, x: NodeId)
    requires CodecOk(cfg.codec) && Indexed(cfg, evs + [ev]) && v in Run(cfg, evs).nodes
    requires v in Run(cfg, evs + [ev]).nodes && CastNow(Run(cfg, evs).nodes[v], Run(cfg, evs + [ev]).nodes[v], x)
    ensures x in Run(cfg, evs).nodes && Run(cfg, evs).nodes[v].commitIndex <= Run(cfg, evs).nodes[x].commitIndex
  {
    hide CodecOk, Run, React, StepCluster, NodeOk, OwnedBy;
    assert (evs + [ev])[..|evs|] == evs;
    IndexesGrow(cfg, evs + [ev]);
    RunOneMore(cfg, evs, ev);
    RunsAgree(cfg, evs);
    CastInStep(cfg, Run(cfg, evs), ev, v, x);
    if x != v { VotersAreCovered(cfg, evs, ev.packet, ev.now); }
  }

  /** In term `t`, whoever lacks entry `i` was voted for by nodes that lacked it at the start. */
  ghost predicate BackedByLacking(c: Cluster, votes: set<Vote>, lacking: set<NodeId>, t: nat, i: nat) {
    forall k :: k in votes && k.1 == t ==> k.2 in c.nodes && (c.nodes[k.2].commitIndex < i ==> k.0 in lacking)
  }

  lemma {:induction false} VotersAreNodes(cfg: Config, evs: seq<Event>, k: Vote)
    requires k in Votes(cfg, evs)
    ensures k.0 in cfg.ids
    decreases |evs|
  {
    hide Run;
    RunsAreHonest(cfg, evs);
    if evs != [] && k in Votes(cfg, evs[..|evs| - 1]) { VotersAreNodes(cfg, evs[..|evs| - 1], k); }
  }

  lemma NoVoteYet(cfg: Config, evs: seq<Event>, k: Vote)
    requires k in Votes(cfg, evs)
    ensures !NewTerm(Run(cfg, evs), k.1)
  {
    hide Run, Votes;
    VotersAreNodes(cfg, evs, k);
    RunsAreHonest(cfg, evs);
    assert k == (k.0, k.1, k.2);
    assert BallotOk(cfg, Run(cfg, evs).nodes[k.0], Votes(cfg, evs));
  }

  lemma {:induction false} VotesStayBacked(cfg: Config, evs: seq<Event>, more: seq<Event>, t: nat, i: nat)
    requires CodecOk(cfg.codec) && Indexed(cfg, evs + more) && NewTerm(Run(cfg, evs), t)
    ensures BackedByLacking(Run(cfg, evs + more), Votes(cfg, evs + more), Lacking(Run(cfg, evs), i), t, i)
    decreases |more|
  {
    hide CodecOk, Run, Votes, NewTerm;
    if more == [] {
      assert evs + more == evs;
      forall k | k in Votes(cfg, evs) ensures k.1 != t { NoVoteYet(cfg, evs, k); }
    } else {
      var most, ev := more[..|more| - 1], more[|more| - 1];
      assert evs + more == evs + most + [ev] && (evs + more)[..|evs + more| - 1] == evs + most;
      IndexesGrow(cfg, evs + more);
      VotesStayBacked(cfg, evs, most, t, i);
      forall k | k in Votes(cfg, evs + more) && k.1 == t
        ensures k.2 in Run(cfg, evs + more).nodes
        ensures Run(cfg, evs + more).nodes[k.2].commitIndex < i ==> k.0 in Lacking(Run(cfg, evs), i)
      {
        VoteStaysBacked(cfg, evs, most, ev, t, i, k);
      }
    }
  }

  lemma VoteStaysBacked(cfg: Config, evs: seq<Event>, most: seq<Event>, ev: Event, t: nat, i: nat, k: Vote)
    requires CodecOk(cfg.codec) && Indexed(cfg, evs + most + [ev]) && Indexed(cfg, evs + most)
    requires BackedByLacking(Run(cfg, evs + most), Votes(cfg, evs + most), Lacking(Run(cfg, evs), i), t, i)
    requires k in Votes(cfg, evs + most + [ev]) && k.1 == t
    ensures k.2 in Run(cfg, evs + most + [ev]).nodes
    ensures Run(cfg, evs + most + [ev]).nodes[k.2].commitIndex < i ==> k.0 in Lacking(Run(cfg, evs), i)
  {
    hide CodecOk, Run, Votes;
    var here := evs + most;
    if k !in Votes(cfg, here) {
      NewVote(cfg, here, ev, k);
      VoterIsNotAhead(cfg, here, ev, k.0, k.2);
      HeldLess(cfg, evs, most, k.0);
    }
    RunKeys(cfg, here);
    CommitsArePermanent(cfg, here, [ev], k.2);
  }

  lemma RunKeys(cfg: Config, evs: seq<Event>)
    ensures Run(cfg, evs).nodes.Keys == cfg.ids
  {
    hide Run, Votes;
    RunsAreHonest(cfg, evs);
  }

  lemma NewVote(cfg: Config, evs: seq<Event>, ev: Event, k: Vote)
    requires k in Votes(cfg, evs + [ev]) && k !in Votes(cfg, evs)
    ensures var c, c' := Run(cfg, evs), Run(cfg, evs + [ev]);
      k.0 in c.nodes && k.0 in c'.nodes && CastNow(c.nodes[k.0], c'.nodes[k.0], k.2)
  {
    hide Run;
    assert (evs + [ev])[..|evs|] == evs;
    HeldAreVotes(cfg, evs);
    RunKeys(cfg, evs);
    RunKeys(cfg, evs + [ev]);
    var n := Run(cfg, evs).nodes[k.0];
    assert k == (k.0, k.1, k.2);
    assert n.votedFor == Some(k.2) && n.term == k.1 ==> k in VotesHeld(Run(cfg, evs));
  }

  /** A node with a short log had a short log before. */
  lemma HeldLess(cfg: Config, evs: seq<Event>, most: seq<Event>, v: NodeId)
    requires CodecOk(cfg.codec) && Indexed(cfg, evs + most) && v in Run(cfg, evs + most).nodes
    ensures v in Run(cfg, evs).nodes
    ensures Run(cfg, evs).nodes[v].commitIndex <= Run(cfg, evs + most).nodes[v].commitIndex
  {
    hide CodecOk, Run;
    RunKeys(cfg, evs + most);
    CommitsArePermanent(cfg, evs, most, v);
  }

  /** A later leader that lacks an entry was elected by nodes that lacked it: a quorum of them. */
  lemma LackingElect(cfg: Config, evs: seq<Event>, more: seq<Event>, x: NodeId, t: nat, i: nat)
    requires CodecOk(cfg.codec) && LacksLater(cfg, evs, more, x, t, i)
    ensures |Lacking(Run(cfg, evs), i)| >= Quorum(cfg)
  {
    hide CodecOk, Run, Votes, Honest;
    VotesStayBacked(cfg, evs, more, t, i);
    RunsAreHonest(cfg, evs + more);
    LeaderWasElected(cfg, Run(cfg, evs + more), x, t, Votes(cfg, evs + more));
    assert t >= 2 by { LaterTerm(cfg, evs, more, x, t); }
    var voters := Run(cfg, evs + more).nodes[x].votes;
    forall v | v in voters ensures v in Lacking(Run(cfg, evs), i) {
      assert (v, t, x) in Votes(cfg, evs + more) && (v, t, x).1 == t;
    }
    SubsetSize(voters, Lacking(Run(cfg, evs), i));
  }

  lemma LaterTerm(cfg: Config, evs: seq<Event>, more: seq<Event>, x: NodeId, t: nat)
    requires NewTerm(Run(cfg, evs), t) && x in Run(cfg, evs + more).nodes
    ensures t >= 2
  {
    hide Run, Votes;
    RunKeys(cfg, evs);
    RunKeys(cfg, evs + more);
    RunsAreHonest(cfg, evs);
    assert BallotOk(cfg, Run(cfg, evs).nodes[x], Votes(cfg, evs));
  }

  // ----- electing a leader that lacks an entry

  /** The node of `s` with the longest log. */
  lemma {:induction false} LongestLog(c: Cluster, s: set<NodeId>) returns (x: NodeId)
    requires s != {} && s <= c.nodes.Keys
    ensures x in s && forall f :: f in s ==> c.nodes[f].commitIndex <= c.nodes[x].commitIndex
    decreases |s|
  {
    var first :| first in s;
    var rest := s - {first};
    assert forall f :: f in s ==> f == first || f in rest;
    x := first;
    if rest != {} {
      var y := LongestLog(c, rest);
      if c.nodes[y].commitIndex > c.nodes[first].commitIndex { x := y; }
    }
  }

  lemma {:induction false} SomeNewTerm(c: Cluster, s: set<NodeId>) returns (t: nat)
    requires s <= c.nodes.Keys
    ensures forall id :: id in s ==> c.nodes[id].term < t
    decreases |s|
  {
    if s == {} {
      t := 0;
    } else {
      var id :| id in s;
      var rest := SomeNewTerm(c, s - {id});
      t := Max(rest, c.nodes[id].term + 1);
    }
  }

  /** `x` stands in term `t` with a log of length `k`, having asked every other node. */
  ghost predicate Campaigns(cfg: Config, c: Cluster, x: NodeId, t: nat, k: nat) {
    && Alive(c, x) && c.nodes[x].id == x && c.nodes[x].role == Candidate && c.nodes[x].term == t
    && c.nodes[x].commitIndex == k
    && forall f :: f in cfg.ids && f != x ==> Packet(x, f, RequestVote(t, x, k)) in c.sent
  }

  lemma StandSteps(cfg: Config, c: Cluster, x: NodeId)
    requires Alive(c, x) && c.nodes[x].id == x
    ensures var c' := StepCluster(cfg, c, ElectionTimeout(x));
      && Touches(c, c', x) && c'.nodes[x].votes == {x}
      && Campaigns(cfg, c', x, c.nodes[x].term + 1, c.nodes[x].commitIndex)
  {
    assert forall f :: f in cfg.ids && f != x ==> f in cfg.ids - {x};
  }

  /** Timing out again and again takes a node to any later term. */
  lemma {:induction false} RaiseTerm(cfg: Config, evs: seq<Event>, x: NodeId, t: nat) returns (more: seq<Event>)
    requires Alive(Run(cfg, evs), x) && Run(cfg, evs).nodes[x].id == x && Run(cfg, evs).nodes[x].term < t
    ensures NoClient(more) && Touches(Run(cfg, evs), Run(cfg, evs + more), x)
    ensures Campaigns(cfg, Run(cfg, evs + more), x, t, Run(cfg, evs).nodes[x].commitIndex)
    ensures Run(cfg, evs + more).nodes[x].votes == {x}
    decreases t - Run(cfg, evs).nodes[x].term
  {
    hide Run, StepCluster;
    more := [ElectionTimeout(x)];
    RunOneMore(cfg, evs, ElectionTimeout(x));
    StandSteps(cfg, Run(cfg, evs), x);
    if Run(cfg, evs).nodes[x].term + 1 < t {
      var rest := RaiseTerm(cfg, evs + more, x, t);
      assert evs + more + rest == evs + (more + rest);
      more := more + rest;
    }
  }

  /** Bring a node up, if it is down. */
  lemma BringUp(cfg: Config, evs: seq<Event>, f: NodeId) returns (more: seq<Event>)
    requires CodecOk(cfg.codec) && Indexed(cfg, evs) && f in cfg.ids
    ensures NoClient(more) && Touches(Run(cfg, evs), Run(cfg, evs + more), f)
    ensures var n, m := Run(cfg, evs).nodes[f], Run(cfg, evs + more).nodes[f];
      m.active && m.id == f && m.term == n.term && m.commitIndex == n.commitIndex
  {
    hide Run, CodecOk, NodeOk, RebootNode, OwnedBy;
    RunsAgree(cfg, evs);
    var c := Run(cfg, evs);
    if c.nodes[f].active {
      more := [];
      assert evs + more == evs;
    } else {
      more := [RebootEvent(f)];
      RunOneMore(cfg, evs, RebootEvent(f));
      RebootForgets(cfg, c.nodes[f]);
      RebootLength(cfg, c.nodes[f]);
    }
  }

  lemma RebootLength(cfg: Config, n: Node)
    requires CodecOk(cfg.codec) && NodeOk(cfg, n)
    ensures RebootNode(cfg, n).node.commitIndex == n.commitIndex
  {
    hide RecoverNode, CodecOk, NodeOk;
    RecoverExact(cfg, n);
  }

  lemma GrantSteps(cfg: Config, c: Cluster, x: NodeId, f: NodeId, t: nat, k: nat)
    requires Alive(c, f) && c.nodes[f].id == f && c.nodes[f].term < t && c.nodes[f].commitIndex <= k
    requires Packet(x, f, RequestVote(t, x, k)) in c.sent
    ensures var c' := StepCluster(cfg, c, Deliver(Packet(x, f, RequestVote(t, x, k)), 0));
      Touches(c, c', f) && Packet(f, x, VoteGranted(f, t)) in c'.sent
  {
    VotesIff(c.nodes[f], t, x, k);
  }

  lemma CountSteps(cfg: Config, c: Cluster, x: NodeId, f: NodeId, t: nat, k: nat)
    requires Campaigns(cfg, c, x, t, k) && Packet(f, x, VoteGranted(f, t)) in c.sent
    ensures var c' := StepCluster(cfg, c, Deliver(Packet(f, x, VoteGranted(f, t)), 0));
      var votes := c.nodes[x].votes + {f};
      && Touches(c, c', x) && c'.nodes[x].commitIndex == k && c'.nodes[x].votes == votes
      && if |votes| >= Quorum(cfg) then LeadsIn(c', x, t) else Campaigns(cfg, c', x, t, k)
  {
    hide Broadcast;
  }

  /** A node whose log is not longer, and whose term is older, gives its vote. */
  lemma WinVote(cfg: Config, evs: seq<Event>, x: NodeId, f: NodeId, t: nat, k: nat) returns (more: seq<Event>)
    requires CodecOk(cfg.codec) && Indexed(cfg, evs) && f in cfg.ids && f != x
    requires Campaigns(cfg, Run(cfg, evs), x, t, k) && f in Run(cfg, evs).nodes
    requires Run(cfg, evs).nodes[f].term < t && Run(cfg, evs).nodes[f].commitIndex <= k
    ensures NoClient(more) && Touches(Run(cfg, evs), Run(cfg, evs + more), f)
    ensures Packet(f, x, VoteGranted(f, t)) in Run(cfg, evs + more).sent
  {
    hide Run, CodecOk, StepCluster;
    var up := BringUp(cfg, evs, f);
    var ask := Deliver(Packet(x, f, RequestVote(t, x, k)), 0);
    more := up + [ask];
    assert evs + more == evs + up + [ask];
    RunOneMore(cfg, evs + up, ask);
    GrantSteps(cfg, Run(cfg, evs + up), x, f, t, k);
  }

  /** `x` can win with the votes of `lack`, none of which is ahead of it. */
  ghost predicate CanWin(cfg: Config, c: Cluster, x: NodeId, t: nat, k: nat, lack: set<NodeId>) {
    && Campaigns(cfg, c, x, t, k) && lack <= cfg.ids && lack <= c.nodes.Keys && |lack| >= Quorum(cfg)
    && x in c.nodes[x].votes
    && forall f :: f in lack && f !in c.nodes[x].votes ==> c.nodes[f].term < t && c.nodes[f].commitIndex <= k
  }

  lemma {:induction false} Win(cfg: Config, evs: seq<Event>, x: NodeId, t: nat, k: nat, lack: set<NodeId>, short: nat)
      returns (more: seq<Event>)
    requires CodecOk(cfg.codec) && Indexed(cfg, evs) && CanWin(cfg, Run(cfg, evs), x, t, k, lack)
    requires |Run(cfg, evs).nodes[x].votes| < Quorum(cfg) == |Run(cfg, evs).nodes[x].votes| + short
    ensures NoClient(more) && LeadsIn(Run(cfg, evs + more), x, t) && Run(cfg, evs + more).nodes[x].commitIndex == k
    decreases short
  {
    hide Run, CodecOk, StepCluster;
    var votes := Run(cfg, evs).nodes[x].votes;
    if lack <= votes { SubsetSize(lack, votes); }
    var f :| f in lack && f !in votes;
    var ask := WinVote(cfg, evs, x, f, t, k);
    var grant := Deliver(Packet(f, x, VoteGranted(f, t)), 0);
    more := ask + [grant];
    assert evs + more == evs + ask + [grant];
    RunOneMore(cfg, evs + ask, grant);
    CountSteps(cfg, Run(cfg, evs + ask), x, f, t, k);
    if |votes + {f}| < Quorum(cfg) {
      NoneProposed(cfg, evs, more);
      var rest := Win(cfg, evs + more, x, t, k, lack, short - 1);
      assert evs + more + rest == evs + (more + rest);
      more := more + rest;
    }
  }

  /** When a quorum of nodes lacks an entry, they can elect one of them. */
  lemma ElectLacking(cfg: Config, evs: seq<Event>, i: nat) returns (more: seq<Event>, x: NodeId, t: nat)
    requires CodecOk(cfg.codec) && Indexed(cfg, evs) && |cfg.ids| >= 2
    requires |Lacking(Run(cfg, evs), i)| >= Quorum(cfg)
    ensures LacksLater(cfg, evs, more, x, t, i)
  {
    hide Run, CodecOk, StepCluster;
    var c := Run(cfg, evs);
    var lack := Lacking(c, i);
    RunKeys(cfg, evs);
    assert lack != {};
    x := LongestLog(c, lack);
    t := SomeNewTerm(c, c.nodes.Keys);
    var k := c.nodes[x].commitIndex;
    var up := BringUp(cfg, evs, x);
    var raise := RaiseTerm(cfg, evs + up, x, t);
    assert evs + up + raise == evs + (up + raise);
    NoneProposed(cfg, evs, up + raise);
    var win := Win(cfg, evs + (up + raise), x, t, k, lack, Quorum(cfg) - 1);
    more := up + raise + win;
    assert evs + (up + raise) + win == evs + more;
    NoneProposed(cfg, evs, more);
  }

  /** Exactly when every later leader of a new term holds entry `i`: the nodes that have not
      committed it are too few to elect one of them. */
  lemma NewLeadersHoldIff(cfg: Config, evs: seq<Event>, i: nat)
    requires CodecOk(cfg.codec) && Indexed(cfg, evs) && |cfg.ids| >= 2
    ensures |Lacking(Run(cfg, evs), i)| < Quorum(cfg)
      <==> forall more, x, t :: !LacksLater(cfg, evs, more, x, t, i)
  {
    hide Run, CodecOk, LacksLater, Lacking;
    if |Lacking(Run(cfg, evs), i)| < Quorum(cfg) {
      forall more, x, t ensures !LacksLater(cfg, evs, more, x, t, i) {
        if LacksLater(cfg, evs, more, x, t, i) {
          LackingElect(cfg, evs, more, x, t, i);
          assert false;
        }
      }
    } else {
      var more, x, t := ElectLacking(cfg, evs, i);
    }
  }

  /** Leader completeness: an entry that a majority committed is in the log of every later leader of
      a new term, as the same operation with the same timestamp. */
  lemma LeaderCompleteness(cfg: Config, evs: seq<Event>, more: seq<Event>, h: NodeId, x: NodeId, t: nat, i: nat)
    requires CodecOk(cfg.codec) && Indexed(cfg, evs) && Indexed(cfg, evs + more) && NewTerm(Run(cfg, evs), t)
    requires LeadsIn(Run(cfg, evs + more), x, t)
    requires |Run(cfg, evs).nodes.Keys - Lacking(Run(cfg, evs), i)| >= Quorum(cfg)
    requires h in Run(cfg, evs).nodes && i in Run(cfg, evs).nodes[h].committed
    ensures i in Run(cfg, evs + more).nodes[x].committed
    ensures Run(cfg, evs + more).nodes[x].committed[i] == Run(cfg, evs).nodes[h].committed[i]
  {
    hide Run, CodecOk, OnDisk, Fold;
    var c, c' := Run(cfg, evs), Run(cfg, evs + more);
    RunKeys(cfg, evs);
    RunKeys(cfg, evs + more);
    assert |Lacking(c, i)| < Quorum(cfg) by { FewLack(c.nodes.Keys, Lacking(c, i)); }
    if c'.nodes[x].commitIndex < i {
      LackingElect(cfg, evs, more, x, t, i);
      assert false;
    }
    NodesStayOk(cfg, evs, h);
    NodesStayOk(cfg, evs + more, x);
    CommitsArePermanent(cfg, evs, more, h);
    LogAgreement(cfg, evs + more, h, x, i);
  }

  lemma FewLack(ids: set<NodeId>, lack: set<NodeId>)
    requires lack <= ids && |ids - lack| >= |ids| / 2 + 1
    ensures |lack| < |ids| / 2 + 1
  {
    DisjointSize(lack, ids - lack);
    assert lack + (ids - lack) == ids;
  }

  // ----- a commit that a new leader does not have

  /** Node 1 commits on the acknowledgement of node 2, and nothing else arrives. */
  function HalfRound(op: WorkloadOp, now: u64): seq<Event> {
    FirstRound(op, now)[..3]
  }

  lemma HalfRoundState(cfg: Config, op: WorkloadOp, now: u64)
    requires cfg.ids == {1, 2, 3}
    ensures var c := Run(cfg, HalfRound(op, now));
      && c.nodes.Keys == cfg.ids && HoldsOne(c.nodes[1], Entry(op, now)) && Lacking(c, 1) == {2, 3}
      && c.nextLogIndex == 1
  {
    hide Run, StepCluster, HoldsOne;
    var evs := HalfRound(op, now);
    ThreeMore(cfg, [], evs);
    assert [] + evs == evs && [] + evs[..1] == evs[..1];
    RunsFromInit(cfg);
    ProposeSteps(cfg, op, now);
    var c1 := StepCluster(cfg, Init(cfg), evs[0]);
    var c2 := StepCluster(cfg, c1, evs[1]);
    LeaderSteps(cfg, c2, op, now);
    assert Run(cfg, evs).nodes[1].commitIndex == 1 by { OneHeld(Run(cfg, evs).nodes[1], Entry(op, now)); }
    assert c1.nextLogIndex == 1 by { FirstIndex(cfg, op); }
    KeepsCounter(cfg, c1, evs[1]);
    KeepsCounter(cfg, c2, evs[2]);
  }

  lemma OneHeld(n: Node, e: Entry)
    requires HoldsOne(n, e)
    ensures n.commitIndex == 1
  {
  }

  lemma FirstIndex(cfg: Config, op: WorkloadOp)
    requires cfg.ids == {1, 2, 3}
    ensures StepCluster(cfg, Init(cfg), ClientOp(1, op)).nextLogIndex == 1
  {
  }

  /** The first leader commits an operation; a continuation elects a leader that does not have it. */
  lemma LeaderMayMissCommit(cfg: Config, op: WorkloadOp, now: u64) returns (more: seq<Event>, x: NodeId, t: nat)
    requires CodecOk(cfg.codec) && cfg.ids == {1, 2, 3}
    ensures var c := Run(cfg, HalfRound(op, now)); 1 in c.nodes && HoldsOne(c.nodes[1], Entry(op, now))
    ensures LacksLater(cfg, HalfRound(op, now), more, x, t, 1)
  {
    hide Run, CodecOk, LacksLater, HoldsOne, HalfRound, Lacking;
    HalfRoundState(cfg, op, now);
    assert |{2, 3}| == 2 && |{1, 2, 3}| == 3;
    more, x, t := ElectLacking(cfg, HalfRound(op, now), 1);
  }
}
