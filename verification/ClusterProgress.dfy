/**
 What moves the log forward: exactly when a node commits, and what it then sends, votes for or
 hands over; how a node that lags catches up; and a first round of a three-node cluster.
 */
module ClusterProgress {
  import opened Prelude
  import opened WalRecord
  import opened ClusterTypes
  import opened ClusterSpec
  import opened ClusterDurability
  import opened ClusterAgreement
  import opened ClusterElection

  // ----- draining

  /** Index `i` has the same place in both nodes. */
  predicate SameAt(n: Node, m: Node, i: nat) {
    && (i in m.committed <==> i in n.committed) && (i in n.committed ==> m.committed[i] == n.committed[i])
    && (i in m.pending <==> i in n.pending) && (i in n.pending ==> m.pending[i] == n.pending[i])
    && (i in m.uncommitted <==> i in n.uncommitted) && (i in n.uncommitted ==> m.uncommitted[i] == n.uncommitted[i])
  }

  /** Index `i` went from the pending commits of `n` to the log of `m`. */
  predicate MovedAt(n: Node, m: Node, i: nat) {
    && i in n.pending && i in m.committed && m.committed[i] == n.pending[i]
    && i !in m.pending && i !in m.uncommitted
  }

  /** `d` committed the pending indexes of `n` that follow its log without a gap, and no others. */
  ghost predicate Drained(n: Node, d: Node) {
    && n.commitIndex <= d.commitIndex && d.commitIndex + 1 !in d.pending
    && (forall i: nat :: n.commitIndex < i <= d.commitIndex ==> MovedAt(n, d, i))
    && (forall i: nat :: !(n.commitIndex < i <= d.commitIndex) ==> SameAt(n, d, i))
  }

  lemma DrainedAt(m: Node, d: Node, i: nat)
    requires Drained(m, d)
    ensures if m.commitIndex < i <= d.commitIndex then MovedAt(m, d, i) else SameAt(m, d, i)
  {
  }

  lemma DrainedThrough(n: Node, m: Node, d: Node)
    requires m.commitIndex == n.commitIndex + 1 && MovedAt(n, m, m.commitIndex) && Drained(m, d)
    requires forall i: nat :: i != m.commitIndex ==> SameAt(n, m, i)
    ensures Drained(n, d)
  {
    forall i: nat | n.commitIndex < i <= d.commitIndex ensures MovedAt(n, d, i) {
      if i == m.commitIndex { assert SameAt(m, d, i); } else { assert SameAt(n, m, i) && MovedAt(m, d, i); }
    }
    forall i: nat | !(n.commitIndex < i <= d.commitIndex) ensures SameAt(n, d, i) {
      assert SameAt(n, m, i) && SameAt(m, d, i);
    }
  }

  lemma {:induction false} DrainIsExact(cfg: Config, n: Node)
    ensures Drained(n, Drain(cfg, n)) && SameElection(n, Drain(cfg, n))
    decreases |n.pending|
  {
    hide DrainOne, Drained, SameAt, MovedAt;
    if n.commitIndex + 1 in n.pending {
      var m := DrainOne(cfg, n, n.commitIndex + 1);
      DrainOneMoves(cfg, n);
      DrainIsExact(cfg, m);
      DrainedThrough(n, m, Drain(cfg, m));
    } else {
      DrainedAlready(n);
    }
  }

  lemma DrainedAlready(n: Node)
    requires n.commitIndex + 1 !in n.pending
    ensures Drained(n, n)
  {
  }

  lemma DrainOneMoves(cfg: Config, n: Node)
    requires n.commitIndex + 1 in n.pending
    ensures var m := DrainOne(cfg, n, n.commitIndex + 1);
      && m.commitIndex == n.commitIndex + 1 && MovedAt(n, m, m.commitIndex) && SameElection(n, m)
      && forall i: nat :: i != m.commitIndex ==> SameAt(n, m, i)
  {
    hide ApplyOp;
    var i := n.commitIndex + 1;
    ApplyOpShape(cfg, n.(pending := n.pending - {i}), i, n.pending[i]);
  }

  // ----- at rest

  /** Nothing committed lies beyond the commit index, and the next index is not waiting. */
  ghost predicate AtRest(n: Node) {
    (forall i :: i in n.committed ==> i <= n.commitIndex) && n.commitIndex + 1 !in n.pending
  }

  lemma DrainRests(n: Node, m: Node, d: Node)
    requires AtRest(n) && SameLog(n, m.(pending := n.pending)) && Drained(m, d)
    ensures AtRest(d)
  {
    forall i | i in d.committed ensures i <= d.commitIndex {
      DrainedAt(m, d, i);
    }
  }

  /** `d` is reached from `n` by making `source` the pending commits, in `m`, and draining them. */
  ghost predicate DrainsFrom(n: Node, m: Node, d: Node, source: map<nat, Entry>) {
    SameLog(n, m.(pending := n.pending)) && m.pending == source && Drained(m, d)
  }

  /** How a reaction treats the log: not at all, or by draining what the message adds. */
  lemma ReactDrains(cfg: Config, n: Node, src: NodeId, msg: Message, now: u64)
    ensures var d := React(cfg, n, src, msg, now).node;
      SameLog(n, d) || exists m: Node :: DrainsFrom(n, m, d, SourceOf(cfg, n, msg, now))
  {
    hide OnAck, OnCommit, OnCatchupResponse, OnPropose, OnRequestVote, OnVoteGranted, OnHeartbeat,
         OnCatchupRequest, Drained, Drain, DrainsFrom;
    if Quiet(cfg, n, msg) {
      QuietReaction(cfg, n, src, msg, now);
    } else {
      match msg
      case Ack(from, term, index) => var _ := AckDrains(cfg, n, from, term, index, now);
      case Commit(term, index, e) =>
        var m := CommitDrains(cfg, n, term, index, e);
        assert DrainsFrom(n, m, OnCommit(cfg, n, term, index, e).node, SourceOf(cfg, n, msg, now));
      case CatchupResponse(_, entries) =>
        var m := CatchupDrains(cfg, n, entries);
        assert DrainsFrom(n, m, OnCatchupResponse(cfg, n, entries).node, SourceOf(cfg, n, msg, now));
    }
  }

  lemma AckDrains(cfg: Config, n: Node, from: NodeId, term: nat, index: nat, now: u64) returns (m: Node)
    requires Commits(cfg, n, from, term, index)
    ensures DrainsFrom(n, m, OnAck(cfg, n, from, term, index, now).node, SourceOf(cfg, n, Ack(from, term, index), now))
  {
    hide Drain, Drained;
    var prop := n.uncommitted[index];
    m := n.(uncommitted := n.uncommitted[index := Proposal(prop.op, prop.acks + {from})],
            pending := n.pending[index := Entry(prop.op, now)]);
    DrainIsExact(cfg, m);
  }

  lemma CommitDrains(cfg: Config, n: Node, term: nat, index: nat, e: Entry) returns (m: Node)
    requires term >= n.term && index !in n.committed
    ensures DrainsFrom(n, m, OnCommit(cfg, n, term, index, e).node, n.pending[index := e])
  {
    hide Drain, Drained;
    m := Observe(n, term).(pending := n.pending[index := e]);
    DrainIsExact(cfg, m);
  }

  lemma CatchupDrains(cfg: Config, n: Node, entries: map<nat, Entry>) returns (m: Node)
    ensures DrainsFrom(n, m, OnCatchupResponse(cfg, n, entries).node, n.pending + NotCommitted(n.committed, entries))
  {
    hide Drain, Drained;
    m := n.(pending := n.pending + NotCommitted(n.committed, entries));
    DrainIsExact(cfg, m);
  }

  lemma ReactRests(cfg: Config, n: Node, src: NodeId, msg: Message, now: u64)
    requires AtRest(n)
    ensures AtRest(React(cfg, n, src, msg, now).node)
  {
    hide React, SourceOf, Drained, AtRest;
    ReactDrains(cfg, n, src, msg, now);
    var d := React(cfg, n, src, msg, now).node;
    if SameLog(n, d) {
      SameLogRests(n, d);
    } else {
      var m: Node :| DrainsFrom(n, m, d, SourceOf(cfg, n, msg, now));
      DrainRests(n, m, d);
    }
  }

  lemma SameLogRests(n: Node, m: Node)
    requires AtRest(n) && SameLog(n, m)
    ensures AtRest(m)
  {
  }

  lemma {:induction false} ReapplyRests(cfg: Config, n: Node, b: Bytes, valid: nat)
    requires AtRest(n) && n.pending == map[]
    ensures var m := Reapply(cfg, n, b, valid).0; AtRest(m) && m.pending == map[]
    decreases |b|
  {
    hide Next, ApplyWorkload;
    var step := Next(b, DEFAULT_MAX_PAYLOAD_LEN, true);
    if step.Record? && cfg.codec.decode(step.payload.value).Some? {
      var w := cfg.codec.decode(step.payload.value).value;
      ReapplyRests(cfg, ApplyInMemory(n, w.index, w.entry), b[FrameLen(step.len)..], valid + FrameLen(step.len));
    }
  }

  lemma RebootRests(cfg: Config, n: Node)
    ensures AtRest(RebootNode(cfg, n).node)
  {
    hide Reapply;
    ReapplyRests(cfg, Wiped(cfg, n), n.disk.flushed, 0);
  }

  ghost predicate AllAtRest(c: Cluster) {
    forall id :: id in c.nodes ==> AtRest(c.nodes[id])
  }

  lemma StepRests(cfg: Config, c: Cluster, ev: Event)
    requires AllAtRest(c)
    ensures AllAtRest(StepCluster(cfg, c, ev))
  {
    hide React, RebootNode, Broadcast;
    match ev
    case Deliver(p, now) =>
      if p in c.sent && Alive(c, p.dst) { ReactRests(cfg, c.nodes[p.dst], p.src, p.msg, now); }
    case RebootEvent(id) => if id in c.nodes { RebootRests(cfg, c.nodes[id]); }
    case _ =>
  }

  /** In every run, with any codec, a node at rest has nothing it could still commit by itself. */
  lemma {:induction false} RunsRest(cfg: Config, evs: seq<Event>)
    ensures AllAtRest(Run(cfg, evs))
    decreases |evs|
  {
    hide StepCluster;
    if evs != [] {
      RunsRest(cfg, evs[..|evs| - 1]);
      StepRests(cfg, Run(cfg, evs[..|evs| - 1]), evs[|evs| - 1]);
    }
  }

  // ----- exactly when a node commits

  /** An acknowledgement by `from` completes a quorum for the index that is next in the leader's log. */
  predicate Completes(cfg: Config, n: Node, from: NodeId, term: nat, index: nat) {
    && n.isLeader && n.term == term && index in n.uncommitted && index == n.commitIndex + 1
    && |n.uncommitted[index].acks + {from}| >= |cfg.ids| / 2 + 1
  }

  /** `m` committed `e` as the entry after the log of `n`, and is done with that index. */
  predicate TookNext(n: Node, m: Node, e: Entry) {
    var i := n.commitIndex + 1;
    && i <= m.commitIndex && i in m.committed && m.committed[i] == e
    && i !in m.pending && i !in m.uncommitted
    && (i + 1 !in n.pending ==> m.commitIndex == i)
  }

  lemma DrainTakesNext(n: Node, m: Node, d: Node, e: Entry)
    requires AtRest(n) && m.commitIndex == n.commitIndex && Drained(m, d)
    requires m.pending == n.pending[n.commitIndex + 1 := e]
    ensures TookNext(n, d, e)
  {
    var i := n.commitIndex + 1;
    DrainedAt(m, d, i);
    DrainedAt(m, d, i + 1);
  }

  /** Draining without the next index moves nothing. */
  lemma DrainWaits(m: Node, d: Node)
    requires Drained(m, d) && m.commitIndex + 1 !in m.pending
    ensures d.commitIndex == m.commitIndex
  {
    DrainedAt(m, d, m.commitIndex + 1);
  }

  /** A leader's log grows on an acknowledgement if and only if it completes the quorum of the next
      index; the entry is the proposed operation with the time of that moment. */
  lemma AckCommitsIff(cfg: Config, n: Node, src: NodeId, from: NodeId, term: nat, index: nat, now: u64)
    requires AtRest(n)
    ensures var m := React(cfg, n, src, Ack(from, term, index), now).node;
      && (m.commitIndex > n.commitIndex <==> Completes(cfg, n, from, term, index))
      && (Completes(cfg, n, from, term, index) ==> TookNext(n, m, Entry(n.uncommitted[index].op, now)))
  {
    hide Drained, OnAck;
    var d := React(cfg, n, src, Ack(from, term, index), now).node;
    if Commits(cfg, n, from, term, index) {
      var m := AckDrains(cfg, n, from, term, index, now);
      if index == n.commitIndex + 1 {
        DrainTakesNext(n, m, d, Entry(n.uncommitted[index].op, now));
      } else {
        DrainWaits(m, d);
      }
    } else {
      QuietAck(cfg, n, from, term, index, now);
    }
  }

  /** What an acknowledgement makes a node send: to every peer, each entry it newly committed. */
  lemma AckAnnounces(cfg: Config, n: Node, src: NodeId, from: NodeId, term: nat, index: nat, now: u64)
    ensures var r := React(cfg, n, src, Ack(from, term, index), now);
      && (forall p, i: nat :: p in cfg.ids && p != n.id && n.commitIndex < i <= r.node.commitIndex ==>
            i in r.node.committed && Packet(n.id, p, Commit(term, i, r.node.committed[i])) in r.out)
      && (forall q :: q in r.out ==>
            && q.src == n.id && q.dst in cfg.ids && q.dst != n.id && q.msg.Commit? && q.msg.term == term
            && n.commitIndex < q.msg.index <= r.node.commitIndex
            && q.msg.index in r.node.committed && q.msg.entry == r.node.committed[q.msg.index])
  {
    hide Drain;
    var r := React(cfg, n, src, Ack(from, term, index), now);
    if Commits(cfg, n, from, term, index) {
      var m := AckDrains(cfg, n, from, term, index, now);
      assert r.out == Announce(cfg, n, r.node, term);
      forall p, i: nat | p in cfg.ids && p != n.id && n.commitIndex < i <= r.node.commitIndex
        ensures i in r.node.committed && Packet(n.id, p, Commit(term, i, r.node.committed[i])) in r.out
      {
        DrainedAt(m, r.node, i);
        assert p in cfg.ids - {n.id} && i in r.node.committed;
      }
    } else {
      QuietAck(cfg, n, from, term, index, now);
    }
  }

  /** A follower's log grows on a commit message if and only if it is not from an older term and
      carries the next index. */
  lemma CommitAdvancesIff(cfg: Config, n: Node, src: NodeId, term: nat, index: nat, e: Entry, now: u64)
    requires AtRest(n)
    ensures var m := React(cfg, n, src, Commit(term, index, e), now).node;
      && (m.commitIndex > n.commitIndex <==> term >= n.term && index == n.commitIndex + 1)
      && (m.commitIndex > n.commitIndex ==> TookNext(n, m, e))
  {
    hide Drained, OnCommit;
    var d := React(cfg, n, src, Commit(term, index, e), now).node;
    if term < n.term || index in n.committed {
      QuietCommit(cfg, n, term, index, e);
    } else {
      var m := CommitDrains(cfg, n, term, index, e);
      if index == n.commitIndex + 1 { DrainTakesNext(n, m, d, e); } else { DrainWaits(m, d); }
    }
  }

  /** A commit that arrives early is kept, and nothing is committed yet. */
  lemma EarlyCommitWaits(cfg: Config, n: Node, src: NodeId, term: nat, index: nat, e: Entry, now: u64)
    requires AtRest(n) && term >= n.term && index > n.commitIndex + 1
    ensures var m := React(cfg, n, src, Commit(term, index, e), now).node;
      && m.commitIndex == n.commitIndex && m.committed == n.committed
      && index in m.pending && m.pending[index] == e
  {
    hide Drained, OnCommit;
    var d := React(cfg, n, src, Commit(term, index, e), now).node;
    var m := CommitDrains(cfg, n, term, index, e);
    DrainWaits(m, d);
    DrainedAt(m, d, index);
    forall i: nat ensures i in d.committed <==> i in m.committed {
      DrainedAt(m, d, i);
    }
    forall i | i in m.committed ensures d.committed[i] == m.committed[i] {
      DrainedAt(m, d, i);
    }
    assert d.committed == m.committed;
  }

  /** Catching up: the log grows if and only if the answer carries the next index, and then takes
      every entry of the answer up to its first gap. */
  lemma CatchupAdvancesIff(cfg: Config, n: Node, src: NodeId, responder: NodeId, entries: map<nat, Entry>, now: u64,
                           k: nat)
    requires AtRest(n) && (forall i: nat :: n.commitIndex < i <= k ==> i in entries)
    ensures var m := React(cfg, n, src, CatchupResponse(responder, entries), now).node;
      && (m.commitIndex > n.commitIndex <==> n.commitIndex + 1 in entries)
      && (k > n.commitIndex ==> m.commitIndex >= k)
      && (forall i: nat :: n.commitIndex < i <= m.commitIndex && i in entries ==>
            i in m.committed && m.committed[i] == entries[i])
  {
    hide Drained, OnCatchupResponse;
    var d := React(cfg, n, src, CatchupResponse(responder, entries), now).node;
    var m := CatchupDrains(cfg, n, entries);
    assert m.commitIndex == n.commitIndex;
    assert m.commitIndex <= d.commitIndex && d.commitIndex + 1 !in d.pending by { DrainedEnd(m, d); }
    forall i: nat | n.commitIndex < i <= d.commitIndex && i in entries
      ensures i in d.committed && d.committed[i] == entries[i]
    {
      DrainedAt(m, d, i);
    }
    DrainedAt(m, d, d.commitIndex + 1);
    if d.commitIndex > n.commitIndex { DrainedAt(m, d, n.commitIndex + 1); }
  }

  lemma DrainedEnd(m: Node, d: Node)
    requires Drained(m, d)
    ensures m.commitIndex <= d.commitIndex && d.commitIndex + 1 !in d.pending
  {
  }

  /** In every run: a leader that holds a quorum for its next index commits it, at that moment and
      only then, and announces it to every peer. */
  lemma QuorumCommits(cfg: Config, evs: seq<Event>, p: Packet, now: u64)
    requires p in Run(cfg, evs).sent && Alive(Run(cfg, evs), p.dst) && p.msg.Ack?
    ensures var c, c' := Run(cfg, evs), Run(cfg, evs + [Deliver(p, now)]);
      var n, done := c.nodes[p.dst], Completes(cfg, c.nodes[p.dst], p.msg.ackFrom, p.msg.term, p.msg.index);
      && p.dst in c'.nodes && (c'.nodes[p.dst].commitIndex > n.commitIndex <==> done)
      && (done ==>
            var e := Entry(n.uncommitted[p.msg.index].op, now);
            && TookNext(n, c'.nodes[p.dst], e)
            && forall q :: q in cfg.ids && q != n.id ==> Packet(n.id, q, Commit(n.term, p.msg.index, e)) in c'.sent)
  {
    hide Run, React, AtRest;
    var n := Run(cfg, evs).nodes[p.dst];
    RunOneMore(cfg, evs, Deliver(p, now));
    RunsRest(cfg, evs);
    AckCommitsIff(cfg, n, p.src, p.msg.ackFrom, p.msg.term, p.msg.index, now);
    AckAnnounces(cfg, n, p.src, p.msg.ackFrom, p.msg.term, p.msg.index, now);
  }

  // ----- votes and hand-overs

  /** What a request may claim about the log of the node it names. */
  ghost predicate ClaimOk(c: Cluster, p: Packet) {
    match p.msg
    case RequestVote(term, candidate, last) =>
      candidate in c.nodes && term <= c.nodes[candidate].term && last <= c.nodes[candidate].commitIndex
    case Heartbeat(term, leader, k) =>
      leader in c.nodes && term <= c.nodes[leader].term && k <= c.nodes[leader].commitIndex
    case _ => true
  }

  ghost predicate ClaimsOk(c: Cluster) {
    forall p :: p in c.sent ==> ClaimOk(c, p)
  }

  lemma NewClaims(cfg: Config, n: Node, src: NodeId, msg: Message, now: u64)
    ensures var r := React(cfg, n, src, msg, now);
      forall p :: p in r.out ==>
        !p.msg.RequestVote? && (p.msg.Heartbeat? ==> p.msg == Heartbeat(r.node.term, n.id, r.node.commitIndex))
  {
    hide Drain;
  }

  lemma TermsGrow(cfg: Config, c: Cluster, ev: Event, id: NodeId)
    requires id in c.nodes
    ensures id in StepCluster(cfg, c, ev).nodes && c.nodes[id].term <= StepCluster(cfg, c, ev).nodes[id].term
  {
    hide React, RebootNode, Broadcast;
    match ev
    case Deliver(p, now) =>
      if p in c.sent && Alive(c, p.dst) { ReactTerm(cfg, c.nodes[p.dst], p.src, p.msg, now); }
    case RebootEvent(x) => if x in c.nodes { RebootForgets(cfg, c.nodes[x]); }
    case _ =>
  }

  lemma ReactTerm(cfg: Config, n: Node, src: NodeId, msg: Message, now: u64)
    ensures n.term <= React(cfg, n, src, msg, now).node.term
  {
    hide Drain, Broadcast, OnAck, OnCommit, OnCatchupResponse;
    if !msg.RequestVote? && !msg.VoteGranted? { LogMessagesPassive(cfg, n, src, msg, now); }
  }

  lemma ClaimStays(cfg: Config, c: Cluster, ev: Event, p: Packet)
    requires CodecOk(cfg.codec) && Agreeing(cfg, c) && c.nextLogIndex < U64_LIMIT && ClaimOk(c, p)
    ensures ClaimOk(StepCluster(cfg, c, ev), p)
  {
    hide StepCluster, Agreeing, CodecOk;
    if p.msg.RequestVote? {
      StepExtendsLogs(cfg, c, ev, p.msg.candidate);
      TermsGrow(cfg, c, ev, p.msg.candidate);
    } else if p.msg.Heartbeat? {
      StepExtendsLogs(cfg, c, ev, p.msg.leader);
      TermsGrow(cfg, c, ev, p.msg.leader);
    }
  }

  lemma StepClaims(cfg: Config, c: Cluster, ev: Event)
    requires CodecOk(cfg.codec) && Agreeing(cfg, c) && c.nextLogIndex < U64_LIMIT && ClaimsOk(c)
    ensures ClaimsOk(StepCluster(cfg, c, ev))
  {
    hide CodecOk;
    var c' := StepCluster(cfg, c, ev);
    forall p | p in c'.sent ensures ClaimOk(c', p) {
      if p in c.sent { ClaimStays(cfg, c, ev, p); } else { FreshClaim(cfg, c, ev, p); }
    }
  }

  lemma FreshClaim(cfg: Config, c: Cluster, ev: Event, p: Packet)
    requires NodesOk(cfg, c) && p in StepCluster(cfg, c, ev).sent && p !in c.sent
    ensures ClaimOk(StepCluster(cfg, c, ev), p)
  {
    hide React, RecoverNode, NodeOk;
    match ev
    case Deliver(q, now) =>
      if q in c.sent && Alive(c, q.dst) {
        NewClaims(cfg, c.nodes[q.dst], q.src, q.msg, now);
        ReactKeepsId(cfg, c.nodes[q.dst], q.src, q.msg, now);
      }
    case _ =>
  }

  lemma ReactKeepsId(cfg: Config, n: Node, src: NodeId, msg: Message, now: u64)
    ensures React(cfg, n, src, msg, now).node.id == n.id
  {
    hide Drain, Broadcast, OnAck, OnCommit, OnCatchupResponse;
    if !msg.RequestVote? && !msg.VoteGranted? { LogMessagesPassive(cfg, n, src, msg, now); }
  }

  lemma {:induction false} RunsClaim(cfg: Config, evs: seq<Event>)
    requires CodecOk(cfg.codec) && Indexed(cfg, evs)
    ensures ClaimsOk(Run(cfg, evs))
    decreases |evs|
  {
    hide StepCluster, CodecOk, Agreeing;
    if evs != [] {
      var before := evs[..|evs| - 1];
      IndexesGrow(cfg, evs);
      RunsClaim(cfg, before);
      RunsAgree(cfg, before);
      StepClaims(cfg, Run(cfg, before), evs[|evs| - 1]);
    }
  }

  /** When a node gives its vote, as the source states the rule: a term that is not older, no vote
      for another in that term, and a candidate whose log is not behind. */
  predicate MayVote(n: Node, term: nat, candidate: NodeId, last: nat) {
    && last >= n.commitIndex
    && (term > n.term || (term == n.term && (n.votedFor.None? || n.votedFor == Some(candidate))))
  }

  lemma VotesIff(n: Node, term: nat, candidate: NodeId, last: nat)
    ensures var r := OnRequestVote(n, term, candidate, last);
      if MayVote(n, term, candidate, last)
      then r.out == {Packet(n.id, candidate, VoteGranted(n.id, term))} && r.node.votedFor == Some(candidate)
        && r.node.term == term
      else r.out == {}
  {
  }

  /** Two logs of one run where one is at least as long as the other: the longer holds the shorter. */
  lemma LongerLogHolds(cfg: Config, evs: seq<Event>, a: NodeId, b: NodeId)
    requires CodecOk(cfg.codec) && Indexed(cfg, evs) && a in cfg.ids && b in cfg.ids
    requires var c := Run(cfg, evs);
      a in c.nodes && b in c.nodes && c.nodes[a].commitIndex <= c.nodes[b].commitIndex
    ensures var c := Run(cfg, evs); LogExtends(c.nodes[a], c.nodes[b])
    ensures var c := Run(cfg, evs);
      c.nodes[a].commitIndex == c.nodes[b].commitIndex ==> c.nodes[a].ledger == c.nodes[b].ledger
  {
    hide CodecOk, Run, OnDisk, Fold;
    var c := Run(cfg, evs);
    NodesStayOk(cfg, evs, a);
    NodesStayOk(cfg, evs, b);
    forall i | i in c.nodes[a].committed
      ensures i in c.nodes[b].committed && c.nodes[b].committed[i] == c.nodes[a].committed[i]
    {
      LogAgreement(cfg, evs, a, b, i);
    }
    FoldAgrees(cfg.genesis, c.nodes[a].committed, c.nodes[b].committed, c.nodes[a].commitIndex);
  }

  /** In every run a vote is given exactly by the rule, and the candidate then holds every entry the
      voter committed. */
  lemma VotersAreCovered(cfg: Config, evs: seq<Event>, p: Packet, now: u64)
    requires CodecOk(cfg.codec) && Indexed(cfg, evs)
    requires p in Run(cfg, evs).sent && Alive(Run(cfg, evs), p.dst) && p.msg.RequestVote?
    ensures var c := Run(cfg, evs);
      var n, a, r := c.nodes[p.dst], p.msg.candidate, React(cfg, c.nodes[p.dst], p.src, p.msg, now);
      && (r.out != {} <==> MayVote(n, p.msg.term, a, p.msg.lastIndex))
      && (r.out != {} ==> r.out == {Packet(n.id, a, VoteGranted(n.id, p.msg.term))})
      && (r.out != {} ==> a in c.nodes && p.msg.term <= c.nodes[a].term && LogExtends(n, c.nodes[a]))
  {
    hide CodecOk, Run, NodeOk, OwnedBy;
    var c := Run(cfg, evs);
    var n, a := c.nodes[p.dst], p.msg.candidate;
    VotesIff(n, p.msg.term, a, p.msg.lastIndex);
    RunsClaim(cfg, evs);
    RunsAgree(cfg, evs);
    assert ClaimOk(c, p);
    if MayVote(n, p.msg.term, a, p.msg.lastIndex) { LongerLogHolds(cfg, evs, p.dst, a); }
  }

  /** A node that hears of a longer log in a term that is not older asks its leader for the rest. */
  lemma HeartbeatAsksIff(n: Node, term: nat, leader: NodeId, k: nat)
    ensures var r := OnHeartbeat(n, term, leader, k);
      r.out == if term >= n.term && k > n.commitIndex
               then {Packet(n.id, leader, CatchupRequest(n.id, n.commitIndex))} else {}
  {
  }

  /** A node asked for what follows `last` answers if and only if its log is longer, with exactly
      the entries after `last`. */
  lemma AnswersIff(cfg: Config, n: Node, requester: NodeId, last: nat)
    requires NodeOk(cfg, n)
    ensures var r := OnCatchupRequest(n, requester, last);
      && (r.out != {} <==> last < n.commitIndex)
      && (r.out != {} ==>
            var entries := EntriesAfter(n.committed, last);
            && r.out == {Packet(n.id, requester, CatchupResponse(n.id, entries))}
            && (forall i: nat :: i in entries <==> last < i <= n.commitIndex)
            && (forall i: nat :: i in entries ==> entries[i] == n.committed[i]))
  {
    hide OnDisk, Fold;
    var entries := EntriesAfter(n.committed, last);
    if last < n.commitIndex { assert n.commitIndex in entries; }
  }

  // ----- catching up

  /** The four steps of catching up: a heartbeat, its delivery, the request and the answer. */
  function CatchUp(a: Node, f: Node, now: u64): seq<Event> {
    [HeartbeatTick(a.id),
     Deliver(Packet(a.id, f.id, Heartbeat(a.term, a.id, a.commitIndex)), now),
     Deliver(Packet(f.id, a.id, CatchupRequest(f.id, f.commitIndex)), now),
     Deliver(Packet(a.id, f.id, CatchupResponse(a.id, EntriesAfter(a.committed, f.commitIndex))), now)]
  }

  /** `a` and `f` are up, and `f` has the shorter log. */
  ghost predicate Behind(cfg: Config, c: Cluster, a: NodeId, f: NodeId) {
    && a in cfg.ids && f in cfg.ids && a != f && Alive(c, a) && Alive(c, f)
    && c.nodes[f].commitIndex < c.nodes[a].commitIndex
  }

  /** Besides, `a` leads in a term `f` is not ahead of. */
  ghost predicate Lags(cfg: Config, c: Cluster, a: NodeId, f: NodeId) {
    Behind(cfg, c, a, f) && c.nodes[a].role == Leader && c.nodes[f].term <= c.nodes[a].term
  }

  lemma AskSteps(cfg: Config, c: Cluster, a: NodeId, f: NodeId, now: u64)
    requires NodesOk(cfg, c) && Lags(cfg, c, a, f)
    ensures var evs := CatchUp(c.nodes[a], c.nodes[f], now);
      var c2 := StepCluster(cfg, StepCluster(cfg, c, evs[0]), evs[1]);
      && Touches(c, c2, f) && SameLog(c.nodes[f], c2.nodes[f])
      && Packet(f, a, CatchupRequest(f, c.nodes[f].commitIndex)) in c2.sent
  {
    hide NodeOk, OnHeartbeat;
    var evs := CatchUp(c.nodes[a], c.nodes[f], now);
    var c1 := StepCluster(cfg, c, evs[0]);
    var n := c.nodes[f];
    assert c1.nodes[a] == c.nodes[a] && c1.nodes == c.nodes;
    assert evs[1].packet in c1.sent by { assert f in cfg.ids - {a}; }
    HeartbeatAsksIff(n, c.nodes[a].term, a, c.nodes[a].commitIndex);
    QuietHeartbeat(n, c.nodes[a].term, a, c.nodes[a].commitIndex);
  }

  lemma AnswerSteps(cfg: Config, c: Cluster, c2: Cluster, a: NodeId, f: NodeId, now: u64)
    requires NodesOk(cfg, c) && Behind(cfg, c, a, f) && Touches(c, c2, f) && SameLog(c.nodes[f], c2.nodes[f])
    requires Packet(f, a, CatchupRequest(f, c.nodes[f].commitIndex)) in c2.sent
    ensures var evs := CatchUp(c.nodes[a], c.nodes[f], now);
      var c3 := StepCluster(cfg, c2, evs[2]);
      && c3.nodes == c2.nodes && c2.sent <= c3.sent && evs[3].packet in c3.sent
  {
    hide NodeOk, OnCatchupRequest;
    AnswersIff(cfg, c.nodes[a], f, c.nodes[f].commitIndex);
    assert OnCatchupRequest(c.nodes[a], f, c.nodes[f].commitIndex).node == c.nodes[a] by {
      QuietAnswer(c.nodes[a], f, c.nodes[f].commitIndex);
    }
    assert c2.nodes[a := c.nodes[a]] == c2.nodes;
  }

  lemma QuietAnswer(n: Node, requester: NodeId, last: nat)
    ensures OnCatchupRequest(n, requester, last).node == n
  {
  }

  lemma TakeSteps(cfg: Config, c: Cluster, c3: Cluster, a: NodeId, f: NodeId, now: u64)
    requires NodesOk(cfg, c) && Behind(cfg, c, a, f) && Touches(c, c3, f) && SameLog(c.nodes[f], c3.nodes[f])
    requires AtRest(c.nodes[f]) && CatchUp(c.nodes[a], c.nodes[f], now)[3].packet in c3.sent
    ensures var c4 := StepCluster(cfg, c3, CatchUp(c.nodes[a], c.nodes[f], now)[3]);
      Touches(c, c4, f) && c4.nodes[f].active && c4.nodes[f].commitIndex >= c.nodes[a].commitIndex
  {
    hide OnCatchupResponse, NodeOk;
    var entries := EntriesAfter(c.nodes[a].committed, c.nodes[f].commitIndex);
    AnswersIff(cfg, c.nodes[a], f, c.nodes[f].commitIndex);
    assert AtRest(c3.nodes[f]);
    CatchupAdvancesIff(cfg, c3.nodes[f], a, a, entries, now, c.nodes[a].commitIndex);
    CatchupElection(cfg, c3.nodes[f], entries);
  }

  /** In every run, a live node that lags behind a live leader of a term it is not ahead of reaches
      the leader's commit index in four steps, with the leader's entries, and the same ledger when
      it stops there. */
  lemma LaggardCatchesUp(cfg: Config, evs: seq<Event>, a: NodeId, f: NodeId, now: u64)
    requires CodecOk(cfg.codec) && Indexed(cfg, evs) && Lags(cfg, Run(cfg, evs), a, f)
    ensures var c := Run(cfg, evs);
      var c' := Run(cfg, evs + CatchUp(c.nodes[a], c.nodes[f], now));
      && Touches(c, c', f) && LogExtends(c.nodes[a], c'.nodes[f])
      && (c'.nodes[f].commitIndex == c.nodes[a].commitIndex ==> c'.nodes[f].ledger == c.nodes[a].ledger)
  {
    hide CodecOk, Run, NodeOk, OwnedBy, StepCluster, AtRest;
    var c := Run(cfg, evs);
    var more := CatchUp(c.nodes[a], c.nodes[f], now);
    RunsAgree(cfg, evs);
    RunsRest(cfg, evs);
    FourMore(cfg, evs, more);
    var c1 := StepCluster(cfg, c, more[0]);
    var c2 := StepCluster(cfg, c1, more[1]);
    var c3 := StepCluster(cfg, c2, more[2]);
    AskSteps(cfg, c, a, f, now);
    AnswerSteps(cfg, c, c2, a, f, now);
    TakeSteps(cfg, c, c3, a, f, now);
    NoneProposed(cfg, evs, more);
    LongerLogHolds(cfg, evs + more, a, f);
  }

  /** The three steps of a node that comes back: the reboot, its request to `a` and the answer. */
  function ComeBack(a: Node, f: Node, now: u64): seq<Event> {
    [RebootEvent(f.id)] + CatchUp(a, f, now)[2..]
  }

  lemma RebootAsks(cfg: Config, c: Cluster, a: NodeId, f: NodeId)
    requires CodecOk(cfg.codec) && NodesOk(cfg, c) && a in cfg.ids && f in cfg.ids && a != f
    ensures var c' := StepCluster(cfg, c, RebootEvent(f));
      && Touches(c, c', f) && c'.nodes[f].active && c'.nodes[f].commitIndex == c.nodes[f].commitIndex
      && Packet(f, a, CatchupRequest(f, c.nodes[f].commitIndex)) in c'.sent
  {
    hide RecoverNode, CodecOk, NodeOk;
    RecoverExact(cfg, c.nodes[f]);
    assert a in cfg.ids - {f};
  }

  /** In every run a node that reboots, whatever its disk went through, reaches in three steps the
      commit index of any live node that is ahead of it. */
  lemma RebootCatchesUp(cfg: Config, evs: seq<Event>, a: NodeId, f: NodeId, now: u64)
    requires CodecOk(cfg.codec) && Indexed(cfg, evs) && a in cfg.ids && f in cfg.ids && a != f
    requires Alive(Run(cfg, evs), a) && f in Run(cfg, evs).nodes
    requires Run(cfg, evs).nodes[f].commitIndex < Run(cfg, evs).nodes[a].commitIndex
    ensures var c := Run(cfg, evs);
      var c' := Run(cfg, evs + ComeBack(c.nodes[a], c.nodes[f], now));
      && Touches(c, c', f) && c'.nodes[f].active && LogExtends(c.nodes[a], c'.nodes[f])
  {
    hide CodecOk, Run, NodeOk, OwnedBy, StepCluster, AtRest;
    var c := Run(cfg, evs);
    var more := ComeBack(c.nodes[a], c.nodes[f], now);
    RunsAgree(cfg, evs);
    RebootAsks(cfg, c, a, f);
    ThreeMore(cfg, evs, more);
    var evs1 := evs + more[..1];
    var c1 := Run(cfg, evs1);
    NoneProposed(cfg, evs, more[..1]);
    RunsAgree(cfg, evs1);
    RunsRest(cfg, evs1);
    AnswerSteps(cfg, c1, c1, a, f, now);
    TakeSteps(cfg, c1, StepCluster(cfg, c1, more[1]), a, f, now);
    NoneProposed(cfg, evs, more);
    LongerLogHolds(cfg, evs + more, a, f);
  }

  lemma ThreeMore(cfg: Config, evs: seq<Event>, more: seq<Event>)
    requires |more| == 3
    ensures Run(cfg, evs + more[..1]) == StepCluster(cfg, Run(cfg, evs), more[0])
    ensures Run(cfg, evs + more) ==
      StepCluster(cfg, StepCluster(cfg, Run(cfg, evs + more[..1]), more[1]), more[2])
  {
    hide Run, StepCluster;
    RunOneMore(cfg, evs, more[0]);
    RunOneMore(cfg, evs + more[..1], more[1]);
    RunOneMore(cfg, evs + more[..2], more[2]);
    assert evs + [more[0]] == evs + more[..1];
    assert evs + more[..1] + [more[1]] == evs + more[..2];
    assert evs + more[..2] + [more[2]] == evs + more;
  }

  lemma FourMore(cfg: Config, evs: seq<Event>, more: seq<Event>)
    requires |more| == 4
    ensures Run(cfg, evs + more) ==
      StepCluster(cfg, StepCluster(cfg, StepCluster(cfg, StepCluster(cfg, Run(cfg, evs), more[0]), more[1]), more[2]),
                  more[3])
  {
    hide Run, StepCluster;
    RunOneMore(cfg, evs, more[0]);
    RunOneMore(cfg, evs + more[..1], more[1]);
    RunOneMore(cfg, evs + more[..2], more[2]);
    RunOneMore(cfg, evs + more[..3], more[3]);
    assert evs + [more[0]] == evs + more[..1];
    assert evs + more[..1] + [more[1]] == evs + more[..2];
    assert evs + more[..2] + [more[2]] == evs + more[..3];
    assert evs + more[..3] + [more[3]] == evs + more;
  }

  lemma KeepsCounter(cfg: Config, c: Cluster, ev: Event)
    requires !ev.ClientOp?
    ensures StepCluster(cfg, c, ev).nextLogIndex == c.nextLogIndex
  {
    hide React, StartElection, Beat, CrashNode, RebootNode, Broadcast;
  }

  /** Events that propose nothing use up no index. */
  lemma {:induction false} NoneProposed(cfg: Config, evs: seq<Event>, more: seq<Event>)
    requires Indexed(cfg, evs) && NoClient(more)
    ensures Indexed(cfg, evs + more)
    decreases |more|
  {
    hide StepCluster;
    if more == [] {
      assert evs + more == evs;
    } else {
      var most := more[..|more| - 1];
      assert (evs + more)[..|evs + more| - 1] == evs + most;
      NoneProposed(cfg, evs, most);
      KeepsCounter(cfg, Run(cfg, evs + most), more[|more| - 1]);
    }
  }

  predicate NoClient(evs: seq<Event>) {
    forall k :: 0 <= k < |evs| ==> !evs[k].ClientOp?
  }

  // ----- a first round

  /** Node 1 proposes, node 2 acknowledges, node 1 commits and node 2 follows. */
  function FirstRound(op: WorkloadOp, now: u64): seq<Event> {
    [ClientOp(1, op), Deliver(Packet(1, 2, Propose(1, 1, op)), now), Deliver(Packet(2, 1, Ack(2, 1, 1)), now),
     Deliver(Packet(1, 2, Commit(1, 1, Entry(op, now))), now)]
  }

  lemma ProposeSteps(cfg: Config, op: WorkloadOp, now: u64)
    requires cfg.ids == {1, 2, 3}
    ensures var evs := FirstRound(op, now);
      var c2 := StepCluster(cfg, StepCluster(cfg, Init(cfg), evs[0]), evs[1]);
      && c2.nodes.Keys == cfg.ids && evs[2].packet in c2.sent
      && c2.nodes[1] == InitNode(cfg, 1).(uncommitted := map[1 := Proposal(op, {1})])
      && c2.nodes[2] == InitNode(cfg, 2).(uncommitted := map[1 := Proposal(op, {})])
      && c2.nodes[3] == InitNode(cfg, 3)
  {
    var evs := FirstRound(op, now);
    var c1 := StepCluster(cfg, Init(cfg), evs[0]);
    assert evs[1].packet in c1.sent by { assert 2 in cfg.ids - {1}; }
  }

  lemma LeaderSteps(cfg: Config, c: Cluster, op: WorkloadOp, now: u64)
    requires cfg.ids == {1, 2, 3} && 1 in c.nodes && Packet(2, 1, Ack(2, 1, 1)) in c.sent
    requires c.nodes[1] == InitNode(cfg, 1).(uncommitted := map[1 := Proposal(op, {1})])
    ensures var c' := StepCluster(cfg, c, Deliver(Packet(2, 1, Ack(2, 1, 1)), now));
      && Touches(c, c', 1) && HoldsOne(c'.nodes[1], Entry(op, now))
      && Packet(1, 2, Commit(1, 1, Entry(op, now))) in c'.sent
  {
    hide React;
    assert {1} + {2} == {1, 2};
    AckCommitsIff(cfg, c.nodes[1], 2, 2, 1, 1, now);
    AckAnnounces(cfg, c.nodes[1], 2, 2, 1, 1, now);
  }

  lemma FollowerSteps(cfg: Config, c: Cluster, op: WorkloadOp, now: u64)
    requires 2 in c.nodes && Packet(1, 2, Commit(1, 1, Entry(op, now))) in c.sent
    requires c.nodes[2] == InitNode(cfg, 2).(uncommitted := map[1 := Proposal(op, {})])
    ensures var c' := StepCluster(cfg, c, Deliver(Packet(1, 2, Commit(1, 1, Entry(op, now))), now));
      Touches(c, c', 2) && HoldsOne(c'.nodes[2], Entry(op, now))
  {
    hide React;
    CommitAdvancesIff(cfg, c.nodes[2], 1, 1, 1, Entry(op, now), now);
  }

  /** The node committed `e` at index 1, nothing after it, and waits for nothing there. */
  predicate HoldsOne(n: Node, e: Entry) {
    n.commitIndex == 1 && 1 in n.committed && n.committed[1] == e && 1 !in n.pending && 1 !in n.uncommitted
  }

  /** For every operation, a three-node cluster with node 3 silent commits it on nodes 1 and 2. */
  lemma FirstRoundCommits(cfg: Config, op: WorkloadOp, now: u64)
    requires cfg.ids == {1, 2, 3}
    ensures var c := Run(cfg, FirstRound(op, now));
      && c.nodes.Keys == cfg.ids && c.nodes[3] == InitNode(cfg, 3)
      && HoldsOne(c.nodes[1], Entry(op, now)) && HoldsOne(c.nodes[2], Entry(op, now))
  {
    hide Run, StepCluster, Init, InitNode, HoldsOne;
    var evs := FirstRound(op, now);
    FourMore(cfg, [], evs);
    assert [] + evs == evs;
    assert Run(cfg, []) == Init(cfg) by { RunsFromInit(cfg); }
    ProposeSteps(cfg, op, now);
    var c2 := StepCluster(cfg, StepCluster(cfg, Init(cfg), evs[0]), evs[1]);
    LeaderSteps(cfg, c2, op, now);
    FollowerSteps(cfg, StepCluster(cfg, c2, evs[2]), op, now);
  }

  lemma RunsFromInit(cfg: Config)
    ensures Run(cfg, []) == Init(cfg)
  {
  }
}
