/**
 The simulated cluster as the mutable object the source implements (simulator/src/cluster.rs):
 one heap object per node, each with its own ledger and disk. Every method is one or more steps of
 ClusterSpec, so what is proved of every run there holds of this object.
 */
module ClusterSim {
  import opened Prelude
  import LE = LedgerEngine
  import opened ClusterTypes
  import opened ClusterSpec
  import opened ClusterGenesis
  import opened ClusterNode
  import opened ClusterOracle
  import opened LedgerInvariant
  import opened ClusterAccounting
  import opened ClusterAgreement
  import opened ClusterElection

  class SimCluster {
    const setup: Setup
    var nodes: map<NodeId, SimNode>
    var nextLogIndex: nat
    var sent: set<Packet>
    /** Every event so far. */
    ghost var history: seq<Event>

    ghost function Ledgers(): set<LE.Ledger>
      reads this`nodes, nodes.Values
    {
      set a | a in nodes :: nodes[a].ledger
    }

    ghost function Disks(): set<SimDisk>
      reads this`nodes, nodes.Values
    {
      set a | a in nodes :: nodes[a].disk
    }

    /** No two nodes share any object. */
    ghost predicate Shape()
      reads this`nodes, nodes.Values
    {
      && SetupOk(setup)
      && nodes.Keys == setup.ids
      && (forall a :: a in nodes ==> nodes[a].setup == setup && nodes[a].id == a)
      && (forall a, b :: a in nodes && b in nodes && a != b ==> Apart(nodes[a], nodes[b]))
    }

    ghost function View(): Cluster
      reads this`nodes, this`nextLogIndex, this`sent, nodes.Values, Ledgers(), Disks()
    {
      Cluster(map a | a in nodes :: nodes[a].View(), nextLogIndex, sent)
    }

    /** The object is in the state its events lead to, so every theorem about runs is about it. */
    ghost predicate Valid()
      reads this, nodes.Values, Ledgers(), Disks()
    {
      Shape() && View() == Run(Cfg(), history)
    }

    ghost function Cfg(): Config
      requires SetupOk(setup)
    {
      ConfigOf(setup)
    }

    constructor (setup: Setup)
      requires SetupOk(setup)
      ensures Valid() && this.setup == setup && history == []
      ensures fresh(nodes.Values) && fresh(Ledgers()) && fresh(Disks())
    {
      hide Genesis, InitNode, SetupOk, SimNode.View;
      this.setup := setup;
      nextLogIndex := 0;
      sent := {};
      history := [];
      var booted := BootNodes(setup);
      nodes := booted;
      new;
      assert View().nodes == Init(Cfg()).nodes by {
        forall a | a in nodes ensures nodes[a].View() == InitNode(Cfg(), a) {
          assert Newborn(nodes[a], setup, a);
        }
      }
    }

    /** The same nodes; a ledger may have been replaced by a new one. */
    twostate predicate SameParts()
      reads this, nodes.Values
    {
      nodes == old(nodes)
      && forall a :: a in nodes ==> nodes[a].ledger == old(nodes[a].ledger) || fresh(nodes[a].ledger)
    }

    /** What the view says of one node. */
    lemma Look(id: NodeId)
      ensures View().sent == sent && View().nextLogIndex == nextLogIndex && (id in View().nodes <==> id in nodes)
      ensures id in nodes ==> View().nodes[id] == nodes[id].View()
      ensures id in nodes ==> View().nodes[id].active == nodes[id].active && View().nodes[id].role == nodes[id].role
      ensures id in nodes ==> View().nodes[id].isLeader == nodes[id].isLeader
    {
    }

    /** When only one node has changed and sent something, the view has changed by that reaction. */
    twostate lemma OnlyOneChanged(id: NodeId, new out: set<Packet>)
      requires old(Shape()) && nodes == old(nodes) && id in nodes && sent == old(sent) + out
      requires forall a :: a in nodes && a != id ==> Untouched(nodes[a])
      requires nodes[id].ledger == old(nodes[id].ledger) || fresh(nodes[id].ledger)
      ensures Shape() && SameParts()
      ensures View() == Effect(Cluster(old(View()).nodes, nextLogIndex, old(sent)), id, Reaction(nodes[id].View(), out))
    {
      hide SimNode.View, SetupOk;
      forall a | a in nodes && a != id ensures nodes[a].View() == old(nodes[a].View()) {
        assert Untouched(nodes[a]);
      }
    }

    /** When no node has changed, neither has its view. */
    twostate lemma NoneChanged()
      requires old(Shape()) && nodes == old(nodes) && nextLogIndex == old(nextLogIndex)
      requires forall a :: a in nodes ==> Untouched(nodes[a])
      ensures Shape() && SameParts()
      ensures View() == Cluster(old(View()).nodes, nextLogIndex, sent)
    {
      hide SimNode.View, SetupOk;
      forall a | a in nodes ensures nodes[a].View() == old(nodes[a].View()) {
        assert Untouched(nodes[a]);
      }
    }

    /** `process_packet`: a packet that was sent reaches its destination. */
    method Arrive(p: Packet, now: u64)
      requires Valid() && p in sent
      modifies this`history, this`sent, nodes.Values, Ledgers(), Disks()
      ensures Valid() && SameParts()
      ensures history == old(history) + [Deliver(p, now)]
    {
      hide SimNode.View, View, React, Effect, SetupOk, ConfigOf, Run;
      Look(p.dst);
      RunOneMore(Cfg(), history, Deliver(p, now));
      history := history + [Deliver(p, now)];
      if p.dst in nodes && nodes[p.dst].active {
        var out := nodes[p.dst].Handle(p.src, p.msg, now);
        sent := sent + out;
        OnlyOneChanged(p.dst, out);
      } else {
        NoneChanged();
      }
    }

    predicate Leads(a: NodeId)
      requires a in nodes
      reads this, nodes.Values
    {
      nodes[a].isLeader && nodes[a].active
    }

    /** The active leader with the lowest id. */
    method FindLeader() returns (leader: Option<NodeId>)
      ensures leader.None? ==> forall a :: a in nodes ==> !Leads(a)
      ensures leader.Some? ==> leader.value in nodes && Leads(leader.value)
      ensures leader.Some? ==> forall a :: a in nodes && Leads(a) ==> leader.value <= a
    {
      leader := None;
      var todo := nodes.Keys;
      while todo != {}
        invariant todo <= nodes.Keys
        invariant leader.None? ==> forall a :: a in nodes.Keys - todo ==> !Leads(a)
        invariant leader.Some? ==> leader.value in nodes && Leads(leader.value)
        invariant leader.Some? ==> forall a :: a in nodes.Keys - todo && Leads(a) ==> leader.value <= a
        decreases |todo|
      {
        var a :| a in todo;
        if Leads(a) && (leader.None? || a < leader.value) {
          leader := Some(a);
        }
        todo := todo - {a};
      }
    }

    /** `propose`: refused exactly when no node leads, otherwise a step at the lowest leader. */
    method ProposeOp(op: WorkloadOp) returns (at: Option<NodeId>)
      requires Valid()
      modifies this`history, this`sent, this`nextLogIndex, nodes.Values
      ensures Valid() && SameParts()
      ensures at.None? ==> forall a :: a in nodes ==> !old(Leads(a))
      ensures at.Some? ==> at.value in nodes && old(Leads(at.value))
      ensures at.Some? ==> forall a :: a in nodes && old(Leads(a)) ==> at.value <= a
      ensures history == old(history) + (if at.None? then [] else [ClientOp(at.value, op)])
    {
      hide SimNode.View, View, Run, SetupOk, ConfigOf;
      Look(0);
      at := FindLeader();
      NoneChanged();
      if at.Some? {
        ProposeAt(at.value, op);
      }
    }

    method ProposeAt(leader: NodeId, op: WorkloadOp)
      requires Valid() && leader in nodes && Leads(leader)
      modifies this`history, this`sent, this`nextLogIndex, nodes[leader]
      ensures Valid() && SameParts()
      ensures history == old(history) + [ClientOp(leader, op)]
    {
      hide SimNode.View, View, StartProposal, Effect, SetupOk, ConfigOf, Run;
      Look(leader);
      RunOneMore(Cfg(), history, ClientOp(leader, op));
      history := history + [ClientOp(leader, op)];
      var out := nodes[leader].BeginProposal(nextLogIndex + 1, op);
      nextLogIndex, sent := nextLogIndex + 1, sent + out;
      OnlyOneChanged(leader, out);
    }

    /** `trigger_election`, also what a node does when its election timer runs out. */
    method TriggerElection(id: NodeId)
      requires Valid()
      modifies this`history, this`sent, if id in nodes then {nodes[id]} else {}
      ensures Valid() && SameParts()
      ensures history == old(history) + [ElectionTimeout(id)]
    {
      hide SimNode.View, View, StartElection, Effect, SetupOk, ConfigOf, Run;
      Look(id);
      RunOneMore(Cfg(), history, ElectionTimeout(id));
      history := history + [ElectionTimeout(id)];
      if id in nodes && nodes[id].active {
        var out := nodes[id].BeginElection();
        sent := sent + out;
        OnlyOneChanged(id, out);
      } else {
        NoneChanged();
      }
    }

    /** The heartbeat of a leader whose timer is due. */
    method BeatOnce(id: NodeId)
      requires Valid() && id in nodes && nodes[id].active && nodes[id].role == Leader
      modifies this`history, this`sent
      ensures Valid() && SameParts()
      ensures history == old(history) + [HeartbeatTick(id)]
    {
      hide SimNode.View, View, Beat, Effect, SetupOk, ConfigOf, Run;
      Look(id);
      RunOneMore(Cfg(), history, HeartbeatTick(id));
      history := history + [HeartbeatTick(id)];
      var out := nodes[id].SendHeartbeats();
      sent := sent + out;
      OnlyOneChanged(id, out);
    }

    /** `crash_node`. */
    method CrashOne(id: NodeId, torn: bool, tornLen: nat)
      requires Valid()
      modifies this`history, nodes.Values, Disks()
      ensures Valid() && SameParts()
      ensures history == old(history) + [CrashEvent(id, torn, tornLen)]
    {
      hide SimNode.View, View, CrashNode, Effect, SetupOk, ConfigOf, Run;
      Look(id);
      RunOneMore(Cfg(), history, CrashEvent(id, torn, tornLen));
      history := history + [CrashEvent(id, torn, tornLen)];
      if id in nodes {
        nodes[id].Crash(torn, tornLen);
        OnlyOneChanged(id, {});
      } else {
        NoneChanged();
      }
    }

    /** `reboot_node`. */
    method RebootOne(id: NodeId)
      requires Valid()
      modifies this`history, this`sent, nodes.Values, Disks()
      ensures Valid() && SameParts()
      ensures history == old(history) + [RebootEvent(id)]
    {
      hide SimNode.View, View, RebootNode, Effect, Broadcast, SetupOk, ConfigOf, Run;
      Look(id);
      RunOneMore(Cfg(), history, RebootEvent(id));
      history := history + [RebootEvent(id)];
      if id in nodes {
        var out := nodes[id].Reboot();
        sent := sent + out;
        OnlyOneChanged(id, out);
      } else {
        var out := ToPeers(setup, id, CatchupRequest(id, 0));
        sent := sent + out;
        NoneChanged();
      }
    }

    /** What a node does when its timer is due. */
    method TickOne(id: NodeId) returns (ghost ev: Event)
      requires Valid() && id in nodes && nodes[id].active
      modifies this`history, this`sent, nodes[id]
      ensures Valid() && SameParts()
      ensures ev == TimerEvent(old(nodes[id].role), id)
      ensures history == old(history) + [ev]
    {
      hide Valid;
      if nodes[id].role == Leader {
        BeatOnce(id);
        ev := HeartbeatTick(id);
      } else {
        TriggerElection(id);
        ev := ElectionTimeout(id);
      }
    }

    /** One turn of `tick_nodes`, which leaves the other nodes alone. */
    method TickDue(id: NodeId, due: set<NodeId>) returns (ghost evs: seq<Event>)
      requires Valid() && id in nodes
      modifies this`history, this`sent, nodes.Values
      ensures Valid() && SameParts() && history == old(history) + evs
      ensures evs == TimerEvents(old(View()), due, id) && Touches(old(View()), View(), id)
    {
      hide View, Run, SimNode.View, SetupOk, ConfigOf, StepCluster;
      Look(id);
      evs := [];
      if nodes[id].active && id in due {
        ghost var ev := TickOne(id);
        RunOneMore(Cfg(), old(history), ev);
        TimerTouches(Cfg(), old(View()), ev);
        evs := [ev];
      }
    }

    /** `tick_nodes`: every active node whose timer is due, and no other, beats if it leads and stands
        for election if it does not, once. */
    method TickNodes(due: set<NodeId>) returns (ghost evs: seq<Event>)
      requires Valid()
      modifies this`history, this`sent, nodes.Values
      ensures Valid() && SameParts() && history == old(history) + evs
      ensures Ticked(old(View()), due, {}, evs)
    {
      hide Valid, View, Ticked, TimerEvents, Waiting, Touches;
      ghost var was := View();
      ghost var here := was;
      var todo := nodes.Keys;
      evs := [];
      NodesWait();
      TickedNone(was, due, todo);
      while todo != {}
        invariant Valid() && SameParts() && todo <= nodes.Keys && history == old(history) + evs
        invariant here == View() && Waiting(was, here, todo) && Ticked(was, due, todo, evs)
        decreases |todo|
      {
        var a :| a in todo;
        TickedMore(was, here, due, todo, evs, a);
        ghost var more := TickDue(a, due);
        WaitOn(was, here, View(), todo, a);
        Reassociate(old(history), evs, more);
        evs, todo, here := evs + more, todo - {a}, View();
      }
    }

    lemma NodesWait()
      ensures Waiting(View(), View(), nodes.Keys) && View().nodes.Keys == nodes.Keys
    {
    }

    // ----- the oracle's cluster-wide check

    method ActiveIds() returns (ids: seq<NodeId>)
      ensures forall a :: a in ids <==> a in nodes && nodes[a].active
    {
      ids := [];
      var todo := nodes.Keys;
      while todo != {}
        invariant todo <= nodes.Keys
        invariant forall a :: a in ids <==> a in nodes.Keys - todo && nodes[a].active
        decreases |todo|
      {
        var a :| a in todo;
        if nodes[a].active {
          ids := ids + [a];
        }
        todo := todo - {a};
      }
    }

    /** Every listed node's ledger is in order, or one that is not. */
    method CheckLedgers(ids: seq<NodeId>, supply: u128) returns (f: Finding)
      requires forall a :: a in ids ==> a in nodes
      ensures f.Fine? || f.BadLedger?
      ensures f.Fine? ==> forall a :: a in ids ==> LedgerOk(nodes[a].ledger.View(), setup.accounts, supply)
      ensures f.BadLedger? ==> f.node in ids && !LedgerOk(nodes[f.node].ledger.View(), setup.accounts, supply)
    {
      hide AuditPasses, AllSolvent, Wealth;
      for i := 0 to |ids|
        invariant forall k :: 0 <= k < i ==> LedgerOk(nodes[ids[k]].ledger.View(), setup.accounts, supply)
      {
        var v := AssertConservation(nodes[ids[i]].ledger.View(), setup.accounts, supply);
        if v != Pass {
          return BadLedger(ids[i], v);
        }
      }
      f := Fine;
    }

    predicate Alike(a: NodeId, b: NodeId)
      requires a in nodes && b in nodes
      reads this, nodes.Values, nodes[a].ledger, nodes[b].ledger
    {
      Agree(nodes[a].ledger.journal, nodes[b].ledger.journal)
    }

    /** Every two listed nodes agree, or two that do not and where they part. */
    method CheckPairs(ids: seq<NodeId>) returns (f: Finding)
      requires forall a :: a in ids ==> a in nodes
      ensures f.Fine? || f.SplitBrain?
      ensures f.Fine? ==> forall a, b :: a in ids && b in ids ==> Alike(a, b)
      ensures f.SplitBrain? ==> f.first in ids && f.second in ids
      ensures f.SplitBrain? ==> PartAt(nodes[f.first].ledger.journal, nodes[f.second].ledger.journal, f.index)
    {
      for i := 0 to |ids|
        invariant forall k, m :: 0 <= k < i && k < m < |ids| ==> Alike(ids[k], ids[m])
      {
        for j := i + 1 to |ids|
          invariant forall k, m :: 0 <= k < i && k < m < |ids| ==> Alike(ids[k], ids[m])
          invariant forall m :: i < m < j ==> Alike(ids[i], ids[m])
        {
          var split := AssertLogAgreement(nodes[ids[i]].ledger.journal, nodes[ids[j]].ledger.journal);
          if split.Some? {
            return SplitBrain(ids[i], ids[j], split.value);
          }
        }
      }
      f := Fine;
    }

    /** What the scenarios promise: a codec that stores entries, a genesis that fits, fewer than 2^64
        proposals, and clients that move money only between tracked accounts. */
    ghost predicate Orderly()
      reads this`history
    {
      && SetupOk(setup) && CodecOk(setup.codec) && Fundable(setup.accounts, setup.balance) && Indexed(Cfg(), history)
      && forall i :: 0 <= i < |history| && history[i].ClientOp? ==> OpTracked(history[i].op, setup.accounts)
    }

    lemma HealthyIffTotalsFit()
      requires Valid() && Orderly()
      ensures Healthy(View(), setup.accounts, Supply(setup)) <==>
        forall a :: Alive(View(), a) ==> TotalsFit(View().nodes[a].ledger)
    {
      hide View, SimNode.View, Run, Healthy, TotalsFit, CodecOk, Indexed, OpTracked, Shape;
      RunsAreHealthyIff(Cfg(), setup.scale, setup.accounts, setup.balance, history);
      SupplyFits(setup);
    }

    /** Whatever happened to the object, its nodes never disagree about a committed index. */
    lemma NodesAgree(a: NodeId, b: NodeId, i: nat)
      requires Valid() && CodecOk(setup.codec) && Indexed(Cfg(), history)
      requires a in nodes && b in nodes && i in nodes[a].committed && i in nodes[b].committed
      ensures nodes[a].committed[i] == nodes[b].committed[i]
    {
      hide Run, CodecOk, Indexed;
      LogAgreement(Cfg(), history, a, b, i);
    }

    /** Look at every active node and every pair of them. */
    method Inspect() returns (f: Finding)
      ensures f.Fine? <==> Healthy(View(), setup.accounts, Supply(setup))
    {
      hide LedgerOk, View, SimNode.View, Agree;
      var ids := ActiveIds();
      f := CheckLedgers(ids, Supply(setup));
      if f.Fine? {
        f := CheckPairs(ids);
      }
      forall a: NodeId
        ensures Alive(View(), a) <==> a in ids
        ensures a in ids ==> View().nodes[a].ledger == nodes[a].ledger.View()
      {
        Look(a);
        Shown(a);
      }
      assert f.BadLedger? ==> Alive(View(), f.node);
      assert f.SplitBrain? ==> !JournalsAgree(View(), f.first, f.second) by {
        if f.SplitBrain? {
          PartedDisagree(nodes[f.first].ledger.journal, nodes[f.second].ledger.journal, f.index);
        }
      }
    }

    lemma Shown(a: NodeId)
      ensures a in nodes ==> nodes[a].View().ledger == nodes[a].ledger.View()
    {
    }

    /** `verify_invariants`: in an orderly history it finds something exactly when a total overflows. */
    method VerifyInvariants() returns (f: Finding)
      requires Valid()
      ensures f.Fine? <==> Healthy(View(), setup.accounts, Supply(setup))
      ensures Orderly() ==> (f.Fine? <==> forall a :: Alive(View(), a) ==> TotalsFit(View().nodes[a].ledger))
    {
      hide View, SimNode.View, Run, Orderly, TotalsFit, Healthy, SetupOk, ConfigOf;
      Look(0);
      f := Inspect();
      NoneChanged();
      if Orderly() {
        HealthyIffTotalsFit();
      }
    }
  }

  /** What a node's timer makes it do. */
  function TimerEvent(role: Role, id: NodeId): Event {
    if role == Leader then HeartbeatTick(id) else ElectionTimeout(id)
  }

  predicate IsDue(c: Cluster, due: set<NodeId>, a: NodeId) {
    a in due && Alive(c, a)
  }

  /** The events of one turn of the timers. */
  function TimerEvents(c: Cluster, due: set<NodeId>, a: NodeId): seq<Event> {
    if IsDue(c, due, a) then [TimerEvent(c.nodes[a].role, a)] else []
  }

  predicate IsTimerEvent(c: Cluster, due: set<NodeId>, e: Event) {
    && (e.HeartbeatTick? || e.ElectionTimeout?) && IsDue(c, due, e.node)
    && e == TimerEvent(c.nodes[e.node].role, e.node)
  }

  /** The nodes of `c` outside `todo` that are active and due had one event each, and no other node had any. */
  ghost predicate Ticked(c: Cluster, due: set<NodeId>, todo: set<NodeId>, evs: seq<Event>) {
    && (forall e :: e in evs ==> IsTimerEvent(c, due, e) && e.node !in todo)
    && (forall a :: a !in todo && IsDue(c, due, a) ==> TimerEvent(c.nodes[a].role, a) in evs)
    && (forall i, j :: 0 <= i < j < |evs| ==> evs[i] != evs[j])
  }

  /** The nodes in `todo` are still as they were. */
  ghost predicate Waiting(was: Cluster, c: Cluster, todo: set<NodeId>) {
    forall a :: a in todo ==> a in was.nodes && a in c.nodes && c.nodes[a] == was.nodes[a]
  }

  lemma WaitOn(was: Cluster, c: Cluster, c': Cluster, todo: set<NodeId>, a: NodeId)
    requires Waiting(was, c, todo) && Touches(c, c', a)
    ensures Waiting(was, c', todo - {a})
  {
  }

  lemma TickedNone(c: Cluster, due: set<NodeId>, todo: set<NodeId>)
    requires c.nodes.Keys <= todo
    ensures Ticked(c, due, todo, [])
  {
  }

  lemma TickedMore(was: Cluster, c: Cluster, due: set<NodeId>, todo: set<NodeId>, evs: seq<Event>, a: NodeId)
    requires Ticked(was, due, todo, evs) && Waiting(was, c, todo) && a in todo
    ensures Ticked(was, due, todo - {a}, evs + TimerEvents(c, due, a))
  {
    assert evs + [] == evs;
  }

  lemma Reassociate(a: seq<Event>, b: seq<Event>, c: seq<Event>)
    ensures a + b + c == a + (b + c)
  {
  }

  /** A timer changes its own node only. */
  lemma TimerTouches(cfg: Config, c: Cluster, ev: Event)
    requires (ev.HeartbeatTick? || ev.ElectionTimeout?) && ev.node in c.nodes
    ensures Touches(c, StepCluster(cfg, c, ev), ev.node)
  {
    hide StartElection, Beat;
  }

  /** `total_wealth`: a saturating product. */
  function Supply(s: Setup): u128 {
    Min(s.balance * |s.accounts|, U128_LIMIT - 1)
  }

  lemma SupplyFits(s: Setup)
    requires Fundable(s.accounts, s.balance)
    ensures Supply(s) == |s.accounts| * s.balance
  {
  }

  /** Nothing of a node has changed. */
  twostate predicate Untouched(n: SimNode)
    reads n, n.ledger, n.disk
  {
    unchanged(n) && unchanged(n.ledger) && unchanged(n.disk)
  }

  /** A node as its constructor leaves it. */
  ghost predicate Newborn(n: SimNode, setup: Setup, a: NodeId)
    reads n, n.ledger, n.disk
  {
    SetupOk(setup) && n.setup == setup && n.id == a && n.View() == InitNode(ConfigOf(setup), a)
  }

  method BootNode(setup: Setup, a: NodeId) returns (n: SimNode)
    requires SetupOk(setup)
    ensures Newborn(n, setup, a) && fresh(n) && fresh(n.ledger) && fresh(n.disk)
  {
    hide Genesis, InitNode;
    n := new SimNode(setup, a);
  }

  /** One new node per id. */
  method BootNodes(setup: Setup) returns (nodes: map<NodeId, SimNode>)
    requires SetupOk(setup)
    ensures nodes.Keys == setup.ids
    ensures forall a :: a in nodes ==> Newborn(nodes[a], setup, a)
    ensures forall a :: a in nodes ==> fresh(nodes[a]) && fresh(nodes[a].ledger) && fresh(nodes[a].disk)
    ensures forall a, b :: a in nodes && b in nodes && a != b ==> Apart(nodes[a], nodes[b])
  {
    hide Newborn, ConfigOf, SetupOk;
    nodes := map[];
    var todo := setup.ids;
    while todo != {}
      invariant todo <= setup.ids && nodes.Keys == setup.ids - todo
      invariant forall a :: a in nodes ==> Newborn(nodes[a], setup, a)
      invariant forall a :: a in nodes ==> fresh(nodes[a]) && fresh(nodes[a].ledger) && fresh(nodes[a].disk)
      invariant forall a, b :: a in nodes && b in nodes && a != b ==> Apart(nodes[a], nodes[b])
      decreases |todo|
    {
      var a :| a in todo;
      var node := BootNode(setup, a);
      nodes := nodes[a := node];
      todo := todo - {a};
    }
  }

  predicate Apart(m: SimNode, n: SimNode)
    reads m, n
  {
    m != n && m.ledger != n.ledger && m.disk != n.disk
  }
}
