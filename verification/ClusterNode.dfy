/**
 A simulated node as the mutable object the source implements: fields and maps updated in place,
 loops that drain pending commits and replay the disk. Every method is proved against the
 functions of ClusterSpec.
 */
module ClusterNode {
  import opened Prelude
  import opened LedgerTypes
  import LedgerSpec
  import LE = LedgerEngine
  import opened WalRecord
  import opened WalReader
  import opened ClusterTypes
  import opened ClusterSpec
  import opened ClusterDurability
  import opened ClusterElection
  import opened ClusterGenesis

  /** Fault-injected storage: durable bytes and a volatile write buffer. */
  class SimDisk {
    var flushed: Bytes
    var buffered: Bytes

    function View(): Disk
      reads this
    {
      Disk(flushed, buffered)
    }

    constructor ()
      ensures View() == Disk([], [])
    {
      flushed := [];
      buffered := [];
    }

    method Write(data: Bytes)
      modifies this
      ensures View() == DiskWrite(old(View()), data)
    {
      buffered := buffered + data;
    }

    method Sync()
      modifies this
      ensures View() == DiskSync(old(View()))
    {
      flushed := flushed + buffered;
      buffered := [];
    }

    method Crash(torn: bool, tornLen: nat)
      modifies this
      ensures View() == DiskCrash(old(View()), torn, tornLen)
    {
      if torn {
        if buffered != [] {
          flushed := flushed + Truncate(buffered, Max(1, tornLen));
        } else if flushed != [] {
          var len := Max(1, Min(tornLen, 15));
          var fragment: Bytes := [];
          for i := 0 to len
            invariant fragment == Fragment(i)
          {
            fragment := fragment + [(i + 0xEE) % 256];
          }
          flushed := flushed + fragment;
        }
      }
      buffered := [];
    }

    method TruncateDurable(len: nat)
      modifies this
      ensures View() == DiskTruncate(old(View()), len)
    {
      flushed := Truncate(flushed, len);
    }
  }

  /** What a node is configured with. */
  datatype Setup = Setup(codec: EntryCodec, ids: set<NodeId>, scale: Scale, accounts: seq<AccountId>, balance: Amount)

  predicate SetupOk(s: Setup) {
    GENESIS_TIME + 2 * |s.accounts| < U64_LIMIT
  }

  function ConfigOf(s: Setup): Config
    requires SetupOk(s)
  {
    Config(s.codec, Genesis(s.scale, s.accounts, s.balance), s.ids)
  }

  class SimNode {
    const setup: Setup
    const id: NodeId
    const disk: SimDisk
    var ledger: LE.Ledger
    var active: bool
    var role: Role
    var term: nat
    var isLeader: bool
    var votedFor: Option<NodeId>
    var votes: set<NodeId>
    var committed: map<nat, Entry>
    var pending: map<nat, Entry>
    var uncommitted: map<nat, Proposal>
    var commitIndex: nat

    function View(): Node
      reads this, ledger, disk
    {
      Node(id, ledger.View(), disk.View(), active, role, term, isLeader, votedFor, votes,
           committed, pending, uncommitted, commitIndex)
    }

    constructor (setup: Setup, id: NodeId)
      requires SetupOk(setup)
      ensures View() == InitNode(ConfigOf(setup), id)
      ensures this.setup == setup && this.id == id && fresh(disk) && fresh(ledger)
    {
      this.setup := setup;
      this.id := id;
      disk := new SimDisk();
      ledger := new LE.Ledger(setup.scale);
      active := true;
      role := if id == 1 then Leader else Follower;
      term := 1;
      isLeader := id == 1;
      votedFor := if id == 1 then Some(1) else None;
      votes := {};
      committed, pending, uncommitted, commitIndex := map[], map[], map[], 0;
      new;
      ledger := ReinitBaseState(setup.scale, setup.accounts, setup.balance);
    }

    /** Carry out one operation on the ledger, ignoring its outcome. */
    method ApplyToLedger(e: Entry)
      modifies ledger
      ensures ledger.View() == ApplyWorkload(old(ledger.View()), e)
    {
      match e.op
      case DirectTransfer(t, from, to, amount) =>
        var tx := LedgerSpec.NewImmediate(t, from, to, amount, e.timestamp);
        if tx.Ok? {
          var _ := ledger.CreateTransfer(tx.value);
        }
      case CreateHold(t, from, to, amount) =>
        var hold := LedgerSpec.NewPending(t, from, to, amount, e.timestamp);
        if hold.Ok? {
          var _ := ledger.CreatePending(hold.value);
        }
      case PostHold(p, q, amount) =>
        var _ := ledger.PostPending(p, q, amount, e.timestamp);
      case VoidHold(p, _) =>
        var _ := ledger.VoidPending(p, e.timestamp);
    }

    method ApplyOpInMemory(index: nat, e: Entry)
      modifies this`committed, this`commitIndex, ledger
      ensures View() == ApplyInMemory(old(View()), index, e)
    {
      hide ApplyWorkload;
      ApplyToLedger(e);
      committed := committed[index := e];
      commitIndex := Max(commitIndex, index);
    }

    method ApplyOp(index: nat, e: Entry)
      requires SetupOk(setup)
      modifies this`committed, this`commitIndex, ledger, disk
      ensures View() == ClusterSpec.ApplyOp(ConfigOf(setup), old(View()), index, e)
    {
      hide ApplyWorkload, Frame;
      ApplyOpInMemory(index, e);
      var payload := setup.codec.encode(WalEntry(index, e));
      var frame := EncodeFrameAppend(index, payload, DEFAULT_MAX_PAYLOAD_LEN, []);
      if frame.Ok? {
        assert [] + Frame(index, payload) == Frame(index, payload);
        disk.Write(frame.value);
        disk.Sync();
      }
    }

    /** Take the next index out of the pending commits and apply it. */
    method DrainNext() returns (e: Entry)
      requires SetupOk(setup) && commitIndex + 1 in pending
      modifies this`pending, this`uncommitted, this`committed, this`commitIndex, ledger, disk
      ensures View() == DrainOne(ConfigOf(setup), old(View()), old(commitIndex) + 1)
      ensures e == old(pending)[old(commitIndex) + 1] && commitIndex == old(commitIndex) + 1
      ensures committed == old(committed)[commitIndex := e]
    {
      hide ClusterSpec.ApplyOp, Genesis;
      ghost var taken := View().(pending := pending - {commitIndex + 1});
      var next := commitIndex + 1;
      e := pending[next];
      pending := pending - {next};
      ApplyOp(next, e);
      ApplyOpShape(ConfigOf(setup), taken, next, e);
      uncommitted := uncommitted - {next};
    }

    /** Apply pending commits while the next index is there; report what was committed. */
    method DrainPending() returns (newly: seq<(nat, Entry)>)
      requires SetupOk(setup)
      modifies this`pending, this`uncommitted, this`committed, this`commitIndex, ledger, disk
      ensures View() == Drain(ConfigOf(setup), old(View()))
      ensures commitIndex == old(commitIndex) + |newly|
      ensures forall k :: 0 <= k < |newly| ==> Listed(newly, k, old(commitIndex), committed)
    {
      hide DrainOne, Genesis;
      newly := [];
      while commitIndex + 1 in pending
        invariant Drain(ConfigOf(setup), View()) == Drain(ConfigOf(setup), old(View()))
        invariant commitIndex == old(commitIndex) + |newly|
        invariant forall k :: 0 <= k < |newly| ==> Listed(newly, k, old(commitIndex), committed)
        decreases |pending|
      {
        ghost var prior, log := newly, committed;
        var e := DrainNext();
        newly := newly + [(commitIndex, e)];
        forall k | 0 <= k < |newly| ensures Listed(newly, k, old(commitIndex), committed) {
          if k < |prior| {
            assert Listed(prior, k, old(commitIndex), log);
          }
        }
      }
    }

    /** Rebuild the node from its durable bytes and cut off whatever is not a whole frame. */
    method Recover()
      requires SetupOk(setup)
      modifies this, disk
      ensures fresh(ledger)
      ensures View() == RecoverNode(ConfigOf(setup), old(View()))
    {
      hide Next, ApplyWorkload, Genesis;
      ghost var cfg := ConfigOf(setup);
      ledger := ReinitBaseState(setup.scale, setup.accounts, setup.balance);
      committed, pending, uncommitted, commitIndex := map[], map[], map[], 0;
      var durable := disk.flushed;
      var reader := new Reader(durable, false, 0);
      var valid := 0;
      assert durable[0..] == durable;
      assert View() == Wiped(cfg, old(View()));
      while true
        invariant reader.Valid() && reader.data == durable && !reader.flaky && fresh(reader) && fresh(ledger)
        invariant valid >= 0 && disk.View() == old(disk.View())
        invariant Reapply(cfg, View(), reader.Rest(), valid) == Reapply(cfg, Wiped(cfg, old(View())), durable, 0)
        decreases |durable| - reader.pos
      {
        ghost var rest := reader.Rest();
        var scanned := NextRecord(reader, DEFAULT_MAX_PAYLOAD_LEN, true);
        var step := scanned.value;
        if !step.Record? {
          break;
        }
        var entry := setup.codec.decode(step.payload.value);
        if entry.None? {
          break;
        }
        ApplyOpInMemory(entry.value.index, entry.value.entry);
        assert reader.Rest() == rest[FrameLen(step.len)..];
        valid := valid + FrameLen(step.len);
      }
      disk.TruncateDurable(valid);
    }

    // ----- reactions, one per message kind

    /** One packet to every other node. */
    method BroadcastMsg(msg: Message) returns (out: set<Packet>)
      requires SetupOk(setup)
      ensures out == Broadcast(ConfigOf(setup), id, msg)
    {
      out := ToPeers(setup, id, msg);
    }

    method ObserveTerm(t: nat)
      modifies this`term, this`role, this`isLeader, this`votedFor
      ensures View() == Observe(old(View()), t)
    {
      if t > term {
        term, role, isLeader, votedFor := t, Follower, false, None;
      }
    }

    method HandlePropose(src: NodeId, t: nat, index: nat, op: WorkloadOp) returns (out: set<Packet>)
      modifies this`term, this`role, this`isLeader, this`votedFor, this`uncommitted
      ensures Reaction(View(), out) == OnPropose(old(View()), src, t, index, op)
    {
      out := {};
      ObserveTerm(t);
      if t >= term {
        uncommitted := uncommitted[index := Proposal(op, {})];
        out := {Packet(id, src, Ack(id, t, index))};
      }
    }

    method HandleAck(from: NodeId, t: nat, index: nat, now: u64) returns (out: set<Packet>)
      requires SetupOk(setup)
      modifies this, ledger, disk
      ensures ledger == old(ledger)
      ensures Reaction(View(), out) == OnAck(ConfigOf(setup), old(View()), from, t, index, now)
    {
      hide Drain, Genesis;
      out := {};
      if !isLeader || term != t || index !in uncommitted {
        return;
      }
      var prop := uncommitted[index];
      var acks := prop.acks + {from};
      uncommitted := uncommitted[index := Proposal(prop.op, acks)];
      if |acks| < |setup.ids| / 2 + 1 || index in committed {
        return;
      }
      pending := pending[index := Entry(prop.op, now)];
      var newly := DrainPending();
      out := AnnounceAll(newly, t, old(commitIndex), old(View()));
    }

    /** Tell every peer about every newly committed entry. */
    method AnnounceAll(newly: seq<(nat, Entry)>, t: nat, ghost low: nat, ghost before: Node) returns (out: set<Packet>)
      requires SetupOk(setup) && before.id == id && before.commitIndex == low && commitIndex == low + |newly|
      requires forall k :: 0 <= k < |newly| ==> Listed(newly, k, low, committed)
      ensures out == Announce(ConfigOf(setup), before, View(), t)
    {
      hide Genesis;
      ghost var cfg := ConfigOf(setup);
      out := {};
      for k := 0 to |newly|
        invariant out == Announce(cfg, before, View().(commitIndex := low + k), t)
      {
        var packets := BroadcastMsg(Commit(t, newly[k].0, newly[k].1));
        assert Listed(newly, k, low, committed);
        AnnounceOneMore(cfg, before, View().(commitIndex := low + k), t);
        out := out + packets;
      }
    }

    method HandleCommit(t: nat, index: nat, e: Entry) returns (out: set<Packet>)
      requires SetupOk(setup)
      modifies this, ledger, disk
      ensures ledger == old(ledger)
      ensures Reaction(View(), out) == OnCommit(ConfigOf(setup), old(View()), t, index, e)
    {
      hide Drain, Genesis;
      out := {};
      ObserveTerm(t);
      if t >= term && index !in committed {
        pending := pending[index := e];
        var _ := DrainPending();
      }
    }

    method HandleHeartbeat(t: nat, leader: NodeId, leaderCommit: nat) returns (out: set<Packet>)
      modifies this`term, this`role, this`isLeader, this`votedFor
      ensures Reaction(View(), out) == OnHeartbeat(old(View()), t, leader, leaderCommit)
    {
      out := {};
      ObserveTerm(t);
      if t >= term {
        role, isLeader := Follower, false;
        if leaderCommit > commitIndex {
          out := {Packet(id, leader, CatchupRequest(id, commitIndex))};
        }
      }
    }

    method HandleRequestVote(t: nat, candidate: NodeId, lastIndex: nat) returns (out: set<Packet>)
      modifies this`term, this`role, this`isLeader, this`votedFor
      ensures Reaction(View(), out) == OnRequestVote(old(View()), t, candidate, lastIndex)
    {
      out := {};
      ObserveTerm(t);
      var logOk := lastIndex >= commitIndex;
      var voteOk := votedFor.None? || votedFor == Some(candidate);
      if t == term && voteOk && logOk {
        votedFor := Some(candidate);
        out := {Packet(id, candidate, VoteGranted(id, t))};
      }
    }

    method HandleVoteGranted(voter: NodeId, t: nat) returns (out: set<Packet>)
      requires SetupOk(setup)
      modifies this`votes, this`role, this`isLeader
      ensures Reaction(View(), out) == OnVoteGranted(ConfigOf(setup), old(View()), voter, t)
    {
      hide Broadcast, Genesis;
      out := {};
      if term == t && role == Candidate {
        votes := votes + {voter};
        if |votes| >= |setup.ids| / 2 + 1 {
          role, isLeader := Leader, true;
          out := BroadcastMsg(Heartbeat(t, id, commitIndex));
        }
      }
    }

    method HandleCatchupRequest(requester: NodeId, lastIndex: nat) returns (out: set<Packet>)
      ensures Reaction(View(), out) == OnCatchupRequest(View(), requester, lastIndex)
    {
      var entries: map<nat, Entry> := map[];
      var todo := committed.Keys;
      while todo != {}
        invariant todo <= committed.Keys && entries == EntriesAfter(committed - todo, lastIndex)
        decreases |todo|
      {
        var i :| i in todo;
        if i > lastIndex {
          entries := entries[i := committed[i]];
        }
        todo := todo - {i};
      }
      assert committed - {} == committed;
      out := if entries == map[] then {} else {Packet(id, requester, CatchupResponse(id, entries))};
    }

    method HandleCatchupResponse(entries: map<nat, Entry>) returns (out: set<Packet>)
      requires SetupOk(setup)
      modifies this, ledger, disk
      ensures ledger == old(ledger)
      ensures Reaction(View(), out) == OnCatchupResponse(ConfigOf(setup), old(View()), entries)
    {
      hide Drain, Genesis;
      out := {};
      QueueMissing(entries);
      var _ := DrainPending();
    }

    /** Queue the entries that are not committed yet. */
    method QueueMissing(entries: map<nat, Entry>)
      modifies this`pending
      ensures pending == old(pending) + NotCommitted(committed, entries)
    {
      var todo := entries.Keys;
      while todo != {}
        invariant todo <= entries.Keys && pending == old(pending) + NotCommitted(committed, entries - todo)
        decreases |todo|
      {
        var i :| i in todo;
        if i !in committed {
          pending := pending[i := entries[i]];
        }
        todo := todo - {i};
      }
      assert entries - {} == entries;
    }

    /** `process_packet` at this node. */
    method Handle(src: NodeId, msg: Message, now: u64) returns (out: set<Packet>)
      requires SetupOk(setup)
      modifies this, ledger, disk
      ensures ledger == old(ledger)
      ensures Reaction(View(), out) == React(ConfigOf(setup), old(View()), src, msg, now)
    {
      hide OnPropose, OnAck, OnCommit, OnHeartbeat, OnRequestVote, OnVoteGranted, OnCatchupRequest,
           OnCatchupResponse, Genesis;
      match msg
      case Propose(t, index, op) => out := HandlePropose(src, t, index, op);
      case Ack(from, t, index) => out := HandleAck(from, t, index, now);
      case Commit(t, index, e) => out := HandleCommit(t, index, e);
      case RequestVote(t, candidate, last) => out := HandleRequestVote(t, candidate, last);
      case VoteGranted(voter, t) => out := HandleVoteGranted(voter, t);
      case Heartbeat(t, leader, k) => out := HandleHeartbeat(t, leader, k);
      case CatchupRequest(requester, last) => out := HandleCatchupRequest(requester, last);
      case CatchupResponse(_, entries) => out := HandleCatchupResponse(entries);
    }

    // ----- what a node does by itself

    method BeginProposal(index: nat, op: WorkloadOp) returns (out: set<Packet>)
      requires SetupOk(setup)
      modifies this`uncommitted
      ensures Reaction(View(), out) == StartProposal(ConfigOf(setup), old(View()), index, op)
    {
      hide Broadcast, Genesis;
      uncommitted := uncommitted[index := Proposal(op, {id})];
      out := BroadcastMsg(Propose(term, index, op));
    }

    method BeginElection() returns (out: set<Packet>)
      requires SetupOk(setup)
      modifies this`term, this`role, this`isLeader, this`votedFor, this`votes
      ensures Reaction(View(), out) == StartElection(ConfigOf(setup), old(View()))
    {
      hide Broadcast, Genesis;
      term := term + 1;
      role, isLeader, votedFor, votes := Candidate, false, Some(id), {id};
      out := BroadcastMsg(RequestVote(term, id, commitIndex));
    }

    method SendHeartbeats() returns (out: set<Packet>)
      requires SetupOk(setup)
      ensures Reaction(View(), out) == Beat(ConfigOf(setup), View())
    {
      hide Broadcast, Genesis;
      out := BroadcastMsg(Heartbeat(term, id, commitIndex));
    }

    method Crash(torn: bool, tornLen: nat)
      modifies this, disk
      ensures ledger == old(ledger)
      ensures View() == CrashNode(old(View()), torn, tornLen)
    {
      hide DiskCrash;
      active, role, isLeader, votedFor, votes := false, Follower, false, None, {};
      uncommitted, pending := map[], map[];
      disk.Crash(torn, tornLen);
    }

    method Reboot() returns (out: set<Packet>)
      requires SetupOk(setup)
      modifies this, disk
      ensures fresh(ledger)
      ensures Reaction(View(), out) == RebootNode(ConfigOf(setup), old(View()))
    {
      hide Broadcast, Genesis, RecoverNode;
      Recover();
      RecoverKeepsId(ConfigOf(setup), old(View()));
      active, role, isLeader, votedFor, votes := true, Follower, false, None, {};
      out := BroadcastMsg(CatchupRequest(id, commitIndex));
    }
  }

  /** One packet from `src` to every other node. */
  method ToPeers(setup: Setup, src: NodeId, msg: Message) returns (out: set<Packet>)
    requires SetupOk(setup)
    ensures out == Broadcast(ConfigOf(setup), src, msg)
  {
    var peers := setup.ids - {src};
    var todo := peers;
    out := {};
    while todo != {}
      invariant todo <= peers && out == (set p | p in peers - todo :: Packet(src, p, msg))
      decreases |todo|
    {
      var p :| p in todo;
      out := out + {Packet(src, p, msg)};
      todo := todo - {p};
    }
    assert peers - {} == peers;
  }

  lemma RecoverKeepsId(cfg: Config, n: Node)
    ensures RecoverNode(cfg, n).id == n.id
  {
    hide Reapply;
    ReapplyElection(cfg, Wiped(cfg, n), n.disk.flushed, 0);
  }

  /** Entry `k` of a drain is the one committed at `low + 1 + k`. */
  predicate Listed(newly: seq<(nat, Entry)>, k: nat, low: nat, committed: map<nat, Entry>)
    requires k < |newly|
  {
    newly[k].0 == low + 1 + k && newly[k].0 in committed && committed[newly[k].0] == newly[k].1
  }

  lemma AnnounceOneMore(cfg: Config, before: Node, after: Node, t: nat)
    requires after.commitIndex >= before.commitIndex && after.commitIndex + 1 in after.committed
    ensures var i := after.commitIndex + 1;
      Announce(cfg, before, after.(commitIndex := i), t)
      == Announce(cfg, before, after, t) + Broadcast(cfg, before.id, Commit(t, i, after.committed[i]))
  {
  }
}
