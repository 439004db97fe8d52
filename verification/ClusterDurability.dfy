/**
 What one node keeps: its committed log is gapless, its ledger is the fold of that log, its disk
 holds exactly that log, and recovery after any number of torn crashes restores it.
 */
module ClusterDurability {
  import opened Prelude
  import opened LedgerTypes
  import opened WalRecord
  import opened WalRecovery
  import opened ClusterTypes
  import opened ClusterSpec

  ghost predicate Covers(log: map<nat, Entry>, k: nat) {
    forall i: nat :: 1 <= i <= k ==> i in log
  }

  /** The indexes of a committed log are exactly `1..last`. */
  ghost predicate Gapless(log: map<nat, Entry>, last: nat) {
    forall i: nat :: i in log <==> 1 <= i <= last
  }

  /** The ledger after the first `k` entries of a log. */
  ghost function Fold(genesis: LedgerState, log: map<nat, Entry>, k: nat): LedgerState
    requires Covers(log, k)
  {
    if k == 0 then genesis else ApplyWorkload(Fold(genesis, log, k - 1), log[k])
  }

  /** The payloads of the first `k` entries. */
  ghost function LogPayloads(cfg: Config, log: map<nat, Entry>, k: nat): (ps: seq<Bytes>)
    requires Covers(log, k)
    ensures |ps| == k
  {
    seq(k, i requires 0 <= i < k => EntryPayload(cfg, i + 1, log[i + 1]))
  }

  /** The frames of the first `k` entries, as they stand on disk. */
  ghost function DiskLog(cfg: Config, log: map<nat, Entry>, k: nat): Bytes
    requires Covers(log, k)
  {
    Log(1, LogPayloads(cfg, log, k))
  }

  /** Bytes no scan mistakes for a frame: nothing, or something that does not start with the magic. */
  predicate Garbage(g: Bytes) {
    g == [] || g[0] == 0xEE
  }

  ghost predicate OnDisk(cfg: Config, n: Node)
    requires Covers(n.committed, n.commitIndex)
  {
    var good := DiskLog(cfg, n.committed, n.commitIndex);
    && n.disk.buffered == []
    && good <= n.disk.flushed && Garbage(n.disk.flushed[|good|..])
    && (n.active ==> n.disk.flushed == good)
  }

  /** The node invariant. */
  ghost predicate NodeOk(cfg: Config, n: Node) {
    && Gapless(n.committed, n.commitIndex) && n.commitIndex < U64_LIMIT
    && (forall i :: i in n.pending ==> i !in n.committed) && InRange(n.pending)
    && n.ledger == Fold(cfg.genesis, n.committed, n.commitIndex)
    && OnDisk(cfg, n)
  }

  /** Logs that agree up to `k` fold, and are stored, alike. */
  lemma {:induction false} FoldAgrees(genesis: LedgerState, a: map<nat, Entry>, b: map<nat, Entry>, k: nat)
    requires Covers(a, k) && Covers(b, k)
    requires forall i: nat :: 1 <= i <= k ==> a[i] == b[i]
    ensures Fold(genesis, a, k) == Fold(genesis, b, k)
  {
    if k > 0 {
      FoldAgrees(genesis, a, b, k - 1);
    }
  }

  /** One more entry is one more frame. */
  lemma DiskLogNext(cfg: Config, log: map<nat, Entry>, k: nat, e: Entry)
    requires Gapless(log, k)
    ensures Covers(log[k + 1 := e], k + 1)
    ensures DiskLog(cfg, log[k + 1 := e], k + 1) == DiskLog(cfg, log, k) + Frame(k + 1, EntryPayload(cfg, k + 1, e))
  {
    hide Frame;
    var p := EntryPayload(cfg, k + 1, e);
    var ps := LogPayloads(cfg, log, k);
    assert LogPayloads(cfg, log[k + 1 := e], k + 1) == ps + [p];
    LogConcat(1, ps, [p]);
    assert Log(k + 1, [p]) == Frame(k + 1, p) + Log(k + 2, []);
  }

  lemma PayloadFits(cfg: Config, index: nat, e: Entry)
    requires CodecOk(cfg.codec) && index < U64_LIMIT
    ensures |EntryPayload(cfg, index, e)| <= DEFAULT_MAX_PAYLOAD_LEN
    ensures cfg.codec.decode(EntryPayload(cfg, index, e)) == Some(WalEntry(index, e))
  {
    assert Stores(cfg.codec, WalEntry(index, e));
  }

  lemma FoldNext(genesis: LedgerState, log: map<nat, Entry>, k: nat, e: Entry)
    requires Gapless(log, k)
    ensures Covers(log[k + 1 := e], k + 1)
    ensures Fold(genesis, log[k + 1 := e], k + 1) == ApplyWorkload(Fold(genesis, log, k), e)
  {
    hide ApplyWorkload;
    FoldAgrees(genesis, log, log[k + 1 := e], k);
  }

  /** Applying the next index keeps the invariant. */
  lemma ApplyNextOk(cfg: Config, n: Node, e: Entry)
    requires CodecOk(cfg.codec) && NodeOk(cfg, n) && n.active
    requires n.commitIndex + 1 !in n.pending && n.commitIndex + 1 < U64_LIMIT
    ensures NodeOk(cfg, ApplyOp(cfg, n, n.commitIndex + 1, e))
  {
    hide Frame, ApplyWorkload, DiskLog, Fold, CodecOk, EntryPayload;
    var k := n.commitIndex;
    var m := ApplyOp(cfg, n, k + 1, e);
    PayloadFits(cfg, k + 1, e);
    FoldNext(cfg.genesis, n.committed, k, e);
    DiskLogNext(cfg, n.committed, k, e);
    assert m.disk.flushed[|m.disk.flushed|..] == [];
  }

  /** Everything about elections and identity is untouched. */
  predicate SameElection(n: Node, m: Node) {
    && m.id == n.id && m.active == n.active && m.role == n.role && m.term == n.term
    && m.isLeader == n.isLeader && m.votedFor == n.votedFor && m.votes == n.votes
  }

  /** `m`'s log extends `n`'s, and all that is new comes from `source`. */
  ghost predicate Grows(n: Node, m: Node, source: map<nat, Entry>) {
    && n.commitIndex <= m.commitIndex
    && (forall i :: i in n.committed ==> i in m.committed && m.committed[i] == n.committed[i])
    && (forall i :: i in m.committed && i !in n.committed ==> i in source && m.committed[i] == source[i])
    && (forall i :: i in m.pending ==> i in source && m.pending[i] == source[i])
  }

  lemma ApplyOpShape(cfg: Config, n: Node, i: nat, e: Entry)
    ensures var m := ApplyOp(cfg, n, i, e);
      && m.committed == n.committed[i := e] && m.commitIndex == Max(n.commitIndex, i)
      && m.pending == n.pending && m.uncommitted == n.uncommitted && SameElection(n, m)
  {
    hide Frame, ApplyWorkload;
  }

  lemma DrainOneOk(cfg: Config, n: Node)
    requires CodecOk(cfg.codec) && NodeOk(cfg, n) && n.active && n.commitIndex + 1 in n.pending
    ensures var m := DrainOne(cfg, n, n.commitIndex + 1);
      NodeOk(cfg, m) && Grows(n, m, n.pending) && SameElection(n, m)
  {
    hide ApplyOp, DiskLog, Fold, CodecOk;
    var i := n.commitIndex + 1;
    var taken := n.(pending := n.pending - {i});
    ApplyNextOk(cfg, taken, n.pending[i]);
    ApplyOpShape(cfg, taken, i, n.pending[i]);
  }

  lemma GrowsAlready(n: Node)
    ensures Grows(n, n, n.pending)
  {
  }

  lemma GrowsThrough(n: Node, m: Node, d: Node)
    requires Grows(n, m, n.pending) && Grows(m, d, m.pending)
    ensures Grows(n, d, n.pending)
  {
  }

  /** Draining keeps the invariant and commits only what was pending. */
  lemma {:induction false} DrainOk(cfg: Config, n: Node)
    requires CodecOk(cfg.codec) && NodeOk(cfg, n) && n.active
    ensures NodeOk(cfg, Drain(cfg, n)) && Grows(n, Drain(cfg, n), n.pending) && SameElection(n, Drain(cfg, n))
    decreases |n.pending|
  {
    hide DrainOne, CodecOk, NodeOk, Grows;
    if n.commitIndex + 1 in n.pending {
      var m := DrainOne(cfg, n, n.commitIndex + 1);
      DrainOneOk(cfg, n);
      DrainOk(cfg, m);
      GrowsThrough(n, m, Drain(cfg, m));
    } else {
      GrowsAlready(n);
    }
  }

  // ----- recovery

  lemma GarbageStops(g: Bytes, max: nat)
    requires Garbage(g)
    ensures !Next(g, max, true).Record?
  {
    hide Crc32c;
    if |g| >= HEADER_LEN {
      assert FromLe(g[0..4]) == g[0] + 256 * FromLe(g[0..4][1..]);
      assert MAGIC % 256 == 0x4C;
    }
  }

  /** The node with only the first `k` entries of `log` applied. */
  ghost predicate Rebuilt(cfg: Config, n: Node, log: map<nat, Entry>, k: nat) {
    && Gapless(n.committed, k) && n.commitIndex == k && Covers(log, k)
    && (forall i: nat :: 1 <= i <= k ==> n.committed[i] == log[i])
    && n.ledger == Fold(cfg.genesis, log, k)
    && n.pending == map[] && n.uncommitted == map[]
  }

  lemma ReapplyOne(cfg: Config, n: Node, log: map<nat, Entry>, k: nat, last: nat)
    requires CodecOk(cfg.codec) && Gapless(log, last) && k < last && Rebuilt(cfg, n, log, k)
    ensures Rebuilt(cfg, ApplyInMemory(n, k + 1, log[k + 1]), log, k + 1)
  {
    hide ApplyWorkload;
  }

  /** What `ApplyInMemory` and the scan never touch. */
  predicate SameShell(n: Node, m: Node) {
    SameElection(n, m) && m.disk == n.disk
  }

  /** One frame of the scan. */
  lemma ReapplyStep(cfg: Config, n: Node, index: nat, e: Entry, p: Bytes, tail: Bytes, valid: nat)
    requires |p| <= DEFAULT_MAX_PAYLOAD_LEN && cfg.codec.decode(p) == Some(WalEntry(index, e))
    ensures Reapply(cfg, n, Frame(index, p) + tail, valid)
         == Reapply(cfg, ApplyInMemory(n, index, e), tail, valid + FrameLen(|p|))
    ensures SameShell(n, ApplyInMemory(n, index, e))
  {
    hide Frame, Next, ApplyWorkload;
    FrameScans(index, p, tail, DEFAULT_MAX_PAYLOAD_LEN);
  }

  lemma ReapplyStop(cfg: Config, n: Node, g: Bytes, valid: nat)
    requires Garbage(g)
    ensures Reapply(cfg, n, g, valid) == (n, valid)
  {
    hide Next, ApplyInMemory;
    GarbageStops(g, DEFAULT_MAX_PAYLOAD_LEN);
  }

  /** Scanning the rest of the log re-applies the rest of the entries, and counts their bytes. */
  lemma {:induction false} ReapplyOk(cfg: Config, n: Node, log: map<nat, Entry>, k: nat, last: nat, g: Bytes,
                                     valid: nat)
    requires CodecOk(cfg.codec) && Gapless(log, last) && k <= last < U64_LIMIT
    requires Rebuilt(cfg, n, log, k) && Garbage(g)
    ensures var rest := Log(k + 1, LogPayloads(cfg, log, last)[k..]);
      var (m, v) := Reapply(cfg, n, rest + g, valid);
      Rebuilt(cfg, m, log, last) && SameShell(n, m) && v == valid + |rest|
    decreases last - k
  {
    hide Frame, LogPayloads, Reapply, ApplyInMemory, Rebuilt, CodecOk;
    var all := LogPayloads(cfg, log, last);
    var ps := all[k..];
    if k == last {
      assert Log(k + 1, ps) + g == g;
      ReapplyStop(cfg, n, g, valid);
    } else {
      var p := ps[0];
      PayloadAt(cfg, log, last, k);
      var rest := Log(k + 2, ps[1..]);
      assert ps[1..] == all[k + 1..];
      assert Log(k + 1, ps) + g == Frame(k + 1, p) + (rest + g);
      ReapplyStep(cfg, n, k + 1, log[k + 1], p, rest + g, valid);
      ReapplyOne(cfg, n, log, k, last);
      ReapplyOk(cfg, ApplyInMemory(n, k + 1, log[k + 1]), log, k + 1, last, g, valid + FrameLen(|p|));
    }
  }

  lemma PayloadAt(cfg: Config, log: map<nat, Entry>, last: nat, k: nat)
    requires CodecOk(cfg.codec) && Gapless(log, last) && k < last < U64_LIMIT
    ensures var p := LogPayloads(cfg, log, last)[k];
      p == EntryPayload(cfg, k + 1, log[k + 1]) && |p| <= DEFAULT_MAX_PAYLOAD_LEN
      && cfg.codec.decode(p) == Some(WalEntry(k + 1, log[k + 1]))
  {
    PayloadFits(cfg, k + 1, log[k + 1]);
  }

  /** Recovery is exact: whatever torn bytes follow the log, the node gets back precisely the
      committed map and ledger it had, and the torn tail is gone. */
  lemma RecoverExact(cfg: Config, n: Node)
    requires CodecOk(cfg.codec) && NodeOk(cfg, n)
    ensures var m := RecoverNode(cfg, n);
      && m.committed == n.committed && m.commitIndex == n.commitIndex && m.ledger == n.ledger
      && m.pending == map[] && m.uncommitted == map[]
      && m.disk == Disk(DiskLog(cfg, n.committed, n.commitIndex), [])
      && SameElection(n, m)
  {
    hide Frame, Next, ApplyWorkload, LogPayloads, Log;
    var k := n.commitIndex;
    var good := DiskLog(cfg, n.committed, k);
    var g := n.disk.flushed[|good|..];
    assert n.disk.flushed == good + g;
    assert LogPayloads(cfg, n.committed, k)[0..] == LogPayloads(cfg, n.committed, k);
    ReapplyOk(cfg, Wiped(cfg, n), n.committed, 0, k, g, 0);
    var (m, v) := Reapply(cfg, Wiped(cfg, n), n.disk.flushed, 0);
    assert Truncate(n.disk.flushed, v) == good;
    assert m.committed == n.committed;
  }

  lemma CrashLeavesGarbage(d: Disk, good: Bytes, torn: bool, tornLen: nat)
    requires d.buffered == [] && good <= d.flushed && Garbage(d.flushed[|good|..])
    ensures var e := DiskCrash(d, torn, tornLen);
      e.buffered == [] && good <= e.flushed && Garbage(e.flushed[|good|..])
  {
    var f := Fragment(Max(1, Min(tornLen, 15)));
    assert f[0] == 0xEE;
    assert (d.flushed + f)[|good|..] == d.flushed[|good|..] + f;
  }

  /** A crash, torn or not, on a node that is up or already down, only adds garbage to the disk. */
  lemma CrashOk(cfg: Config, n: Node, torn: bool, tornLen: nat)
    requires NodeOk(cfg, n)
    ensures NodeOk(cfg, CrashNode(n, torn, tornLen))
    ensures Grows(n, CrashNode(n, torn, tornLen), map[])
  {
    hide DiskLog, Fold, DiskCrash;
    CrashLeavesGarbage(n.disk, DiskLog(cfg, n.committed, n.commitIndex), torn, tornLen);
  }

  lemma RebootOk(cfg: Config, n: Node)
    requires CodecOk(cfg.codec) && NodeOk(cfg, n)
    ensures NodeOk(cfg, RebootNode(cfg, n).node) && Grows(n, RebootNode(cfg, n).node, map[])
  {
    hide RecoverNode, DiskLog;
    RecoverExact(cfg, n);
    var good := DiskLog(cfg, n.committed, n.commitIndex);
    assert good[|good|..] == [];
  }
}
