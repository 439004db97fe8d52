/**
 The single-writer engine (crates/ingest/src/engine.rs): prepare a batch of transactions
 speculatively, append the accepted ones to the log in one group, commit their events to the
 ledger, and answer. The async shell around it is not modelled.
 */
module IngestEngine {
  import opened Prelude
  import opened LedgerTypes
  import LE = LedgerEngine
  import opened LedgerReplay
  import opened LedgerSpeculation
  import opened WalRecord
  import opened WalRecovery
  import WF = WalFile
  import opened CrashConsistency

  /** What a transaction's sender is told. */
  datatype Reply = Committed | Rejected(error: LedgerError) | LogFailed(walError: WalError) | NoReply

  datatype EngineError = WalFailure(walError: WalError) | EncodeFailure

  /** Rejections stand; the accepted transactions share one fate. */
  function Replies(results: seq<Prepared>, fate: Reply): (rs: seq<Reply>)
    ensures |rs| == |results|
  {
    seq(|results|, i requires 0 <= i < |results| => if results[i].Err? then Rejected(results[i].error) else fate)
  }

  /** What the sender of transaction `i` must be told: a transaction that does not execute is rejected
      with its own error, one that does is told how the batch ended. */
  ghost predicate Told(s: LedgerState, txs: seq<seq<BatchOp>>, i: nat, reply: Reply, r: Result<(), EngineError>)
    requires i < |txs|
  {
    if !Executes(s, txs, i) then reply.Rejected? && GuardedOps(OneByOne(s, txs[..i]), txs[i]) == Err(reply.error)
    else
      match r
      case Ok(_) => reply == Committed
      case Err(WalFailure(e)) => reply == LogFailed(e)
      case Err(EncodeFailure) => reply == NoReply
  }

  ghost predicate AllTold(s: LedgerState, txs: seq<seq<BatchOp>>, replies: seq<Reply>, r: Result<(), EngineError>) {
    |replies| == |txs| && forall i :: 0 <= i < |txs| ==> Told(s, txs, i, replies[i], r)
  }

  /** Record `first + Rank(i)` of the log is what transaction `i` did. */
  ghost predicate LoggedAt(cfg: Config, s: LedgerState, txs: seq<seq<BatchOp>>, i: nat, first: nat, log: seq<Bytes>)
    requires i < |txs|
  {
    first + Rank(s, txs, i) < |log| && log[first + Rank(s, txs, i)] == cfg.codec.encode(EventsAt(s, txs, i))
  }

  /** Only transactions that were logged and committed are told so. */
  lemma CommittedIffExecuted(s: LedgerState, txs: seq<seq<BatchOp>>, replies: seq<Reply>, r: Result<(), EngineError>)
    requires AllTold(s, txs, replies, r)
    ensures forall i :: 0 <= i < |txs| ==> (replies[i] == Committed <==> r.Ok? && Executes(s, txs, i))
  {
    hide Executes;
    forall i | 0 <= i < |txs| ensures replies[i] == Committed <==> r.Ok? && Executes(s, txs, i) {
      assert Told(s, txs, i, replies[i], r);
    }
  }

  lemma ReplyTells(s: LedgerState, txs: seq<seq<BatchOp>>, fate: Reply, r: Result<(), EngineError>)
    requires match r case Ok(_) => fate == Committed case Err(WalFailure(e)) => fate == LogFailed(e)
             case Err(EncodeFailure) => fate == NoReply
    ensures AllTold(s, txs, Replies(PrepareTransactions(s, txs), fate), r)
  {
    hide PrepareTransactions, OneByOne, GuardedOps;
    RankCounts(s, txs, 0);
    var replies := Replies(PrepareTransactions(s, txs), fate);
    forall i | 0 <= i < |txs| ensures Told(s, txs, i, replies[i], r) {
      AcceptsWhatExecutionAccepts(s, txs, i);
    }
  }

  /** Record `n` is that of a transaction whose sender was told `Committed`. */
  ghost predicate NamesCommitted(s: LedgerState, txs: seq<seq<BatchOp>>, replies: seq<Reply>, first: nat, n: nat)
    requires |replies| == |txs|
  {
    exists i :: 0 <= i < |txs| && replies[i] == Committed && n == first + Rank(s, txs, i)
  }

  /** The records that count as answered in a history are those of the senders told `Committed`. */
  lemma AnsweredAreCommitted(cfg: Config, w: World, txs: seq<seq<BatchOp>>, replies: seq<Reply>, n: nat)
    requires Storable(cfg, w.engine, txs) && AllTold(w.engine.ledger, txs, replies, Ok(()))
    ensures Advance(cfg, w, Served(txs)).Some?
    ensures var answered := Advance(cfg, w, Served(txs)).value.history.answered;
      n in answered <==>
        (n in w.history.answered || NamesCommitted(w.engine.ledger, txs, replies, |w.history.records|, n))
    ensures var answered := Advance(cfg, w, Served(txs)).value.history.answered;
      forall i :: 0 <= i < |txs| && replies[i] == Committed ==>
        var m := |w.history.records| + Rank(w.engine.ledger, txs, i);
        m in answered && answered[m] == EventsAt(w.engine.ledger, txs, i)
  {
    hide PrepareTransactions, Serve, NamesCommitted, Answers, Storable, EventsAt, Rank;
    CommitNeverFails(cfg, w.engine, txs);
    AnswersAreCommitted(w.engine.ledger, txs, replies, |w.history.records|, n);
  }

  lemma AnswersAreCommitted(s: LedgerState, txs: seq<seq<BatchOp>>, replies: seq<Reply>, first: nat, n: nat)
    requires AllTold(s, txs, replies, Ok(()))
    ensures var answers := Answers(first, Accepted(PrepareTransactions(s, txs)));
      && (n in answers <==> NamesCommitted(s, txs, replies, first, n))
      && forall i :: 0 <= i < |txs| && replies[i] == Committed ==>
           first + Rank(s, txs, i) in answers && answers[first + Rank(s, txs, i)] == EventsAt(s, txs, i)
  {
    hide PrepareTransactions, Executes, EventsAt, Rank, Accepted, AllTold;
    var batches := Accepted(PrepareTransactions(s, txs));
    assert |replies| == |txs| by { TellsAll(s, txs, replies, Ok(())); }
    CommittedIffExecuted(s, txs, replies, Ok(()));
    forall i | 0 <= i < |txs| && replies[i] == Committed
      ensures Rank(s, txs, i) < |batches| && batches[Rank(s, txs, i)] == EventsAt(s, txs, i)
    {
      AcceptedAt(s, txs, i);
    }
    RankCounts(s, txs, |txs|);
    assert PrepareTransactions(s, txs)[..|txs|] == PrepareTransactions(s, txs);
    if first <= n < first + |batches| {
      var i := AcceptedFrom(s, txs, |txs|, n - first);
      assert replies[i] == Committed;
    }
  }

  lemma TellsAll(s: LedgerState, txs: seq<seq<BatchOp>>, replies: seq<Reply>, r: Result<(), EngineError>)
    requires AllTold(s, txs, replies, r)
    ensures |replies| == |txs|
  {
  }

  class Engine {
    const ledger: LE.Ledger
    const wal: WF.Wal
    const cfg: Config

    ghost predicate Valid()
      reads this, wal
    {
      wal.Valid() && wal.options == WF.WalOptions(cfg.max, true)
    }

    function View(): EngineState
      reads this, ledger, wal
    {
      EngineState(ledger.View(), wal.file, wal.nextSeq)
    }

    constructor (ledger: LE.Ledger, wal: WF.Wal, cfg: Config)
      requires wal.Valid() && wal.options == WF.WalOptions(cfg.max, true)
      ensures Valid() && this.ledger == ledger && this.wal == wal && this.cfg == cfg
    {
      this.ledger := ledger;
      this.wal := wal;
      this.cfg := cfg;
    }

    /** Encode the events of every accepted transaction, in order. */
    method EncodePayloads(results: seq<Prepared>) returns (events: seq<LedgerEvent>, payloads: seq<Bytes>)
      ensures payloads == Payloads(cfg.codec, Accepted(results))
      ensures events == Flatten(Accepted(results))
    {
      var batches: seq<seq<LedgerEvent>> := [];
      events, payloads := [], [];
      assert results[0..] == results;
      for i := 0 to |results|
        invariant batches + Accepted(results[i..]) == Accepted(results)
        invariant payloads == Payloads(cfg.codec, batches)
        invariant events == Flatten(batches)
      {
        assert results[i..][0] == results[i] && results[i..][1..] == results[i + 1..];
        if results[i].Ok? {
          FlattenConcat(batches, [results[i].value]);
          assert Flatten([results[i].value]) == results[i].value + Flatten([]);
          assert batches + ([results[i].value] + Accepted(results[i + 1..])) == Accepted(results);
          batches := batches + [results[i].value];
          payloads := payloads + [cfg.codec.encode(results[i].value)];
          events := events + results[i].value;
        }
      }
      assert results[|results|..] == [];
      assert batches == Accepted(results);
    }

    /** `process_batch`, from prepared transactions on. Every sender is told what happened to its
        transaction. Without a failure the engine ends where `Serve` says, and what a committed
        transaction did stands in the durable log at its place. When the log or the encoder fails, the
        ledger does not change. The commit after a successful append cannot fail. */
    method ProcessBatch(txs: seq<seq<BatchOp>>, encodes: bool, fault: WF.Fault)
      returns (replies: seq<Reply>, r: Result<(), EngineError>)
      requires Valid() && wal.nextSeq + |txs| <= U64_LIMIT
      modifies ledger, wal
      ensures r.Ok? || !WF.Stuck(fault) ==> Valid()
      ensures AllTold(old(ledger.View()), txs, replies, r)
      ensures r.Ok? ==> Serve(cfg, old(View()), txs) == Ok(View()) && Storable(cfg, old(View()), txs)
      ensures r.Ok? ==> forall i :: 0 <= i < |txs| && Executes(old(ledger.View()), txs, i) ==>
        LoggedAt(cfg, old(ledger.View()), txs, i, old(wal.nextSeq), wal.Contents())
      ensures r.Ok? && |BatchesOf(old(View()), txs)| > 0 ==> wal.durable == |wal.file|
      ensures r.Err? ==> ledger.View() == old(ledger.View()) && wal.nextSeq == old(wal.nextSeq)
      ensures r.Err? && !WF.Stuck(fault) ==> View() == old(View())
      ensures r.Err? && WF.Stuck(fault) ==> old(wal.file) <= wal.file
      ensures r == Err(EncodeFailure) <==> !encodes && BatchesOf(old(View()), txs) != []
      ensures r.Ok? <==>
        BatchesOf(old(View()), txs) == [] || (encodes && Storable(cfg, old(View()), txs) && fault.NoFault?)
    {
      hide PrepareTransactions, GuardedEvents, Stream, Log, Flatten, Accepted, Executes, Rank, EventsAt, AllTold,
           Replies;
      ghost var s := ledger.View();
      var results := ledger.PrepareTransactions(txs);
      AcceptedCount(ledger.View(), txs);
      CommitReachesExecution(ledger.View(), txs);
      var events, payloads := EncodePayloads(results);
      if payloads != [] && !encodes {
        r := Err(EncodeFailure);
        ReplyTells(s, txs, NoReply, r);
        return Replies(results, NoReply), r;
      }
      var appended := wal.AppendBatch(payloads, fault);
      if appended.Err? {
        r := Err(WalFailure(appended.error));
        ReplyTells(s, txs, LogFailed(appended.error), r);
        return Replies(results, LogFailed(appended.error)), r;
      }
      var committed := ledger.CommitEvents(events);
      assert committed.Ok?;
      r := Ok(());
      ReplyTells(s, txs, Committed, r);
      PayloadsStand(cfg, s, txs, old(wal.file), old(wal.nextSeq), old(wal.Contents()));
      return Replies(results, Committed), r;
    }

    lemma {:induction false} AcceptedCount(s: LedgerState, txs: seq<seq<BatchOp>>)
      ensures |Accepted(PrepareTransactions(s, txs))| <= |txs|
      decreases |txs|
    {
      if txs != [] {
        PrepareHead(s, txs);
        AcceptedCount(ExecuteTx(s, txs[0]), txs[1..]);
      }
    }
  }

  /** Behind a log of `first` records, the payloads of the accepted transactions stand at their ranks. */
  lemma PayloadsStand(cfg: Config, s: LedgerState, txs: seq<seq<BatchOp>>, file: Bytes, first: nat, log: seq<Bytes>)
    requires Holds(file, cfg.max, 0, first, log)
    ensures forall i :: 0 <= i < |txs| && Executes(s, txs, i) ==>
      LoggedAt(cfg, s, txs, i, first, log + Payloads(cfg.codec, Accepted(PrepareTransactions(s, txs))))
  {
    hide Executes, Rank, EventsAt, PrepareTransactions, Accepted, Holds;
    HoldsCount(file, cfg.max, 0, first, log);
    forall i | 0 <= i < |txs| && Executes(s, txs, i)
      ensures LoggedAt(cfg, s, txs, i, first, log + Payloads(cfg.codec, Accepted(PrepareTransactions(s, txs))))
    {
      AcceptedAt(s, txs, i);
    }
  }
}
