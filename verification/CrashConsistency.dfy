/**
 The ingestion engine over its lifetime: batches are prepared, logged, committed and answered;
 power cuts stop it at any byte of an append; a restart opens the log, decodes it and replays
 it. The main theorem is crash consistency over every such history.
 */
module CrashConsistency {
  import opened Prelude
  import opened LedgerTypes
  import opened LedgerSpec
  import opened LedgerReplay
  import opened LedgerSpeculation
  import opened WalRecovery

  /** The event codec (postcard), known only by its round trip. */
  datatype EventCodec = EventCodec(encode: seq<LedgerEvent> -> Bytes, decode: Bytes -> Option<seq<LedgerEvent>>)

  ghost predicate RoundTrips(codec: EventCodec) {
    forall events :: codec.decode(codec.encode(events)) == Some(events)
  }

  datatype Config = Config(codec: EventCodec, scale: Scale, max: nat)

  ghost predicate ConfigOk(cfg: Config) {
    RoundTrips(cfg.codec) && cfg.max < U32_LIMIT
  }

  /** One log record per accepted transaction. */
  function Payloads(codec: EventCodec, batches: seq<seq<LedgerEvent>>): (ps: seq<Bytes>)
    ensures |ps| == |batches|
  {
    seq(|batches|, i requires 0 <= i < |batches| => codec.encode(batches[i]))
  }

  function DecodeAll(codec: EventCodec, ps: seq<Bytes>): Option<seq<seq<LedgerEvent>>> {
    if ps == [] then Some([])
    else
      match codec.decode(ps[0])
      case None => None
      case Some(events) =>
        match DecodeAll(codec, ps[1..])
        case None => None
        case Some(rest) => Some([events] + rest)
  }

  lemma {:induction false} DecodesWhatWasEncoded(codec: EventCodec, batches: seq<seq<LedgerEvent>>)
    requires RoundTrips(codec)
    ensures DecodeAll(codec, Payloads(codec, batches)) == Some(batches)
  {
    if batches != [] {
      assert Payloads(codec, batches)[1..] == Payloads(codec, batches[1..]);
      DecodesWhatWasEncoded(codec, batches[1..]);
      assert batches == [batches[0]] + batches[1..];
    }
  }

  /** A running engine: the in-memory ledger and the log file. */
  datatype EngineState = EngineState(ledger: LedgerState, file: Bytes, nextSeq: nat)

  function Fresh(cfg: Config): EngineState {
    EngineState(New(cfg.scale), [], 0)
  }

  /** Start up from what the disk holds: open the log, decode every record, replay the events. */
  function Restart(cfg: Config, disk: Bytes): Option<EngineState> {
    match Recover(disk, cfg.max, 0, 0)
    case Err(_) => None
    case Ok(r) =>
      match Stream(disk[..r.end], cfg.max, 0, r.nextSeq)
      case Err(_) => None
      case Ok(ps) =>
        match DecodeAll(cfg.codec, ps)
        case None => None
        case Some(batches) =>
          match Replay(cfg.scale, Flatten(batches))
          case Err(_) => None
          case Ok(ledger) => Some(EngineState(ledger, disk[..r.end], r.nextSeq))
  }

  /** The event batches `process_batch` is about to log for `txs`. */
  function BatchesOf(e: EngineState, txs: seq<seq<BatchOp>>): seq<seq<LedgerEvent>> {
    Accepted(PrepareTransactions(e.ledger, txs))
  }

  /** The log accepts the group: every payload fits and the record numbers do not run out. */
  predicate Storable(cfg: Config, e: EngineState, txs: seq<seq<BatchOp>>) {
    Fits(Payloads(cfg.codec, BatchesOf(e, txs)), cfg.max) && e.nextSeq + |BatchesOf(e, txs)| <= U64_LIMIT
  }

  /** The bytes one `append_batch` writes. */
  function Appended(cfg: Config, e: EngineState, txs: seq<seq<BatchOp>>): Bytes {
    if Storable(cfg, e, txs) then Log(e.nextSeq, Payloads(cfg.codec, BatchesOf(e, txs))) else []
  }

  /** Prepare, append, commit. `Err` is the commit failure the source guards against. */
  function Serve(cfg: Config, e: EngineState, txs: seq<seq<BatchOp>>): Result<EngineState, LedgerError> {
    if !Storable(cfg, e, txs) then Ok(e)
    else
      var batches := BatchesOf(e, txs);
      var ledger :- GuardedEvents(e.ledger, Flatten(batches));
      Ok(EngineState(ledger, e.file + Appended(cfg, e, txs), e.nextSeq + |batches|))
  }

  /** What the disk holds when the power fails `cut` bytes into the append. */
  function DiskAfterCut(cfg: Config, e: EngineState, txs: seq<seq<BatchOp>>, cut: nat): Bytes {
    e.file + Truncate(Appended(cfg, e, txs), cut)
  }

  // ----- histories

  /** What happens to an engine: it serves a batch to the end, or loses power during one. */
  datatype Input = Served(txs: seq<seq<BatchOp>>) | PowerCut(txs: seq<seq<BatchOp>>, cut: nat)

  /** `records`: the event batches in the log. `executed`: transactions whose effect the ledger
      has. `answered`: record number and events of every transaction answered Ok. */
  datatype History = History(records: seq<seq<LedgerEvent>>, executed: seq<seq<BatchOp>>,
                             answered: map<nat, seq<LedgerEvent>>)

  datatype World = World(engine: EngineState, history: History)

  function Numbers(first: nat, count: nat): (r: set<nat>)
    ensures forall n: nat :: n in r <==> first <= n < first + count
  {
    if count == 0 then {} else Numbers(first, count - 1) + {first + count - 1}
  }

  function Answers(first: nat, batches: seq<seq<LedgerEvent>>): map<nat, seq<LedgerEvent>> {
    map n | n in Numbers(first, |batches|) :: batches[n - first]
  }

  /** How many of the batch's transactions a cut leaves in the log. */
  function Survivors(cfg: Config, e: EngineState, txs: seq<seq<BatchOp>>, cut: nat): (m: nat)
    ensures m <= |BatchesOf(e, txs)|
  {
    if Storable(cfg, e, txs) then Kept(Payloads(cfg.codec, BatchesOf(e, txs)), Min(cut, |Appended(cfg, e, txs)|)) else 0
  }

  function Advance(cfg: Config, w: World, input: Input): Option<World> {
    var e, h := w.engine, w.history;
    match input
    case Served(txs) =>
      (match Serve(cfg, e, txs)
       case Err(_) => None
       case Ok(e') =>
         if !Storable(cfg, e, txs) then Some(w)
         else
           var batches := BatchesOf(e, txs);
           Some(World(e', History(h.records + batches, h.executed + txs,
                                  h.answered + Answers(|h.records|, batches)))))
    case PowerCut(txs, cut) =>
      (match Restart(cfg, DiskAfterCut(cfg, e, txs, cut))
       case None => None
       case Some(e') =>
         var m := Survivors(cfg, e, txs, cut);
         var j := TxsFor(PrepareTransactions(e.ledger, txs), m);
         Some(World(e', History(h.records + BatchesOf(e, txs)[..m], h.executed + Truncate(txs, j), h.answered))))
  }

  function Life(cfg: Config, inputs: seq<Input>): Option<World> {
    if inputs == [] then Some(World(Fresh(cfg), History([], [], map[])))
    else
      match Life(cfg, inputs[..|inputs| - 1])
      case None => None
      case Some(w) => Advance(cfg, w, inputs[|inputs| - 1])
  }

  /** The log holds the recorded batches, the ledger is their replay and the result of executing
      whole transactions, and every answered transaction is among the records. */
  ghost predicate Consistent(cfg: Config, w: World) {
    var e, h := w.engine, w.history;
    && Holds(e.file, cfg.max, 0, e.nextSeq, Payloads(cfg.codec, h.records))
    && e.nextSeq <= U64_LIMIT
    && Replay(cfg.scale, Flatten(h.records)) == Ok(e.ledger)
    && e.ledger == OneByOne(New(cfg.scale), h.executed)
    && (forall n :: n in h.answered ==> n < |h.records| && h.records[n] == h.answered[n])
  }

  /** The commit after a successful append never fails, so that error path is dead. */
  lemma CommitNeverFails(cfg: Config, e: EngineState, txs: seq<seq<BatchOp>>)
    ensures Serve(cfg, e, txs).Ok?
    ensures Storable(cfg, e, txs) ==> Serve(cfg, e, txs).value.ledger == OneByOne(e.ledger, txs)
  {
    CommitReachesExecution(e.ledger, txs);
  }

  lemma PayloadsConcat(codec: EventCodec, a: seq<seq<LedgerEvent>>, b: seq<seq<LedgerEvent>>)
    ensures Payloads(codec, a + b) == Payloads(codec, a) + Payloads(codec, b)
  {
  }

  /** Executing the first `m` accepted transactions of a batch extends log, replay and execution alike. */
  lemma LedgerAfterRecords(cfg: Config, w: World, txs: seq<seq<BatchOp>>, m: nat)
    requires Consistent(cfg, w) && m <= |BatchesOf(w.engine, txs)|
    ensures var j := TxsFor(PrepareTransactions(w.engine.ledger, txs), m);
      && |PrepareTransactions(w.engine.ledger, txs)| == |txs|
      && Replay(cfg.scale, Flatten(w.history.records + BatchesOf(w.engine, txs)[..m]))
         == Ok(OneByOne(New(cfg.scale), w.history.executed + txs[..j]))
  {
    var s := w.engine.ledger;
    AcceptedPrefix(s, txs, m);
    var j := TxsFor(PrepareTransactions(s, txs), m);
    CommitReachesExecution(s, txs[..j]);
    FlattenConcat(w.history.records, BatchesOf(w.engine, txs)[..m]);
    ApplyEventsConcat(New(cfg.scale), Flatten(w.history.records), Flatten(BatchesOf(w.engine, txs)[..m]));
    OneByOneConcat(New(cfg.scale), w.history.executed, txs[..j]);
  }

  lemma ServedStaysConsistent(cfg: Config, w: World, txs: seq<seq<BatchOp>>)
    requires ConfigOk(cfg) && Consistent(cfg, w)
    ensures Advance(cfg, w, Served(txs)).Some? && Consistent(cfg, Advance(cfg, w, Served(txs)).value)
  {
    hide PrepareTransactions, Stream, ApplyEvents, GuardedEvents, Flatten, Log;
    var e, h := w.engine, w.history;
    CommitNeverFails(cfg, e, txs);
    if Storable(cfg, e, txs) {
      var batches := BatchesOf(e, txs);
      var ps := Payloads(cfg.codec, batches);
      CommitReachesExecution(e.ledger, txs);
      FlattenConcat(h.records, batches);
      ApplyEventsConcat(New(cfg.scale), Flatten(h.records), Flatten(batches));
      OneByOneConcat(New(cfg.scale), h.executed, txs);
      PayloadsConcat(cfg.codec, h.records, batches);
      LogHolds(e.nextSeq, ps, cfg.max);
      StreamThen(e.file, Log(e.nextSeq, ps), cfg.max, 0, e.nextSeq, e.nextSeq + |ps|, Payloads(cfg.codec, h.records));
    }
  }

  /** After a power cut the disk restarts to the engine with exactly the surviving records. */
  lemma RestartAfterCut(cfg: Config, w: World, txs: seq<seq<BatchOp>>, cut: nat)
    requires ConfigOk(cfg) && Consistent(cfg, w)
    ensures var e, h := w.engine, w.history;
      var records := h.records + BatchesOf(e, txs)[..Survivors(cfg, e, txs, cut)];
      var replayed := Replay(cfg.scale, Flatten(records));
      var e' := Restart(cfg, DiskAfterCut(cfg, e, txs, cut));
      replayed.Ok? ==>
        (&& e'.Some? && e'.value.ledger == replayed.value && e'.value.nextSeq <= U64_LIMIT
         && Holds(e'.value.file, cfg.max, 0, e'.value.nextSeq, Payloads(cfg.codec, records)))
  {
    hide PrepareTransactions, Stream, Recover, ApplyEvents, Flatten, Log, Replay;
    var e, h := w.engine, w.history;
    var batches := if Storable(cfg, e, txs) then BatchesOf(e, txs) else [];
    var ps := Payloads(cfg.codec, batches);
    var m := Survivors(cfg, e, txs, cut);
    var k := Min(cut, |Log(e.nextSeq, ps)|);
    var xs := Payloads(cfg.codec, h.records);
    RecoveryAtEveryCut(e.file, e.nextSeq, xs, ps, k, cfg.max);
    assert DiskAfterCut(cfg, e, txs, cut) == e.file + Log(e.nextSeq, ps)[..k] by {
      EmptyLog(e.nextSeq);
    }
    assert Payloads(cfg.codec, batches[..m]) == ps[..m];
    PayloadsConcat(cfg.codec, h.records, batches[..m]);
    DecodesWhatWasEncoded(cfg.codec, h.records + batches[..m]);
  }

  lemma EmptyLog(n: nat)
    ensures Log(n, []) == []
  {
  }

  lemma PowerCutStaysConsistent(cfg: Config, w: World, txs: seq<seq<BatchOp>>, cut: nat)
    requires ConfigOk(cfg) && Consistent(cfg, w)
    ensures Advance(cfg, w, PowerCut(txs, cut)).Some?
    ensures Consistent(cfg, Advance(cfg, w, PowerCut(txs, cut)).value)
  {
    hide PrepareTransactions, Stream, Recover, ApplyEvents, Flatten, Log, Restart, Replay, Accepted;
    var e, h := w.engine, w.history;
    var m := Survivors(cfg, e, txs, cut);
    var j := TxsFor(PrepareTransactions(e.ledger, txs), m);
    LedgerAfterRecords(cfg, w, txs, m);
    RestartAfterCut(cfg, w, txs, cut);
    assert Truncate(txs, j) == txs[..j];
  }

  /** Crash consistency. Whatever an engine is asked to do and wherever the power fails, it always
      restarts; the ledger is the one obtained by executing whole transactions, it equals the replay
      of the log, and every transaction that was ever answered Ok is in the log, complete. */
  lemma {:induction false} CrashConsistent(cfg: Config, inputs: seq<Input>)
    requires ConfigOk(cfg)
    ensures Life(cfg, inputs).Some? && Consistent(cfg, Life(cfg, inputs).value)
    decreases |inputs|
  {
    if inputs == [] {
      EmptyLog(0);
      assert Payloads(cfg.codec, []) == [];
    } else {
      CrashConsistent(cfg, inputs[..|inputs| - 1]);
      var w := Life(cfg, inputs[..|inputs| - 1]).value;
      match inputs[|inputs| - 1]
      case Served(txs) => ServedStaysConsistent(cfg, w, txs);
      case PowerCut(txs, cut) => PowerCutStaysConsistent(cfg, w, txs, cut);
    }
  }

  /** Nothing answered is ever lost: answers and records only grow. */
  lemma AnswersArePermanent(cfg: Config, w: World, input: Input)
    requires ConfigOk(cfg) && Consistent(cfg, w)
    ensures Advance(cfg, w, input).Some?
    ensures var h' := Advance(cfg, w, input).value.history;
      && w.history.records <= h'.records && w.history.executed <= h'.executed
      && (forall n :: n in w.history.answered ==> n in h'.answered && h'.answered[n] == w.history.answered[n])
  {
    hide PrepareTransactions, Stream, Recover, ApplyEvents, Flatten, Log, Restart, Replay, Accepted;
    match input
    case Served(txs) => ServedStaysConsistent(cfg, w, txs);
    case PowerCut(txs, cut) => PowerCutStaysConsistent(cfg, w, txs, cut);
  }
}
