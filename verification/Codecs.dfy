/**
 Codecs that meet what is assumed of postcard: fixed-width little-endian words. They show that the
 hypotheses of the cluster theorems and of crash consistency hold of some codec.
 */
module Codecs {
  import opened Prelude
  import opened LedgerTypes
  import opened WalRecord
  import ClusterTypes
  import ClusterGenesis
  import ClusterNode
  import CrashConsistency

  const WORD_LEN: nat := 16
  const ENTRY_WORDS: nat := 7
  const EVENT_WORDS: nat := 9

  // ----- words and bytes

  lemma WordRange()
    ensures Pow256(WORD_LEN) == U128_LIMIT
  {
    assert Pow256(4) == 256 * (256 * (256 * (256 * Pow256(0))));
    assert Pow256(8) == 256 * (256 * (256 * (256 * Pow256(4))));
    assert Pow256(12) == 256 * (256 * (256 * (256 * Pow256(8))));
    assert Pow256(16) == 256 * (256 * (256 * (256 * Pow256(12))));
  }

  lemma {:induction false} FromLeBound(s: Bytes)
    ensures FromLe(s) < Pow256(|s|)
  {
    if s != [] {
      FromLeBound(s[1..]);
    }
  }

  function ReadWord(b: Bytes): u128
    requires |b| == WORD_LEN
  {
    FromLeBound(b);
    WordRange();
    FromLe(b)
  }

  function WordsToBytes(ws: seq<u128>): (b: Bytes)
    ensures |b| == WORD_LEN * |ws|
  {
    if ws == [] then [] else Le(ws[0], WORD_LEN) + WordsToBytes(ws[1..])
  }

  function BytesToWords(b: Bytes): seq<u128> {
    if |b| < WORD_LEN then [] else [ReadWord(b[..WORD_LEN])] + BytesToWords(b[WORD_LEN..])
  }

  lemma {:induction false} WordsRoundTrip(ws: seq<u128>)
    ensures BytesToWords(WordsToBytes(ws)) == ws
  {
    hide Le, FromLe, Pow256;
    if ws != [] {
      var b := WordsToBytes(ws);
      assert b[..WORD_LEN] == Le(ws[0], WORD_LEN) && b[WORD_LEN..] == WordsToBytes(ws[1..]);
      WordRange();
      LeRoundTrip(ws[0], WORD_LEN);
      WordsRoundTrip(ws[1..]);
    }
  }

  // ----- cluster entries

  function EntryToWords(e: ClusterTypes.WalEntry): (ws: seq<u128>)
    ensures |ws| == ENTRY_WORDS
  {
    var i, ts := e.index % U64_LIMIT, e.entry.timestamp;
    match e.entry.op
    case DirectTransfer(id, from, to, amount) => [i, 0, id, from, to, amount, ts]
    case CreateHold(id, from, to, amount) => [i, 1, id, from, to, amount, ts]
    case PostHold(p, q, amount) => [i, 2, p, q, 0, amount, ts]
    case VoidHold(p, q) => [i, 3, p, q, 0, 0, ts]
  }

  function WordsToEntry(ws: seq<u128>): Option<ClusterTypes.WalEntry> {
    if |ws| != ENTRY_WORDS || ws[6] >= U64_LIMIT then None
    else
      var op := match ws[1]
        case 0 => ClusterTypes.DirectTransfer(ws[2], ws[3], ws[4], ws[5])
        case 1 => ClusterTypes.CreateHold(ws[2], ws[3], ws[4], ws[5])
        case 2 => ClusterTypes.PostHold(ws[2], ws[3], ws[5])
        case _ => ClusterTypes.VoidHold(ws[2], ws[3]);
      Some(ClusterTypes.WalEntry(ws[0], ClusterTypes.Entry(op, ws[6])))
  }

  const ENTRY_CODEC: ClusterTypes.EntryCodec :=
    ClusterTypes.EntryCodec(e => WordsToBytes(EntryToWords(e)), b => WordsToEntry(BytesToWords(b)))

  /** What the cluster theorems assume of the entry codec is met. */
  lemma EntryCodecExists()
    ensures ClusterTypes.CodecOk(ENTRY_CODEC)
  {
    hide WordsToBytes, BytesToWords;
    forall e: ClusterTypes.WalEntry | e.index < U64_LIMIT ensures ClusterTypes.Stores(ENTRY_CODEC, e) {
      WordsRoundTrip(EntryToWords(e));
    }
  }

  /** A cluster as the source builds it: three nodes, two customers. */
  const THREE_NODES: ClusterNode.Setup := ClusterNode.Setup(ENTRY_CODEC, {1, 2, 3}, 6, [1, 2], 1000)

  /** Everything the theorems about the cluster and its oracle assume of a setup is met at once. */
  lemma OrderlySetupExists()
    ensures ClusterNode.SetupOk(THREE_NODES) && ClusterTypes.CodecOk(THREE_NODES.codec)
    ensures ClusterGenesis.Fundable(THREE_NODES.accounts, THREE_NODES.balance)
  {
    hide ClusterTypes.CodecOk;
    EntryCodecExists();
  }

  // ----- ledger events

  function Number(b: bool): u128 {
    if b then 1 else 0
  }

  function TypeNumber(t: AccountType): u128 {
    match t case Asset => 0 case Liability => 1 case Equity => 2 case Revenue => 3 case Expense => 4
  }

  function TypeOf(n: u128): AccountType {
    match n case 0 => Asset case 1 => Liability case 2 => Equity case 3 => Revenue case _ => Expense
  }

  function StateNumber(s: TransferState): u128 {
    match s case Pending => 0 case Posted => 1 case Voided => 2
  }

  function StateOf(n: u128): TransferState {
    match n case 0 => Pending case 1 => Posted case _ => Voided
  }

  function TransferToWords(tag: u128, t: Transfer): (ws: seq<u128>)
    ensures |ws| == EVENT_WORDS
  {
    var link := if t.pendingId.Some? then t.pendingId.value else 0;
    [tag, t.id, t.debit, t.credit, t.amount, StateNumber(t.state), Number(t.pendingId.Some?), link, t.timestamp]
  }

  function EventToWords(e: LedgerEvent): (ws: seq<u128>)
    ensures |ws| == EVENT_WORDS
  {
    match e
    case AccountCreated(id, kind, f, scale, ts) =>
      [0, id, TypeNumber(kind), Number(f.debitsMustNotExceedCredits), Number(f.creditsMustNotExceedDebits),
       Number(f.isClosed), scale, 0, ts]
    case AccountClosedAt(id, ts) => [1, id, 0, 0, 0, 0, 0, 0, ts]
    case TransferPosted(t) => TransferToWords(2, t)
    case TransferPendingCreated(t) => TransferToWords(3, t)
    case TransferPendingPosted(p, q, amount, ts) => [4, p, q, amount, 0, 0, 0, 0, ts]
    case TransferPendingVoided(p, amount, ts) => [5, p, 0, amount, 0, 0, 0, 0, ts]
  }

  function WordsToTransfer(ws: seq<u128>): Transfer
    requires |ws| == EVENT_WORDS && ws[8] < U64_LIMIT
  {
    Transfer(ws[1], ws[2], ws[3], ws[4], StateOf(ws[5]), if ws[6] == 1 then Some(ws[7]) else None, ws[8])
  }

  function WordsToEvent(ws: seq<u128>): Option<LedgerEvent>
    requires |ws| == EVENT_WORDS
  {
    if ws[8] >= U64_LIMIT then None
    else match ws[0]
      case 0 =>
        if ws[6] > 18 then None
        else Some(AccountCreated(ws[1], TypeOf(ws[2]), AccountFlags(ws[3] == 1, ws[4] == 1, ws[5] == 1), ws[6], ws[8]))
      case 1 => Some(AccountClosedAt(ws[1], ws[8]))
      case 2 => Some(TransferPosted(WordsToTransfer(ws)))
      case 3 => Some(TransferPendingCreated(WordsToTransfer(ws)))
      case 4 => Some(TransferPendingPosted(ws[1], ws[2], ws[3], ws[8]))
      case _ => Some(TransferPendingVoided(ws[1], ws[3], ws[8]))
  }

  lemma EventRoundTrip(e: LedgerEvent)
    ensures WordsToEvent(EventToWords(e)) == Some(e)
  {
  }

  function EventsToWords(events: seq<LedgerEvent>): seq<u128> {
    if events == [] then [] else EventToWords(events[0]) + EventsToWords(events[1..])
  }

  function WordsToEvents(ws: seq<u128>): Option<seq<LedgerEvent>> {
    if ws == [] then Some([])
    else if |ws| < EVENT_WORDS then None
    else
      match (WordsToEvent(ws[..EVENT_WORDS]), WordsToEvents(ws[EVENT_WORDS..]))
      case (Some(e), Some(rest)) => Some([e] + rest)
      case _ => None
  }

  lemma {:induction false} EventsRoundTrip(events: seq<LedgerEvent>)
    ensures WordsToEvents(EventsToWords(events)) == Some(events)
  {
    hide EventToWords, WordsToEvent;
    if events != [] {
      var ws := EventsToWords(events);
      assert ws[..EVENT_WORDS] == EventToWords(events[0]) && ws[EVENT_WORDS..] == EventsToWords(events[1..]);
      EventRoundTrip(events[0]);
      EventsRoundTrip(events[1..]);
      assert events == [events[0]] + events[1..];
    }
  }

  const EVENT_CODEC: CrashConsistency.EventCodec :=
    CrashConsistency.EventCodec(es => WordsToBytes(EventsToWords(es)), b => WordsToEvents(BytesToWords(b)))

  /** What crash consistency assumes of the event codec is met. */
  lemma EventCodecExists()
    ensures CrashConsistency.RoundTrips(EVENT_CODEC)
  {
    hide WordsToBytes, BytesToWords, EventsToWords, WordsToEvents;
    forall events ensures EVENT_CODEC.decode(EVENT_CODEC.encode(events)) == Some(events) {
      WordsRoundTrip(EventsToWords(events));
      EventsRoundTrip(events);
    }
  }
}
