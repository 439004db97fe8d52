/**
 Record framing of the write-ahead log (crates/wal/src/record.rs): magic, version, flags,
 sequence number, length, payload and a CRC32C trailer.
 */
module WalRecord {
  import opened Prelude

  const MAGIC: nat := 0x5754_454C // "LETW", little endian
  const VERSION: byte := 1
  const HEADER_LEN: nat := 18
  const TRAILER_LEN: nat := 4
  const FRAME_OVERHEAD: nat := 22
  const DEFAULT_MAX_PAYLOAD_LEN: nat := 262144
  const SEQ_OFFSET: nat := 6
  const LEN_OFFSET: nat := 14
  const CHUNK_LEN: nat := 65536

  datatype HeaderError = BadMagic | UnsupportedVersion(version: byte) | HeaderPayloadTooLarge | TruncatedFrame

  datatype WalError =
    | PayloadTooLarge(actual: nat, max: nat)
    | InvalidHeader(offset: nat, kind: HeaderError)
    | SeqMismatch(offset: nat, actualSeq: nat, expectedSeq: nat)
    | ChecksumMismatch(offset: nat)
    | ChangedWhileOpen
    | Locked
    | Io

  // ----- CRC32C, reflected polynomial 0x82F63B78 (section 12.1 of RFC 3720)

  type u32 = x: int | 0 <= x < U32_LIMIT

  /** Bitwise exclusive or of the low `n` bits. */
  function XorBits(a: nat, b: nat, n: nat): (r: nat)
    ensures r < Pow2(n)
    decreases n, a
  {
    if n == 0 then 0 else (a + b) % 2 + 2 * XorBits(a / 2, b / 2, n - 1)
  }

  function Xor(a: u32, b: u32): u32 {
    assert Pow2(8) == 256 && Pow2(16) == 65536 && Pow2(24) == 16777216 && Pow2(32) == U32_LIMIT;
    XorBits(a, b, 32)
  }

  function CrcBit(c: u32): u32 {
    if c % 2 == 1 then Xor(c / 2, 0x82F6_3B78) else c / 2
  }

  /** Shift out `k` bits, one division step each. */
  function CrcBits(c: u32, k: nat): u32
    decreases k, c
  {
    if k == 0 then c else CrcBits(CrcBit(c), k - 1)
  }

  function CrcByte(c: u32, b: byte): u32 {
    CrcBits(Xor(c, b), 8)
  }

  function CrcFold(c: u32, s: Bytes): u32
    decreases |s|
  {
    if s == [] then c else CrcFold(CrcByte(c, s[0]), s[1..])
  }

  /** Bitwise complement of 32 bits. */
  function Not(c: u32): u32 {
    U32_LIMIT - 1 - c
  }

  function Crc32c(s: Bytes): u32 {
    Not(CrcFold(0xFFFF_FFFF, s))
  }

  /** `crc32c_append`: continue a finished checksum. */
  function Crc32cAppend(crc: u32, s: Bytes): u32 {
    Not(CrcFold(Not(crc), s))
  }

  lemma {:induction false} CrcFoldConcat(c: u32, a: Bytes, b: Bytes)
    ensures CrcFold(c, a + b) == CrcFold(CrcFold(c, a), b)
    decreases |a|
  {
    if a == [] {
      assert a + b == b;
    } else {
      assert (a + b)[0] == a[0] && (a + b)[1..] == a[1..] + b;
      CrcFoldConcat(CrcByte(c, a[0]), a[1..], b);
    }
  }

  /** Checksumming in pieces gives the checksum of the whole. */
  lemma CrcAppendLaw(a: Bytes, b: Bytes)
    ensures Crc32cAppend(Crc32c(a), b) == Crc32c(a + b)
  {
    hide CrcByte;
    CrcFoldConcat(0xFFFF_FFFF, a, b);
  }

  // ----- little-endian integers

  function Le(x: nat, n: nat): (r: Bytes)
    ensures |r| == n
  {
    if n == 0 then [] else [x % 256] + Le(x / 256, n - 1)
  }

  function FromLe(s: Bytes): nat {
    if s == [] then 0 else s[0] + 256 * FromLe(s[1..])
  }

  function Pow256(n: nat): nat {
    if n == 0 then 1 else 256 * Pow256(n - 1)
  }

  lemma {:induction false} LeRoundTrip(x: nat, n: nat)
    requires x < Pow256(n)
    ensures FromLe(Le(x, n)) == x
    decreases n
  {
    if n > 0 {
      LeRoundTrip(x / 256, n - 1);
      assert Le(x, n)[1..] == Le(x / 256, n - 1);
    }
  }

  lemma Le32RoundTrip(x: nat)
    requires x < U32_LIMIT
    ensures FromLe(Le(x, 4)) == x
  {
    assert Pow256(4) == 256 * (256 * (256 * (256 * Pow256(0))));
    LeRoundTrip(x, 4);
  }

  lemma Le64RoundTrip(x: nat)
    requires x < U64_LIMIT
    ensures FromLe(Le(x, 8)) == x
  {
    assert Pow256(4) == 256 * (256 * (256 * (256 * Pow256(0))));
    assert Pow256(8) == 256 * (256 * (256 * (256 * Pow256(4))));
    LeRoundTrip(x, 8);
  }

  // ----- frames

  function FrameLen(payloadLen: nat): nat {
    payloadLen + FRAME_OVERHEAD
  }

  function Header(seqno: nat, len: nat): (h: Bytes)
    ensures |h| == HEADER_LEN
  {
    Le(MAGIC, 4) + [VERSION, 0] + Le(seqno, 8) + Le(len, 4)
  }

  function Trailer(body: Bytes): (t: Bytes)
    ensures |t| == TRAILER_LEN
  {
    Le(Crc32c(body), 4)
  }

  function Body(seqno: nat, payload: Bytes): (b: Bytes)
    ensures |b| == HEADER_LEN + |payload|
  {
    Header(seqno, |payload|) + payload
  }

  function Frame(seqno: nat, payload: Bytes): (f: Bytes)
    ensures |f| == FrameLen(|payload|)
  {
    Body(seqno, payload) + Trailer(Body(seqno, payload))
  }

  datatype ScanStep = Record(seqno: nat, len: nat, payload: Option<Bytes>) | End | Broken

  predicate GoodHeader(b: Bytes, max: nat) {
    && |b| >= HEADER_LEN
    && FromLe(b[0..4]) == MAGIC && b[4] == VERSION
    && FromLe(b[LEN_OFFSET..HEADER_LEN]) <= max
  }

  function SeqOf(b: Bytes): nat
    requires |b| >= HEADER_LEN
  {
    FromLe(b[SEQ_OFFSET..SEQ_OFFSET + 8])
  }

  function LenOf(b: Bytes): nat
    requires |b| >= HEADER_LEN
  {
    FromLe(b[LEN_OFFSET..HEADER_LEN])
  }

  /** A whole, checksummed frame stands at the front of `b`. */
  predicate GoodFrame(b: Bytes, max: nat) {
    && GoodHeader(b, max)
    && var n := HEADER_LEN + LenOf(b);
    && |b| >= n + TRAILER_LEN
    && Crc32c(b[..n]) == FromLe(b[n..n + TRAILER_LEN])
  }

  /** What one scan step finds at the front of the unread bytes `b`. */
  function Next(b: Bytes, max: nat, fetch: bool): (step: ScanStep)
    ensures step == End <==> b == []
    ensures step.Record? ==> FrameLen(step.len) <= |b| && (fetch <==> step.payload.Some?)
  {
    if b == [] then End
    else if !GoodFrame(b, max) then Broken
    else Record(SeqOf(b), LenOf(b),
                if fetch then Some(b[HEADER_LEN..HEADER_LEN + LenOf(b)]) else None)
  }

  /** `decode_frame`: validate exactly one frame. */
  function DecodeFrame(b: Bytes, max: nat): Result<(nat, nat), WalError> {
    if |b| < FRAME_OVERHEAD then Err(InvalidHeader(0, TruncatedFrame))
    else if FromLe(b[0..4]) != MAGIC then Err(InvalidHeader(HEADER_LEN, BadMagic))
    else if b[4] != VERSION then Err(InvalidHeader(HEADER_LEN, UnsupportedVersion(b[4])))
    else if LenOf(b) > max then Err(InvalidHeader(HEADER_LEN, HeaderPayloadTooLarge))
    else if |b| != FrameLen(LenOf(b)) then Err(InvalidHeader(HEADER_LEN, TruncatedFrame))
    else if Crc32c(b[..|b| - TRAILER_LEN]) != FromLe(b[|b| - TRAILER_LEN..]) then
      Err(ChecksumMismatch(HEADER_LEN))
    else Ok((SeqOf(b), LenOf(b)))
  }

  /** The streaming scan yields a record that uses up its input exactly when one-shot decoding
      accepts the input, and then both report the same record. */
  lemma ScanRefinesDecode(b: Bytes, max: nat)
    ensures DecodeFrame(b, max).Ok? <==> Next(b, max, true).Record? && FrameLen(Next(b, max, true).len) == |b|
    ensures DecodeFrame(b, max).Ok? ==>
      DecodeFrame(b, max).value == (Next(b, max, true).seqno, Next(b, max, true).len)
  {
    hide Crc32c, FromLe;
    if |b| >= HEADER_LEN && |b| == FrameLen(LenOf(b)) {
      assert b[|b| - TRAILER_LEN..] == b[|b| - TRAILER_LEN..|b|];
    }
  }

  /** The header fields read back from anything that starts with an encoded frame header. */
  lemma HeaderFields(seqno: nat, len: nat, rest: Bytes)
    requires len < U32_LIMIT
    ensures var b := Header(seqno, len) + rest;
      && FromLe(b[0..4]) == MAGIC && b[4] == VERSION && LenOf(b) == len
      && (seqno < U64_LIMIT ==> SeqOf(b) == seqno)
  {
    hide Le, FromLe;
    var b := Header(seqno, len) + rest;
    assert b[0..4] == Le(MAGIC, 4);
    assert b[SEQ_OFFSET..SEQ_OFFSET + 8] == Le(seqno, 8);
    assert b[LEN_OFFSET..HEADER_LEN] == Le(len, 4);
    Le32RoundTrip(MAGIC);
    Le32RoundTrip(len);
    if seqno < U64_LIMIT {
      Le64RoundTrip(seqno);
    }
  }

  lemma FrameSlices(seqno: nat, payload: Bytes, rest: Bytes)
    ensures var b := Frame(seqno, payload) + rest;
      var n := HEADER_LEN + |payload|;
      && b == Header(seqno, |payload|) + b[HEADER_LEN..]
      && b[..n] == Body(seqno, payload)
      && b[n..n + TRAILER_LEN] == Trailer(Body(seqno, payload))
      && b[HEADER_LEN..n] == payload
      && b[FrameLen(|payload|)..] == rest
  {
    hide Header, Crc32c, Le;
  }

  /** An encoded frame scans back to its payload, whatever follows it. */
  lemma FrameScans(seqno: nat, payload: Bytes, rest: Bytes, max: nat)
    requires |payload| <= max < U32_LIMIT
    ensures var step := Next(Frame(seqno, payload) + rest, max, true);
      && step.Record? && step.len == |payload| && step.payload == Some(payload)
      && (seqno < U64_LIMIT ==> step.seqno == seqno)
    ensures (Frame(seqno, payload) + rest)[FrameLen(|payload|)..] == rest
  {
    hide Frame, Header, Crc32c, FromLe, Le;
    var b := Frame(seqno, payload) + rest;
    FrameSlices(seqno, payload, rest);
    HeaderFields(seqno, |payload|, b[HEADER_LEN..]);
    Le32RoundTrip(Crc32c(Body(seqno, payload)));
    assert GoodFrame(b, max);
  }

  /** A frame cut short is never mistaken for a record. */
  lemma CutFrameIsBroken(seqno: nat, payload: Bytes, k: nat, max: nat)
    requires |payload| <= max < U32_LIMIT
    requires k < FrameLen(|payload|)
    ensures Next(Frame(seqno, payload)[..k], max, true) == (if k == 0 then End else Broken)
  {
    hide Crc32c, FromLe, Le, Trailer;
    var b := Frame(seqno, payload)[..k];
    if k >= HEADER_LEN {
      assert b == Header(seqno, |payload|) + b[HEADER_LEN..];
      HeaderFields(seqno, |payload|, b[HEADER_LEN..]);
    }
  }

  /** Fetching the payload does not change what is found. */
  lemma FetchIsTransparent(b: Bytes, max: nat)
    ensures Next(b, max, false) == (match Next(b, max, true)
      case Record(s, l, _) => Record(s, l, None)
      case End => End
      case Broken => Broken)
  {
  }
}
