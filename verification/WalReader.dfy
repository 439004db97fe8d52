/**
 The streaming side of the record format: a reader that may return short reads, the scan
 step that tops them up and checksums the payload chunk by chunk, and the in-place encoder.
 */
module WalReader {
  import opened Prelude
  import opened WalRecord

  datatype ReadOutcome = Got(n: nat) | Interrupted | Failed

  /** A byte source with a cursor. A read returns some non-empty part of what was asked for, unless
      the source is exhausted. It may be interrupted finitely often, and fail if the source is flaky. */
  class Reader {
    const data: Bytes
    const flaky: bool
    var pos: nat
    var interrupts: nat

    ghost predicate Valid()
      reads this
    {
      pos <= |data|
    }

    function Rest(): Bytes
      requires Valid()
      reads this
    {
      data[pos..]
    }

    constructor (data: Bytes, flaky: bool, interrupts: nat)
      ensures Valid() && this.data == data && this.flaky == flaky && pos == 0
    {
      this.data := data;
      this.flaky := flaky;
      this.interrupts := interrupts;
      pos := 0;
    }

    /** One `read`: fills a prefix of `buf[start..end]` and says how long it is. */
    method Read(buf: array<byte>, start: nat, end: nat) returns (r: ReadOutcome)
      requires Valid() && start <= end <= buf.Length
      modifies this, buf
      ensures Valid() && buf[..start] == old(buf[..start])
      ensures r.Failed? ==> flaky
      ensures r.Interrupted? ==> interrupts < old(interrupts) && pos == old(pos)
      ensures r.Got? ==> r.n <= end - start && r.n <= |old(Rest())| && interrupts == old(interrupts)
      ensures r.Got? ==> (r.n == 0 <==> start == end || old(Rest()) == [])
      ensures r.Got? ==> pos == old(pos) + r.n && buf[start..start + r.n] == old(Rest())[..r.n]
    {
      if * {
        if interrupts > 0 {
          interrupts := interrupts - 1;
          return Interrupted;
        }
      } else if * {
        if flaky {
          return Failed;
        }
      }
      if start == end || pos == |data| {
        return Got(0);
      }
      var limit := if end - start < |data| - pos then end - start else |data| - pos;
      var n :| 1 <= n <= limit;
      var chunk := data[pos..pos + n];
      forall i | 0 <= i < n {
        buf[start + i] := chunk[i];
      }
      assert buf[start..start + n] == chunk == old(Rest())[..n];
      pos := pos + n;
      return Got(n);
    }
  }

  /** `read_upto`: top up short reads until the buffer is full or the source ends. */
  method ReadUpTo(reader: Reader, buf: array<byte>, want: nat) returns (r: Result<nat, WalError>)
    requires reader.Valid() && want <= buf.Length
    modifies reader, buf
    ensures reader.Valid()
    ensures r.Err? ==> reader.flaky && r.error == Io
    ensures r.Ok? ==> r.value == Min(want, |old(reader.Rest())|) && r.value <= buf.Length
    ensures r.Ok? ==> buf[..r.value] == old(reader.Rest())[..r.value] && reader.pos == old(reader.pos) + r.value
  {
    var filled := 0;
    ghost var rest := reader.Rest();
    while filled < want
      invariant reader.Valid() && filled <= want && filled <= |rest|
      invariant reader.pos == old(reader.pos) + filled
      invariant buf[..filled] == rest[..filled]
      decreases want - filled, reader.interrupts
    {
      ghost var before := buf[..filled];
      var got := reader.Read(buf, filled, want);
      match got {
        case Interrupted =>
        case Failed => return Err(Io);
        case Got(n) =>
          if n == 0 {
            break;
          }
          assert buf[..filled + n] == buf[..filled] + buf[filled..filled + n];
          assert rest[..filled + n] == rest[..filled] + rest[filled..][..n];
          filled := filled + n;
      }
    }
    return Ok(filled);
  }

  lemma CrcNextPiece(head: Bytes, rest: Bytes, done: nat, piece: Bytes)
    requires done + |piece| <= |rest| && piece == rest[done..done + |piece|]
    ensures rest[..done + |piece|] == rest[..done] + piece
    ensures Crc32cAppend(Crc32c(head + rest[..done]), piece) == Crc32c(head + rest[..done + |piece|])
  {
    hide Crc32c, Crc32cAppend;
    CrcAppendLaw(head + rest[..done], piece);
    assert rest[..done + |piece|] == rest[..done] + piece;
    assert head + rest[..done] + piece == head + rest[..done + |piece|];
  }

  /** Read and checksum `len` payload bytes in chunks; fails when the source ends early. */
  method ReadPayload(reader: Reader, head: Bytes, len: nat, fetch: bool)
    returns (r: Result<bool, WalError>, crc: u32, payload: Bytes)
    requires reader.Valid()
    modifies reader
    ensures reader.Valid()
    ensures r.Err? ==> reader.flaky && r.error == Io
    ensures r.Ok? ==> (r.value <==> len <= |old(reader.Rest())|)
    ensures r == Ok(true) ==> crc == Crc32c(head + old(reader.Rest())[..len]) && reader.pos == old(reader.pos) + len
    ensures r == Ok(true) && fetch ==> payload == old(reader.Rest())[..len]
  {
    hide Crc32c, Crc32cAppend;
    ghost var rest := reader.Rest();
    var chunk := new byte[CHUNK_LEN];
    var remaining := len;
    ghost var done := 0;
    crc := Crc32c(head);
    payload := [];
    assert head + rest[..0] == head;
    while remaining > 0
      invariant reader.Valid() && remaining >= 0 && done + remaining == len && done <= |rest|
      invariant reader.pos == old(reader.pos) + done
      invariant crc == Crc32c(head + rest[..done])
      invariant fetch ==> payload == rest[..done]
      decreases remaining
    {
      var want := Min(remaining, chunk.Length);
      var filled := ReadUpTo(reader, chunk, want);
      if filled.Err? {
        return Err(filled.error), crc, payload;
      }
      var got := filled.value;
      if got == 0 {
        return Ok(false), crc, payload;
      }
      var piece := chunk[..got];
      CrcNextPiece(head, rest, done, piece);
      crc := Crc32cAppend(crc, piece);
      if fetch {
        payload := payload + piece;
      }
      remaining := remaining - got;
      done := done + got;
    }
    r := Ok(true);
  }

  /** `next_record`: for any pattern of short reads, find what `Next` says stands at the front
      of the unread bytes, and consume exactly one frame when it is a record. */
  method NextRecord(reader: Reader, max: nat, fetch: bool) returns (r: Result<ScanStep, WalError>)
    requires reader.Valid()
    modifies reader
    ensures reader.Valid()
    ensures r.Err? ==> reader.flaky && r.error == Io
    ensures r.Ok? ==> r.value == Next(old(reader.Rest()), max, fetch)
    ensures r.Ok? && r.value.Record? ==> reader.pos == old(reader.pos) + FrameLen(r.value.len)
  {
    hide Crc32c, FromLe;
    ghost var rest := reader.Rest();
    var buf := new byte[HEADER_LEN];
    var headLen :- ReadUpTo(reader, buf, HEADER_LEN);
    if headLen == 0 {
      return Ok(End);
    }
    if headLen < HEADER_LEN {
      return Ok(Broken);
    }
    var head := buf[..];
    assert head == rest[..HEADER_LEN];
    HeaderPrefix(rest);
    if FromLe(head[0..4]) != MAGIC || head[4] != VERSION {
      return Ok(Broken);
    }
    var seqno, len := SeqOf(head), LenOf(head);
    if len > max {
      return Ok(Broken);
    }

    ghost var body := reader.Rest();
    assert body == rest[HEADER_LEN..];
    var whole, crc, payload := ReadPayload(reader, head, len, fetch);
    if whole.Err? {
      return Err(whole.error);
    }
    if !whole.value {
      return Ok(Broken);
    }
    assert head + body[..len] == rest[..HEADER_LEN + len];
    assert body[..len] == rest[HEADER_LEN..HEADER_LEN + len];

    var trailer := new byte[TRAILER_LEN];
    ghost var tail := reader.Rest();
    assert tail == rest[HEADER_LEN + len..];
    var trailerLen :- ReadUpTo(reader, trailer, TRAILER_LEN);
    if trailerLen < TRAILER_LEN {
      return Ok(Broken);
    }
    assert trailer[..] == trailer[..trailerLen] == rest[HEADER_LEN + len..HEADER_LEN + len + TRAILER_LEN];
    if crc != FromLe(trailer[..]) {
      return Ok(Broken);
    }
    return Ok(Record(seqno, len, if fetch then Some(payload) else None));
  }

  /** The header fields of a stream are those of its first bytes. */
  lemma HeaderPrefix(b: Bytes)
    requires |b| >= HEADER_LEN
    ensures var head := b[..HEADER_LEN];
      && head[0..4] == b[0..4] && head[4] == b[4]
      && SeqOf(head) == SeqOf(b) && LenOf(head) == LenOf(b)
  {
    hide FromLe;
    var head := b[..HEADER_LEN];
    assert head[SEQ_OFFSET..SEQ_OFFSET + 8] == b[SEQ_OFFSET..SEQ_OFFSET + 8];
    assert head[LEN_OFFSET..HEADER_LEN] == b[LEN_OFFSET..HEADER_LEN];
  }

  /** `copy_from_slice` at an offset. */
  function Splice(dest: Bytes, at: nat, src: Bytes): (r: Bytes)
    requires at + |src| <= |dest|
    ensures |r| == |dest|
  {
    dest[..at] + src + dest[at + |src|..]
  }

  /** `vec![0; n]`. */
  function Zeros(n: nat): (z: Bytes)
    ensures |z| == n && forall i :: 0 <= i < n ==> z[i] == 0
  {
    seq(n, _ => 0)
  }

  lemma SpliceMiddle(pre: Bytes, mid: Bytes, post: Bytes, src: Bytes)
    requires |mid| == |src|
    ensures Splice(pre + mid + post, |pre|, src) == pre + src + post
  {
  }

  lemma ZerosSplit(m: nat, n: nat)
    ensures Zeros(m + n) == Zeros(m) + Zeros(n)
  {
  }

  /** Two single bytes over a zeroed area. */
  lemma SetTwo(pre: Bytes, post: Bytes, x: byte, y: byte)
    ensures (pre + Zeros(2) + post)[|pre| := x][|pre| + 1 := y] == pre + [x, y] + post
  {
  }

  /** Lay out the header fields one by one over a zeroed area. */
  method WriteHeader(dest: Bytes, room: nat, seqno: nat, len: nat) returns (out: Bytes)
    ensures out == dest + Header(seqno, len) + Zeros(room)
  {
    hide Le, Zeros, Splice;
    var start := |dest|;
    ghost var magic, number, size := Le(MAGIC, 4), Le(seqno, 8), Le(len, 4);
    ZerosSplit(4, 14 + room);
    ZerosSplit(2, 12 + room);
    ZerosSplit(8, 4 + room);
    ZerosSplit(4, room);
    out := dest + Zeros(HEADER_LEN + room);
    assert out == dest + Zeros(4) + Zeros(14 + room);
    SpliceMiddle(dest, Zeros(4), Zeros(14 + room), magic);
    out := Splice(out, start, Le(MAGIC, 4));
    assert out == (dest + magic) + Zeros(2) + Zeros(12 + room);
    SetTwo(dest + magic, Zeros(12 + room), VERSION, 0);
    out := out[start + 4 := VERSION];
    out := out[start + 5 := 0];
    ghost var pre := dest + magic + [VERSION, 0];
    assert out == pre + Zeros(8) + Zeros(4 + room);
    SpliceMiddle(pre, Zeros(8), Zeros(4 + room), number);
    out := Splice(out, start + SEQ_OFFSET, Le(seqno, 8));
    assert out == (pre + number) + Zeros(4) + Zeros(room);
    SpliceMiddle(pre + number, Zeros(4), Zeros(room), size);
    out := Splice(out, start + LEN_OFFSET, Le(len, 4));
    assert pre + number + size == dest + Header(seqno, len);
  }

  /** `encode_frame_append`: grow the buffer, fill in the frame, then checksum it in place. */
  method EncodeFrameAppend(seqno: nat, payload: Bytes, max: nat, dest: Bytes) returns (r: Result<Bytes, WalError>)
    ensures r == (if |payload| > max then Err(PayloadTooLarge(|payload|, max)) else Ok(dest + Frame(seqno, payload)))
  {
    hide Crc32c, Header, Le;
    if |payload| > max {
      return Err(PayloadTooLarge(|payload|, max));
    }
    var start := |dest|;
    var crcOffset := start + HEADER_LEN + |payload|;
    var out := WriteHeader(dest, |payload| + TRAILER_LEN, seqno, |payload|);
    out := FillPayload(dest, out, seqno, payload);
    var body := Body(seqno, payload);
    assert out[start..crcOffset] == body;
    var checksum := Crc32c(out[start..crcOffset]);
    SpliceMiddle(dest + body, Zeros(TRAILER_LEN), [], Le(checksum, 4));
    assert dest + body + Zeros(TRAILER_LEN) + [] == out;
    out := Splice(out, crcOffset, Le(checksum, 4));
    assert out == dest + Frame(seqno, payload);
    return Ok(out);
  }

  method FillPayload(dest: Bytes, room: Bytes, seqno: nat, payload: Bytes) returns (out: Bytes)
    requires room == dest + Header(seqno, |payload|) + Zeros(|payload| + TRAILER_LEN)
    ensures out == dest + Body(seqno, payload) + Zeros(TRAILER_LEN)
  {
    hide Header;
    var pre := dest + Header(seqno, |payload|);
    assert Zeros(|payload| + TRAILER_LEN) == Zeros(|payload|) + Zeros(TRAILER_LEN);
    assert room == pre + Zeros(|payload|) + Zeros(TRAILER_LEN);
    SpliceMiddle(pre, Zeros(|payload|), Zeros(TRAILER_LEN), payload);
    out := Splice(room, |dest| + HEADER_LEN, payload);
    assert pre + payload == dest + Body(seqno, payload);
  }
}
