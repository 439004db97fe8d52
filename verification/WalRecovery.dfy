/**
 Recovery of the write-ahead log: what `open` keeps of an arbitrary byte string, what
 streaming reads back, and what survives when the log is cut at any byte.
 */
module WalRecovery {
  import opened Prelude
  import opened WalRecord

  /** The frames of `ps`, numbered from `start`. */
  function Log(start: nat, ps: seq<Bytes>): Bytes
    decreases |ps|
  {
    if ps == [] then [] else Frame(start, ps[0]) + Log(start + 1, ps[1..])
  }

  predicate Fits(ps: seq<Bytes>, max: nat) {
    forall i :: 0 <= i < |ps| ==> |ps[i]| <= max
  }

  datatype Recovered = Recovered(nextSeq: nat, end: nat)

  /** The scan `open` runs: keep whole frames with consecutive numbers, stop at the first
      broken one, and refuse the log when a whole frame carries the wrong number. */
  function Recover(b: Bytes, max: nat, nextSeq: nat, offset: nat): (r: Result<Recovered, WalError>)
    ensures r.Ok? ==> offset <= r.value.end <= offset + |b|
    decreases |b|
  {
    match Next(b, max, false)
    case Record(s, len, _) =>
      if s != nextSeq then Err(SeqMismatch(offset, s, nextSeq))
      else Recover(b[FrameLen(len)..], max, nextSeq + 1, offset + FrameLen(len))
    case End => Ok(Recovered(nextSeq, offset))
    case Broken => Ok(Recovered(nextSeq, offset))
  }

  lemma RecoverStep(b: Bytes, max: nat, nextSeq: nat, offset: nat)
    ensures var step := Next(b, max, false);
      && (!step.Record? ==> Recover(b, max, nextSeq, offset) == Ok(Recovered(nextSeq, offset)))
      && (step.Record? && step.seqno != nextSeq ==>
            Recover(b, max, nextSeq, offset) == Err(SeqMismatch(offset, step.seqno, nextSeq)))
      && (step.Record? && step.seqno == nextSeq ==>
            Recover(b, max, nextSeq, offset)
            == Recover(b[FrameLen(step.len)..], max, nextSeq + 1, offset + FrameLen(step.len)))
  {
    hide Next;
  }

  /** Reading the log back: records `cur..expected` and then nothing, or an error. */
  function Stream(b: Bytes, max: nat, cur: nat, expected: nat): Result<seq<Bytes>, WalError>
    decreases |b|
  {
    if cur < expected then
      match Next(b, max, true)
      case Record(s, len, payload) =>
        if s != cur then Err(ChangedWhileOpen)
        else
          var rest :- Stream(b[FrameLen(len)..], max, cur + 1, expected);
          Ok([payload.value] + rest)
      case End => Err(ChangedWhileOpen)
      case Broken => Err(ChangedWhileOpen)
    else
      if Next(b, max, false) == End then Ok([]) else Err(ChangedWhileOpen)
  }

  lemma StreamStep(b: Bytes, max: nat, cur: nat, expected: nat)
    requires cur < expected
    ensures var step := Next(b, max, true);
      && (!step.Record? || step.seqno != cur ==> Stream(b, max, cur, expected) == Err(ChangedWhileOpen))
      && (step.Record? && step.seqno == cur ==>
            var rest := Stream(b[FrameLen(step.len)..], max, cur + 1, expected);
            Stream(b, max, cur, expected)
            == if rest.Ok? then Ok([step.payload.value] + rest.value) else Err(rest.error))
  {
    hide Next;
  }

  lemma StreamEnd(b: Bytes, max: nat, cur: nat)
    ensures Stream(b, max, cur, cur) == if Next(b, max, false) == End then Ok([]) else Err(ChangedWhileOpen)
  {
    hide Next;
  }

  /** `b` is exactly the records `cur..expected`, and `ps` are their payloads. */
  predicate Holds(b: Bytes, max: nat, cur: nat, expected: nat, ps: seq<Bytes>) {
    cur <= expected && Stream(b, max, cur, expected) == Ok(ps)
  }

  /** A record at the front is found whatever follows its frame. */
  lemma NextPrefix(b: Bytes, c: Bytes, max: nat)
    requires Next(b, max, true).Record?
    requires var f := FrameLen(Next(b, max, true).len); |c| >= f && c[..f] == b[..f]
    ensures Next(c, max, true) == Next(b, max, true)
  {
    hide Crc32c, FromLe;
    var n := HEADER_LEN + LenOf(b);
    var f := n + TRAILER_LEN;
    assert f == FrameLen(LenOf(b));
    SamePrefix(b, c, f, 0, 4);
    SamePrefix(b, c, f, SEQ_OFFSET, SEQ_OFFSET + 8);
    SamePrefix(b, c, f, LEN_OFFSET, HEADER_LEN);
    SamePrefix(b, c, f, 0, n);
    SamePrefix(b, c, f, n, f);
    SamePrefix(b, c, f, HEADER_LEN, n);
    assert c[4] == c[..f][4] == b[4];
    assert b[0..n] == b[..n] && c[0..n] == c[..n];
  }

  lemma SamePrefix(b: Bytes, c: Bytes, f: nat, i: nat, j: nat)
    requires i <= j <= f <= |b| && f <= |c| && c[..f] == b[..f]
    ensures c[i..j] == b[i..j]
  {
    assert c[i..j] == c[..f][i..j];
    assert b[i..j] == b[..f][i..j];
  }

  lemma {:induction false} HoldsCount(b: Bytes, max: nat, cur: nat, expected: nat, ps: seq<Bytes>)
    requires Holds(b, max, cur, expected, ps)
    ensures |ps| == expected - cur
    decreases |b|
  {
    hide Next;
    if cur < expected {
      var step := Next(b, max, true);
      HoldsCount(b[FrameLen(step.len)..], max, cur + 1, expected, ps[1..]);
    }
  }

  /** The record at the front of `b` is still at the front of `b + tail`, and the rest moves up. */
  lemma NextThen(b: Bytes, tail: Bytes, max: nat)
    requires Next(b, max, true).Record?
    ensures Next(b + tail, max, true) == Next(b, max, true)
    ensures FrameLen(Next(b, max, true).len) <= |b|
    ensures (b + tail)[FrameLen(Next(b, max, true).len)..] == b[FrameLen(Next(b, max, true).len)..] + tail
  {
    hide Crc32c, FromLe;
    var f := FrameLen(Next(b, max, true).len);
    assert (b + tail)[..f] == b[..f];
    NextPrefix(b, b + tail, max);
  }

  /** Reading past an intact log continues with what follows it. */
  lemma {:induction false} StreamThen(b: Bytes, tail: Bytes, max: nat, cur: nat, mid: nat, expected: nat,
                                      ps: seq<Bytes>)
    requires Holds(b, max, cur, mid, ps) && mid <= expected
    ensures Stream(b + tail, max, cur, expected)
         == (match Stream(tail, max, mid, expected) case Ok(qs) => Ok(ps + qs) case Err(e) => Err(e))
    decreases |b|
  {
    hide Next;
    if cur < mid {
      NextThen(b, tail, max);
      var f := FrameLen(Next(b, max, true).len);
      StreamThen(b[f..], tail, max, cur + 1, mid, expected, ps[1..]);
      assert ps == [ps[0]] + ps[1..];
      match Stream(tail, max, mid, expected)
      case Ok(qs) => assert [ps[0]] + (ps[1..] + qs) == ps + qs;
      case Err(_) =>
    } else {
      assert b + tail == tail;
      match Stream(tail, max, mid, expected)
      case Ok(qs) => assert ps + qs == qs;
      case Err(_) =>
    }
  }

  /** Recovery walks over an intact log and goes on behind it. */
  lemma {:induction false} RecoverThen(b: Bytes, tail: Bytes, max: nat, cur: nat, mid: nat, ps: seq<Bytes>, offset: nat)
    requires Holds(b, max, cur, mid, ps)
    ensures Recover(b + tail, max, cur, offset) == Recover(tail, max, mid, offset + |b|)
    decreases |b|
  {
    hide Next;
    if cur < mid {
      NextThen(b, tail, max);
      FetchIsTransparent(b + tail, max);
      var f := FrameLen(Next(b, max, true).len);
      RecoverThen(b[f..], tail, max, cur + 1, mid, ps[1..], offset + f);
    } else {
      assert b + tail == tail;
    }
  }

  /** Encoded frames read back as the payloads they were made from. */
  lemma {:induction false} LogHolds(start: nat, ps: seq<Bytes>, max: nat)
    requires Fits(ps, max) && max < U32_LIMIT && start + |ps| <= U64_LIMIT
    ensures Holds(Log(start, ps), max, start, start + |ps|, ps)
    decreases |ps|
  {
    hide Next, Frame;
    if ps != [] {
      FrameScans(start, ps[0], Log(start + 1, ps[1..]), max);
      LogHolds(start + 1, ps[1..], max);
      assert ps == [ps[0]] + ps[1..];
    }
  }

  lemma {:induction false} LogConcat(start: nat, a: seq<Bytes>, b: seq<Bytes>)
    ensures Log(start, a + b) == Log(start, a) + Log(start + |a|, b)
    decreases |a|
  {
    hide Frame;
    if a == [] {
      assert a + b == b;
    } else {
      assert (a + b)[0] == a[0] && (a + b)[1..] == a[1..] + b;
      LogConcat(start + 1, a[1..], b);
    }
  }

  // ----- cutting the log

  /** How many whole frames the first `k` bytes of `Log(_, ps)` hold. */
  function Kept(ps: seq<Bytes>, k: nat): (m: nat)
    ensures m <= |ps|
    decreases |ps|
  {
    if ps == [] || k < FrameLen(|ps[0]|) then 0 else 1 + Kept(ps[1..], k - FrameLen(|ps[0]|))
  }

  /** A record is kept exactly when its frame ends at or before the cut. */
  lemma {:induction false} KeptIffFrameEndsInTime(start: nat, ps: seq<Bytes>, k: nat, j: nat)
    requires j <= |ps|
    ensures |Log(start, ps[..j])| <= k <==> j <= Kept(ps, k)
    decreases |ps|
  {
    hide Frame;
    if j > 0 {
      assert ps[..j][0] == ps[0] && ps[..j][1..] == ps[1..][..j - 1];
      if k >= FrameLen(|ps[0]|) {
        KeptIffFrameEndsInTime(start + 1, ps[1..], k - FrameLen(|ps[0]|), j - 1);
      }
    }
  }

  /** What is left behind the last whole frame. */
  function Torn(start: nat, ps: seq<Bytes>, k: nat): Bytes
    requires k <= |Log(start, ps)|
    decreases |ps|
  {
    if ps == [] then []
    else if k < FrameLen(|ps[0]|) then Frame(start, ps[0])[..k]
    else Torn(start + 1, ps[1..], k - FrameLen(|ps[0]|))
  }

  lemma {:induction false} CutSplits(start: nat, ps: seq<Bytes>, k: nat, max: nat)
    requires k <= |Log(start, ps)| && Fits(ps, max) && max < U32_LIMIT
    ensures Log(start, ps)[..k] == Log(start, ps[..Kept(ps, k)]) + Torn(start, ps, k)
    ensures !Next(Torn(start, ps, k), max, false).Record?
    decreases |ps|
  {
    hide Frame, Next;
    if ps != [] {
      var f := Frame(start, ps[0]);
      if k < |f| {
        CutFrameIsBroken(start, ps[0], k, max);
        FetchIsTransparent(f[..k], max);
      } else {
        CutSplits(start + 1, ps[1..], k - |f|, max);
        var m := Kept(ps[1..], k - |f|);
        assert ps[..m + 1][0] == ps[0] && ps[..m + 1][1..] == ps[1..][..m];
        assert Log(start, ps)[..k] == f + Log(start + 1, ps[1..])[..k - |f|];
      }
    }
  }

  /** Recovery at every cut. An intact log `b` of `n` records, followed by the frames of `ps` cut
      at any byte `k`, recovers to `b` and exactly the frames that end at or before the cut. */
  lemma RecoveryAtEveryCut(b: Bytes, n: nat, xs: seq<Bytes>, ps: seq<Bytes>, k: nat, max: nat)
    requires Holds(b, max, 0, n, xs)
    requires Fits(ps, max) && max < U32_LIMIT && n + |ps| <= U64_LIMIT
    requires k <= |Log(n, ps)|
    ensures var m := Kept(ps, k);
      var end := |b| + |Log(n, ps[..m])|;
      var file := b + Log(n, ps)[..k];
      && Recover(file, max, 0, 0) == Ok(Recovered(n + m, end))
      && end <= |file| && file[..end] == b + Log(n, ps[..m])
      && Holds(file[..end], max, 0, n + m, xs + ps[..m])
  {
    hide Next, Frame, Recover, Stream, Log, Kept, Torn;
    var m := Kept(ps, k);
    var kept, torn := Log(n, ps[..m]), Torn(n, ps, k);
    CutSplits(n, ps, k, max);
    var file := b + Log(n, ps)[..k];
    assert file == b + (kept + torn);
    RecoverThen(b, kept + torn, max, 0, n, xs, 0);
    LogHolds(n, ps[..m], max);
    RecoverThen(kept, torn, max, n, n + m, ps[..m], |b|);
    StopsAt(torn, max, n + m, |b| + |kept|);
    assert file[..|b| + |kept|] == b + kept;
    StreamThen(b, kept, max, 0, n, n + m, xs);
  }

  lemma StopsAt(b: Bytes, max: nat, nextSeq: nat, offset: nat)
    requires !Next(b, max, false).Record?
    ensures Recover(b, max, nextSeq, offset) == Ok(Recovered(nextSeq, offset))
  {
    hide Next;
  }

  /** Whatever recovery keeps of an arbitrary file is an intact log. */
  lemma {:induction false} RecoveredIsIntact(b: Bytes, max: nat, cur: nat, offset: nat) returns (ps: seq<Bytes>)
    requires Recover(b, max, cur, offset).Ok?
    ensures var r := Recover(b, max, cur, offset).value;
      && offset <= r.end <= offset + |b| && cur <= r.nextSeq
      && Holds(b[..r.end - offset], max, cur, r.nextSeq, ps)
    decreases |b|
  {
    hide Next;
    var r := Recover(b, max, cur, offset).value;
    FetchIsTransparent(b, max);
    if Next(b, max, true).Record? {
      var step := Next(b, max, true);
      var f := FrameLen(step.len);
      ps := RecoveredIsIntact(b[f..], max, cur + 1, offset + f);
      var c := b[..r.end - offset];
      assert c[..f] == b[..f] && c[f..] == b[f..][..r.end - (offset + f)];
      NextPrefix(b, c, max);
      ps := [step.payload.value] + ps;
    } else {
      ps := [];
    }
  }

  /** Recovering a recovered file keeps all of it: `open` is idempotent. */
  lemma RecoveryIsIdempotent(b: Bytes, max: nat)
    requires Recover(b, max, 0, 0).Ok?
    ensures var r := Recover(b, max, 0, 0).value;
      r.end <= |b| && Recover(b[..r.end], max, 0, 0) == Ok(r)
  {
    hide Next, Recover, Stream;
    var r := Recover(b, max, 0, 0).value;
    var ps := RecoveredIsIntact(b, max, 0, 0);
    RecoverThen(b[..r.end], [], max, 0, r.nextSeq, ps, 0);
    assert b[..r.end] + [] == b[..r.end];
    StopsAt([], max, r.nextSeq, r.end);
  }
}
