/**
 The write-ahead log as an object over one file (crates/wal/src/wal.rs): opening with
 recovery and truncation, grouped appends with one sync, and streaming reads.
 */
module WalFile {
  import opened Prelude
  import opened WalRecord
  import opened WalReader
  import opened WalRecovery

  datatype WalOptions = WalOptions(maxRecordPayloadLen: nat, syncPerAppend: bool)

  /** What the file system may do to one append. */
  datatype Fault = NoFault | WriteFails(written: nat, stuck: bool) | SyncFails(stuck: bool)

  /** The append failed and what it wrote could not be taken back; the source ignores that. */
  predicate Stuck(f: Fault) {
    !f.NoFault? && f.stuck
  }

  /** What the file system may do to opening and reading. */
  datatype IoFaults = IoFaults(openFails: bool, locked: bool, readsFail: bool, statFails: bool, truncateFails: bool,
                               seekFails: bool, interrupts: nat)

  /** Nothing fails; reads may still be short or interrupted. */
  predicate Healthy(io: IoFaults) {
    !io.openFails && !io.locked && !io.readsFail && !io.statFails && !io.truncateFails && !io.seekFails
  }

  datatype Recovery = Recovery(nextSeq: nat, truncatedBytes: nat, verifiedRecords: nat)

  /** The file is the old one and the first `k` bytes of the new frames, so recovery keeps the whole
      frames among them (RecoveryAtEveryCut). */
  predicate LeftBehind(before: Bytes, after: Bytes, start: nat, ps: seq<Bytes>, k: nat) {
    k <= |Log(start, ps)| && after == before + Log(start, ps)[..k]
  }

  /** `e` reports the first payload over the limit. */
  ghost predicate FirstTooLarge(ps: seq<Bytes>, max: nat, e: WalError) {
    exists i :: 0 <= i < |ps| && Fits(ps[..i], max) && |ps[i]| > max && e == PayloadTooLarge(|ps[i]|, max)
  }

  class Wal {
    var file: Bytes
    /** File position; `write_all` writes here. */
    var cursor: nat
    /** Length of the prefix known to survive a power cut. */
    var durable: nat
    var nextSeq: nat
    var committedEnd: nat
    const options: WalOptions

    /** The file is exactly the records `0..nextSeq`, and the cursor is at its end. */
    ghost predicate Valid()
      reads this
    {
      && options.maxRecordPayloadLen < U32_LIMIT
      && cursor == committedEnd == |file|
      && durable <= |file|
      && Stream(file, options.maxRecordPayloadLen, 0, nextSeq).Ok?
    }

    /** The payloads on file. */
    ghost function Contents(): seq<Bytes>
      requires Valid()
      reads this
    {
      Stream(file, options.maxRecordPayloadLen, 0, nextSeq).value
    }

    constructor (file: Bytes, durable: nat, nextSeq: nat, options: WalOptions)
      ensures this.file == file && cursor == committedEnd == |file| && this.durable == durable
      ensures this.nextSeq == nextSeq && this.options == options
    {
      this.file := file;
      this.durable := durable;
      this.nextSeq := nextSeq;
      this.options := options;
      cursor := |file|;
      committedEnd := |file|;
    }

    /** Check every payload length before touching buffer or disk. */
    method ValidatePayloads(ps: seq<Bytes>) returns (r: Result<(), WalError>)
      ensures r.Ok? <==> Fits(ps, options.maxRecordPayloadLen)
      ensures r.Err? ==> FirstTooLarge(ps, options.maxRecordPayloadLen, r.error)
    {
      for i := 0 to |ps|
        invariant Fits(ps[..i], options.maxRecordPayloadLen)
      {
        if |ps[i]| > options.maxRecordPayloadLen {
          return Err(PayloadTooLarge(|ps[i]|, options.maxRecordPayloadLen));
        }
        assert ps[..i + 1] == ps[..i] + [ps[i]];
      }
      assert ps[..|ps|] == ps;
      return Ok(());
    }

    /** Encode all frames into one buffer. */
    method EncodeAll(ps: seq<Bytes>) returns (buf: Bytes)
      requires Fits(ps, options.maxRecordPayloadLen)
      ensures buf == Log(nextSeq, ps)
    {
      hide Frame;
      buf := [];
      var curSeq := nextSeq;
      for i := 0 to |ps|
        invariant curSeq == nextSeq + i
        invariant buf == Log(nextSeq, ps[..i])
      {
        var encoded := EncodeFrameAppend(curSeq, ps[i], options.maxRecordPayloadLen, buf);
        buf := encoded.value;
        assert ps[..i + 1] == ps[..i] + [ps[i]];
        LogConcat(nextSeq, ps[..i], [ps[i]]);
        assert Log(curSeq, [ps[i]]) == Frame(curSeq, ps[i]);
        curSeq := curSeq + 1;
      }
      assert ps[..|ps|] == ps;
    }

    /** `append_batch`: one write and at most one sync for the whole group. A failed append leaves
        the log as it was, or, when taking it back fails too, with some of the new bytes behind it;
        a successful one extends it by exactly `ps`, durably when syncing. */
    method AppendBatch(ps: seq<Bytes>, fault: Fault) returns (r: Result<(nat, nat), WalError>)
      requires Valid() && nextSeq + |ps| <= U64_LIMIT
      modifies this
      ensures r.Ok? || !Stuck(fault) ==> Valid()
      ensures durable >= old(durable)
      ensures r.Ok? ==> file == old(file) + Log(old(nextSeq), ps)
      ensures r.Ok? ==> Contents() == old(Contents()) + ps && r.value == (old(nextSeq), old(nextSeq) + |ps|)
      ensures r.Ok? ==> nextSeq == old(nextSeq) + |ps|
      ensures r.Ok? && ps != [] && options.syncPerAppend ==> durable == |file|
      ensures r.Err? ==> nextSeq == old(nextSeq) && committedEnd == old(committedEnd)
      ensures r.Err? && !Stuck(fault) ==> file == old(file) && Contents() == old(Contents())
      ensures r.Err? && Stuck(fault) ==> exists k :: LeftBehind(old(file), file, old(nextSeq), ps, k)
      ensures r.Err? ==> r.error == Io || FirstTooLarge(ps, options.maxRecordPayloadLen, r.error)
      ensures r.Err? ==> (r.error == Io <==> Fits(ps, options.maxRecordPayloadLen))
      ensures r.Ok? <==> ps == [] || (Fits(ps, options.maxRecordPayloadLen)
                                      && !fault.WriteFails? && (fault.SyncFails? ==> !options.syncPerAppend))
    {
      hide Frame, Next, Stream;
      var max := options.maxRecordPayloadLen;
      if ps == [] {
        assert Contents() + ps == Contents();
        return Ok((nextSeq, nextSeq));
      }
      assert LeftBehind(file, file, nextSeq, ps, 0) by { assert file == file + Log(nextSeq, ps)[..0]; }
      var _ :- ValidatePayloads(ps);
      var startSeq := nextSeq;
      var encodeBuf := EncodeAll(ps);

      if fault.WriteFails? {
        file := file[..cursor] + encodeBuf[..Min(fault.written, |encodeBuf|)];
        if !fault.stuck {
          file, cursor := file[..committedEnd], committedEnd;
          assert file == old(file);
        } else {
          assert LeftBehind(old(file), file, startSeq, ps, Min(fault.written, |encodeBuf|));
        }
        return Err(Io);
      }
      file := file[..cursor] + encodeBuf;
      assert file == old(file) + encodeBuf;
      cursor := |file|;
      if options.syncPerAppend {
        if fault.SyncFails? {
          if !fault.stuck {
            file, cursor := file[..committedEnd], committedEnd;
            assert file == old(file);
          } else {
            assert encodeBuf[..|encodeBuf|] == encodeBuf;
            assert LeftBehind(old(file), file, startSeq, ps, |encodeBuf|);
          }
          return Err(Io);
        }
        durable := |file|;
      }
      committedEnd := committedEnd + |encodeBuf|;
      nextSeq := nextSeq + |ps|;
      LogHolds(startSeq, ps, max);
      HoldsBounds(old(file), max, startSeq);
      StreamThen(old(file), encodeBuf, max, 0, startSeq, nextSeq, old(Contents()));
      return Ok((startSeq, nextSeq));
    }

    lemma HoldsBounds(b: Bytes, max: nat, n: nat)
      requires Stream(b, max, 0, n).Ok?
      ensures Holds(b, max, 0, n, Stream(b, max, 0, n).value)
    {
    }

    /** `read_records`: the committed payloads, or an error when the file no longer holds exactly
        them, or when the file system fails a seek or a read. */
    method ReadRecords(io: IoFaults) returns (r: Result<seq<Bytes>, WalError>)
      ensures r == Stream(file, options.maxRecordPayloadLen, 0, nextSeq) || (r == Err(Io) && !Healthy(io))
    {
      hide Next, Stream;
      if io.seekFails {
        return Err(Io);
      }
      var max := options.maxRecordPayloadLen;
      var reader := new Reader(file, io.readsFail, io.interrupts);
      var records: seq<Bytes> := [];
      var currentSeq := 0;
      assert file[0..] == file;
      assert forall ps: seq<Bytes> :: records + ps == ps;
      while currentSeq < nextSeq
        invariant reader.Valid() && reader.data == file && reader.flaky == io.readsFail && fresh(reader)
        invariant 0 <= currentSeq <= nextSeq
        invariant Stream(file, max, 0, nextSeq)
          == (match Stream(reader.Rest(), max, currentSeq, nextSeq)
              case Ok(ps) => Ok(records + ps) case Err(e) => Err(e))
      {
        ghost var rest := reader.Rest();
        StreamStep(rest, max, currentSeq, nextSeq);
        var step :- NextRecord(reader, max, true);
        if !step.Record? || step.seqno != currentSeq {
          return Err(ChangedWhileOpen);
        }
        assert reader.Rest() == rest[FrameLen(step.len)..];
        ghost var before := records;
        records := records + [step.payload.value];
        match Stream(reader.Rest(), max, currentSeq + 1, nextSeq) {
          case Ok(ps) => assert before + ([step.payload.value] + ps) == records + ps;
          case Err(_) =>
        }
        currentSeq := currentSeq + 1;
      }
      StreamEnd(reader.Rest(), max, nextSeq);
      var last :- NextRecord(reader, max, false);
      if !last.End? {
        return Err(ChangedWhileOpen);
      }
      assert records + [] == records;
      return Ok(records);
    }
  }

  /** The loop of `open`: scan whole frames, checking their numbers. */
  method RecoverScan(bytes: Bytes, max: nat, io: IoFaults) returns (r: Result<Recovered, WalError>)
    ensures r == Recover(bytes, max, 0, 0) || (r == Err(Io) && io.readsFail)
  {
    hide Next, Recover;
    var reader := new Reader(bytes, io.readsFail, io.interrupts);
    var nextSeq, verifiedEnd := 0, 0;
    assert bytes[0..] == bytes;
    while true
      invariant reader.Valid() && reader.data == bytes && reader.flaky == io.readsFail && fresh(reader)
      invariant nextSeq >= 0 && verifiedEnd >= 0
      invariant Recover(reader.Rest(), max, nextSeq, verifiedEnd) == Recover(bytes, max, 0, 0)
      decreases |bytes| - reader.pos
    {
      ghost var rest := reader.Rest();
      RecoverStep(rest, max, nextSeq, verifiedEnd);
      var step :- NextRecord(reader, max, false);
      if !step.Record? {
        break;
      }
      if step.seqno != nextSeq {
        return Err(SeqMismatch(verifiedEnd, step.seqno, nextSeq));
      }
      assert reader.Rest() == rest[FrameLen(step.len)..];
      nextSeq := nextSeq + 1;
      verifiedEnd := verifiedEnd + FrameLen(step.len);
    }
    return Ok(Recovered(nextSeq, verifiedEnd));
  }

  /** `open`: recover, truncate the unverified tail, and stand ready to append. A held lock and a
      failing file system are reported; without them only a sequence gap is. */
  method Open(bytes: Bytes, options: WalOptions, io: IoFaults) returns (r: Result<(Wal, Recovery), WalError>)
    requires options.maxRecordPayloadLen < U32_LIMIT
    ensures r.Err? ==>
      r.error == Io || r.error == Locked || Recover(bytes, options.maxRecordPayloadLen, 0, 0) == Err(r.error)
    ensures Healthy(io) ==> (r.Err? <==> Recover(bytes, options.maxRecordPayloadLen, 0, 0).Err?)
    ensures Healthy(io) && r.Err? ==> Recover(bytes, options.maxRecordPayloadLen, 0, 0) == Err(r.error)
    ensures r == Err(Locked) <==> io.locked && !io.openFails
    ensures r.Ok? ==> Recover(bytes, options.maxRecordPayloadLen, 0, 0).Ok?
    ensures r.Ok? ==> var (w, recovery) := r.value;
      var kept := Recover(bytes, options.maxRecordPayloadLen, 0, 0).value;
      && fresh(w) && w.Valid() && w.options == options
      && kept.end <= |bytes| && w.file == bytes[..kept.end] && w.nextSeq == kept.nextSeq
      && recovery == Recovery(kept.nextSeq, |bytes| - kept.end, kept.nextSeq)
      && w.durable == |w.file|
  {
    hide Next, Recover, Stream;
    if io.openFails {
      return Err(Io);
    }
    if io.locked {
      return Err(Locked);
    }
    var max := options.maxRecordPayloadLen;
    NeverLocked(bytes, max, 0, 0);
    var kept :- RecoverScan(bytes, max, io);
    ghost var ps := RecoveredIsIntact(bytes, max, 0, 0);
    if io.statFails {
      return Err(Io);
    }
    var truncated := |bytes| - kept.end;
    if truncated > 0 && io.truncateFails {
      return Err(Io);
    }
    var file := if truncated > 0 then bytes[..kept.end] else bytes;
    if io.seekFails {
      return Err(Io);
    }
    assert file == bytes[..kept.end];
    var w := new Wal(file, |file|, kept.nextSeq, options);
    return Ok((w, Recovery(kept.nextSeq, truncated, kept.nextSeq)));
  }

  /** Recovery itself only ever reports a sequence gap. */
  lemma {:induction false} NeverLocked(b: Bytes, max: nat, nextSeq: nat, offset: nat)
    ensures Recover(b, max, nextSeq, offset).Err? ==> Recover(b, max, nextSeq, offset).error.SeqMismatch?
    decreases |b|
  {
    hide Next, Recover;
    RecoverStep(b, max, nextSeq, offset);
    var step := Next(b, max, false);
    if step.Record? && step.seqno == nextSeq {
      NeverLocked(b[FrameLen(step.len)..], max, nextSeq + 1, offset + FrameLen(step.len));
    }
  }
}
