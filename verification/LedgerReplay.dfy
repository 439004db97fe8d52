/**
 Journals describe ledgers: every successful mutation records one event that,
 re-applied, does the same thing. Replay, speculation and commit all rest on it.
 */
module LedgerReplay {
  import opened Prelude
  import opened LedgerTypes
  import opened LedgerSpec
  import opened LedgerUndo

  /** Applying an event records exactly that event and keeps the scale. */
  lemma EventIsRecorded(s: LedgerState, e: LedgerEvent)
    requires ApplyEvent(s, e).Ok?
    ensures ApplyEvent(s, e).value.journal == s.journal + [e]
    ensures ApplyEvent(s, e).value.scale == s.scale
  {
  }

  /** The event an operation stands for: the same kind, the same fields. A void also records how much
      the hold reserved. */
  function EventFor(s: LedgerState, op: BatchOp): LedgerEvent {
    match op
    case OpCreateAccount(id, ty, flags, scale, ts) => AccountCreated(id, ty, flags, scale, ts)
    case OpCloseAccount(id, ts) => AccountClosedAt(id, ts)
    case OpTransfer(t) => TransferPosted(t)
    case OpPending(t) => TransferPendingCreated(t)
    case OpPostPending(p, q, amount, ts) => TransferPendingPosted(p, q, amount, ts)
    case OpVoidPending(p, ts) => TransferPendingVoided(p, if p in s.transfers then s.transfers[p].amount else 0, ts)
  }

  /** An operation is accepted exactly when its event is, and then has its effect and records it. */
  lemma OpIsItsEvent(s: LedgerState, op: BatchOp)
    ensures ApplyOp(s, op).Ok? <==> ApplyEvent(s, EventFor(s, op)).Ok?
    ensures ApplyOp(s, op).Ok? ==> ApplyOp(s, op) == ApplyEvent(s, EventFor(s, op))
    ensures ApplyOp(s, op).Ok? ==> ApplyOp(s, op).value.journal == s.journal + [EventFor(s, op)]
  {
  }

  /** The events of operations executed in order, as far as they are accepted. */
  function EventsFor(s: LedgerState, ops: seq<BatchOp>): seq<LedgerEvent>
    decreases |ops|
  {
    if ops == [] || ApplyOp(s, ops[0]).Err? then []
    else [EventFor(s, ops[0])] + EventsFor(ApplyOp(s, ops[0]).value, ops[1..])
  }

  lemma {:induction false} ApplyEventsConcat(s: LedgerState, a: seq<LedgerEvent>, b: seq<LedgerEvent>)
    ensures ApplyEvents(s, a + b)
         == (if ApplyEvents(s, a).Ok? then ApplyEvents(ApplyEvents(s, a).value, b) else ApplyEvents(s, a))
    decreases |a|
  {
    if a == [] {
      assert a + b == b;
    } else {
      assert (a + b)[0] == a[0] && (a + b)[1..] == a[1..] + b;
      if ApplyEvent(s, a[0]).Ok? {
        ApplyEventsConcat(ApplyEvent(s, a[0]).value, a[1..], b);
      }
    }
  }

  lemma {:induction false} EventsAreRecorded(s: LedgerState, events: seq<LedgerEvent>)
    requires ApplyEvents(s, events).Ok?
    ensures ApplyEvents(s, events).value.journal == s.journal + events
    ensures ApplyEvents(s, events).value.scale == s.scale
    decreases |events|
  {
    if events != [] {
      EventIsRecorded(s, events[0]);
      EventsAreRecorded(ApplyEvent(s, events[0]).value, events[1..]);
      assert events == [events[0]] + events[1..];
    }
  }

  /** A successful list of operations records the event of each, and those events have its effect. */
  lemma {:induction false} OpsHaveEvents(s: LedgerState, ops: seq<BatchOp>) returns (events: seq<LedgerEvent>)
    requires ApplyOps(s, ops).Ok?
    ensures events == EventsFor(s, ops) && |events| == |ops|
    ensures ApplyOps(s, ops).value.journal == s.journal + events
    ensures ApplyEvents(s, events) == ApplyOps(s, ops)
    decreases |ops|
  {
    hide ApplyOp, ApplyEvent, EventFor;
    if ops == [] {
      events := [];
    } else {
      OpIsItsEvent(s, ops[0]);
      var e := EventFor(s, ops[0]);
      var rest := OpsHaveEvents(ApplyOp(s, ops[0]).value, ops[1..]);
      events := [e] + rest;
      assert s.journal + [e] + rest == s.journal + events;
      assert events[1..] == rest;
    }
  }

  // ----- what the source runs: capture pre-images, then apply

  /** Pre-images first: their failure is reported in place of the operation's. */
  function GuardedOp(s: LedgerState, op: BatchOp): Result<LedgerState, LedgerError> {
    var _ :- OpPreImages(s, op);
    ApplyOp(s, op)
  }

  function GuardedEvent(s: LedgerState, e: LedgerEvent): Result<LedgerState, LedgerError> {
    var _ :- EventPreImages(s, e);
    ApplyEvent(s, e)
  }

  function GuardedOps(s: LedgerState, ops: seq<BatchOp>): Result<LedgerState, LedgerError>
    decreases |ops|
  {
    if ops == [] then Ok(s)
    else
      var s' :- GuardedOp(s, ops[0]);
      GuardedOps(s', ops[1..])
  }

  function GuardedEvents(s: LedgerState, events: seq<LedgerEvent>): Result<LedgerState, LedgerError>
    decreases |events|
  {
    if events == [] then Ok(s)
    else
      var s' :- GuardedEvent(s, events[0]);
      GuardedEvents(s', events[1..])
  }

  /** Capturing pre-images first never changes whether operations succeed, nor what they do. */
  lemma {:induction false} GuardIsTransparent(s: LedgerState, ops: seq<BatchOp>)
    ensures GuardedOps(s, ops).Ok? <==> ApplyOps(s, ops).Ok?
    ensures ApplyOps(s, ops).Ok? ==> GuardedOps(s, ops) == ApplyOps(s, ops)
    decreases |ops|
  {
    if ops != [] && ApplyOp(s, ops[0]).Ok? {
      var s' := ApplyOp(s, ops[0]).value;
      OpUndoExact(s, ops[0], s');
      GuardIsTransparent(s', ops[1..]);
    }
  }

  lemma {:induction false} EventGuardIsTransparent(s: LedgerState, events: seq<LedgerEvent>)
    ensures GuardedEvents(s, events).Ok? <==> ApplyEvents(s, events).Ok?
    ensures ApplyEvents(s, events).Ok? ==> GuardedEvents(s, events) == ApplyEvents(s, events)
    decreases |events|
  {
    if events != [] && ApplyEvent(s, events[0]).Ok? {
      var s' := ApplyEvent(s, events[0]).value;
      EventUndoExact(s, events[0], s');
      EventGuardIsTransparent(s', events[1..]);
    }
  }

  // ----- runs

  /** The calls that can change a ledger. `prepare_*` calls are proved to change nothing. */
  datatype Command =
    | Direct(op: BatchOp)
    | CommitEvents(events: seq<LedgerEvent>)
    | ApplyBatch(transfers: seq<Transfer>)

  function PostedEvents(ts: seq<Transfer>): seq<LedgerEvent> {
    seq(|ts|, i requires 0 <= i < |ts| => TransferPosted(ts[i]))
  }

  function Exec(s: LedgerState, c: Command): LedgerState {
    var r := match c
      case Direct(op) => ApplyOp(s, op)
      case CommitEvents(events) => GuardedEvents(s, events)
      case ApplyBatch(ts) => GuardedEvents(s, PostedEvents(ts));
    if r.Ok? then r.value else s
  }

  function Run(scale: Scale, cs: seq<Command>): LedgerState {
    if cs == [] then New(scale) else Exec(Run(scale, cs[..|cs| - 1]), cs[|cs| - 1])
  }

  /** A command either changes nothing or applies events it also records. */
  lemma ExecHasEvents(s: LedgerState, c: Command) returns (events: seq<LedgerEvent>)
    ensures ApplyEvents(s, events) == Ok(Exec(s, c))
    ensures Exec(s, c).journal == s.journal + events
  {
    events := [];
    match c
    case Direct(op) =>
      if ApplyOp(s, op).Ok? {
        OpIsItsEvent(s, op);
        events := [EventFor(s, op)];
      }
    case CommitEvents(evs) =>
      EventGuardIsTransparent(s, evs);
      if ApplyEvents(s, evs).Ok? {
        EventsAreRecorded(s, evs);
        events := evs;
      }
    case ApplyBatch(ts) =>
      EventGuardIsTransparent(s, PostedEvents(ts));
      if ApplyEvents(s, PostedEvents(ts)).Ok? {
        EventsAreRecorded(s, PostedEvents(ts));
        events := PostedEvents(ts);
      }
  }

  /** Replay is the identity on reachable ledgers: the journal alone rebuilds the whole state. */
  lemma {:induction false} ReplayIdentity(scale: Scale, cs: seq<Command>)
    ensures Replay(scale, Run(scale, cs).journal) == Ok(Run(scale, cs))
    decreases |cs|
  {
    if cs != [] {
      var s := Run(scale, cs[..|cs| - 1]);
      ReplayIdentity(scale, cs[..|cs| - 1]);
      var events := ExecHasEvents(s, cs[|cs| - 1]);
      ApplyEventsConcat(New(scale), s.journal, events);
    }
  }
}
