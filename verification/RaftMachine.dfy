/**
 The replicated state machine (crates/raft/src/state_machine.rs): committed entries applied to a
 ledger, snapshots that carry only the journal, and their installation by replay.
 */
module RaftMachine {
  import opened Prelude
  import opened LedgerTypes
  import opened LedgerSpec
  import opened LedgerReplay
  import opened LedgerSpeculation
  import opened LedgerErrors
  import Inv = LedgerInvariant
  import LE = LedgerEngine

  datatype LogId = LogId(term: nat, index: nat)

  datatype Membership = Membership(at: Option<LogId>, voters: set<nat>)

  /** A request is one operation or a batch of them. */
  datatype Request = Single(op: BatchOp) | Batch(ops: seq<BatchOp>)

  datatype Payload = Blank | Membership(voters: set<nat>) | Normal(request: Request)

  datatype Entry = Entry(logId: LogId, payload: Payload)

  datatype Response =
    | Nothing
    | AccountCreated(accountId: AccountId)
    | TransferCreated(transferId: TransferId)
    | PendingCreated(transferId: TransferId)
    | PendingPosted(transferId: TransferId)
    | PendingVoided(transferId: TransferId)
    | AccountClosed(accountId: AccountId)
    | BatchApplied(events: seq<LedgerEvent>)

  type Answer = Result<Response, LedgerError>

  /** Everything the machine carries from one entry to the next. */
  datatype State = State(ledger: LedgerState, lastApplied: Option<LogId>, membership: Membership)

  datatype SnapshotMeta = SnapshotMeta(lastLogId: Option<LogId>, lastMembership: Membership)

  /** A snapshot holds the scale and the journal, not the balances. */
  datatype Snapshot = Snapshot(meta: SnapshotMeta, scale: Scale, journal: seq<LedgerEvent>)

  datatype InstallError = Undecodable | Unreplayable(error: LedgerError)

  function OpsOf(r: Request): seq<BatchOp> {
    match r case Single(op) => [op] case Batch(ops) => ops
  }

  function ResponseTo(r: Request, events: seq<LedgerEvent>): Response {
    match r
    case Batch(_) => BatchApplied(events)
    case Single(op) =>
      match op
      case OpCreateAccount(id, _, _, _, _) => Response.AccountCreated(id)
      case OpTransfer(t) => TransferCreated(t.id)
      case OpPending(t) => PendingCreated(t.id)
      case OpPostPending(_, postId, _, _) => PendingPosted(postId)
      case OpVoidPending(pendingId, _) => PendingVoided(pendingId)
      case OpCloseAccount(id, _) => Response.AccountClosed(id)
  }

  /** `apply_single_request`: prepare the operations, then commit the events they produce. */
  function ApplyRequest(s: LedgerState, r: Request): (LedgerState, Answer) {
    match PrepareBatch(s, OpsOf(r))
    case Err(e) => (s, Err(e))
    case Ok(events) =>
      match GuardedEvents(s, events)
      case Err(e) => (s, Err(e))
      case Ok(s') => (s', Ok(ResponseTo(r, events)))
  }

  function ApplyEntry(s: State, e: Entry): (State, Answer) {
    var s := s.(lastApplied := Some(e.logId));
    match e.payload
    case Blank => (s, Ok(Nothing))
    case Membership(voters) => (s.(membership := Membership.Membership(Some(e.logId), voters)), Ok(Nothing))
    case Normal(request) =>
      var (ledger, answer) := ApplyRequest(s.ledger, request);
      (s.(ledger := ledger), answer)
  }

  function ApplyEntries(s: State, entries: seq<Entry>): (State, seq<Answer>)
    decreases |entries|
  {
    if entries == [] then (s, [])
    else
      var (next, answer) := ApplyEntry(s, entries[0]);
      var (last, answers) := ApplyEntries(next, entries[1..]);
      (last, [answer] + answers)
  }

  function Fresh(scale: Scale): State {
    State(New(scale), None, Membership.Membership(None, {}))
  }

  function TakeSnapshot(s: State): Snapshot {
    Snapshot(SnapshotMeta(s.lastApplied, s.membership), s.ledger.scale, s.ledger.journal)
  }

  /** The state after installing a snapshot; whatever was there before is gone. */
  function Installed(snapshot: Snapshot): Result<State, LedgerError> {
    var ledger :- Replay(snapshot.scale, snapshot.journal);
    Ok(State(ledger, snapshot.meta.lastLogId, snapshot.meta.lastMembership))
  }

  // ----- what the machine promises

  /** A request executes its operations all or nothing. The commit after a successful preparation
      never fails. */
  lemma RequestIsAtomic(s: LedgerState, r: Request)
    ensures match ApplyOps(s, OpsOf(r))
      case Ok(s') => ApplyRequest(s, r).0 == s' && ApplyRequest(s, r).1.Ok?
      case Err(_) => ApplyRequest(s, r).0 == s && ApplyRequest(s, r).1.Err?
  {
    hide ApplyOps, GuardedOps, GuardedEvents, ApplyEvents;
    var ops := OpsOf(r);
    GuardIsTransparent(s, ops);
    if ApplyOps(s, ops).Ok? {
      var events := OpsHaveEvents(s, ops);
      assert NewEvents(s, ApplyOps(s, ops).value) == events;
      EventGuardIsTransparent(s, events);
    }
  }

  /** A response names what came into being, or changed, between the two ledgers. */
  ghost predicate Tells(s: LedgerState, s': LedgerState, response: Response) {
    match response
    case Nothing => false
    case AccountCreated(k) => k !in s.accounts && k in s'.accounts && s'.accounts == s.accounts[k := s'.accounts[k]]
    case AccountClosed(k) =>
      && k in s.accounts && !s.accounts[k].flags.isClosed
      && k in s'.accounts && s'.accounts[k].flags.isClosed && s'.accounts == s.accounts[k := s'.accounts[k]]
    case TransferCreated(k) => FiledOnly(s, s', k) && s'.transfers[k].state == Posted
    case PendingCreated(k) => FiledOnly(s, s', k) && s'.transfers[k].state == Pending
    case PendingPosted(k) =>
      && k !in s.transfers && k in s'.transfers && s'.transfers.Keys == s.transfers.Keys + {k}
      && s'.transfers[k].pendingId.Some?
      && var p := s'.transfers[k].pendingId.value;
         p in s.transfers && s.transfers[p].state == Pending && s'.transfers[p].state == Posted
    case PendingVoided(k) =>
      && k in s.transfers && s.transfers[k].state == Pending
      && s'.transfers == s.transfers[k := s.transfers[k].(state := Voided)]
    case BatchApplied(events) => s'.journal == s.journal + events
  }

  /** Exactly one transfer is new, and no other changed. */
  ghost predicate FiledOnly(s: LedgerState, s': LedgerState, k: TransferId) {
    k !in s.transfers && k in s'.transfers && s'.transfers == s.transfers[k := s'.transfers[k]]
  }

  lemma OneOpTells(s: LedgerState, op: BatchOp, s': LedgerState, events: seq<LedgerEvent>)
    requires ApplyOp(s, op) == Ok(s')
    ensures Tells(s, s', ResponseTo(Single(op), events)) && !ResponseTo(Single(op), events).BatchApplied?
  {
    OpIsItsEvent(s, op);
    if op.OpCreateAccount? || op.OpCloseAccount? {
      hide PostPending, VoidPending, CreateTransfer, CreatePending;
    } else {
      hide ApplyOp, ApplyEvent;
      Inv.EventFiles(s, EventFor(s, op), s');
    }
  }

  /** The answer to a request is true: a success names what it did, a refusal carries the error of its
      first failing operation, which is true of the ledger that operation met. */
  lemma AnswersAreTrue(s: LedgerState, r: Request)
    ensures var (s', answer) := ApplyRequest(s, r);
      && (answer.Ok? ==> Tells(s, s', answer.value) && (answer.value.BatchApplied? <==> r.Batch?))
      && (answer.Err? ==> s' == s && exists k :: FailsAt(s, OpsOf(r), k, answer.error))
  {
    hide ApplyOps, GuardedOps, GuardedEvents, ApplyEvents, ApplyOp, GuardedOp, Tells;
    var ops := OpsOf(r);
    RequestIsAtomic(s, r);
    GuardIsTransparent(s, ops);
    if ApplyOps(s, ops).Ok? {
      var events := OpsHaveEvents(s, ops);
      assert NewEvents(s, ApplyOps(s, ops).value) == events;
      EventGuardIsTransparent(s, events);
      match r
      case Single(op) =>
        SingleOp(s, op);
        OneOpTells(s, op, ApplyRequest(s, r).0, events);
      case Batch(_) =>
        BatchTells(s, ApplyRequest(s, r).0, events);
    } else {
      var k := FirstFailure(s, ops);
      assert FailsAt(s, ops, k, ApplyRequest(s, r).1.error);
    }
  }

  lemma SingleOp(s: LedgerState, op: BatchOp)
    ensures ApplyOps(s, [op]) == ApplyOp(s, op)
  {
    hide ApplyOp;
    assert [op][1..] == [];
  }

  lemma BatchTells(s: LedgerState, s': LedgerState, events: seq<LedgerEvent>)
    requires s'.journal == s.journal + events
    ensures Tells(s, s', BatchApplied(events))
  {
  }

  /** Operation `k` is the first to fail, and `e` is its error on the ledger the ones before it left. */
  ghost predicate FailsAt(s: LedgerState, ops: seq<BatchOp>, k: nat, e: LedgerError) {
    && k < |ops| && ApplyOps(s, ops[..k]).Ok?
    && ApplyOp(ApplyOps(s, ops[..k]).value, ops[k]).Err? && GuardedOp(ApplyOps(s, ops[..k]).value, ops[k]) == Err(e)
  }

  // ----- what a list of entries adds up to

  /** The operation lists of the normal entries, in order. */
  function Requests(entries: seq<Entry>): seq<seq<BatchOp>> {
    if entries == [] then []
    else (if entries[0].payload.Normal? then [OpsOf(entries[0].payload.request)] else []) + Requests(entries[1..])
  }

  /** The latest membership in the entries, or the one before them. */
  function Latest(m: Membership, entries: seq<Entry>): Membership {
    if entries == [] then m
    else
      var last := entries[|entries| - 1];
      if last.payload.Membership? then Membership.Membership(Some(last.logId), last.payload.voters)
      else Latest(m, entries[..|entries| - 1])
  }

  lemma {:induction false} LatestStep(m: Membership, e: Entry, rest: seq<Entry>)
    ensures Latest(m, [e] + rest)
      == Latest(if e.payload.Membership? then Membership.Membership(Some(e.logId), e.payload.voters) else m, rest)
    decreases |rest|
  {
    var all := [e] + rest;
    if rest == [] {
      assert all == [e] && all[..0] == [];
    } else {
      assert all[|all| - 1] == rest[|rest| - 1] && all[..|all| - 1] == [e] + rest[..|rest| - 1];
      LatestStep(m, e, rest[..|rest| - 1]);
    }
  }

  /** After any entries: the ledger is the requests executed one by one, the last entry is the one
      applied last, the membership is the latest, and every entry got an answer. */
  lemma {:induction false} EntriesAddUp(s: State, entries: seq<Entry>)
    ensures var (s', answers) := ApplyEntries(s, entries);
      && s'.ledger == OneByOne(s.ledger, Requests(entries)) && |answers| == |entries|
      && s'.lastApplied == (if entries == [] then s.lastApplied else Some(entries[|entries| - 1].logId))
      && s'.membership == Latest(s.membership, entries)
    decreases |entries|
  {
    hide ApplyOps, ApplyRequest;
    if entries != [] {
      var e, rest := entries[0], entries[1..];
      var next := ApplyEntry(s, e).0;
      EntriesAddUp(next, rest);
      assert entries == [e] + rest;
      LatestStep(s.membership, e, rest);
      if e.payload.Normal? {
        RequestIsAtomic(s.ledger, e.payload.request);
        var ops := OpsOf(e.payload.request);
        assert ([ops] + Requests(rest))[1..] == Requests(rest);
      } else {
        assert [] + Requests(rest) == Requests(rest);
      }
    }
  }

  /** Between entries, the ledger is what its own journal replays to. */
  ghost predicate Replayable(s: State) {
    Replay(s.ledger.scale, s.ledger.journal) == Ok(s.ledger)
  }

  lemma EntryIsReplayable(s: State, e: Entry)
    requires Replayable(s)
    ensures Replayable(ApplyEntry(s, e).0)
  {
    hide ApplyOps, ApplyEvents, ApplyRequest;
    if e.payload.Normal? {
      var ops := OpsOf(e.payload.request);
      RequestIsAtomic(s.ledger, e.payload.request);
      if ApplyOps(s.ledger, ops).Ok? {
        var events := OpsHaveEvents(s.ledger, ops);
        EventsAreRecorded(s.ledger, events);
        ApplyEventsConcat(New(s.ledger.scale), s.ledger.journal, events);
      }
    }
  }

  lemma {:induction false} EntriesAreReplayable(s: State, entries: seq<Entry>)
    requires Replayable(s)
    ensures Replayable(ApplyEntries(s, entries).0)
    decreases |entries|
  {
    hide ApplyEntry, Replayable;
    if entries != [] {
      EntryIsReplayable(s, entries[0]);
      EntriesAreReplayable(ApplyEntry(s, entries[0]).0, entries[1..]);
    }
  }

  lemma {:induction false} ApplyEntriesConcat(s: State, a: seq<Entry>, b: seq<Entry>)
    ensures var (mid, first) := ApplyEntries(s, a);
      var (last, second) := ApplyEntries(mid, b);
      ApplyEntries(s, a + b) == (last, first + second)
    decreases |a|
  {
    hide ApplyEntry;
    if a == [] {
      assert a + b == b;
      assert [] + ApplyEntries(s, b).1 == ApplyEntries(s, b).1;
    } else {
      assert (a + b)[0] == a[0] && (a + b)[1..] == a[1..] + b;
      var (next, answer) := ApplyEntry(s, a[0]);
      ApplyEntriesConcat(next, a[1..], b);
      var (mid, rest) := ApplyEntries(next, a[1..]);
      AppendAssociates([answer], rest, ApplyEntries(mid, b).1);
    }
  }

  /** Catching up by snapshot is exact: a machine that installs the snapshot taken after `before`
      and applies `after` ends in the state, and gives the answers to `after`, of the machine that
      applied every entry. */
  lemma SnapshotThenTail(scale: Scale, before: seq<Entry>, after: seq<Entry>)
    ensures var leader := ApplyEntries(Fresh(scale), before).0;
      && Installed(TakeSnapshot(leader)) == Ok(leader)
      && ApplyEntries(Fresh(scale), before + after).0 == ApplyEntries(leader, after).0
      && ApplyEntries(Fresh(scale), before + after).1
         == ApplyEntries(Fresh(scale), before).1 + ApplyEntries(leader, after).1
  {
    hide ApplyEntries;
    EntriesAreReplayable(Fresh(scale), before);
    ApplyEntriesConcat(Fresh(scale), before, after);
  }

  // ----- the machine

  class LedgerStateMachine {
    var ledger: LE.Ledger
    var lastApplied: Option<LogId>
    var membership: Membership
    var currentSnapshot: Option<Snapshot>

    function View(): State
      reads this, ledger
    {
      State(ledger.View(), lastApplied, membership)
    }

    constructor (scale: Scale)
      ensures View() == Fresh(scale) && currentSnapshot == None && fresh(ledger)
    {
      ledger := new LE.Ledger(scale);
      lastApplied := None;
      membership := Membership.Membership(None, {});
      currentSnapshot := None;
    }

    method ApplySingleRequest(r: Request) returns (answer: Answer)
      modifies ledger
      ensures (ledger.View(), answer) == ApplyRequest(old(ledger.View()), r)
    {
      hide PrepareBatch, GuardedEvents;
      var events :- ledger.PrepareBatch(OpsOf(r));
      var _ :- ledger.CommitEvents(events);
      return Ok(ResponseTo(r, events));
    }

    /** `apply`: entries in order, one answer each. */
    method Apply(entries: seq<Entry>) returns (answers: seq<Answer>)
      modifies this, ledger
      ensures ledger == old(ledger) && currentSnapshot == old(currentSnapshot)
      ensures (View(), answers) == ApplyEntries(old(View()), entries)
    {
      hide ApplyRequest;
      answers := [];
      assert entries[0..] == entries;
      assert answers + ApplyEntries(View(), entries).1 == ApplyEntries(View(), entries).1;
      for i := 0 to |entries|
        invariant ledger == old(ledger) && currentSnapshot == old(currentSnapshot)
        invariant ApplyEntries(old(View()), entries)
          == (ApplyEntries(View(), entries[i..]).0, answers + ApplyEntries(View(), entries[i..]).1)
      {
        ghost var before, done := View(), answers;
        assert entries[i..][0] == entries[i] && entries[i..][1..] == entries[i + 1..];
        lastApplied := Some(entries[i].logId);
        match entries[i].payload {
          case Blank => answers := answers + [Ok(Nothing)];
          case Membership(voters) =>
            membership := Membership.Membership(Some(entries[i].logId), voters);
            answers := answers + [Ok(Nothing)];
          case Normal(request) =>
            var answer := ApplySingleRequest(request);
            answers := answers + [answer];
        }
        assert View() == ApplyEntry(before, entries[i]).0 && answers == done + [ApplyEntry(before, entries[i]).1];
        AppendAssociates(done, [ApplyEntry(before, entries[i]).1], ApplyEntries(View(), entries[i + 1..]).1);
      }
      assert answers + [] == answers;
    }

    /** `get_snapshot_builder` and `build_snapshot`. */
    method BuildSnapshot() returns (s: Snapshot)
      ensures s == TakeSnapshot(View())
    {
      return Snapshot(SnapshotMeta(lastApplied, membership), ledger.scale, ledger.journal);
    }

    /** `install_snapshot`: replace the whole state, or leave it alone when the bytes do not decode
        (`None`) or the journal does not replay. */
    method InstallSnapshot(decoded: Option<Snapshot>) returns (r: Result<(), InstallError>)
      modifies this
      ensures decoded.None? ==> r == Err(Undecodable)
      ensures decoded.Some? && Installed(decoded.value).Err? ==> r == Err(Unreplayable(Installed(decoded.value).error))
      ensures decoded.Some? && Installed(decoded.value).Ok? ==>
        r.Ok? && View() == Installed(decoded.value).value && fresh(ledger) && currentSnapshot == decoded
      ensures r.Err? ==> ledger == old(ledger) && View() == old(View()) && currentSnapshot == old(currentSnapshot)
    {
      if decoded.None? {
        return Err(Undecodable);
      }
      var s := decoded.value;
      var replayed := LE.Replay(s.scale, s.journal);
      if replayed.Err? {
        return Err(Unreplayable(replayed.error));
      }
      ledger := replayed.value;
      lastApplied := s.meta.lastLogId;
      membership := s.meta.lastMembership;
      currentSnapshot := decoded;
      return Ok(());
    }
  }
}
