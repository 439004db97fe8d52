/**
 Replicated accounting: journals of any two nodes are prefix-ordered, and the money tracked by
 the oracle never changes, on any node, in any run.
 */
module ClusterAccounting {
  import opened Prelude
  import opened LedgerTypes
  import opened LedgerSpec
  import LedgerReplay
  import opened LedgerInvariant
  import opened ClusterTypes
  import opened ClusterSpec
  import opened ClusterDurability
  import opened ClusterAgreement
  import opened ClusterValidity

  // ----- journals

  /** The ledger operation a workload entry asks for. */
  function OpFor(e: Entry): BatchOp {
    match e.op
    case DirectTransfer(id, from, to, amount) => OpTransfer(Transfer(id, from, to, amount, Posted, None, e.timestamp))
    case CreateHold(id, from, to, amount) => OpPending(Transfer(id, from, to, amount, Pending, None, e.timestamp))
    case PostHold(p, q, amount) => OpPostPending(p, q, amount, e.timestamp)
    case VoidHold(p, _) => OpVoidPending(p, e.timestamp)
  }

  /** A workload entry carries out its operation, or, when that is refused, changes nothing. */
  lemma WorkloadIsItsOp(l: LedgerState, e: Entry)
    ensures ApplyWorkload(l, e) == Keep(l, LedgerSpec.ApplyOp(l, OpFor(e)))
  {
    hide GetAccount, EnsureCanDebit, EnsureCanCredit, WriteBoth, PostPending, VoidPending;
  }

  /** So it applies and records exactly the event of that operation, or nothing. */
  lemma WorkloadHasEvent(l: LedgerState, e: Entry) returns (ev: Option<LedgerEvent>)
    ensures ev.None? ==> ApplyWorkload(l, e) == l && LedgerSpec.ApplyOp(l, OpFor(e)).Err?
    ensures ev.Some? ==> ev.value == LedgerReplay.EventFor(l, OpFor(e))
    ensures ev.Some? ==> ApplyEvent(l, ev.value) == Ok(ApplyWorkload(l, e))
  {
    hide ApplyWorkload, LedgerSpec.ApplyOp, ApplyEvent;
    WorkloadIsItsOp(l, e);
    LedgerReplay.OpIsItsEvent(l, OpFor(e));
    ev := if LedgerSpec.ApplyOp(l, OpFor(e)).Ok? then Some(LedgerReplay.EventFor(l, OpFor(e))) else None;
  }

  /** When a workload entry takes effect, in terms of the ledger it meets. */
  ghost predicate TakesEffect(l: LedgerState, e: Entry) {
    match e.op
    case DirectTransfer(id, from, to, amount) =>
      && Proper(l, Transfer(id, from, to, amount, Posted, None, e.timestamp))
      && var d, c := l.accounts[from], l.accounts[to];
         && d.balance.debitsPosted + amount < U128_LIMIT && c.balance.creditsPosted + amount < U128_LIMIT
         && MayHold(d, d.balance.(debitsPosted := d.balance.debitsPosted + amount))
         && MayHold(c, c.balance.(creditsPosted := c.balance.creditsPosted + amount))
    case CreateHold(id, from, to, amount) =>
      && Proper(l, Transfer(id, from, to, amount, Pending, None, e.timestamp))
      && var d, c := l.accounts[from], l.accounts[to];
         && d.balance.debitsPending + amount < U128_LIMIT && c.balance.creditsPending + amount < U128_LIMIT
         && MayHold(d, d.balance.(debitsPending := d.balance.debitsPending + amount))
         && MayHold(c, c.balance.(creditsPending := c.balance.creditsPending + amount))
    case PostHold(p, q, amount) =>
      && e.timestamp >= l.lastTimestamp && q !in l.transfers
      && p in l.transfers && l.transfers[p].state == Pending && 0 < amount <= l.transfers[p].amount
      && TransferOk(l, p)
      && l.accounts[l.transfers[p].debit].balance.debitsPosted + amount < U128_LIMIT
      && l.accounts[l.transfers[p].credit].balance.creditsPosted + amount < U128_LIMIT
    case VoidHold(p, _) =>
      e.timestamp >= l.lastTimestamp && p in l.transfers && l.transfers[p].state == Pending
  }

  /** On a sound ledger an entry is refused only when one of these conditions fails. */
  lemma WorkloadSucceedsIff(l: LedgerState, e: Entry)
    requires Sound(l)
    ensures LedgerSpec.ApplyOp(l, OpFor(e)).Ok? <==> TakesEffect(l, e)
  {
    hide CreateTransfer, CreatePending, PostPending, VoidPending, Conserved, Backed, Limited, LifecycleOk, MayHold;
    match e.op
    case DirectTransfer(id, from, to, amount) =>
      TransferSucceedsIff(l, Transfer(id, from, to, amount, Posted, None, e.timestamp));
    case CreateHold(id, from, to, amount) =>
      HoldSucceedsIff(l, Transfer(id, from, to, amount, Pending, None, e.timestamp));
    case PostHold(p, q, amount) => CaptureSucceedsIff(l, p, q, amount, e.timestamp);
    case VoidHold(p, _) => VoidSucceedsIff(l, p, e.timestamp);
  }

  lemma WorkloadExtendsJournal(l: LedgerState, e: Entry)
    ensures l.journal <= ApplyWorkload(l, e).journal
  {
    hide ApplyWorkload;
    var ev := WorkloadHasEvent(l, e);
    if ev.Some? {
      LedgerReplay.EventIsRecorded(l, ev.value);
    }
  }

  lemma {:induction false} FoldExtendsJournal(genesis: LedgerState, log: map<nat, Entry>, j: nat, k: nat)
    requires j <= k && Covers(log, k)
    ensures Fold(genesis, log, j).journal <= Fold(genesis, log, k).journal
    decreases k
  {
    hide ApplyWorkload;
    if j < k {
      FoldExtendsJournal(genesis, log, j, k - 1);
      WorkloadExtendsJournal(Fold(genesis, log, k - 1), log[k]);
    }
  }

  /** In every run, of two nodes the one with the smaller commit index has a prefix of the other's
      journal, and nodes with the same commit index have the same ledger. */
  lemma JournalsAreOrdered(cfg: Config, evs: seq<Event>, a: NodeId, b: NodeId)
    requires CodecOk(cfg.codec) && Indexed(cfg, evs) && a in cfg.ids && b in cfg.ids
    ensures var c := Run(cfg, evs);
      && a in c.nodes && b in c.nodes
      && (c.nodes[a].commitIndex <= c.nodes[b].commitIndex ==>
            c.nodes[a].ledger.journal <= c.nodes[b].ledger.journal)
      && (c.nodes[a].commitIndex == c.nodes[b].commitIndex ==> c.nodes[a].ledger == c.nodes[b].ledger)
  {
    hide Run, CodecOk, OnDisk, Fold;
    NodesStayOk(cfg, evs, a);
    NodesStayOk(cfg, evs, b);
    var c := Run(cfg, evs);
    var la, lb, k := c.nodes[a].committed, c.nodes[b].committed, c.nodes[a].commitIndex;
    if k <= c.nodes[b].commitIndex {
      forall i: nat | 1 <= i <= k ensures la[i] == lb[i] {
        LogAgreement(cfg, evs, a, b, i);
      }
      FoldAgrees(cfg.genesis, la, lb, k);
      FoldExtendsJournal(cfg.genesis, lb, k, c.nodes[b].commitIndex);
    }
  }

  // ----- wealth

  /** Settled money of an account: posted credits less posted debits. */
  function Net(l: LedgerState, id: AccountId): int {
    if id in l.accounts then l.accounts[id].balance.creditsPosted - l.accounts[id].balance.debitsPosted else 0
  }

  /** What the oracle adds up. */
  function Wealth(l: LedgerState, accounts: seq<AccountId>): int {
    if accounts == [] then 0 else Net(l, accounts[0]) + Wealth(l, accounts[1..])
  }

  predicate Distinct(accounts: seq<AccountId>) {
    forall i, j :: 0 <= i < j < |accounts| ==> accounts[i] != accounts[j]
  }

  /** Every tracked account exists and may not be overdrawn. */
  ghost predicate Tracked(l: LedgerState, accounts: seq<AccountId>) {
    forall i :: 0 <= i < |accounts| ==>
      accounts[i] in l.accounts && l.accounts[accounts[i]].flags.debitsMustNotExceedCredits
  }

  /** Holds stay among tracked accounts. */
  ghost predicate HoldsTracked(l: LedgerState, accounts: seq<AccountId>) {
    forall k :: k in l.transfers && l.transfers[k].state == Pending ==>
      l.transfers[k].debit in accounts && l.transfers[k].credit in accounts
  }

  /** An operation names only tracked accounts. */
  predicate OpTracked(op: WorkloadOp, accounts: seq<AccountId>) {
    (op.DirectTransfer? || op.CreateHold?) ==> op.from in accounts && op.to in accounts
  }

  lemma {:induction false} WealthMoves(l: LedgerState, l': LedgerState, m: Move, accounts: seq<AccountId>)
    requires Moved(l.accounts, l'.accounts, m) && Distinct(accounts)
    ensures Wealth(l', accounts) == Wealth(l, accounts)
      + (if m.credit in accounts then m.posted else 0) - (if m.debit in accounts then m.posted else 0)
    decreases |accounts|
  {
    if accounts != [] {
      WealthMoves(l, l', m, accounts[1..]);
      assert accounts == [accounts[0]] + accounts[1..];
      assert accounts[0] !in accounts[1..];
    }
  }

  lemma EventKeepsHoldsTracked(l: LedgerState, e: Entry, ev: LedgerEvent, l': LedgerState, accounts: seq<AccountId>)
    requires ApplyEvent(l, ev) == Ok(l') && ev == LedgerReplay.EventFor(l, OpFor(e))
    requires OpTracked(e.op, accounts) && HoldsTracked(l, accounts)
    ensures HoldsTracked(l', accounts)
  {
  }

  lemma MoveIsTracked(l: LedgerState, e: Entry, ev: LedgerEvent, accounts: seq<AccountId>)
    requires ApplyEvent(l, ev).Ok? && ev == LedgerReplay.EventFor(l, OpFor(e))
    requires OpTracked(e.op, accounts) && HoldsTracked(l, accounts)
    ensures MoveOf(l, ev).Some? && MoveOf(l, ev).value.debit in accounts && MoveOf(l, ev).value.credit in accounts
  {
  }

  /** Everything the oracle relies on. */
  ghost predicate InBalance(l: LedgerState, accounts: seq<AccountId>, supply: int) {
    Sound(l) && Tracked(l, accounts) && HoldsTracked(l, accounts) && Wealth(l, accounts) == supply
  }

  lemma MovedKeepsTracked(l: LedgerState, l': LedgerState, m: Move, accounts: seq<AccountId>)
    requires Moved(l.accounts, l'.accounts, m) && Tracked(l, accounts)
    ensures Tracked(l', accounts)
  {
  }

  lemma WorkloadKeepsBalance(l: LedgerState, e: Entry, accounts: seq<AccountId>, supply: int)
    requires Distinct(accounts) && InBalance(l, accounts, supply) && OpTracked(e.op, accounts)
    ensures InBalance(ApplyWorkload(l, e), accounts, supply)
  {
    hide ApplyWorkload, ApplyEvent, Conserved, Backed, LifecycleOk, Limited, WellFormed, OpTracked, Tracked,
         HoldsTracked, OpFor, LedgerReplay.EventFor;
    var l' := ApplyWorkload(l, e);
    var ev := WorkloadHasEvent(l, e);
    if ev.Some? {
      EventKeepsSound(l, ev.value, l');
      EventMoves(l, ev.value, l');
      MoveIsTracked(l, e, ev.value, accounts);
      EventKeepsHoldsTracked(l, e, ev.value, l', accounts);
      hide MoveOf, Moved;
      WealthMoves(l, l', MoveOf(l, ev.value).value, accounts);
      MovedKeepsTracked(l, l', MoveOf(l, ev.value).value, accounts);
    }
  }

  lemma {:induction false} FoldKeepsBalance(genesis: LedgerState, log: map<nat, Entry>, k: nat,
                                            accounts: seq<AccountId>, supply: int)
    requires Distinct(accounts) && InBalance(genesis, accounts, supply) && Covers(log, k)
    requires forall i: nat :: 1 <= i <= k ==> OpTracked(log[i].op, accounts)
    ensures InBalance(Fold(genesis, log, k), accounts, supply)
  {
    hide ApplyWorkload, InBalance, OpTracked;
    if k > 0 {
      FoldKeepsBalance(genesis, log, k - 1, accounts, supply);
      WorkloadKeepsBalance(Fold(genesis, log, k - 1), log[k], accounts, supply);
    }
  }

  /** In every run whose clients move money only between tracked accounts, every node's ledger is
      sound and holds exactly the initial supply. */
  lemma WealthIsConserved(cfg: Config, evs: seq<Event>, id: NodeId, accounts: seq<AccountId>, supply: int)
    requires CodecOk(cfg.codec) && Indexed(cfg, evs) && id in cfg.ids
    requires Distinct(accounts) && InBalance(cfg.genesis, accounts, supply)
    requires forall i :: 0 <= i < |evs| && evs[i].ClientOp? ==> OpTracked(evs[i].op, accounts)
    ensures id in Run(cfg, evs).nodes && InBalance(Run(cfg, evs).nodes[id].ledger, accounts, supply)
  {
    hide Run, CodecOk, OnDisk, InBalance, OpTracked, Fold, ProposedOps;
    NodesStayOk(cfg, evs, id);
    ProposedAreTracked(cfg, evs, accounts);
    var n := Run(cfg, evs).nodes[id];
    forall i: nat | 1 <= i <= n.commitIndex ensures OpTracked(n.committed[i].op, accounts) {
      CommittedWasProposed(cfg, evs, id, i);
    }
    FoldKeepsBalance(cfg.genesis, n.committed, n.commitIndex, accounts, supply);
  }

  lemma {:induction false} ProposedAreTracked(cfg: Config, evs: seq<Event>, accounts: seq<AccountId>)
    requires forall i :: 0 <= i < |evs| && evs[i].ClientOp? ==> OpTracked(evs[i].op, accounts)
    ensures forall i :: 0 <= i < |ProposedOps(cfg, evs)| ==> OpTracked(ProposedOps(cfg, evs)[i], accounts)
    decreases |evs|
  {
    hide OpTracked, Run;
    if evs != [] {
      ProposedAreTracked(cfg, evs[..|evs| - 1], accounts);
    }
  }

  /** No tracked account is ever negative. */
  lemma NoneNegative(l: LedgerState, accounts: seq<AccountId>, supply: int, i: nat)
    requires InBalance(l, accounts, supply) && i < |accounts|
    ensures accounts[i] in l.accounts
    ensures l.accounts[accounts[i]].balance.debitsPosted <= l.accounts[accounts[i]].balance.creditsPosted
  {
    hide Conserved, Backed, LifecycleOk, WellFormed, HoldsTracked, Wealth;
    assert WithinLimits(l.accounts[accounts[i]]);
  }
}
