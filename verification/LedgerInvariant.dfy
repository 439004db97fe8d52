/**
 What every run of the ledger keeps: conservation of money, pending balances backed
 by holds, posted balances backed by the journal, overdraft limits, closure and the
 hold lifecycle. Every reachable ledger is the replay of its own journal, so each
 property is proved once, for one event.
 */
module LedgerInvariant {
  import opened Prelude
  import opened LedgerTypes
  import opened LedgerSpec
  import opened LedgerReplay
  import opened Sums

  // ----- columns of the books

  datatype Column = DebitsPosted | CreditsPosted | DebitsPending | CreditsPending

  function Cell(b: Balance, c: Column): Amount {
    match c
    case DebitsPosted => b.debitsPosted
    case CreditsPosted => b.creditsPosted
    case DebitsPending => b.debitsPending
    case CreditsPending => b.creditsPending
  }

  function Cells(accounts: map<AccountId, Account>, c: Column): map<AccountId, int> {
    map id | id in accounts :: Cell(accounts[id].balance, c)
  }

  /** A column summed over all accounts, as a mathematical integer. */
  ghost function Total(accounts: map<AccountId, Account>, c: Column): int {
    MapSum(Cells(accounts, c))
  }

  lemma TotalUpdate(accounts: map<AccountId, Account>, id: AccountId, a: Account, c: Column)
    ensures Total(accounts[id := a], c) == Total(accounts, c) + Cell(a.balance, c)
              - (if id in accounts then Cell(accounts[id].balance, c) else 0)
  {
    assert Cells(accounts[id := a], c) == Cells(accounts, c)[id := Cell(a.balance, c)];
    MapSumUpdate(Cells(accounts, c), id, Cell(a.balance, c));
  }

  datatype Side = Debit | Credit

  function Party(t: Transfer, side: Side): AccountId {
    if side.Debit? then t.debit else t.credit
  }

  function Posting(side: Side): Column {
    if side.Debit? then DebitsPosted else CreditsPosted
  }

  function Holding(side: Side): Column {
    if side.Debit? then DebitsPending else CreditsPending
  }

  /** What `t` holds on one side of account `id`: its amount while it is pending. */
  function Held(t: Transfer, id: AccountId, side: Side): Amount {
    if t.state == Pending && Party(t, side) == id then t.amount else 0
  }

  function Holds(transfers: map<TransferId, Transfer>, id: AccountId, side: Side): map<TransferId, int> {
    map k | k in transfers :: Held(transfers[k], id, side)
  }

  ghost function HeldSum(transfers: map<TransferId, Transfer>, id: AccountId, side: Side): int {
    MapSum(Holds(transfers, id, side))
  }

  lemma HeldUpdate(transfers: map<TransferId, Transfer>, k: TransferId, t: Transfer, id: AccountId, side: Side)
    ensures HeldSum(transfers[k := t], id, side) == HeldSum(transfers, id, side) + Held(t, id, side)
              - (if k in transfers then Held(transfers[k], id, side) else 0)
  {
    assert Holds(transfers[k := t], id, side) == Holds(transfers, id, side)[k := Held(t, id, side)];
    MapSumUpdate(Holds(transfers, id, side), k, Held(t, id, side));
  }

  /** What one journal event posts on one side of account `id`. A capture posts to the parties
      of its settlement transfer. */
  function Postings(e: LedgerEvent, transfers: map<TransferId, Transfer>, id: AccountId, side: Side): Amount {
    match e
    case TransferPosted(t) => if Party(t, side) == id then t.amount else 0
    case TransferPendingPosted(_, q, amount, _) =>
      if q in transfers && Party(transfers[q], side) == id then amount else 0
    case _ => 0
  }

  function PostedSum(journal: seq<LedgerEvent>, transfers: map<TransferId, Transfer>, id: AccountId, side: Side): int {
    if journal == [] then 0
    else PostedSum(journal[..|journal| - 1], transfers, id, side)
         + Postings(journal[|journal| - 1], transfers, id, side)
  }

  // ----- the invariant

  ghost predicate WellFormed(s: LedgerState) {
    && (forall id :: id in s.accounts ==> s.accounts[id].id == id && s.accounts[id].scale == s.scale)
    && (forall k :: k in s.transfers ==> TransferOk(s, k))
    && (forall i :: 0 <= i < |s.journal| && s.journal[i].TransferPendingPosted? ==> s.journal[i].postId in s.transfers)
  }

  /** What `verify_structure` asks of one transfer, and that its parties are distinct and its amount positive. */
  ghost predicate TransferOk(s: LedgerState, k: TransferId)
    requires k in s.transfers
  {
    var t := s.transfers[k];
    && t.id == k && t.debit != t.credit && t.amount > 0
    && t.debit in s.accounts && t.credit in s.accounts
    && (t.state != Posted ==> t.pendingId.None?)
    && (t.pendingId.Some? ==> t.pendingId.value in s.transfers && s.transfers[t.pendingId.value].state == Posted)
  }

  /** Total debits equal total credits, for posted and for pending money. */
  ghost predicate Conserved(s: LedgerState) {
    && Total(s.accounts, DebitsPosted) == Total(s.accounts, CreditsPosted)
    && Total(s.accounts, DebitsPending) == Total(s.accounts, CreditsPending)
  }

  /** Account `id`'s pending balance is the sum of its pending transfers, its posted balance the
      fold of the journal; an unknown account has neither. */
  ghost predicate BackedAt(s: LedgerState, id: AccountId, side: Side) {
    && HeldSum(s.transfers, id, side)
       == (if id in s.accounts then Cell(s.accounts[id].balance, Holding(side)) else 0)
    && PostedSum(s.journal, s.transfers, id, side)
       == (if id in s.accounts then Cell(s.accounts[id].balance, Posting(side)) else 0)
  }

  ghost predicate Backed(s: LedgerState) {
    forall id, side :: BackedAt(s, id, side)
  }

  /** Overdraft limits: `posted + pending` on the limited side stays within `posted` on the other. */
  predicate WithinLimits(a: Account) {
    && (a.flags.debitsMustNotExceedCredits ==>
          a.balance.debitsPosted + a.balance.debitsPending <= a.balance.creditsPosted)
    && (a.flags.creditsMustNotExceedDebits ==>
          a.balance.creditsPosted + a.balance.creditsPending <= a.balance.debitsPosted)
  }

  ghost predicate Limited(s: LedgerState) {
    forall id :: id in s.accounts ==> WithinLimits(s.accounts[id])
  }

  /** The hold an event captures or voids. */
  function Resolves(e: LedgerEvent): Option<TransferId> {
    match e
    case TransferPendingPosted(p, _, _, _) => Some(p)
    case TransferPendingVoided(p, _, _) => Some(p)
    case _ => None
  }

  /** A resolving event agrees with the hold it resolved. */
  ghost predicate Resolved(s: LedgerState, e: LedgerEvent) {
    match e
    case TransferPendingPosted(p, _, amount, _) =>
      p in s.transfers && s.transfers[p].state == Posted && 0 < amount <= s.transfers[p].amount
    case TransferPendingVoided(p, amount, _) =>
      p in s.transfers && s.transfers[p].state == Voided && amount == s.transfers[p].amount
    case _ => true
  }

  /** Each hold is captured or voided at most once, and never captured for more than it reserved. */
  ghost predicate LifecycleOk(s: LedgerState) {
    && (forall i :: 0 <= i < |s.journal| ==> Resolved(s, s.journal[i]))
    && (forall i, j :: 0 <= i < j < |s.journal| && Resolves(s.journal[i]).Some? ==>
          Resolves(s.journal[i]) != Resolves(s.journal[j]))
  }

  ghost predicate Sound(s: LedgerState) {
    WellFormed(s) && Conserved(s) && Backed(s) && Limited(s) && LifecycleOk(s)
  }

  // ----- the effect of one event

  /** How an event moves money: `posted` and `pending` are added to both sides. */
  datatype Move = Move(debit: AccountId, credit: AccountId, posted: int, pending: int)

  function MoveOf(s: LedgerState, e: LedgerEvent): Option<Move> {
    match e
    case TransferPosted(t) => Some(Move(t.debit, t.credit, t.amount, 0))
    case TransferPendingCreated(t) => Some(Move(t.debit, t.credit, 0, t.amount))
    case TransferPendingPosted(p, _, amount, _) =>
      if p in s.transfers then
        var h := s.transfers[p];
        Some(Move(h.debit, h.credit, amount, 0 - h.amount))
      else None
    case TransferPendingVoided(p, _, _) =>
      if p in s.transfers then
        var h := s.transfers[p];
        Some(Move(h.debit, h.credit, 0, 0 - h.amount))
      else None
    case _ => None
  }

  ghost predicate DebitMoved(b: Balance, b': Balance, m: Move) {
    && b'.debitsPosted == b.debitsPosted + m.posted && b'.debitsPending == b.debitsPending + m.pending
    && b'.creditsPosted == b.creditsPosted && b'.creditsPending == b.creditsPending
  }

  ghost predicate CreditMoved(b: Balance, b': Balance, m: Move) {
    && b'.creditsPosted == b.creditsPosted + m.posted && b'.creditsPending == b.creditsPending + m.pending
    && b'.debitsPosted == b.debitsPosted && b'.debitsPending == b.debitsPending
  }

  /** `m` is exactly what changed in the accounts. */
  ghost predicate Moved(before: map<AccountId, Account>, after: map<AccountId, Account>, m: Move) {
    && m.debit in before && m.credit in before && m.debit != m.credit
    && m.debit in after && m.credit in after
    && after == before[m.debit := after[m.debit]][m.credit := after[m.credit]]
    && after[m.debit] == before[m.debit].(balance := after[m.debit].balance)
    && after[m.credit] == before[m.credit].(balance := after[m.credit].balance)
    && DebitMoved(before[m.debit].balance, after[m.debit].balance, m)
    && CreditMoved(before[m.credit].balance, after[m.credit].balance, m)
  }

  /** `a` is new, empty and the only change. */
  ghost predicate Opened(before: map<AccountId, Account>, after: map<AccountId, Account>, a: Account) {
    a.id !in before && after == before[a.id := a] && a.balance == ZERO_BALANCE
  }

  ghost predicate Shut(before: map<AccountId, Account>, after: map<AccountId, Account>, id: AccountId) {
    id in before && after == before[id := before[id].(flags := before[id].flags.(isClosed := true))]
  }

  lemma TransferMoves(s: LedgerState, t: Transfer)
    ensures CreateTransfer(s, t).Ok? ==>
      Moved(s.accounts, CreateTransfer(s, t).value.accounts, Move(t.debit, t.credit, t.amount, 0))
    ensures CreatePending(s, t).Ok? ==>
      Moved(s.accounts, CreatePending(s, t).value.accounts, Move(t.debit, t.credit, 0, t.amount))
  {
  }

  lemma SettlementMoves(s: LedgerState, p: TransferId, q: TransferId, amount: Amount, ts: u64)
    requires p in s.transfers && s.transfers[p].debit != s.transfers[p].credit
    ensures var h := s.transfers[p];
      && (PostPending(s, p, q, amount, ts).Ok? ==>
            Moved(s.accounts, PostPending(s, p, q, amount, ts).value.accounts,
                  Move(h.debit, h.credit, amount, 0 - h.amount)))
      && (VoidPending(s, p, ts).Ok? ==>
            Moved(s.accounts, VoidPending(s, p, ts).value.accounts, Move(h.debit, h.credit, 0, 0 - h.amount)))
  {
  }

  lemma EventMoves(s: LedgerState, e: LedgerEvent, s': LedgerState)
    requires WellFormed(s) && ApplyEvent(s, e) == Ok(s')
    ensures MoveOf(s, e).Some? ==> Moved(s.accounts, s'.accounts, MoveOf(s, e).value)
    ensures e.AccountCreated? ==>
      Opened(s.accounts, s'.accounts, Account(e.id, e.accountType, e.flags, e.scale, ZERO_BALANCE))
    ensures e.AccountClosedAt? ==> Shut(s.accounts, s'.accounts, e.id)
    ensures MoveOf(s, e).Some? || e.AccountCreated? || e.AccountClosedAt?
  {
    match e
    case TransferPosted(t) => TransferMoves(s, t);
    case TransferPendingCreated(t) => TransferMoves(s, t);
    case TransferPendingPosted(p, q, amount, ts) => SettlementMoves(s, p, q, amount, ts);
    case TransferPendingVoided(p, amount, ts) => SettlementMoves(s, p, 0, amount, ts);
    case AccountCreated(_, _, _, _, _) =>
    case AccountClosedAt(_, _) =>
  }

  // ----- each part is kept by one event

  /** How an event changes the transfers. */
  ghost predicate Filed(s: LedgerState, e: LedgerEvent, s': LedgerState) {
    match e
    case TransferPosted(t) => FiledNew(s, t, s') && t.state == Posted
    case TransferPendingCreated(t) => FiledNew(s, t, s') && t.state == Pending && t.pendingId.None?
    case TransferPendingPosted(p, q, amount, _) =>
      && p in s.transfers && s.transfers[p].state == Pending && 0 < amount <= s.transfers[p].amount
      && q !in s.transfers && q in s'.transfers
      && s'.transfers == s.transfers[p := s.transfers[p].(state := Posted)][q := s'.transfers[q]]
      && Settles(s.transfers[p], p, s'.transfers[q], q, amount) && s'.transfers[q].timestamp == TimeOf(e)
    case TransferPendingVoided(p, amount, _) =>
      && p in s.transfers && s.transfers[p].state == Pending && amount == s.transfers[p].amount
      && s'.transfers == s.transfers[p := s.transfers[p].(state := Voided)]
    case _ => s'.transfers == s.transfers
  }

  ghost predicate FiledNew(s: LedgerState, t: Transfer, s': LedgerState) {
    && t.id !in s.transfers && s'.transfers == s.transfers[t.id := t]
    && t.amount > 0 && t.debit != t.credit
    && (t.pendingId.Some? ==> t.pendingId.value in s.transfers && s.transfers[t.pendingId.value].state == Posted)
  }

  /** `t` is the settlement of the hold `h` under id `p`. */
  predicate Settles(h: Transfer, p: TransferId, t: Transfer, q: TransferId, amount: Amount) {
    && t.id == q && t.debit == h.debit && t.credit == h.credit && t.amount == amount
    && t.state == Posted && t.pendingId == Some(p)
  }

  lemma EventFiles(s: LedgerState, e: LedgerEvent, s': LedgerState)
    requires ApplyEvent(s, e) == Ok(s')
    ensures Filed(s, e, s') && s'.journal == s.journal + [e] && s'.scale == s.scale
  {
    EventIsRecorded(s, e);
  }

  lemma KeepsAccounts(s: LedgerState, e: LedgerEvent, s': LedgerState)
    requires WellFormed(s) && ApplyEvent(s, e) == Ok(s')
    ensures forall id :: id in s.accounts ==> id in s'.accounts
    ensures forall id :: id in s'.accounts ==> s'.accounts[id].id == id && s'.accounts[id].scale == s.scale
    ensures MoveOf(s, e).Some? ==> MoveOf(s, e).value.debit in s.accounts && MoveOf(s, e).value.credit in s.accounts
  {
    EventMoves(s, e, s');
  }

  lemma KeepsWellFormed(s: LedgerState, e: LedgerEvent, s': LedgerState)
    requires WellFormed(s) && ApplyEvent(s, e) == Ok(s')
    ensures WellFormed(s')
  {
    hide ApplyEvent;
    EventFiles(s, e, s');
    KeepsAccounts(s, e, s');
    forall k | k in s'.transfers ensures TransferOk(s', k) {
      if k in s.transfers {
        assert TransferOk(s, k);
      }
    }
  }

  lemma TotalMoves(before: map<AccountId, Account>, after: map<AccountId, Account>, m: Move, c: Column)
    requires Moved(before, after, m)
    ensures Total(after, c) == Total(before, c)
      + Cell(after[m.debit].balance, c) - Cell(before[m.debit].balance, c)
      + Cell(after[m.credit].balance, c) - Cell(before[m.credit].balance, c)
  {
    TotalUpdate(before, m.debit, after[m.debit], c);
    TotalUpdate(before[m.debit := after[m.debit]], m.credit, after[m.credit], c);
  }

  lemma ConservedByMove(before: map<AccountId, Account>, after: map<AccountId, Account>, m: Move)
    requires Moved(before, after, m)
    ensures Total(after, DebitsPosted) - Total(before, DebitsPosted)
         == Total(after, CreditsPosted) - Total(before, CreditsPosted) == m.posted
    ensures Total(after, DebitsPending) - Total(before, DebitsPending)
         == Total(after, CreditsPending) - Total(before, CreditsPending) == m.pending
  {
    TotalMoves(before, after, m, DebitsPosted);
    TotalMoves(before, after, m, CreditsPosted);
    TotalMoves(before, after, m, DebitsPending);
    TotalMoves(before, after, m, CreditsPending);
  }

  lemma KeepsConserved(s: LedgerState, e: LedgerEvent, s': LedgerState)
    requires WellFormed(s) && Conserved(s) && ApplyEvent(s, e) == Ok(s')
    ensures Conserved(s')
  {
    hide ApplyEvent, WellFormed, Total;
    EventMoves(s, e, s');
    if MoveOf(s, e).Some? {
      ConservedByMove(s.accounts, s'.accounts, MoveOf(s, e).value);
    } else {
      forall c: Column ensures Total(s'.accounts, c) == Total(s.accounts, c) {
        TotalUpdate(s.accounts, e.id, s'.accounts[e.id], c);
      }
    }
  }

  /** Postings of old events do not change while their settlement transfers stay put. */
  lemma {:induction false} PostedSumStable(journal: seq<LedgerEvent>, before: map<TransferId, Transfer>,
                                           after: map<TransferId, Transfer>, id: AccountId, side: Side)
    requires forall i :: 0 <= i < |journal| && journal[i].TransferPendingPosted? ==> journal[i].postId in before
    requires forall k :: k in before ==> k in after && Party(after[k], side) == Party(before[k], side)
    ensures PostedSum(journal, after, id, side) == PostedSum(journal, before, id, side)
    decreases |journal|
  {
    if journal != [] {
      PostedSumStable(journal[..|journal| - 1], before, after, id, side);
    }
  }

  /** What `m` adds to the pending, or posted, balance of `id` on one side. */
  function PendingShare(m: Option<Move>, id: AccountId, side: Side): int {
    if m.Some? && id == (if side.Debit? then m.value.debit else m.value.credit) then m.value.pending else 0
  }

  function PostedShare(m: Option<Move>, id: AccountId, side: Side): int {
    if m.Some? && id == (if side.Debit? then m.value.debit else m.value.credit) then m.value.posted else 0
  }

  lemma HeldByNew(s: LedgerState, t: Transfer, id: AccountId, side: Side)
    ensures CreateTransfer(s, t).Ok? ==>
      HeldSum(CreateTransfer(s, t).value.transfers, id, side) == HeldSum(s.transfers, id, side)
    ensures CreatePending(s, t).Ok? ==>
      HeldSum(CreatePending(s, t).value.transfers, id, side) == HeldSum(s.transfers, id, side) + Held(t, id, side)
  {
    HeldUpdate(s.transfers, t.id, t, id, side);
  }

  lemma HeldByCapture(s: LedgerState, p: TransferId, q: TransferId, amount: Amount, ts: u64, id: AccountId, side: Side)
    requires PostPending(s, p, q, amount, ts).Ok?
    ensures HeldSum(PostPending(s, p, q, amount, ts).value.transfers, id, side)
         == HeldSum(s.transfers, id, side) - Held(s.transfers[p], id, side)
  {
    var mid := s.transfers[p := s.transfers[p].(state := Posted)];
    HeldUpdate(s.transfers, p, mid[p], id, side);
    HeldUpdate(mid, q, PostPending(s, p, q, amount, ts).value.transfers[q], id, side);
  }

  lemma HeldByVoid(s: LedgerState, p: TransferId, ts: u64, id: AccountId, side: Side)
    requires VoidPending(s, p, ts).Ok?
    ensures HeldSum(VoidPending(s, p, ts).value.transfers, id, side)
         == HeldSum(s.transfers, id, side) - Held(s.transfers[p], id, side)
  {
    HeldUpdate(s.transfers, p, s.transfers[p].(state := Voided), id, side);
  }

  /** The held sum of every account moves with the event. */
  lemma HeldMoves(s: LedgerState, e: LedgerEvent, s': LedgerState, id: AccountId, side: Side)
    requires ApplyEvent(s, e) == Ok(s')
    ensures HeldSum(s'.transfers, id, side)
         == HeldSum(s.transfers, id, side) + PendingShare(MoveOf(s, e), id, side)
  {
    match e
    case TransferPosted(t) => HeldByNew(s, t, id, side);
    case TransferPendingCreated(t) => HeldByNew(s, t, id, side);
    case TransferPendingPosted(p, q, amount, ts) => HeldByCapture(s, p, q, amount, ts, id, side);
    case TransferPendingVoided(p, amount, ts) => HeldByVoid(s, p, ts, id, side);
    case AccountCreated(_, _, _, _, _) =>
    case AccountClosedAt(_, _) =>
  }

  /** The posted sum of every account moves with the event. */
  lemma PostedMoves(s: LedgerState, e: LedgerEvent, s': LedgerState, id: AccountId, side: Side)
    requires WellFormed(s) && ApplyEvent(s, e) == Ok(s')
    ensures PostedSum(s'.journal, s'.transfers, id, side)
         == PostedSum(s.journal, s.transfers, id, side) + PostedShare(MoveOf(s, e), id, side)
  {
    hide ApplyEvent;
    EventFiles(s, e, s');
    assert s'.journal[..|s'.journal| - 1] == s.journal;
    PostedSumStable(s.journal, s.transfers, s'.transfers, id, side);
  }

  lemma KeepsBacked(s: LedgerState, e: LedgerEvent, s': LedgerState)
    requires WellFormed(s) && Backed(s) && ApplyEvent(s, e) == Ok(s')
    ensures Backed(s')
  {
    hide ApplyEvent, WellFormed;
    EventMoves(s, e, s');
    forall id, side ensures BackedAt(s', id, side) {
      assert BackedAt(s, id, side);
      HeldMoves(s, e, s', id, side);
      PostedMoves(s, e, s', id, side);
    }
  }

  /** The two accounts an event moves money between stay within their limits. */
  lemma PartiesStayLimited(s: LedgerState, e: LedgerEvent, s': LedgerState)
    requires WellFormed(s) && Limited(s) && ApplyEvent(s, e) == Ok(s') && MoveOf(s, e).Some?
    ensures var m := MoveOf(s, e).value;
      && m.debit in s'.accounts && m.credit in s'.accounts
      && WithinLimits(s'.accounts[m.debit]) && WithinLimits(s'.accounts[m.credit])
  {
    var m := MoveOf(s, e).value;
    EventMoves(s, e, s');
    assert WithinLimits(s.accounts[m.debit]) && WithinLimits(s.accounts[m.credit]);
  }

  lemma KeepsLimited(s: LedgerState, e: LedgerEvent, s': LedgerState)
    requires WellFormed(s) && Limited(s) && ApplyEvent(s, e) == Ok(s')
    ensures Limited(s')
  {
    hide ApplyEvent, WellFormed;
    EventMoves(s, e, s');
    if MoveOf(s, e).Some? {
      PartiesStayLimited(s, e, s');
    }
    forall id | id in s'.accounts ensures WithinLimits(s'.accounts[id]) {
      if id in s.accounts {
        assert WithinLimits(s.accounts[id]);
      }
    }
  }

  lemma KeepsLifecycle(s: LedgerState, e: LedgerEvent, s': LedgerState)
    requires WellFormed(s) && LifecycleOk(s) && ApplyEvent(s, e) == Ok(s')
    ensures LifecycleOk(s')
  {
    hide ApplyEvent;
    EventFiles(s, e, s');
    forall i | 0 <= i < |s'.journal| ensures Resolved(s', s'.journal[i]) {
      if i < |s.journal| {
        assert Resolved(s, s.journal[i]);
      }
    }
    forall i | 0 <= i < |s.journal| && Resolves(s.journal[i]).Some?
      ensures Resolves(s.journal[i]) != Resolves(e)
    {
      assert Resolved(s, s.journal[i]);
    }
  }

  lemma EventKeepsSound(s: LedgerState, e: LedgerEvent, s': LedgerState)
    requires Sound(s) && ApplyEvent(s, e) == Ok(s')
    ensures Sound(s')
  {
    KeepsWellFormed(s, e, s');
    KeepsConserved(s, e, s');
    KeepsBacked(s, e, s');
    KeepsLimited(s, e, s');
    KeepsLifecycle(s, e, s');
  }

  lemma NewIsSound(scale: Scale)
    ensures Sound(New(scale))
  {
    var s := New(scale);
    forall id, side ensures BackedAt(s, id, side) {
      assert Holds(s.transfers, id, side) == map[];
    }
  }

  lemma {:induction false} EventsKeepSound(s: LedgerState, events: seq<LedgerEvent>)
    requires Sound(s) && ApplyEvents(s, events).Ok?
    ensures Sound(ApplyEvents(s, events).value)
    decreases |events|
  {
    if events != [] {
      EventKeepsSound(s, events[0], ApplyEvent(s, events[0]).value);
      EventsKeepSound(ApplyEvent(s, events[0]).value, events[1..]);
    }
  }

  /** Every ledger any run can reach is sound. */
  lemma RunsAreSound(scale: Scale, cs: seq<Command>)
    ensures Sound(Run(scale, cs))
  {
    ReplayIdentity(scale, cs);
    NewIsSound(scale);
    EventsKeepSound(New(scale), Run(scale, cs).journal);
  }

  // ----- the clock

  function TimeOf(e: LedgerEvent): u64 {
    match e
    case AccountCreated(_, _, _, _, ts) => ts
    case AccountClosedAt(_, ts) => ts
    case TransferPosted(t) => t.timestamp
    case TransferPendingCreated(t) => t.timestamp
    case TransferPendingPosted(_, _, _, ts) => ts
    case TransferPendingVoided(_, _, ts) => ts
  }

  /** Journal times never go back, and the watermark is the latest of them. */
  ghost predicate Chronological(s: LedgerState) {
    && (forall i, j :: 0 <= i < j < |s.journal| ==> TimeOf(s.journal[i]) <= TimeOf(s.journal[j]))
    && s.lastTimestamp == (if s.journal == [] then 0 else TimeOf(s.journal[|s.journal| - 1]))
  }

  /** An event is accepted only at or after the watermark, and moves it to its own time. */
  lemma EventAdvancesClock(s: LedgerState, e: LedgerEvent, s': LedgerState)
    requires ApplyEvent(s, e) == Ok(s')
    ensures s.lastTimestamp <= TimeOf(e) == s'.lastTimestamp
  {
  }

  lemma {:induction false} EventsKeepClock(s: LedgerState, events: seq<LedgerEvent>)
    requires Chronological(s) && ApplyEvents(s, events).Ok?
    ensures Chronological(ApplyEvents(s, events).value)
    decreases |events|
  {
    hide ApplyEvent;
    if events != [] {
      var s' := ApplyEvent(s, events[0]).value;
      EventFiles(s, events[0], s');
      EventAdvancesClock(s, events[0], s');
      EventsKeepClock(s', events[1..]);
    }
  }

  lemma RunsAreChronological(scale: Scale, cs: seq<Command>)
    ensures Chronological(Run(scale, cs))
  {
    hide Run, ApplyEvents;
    ReplayIdentity(scale, cs);
    EventsKeepClock(New(scale), Run(scale, cs).journal);
  }

  // ----- consequences

  lemma HoldsCover(transfers: map<TransferId, Transfer>, p: TransferId, id: AccountId, side: Side)
    requires p in transfers
    ensures Held(transfers[p], id, side) <= HeldSum(transfers, id, side)
  {
    MapSumEntry(Holds(transfers, id, side), p);
  }

  /** A pending hold never exceeds what its accounts have pending. */
  lemma HoldIsCovered(s: LedgerState, p: TransferId)
    requires WellFormed(s) && Backed(s) && p in s.transfers && s.transfers[p].state == Pending
    ensures TransferOk(s, p)
    ensures s.transfers[p].amount <= s.accounts[s.transfers[p].debit].balance.debitsPending
    ensures s.transfers[p].amount <= s.accounts[s.transfers[p].credit].balance.creditsPending
  {
    var h := s.transfers[p];
    assert TransferOk(s, p);
    assert BackedAt(s, h.debit, Debit) && BackedAt(s, h.credit, Credit);
    HoldsCover(s.transfers, p, h.debit, Debit);
    HoldsCover(s.transfers, p, h.credit, Credit);
  }

  /** Voiding succeeds exactly when the hold is pending and the timestamp is not stale:
      the checked subtractions never underflow. */
  lemma VoidSucceedsIff(s: LedgerState, p: TransferId, ts: u64)
    requires Sound(s)
    ensures VoidPending(s, p, ts).Ok? <==>
      ts >= s.lastTimestamp && p in s.transfers && s.transfers[p].state == Pending
  {
    hide WellFormed, Conserved, Backed, Limited, LifecycleOk;
    if p in s.transfers && s.transfers[p].state == Pending {
      HoldIsCovered(s, p);
    }
  }

  /** Capturing succeeds exactly when the request is well formed and the posted totals fit. */
  lemma CaptureSucceedsIff(s: LedgerState, p: TransferId, q: TransferId, amount: Amount, ts: u64)
    requires Sound(s)
    ensures PostPending(s, p, q, amount, ts).Ok? <==>
      && ts >= s.lastTimestamp && q !in s.transfers
      && p in s.transfers && s.transfers[p].state == Pending && 0 < amount <= s.transfers[p].amount
      && s.accounts[s.transfers[p].debit].balance.debitsPosted + amount < U128_LIMIT
      && s.accounts[s.transfers[p].credit].balance.creditsPosted + amount < U128_LIMIT
  {
    hide WellFormed, Conserved, Backed, Limited, LifecycleOk;
    if p in s.transfers && s.transfers[p].state == Pending {
      HoldIsCovered(s, p);
    }
  }

  /** A new transfer between two distinct known accounts, for a positive amount, not dated back. */
  predicate Proper(s: LedgerState, t: Transfer) {
    && t.timestamp >= s.lastTimestamp && t.id !in s.transfers && t.amount > 0
    && t.debit != t.credit && t.debit in s.accounts && t.credit in s.accounts
  }

  /** An account is opened exactly when its id is new, its scale is the ledger's and the time is not stale. */
  lemma AccountOpensIff(s: LedgerState, id: AccountId, ty: AccountType, flags: AccountFlags, scale: Scale, ts: u64)
    ensures CreateAccount(s, id, ty, flags, scale, ts).Ok? <==>
      ts >= s.lastTimestamp && id !in s.accounts && scale == s.scale
  {
  }

  /** An account is closed exactly when it is open and the time is not stale. */
  lemma AccountClosesIff(s: LedgerState, id: AccountId, ts: u64)
    ensures CloseAccount(s, id, ts).Ok? <==>
      ts >= s.lastTimestamp && id in s.accounts && !s.accounts[id].flags.isClosed
  {
  }

  /** The account may come to hold balance `b`: it is open and `b` is within its limits. */
  predicate MayHold(a: Account, b: Balance) {
    !a.flags.isClosed && WithinLimits(a.(balance := b))
  }

  /** A transfer is accepted exactly when both accounts may hold what it would leave them with. */
  lemma TransferSucceedsIff(s: LedgerState, t: Transfer)
    requires Sound(s)
    ensures CreateTransfer(s, t).Ok? <==>
      && Proper(s, t) && t.state == Posted
      && (t.pendingId.Some? ==> t.pendingId.value in s.transfers && s.transfers[t.pendingId.value].state == Posted)
      && (var d, c := s.accounts[t.debit], s.accounts[t.credit];
          && d.balance.debitsPosted + t.amount < U128_LIMIT && c.balance.creditsPosted + t.amount < U128_LIMIT
          && MayHold(d, d.balance.(debitsPosted := d.balance.debitsPosted + t.amount))
          && MayHold(c, c.balance.(creditsPosted := c.balance.creditsPosted + t.amount)))
  {
    hide Conserved, Backed, LifecycleOk;
  }

  /** A hold is accepted exactly when both accounts may hold what it would reserve. */
  lemma HoldSucceedsIff(s: LedgerState, t: Transfer)
    requires Sound(s)
    ensures CreatePending(s, t).Ok? <==>
      && Proper(s, t) && t.state == Pending && t.pendingId.None?
      && (var d, c := s.accounts[t.debit], s.accounts[t.credit];
          && d.balance.debitsPending + t.amount < U128_LIMIT && c.balance.creditsPending + t.amount < U128_LIMIT
          && MayHold(d, d.balance.(debitsPending := d.balance.debitsPending + t.amount))
          && MayHold(c, c.balance.(creditsPending := c.balance.creditsPending + t.amount)))
  {
    hide Conserved, Backed, LifecycleOk;
  }

  /** Money on one side of an account, settled or reserved. */
  function Exposure(a: Account, side: Side): int {
    Cell(a.balance, Posting(side)) + Cell(a.balance, Holding(side))
  }

  predicate ClosedIn(s: LedgerState, id: AccountId) {
    id in s.accounts && s.accounts[id].flags.isClosed
  }

  lemma ClosedStaysShut(s: LedgerState, e: LedgerEvent, s': LedgerState, id: AccountId, side: Side)
    requires WellFormed(s) && ClosedIn(s, id) && ApplyEvent(s, e) == Ok(s')
    ensures ClosedIn(s', id) && Exposure(s'.accounts[id], side) <= Exposure(s.accounts[id], side)
  {
    EventMoves(s, e, s');
  }

  lemma {:induction false} ClosedStaysShutOverEvents(s: LedgerState, events: seq<LedgerEvent>, id: AccountId,
                                                     side: Side)
    requires Sound(s) && ClosedIn(s, id) && ApplyEvents(s, events).Ok?
    ensures var s' := ApplyEvents(s, events).value;
      ClosedIn(s', id) && Exposure(s'.accounts[id], side) <= Exposure(s.accounts[id], side)
    decreases |events|
  {
    if events != [] {
      var s1 := ApplyEvent(s, events[0]).value;
      ClosedStaysShut(s, events[0], s1, id, side);
      EventKeepsSound(s, events[0], s1);
      ClosedStaysShutOverEvents(s1, events[1..], id, side);
    }
  }

  lemma {:induction false} RunExtends(scale: Scale, cs: seq<Command>, more: seq<Command>)
    returns (events: seq<LedgerEvent>)
    ensures ApplyEvents(Run(scale, cs), events) == Ok(Run(scale, cs + more))
    decreases |more|
  {
    if more == [] {
      assert cs + more == cs;
      events := [];
    } else {
      var most := more[..|more| - 1];
      events := RunExtends(scale, cs, most);
      var last := ExecHasEvents(Run(scale, cs + most), more[|more| - 1]);
      assert (cs + more)[..|cs + more| - 1] == cs + most;
      ApplyEventsConcat(Run(scale, cs), events, last);
      events := events + last;
    }
  }

  /** Once closed, an account stays closed and neither side's posted plus pending ever grows,
      whatever the ledger is asked to do afterwards. */
  lemma ClosedNeverGrows(scale: Scale, cs: seq<Command>, more: seq<Command>, id: AccountId, side: Side)
    requires ClosedIn(Run(scale, cs), id)
    ensures ClosedIn(Run(scale, cs + more), id)
    ensures Exposure(Run(scale, cs + more).accounts[id], side) <= Exposure(Run(scale, cs).accounts[id], side)
  {
    RunsAreSound(scale, cs);
    var events := RunExtends(scale, cs, more);
    ClosedStaysShutOverEvents(Run(scale, cs), events, id, side);
  }

  // ----- the audit

  ghost predicate TotalsFit(s: LedgerState) {
    forall c: Column :: Total(s.accounts, c) < U128_LIMIT
  }

  ghost predicate StructureOk(s: LedgerState) {
    && (forall k :: k in s.transfers ==> TransferAudit(s, s.transfers[k]))
    && (forall id :: id in s.accounts ==> HoldsAudit(s, id))
  }

  ghost predicate TransferAudit(s: LedgerState, t: Transfer) {
    && t.debit in s.accounts && t.credit in s.accounts
    && (t.state == Posted ==> ValidatePendingLink(s.transfers, t).Ok?)
    && (t.state == Voided ==> t.pendingId.None?)
  }

  ghost predicate HoldsAudit(s: LedgerState, id: AccountId)
    requires id in s.accounts
  {
    && s.accounts[id].balance.debitsPending == HeldSum(s.transfers, id, Debit)
    && s.accounts[id].balance.creditsPending == HeldSum(s.transfers, id, Credit)
  }

  /** What `verify_invariants` decides. */
  ghost predicate AuditPasses(s: LedgerState) {
    TotalsFit(s) && Conserved(s) && StructureOk(s)
  }

  /** On a sound ledger the audit can only complain that a total does not fit in 128 bits. */
  lemma SoundPassesAuditIff(s: LedgerState)
    requires Sound(s)
    ensures AuditPasses(s) <==> TotalsFit(s)
  {
    forall k | k in s.transfers ensures TransferAudit(s, s.transfers[k]) {
      assert TransferOk(s, k);
    }
    forall id | id in s.accounts ensures HoldsAudit(s, id) {
      assert BackedAt(s, id, Debit) && BackedAt(s, id, Credit);
    }
  }
}
