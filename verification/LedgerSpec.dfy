/**
 The ledger's mutations as functions from state to state. Each checks everything
 before it changes anything, in the order the source checks it.
 */
module LedgerSpec {
  import opened Prelude
  import opened LedgerTypes

  function New(scale: Scale): LedgerState {
    LedgerState(scale, map[], map[], [], 0)
  }

  function CheckedAdd(a: Amount, b: Amount): Result<Amount, LedgerError> {
    if a + b < U128_LIMIT then Ok(a + b) else Err(ArithmeticOverflow)
  }

  function CheckedSub(a: Amount, b: Amount): Result<Amount, LedgerError> {
    if b <= a then Ok(a - b) else Err(ArithmeticOverflow)
  }

  // ----- account.rs

  function AvailableLiability(b: Balance): Result<Amount, LedgerError> {
    var total :- CheckedAdd(b.debitsPosted, b.debitsPending);
    Ok(if b.creditsPosted >= total then b.creditsPosted - total else 0)
  }

  function AvailableAsset(b: Balance): Result<Amount, LedgerError> {
    var total :- CheckedAdd(b.creditsPosted, b.creditsPending);
    Ok(if b.debitsPosted >= total then b.debitsPosted - total else 0)
  }

  function EnsureCanDebit(a: Account, amount: Amount): Result<(), LedgerError> {
    if a.flags.isClosed then
      Err(AccountClosed(a.id))
    else if a.flags.debitsMustNotExceedCredits then
      var held :- CheckedAdd(a.balance.debitsPosted, a.balance.debitsPending);
      var total :- CheckedAdd(held, amount);
      if total > a.balance.creditsPosted then
        var available :- AvailableLiability(a.balance);
        Err(InsufficientFunds(a.id, amount, available))
      else
        Ok(())
    else
      Ok(())
  }

  function EnsureCanCredit(a: Account, amount: Amount): Result<(), LedgerError> {
    if a.flags.isClosed then
      Err(AccountClosed(a.id))
    else if a.flags.creditsMustNotExceedDebits then
      var held :- CheckedAdd(a.balance.creditsPosted, a.balance.creditsPending);
      var total :- CheckedAdd(held, amount);
      if total > a.balance.debitsPosted then
        var available :- AvailableAsset(a.balance);
        Err(InsufficientFunds(a.id, amount, available))
      else
        Ok(())
    else
      Ok(())
  }

  // ----- transfer.rs

  function ValidateParties(id: TransferId, debit: AccountId, credit: AccountId, amount: Amount)
    : Result<(), LedgerError>
  {
    if debit == credit then Err(DebitCreditAccountSame(debit))
    else if amount == 0 then Err(ZeroAmountTransfer(id))
    else Ok(())
  }

  function NewImmediate(id: TransferId, debit: AccountId, credit: AccountId, amount: Amount, timestamp: u64)
    : Result<Transfer, LedgerError>
  {
    var _ :- ValidateParties(id, debit, credit, amount);
    Ok(Transfer(id, debit, credit, amount, Posted, None, timestamp))
  }

  function NewPending(id: TransferId, debit: AccountId, credit: AccountId, amount: Amount, timestamp: u64)
    : Result<Transfer, LedgerError>
  {
    var _ :- ValidateParties(id, debit, credit, amount);
    Ok(Transfer(id, debit, credit, amount, Pending, None, timestamp))
  }

  function NewSettlement(id: TransferId, debit: AccountId, credit: AccountId, amount: Amount,
                         pendingId: TransferId, timestamp: u64): Result<Transfer, LedgerError>
  {
    var _ :- ValidateParties(id, debit, credit, amount);
    Ok(Transfer(id, debit, credit, amount, Posted, Some(pendingId), timestamp))
  }

  function ValidateShape(t: Transfer): Result<(), LedgerError> {
    if t.state == Pending && t.pendingId.Some?
    then Err(InvalidPendingLink(t.id, t.pendingId.value, Pending))
    else Ok(())
  }

  function TransitionTo(t: Transfer, target: TransferState): Result<Transfer, LedgerError> {
    if t.state == Pending && target != Pending
    then Ok(t.(state := target))
    else Err(InvalidTransferState(t.id, Pending, t.state))
  }

  // ----- ledger.rs

  function CheckTimestamp(s: LedgerState, timestamp: u64): Result<(), LedgerError> {
    if timestamp < s.lastTimestamp then Err(TimestampBehindPrior(timestamp, s.lastTimestamp)) else Ok(())
  }

  function GetAccount(s: LedgerState, id: AccountId): Result<Account, LedgerError> {
    if id in s.accounts then Ok(s.accounts[id]) else Err(AccountNotFound(id))
  }

  function GetTransfer(s: LedgerState, id: TransferId): Result<Transfer, LedgerError> {
    if id in s.transfers then Ok(s.transfers[id]) else Err(TransferNotFound(id))
  }

  /** Advance the watermark and append `e`; every successful mutation ends this way. */
  function Record(s: LedgerState, e: LedgerEvent, timestamp: u64): LedgerState {
    s.(journal := s.journal + [e], lastTimestamp := Max(s.lastTimestamp, timestamp))
  }

  function CreateAccount(s: LedgerState, id: AccountId, accountType: AccountType, flags: AccountFlags,
                         scale: Scale, timestamp: u64): Result<LedgerState, LedgerError>
  {
    var _ :- CheckTimestamp(s, timestamp);
    if id in s.accounts then
      Err(AccountAlreadyExists(id))
    else if scale != s.scale then
      Err(ScaleMismatch(s.scale, scale))
    else
      var account := Account(id, accountType, flags, scale, ZERO_BALANCE);
      Ok(Record(s.(accounts := s.accounts[id := account]),
                AccountCreated(id, accountType, flags, scale, timestamp), timestamp))
  }

  function CloseAccount(s: LedgerState, id: AccountId, timestamp: u64): Result<LedgerState, LedgerError> {
    var _ :- CheckTimestamp(s, timestamp);
    var account :- GetAccount(s, id);
    if account.flags.isClosed then
      Err(AccountClosed(id))
    else
      var closed := account.(flags := account.flags.(isClosed := true));
      Ok(Record(s.(accounts := s.accounts[id := closed]), AccountClosedAt(id, timestamp), timestamp))
  }

  function ValidateNewTransfer(s: LedgerState, t: Transfer): Result<(), LedgerError> {
    if t.id in s.transfers then
      Err(TransferAlreadyExists(t.id))
    else
      var _ :- ValidateParties(t.id, t.debit, t.credit, t.amount);
      ValidateShape(t)
  }

  function ValidatePendingLink(transfers: map<TransferId, Transfer>, t: Transfer): Result<(), LedgerError> {
    match t.pendingId
    case None => Ok(())
    case Some(p) =>
      if p !in transfers then Err(PendingLinkMissing(t.id, p))
      else if transfers[p].state != Posted then Err(InvalidPendingLink(t.id, p, transfers[p].state))
      else Ok(())
  }

  /** Both sides of a double entry: write the debit account, then the credit account. */
  function WriteBoth(accounts: map<AccountId, Account>, debit: AccountId, d: Balance, credit: AccountId, c: Balance)
    : map<AccountId, Account>
    requires debit in accounts && credit in accounts && debit != credit
  {
    accounts[debit := accounts[debit].(balance := d)][credit := accounts[credit].(balance := c)]
  }

  function CreateTransfer(s: LedgerState, t: Transfer): Result<LedgerState, LedgerError> {
    var _ :- CheckTimestamp(s, t.timestamp);
    if t.state != Posted then
      Err(InvalidTransferState(t.id, Posted, t.state))
    else
      var _ :- ValidateNewTransfer(s, t);
      var _ :- ValidatePendingLink(s.transfers, t);
      var debit :- GetAccount(s, t.debit);
      var _ :- EnsureCanDebit(debit, t.amount);
      var debits :- CheckedAdd(debit.balance.debitsPosted, t.amount);
      var credit :- GetAccount(s, t.credit);
      var _ :- EnsureCanCredit(credit, t.amount);
      var credits :- CheckedAdd(credit.balance.creditsPosted, t.amount);
      var accounts := WriteBoth(s.accounts, t.debit, debit.balance.(debitsPosted := debits),
                                t.credit, credit.balance.(creditsPosted := credits));
      Ok(Record(s.(accounts := accounts, transfers := s.transfers[t.id := t]), TransferPosted(t), t.timestamp))
  }

  function CreatePending(s: LedgerState, t: Transfer): Result<LedgerState, LedgerError> {
    var _ :- CheckTimestamp(s, t.timestamp);
    if t.state != Pending then
      Err(InvalidTransferState(t.id, Pending, t.state))
    else
      var _ :- ValidateNewTransfer(s, t);
      var debit :- GetAccount(s, t.debit);
      var _ :- EnsureCanDebit(debit, t.amount);
      var debits :- CheckedAdd(debit.balance.debitsPending, t.amount);
      var credit :- GetAccount(s, t.credit);
      var _ :- EnsureCanCredit(credit, t.amount);
      var credits :- CheckedAdd(credit.balance.creditsPending, t.amount);
      var accounts := WriteBoth(s.accounts, t.debit, debit.balance.(debitsPending := debits),
                                t.credit, credit.balance.(creditsPending := credits));
      Ok(Record(s.(accounts := accounts, transfers := s.transfers[t.id := t]), TransferPendingCreated(t), t.timestamp))
  }

  /** The hold a capture or a void works on: present and still pending. */
  function PendingHold(s: LedgerState, id: TransferId): Result<Transfer, LedgerError> {
    var hold :- GetTransfer(s, id);
    if hold.state != Pending then Err(InvalidTransferState(id, Pending, hold.state)) else Ok(hold)
  }

  /** Release `hold` from the debit side and post `amount` of it. */
  function SettleDebit(b: Balance, hold: Amount, amount: Amount): Result<Balance, LedgerError> {
    var held :- CheckedSub(b.debitsPending, hold);
    var posted :- CheckedAdd(b.debitsPosted, amount);
    Ok(b.(debitsPending := held, debitsPosted := posted))
  }

  function SettleCredit(b: Balance, hold: Amount, amount: Amount): Result<Balance, LedgerError> {
    var held :- CheckedSub(b.creditsPending, hold);
    var posted :- CheckedAdd(b.creditsPosted, amount);
    Ok(b.(creditsPending := held, creditsPosted := posted))
  }

  function PostPending(s: LedgerState, pendingId: TransferId, postId: TransferId, amount: Amount, timestamp: u64)
    : Result<LedgerState, LedgerError>
  {
    var _ :- CheckTimestamp(s, timestamp);
    if postId in s.transfers then
      Err(TransferAlreadyExists(postId))
    else
      var hold :- PendingHold(s, pendingId);
      if amount > hold.amount then
        Err(PartialAmountExceedsPending(pendingId, amount, hold.amount))
      else if amount == 0 then
        Err(ZeroAmountTransfer(postId))
      else
        var debit :- GetAccount(s, hold.debit);
        var d :- SettleDebit(debit.balance, hold.amount, amount);
        var credit :- GetAccount(s, hold.credit);
        var c :- SettleCredit(credit.balance, hold.amount, amount);
        var settlement :- NewSettlement(postId, hold.debit, hold.credit, amount, pendingId, timestamp);
        var accounts := WriteBoth(s.accounts, hold.debit, d, hold.credit, c);
        var transfers := s.transfers[pendingId := hold.(state := Posted)][postId := settlement];
        Ok(Record(s.(accounts := accounts, transfers := transfers),
                  TransferPendingPosted(pendingId, postId, amount, timestamp), timestamp))
  }

  /** Write one side's balance. Voiding writes the two sides one after the other without
      checking that the accounts differ. */
  function WriteBalance(accounts: map<AccountId, Account>, id: AccountId, b: Balance): map<AccountId, Account>
    requires id in accounts
  {
    accounts[id := accounts[id].(balance := b)]
  }

  function VoidPending(s: LedgerState, pendingId: TransferId, timestamp: u64): Result<LedgerState, LedgerError> {
    var _ :- CheckTimestamp(s, timestamp);
    var hold :- PendingHold(s, pendingId);
    var debit :- GetAccount(s, hold.debit);
    var debits :- CheckedSub(debit.balance.debitsPending, hold.amount);
    var credit :- GetAccount(s, hold.credit);
    var credits :- CheckedSub(credit.balance.creditsPending, hold.amount);
    var half := WriteBalance(s.accounts, hold.debit, debit.balance.(debitsPending := debits));
    var accounts := WriteBalance(half, hold.credit, half[hold.credit].balance.(creditsPending := credits));
    Ok(Record(s.(accounts := accounts, transfers := s.transfers[pendingId := hold.(state := Voided)]),
              TransferPendingVoided(pendingId, hold.amount, timestamp), timestamp))
  }

  /** `apply_batch_op`: one requested operation against live state. */
  function ApplyOp(s: LedgerState, op: BatchOp): Result<LedgerState, LedgerError> {
    match op
    case OpCreateAccount(id, ty, flags, scale, ts) => CreateAccount(s, id, ty, flags, scale, ts)
    case OpTransfer(t) => CreateTransfer(s, t)
    case OpPending(t) => CreatePending(s, t)
    case OpPostPending(p, q, amount, ts) => PostPending(s, p, q, amount, ts)
    case OpVoidPending(p, ts) => VoidPending(s, p, ts)
    case OpCloseAccount(id, ts) => CloseAccount(s, id, ts)
  }

  /** `apply_event`: one journal event against live state, re-validated. */
  function ApplyEvent(s: LedgerState, e: LedgerEvent): Result<LedgerState, LedgerError> {
    match e
    case AccountCreated(id, ty, flags, scale, ts) => CreateAccount(s, id, ty, flags, scale, ts)
    case AccountClosedAt(id, ts) => CloseAccount(s, id, ts)
    case TransferPosted(t) => CreateTransfer(s, t)
    case TransferPendingCreated(t) => CreatePending(s, t)
    case TransferPendingPosted(p, q, amount, ts) => PostPending(s, p, q, amount, ts)
    case TransferPendingVoided(p, amount, ts) =>
      var hold :- GetTransfer(s, p);
      if hold.amount != amount then Err(JournalVoidedAmountMismatch(p, hold.amount, amount))
      else VoidPending(s, p, ts)
  }

  /** Apply events in order, stopping at the first failure. */
  function ApplyEvents(s: LedgerState, events: seq<LedgerEvent>): Result<LedgerState, LedgerError>
    decreases |events|
  {
    if events == [] then Ok(s)
    else
      var s' :- ApplyEvent(s, events[0]);
      ApplyEvents(s', events[1..])
  }

  /** `Ledger::replay`. */
  function Replay(scale: Scale, events: seq<LedgerEvent>): Result<LedgerState, LedgerError> {
    ApplyEvents(New(scale), events)
  }

  /** Apply operations in order, stopping at the first failure. */
  function ApplyOps(s: LedgerState, ops: seq<BatchOp>): Result<LedgerState, LedgerError>
    decreases |ops|
  {
    if ops == [] then Ok(s)
    else
      var s' :- ApplyOp(s, ops[0]);
      ApplyOps(s', ops[1..])
  }
}
