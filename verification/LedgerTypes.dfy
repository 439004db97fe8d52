/**
 Data model of the double-entry ledger: accounts, balances, transfers, journal
 events, batch operations and errors (crates/ledger-core).
 */
module LedgerTypes {
  import opened Prelude

  type AccountId = u128
  type TransferId = u128
  type Amount = u128
  type Scale = x: int | 0 <= x <= 18

  datatype AccountType = Asset | Liability | Equity | Revenue | Expense

  datatype AccountFlags = AccountFlags(
    debitsMustNotExceedCredits: bool,
    creditsMustNotExceedDebits: bool,
    isClosed: bool)

  const CUSTOMER_FLAGS := AccountFlags(true, false, false)
  const BANK_ASSET_FLAGS := AccountFlags(false, true, false)

  datatype Balance = Balance(
    debitsPosted: Amount,
    creditsPosted: Amount,
    debitsPending: Amount,
    creditsPending: Amount)

  const ZERO_BALANCE := Balance(0, 0, 0, 0)

  datatype Account = Account(
    id: AccountId,
    accountType: AccountType,
    flags: AccountFlags,
    scale: Scale,
    balance: Balance)

  datatype TransferState = Pending | Posted | Voided

  datatype Transfer = Transfer(
    id: TransferId,
    debit: AccountId,
    credit: AccountId,
    amount: Amount,
    state: TransferState,
    pendingId: Option<TransferId>,
    timestamp: u64)

  datatype LedgerEvent =
    | AccountCreated(id: AccountId, accountType: AccountType, flags: AccountFlags, scale: Scale, timestamp: u64)
    | AccountClosedAt(id: AccountId, timestamp: u64)
    | TransferPosted(transfer: Transfer)
    | TransferPendingCreated(transfer: Transfer)
    | TransferPendingPosted(pendingId: TransferId, postId: TransferId, amount: Amount, timestamp: u64)
    | TransferPendingVoided(pendingId: TransferId, amount: Amount, timestamp: u64)

  datatype BatchOp =
    | OpCreateAccount(id: AccountId, accountType: AccountType, flags: AccountFlags, scale: Scale, timestamp: u64)
    | OpTransfer(transfer: Transfer)
    | OpPending(transfer: Transfer)
    | OpPostPending(pendingId: TransferId, postId: TransferId, amount: Amount, timestamp: u64)
    | OpVoidPending(pendingId: TransferId, timestamp: u64)
    | OpCloseAccount(id: AccountId, timestamp: u64)

  datatype LedgerError =
    | ArithmeticOverflow
    | InsufficientFunds(accountId: AccountId, requested: Amount, available: Amount)
    | AccountAlreadyExists(accountId: AccountId)
    | AccountNotFound(accountId: AccountId)
    | AccountClosed(accountId: AccountId)
    | TransferAlreadyExists(transferId: TransferId)
    | TransferNotFound(transferId: TransferId)
    | InvalidTransferState(transferId: TransferId, expected: TransferState, actual: TransferState)
    | DebitCreditAccountSame(accountId: AccountId)
    | ZeroAmountTransfer(transferId: TransferId)
    | ScaleMismatch(expectedScale: Scale, actualScale: Scale)
    | ConservationViolation(totalDebits: Amount, totalCredits: Amount)
    | PartialAmountExceedsPending(transferId: TransferId, requested: Amount, held: Amount)
    | TimestampBehindPrior(timestamp: u64, last: u64)
    | JournalVoidedAmountMismatch(transferId: TransferId, held: Amount, amount: Amount)
    | PendingBalanceMismatch(accountId: AccountId, balancePending: Amount, transfersPending: Amount)
    | InvalidPendingLink(transferId: TransferId, linkId: TransferId, actual: TransferState)
    | PendingLinkMissing(transferId: TransferId, linkId: TransferId)

  /** Everything `Ledger` owns. */
  datatype LedgerState = LedgerState(
    scale: Scale,
    accounts: map<AccountId, Account>,
    transfers: map<TransferId, Transfer>,
    journal: seq<LedgerEvent>,
    lastTimestamp: u64)
}
