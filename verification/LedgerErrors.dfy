/**
 Every error an operation reports is true of the ledger: the ids, amounts, times and states it names
 are the ones that stand in the way.
 */
module LedgerErrors {
  import opened Prelude
  import opened LedgerTypes
  import opened LedgerSpec
  import opened LedgerUndo
  import opened LedgerReplay

  function OpTime(op: BatchOp): u64 {
    match op
    case OpCreateAccount(_, _, _, _, ts) => ts
    case OpTransfer(t) => t.timestamp
    case OpPending(t) => t.timestamp
    case OpPostPending(_, _, _, ts) => ts
    case OpVoidPending(_, ts) => ts
    case OpCloseAccount(_, ts) => ts
  }

  /** The hold an operation resolves. */
  function HoldOf(op: BatchOp): Option<TransferId> {
    match op
    case OpPostPending(p, _, _, _) => Some(p)
    case OpVoidPending(p, _) => Some(p)
    case _ => None
  }

  /** The transfer an operation files: its id and amount. */
  function FiledBy(op: BatchOp): Option<(TransferId, Amount)> {
    match op
    case OpTransfer(t) => Some((t.id, t.amount))
    case OpPending(t) => Some((t.id, t.amount))
    case OpPostPending(_, q, amount, _) => Some((q, amount))
    case _ => None
  }

  /** The debited and the credited account. */
  function PartiesOf(s: LedgerState, op: BatchOp): Option<(AccountId, AccountId)> {
    match op
    case OpTransfer(t) => Some((t.debit, t.credit))
    case OpPending(t) => Some((t.debit, t.credit))
    case _ =>
      if HoldOf(op).Some? && HoldOf(op).value in s.transfers
      then Some((s.transfers[HoldOf(op).value].debit, s.transfers[HoldOf(op).value].credit)) else None
  }

  predicate Touches(s: LedgerState, op: BatchOp, id: AccountId) {
    || (op.OpCloseAccount? && id == op.id)
    || (PartiesOf(s, op).Some? && (id == PartiesOf(s, op).value.0 || id == PartiesOf(s, op).value.1))
  }

  /** `available` is what the limited side of the account still has, and the request is more. */
  predicate Short(a: Account, debited: bool, requested: Amount, available: Amount) {
    var b := a.balance;
    var room := if debited then b.creditsPosted - (b.debitsPosted + b.debitsPending)
                else b.debitsPosted - (b.creditsPosted + b.creditsPending);
    && (if debited then a.flags.debitsMustNotExceedCredits else a.flags.creditsMustNotExceedDebits)
    && requested > room && available == Max(0, room)
  }

  /** A sum on one of the two accounts leaves 128 bits, or a reservation is smaller than the hold. */
  predicate OutOfRange(s: LedgerState, op: BatchOp) {
    && PartiesOf(s, op).Some?
    && var (d, c) := PartiesOf(s, op).value;
       && d in s.accounts
       && var amount := if FiledBy(op).Some? then FiledBy(op).value.1 else 0;
          var held := if HoldOf(op).Some? then s.transfers[HoldOf(op).value].amount else 0;
          var b := s.accounts[d].balance;
          || b.debitsPending < held || b.debitsPosted + b.debitsPending + amount >= U128_LIMIT
          || (c in s.accounts && s.accounts[c].balance.creditsPending < held)
          || (&& c in s.accounts
              && s.accounts[c].balance.creditsPosted + s.accounts[c].balance.creditsPending + amount >= U128_LIMIT)
  }

  /** What an error says of the ledger it was reported on. */
  predicate Blames(s: LedgerState, op: BatchOp, e: LedgerError) {
    match e
    case TimestampBehindPrior(ts, last) => ts == OpTime(op) < last == s.lastTimestamp
    case AccountAlreadyExists(id) => op.OpCreateAccount? && id == op.id && id in s.accounts
    case ScaleMismatch(mine, theirs) => op.OpCreateAccount? && mine == s.scale != op.scale == theirs
    case AccountNotFound(id) => Touches(s, op, id) && id !in s.accounts
    case AccountClosed(id) => Touches(s, op, id) && id in s.accounts && s.accounts[id].flags.isClosed
    case TransferAlreadyExists(id) => FiledBy(op).Some? && id == FiledBy(op).value.0 && id in s.transfers
    case ZeroAmountTransfer(id) => FiledBy(op) == Some((id, 0))
    case DebitCreditAccountSame(id) => PartiesOf(s, op) == Some((id, id))
    case TransferNotFound(id) => HoldOf(op) == Some(id) && id !in s.transfers
    case PartialAmountExceedsPending(id, requested, held) =>
      && op.OpPostPending? && id == op.pendingId && id in s.transfers
      && requested == op.amount > s.transfers[id].amount == held
    case InvalidTransferState(id, wanted, actual) =>
      || (op.OpTransfer? && id == op.transfer.id && wanted == Posted != op.transfer.state == actual)
      || (op.OpPending? && id == op.transfer.id && wanted == Pending != op.transfer.state == actual)
      || (HoldOf(op) == Some(id) && id in s.transfers && wanted == Pending != s.transfers[id].state == actual)
    case PendingLinkMissing(id, link) =>
      op.OpTransfer? && id == op.transfer.id && op.transfer.pendingId == Some(link) && link !in s.transfers
    case InvalidPendingLink(id, link, actual) =>
      && (op.OpTransfer? || op.OpPending?) && id == op.transfer.id && op.transfer.pendingId == Some(link)
      && (|| (op.OpPending? && actual == Pending)
          || (op.OpTransfer? && link in s.transfers && actual == s.transfers[link].state != Posted))
    case InsufficientFunds(id, requested, available) =>
      && (op.OpTransfer? || op.OpPending?) && requested == op.transfer.amount && id in s.accounts
      && (|| (id == op.transfer.debit && Short(s.accounts[id], true, requested, available))
          || (id == op.transfer.credit && Short(s.accounts[id], false, requested, available)))
    case ArithmeticOverflow => OutOfRange(s, op)
    case _ => false
  }

  /** Accounts are filed under their own id. */
  predicate Named(s: LedgerState) {
    forall id :: id in s.accounts ==> s.accounts[id].id == id
  }

  /** What a refused debit or credit says of the account. */
  predicate Refused(a: Account, debited: bool, amount: Amount, e: LedgerError) {
    var b := a.balance;
    || (e == AccountClosed(a.id) && a.flags.isClosed)
    || (e.InsufficientFunds? && e.accountId == a.id && e.requested == amount && Short(a, debited, amount, e.available))
    || (e == ArithmeticOverflow && debited && b.debitsPosted + b.debitsPending + amount >= U128_LIMIT)
    || (e == ArithmeticOverflow && !debited && b.creditsPosted + b.creditsPending + amount >= U128_LIMIT)
  }

  lemma RefusalsAreTrue(a: Account, amount: Amount)
    ensures EnsureCanDebit(a, amount).Err? ==> Refused(a, true, amount, EnsureCanDebit(a, amount).error)
    ensures EnsureCanCredit(a, amount).Err? ==> Refused(a, false, amount, EnsureCanCredit(a, amount).error)
  {
  }

  lemma RefusalsBlame(s: LedgerState, op: BatchOp, t: Transfer)
    requires Named(s) && (op == OpTransfer(t) || op == OpPending(t))
    ensures t.debit in s.accounts && EnsureCanDebit(s.accounts[t.debit], t.amount).Err? ==>
      Blames(s, op, EnsureCanDebit(s.accounts[t.debit], t.amount).error)
    ensures t.debit in s.accounts && t.credit in s.accounts && EnsureCanCredit(s.accounts[t.credit], t.amount).Err? ==>
      Blames(s, op, EnsureCanCredit(s.accounts[t.credit], t.amount).error)
  {
    hide EnsureCanDebit, EnsureCanCredit, Short;
    if t.debit in s.accounts {
      RefusalsAreTrue(s.accounts[t.debit], t.amount);
    }
    if t.credit in s.accounts {
      RefusalsAreTrue(s.accounts[t.credit], t.amount);
    }
  }

  lemma TransferErrors(s: LedgerState, t: Transfer)
    requires Named(s)
    ensures CreateTransfer(s, t).Err? ==> Blames(s, OpTransfer(t), CreateTransfer(s, t).error)
  {
    hide EnsureCanDebit, EnsureCanCredit, Short, WriteBoth;
    RefusalsBlame(s, OpTransfer(t), t);
  }

  lemma PendingErrors(s: LedgerState, t: Transfer)
    requires Named(s)
    ensures CreatePending(s, t).Err? ==> Blames(s, OpPending(t), CreatePending(s, t).error)
  {
    hide EnsureCanDebit, EnsureCanCredit, Short, WriteBoth;
    RefusalsBlame(s, OpPending(t), t);
  }

  lemma CaptureErrors(s: LedgerState, p: TransferId, q: TransferId, amount: Amount, ts: u64)
    requires Named(s)
    ensures PostPending(s, p, q, amount, ts).Err? ==>
      Blames(s, OpPostPending(p, q, amount, ts), PostPending(s, p, q, amount, ts).error)
  {
    hide WriteBoth;
  }

  lemma OtherErrors(s: LedgerState, op: BatchOp)
    requires Named(s) && (op.OpCreateAccount? || op.OpCloseAccount? || op.OpVoidPending?)
    ensures ApplyOp(s, op).Err? ==> Blames(s, op, ApplyOp(s, op).error)
  {
  }

  /** Every error of every operation is true of the ledger. */
  lemma ErrorsAreTrue(s: LedgerState, op: BatchOp)
    requires Named(s)
    ensures ApplyOp(s, op).Err? ==> Blames(s, op, ApplyOp(s, op).error)
    ensures GuardedOp(s, op).Err? ==> Blames(s, op, GuardedOp(s, op).error)
  {
    hide Blames, CreateTransfer, CreatePending, PostPending, VoidPending, CreateAccount, CloseAccount, OpPreImages;
    PreImageErrors(s, op);
    match op
    case OpTransfer(t) => TransferErrors(s, t);
    case OpPending(t) => PendingErrors(s, t);
    case OpPostPending(p, q, amount, ts) => CaptureErrors(s, p, q, amount, ts);
    case _ => OtherErrors(s, op);
  }

  lemma PreImageErrors(s: LedgerState, op: BatchOp)
    ensures OpPreImages(s, op).Err? ==> Blames(s, op, OpPreImages(s, op).error)
  {
  }

  /** A failing list stops at its first failing operation, with the error of that operation on the
      ledger the ones before it left. */
  lemma {:induction false} FirstFailure(s: LedgerState, ops: seq<BatchOp>) returns (k: nat)
    requires GuardedOps(s, ops).Err?
    ensures k < |ops| && ApplyOps(s, ops[..k]).Ok? && ApplyOp(ApplyOps(s, ops[..k]).value, ops[k]).Err?
    ensures GuardedOps(s, ops) == GuardedOp(ApplyOps(s, ops[..k]).value, ops[k])
    decreases |ops|
  {
    hide ApplyOp, GuardedOp;
    GuardSame(s, ops[0]);
    if GuardedOp(s, ops[0]).Err? {
      k := 0;
      assert ops[..0] == [];
    } else {
      var j := FirstFailure(GuardedOp(s, ops[0]).value, ops[1..]);
      k := j + 1;
      assert ops[..k][0] == ops[0] && ops[..k][1..] == ops[1..][..j];
    }
  }

  lemma GuardSame(s: LedgerState, op: BatchOp)
    ensures GuardedOp(s, op).Ok? <==> ApplyOp(s, op).Ok?
    ensures ApplyOp(s, op).Ok? ==> GuardedOp(s, op) == ApplyOp(s, op)
  {
    hide ApplyOp, OpPreImages;
    if ApplyOp(s, op).Ok? {
      OpUndoExact(s, op, ApplyOp(s, op).value);
    }
  }
}
