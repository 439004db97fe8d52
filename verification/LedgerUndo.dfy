/**
 The undo log: pre-images captured before an operation, and the rollback that
 restores them. The main result is that rolling back is exact.
 */
module LedgerUndo {
  import opened Prelude
  import opened LedgerTypes
  import opened LedgerSpec

  datatype UndoOp =
    | RemoveAccount(accountId: AccountId)
    | AccountFlagsBefore(accountId: AccountId, flags: AccountFlags)
    | AccountBalanceBefore(accountId: AccountId, balance: Balance)
    | RemoveTransfer(transferId: TransferId)
    | TransferStateBefore(transferId: TransferId, state: TransferState)

  /** The part of the ledger pre-images cover; journal and watermark are restored separately. */
  datatype Books = Books(accounts: map<AccountId, Account>, transfers: map<TransferId, Transfer>)

  function BooksOf(s: LedgerState): Books {
    Books(s.accounts, s.transfers)
  }

  function BalanceBefore(s: LedgerState, id: AccountId): Result<UndoOp, LedgerError> {
    var a :- GetAccount(s, id);
    Ok(AccountBalanceBefore(id, a.balance))
  }

  function BalancesBefore(s: LedgerState, debit: AccountId, credit: AccountId): Result<seq<UndoOp>, LedgerError> {
    var d :- BalanceBefore(s, debit);
    var c :- BalanceBefore(s, credit);
    Ok([d, c])
  }

  /** `pre_images`: what a journal event is about to overwrite. */
  function EventPreImages(s: LedgerState, e: LedgerEvent): Result<seq<UndoOp>, LedgerError> {
    match e
    case AccountCreated(id, _, _, _, _) => Ok([RemoveAccount(id)])
    case AccountClosedAt(id, _) =>
      var a :- GetAccount(s, id);
      Ok([AccountFlagsBefore(id, a.flags)])
    case TransferPosted(t) =>
      var bs :- BalancesBefore(s, t.debit, t.credit);
      Ok(bs + [RemoveTransfer(t.id)])
    case TransferPendingCreated(t) =>
      var bs :- BalancesBefore(s, t.debit, t.credit);
      Ok(bs + [RemoveTransfer(t.id)])
    case TransferPendingPosted(p, q, _, _) =>
      var hold :- GetTransfer(s, p);
      var bs :- BalancesBefore(s, hold.debit, hold.credit);
      Ok(bs + [TransferStateBefore(p, hold.state), RemoveTransfer(q)])
    case TransferPendingVoided(p, _, _) =>
      var hold :- GetTransfer(s, p);
      var bs :- BalancesBefore(s, hold.debit, hold.credit);
      Ok(bs + [TransferStateBefore(p, hold.state)])
  }

  /** `op_pre_images`: the same for a requested operation. */
  function OpPreImages(s: LedgerState, op: BatchOp): Result<seq<UndoOp>, LedgerError> {
    match op
    case OpCreateAccount(id, _, _, _, _) =>
      if id in s.accounts then Err(AccountAlreadyExists(id)) else Ok([RemoveAccount(id)])
    case OpCloseAccount(id, _) =>
      var a :- GetAccount(s, id);
      Ok([AccountFlagsBefore(id, a.flags)])
    case OpTransfer(t) =>
      var bs :- BalancesBefore(s, t.debit, t.credit);
      Ok(bs + [RemoveTransfer(t.id)])
    case OpPending(t) =>
      var bs :- BalancesBefore(s, t.debit, t.credit);
      Ok(bs + [RemoveTransfer(t.id)])
    case OpPostPending(p, q, _, _) =>
      var hold :- GetTransfer(s, p);
      var bs :- BalancesBefore(s, hold.debit, hold.credit);
      Ok(bs + [TransferStateBefore(p, hold.state), RemoveTransfer(q)])
    case OpVoidPending(p, _) =>
      var hold :- GetTransfer(s, p);
      var bs :- BalancesBefore(s, hold.debit, hold.credit);
      Ok(bs + [TransferStateBefore(p, hold.state)])
  }

  /** One arm of `rollback`: a missing entry is left alone. */
  function UndoOne(b: Books, u: UndoOp): Books {
    match u
    case RemoveAccount(id) => b.(accounts := b.accounts - {id})
    case AccountFlagsBefore(id, flags) =>
      if id in b.accounts then b.(accounts := b.accounts[id := b.accounts[id].(flags := flags)]) else b
    case AccountBalanceBefore(id, balance) =>
      if id in b.accounts then b.(accounts := b.accounts[id := b.accounts[id].(balance := balance)]) else b
    case RemoveTransfer(id) => b.(transfers := b.transfers - {id})
    case TransferStateBefore(id, state) =>
      if id in b.transfers then b.(transfers := b.transfers[id := b.transfers[id].(state := state)]) else b
  }

  /** Undo a whole log, newest entry first. */
  function UndoAll(b: Books, undo: seq<UndoOp>): Books
    decreases |undo|
  {
    if undo == [] then b
    else UndoAll(UndoOne(b, undo[|undo| - 1]), undo[..|undo| - 1])
  }

  /** `rollback`: undo the books, then restore the journal length and the watermark. */
  function Rollback(s: LedgerState, undo: seq<UndoOp>, journalLen: nat, timestamp: u64): LedgerState {
    var b := UndoAll(BooksOf(s), undo);
    LedgerState(s.scale, b.accounts, b.transfers, Truncate(s.journal, journalLen), timestamp)
  }

  /** `undo` takes `s` back to `base`, whatever happened in between. */
  predicate Restores(s: LedgerState, undo: seq<UndoOp>, base: LedgerState) {
    && UndoAll(BooksOf(s), undo) == BooksOf(base)
    && s.scale == base.scale
    && base.journal <= s.journal
  }

  lemma RestoresRollsBack(s: LedgerState, undo: seq<UndoOp>, base: LedgerState)
    requires Restores(s, undo, base)
    ensures Rollback(s, undo, |base.journal|, base.lastTimestamp) == base
  {
    assert Truncate(s.journal, |base.journal|) == base.journal;
  }

  lemma {:induction false} UndoAllConcat(b: Books, u: seq<UndoOp>, v: seq<UndoOp>)
    ensures UndoAll(b, u + v) == UndoAll(UndoAll(b, v), u)
    decreases |v|
  {
    if v == [] {
      assert u + v == u;
    } else {
      var w := u + v;
      assert w[|w| - 1] == v[|v| - 1] && w[..|w| - 1] == u + v[..|v| - 1];
      UndoAllConcat(UndoOne(b, v[|v| - 1]), u, v[..|v| - 1]);
    }
  }

  lemma RestoresCompose(s0: LedgerState, s1: LedgerState, s2: LedgerState, u: seq<UndoOp>, v: seq<UndoOp>)
    requires Restores(s1, u, s0) && Restores(s2, v, s1)
    ensures Restores(s2, u + v, s0)
  {
    UndoAllConcat(BooksOf(s2), u, v);
  }

  // ----- one event

  lemma Undo1(b: Books, x: UndoOp)
    ensures UndoAll(b, [x]) == UndoOne(b, x)
  {
    assert [x][..0] == [];
    assert UndoAll(UndoOne(b, x), []) == UndoOne(b, x);
  }

  lemma Undo3(b: Books, x: UndoOp, y: UndoOp, z: UndoOp)
    ensures UndoAll(b, [x, y] + [z]) == UndoOne(UndoOne(UndoOne(b, z), y), x)
  {
    UndoAllConcat(b, [x, y], [z]);
    UndoAllConcat(UndoOne(b, z), [x], [y]);
    assert [x] + [y] == [x, y];
    Undo1(b, z);
    Undo1(UndoOne(b, z), y);
    Undo1(UndoOne(UndoOne(b, z), y), x);
  }

  lemma Undo4(b: Books, x: UndoOp, y: UndoOp, z: UndoOp, w: UndoOp)
    ensures UndoAll(b, [x, y] + [z, w]) == UndoOne(UndoOne(UndoOne(UndoOne(b, w), z), y), x)
  {
    UndoAllConcat(b, [x, y] + [z], [w]);
    assert [x, y] + [z] + [w] == [x, y] + [z, w];
    Undo1(b, w);
    Undo3(UndoOne(b, w), x, y, z);
  }

  /** Restoring both balances undoes any rewrite of the two accounts' balances. */
  lemma BalancesRestored(before: map<AccountId, Account>, after: Books, debit: AccountId, credit: AccountId)
    requires debit in before && credit in before
    requires after.accounts.Keys == before.Keys
    requires forall id :: id in before && id != debit && id != credit ==> after.accounts[id] == before[id]
    requires forall id :: id in before ==>
      after.accounts[id].(balance := before[id].balance) == before[id]
    ensures UndoOne(UndoOne(after, AccountBalanceBefore(credit, before[credit].balance)),
                    AccountBalanceBefore(debit, before[debit].balance))
         == after.(accounts := before)
  {
    var mid := UndoOne(after, AccountBalanceBefore(credit, before[credit].balance));
    var end := UndoOne(mid, AccountBalanceBefore(debit, before[debit].balance));
    assert end.accounts == before;
  }

  lemma UndoNewTransfer(s: LedgerState, s': LedgerState, t: Transfer)
    requires CreateTransfer(s, t) == Ok(s') || CreatePending(s, t) == Ok(s')
    ensures BalancesBefore(s, t.debit, t.credit).Ok?
    ensures Restores(s', BalancesBefore(s, t.debit, t.credit).value + [RemoveTransfer(t.id)], s)
  {
    var d := AccountBalanceBefore(t.debit, s.accounts[t.debit].balance);
    var c := AccountBalanceBefore(t.credit, s.accounts[t.credit].balance);
    Undo3(BooksOf(s'), d, c, RemoveTransfer(t.id));
    var b := UndoOne(BooksOf(s'), RemoveTransfer(t.id));
    assert b.transfers == s.transfers;
    BalancesRestored(s.accounts, b, t.debit, t.credit);
  }

  lemma UndoPost(s: LedgerState, s': LedgerState, p: TransferId, q: TransferId, amount: Amount, ts: u64)
    requires PostPending(s, p, q, amount, ts) == Ok(s')
    ensures var hold := s.transfers[p];
      BalancesBefore(s, hold.debit, hold.credit).Ok? &&
      Restores(s', BalancesBefore(s, hold.debit, hold.credit).value
                   + [TransferStateBefore(p, hold.state), RemoveTransfer(q)], s)
  {
    var hold := s.transfers[p];
    var d := AccountBalanceBefore(hold.debit, s.accounts[hold.debit].balance);
    var c := AccountBalanceBefore(hold.credit, s.accounts[hold.credit].balance);
    Undo4(BooksOf(s'), d, c, TransferStateBefore(p, hold.state), RemoveTransfer(q));
    var b := UndoOne(UndoOne(BooksOf(s'), RemoveTransfer(q)), TransferStateBefore(p, hold.state));
    assert b.transfers == s.transfers;
    BalancesRestored(s.accounts, b, hold.debit, hold.credit);
  }

  lemma UndoVoid(s: LedgerState, s': LedgerState, p: TransferId, ts: u64)
    requires VoidPending(s, p, ts) == Ok(s')
    ensures var hold := s.transfers[p];
      BalancesBefore(s, hold.debit, hold.credit).Ok? &&
      Restores(s', BalancesBefore(s, hold.debit, hold.credit).value + [TransferStateBefore(p, hold.state)], s)
  {
    var hold := s.transfers[p];
    var d := AccountBalanceBefore(hold.debit, s.accounts[hold.debit].balance);
    var c := AccountBalanceBefore(hold.credit, s.accounts[hold.credit].balance);
    Undo3(BooksOf(s'), d, c, TransferStateBefore(p, hold.state));
    var b := UndoOne(BooksOf(s'), TransferStateBefore(p, hold.state));
    assert b.transfers == s.transfers;
    BalancesRestored(s.accounts, b, hold.debit, hold.credit);
  }

  lemma UndoCreateAccount(s: LedgerState, s': LedgerState, id: AccountId, ty: AccountType, flags: AccountFlags,
                          scale: Scale, ts: u64)
    requires CreateAccount(s, id, ty, flags, scale, ts) == Ok(s')
    ensures Restores(s', [RemoveAccount(id)], s)
  {
    Undo1(BooksOf(s'), RemoveAccount(id));
    assert s'.accounts - {id} == s.accounts;
  }

  lemma UndoCloseAccount(s: LedgerState, s': LedgerState, id: AccountId, ts: u64)
    requires CloseAccount(s, id, ts) == Ok(s')
    ensures Restores(s', [AccountFlagsBefore(id, s.accounts[id].flags)], s)
  {
    Undo1(BooksOf(s'), AccountFlagsBefore(id, s.accounts[id].flags));
    assert s'.accounts[id := s'.accounts[id].(flags := s.accounts[id].flags)] == s.accounts;
  }

  /** An operation that succeeds had complete pre-images, and they restore the prior state exactly. */
  lemma OpUndoExact(s: LedgerState, op: BatchOp, s': LedgerState)
    requires ApplyOp(s, op) == Ok(s')
    ensures OpPreImages(s, op).Ok? && Restores(s', OpPreImages(s, op).value, s)
  {
    match op
    case OpCreateAccount(id, ty, flags, scale, ts) => UndoCreateAccount(s, s', id, ty, flags, scale, ts);
    case OpTransfer(t) => UndoNewTransfer(s, s', t);
    case OpPending(t) => UndoNewTransfer(s, s', t);
    case OpPostPending(p, q, amount, ts) => UndoPost(s, s', p, q, amount, ts);
    case OpVoidPending(p, ts) => UndoVoid(s, s', p, ts);
    case OpCloseAccount(id, ts) => UndoCloseAccount(s, s', id, ts);
  }

  /** The same for journal events. */
  lemma EventUndoExact(s: LedgerState, e: LedgerEvent, s': LedgerState)
    requires ApplyEvent(s, e) == Ok(s')
    ensures EventPreImages(s, e).Ok? && Restores(s', EventPreImages(s, e).value, s)
  {
    match e
    case AccountCreated(id, ty, flags, scale, ts) => UndoCreateAccount(s, s', id, ty, flags, scale, ts);
    case AccountClosedAt(id, ts) => UndoCloseAccount(s, s', id, ts);
    case TransferPosted(t) => UndoNewTransfer(s, s', t);
    case TransferPendingCreated(t) => UndoNewTransfer(s, s', t);
    case TransferPendingPosted(p, q, amount, ts) => UndoPost(s, s', p, q, amount, ts);
    case TransferPendingVoided(p, amount, ts) => UndoVoid(s, s', p, ts);
  }
}
