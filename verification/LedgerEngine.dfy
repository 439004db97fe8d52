/**
 The in-memory ledger as the mutable object the source implements: fields updated in
 place, an undo log built and unwound in loops. Every method is proved against the
 functions of LedgerSpec, LedgerUndo and LedgerSpeculation.
 */
module LedgerEngine {
  import opened Prelude
  import opened LedgerTypes
  import Spec = LedgerSpec
  import opened LedgerUndo
  import opened LedgerReplay
  import Speculation = LedgerSpeculation

  type Outcome = Result<(), LedgerError>

  /** A call did what `spec` says: the new state on success, no change on failure. */
  ghost predicate Follows(before: LedgerState, after: LedgerState, r: Outcome, spec: Result<LedgerState, LedgerError>) {
    match spec
    case Ok(s) => r == Ok(()) && after == s
    case Err(e) => r == Err(e) && after == before
  }

  class Ledger {
    const scale: Scale
    var accounts: map<AccountId, Account>
    var transfers: map<TransferId, Transfer>
    var journal: seq<LedgerEvent>
    var lastTimestamp: u64

    function View(): LedgerState
      reads this
    {
      LedgerState(scale, accounts, transfers, journal, lastTimestamp)
    }

    constructor (scale: Scale)
      ensures View() == Spec.New(scale)
    {
      this.scale := scale;
      accounts := map[];
      transfers := map[];
      journal := [];
      lastTimestamp := 0;
    }

    method AdvanceTimestamp(timestamp: u64)
      modifies this`lastTimestamp
      ensures lastTimestamp == Max(old(lastTimestamp), timestamp)
    {
      lastTimestamp := Max(lastTimestamp, timestamp);
    }

    method CreateAccount(id: AccountId, accountType: AccountType, flags: AccountFlags, scale: Scale, timestamp: u64)
      returns (r: Outcome)
      modifies this
      ensures Follows(old(View()), View(), r,
                      Spec.CreateAccount(old(View()), id, accountType, flags, scale, timestamp))
    {
      var _ :- Spec.CheckTimestamp(View(), timestamp);
      if id in accounts {
        return Err(AccountAlreadyExists(id));
      }
      if scale != this.scale {
        return Err(ScaleMismatch(this.scale, scale));
      }
      accounts := accounts[id := Account(id, accountType, flags, scale, ZERO_BALANCE)];
      AdvanceTimestamp(timestamp);
      journal := journal + [AccountCreated(id, accountType, flags, scale, timestamp)];
      return Ok(());
    }

    method CloseAccount(id: AccountId, timestamp: u64) returns (r: Outcome)
      modifies this
      ensures Follows(old(View()), View(), r, Spec.CloseAccount(old(View()), id, timestamp))
    {
      var _ :- Spec.CheckTimestamp(View(), timestamp);
      var account :- Spec.GetAccount(View(), id);
      if account.flags.isClosed {
        return Err(AccountClosed(id));
      }
      accounts := accounts[id := account.(flags := account.flags.(isClosed := true))];
      AdvanceTimestamp(timestamp);
      journal := journal + [AccountClosedAt(id, timestamp)];
      return Ok(());
    }

    method SetBalance(id: AccountId, b: Balance)
      requires id in accounts
      modifies this`accounts
      ensures accounts == old(accounts)[id := old(accounts)[id].(balance := b)]
    {
      accounts := accounts[id := accounts[id].(balance := b)];
    }

    method CreateTransfer(t: Transfer) returns (r: Outcome)
      modifies this
      ensures Follows(old(View()), View(), r, Spec.CreateTransfer(old(View()), t))
    {
      var _ :- Spec.CheckTimestamp(View(), t.timestamp);
      if t.state != Posted {
        return Err(InvalidTransferState(t.id, Posted, t.state));
      }
      var _ :- Spec.ValidateNewTransfer(View(), t);
      var _ :- Spec.ValidatePendingLink(transfers, t);

      var debit :- Spec.GetAccount(View(), t.debit);
      var _ :- Spec.EnsureCanDebit(debit, t.amount);
      var newDebits :- Spec.CheckedAdd(debit.balance.debitsPosted, t.amount);
      var credit :- Spec.GetAccount(View(), t.credit);
      var _ :- Spec.EnsureCanCredit(credit, t.amount);
      var newCredits :- Spec.CheckedAdd(credit.balance.creditsPosted, t.amount);

      SetBalance(t.debit, accounts[t.debit].balance.(debitsPosted := newDebits));
      SetBalance(t.credit, accounts[t.credit].balance.(creditsPosted := newCredits));
      AdvanceTimestamp(t.timestamp);
      transfers := transfers[t.id := t];
      journal := journal + [TransferPosted(t)];
      return Ok(());
    }

    method CreatePending(t: Transfer) returns (r: Outcome)
      modifies this
      ensures Follows(old(View()), View(), r, Spec.CreatePending(old(View()), t))
    {
      var _ :- Spec.CheckTimestamp(View(), t.timestamp);
      if t.state != Pending {
        return Err(InvalidTransferState(t.id, Pending, t.state));
      }
      var _ :- Spec.ValidateNewTransfer(View(), t);

      var debit :- Spec.GetAccount(View(), t.debit);
      var _ :- Spec.EnsureCanDebit(debit, t.amount);
      var newDebits :- Spec.CheckedAdd(debit.balance.debitsPending, t.amount);
      var credit :- Spec.GetAccount(View(), t.credit);
      var _ :- Spec.EnsureCanCredit(credit, t.amount);
      var newCredits :- Spec.CheckedAdd(credit.balance.creditsPending, t.amount);

      SetBalance(t.debit, accounts[t.debit].balance.(debitsPending := newDebits));
      SetBalance(t.credit, accounts[t.credit].balance.(creditsPending := newCredits));
      AdvanceTimestamp(t.timestamp);
      transfers := transfers[t.id := t];
      journal := journal + [TransferPendingCreated(t)];
      return Ok(());
    }

    /** The final state change happens after the balances are written; it cannot fail there. */
    method PostPending(pendingId: TransferId, postId: TransferId, amount: Amount, timestamp: u64)
      returns (r: Outcome)
      modifies this
      ensures Follows(old(View()), View(), r, Spec.PostPending(old(View()), pendingId, postId, amount, timestamp))
    {
      var _ :- Spec.CheckTimestamp(View(), timestamp);
      if postId in transfers {
        return Err(TransferAlreadyExists(postId));
      }
      var hold :- Spec.PendingHold(View(), pendingId);
      if amount > hold.amount {
        return Err(PartialAmountExceedsPending(pendingId, amount, hold.amount));
      }
      if amount == 0 {
        return Err(ZeroAmountTransfer(postId));
      }

      var debit :- Spec.GetAccount(View(), hold.debit);
      var newDebit :- Spec.SettleDebit(debit.balance, hold.amount, amount);
      var credit :- Spec.GetAccount(View(), hold.credit);
      var newCredit :- Spec.SettleCredit(credit.balance, hold.amount, amount);
      var settlement :- Spec.NewSettlement(postId, hold.debit, hold.credit, amount, pendingId, timestamp);

      SetBalance(hold.debit, newDebit);
      SetBalance(hold.credit, newCredit);
      var moved := Spec.TransitionTo(transfers[pendingId], Posted);
      assert moved.Ok?;
      transfers := transfers[pendingId := moved.value];
      AdvanceTimestamp(timestamp);
      transfers := transfers[postId := settlement];
      journal := journal + [TransferPendingPosted(pendingId, postId, amount, timestamp)];
      return Ok(());
    }

    method VoidPending(pendingId: TransferId, timestamp: u64) returns (r: Outcome)
      modifies this
      ensures Follows(old(View()), View(), r, Spec.VoidPending(old(View()), pendingId, timestamp))
    {
      var _ :- Spec.CheckTimestamp(View(), timestamp);
      var hold :- Spec.PendingHold(View(), pendingId);
      var debit :- Spec.GetAccount(View(), hold.debit);
      var newDebits :- Spec.CheckedSub(debit.balance.debitsPending, hold.amount);
      var credit :- Spec.GetAccount(View(), hold.credit);
      var newCredits :- Spec.CheckedSub(credit.balance.creditsPending, hold.amount);

      SetBalance(hold.debit, accounts[hold.debit].balance.(debitsPending := newDebits));
      SetBalance(hold.credit, accounts[hold.credit].balance.(creditsPending := newCredits));
      var moved := Spec.TransitionTo(transfers[pendingId], Voided);
      assert moved.Ok?;
      transfers := transfers[pendingId := moved.value];
      AdvanceTimestamp(timestamp);
      journal := journal + [TransferPendingVoided(pendingId, hold.amount, timestamp)];
      return Ok(());
    }

    method ApplyBatchOp(op: BatchOp) returns (r: Outcome)
      modifies this
      ensures Follows(old(View()), View(), r, Spec.ApplyOp(old(View()), op))
    {
      match op
      case OpCreateAccount(id, ty, flags, sc, ts) => r := CreateAccount(id, ty, flags, sc, ts);
      case OpTransfer(t) => r := CreateTransfer(t);
      case OpPending(t) => r := CreatePending(t);
      case OpPostPending(p, q, amount, ts) => r := PostPending(p, q, amount, ts);
      case OpVoidPending(p, ts) => r := VoidPending(p, ts);
      case OpCloseAccount(id, ts) => r := CloseAccount(id, ts);
    }

    method ApplyEvent(e: LedgerEvent) returns (r: Outcome)
      modifies this
      ensures Follows(old(View()), View(), r, Spec.ApplyEvent(old(View()), e))
    {
      match e
      case AccountCreated(id, ty, flags, sc, ts) => r := CreateAccount(id, ty, flags, sc, ts);
      case AccountClosedAt(id, ts) => r := CloseAccount(id, ts);
      case TransferPosted(t) => r := CreateTransfer(t);
      case TransferPendingCreated(t) => r := CreatePending(t);
      case TransferPendingPosted(p, q, amount, ts) => r := PostPending(p, q, amount, ts);
      case TransferPendingVoided(p, amount, ts) =>
        var hold :- Spec.GetTransfer(View(), p);
        if hold.amount != amount {
          return Err(JournalVoidedAmountMismatch(p, hold.amount, amount));
        }
        r := VoidPending(p, ts);
    }

    /** Unwind an undo log, newest entry first, then restore journal length and watermark. */
    method RollbackTo(undo: seq<UndoOp>, baseJournalLen: nat, baseTimestamp: u64)
      modifies this
      ensures View() == Rollback(old(View()), undo, baseJournalLen, baseTimestamp)
    {
      var i := |undo|;
      assert undo[..|undo|] == undo;
      while i > 0
        invariant 0 <= i <= |undo|
        invariant UndoAll(BooksOf(View()), undo[..i]) == UndoAll(BooksOf(old(View())), undo)
        invariant journal == old(journal)
      {
        i := i - 1;
        assert undo[..i + 1][..i] == undo[..i];
        match undo[i] {
          case RemoveAccount(id) =>
            accounts := accounts - {id};
          case AccountFlagsBefore(id, flags) =>
            if id in accounts {
              accounts := accounts[id := accounts[id].(flags := flags)];
            }
          case AccountBalanceBefore(id, balance) =>
            if id in accounts {
              accounts := accounts[id := accounts[id].(balance := balance)];
            }
          case RemoveTransfer(id) =>
            transfers := transfers - {id};
          case TransferStateBefore(id, state) =>
            if id in transfers {
              transfers := transfers[id := transfers[id].(state := state)];
            }
        }
      }
      journal := Truncate(journal, baseJournalLen);
      lastTimestamp := baseTimestamp;
    }

    /** Apply events one by one; on the first failure roll everything back. */
    method ApplyWithUndo(events: seq<LedgerEvent>) returns (r: Result<seq<UndoOp>, LedgerError>)
      modifies this
      ensures match GuardedEvents(old(View()), events)
        case Ok(s) => r.Ok? && View() == s && Restores(s, r.value, old(View()))
        case Err(e) => r == Err(e) && View() == old(View())
    {
      ghost var base := View();
      var baseJournalLen, baseTimestamp := |journal|, lastTimestamp;
      var undo := [];
      assert events[0..] == events;
      for i := 0 to |events|
        invariant Restores(View(), undo, base)
        invariant GuardedEvents(View(), events[i..]) == GuardedEvents(base, events)
      {
        ghost var here := View();
        assert events[i..][0] == events[i] && events[i..][1..] == events[i + 1..];
        var pre := EventPreImages(View(), events[i]);
        if pre.Err? {
          RestoresRollsBack(View(), undo, base);
          RollbackTo(undo, baseJournalLen, baseTimestamp);
          return Err(pre.error);
        }
        var applied := ApplyEvent(events[i]);
        if applied.Err? {
          RestoresRollsBack(View(), undo, base);
          RollbackTo(undo, baseJournalLen, baseTimestamp);
          return Err(applied.error);
        }
        EventUndoExact(here, events[i], View());
        RestoresCompose(base, here, View(), undo, pre.value);
        undo := undo + pre.value;
      }
      return Ok(undo);
    }

    method CommitEvents(events: seq<LedgerEvent>) returns (r: Outcome)
      modifies this
      ensures Follows(old(View()), View(), r, GuardedEvents(old(View()), events))
    {
      var applied :- ApplyWithUndo(events);
      return Ok(());
    }

    method ApplyBatch(ts: seq<Transfer>) returns (r: Outcome)
      modifies this
      ensures Follows(old(View()), View(), r, GuardedEvents(old(View()), PostedEvents(ts)))
    {
      var applied :- ApplyWithUndo(PostedEvents(ts));
      return Ok(());
    }

    /** Run one transaction, keeping its undo log; on failure the log covers what was applied so far. */
    method SpeculateTx(tx: seq<BatchOp>) returns (error: Option<LedgerError>, undo: seq<UndoOp>)
      modifies this
      ensures Restores(View(), undo, old(View()))
      ensures match GuardedOps(old(View()), tx)
        case Ok(s) => error == None && View() == s
        case Err(e) => error == Some(e)
    {
      ghost var base := View();
      undo := [];
      error := None;
      assert tx[0..] == tx;
      for i := 0 to |tx|
        invariant error == None
        invariant Restores(View(), undo, base)
        invariant GuardedOps(View(), tx[i..]) == GuardedOps(base, tx)
      {
        ghost var here := View();
        assert tx[i..][0] == tx[i] && tx[i..][1..] == tx[i + 1..];
        var pre := OpPreImages(View(), tx[i]);
        if pre.Err? {
          error := Some(pre.error);
          return;
        }
        var applied := ApplyBatchOp(tx[i]);
        if applied.Err? {
          error := Some(applied.error);
          return;
        }
        OpUndoExact(here, tx[i], View());
        RestoresCompose(base, here, View(), undo, pre.value);
        undo := undo + pre.value;
      }
    }

    /** Validate a batch without leaving a trace of it in the ledger. */
    method PrepareBatch(ops: seq<BatchOp>) returns (r: Speculation.Prepared)
      modifies this
      ensures View() == old(View())
      ensures r == Speculation.PrepareBatch(old(View()), ops)
    {
      ghost var base := View();
      var baseJournalLen, baseTimestamp := |journal|, lastTimestamp;
      var error, undo := SpeculateTx(ops);
      RestoresRollsBack(View(), undo, base);
      if error.Some? {
        RollbackTo(undo, baseJournalLen, baseTimestamp);
        return Err(error.value);
      }
      var produced := journal[baseJournalLen..];
      RollbackTo(undo, baseJournalLen, baseTimestamp);
      return Ok(produced);
    }

    /** Speculate one transaction: keep its effect and undo log if it succeeds, roll it back if it fails. */
    method PrepareTx(tx: seq<BatchOp>) returns (r: Speculation.Prepared, undo: seq<UndoOp>)
      modifies this
      ensures Restores(View(), undo, old(View()))
      ensures match GuardedOps(old(View()), tx)
        case Ok(s) => View() == s && r == Ok(Speculation.NewEvents(old(View()), s))
        case Err(e) => View() == old(View()) && r == Err(e)
    {
      ghost var here := View();
      var txJournalLen, txTimestamp := |journal|, lastTimestamp;
      var error, txUndo := SpeculateTx(tx);
      if error.Some? {
        RestoresRollsBack(View(), txUndo, here);
        RollbackTo(txUndo, txJournalLen, txTimestamp);
        return Err(error.value), [];
      }
      return Ok(journal[txJournalLen..]), txUndo;
    }

    /** Validate transactions in sequence, each seeing its accepted predecessors, and leave no trace. */
    method PrepareTransactions(txs: seq<seq<BatchOp>>) returns (results: seq<Speculation.Prepared>)
      modifies this
      ensures View() == old(View())
      ensures results == Speculation.PrepareTransactions(old(View()), txs)
    {
      ghost var base := View();
      var baseJournalLen, baseTimestamp := |journal|, lastTimestamp;
      var allUndo := [];
      results := [];
      assert txs[0..] == txs;
      for i := 0 to |txs|
        invariant Restores(View(), allUndo, base)
        invariant results + Speculation.PrepareTransactions(View(), txs[i..])
               == Speculation.PrepareTransactions(base, txs)
      {
        ghost var here := View();
        assert txs[i..][0] == txs[i] && txs[i..][1..] == txs[i + 1..];
        var r, txUndo := PrepareTx(txs[i]);
        RestoresCompose(base, here, View(), allUndo, txUndo);
        allUndo := allUndo + txUndo;
        assert Speculation.PrepareTransactions(here, txs[i..])
            == [r] + Speculation.PrepareTransactions(View(), txs[i + 1..]);
        results := results + [r];
      }
      RestoresRollsBack(View(), allUndo, base);
      RollbackTo(allUndo, baseJournalLen, baseTimestamp);
    }
  }

  /** Rebuild a ledger from journal events. */
  method Replay(scale: Scale, events: seq<LedgerEvent>) returns (r: Result<Ledger, LedgerError>)
    ensures r.Ok? ==> fresh(r.value) && Spec.Replay(scale, events) == Ok(r.value.View())
    ensures r.Err? ==> Spec.Replay(scale, events) == Err(r.error)
  {
    var ledger := new Ledger(scale);
    assert events[0..] == events;
    for i := 0 to |events|
      invariant fresh(ledger)
      invariant Spec.ApplyEvents(ledger.View(), events[i..]) == Spec.Replay(scale, events)
    {
      assert events[i..][0] == events[i] && events[i..][1..] == events[i + 1..];
      var _ :- ledger.ApplyEvent(events[i]);
    }
    return Ok(ledger);
  }
}
