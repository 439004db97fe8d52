/**
 `verify_invariants` and `verify_structure`: the loops that add up the books with checked
 arithmetic, proved to decide the conservation and structure predicates.
 */
module LedgerAudit {
  import opened Prelude
  import opened LedgerTypes
  import Spec = LedgerSpec
  import opened LedgerInvariant
  import opened LedgerReplay
  import opened Sums

  lemma TotalGrows(accounts: map<AccountId, Account>, rest: set<AccountId>, c: Column)
    ensures 0 <= Total(accounts - rest, c) <= Total(accounts, c)
  {
    MapSumNonNegative(Cells(accounts - rest, c));
    MapSumSubset(Cells(accounts - rest, c), Cells(accounts, c));
  }

  lemma HeldGrows(transfers: map<TransferId, Transfer>, rest: set<TransferId>, id: AccountId, side: Side)
    ensures 0 <= HeldSum(transfers - rest, id, side) <= HeldSum(transfers, id, side)
  {
    MapSumNonNegative(Holds(transfers - rest, id, side));
    MapSumSubset(Holds(transfers - rest, id, side), Holds(transfers, id, side));
  }

  lemma NothingSummed(accounts: map<AccountId, Account>, todo: set<AccountId>, c: Column)
    requires todo == accounts.Keys
    ensures Total(accounts - todo, c) == 0
  {
    assert Cells(accounts - todo, c) == map[];
  }

  /** Sum one column with `checked_add`: an error exactly when the sum does not fit. */
  method SumColumn(accounts: map<AccountId, Account>, c: Column) returns (r: Result<Amount, LedgerError>)
    ensures r == (if Total(accounts, c) < U128_LIMIT then Ok(Total(accounts, c)) else Err(ArithmeticOverflow))
  {
    hide Total;
    var total: Amount := 0;
    var todo := accounts.Keys;
    NothingSummed(accounts, todo, c);
    while todo != {}
      invariant todo <= accounts.Keys
      invariant total == Total(accounts - todo, c)
      decreases |todo|
    {
      var id :| id in todo;
      assert accounts - (todo - {id}) == (accounts - todo)[id := accounts[id]];
      TotalUpdate(accounts - todo, id, accounts[id], c);
      TotalGrows(accounts, todo - {id}, c);
      total :- Spec.CheckedAdd(total, Cell(accounts[id].balance, c));
      todo := todo - {id};
    }
    assert accounts - {} == accounts;
    return Ok(total);
  }

  function Get(m: map<AccountId, Amount>, id: AccountId): Amount {
    if id in m then m[id] else 0
  }

  /** Add a pending transfer to one side's held totals. */
  method AddHeld(transfers: map<TransferId, Transfer>, todo: set<TransferId>, k: TransferId, side: Side,
                 held: map<AccountId, Amount>) returns (r: Result<map<AccountId, Amount>, LedgerError>)
    requires todo <= transfers.Keys && k in todo
    requires forall id :: Get(held, id) == HeldSum(transfers - todo, id, side)
    ensures r.Ok? ==> forall id :: Get(r.value, id) == HeldSum(transfers - (todo - {k}), id, side)
    ensures r.Err? ==> r.error == ArithmeticOverflow && transfers[k].state == Pending
    ensures r.Err? ==> HeldSum(transfers, Party(transfers[k], side), side) >= U128_LIMIT
  {
    var t := transfers[k];
    assert transfers - (todo - {k}) == (transfers - todo)[k := t];
    forall id ensures HeldSum(transfers - (todo - {k}), id, side)
                   == HeldSum(transfers - todo, id, side) + Held(t, id, side)
    {
      HeldUpdate(transfers - todo, k, t, id, side);
    }
    if t.state != Pending {
      return Ok(held);
    }
    var id := Party(t, side);
    HeldGrows(transfers, todo - {k}, id, side);
    var sum :- Spec.CheckedAdd(Get(held, id), t.amount);
    return Ok(held[id := sum]);
  }

  /** Transfer `t` fails the audit with error `e`. */
  predicate BadTransfer(s: LedgerState, t: Transfer, e: LedgerError) {
    || (e == AccountNotFound(t.debit) && t.debit !in s.accounts)
    || (e == AccountNotFound(t.credit) && t.debit in s.accounts && t.credit !in s.accounts)
    || (t.state == Posted && Spec.ValidatePendingLink(s.transfers, t) == Err(e))
    || (t.state == Voided && t.pendingId.Some? && e == InvalidPendingLink(t.id, t.pendingId.value, Voided))
  }

  /** Account `id` reserves another amount than its transfers hold, and `e` names both amounts. */
  ghost predicate BadHolds(s: LedgerState, id: AccountId, e: LedgerError)
    requires id in s.accounts
  {
    var b := s.accounts[id].balance;
    && e.PendingBalanceMismatch? && e.accountId == id && e.balancePending != e.transfersPending
    && (|| (e.balancePending == b.debitsPending && e.transfersPending == HeldSum(s.transfers, id, Debit))
        || (&& b.debitsPending == HeldSum(s.transfers, id, Debit)
            && e.balancePending == b.creditsPending && e.transfersPending == HeldSum(s.transfers, id, Credit)))
  }

  /** What the structure check complains about is really there. */
  ghost predicate StructureFault(s: LedgerState, e: LedgerError) {
    || (exists k :: k in s.transfers && BadTransfer(s, s.transfers[k], e))
    || (exists id :: id in s.accounts && BadHolds(s, id, e))
    || (e == ArithmeticOverflow && exists id, side :: HeldSum(s.transfers, id, side) >= U128_LIMIT)
  }

  /** The check of one transfer. */
  method AuditTransfer(s: LedgerState, t: Transfer) returns (r: Result<(), LedgerError>)
    ensures r.Ok? <==> TransferAudit(s, t)
    ensures r.Err? ==> BadTransfer(s, t, r.error)
  {
    if t.debit !in s.accounts {
      return Err(AccountNotFound(t.debit));
    }
    if t.credit !in s.accounts {
      return Err(AccountNotFound(t.credit));
    }
    match t.state
    case Pending => return Ok(());
    case Posted => r := Spec.ValidatePendingLink(s.transfers, t);
    case Voided =>
      if t.pendingId.Some? {
        return Err(InvalidPendingLink(t.id, t.pendingId.value, t.state));
      }
      return Ok(());
  }

  /** First half of `verify_structure`: check every transfer and add up the holds. */
  method AuditTransfers(s: LedgerState)
    returns (r: Result<(map<AccountId, Amount>, map<AccountId, Amount>), LedgerError>)
    ensures r.Ok? ==> forall k :: k in s.transfers ==> TransferAudit(s, s.transfers[k])
    ensures r.Ok? ==> forall id :: Get(r.value.0, id) == HeldSum(s.transfers, id, Debit)
    ensures r.Ok? ==> forall id :: Get(r.value.1, id) == HeldSum(s.transfers, id, Credit)
    ensures r.Err? ==> StructureFault(s, r.error) && !StructureOk(s)
  {
    hide HeldSum;
    var debits: map<AccountId, Amount>, credits: map<AccountId, Amount> := map[], map[];
    var todo := s.transfers.Keys;
    NothingHeld(s.transfers, todo);
    while todo != {}
      invariant todo <= s.transfers.Keys
      invariant forall k :: k in s.transfers && k !in todo ==> TransferAudit(s, s.transfers[k])
      invariant forall id :: Get(debits, id) == HeldSum(s.transfers - todo, id, Debit)
      invariant forall id :: Get(credits, id) == HeldSum(s.transfers - todo, id, Credit)
      decreases |todo|
    {
      var k :| k in todo;
      var t := s.transfers[k];
      var checked := AuditTransfer(s, t);
      if checked.Err? {
        assert BadTransfer(s, s.transfers[k], checked.error);
        return Err(checked.error);
      }
      var d := AddHeld(s.transfers, todo, k, Debit, debits);
      if d.Err? {
        assert !HoldsAudit(s, t.debit);
        return Err(d.error);
      }
      var c := AddHeld(s.transfers, todo, k, Credit, credits);
      if c.Err? {
        assert !HoldsAudit(s, t.credit);
        return Err(c.error);
      }
      debits, credits := d.value, c.value;
      todo := todo - {k};
    }
    assert s.transfers - {} == s.transfers;
    return Ok((debits, credits));
  }

  lemma NothingHeld(transfers: map<TransferId, Transfer>, todo: set<TransferId>)
    requires todo == transfers.Keys
    ensures forall id, side :: HeldSum(transfers - todo, id, side) == 0
  {
    forall id, side ensures HeldSum(transfers - todo, id, side) == 0 {
      assert Holds(transfers - todo, id, side) == map[];
    }
  }

  /** Second half: every account's pending balance is what its transfers hold. */
  method AuditHolds(s: LedgerState, debits: map<AccountId, Amount>, credits: map<AccountId, Amount>)
    returns (r: Result<(), LedgerError>)
    requires forall id :: Get(debits, id) == HeldSum(s.transfers, id, Debit)
    requires forall id :: Get(credits, id) == HeldSum(s.transfers, id, Credit)
    ensures r.Ok? <==> forall id :: id in s.accounts ==> HoldsAudit(s, id)
    ensures r.Err? ==> StructureFault(s, r.error)
  {
    hide HeldSum;
    var todo := s.accounts.Keys;
    while todo != {}
      invariant todo <= s.accounts.Keys
      invariant forall id :: id in s.accounts && id !in todo ==> HoldsAudit(s, id)
      decreases |todo|
    {
      var id :| id in todo;
      var b := s.accounts[id].balance;
      if b.debitsPending != Get(debits, id) {
        r := Err(PendingBalanceMismatch(id, b.debitsPending, Get(debits, id)));
        assert BadHolds(s, id, r.error) && !HoldsAudit(s, id);
        return;
      }
      if b.creditsPending != Get(credits, id) {
        r := Err(PendingBalanceMismatch(id, b.creditsPending, Get(credits, id)));
        assert BadHolds(s, id, r.error) && !HoldsAudit(s, id);
        return;
      }
      todo := todo - {id};
    }
    return Ok(());
  }

  /** What the audit complains about is really there; totals come before conservation, posted money
      before pending, and both before the structure. */
  ghost predicate AuditFault(s: LedgerState, e: LedgerError) {
    var dp, cp := Total(s.accounts, DebitsPosted), Total(s.accounts, CreditsPosted);
    var dn, cn := Total(s.accounts, DebitsPending), Total(s.accounts, CreditsPending);
    if !TotalsFit(s) then e == ArithmeticOverflow
    else if dp != cp then e.ConservationViolation? && e.totalDebits == dp && e.totalCredits == cp
    else if dn != cn then e.ConservationViolation? && e.totalDebits == dn && e.totalCredits == cn
    else StructureFault(s, e)
  }

  /** The whole audit decides `AuditPasses`, and reports a fault that is there. */
  method VerifyInvariants(s: LedgerState) returns (r: Result<(), LedgerError>)
    ensures r.Ok? <==> AuditPasses(s)
    ensures r.Err? ==> AuditFault(s, r.error)
  {
    hide Total, StructureFault, TransferAudit, HoldsAudit, HeldSum;
    var dp :- SumColumn(s.accounts, DebitsPosted);
    var cp :- SumColumn(s.accounts, CreditsPosted);
    var dn :- SumColumn(s.accounts, DebitsPending);
    var cn :- SumColumn(s.accounts, CreditsPending);
    assert forall c: Column :: Total(s.accounts, c) < U128_LIMIT by {
      forall c: Column ensures Total(s.accounts, c) < U128_LIMIT {
        match c case DebitsPosted => case CreditsPosted => case DebitsPending => case CreditsPending =>
      }
    }
    if dp != cp {
      return Err(ConservationViolation(dp, cp));
    }
    if dn != cn {
      return Err(ConservationViolation(dn, cn));
    }
    var held :- AuditTransfers(s);
    r := AuditHolds(s, held.0, held.1);
  }

  /** Over every run the audit passes exactly while all four totals fit in 128 bits. */
  lemma AuditOverRuns(scale: Scale, cs: seq<Command>)
    ensures AuditPasses(Run(scale, cs)) <==> TotalsFit(Run(scale, cs))
  {
    RunsAreSound(scale, cs);
    SoundPassesAuditIff(Run(scale, cs));
  }
}
