/**
 The genesis ledger every node starts from and recovers to: a vault and funded customer
 accounts. It holds exactly the initial supply.
 */
module ClusterGenesis {
  import opened Prelude
  import opened LedgerTypes
  import opened LedgerSpec
  import LE = LedgerEngine
  import opened LedgerInvariant
  import opened ClusterSpec
  import opened ClusterAccounting

  const VAULT: AccountId := 99999
  const SEED_BASE: nat := 50000
  const GENESIS_TIME: u64 := 1000

  /** The parameters of a cluster; numbers are bounded as the machine integers require. */
  ghost predicate Fundable(accounts: seq<AccountId>, balance: Amount) {
    && Distinct(accounts) && VAULT !in accounts
    && GENESIS_TIME + 2 * |accounts| < U64_LIMIT
    && |accounts| * balance < U128_LIMIT
  }

  function SeedTransfer(l: LedgerState, acc: AccountId, idx: nat, balance: Amount, ts: u64): LedgerState
    requires SEED_BASE + idx < U128_LIMIT
  {
    var t := NewImmediate(SEED_BASE + idx, VAULT, acc, balance, ts);
    if t.Ok? then Keep(l, CreateTransfer(l, t.value)) else l
  }

  function OpenCustomer(l: LedgerState, acc: AccountId, scale: Scale, ts: u64): LedgerState {
    Keep(l, CreateAccount(l, acc, Liability, CUSTOMER_FLAGS, scale, ts))
  }

  /** `reinit_base_state` after the first `k` accounts: the ledger and the last timestamp used. */
  function Seeded(scale: Scale, accounts: seq<AccountId>, balance: Amount, k: nat): (r: (LedgerState, nat))
    requires k <= |accounts| && GENESIS_TIME + 2 * |accounts| < U64_LIMIT
    ensures GENESIS_TIME <= r.1 <= GENESIS_TIME + 2 * k
  {
    if k == 0 then
      (Keep(New(scale), CreateAccount(New(scale), VAULT, Asset, BANK_ASSET_FLAGS, scale, GENESIS_TIME)), GENESIS_TIME)
    else
      var (l, ts) := Seeded(scale, accounts, balance, k - 1);
      var opened_ := OpenCustomer(l, accounts[k - 1], scale, ts + 1);
      if balance > 0 then (SeedTransfer(opened_, accounts[k - 1], k - 1, balance, ts + 2), ts + 2)
      else (opened_, ts + 1)
  }

  function Genesis(scale: Scale, accounts: seq<AccountId>, balance: Amount): LedgerState
    requires GENESIS_TIME + 2 * |accounts| < U64_LIMIT
  {
    Seeded(scale, accounts, balance, |accounts|).0
  }

  /** `reinit_base_state` as the loop it is. */
  method ReinitBaseState(scale: Scale, accounts: seq<AccountId>, balance: Amount) returns (l: LE.Ledger)
    requires GENESIS_TIME + 2 * |accounts| < U64_LIMIT
    ensures fresh(l) && l.View() == Genesis(scale, accounts, balance)
  {
    hide CreateAccount, CreateTransfer;
    l := new LE.Ledger(scale);
    var _ := l.CreateAccount(VAULT, Asset, BANK_ASSET_FLAGS, scale, GENESIS_TIME);
    var ts: nat := GENESIS_TIME;
    for k := 0 to |accounts|
      invariant fresh(l) && ts == Seeded(scale, accounts, balance, k).1
      invariant l.View() == Seeded(scale, accounts, balance, k).0
    {
      ts := ts + 1;
      var _ := l.CreateAccount(accounts[k], Liability, CUSTOMER_FLAGS, scale, ts);
      if balance > 0 {
        ts := ts + 1;
        var seed := NewImmediate(SEED_BASE + k, VAULT, accounts[k], balance, ts);
        if seed.Ok? {
          var _ := l.CreateTransfer(seed.value);
        }
      }
    }
  }

  // ----- what genesis holds

  ghost predicate FundedUpTo(l: LedgerState, scale: Scale, accounts: seq<AccountId>, balance: Amount, k: nat, ts: nat)
    requires k <= |accounts|
  {
    && l.scale == scale && l.lastTimestamp <= ts
    && VAULT in l.accounts && l.accounts[VAULT].flags == BANK_ASSET_FLAGS
    && l.accounts[VAULT].balance.debitsPosted == k * balance
    && (forall i :: 0 <= i < k ==> Funded(l, accounts[i], balance))
    && (forall i :: k <= i < |accounts| ==> accounts[i] !in l.accounts)
    && (forall t :: t in l.transfers ==> t < SEED_BASE + k && l.transfers[t].state == Posted)
  }

  ghost predicate Funded(l: LedgerState, id: AccountId, balance: Amount) {
    && id in l.accounts && l.accounts[id].flags == CUSTOMER_FLAGS
    && l.accounts[id].balance == Balance(0, balance, 0, 0)
  }

  lemma OpenStep(l: LedgerState, scale: Scale, accounts: seq<AccountId>, balance: Amount, k: nat, ts: nat)
    requires Fundable(accounts, balance) && k < |accounts| && ts + 1 < U64_LIMIT
    requires FundedUpTo(l, scale, accounts, balance, k, ts)
    ensures var l' := OpenCustomer(l, accounts[k], scale, ts + 1);
      && CreateAccount(l, accounts[k], Liability, CUSTOMER_FLAGS, scale, ts + 1) == Ok(l')
      && l'.accounts == l.accounts[accounts[k] := Account(accounts[k], Liability, CUSTOMER_FLAGS, scale, ZERO_BALANCE)]
      && l'.transfers == l.transfers && l'.scale == scale && l'.lastTimestamp == ts + 1
  {
  }

  lemma SeedStep(l: LedgerState, acc: AccountId, idx: nat, balance: Amount, ts: u64)
    requires SEED_BASE + idx < U128_LIMIT && balance > 0 && acc != VAULT && SEED_BASE + idx !in l.transfers
    requires l.lastTimestamp <= ts && acc in l.accounts && VAULT in l.accounts
    requires l.accounts[VAULT].flags == BANK_ASSET_FLAGS && l.accounts[acc].flags == CUSTOMER_FLAGS
    requires l.accounts[VAULT].balance.debitsPosted + balance < U128_LIMIT
    requires l.accounts[acc].balance.creditsPosted + balance < U128_LIMIT
    ensures var l' := SeedTransfer(l, acc, idx, balance, ts);
      var t := NewImmediate(SEED_BASE + idx, VAULT, acc, balance, ts);
      && t.Ok? && CreateTransfer(l, t.value) == Ok(l')
      && l'.transfers == l.transfers[SEED_BASE + idx := t.value] && l'.scale == l.scale && l'.lastTimestamp == ts
      && Moved(l.accounts, l'.accounts, Move(VAULT, acc, balance, 0))
  {
    var t := NewImmediate(SEED_BASE + idx, VAULT, acc, balance, ts).value;
    TransferMoves(l, t);
  }

  lemma Multiples(n: nat, k: nat, balance: nat)
    requires k < n
    ensures (k + 1) * balance == k * balance + balance
    ensures k * balance + balance <= n * balance
  {
    assert n * balance == (k + 1) * balance + (n - k - 1) * balance;
  }

  lemma FundStep(l: LedgerState, scale: Scale, accounts: seq<AccountId>, balance: Amount, k: nat, ts: nat)
    requires Fundable(accounts, balance) && k < |accounts| && ts + 2 < U64_LIMIT && balance > 0
    requires FundedUpTo(l, scale, accounts, balance, k, ts) && Sound(l)
    ensures var l' := SeedTransfer(OpenCustomer(l, accounts[k], scale, ts + 1), accounts[k], k, balance, ts + 2);
      FundedUpTo(l', scale, accounts, balance, k + 1, ts + 2) && Sound(l')
  {
    hide Conserved, Backed, LifecycleOk, Limited, WellFormed, ApplyEvent, CreateAccount, CreateTransfer,
         OpenCustomer, SeedTransfer, NewImmediate;
    Multiples(|accounts|, k, balance);
    var acc := accounts[k];
    var l1 := OpenCustomer(l, acc, scale, ts + 1);
    OpenStep(l, scale, accounts, balance, k, ts);
    OpenIsSound(l, acc, scale, ts + 1, l1);
    SeedStep(l1, acc, k, balance, ts + 2);
    var t := NewImmediate(SEED_BASE + k, VAULT, acc, balance, ts + 2).value;
    var l2 := SeedTransfer(l1, acc, k, balance, ts + 2);
    SeedIsSound(l1, t, l2);
    SeedShape(k, acc, balance, ts + 2);
    forall i | 0 <= i < k + 1 ensures Funded(l2, accounts[i], balance) {
      if i < k {
        assert Funded(l, accounts[i], balance);
      }
    }
  }

  lemma SeedShape(idx: nat, acc: AccountId, balance: Amount, ts: u64)
    requires SEED_BASE + idx < U128_LIMIT
    ensures var t := NewImmediate(SEED_BASE + idx, VAULT, acc, balance, ts); t.Ok? ==> t.value.state == Posted
  {
  }

  lemma OpenIsSound(l: LedgerState, acc: AccountId, scale: Scale, ts: u64, l': LedgerState)
    requires Sound(l) && CreateAccount(l, acc, Liability, CUSTOMER_FLAGS, scale, ts) == Ok(l')
    ensures Sound(l')
  {
    hide Sound, CreateAccount;
    EventKeepsSound(l, AccountCreated(acc, Liability, CUSTOMER_FLAGS, scale, ts), l');
  }

  lemma SeedIsSound(l: LedgerState, t: Transfer, l': LedgerState)
    requires Sound(l) && CreateTransfer(l, t) == Ok(l')
    ensures Sound(l')
  {
    hide Sound, CreateTransfer;
    EventKeepsSound(l, TransferPosted(t), l');
  }

  lemma VaultStep(scale: Scale, accounts: seq<AccountId>, balance: Amount)
    requires Fundable(accounts, balance)
    ensures var (l, ts) := Seeded(scale, accounts, balance, 0);
      FundedUpTo(l, scale, accounts, balance, 0, ts) && Sound(l)
  {
    hide Sound, ApplyEvent;
    NewIsSound(scale);
    var (l, ts) := Seeded(scale, accounts, balance, 0);
    var e := AccountCreated(VAULT, Asset, BANK_ASSET_FLAGS, scale, GENESIS_TIME);
    assert ApplyEvent(New(scale), e) == Ok(l) by { VaultEvent(scale); }
    EventKeepsSound(New(scale), e, l);
  }

  lemma VaultEvent(scale: Scale)
    ensures ApplyEvent(New(scale), AccountCreated(VAULT, Asset, BANK_ASSET_FLAGS, scale, GENESIS_TIME))
         == CreateAccount(New(scale), VAULT, Asset, BANK_ASSET_FLAGS, scale, GENESIS_TIME)
  {
  }

  /** Without an opening balance an account is only created. */
  lemma OpenOnlyStep(l: LedgerState, scale: Scale, accounts: seq<AccountId>, k: nat, ts: nat)
    requires Fundable(accounts, 0) && k < |accounts| && ts + 1 < U64_LIMIT
    requires FundedUpTo(l, scale, accounts, 0, k, ts) && Sound(l)
    ensures var l' := OpenCustomer(l, accounts[k], scale, ts + 1);
      FundedUpTo(l', scale, accounts, 0, k + 1, ts + 1) && Sound(l')
  {
    hide Sound, CreateAccount, OpenCustomer;
    var l' := OpenCustomer(l, accounts[k], scale, ts + 1);
    OpenStep(l, scale, accounts, 0, k, ts);
    OpenIsSound(l, accounts[k], scale, ts + 1, l');
    forall i | 0 <= i < k + 1 ensures Funded(l', accounts[i], 0) {
      if i < k {
        assert Funded(l, accounts[i], 0);
      }
    }
  }

  lemma {:induction false} SeededIsFunded(scale: Scale, accounts: seq<AccountId>, balance: Amount, k: nat)
    requires Fundable(accounts, balance) && k <= |accounts|
    ensures var (l, ts) := Seeded(scale, accounts, balance, k);
      FundedUpTo(l, scale, accounts, balance, k, ts) && Sound(l)
    decreases k
  {
    hide Sound, OpenCustomer, SeedTransfer, FundedUpTo;
    if k == 0 {
      VaultStep(scale, accounts, balance);
    } else {
      SeededIsFunded(scale, accounts, balance, k - 1);
      var (l, ts) := Seeded(scale, accounts, balance, k - 1);
      if balance > 0 {
        FundStep(l, scale, accounts, balance, k - 1, ts);
      } else {
        OpenOnlyStep(l, scale, accounts, k - 1, ts);
      }
    }
  }

  lemma {:induction false} FundedWealth(l: LedgerState, accounts: seq<AccountId>, balance: Amount)
    requires forall i :: 0 <= i < |accounts| ==> Funded(l, accounts[i], balance)
    ensures Wealth(l, accounts) == |accounts| * balance
    decreases |accounts|
  {
    if accounts != [] {
      assert Funded(l, accounts[0], balance);
      assert forall i :: 0 <= i < |accounts[1..]| ==> accounts[1..][i] == accounts[i + 1];
      FundedWealth(l, accounts[1..], balance);
      Multiples(|accounts|, |accounts| - 1, balance);
    }
  }

  /** Genesis is sound, its customers cannot be overdrawn, and they hold the initial supply. */
  lemma GenesisInBalance(scale: Scale, accounts: seq<AccountId>, balance: Amount)
    requires Fundable(accounts, balance)
    ensures InBalance(Genesis(scale, accounts, balance), accounts, |accounts| * balance)
  {
    hide Sound, Seeded;
    SeededIsFunded(scale, accounts, balance, |accounts|);
    var l := Genesis(scale, accounts, balance);
    forall i | 0 <= i < |accounts|
      ensures accounts[i] in l.accounts && l.accounts[accounts[i]].flags.debitsMustNotExceedCredits
    {
      assert Funded(l, accounts[i], balance);
    }
    FundedWealth(l, accounts, balance);
  }
}
