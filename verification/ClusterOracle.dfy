/**
 The simulator's oracle (simulator/src/oracle.rs): the two checks it runs on every node and pair
 of nodes, and the theorem that they never complain.
 */
module ClusterOracle {
  import opened Prelude
  import opened LedgerTypes
  import LedgerAudit
  import opened LedgerInvariant
  import opened ClusterTypes
  import opened ClusterSpec
  import opened ClusterAgreement
  import opened ClusterAccounting
  import opened ClusterGenesis

  /** A leak comes with what was measured and how far it is off. */
  datatype Verdict = Pass | WealthLeak(actual: u128, drift: int) | NegativeBalance(accountId: AccountId)

  const I128_LIMIT: int := 0x8000_0000_0000_0000_0000_0000_0000_0000

  /** `as i128` on 128 bits. */
  function AsSigned(x: u128): int {
    if x < I128_LIMIT then x else x - U128_LIMIT
  }

  /** Reduction of an integer to 128 signed bits. */
  function WrapSigned(x: int): int {
    AsSigned(x % U128_LIMIT)
  }

  predicate Solvent(l: LedgerState, id: AccountId) {
    id in l.accounts && l.accounts[id].balance.debitsPosted <= l.accounts[id].balance.creditsPosted
  }

  predicate AllSolvent(l: LedgerState, accounts: seq<AccountId>) {
    forall i :: 0 <= i < |accounts| ==> Solvent(l, accounts[i])
  }

  lemma {:induction false} WealthSnoc(l: LedgerState, accounts: seq<AccountId>, id: AccountId)
    ensures Wealth(l, accounts + [id]) == Wealth(l, accounts) + Net(l, id)
    decreases |accounts|
  {
    if accounts == [] {
      assert accounts + [id] == [id];
      assert [id][1..] == [];
    } else {
      assert (accounts + [id])[0] == accounts[0] && (accounts + [id])[1..] == accounts[1..] + [id];
      WealthSnoc(l, accounts[1..], id);
    }
  }

  /** Solvent accounts only add to a partial sum. */
  lemma {:induction false} WealthGrows(l: LedgerState, accounts: seq<AccountId>, k: nat)
    requires AllSolvent(l, accounts) && k <= |accounts|
    ensures 0 <= Wealth(l, accounts[..k]) <= Wealth(l, accounts)
    decreases |accounts|
  {
    if accounts != [] {
      assert Solvent(l, accounts[0]);
      assert AllSolvent(l, accounts[1..]) by {
        forall i | 0 <= i < |accounts[1..]| ensures Solvent(l, accounts[1..][i]) {
          assert Solvent(l, accounts[i + 1]);
        }
      }
      WealthGrows(l, accounts[1..], if k > 0 then k - 1 else 0);
      if k > 0 {
        assert accounts[..k][0] == accounts[0] && accounts[..k][1..] == accounts[1..][..k - 1];
      } else {
        assert accounts[..k] == [];
      }
    }
  }

  /** What a verdict says of the ledger. */
  ghost predicate Justified(l: LedgerState, accounts: seq<AccountId>, expected: u128, v: Verdict) {
    match v
    case Pass => AuditPasses(l) && AllSolvent(l, accounts) && Wealth(l, accounts) == expected
    case NegativeBalance(id) => AuditPasses(l) && id in accounts && !Solvent(l, id)
    case WealthLeak(actual, drift) =>
      || (!AuditPasses(l) && actual == 0 && drift == 0 - 1)
      || (AuditPasses(l) && actual == U128_LIMIT - 1 && drift == I128_LIMIT - 1 && OverflowsAt(l, accounts))
      || (&& AuditPasses(l) && AllSolvent(l, accounts) && actual == Wealth(l, accounts) != expected
          && drift == WrapSigned(actual - expected))
  }

  /** Some prefix of the accounts is solvent and holds more than 128 bits can say. */
  ghost predicate OverflowsAt(l: LedgerState, accounts: seq<AccountId>) {
    exists k :: 0 <= k <= |accounts| && AllSolvent(l, accounts[..k]) && Wealth(l, accounts[..k]) >= U128_LIMIT
  }

  lemma OverflowRules(l: LedgerState, accounts: seq<AccountId>, k: nat)
    requires k <= |accounts| && AllSolvent(l, accounts[..k]) && Wealth(l, accounts[..k]) >= U128_LIMIT
    ensures AllSolvent(l, accounts) ==> Wealth(l, accounts) >= U128_LIMIT
  {
    if AllSolvent(l, accounts) {
      WealthGrows(l, accounts, k);
    }
  }

  /** `assert_conservation`: passes exactly when the audit passes, every tracked account exists and
      is not negative, and the tracked money is the expected supply; otherwise the verdict is true. */
  method AssertConservation(l: LedgerState, accounts: seq<AccountId>, expected: u128) returns (v: Verdict)
    ensures v == Pass <==> AuditPasses(l) && AllSolvent(l, accounts) && Wealth(l, accounts) == expected
    ensures Justified(l, accounts, expected, v)
  {
    hide AuditPasses, Wealth;
    var audit := LedgerAudit.VerifyInvariants(l);
    if audit.Err? {
      return WealthLeak(0, 0 - 1);
    }
    var total: u128 := 0;
    assert accounts[..0] == [];
    NoWealth(l);
    for i := 0 to |accounts|
      invariant AllSolvent(l, accounts[..i]) && total == Wealth(l, accounts[..i])
    {
      var id := accounts[i];
      if id !in l.accounts || l.accounts[id].balance.debitsPosted > l.accounts[id].balance.creditsPosted {
        assert !Solvent(l, accounts[i]);
        return NegativeBalance(id);
      }
      var posted := l.accounts[id].balance.creditsPosted - l.accounts[id].balance.debitsPosted;
      assert accounts[..i + 1] == accounts[..i] + [id];
      WealthSnoc(l, accounts[..i], id);
      if total + posted >= U128_LIMIT {
        OverflowRules(l, accounts, i + 1);
        return WealthLeak(U128_LIMIT - 1, I128_LIMIT - 1);
      }
      total := total + posted;
    }
    assert accounts[..|accounts|] == accounts;
    if total != expected {
      SignedDifference(total, expected);
      return WealthLeak(total, WrapSigned(AsSigned(total) - AsSigned(expected)));
    }
    return Pass;
  }

  lemma NoWealth(l: LedgerState)
    ensures Wealth(l, []) == 0
  {
  }

  /** Subtracting the casts gives the wrapped difference. */
  lemma SignedDifference(x: u128, y: u128)
    ensures WrapSigned(AsSigned(x) - AsSigned(y)) == WrapSigned(x - y)
  {
    var d := x - y;
    assert (d - U128_LIMIT) % U128_LIMIT == d % U128_LIMIT == (d + U128_LIMIT) % U128_LIMIT;
  }

  /** Two journals agree wherever both have an event. */
  predicate Agree(a: seq<LedgerEvent>, b: seq<LedgerEvent>) {
    forall i :: 0 <= i < |a| && i < |b| ==> a[i] == b[i]
  }

  /** The first index where two journals differ. */
  predicate PartAt(a: seq<LedgerEvent>, b: seq<LedgerEvent>, i: nat) {
    i < |a| && i < |b| && a[i] != b[i] && a[..i] == b[..i]
  }

  lemma PartedDisagree(a: seq<LedgerEvent>, b: seq<LedgerEvent>, i: nat)
    requires PartAt(a, b, i)
    ensures !Agree(a, b)
  {
  }

  /** `assert_log_agreement`: the first index where the journals differ, if any. */
  method AssertLogAgreement(a: seq<LedgerEvent>, b: seq<LedgerEvent>) returns (split: Option<nat>)
    ensures split.None? <==> Agree(a, b)
    ensures split.Some? ==> PartAt(a, b, split.value)
  {
    var n := if |a| < |b| then |a| else |b|;
    for i := 0 to n
      invariant forall j :: 0 <= j < i ==> a[j] == b[j]
    {
      if a[i] != b[i] {
        return Some(i);
      }
    }
    return None;
  }

  /** What the cluster-wide check reports. */
  datatype Finding =
    | Fine
    | BadLedger(node: NodeId, verdict: Verdict)
    | SplitBrain(first: NodeId, second: NodeId, index: nat)

  ghost predicate LedgerOk(l: LedgerState, accounts: seq<AccountId>, supply: nat) {
    AuditPasses(l) && AllSolvent(l, accounts) && Wealth(l, accounts) == supply
  }

  ghost predicate JournalsAgree(c: Cluster, a: NodeId, b: NodeId)
    requires a in c.nodes && b in c.nodes
  {
    Agree(c.nodes[a].ledger.journal, c.nodes[b].ledger.journal)
  }

  /** Every active node's ledger is in order and no two of them disagree. */
  ghost predicate Healthy(c: Cluster, accounts: seq<AccountId>, supply: nat) {
    && (forall a :: Alive(c, a) ==> LedgerOk(c.nodes[a].ledger, accounts, supply))
    && (forall a, b :: Alive(c, a) && Alive(c, b) ==> JournalsAgree(c, a, b))
  }

  /** The oracle never complains. In every run of a cluster over a genesis ledger, whose clients move
      money only between tracked accounts, every node whose totals still fit in 128 bits passes the
      conservation check, and every pair of nodes passes the agreement check. */
  lemma OracleNeverComplains(cfg: Config, scale: Scale, accounts: seq<AccountId>, balance: Amount,
                             evs: seq<Event>, a: NodeId, b: NodeId)
    requires CodecOk(cfg.codec) && Indexed(cfg, evs) && a in cfg.ids && b in cfg.ids
    requires Fundable(accounts, balance) && cfg.genesis == Genesis(scale, accounts, balance)
    requires forall i :: 0 <= i < |evs| && evs[i].ClientOp? ==> OpTracked(evs[i].op, accounts)
    ensures var c := Run(cfg, evs);
      && a in c.nodes && b in c.nodes
      && Agree(c.nodes[a].ledger.journal, c.nodes[b].ledger.journal)
      && AllSolvent(c.nodes[a].ledger, accounts)
      && Wealth(c.nodes[a].ledger, accounts) == |accounts| * balance
      && (AuditPasses(c.nodes[a].ledger) <==> TotalsFit(c.nodes[a].ledger))
  {
    hide Run, Genesis, CodecOk, OpTracked, Sound, Tracked, HoldsTracked, Wealth, AuditPasses, TotalsFit;
    GenesisInBalance(scale, accounts, balance);
    WealthIsConserved(cfg, evs, a, accounts, |accounts| * balance);
    JournalsAreOrdered(cfg, evs, a, b);
    JournalsAreOrdered(cfg, evs, b, a);
    var l := Run(cfg, evs).nodes[a].ledger;
    SoundPassesAuditIff(l);
    forall i | 0 <= i < |accounts| ensures Solvent(l, accounts[i]) {
      NoneNegative(l, accounts, |accounts| * balance, i);
    }
  }

  /** No event adds or removes a node. */
  lemma {:induction false} RunsKeepIds(cfg: Config, evs: seq<Event>)
    ensures Run(cfg, evs).nodes.Keys == cfg.ids
    decreases |evs|
  {
    hide React, StartProposal, StartElection, Beat, CrashNode, RebootNode, InitNode;
    if evs != [] {
      RunsKeepIds(cfg, evs[..|evs| - 1]);
    }
  }

  /** So a run is healthy exactly when the totals of its active nodes fit. */
  lemma RunsAreHealthyIff(cfg: Config, scale: Scale, accounts: seq<AccountId>, balance: Amount, evs: seq<Event>)
    requires CodecOk(cfg.codec) && Indexed(cfg, evs)
    requires Fundable(accounts, balance) && cfg.genesis == Genesis(scale, accounts, balance)
    requires forall i :: 0 <= i < |evs| && evs[i].ClientOp? ==> OpTracked(evs[i].op, accounts)
    ensures var c := Run(cfg, evs);
      Healthy(c, accounts, |accounts| * balance) <==> forall a :: Alive(c, a) ==> TotalsFit(c.nodes[a].ledger)
  {
    hide Run, Genesis, CodecOk, OpTracked, Wealth, AuditPasses, TotalsFit, AllSolvent, Agree, Fundable;
    var c := Run(cfg, evs);
    RunsKeepIds(cfg, evs);
    forall a | Alive(c, a)
      ensures LedgerOk(c.nodes[a].ledger, accounts, |accounts| * balance) <==> TotalsFit(c.nodes[a].ledger)
    {
      OracleNeverComplains(cfg, scale, accounts, balance, evs, a, a);
    }
    forall a, b | Alive(c, a) && Alive(c, b) ensures JournalsAgree(c, a, b) {
      OracleNeverComplains(cfg, scale, accounts, balance, evs, a, b);
    }
  }
}
