/**
 Speculative preparation of transactions against plain execution: `prepare_transactions`
 accepts what executing the transactions one by one accepts, and committing the events
 it returns cannot fail and reaches the same ledger.
 */
module LedgerSpeculation {
  import opened Prelude
  import opened LedgerTypes
  import opened LedgerSpec
  import opened LedgerReplay

  type Prepared = Result<seq<LedgerEvent>, LedgerError>

  // ----- the reference: execute for real, skip a failing transaction whole

  function ExecuteTx(s: LedgerState, tx: seq<BatchOp>): LedgerState {
    if ApplyOps(s, tx).Ok? then ApplyOps(s, tx).value else s
  }

  /** The ledger after executing transactions one by one. */
  function OneByOne(s: LedgerState, txs: seq<seq<BatchOp>>): LedgerState
    decreases |txs|
  {
    if txs == [] then s else OneByOne(ExecuteTx(s, txs[0]), txs[1..])
  }

  // ----- what `prepare_transactions` returns

  /** The journal `s'` has beyond `s`. */
  function NewEvents(s: LedgerState, s': LedgerState): seq<LedgerEvent> {
    s'.journal[Min(|s.journal|, |s'.journal|)..]
  }

  function PrepareBatch(s: LedgerState, ops: seq<BatchOp>): Prepared {
    var s' :- GuardedOps(s, ops);
    Ok(NewEvents(s, s'))
  }

  function PrepareTransactions(s: LedgerState, txs: seq<seq<BatchOp>>): seq<Prepared>
    decreases |txs|
  {
    if txs == [] then []
    else
      match GuardedOps(s, txs[0])
      case Ok(s') => [Ok(NewEvents(s, s'))] + PrepareTransactions(s', txs[1..])
      case Err(e) => [Err(e)] + PrepareTransactions(s, txs[1..])
  }

  /** The event batches of the accepted transactions, in order. */
  function Accepted(results: seq<Prepared>): seq<seq<LedgerEvent>> {
    if results == [] then []
    else if results[0].Ok? then [results[0].value] + Accepted(results[1..])
    else Accepted(results[1..])
  }

  lemma PrepareHead(s: LedgerState, txs: seq<seq<BatchOp>>)
    requires txs != []
    ensures PrepareTransactions(s, txs)[1..] == PrepareTransactions(ExecuteTx(s, txs[0]), txs[1..])
    ensures |PrepareTransactions(s, txs)| > 0
    ensures PrepareTransactions(s, txs)[0].Ok? <==> ApplyOps(s, txs[0]).Ok?
    ensures ApplyOps(s, txs[0]).Ok? ==>
      ApplyEvents(s, PrepareTransactions(s, txs)[0].value) == ApplyOps(s, txs[0])
    ensures ApplyOps(s, txs[0]).Ok? ==>
      ExecuteTx(s, txs[0]).journal == s.journal + PrepareTransactions(s, txs)[0].value
    ensures PrepareTransactions(s, txs)[0]
         == (if ApplyOps(s, txs[0]).Ok? then Ok(EventsFor(s, txs[0])) else Err(GuardedOps(s, txs[0]).error))
  {
    hide ApplyOps, ApplyEvents, EventsFor;
    GuardIsTransparent(s, txs[0]);
    if ApplyOps(s, txs[0]).Ok? {
      var events := OpsHaveEvents(s, txs[0]);
      assert NewEvents(s, ApplyOps(s, txs[0]).value) == events;
    }
  }

  /** Transaction `i` is accepted exactly when executing it after its predecessors succeeds,
      and then its events are what that execution records. */
  lemma {:induction false} AcceptsWhatExecutionAccepts(s: LedgerState, txs: seq<seq<BatchOp>>, i: nat)
    requires i < |txs|
    ensures |PrepareTransactions(s, txs)| == |txs|
    ensures var here := OneByOne(s, txs[..i]);
      var r := PrepareTransactions(s, txs)[i];
      && (r.Ok? <==> ApplyOps(here, txs[i]).Ok?)
      && (r.Ok? ==> OneByOne(s, txs[..i + 1]).journal == here.journal + r.value)
      && (r.Ok? ==> r.value == EventsFor(here, txs[i]))
      && (r.Err? ==> GuardedOps(here, txs[i]) == Err(r.error))
    decreases |txs|
  {
    hide ApplyOps, ApplyEvents, EventsFor, GuardedOps;
    GuardIsTransparent(s, txs[0]);
    PrepareHead(s, txs);
    var s' := ExecuteTx(s, txs[0]);
    if i == 0 {
      assert txs[..1][1..] == [] && txs[..1][0] == txs[0];
      assert OneByOne(s, txs[..1]) == OneByOne(s', []);
      if |txs| > 1 {
        AcceptsWhatExecutionAccepts(s', txs[1..], 0);
      }
    } else {
      AcceptsWhatExecutionAccepts(s', txs[1..], i - 1);
      assert txs[..i][1..] == txs[1..][..i - 1] && txs[..i][0] == txs[0];
      assert txs[..i + 1][1..] == txs[1..][..i] && txs[..i + 1][0] == txs[0];
      assert PrepareTransactions(s, txs)[i] == PrepareTransactions(s, txs)[1..][i - 1];
    }
  }

  // ----- where an accepted transaction ends up among the accepted ones

  /** Executing transaction `i` after its predecessors succeeds. */
  predicate Executes(s: LedgerState, txs: seq<seq<BatchOp>>, i: nat)
    requires i < |txs|
  {
    ApplyOps(OneByOne(s, txs[..i]), txs[i]).Ok?
  }

  /** What transaction `i` records when it is executed after its predecessors. */
  function EventsAt(s: LedgerState, txs: seq<seq<BatchOp>>, i: nat): seq<LedgerEvent>
    requires i < |txs|
  {
    EventsFor(OneByOne(s, txs[..i]), txs[i])
  }

  /** How many of the first `i` transactions succeed. */
  function Rank(s: LedgerState, txs: seq<seq<BatchOp>>, i: nat): nat
    requires i <= |txs|
  {
    if i == 0 then 0 else Rank(s, txs, i - 1) + (if Executes(s, txs, i - 1) then 1 else 0)
  }

  lemma {:induction false} AcceptedConcat(a: seq<Prepared>, b: seq<Prepared>)
    ensures Accepted(a + b) == Accepted(a) + Accepted(b)
  {
    if a == [] {
      assert a + b == b;
    } else {
      assert (a + b)[0] == a[0] && (a + b)[1..] == a[1..] + b;
      AcceptedConcat(a[1..], b);
    }
  }

  lemma AcceptedNext(results: seq<Prepared>, i: nat)
    requires i < |results|
    ensures Accepted(results[..i + 1])
         == Accepted(results[..i]) + (if results[i].Ok? then [results[i].value] else [])
  {
    assert results[..i + 1] == results[..i] + [results[i]];
    AcceptedConcat(results[..i], [results[i]]);
    assert [results[i]][1..] == [];
  }

  lemma {:induction false} RankCounts(s: LedgerState, txs: seq<seq<BatchOp>>, i: nat)
    requires i <= |txs|
    ensures |PrepareTransactions(s, txs)| == |txs|
    ensures Rank(s, txs, i) == |Accepted(PrepareTransactions(s, txs)[..i])|
  {
    hide PrepareTransactions, OneByOne, Accepted;
    var results := PrepareTransactions(s, txs);
    if txs == [] {
      PrepareNone(s);
      NoneAccepted();
    } else if i == 0 {
      AcceptsWhatExecutionAccepts(s, txs, 0);
      assert results[..0] == [];
      NoneAccepted();
    } else {
      RankCounts(s, txs, i - 1);
      AcceptsWhatExecutionAccepts(s, txs, i - 1);
      AcceptedNext(results, i - 1);
    }
  }

  lemma NoneAccepted()
    ensures Accepted([]) == []
  {
  }

  /** A transaction that executes stands among the accepted ones at its rank, with its events. */
  lemma AcceptedAt(s: LedgerState, txs: seq<seq<BatchOp>>, i: nat)
    requires i < |txs| && Executes(s, txs, i)
    ensures Rank(s, txs, i) < |Accepted(PrepareTransactions(s, txs))|
    ensures Accepted(PrepareTransactions(s, txs))[Rank(s, txs, i)] == EventsAt(s, txs, i)
  {
    hide PrepareTransactions, OneByOne, Accepted, Rank;
    var results := PrepareTransactions(s, txs);
    RankCounts(s, txs, i);
    AcceptsWhatExecutionAccepts(s, txs, i);
    AcceptedNext(results, i);
    assert results == results[..i + 1] + results[i + 1..];
    AcceptedConcat(results[..i + 1], results[i + 1..]);
  }

  /** And every accepted one is such a transaction. */
  lemma {:induction false} AcceptedFrom(s: LedgerState, txs: seq<seq<BatchOp>>, n: nat, j: nat) returns (i: nat)
    requires n <= |txs| && j < Rank(s, txs, n)
    ensures i < n && Executes(s, txs, i) && Rank(s, txs, i) == j
    decreases n
  {
    hide OneByOne;
    if Executes(s, txs, n - 1) && Rank(s, txs, n - 1) == j {
      i := n - 1;
    } else {
      i := AcceptedFrom(s, txs, n - 1, j);
    }
  }

  /** Committing the accepted events, concatenated, succeeds and reaches the executed ledger. */
  lemma {:induction false} CommitReachesExecution(s: LedgerState, txs: seq<seq<BatchOp>>)
    ensures ApplyEvents(s, Flatten(Accepted(PrepareTransactions(s, txs)))) == Ok(OneByOne(s, txs))
    ensures GuardedEvents(s, Flatten(Accepted(PrepareTransactions(s, txs)))) == Ok(OneByOne(s, txs))
    ensures OneByOne(s, txs).journal == s.journal + Flatten(Accepted(PrepareTransactions(s, txs)))
    decreases |txs|
  {
    var results := PrepareTransactions(s, txs);
    if txs != [] {
      PrepareHead(s, txs);
      CommitReachesExecution(ExecuteTx(s, txs[0]), txs[1..]);
      if ApplyOps(s, txs[0]).Ok? {
        var rest := Accepted(results[1..]);
        assert Accepted(results)[1..] == rest;
        ApplyEventsConcat(s, results[0].value, Flatten(rest));
      }
    }
    EventGuardIsTransparent(s, Flatten(Accepted(results)));
    EventsAreRecorded(s, Flatten(Accepted(results)));
  }

  lemma {:induction false} OneByOneConcat(s: LedgerState, a: seq<seq<BatchOp>>, b: seq<seq<BatchOp>>)
    ensures OneByOne(s, a + b) == OneByOne(OneByOne(s, a), b)
    decreases |a|
  {
    if a == [] {
      assert a + b == b;
    } else {
      assert (a + b)[0] == a[0] && (a + b)[1..] == a[1..] + b;
      OneByOneConcat(ExecuteTx(s, a[0]), a[1..], b);
    }
  }

  /** How many transactions it takes to accept `m` of them. */
  function TxsFor(results: seq<Prepared>, m: nat): (j: nat)
    requires m <= |Accepted(results)|
    ensures j <= |results|
    decreases |results|
  {
    if m == 0 then 0
    else 1 + TxsFor(results[1..], if results[0].Ok? then m - 1 else m)
  }

  lemma SameHead(s: LedgerState, a: seq<seq<BatchOp>>, b: seq<seq<BatchOp>>)
    requires a != [] && b != [] && a[0] == b[0]
    ensures |PrepareTransactions(s, a)| > 0 && |PrepareTransactions(s, b)| > 0
    ensures PrepareTransactions(s, a)[0] == PrepareTransactions(s, b)[0]
  {
    hide GuardedOps;
  }

  lemma PrepareNone(s: LedgerState)
    ensures PrepareTransactions(s, []) == []
  {
  }

  /** The first `m` accepted transactions are what a prefix of the transactions accepts. */
  lemma {:induction false} AcceptedPrefix(s: LedgerState, txs: seq<seq<BatchOp>>, m: nat)
    requires m <= |Accepted(PrepareTransactions(s, txs))|
    ensures |PrepareTransactions(s, txs)| == |txs|
    ensures Accepted(PrepareTransactions(s, txs[..TxsFor(PrepareTransactions(s, txs), m)]))
         == Accepted(PrepareTransactions(s, txs))[..m]
    decreases |txs|
  {
    hide GuardedOps, ApplyOps, ExecuteTx, PrepareTransactions;
    PrepareNone(s);
    var results := PrepareTransactions(s, txs);
    if txs != [] {
      PrepareHead(s, txs);
      var rest := if results[0].Ok? && m > 0 then m - 1 else if m > |Accepted(results[1..])| then 0 else m;
      AcceptedPrefix(ExecuteTx(s, txs[0]), txs[1..], rest);
      if m > 0 {
        var j := TxsFor(results, m);
        var front := txs[..j];
        assert front[0] == txs[0] && front[1..] == txs[1..][..j - 1];
        PrepareHead(s, front);
        SameHead(s, txs, front);
      }
    }
  }
}
