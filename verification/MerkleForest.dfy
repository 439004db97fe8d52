/**
 How the node array of a mountain range represents perfect trees: every tree occupies a
 contiguous block in post order, its root last.
 */
module MerkleForest {
  import opened Prelude
  import opened MerkleSpec
  import opened MerkleProof

  datatype MmrNode = MmrNode(
    hash: Hash,
    height: nat,
    leftChild: Option<nat>,
    rightChild: Option<nat>,
    parent: Option<nat>)

  type Nodes = seq<MmrNode>

  /** A perfect tree of height `h` over leaves `a..a + 2^h` stands at `pos`. Nothing is said about
      the parent of its root. */
  predicate TreeAt(nodes: Nodes, lp: seq<nat>, pos: int, h: nat, a: nat)
    decreases h
  {
    && Pow2(h + 1) - 2 <= pos < |nodes| && a + Pow2(h) <= |lp|
    && nodes[pos].height == h
    && if h == 0 then lp[a] == pos
       else
         var l, r := pos - Pow2(h), pos - 1;
         && TreeAt(nodes, lp, l, h - 1, a)
         && TreeAt(nodes, lp, r, h - 1, a + Pow2(h - 1))
         && nodes[pos].leftChild == Some(l) && nodes[pos].rightChild == Some(r)
         && nodes[l].parent == Some(pos) && nodes[r].parent == Some(pos)
         && nodes[pos].hash == Node(nodes[l].hash, nodes[r].hash)
  }

  /** Leaf hashes in the order they were appended. */
  function LeafHashes(nodes: Nodes, lp: seq<nat>): (c: seq<Hash>)
    ensures |c| == |lp|
  {
    seq(|lp|, i requires 0 <= i < |lp| => if lp[i] < |nodes| then nodes[lp[i]].hash else Zero)
  }

  /** The root of a tree carries the perfect hash of its leaves. */
  lemma {:induction false} TreeHash(nodes: Nodes, lp: seq<nat>, pos: int, h: nat, a: nat)
    requires TreeAt(nodes, lp, pos, h, a)
    ensures nodes[pos].hash == Perfect(LeafHashes(nodes, lp)[a..a + Pow2(h)], h)
    decreases h
  {
    if h > 0 {
      var c := LeafHashes(nodes, lp);
      var half := Pow2(h - 1);
      TreeHash(nodes, lp, pos - Pow2(h), h - 1, a);
      TreeHash(nodes, lp, pos - 1, h - 1, a + half);
      Halves(c, a, h);
    }
  }

  lemma Halves(c: seq<Hash>, a: nat, h: nat)
    requires h > 0 && a + Pow2(h) <= |c|
    ensures c[a..a + Pow2(h)][..Pow2(h - 1)] == c[a..a + Pow2(h - 1)]
    ensures c[a..a + Pow2(h)][Pow2(h - 1)..] == c[a + Pow2(h - 1)..a + Pow2(h - 1) + Pow2(h - 1)]
  {
  }

  /** `after` differs from `before` at `x` in nothing but the parent link. */
  predicate SameButParent(before: MmrNode, after: MmrNode) {
    after == before.(parent := after.parent)
  }

  /** A tree survives changes outside its block and of its root's parent. */
  lemma {:induction false} TreeFrame(nodes: Nodes, nodes': Nodes, lp: seq<nat>, lp': seq<nat>, pos: int, h: nat, a: nat)
    requires TreeAt(nodes, lp, pos, h, a) && |nodes| <= |nodes'| && lp <= lp'
    requires forall x :: pos - (Pow2(h + 1) - 2) <= x < pos ==> nodes'[x] == nodes[x]
    requires SameButParent(nodes[pos], nodes'[pos])
    ensures TreeAt(nodes', lp', pos, h, a)
    decreases h
  {
    if h > 0 {
      assert Pow2(h + 1) == 2 * Pow2(h);
      TreeFrame(nodes, nodes', lp, lp', pos - Pow2(h), h - 1, a);
      TreeFrame(nodes, nodes', lp, lp', pos - 1, h - 1, a + Pow2(h - 1));
    }
  }

  // ----- mountains side by side

  datatype Mountain = Mountain(pos: nat, height: nat, start: nat)

  function LeafEnd(ms: seq<Mountain>): nat {
    if ms == [] then 0 else ms[|ms| - 1].start + Pow2(ms[|ms| - 1].height)
  }

  function NodeEnd(ms: seq<Mountain>): nat {
    if ms == [] then 0 else ms[|ms| - 1].pos + 1
  }

  /** The mountains' leaves and node blocks follow each other without gaps. */
  predicate Chain(ms: seq<Mountain>) {
    ms == [] ||
    var init, m := ms[..|ms| - 1], ms[|ms| - 1];
    && Chain(init)
    && m.start == LeafEnd(init)
    && m.pos + 1 == NodeEnd(init) + Pow2(m.height + 1) - 1
  }

  /** Every mountain is a tree whose root has no parent. */
  predicate Standing(nodes: Nodes, lp: seq<nat>, ms: seq<Mountain>) {
    forall j :: 0 <= j < |ms| ==> StandsAt(nodes, lp, ms[j])
  }

  predicate StandsAt(nodes: Nodes, lp: seq<nat>, m: Mountain) {
    TreeAt(nodes, lp, m.pos, m.height, m.start) && nodes[m.pos].parent == None
  }

  function HeightsOf(ms: seq<Mountain>): (hs: seq<nat>)
    ensures |hs| == |ms|
  {
    seq(|ms|, j requires 0 <= j < |ms| => ms[j].height)
  }

  lemma {:induction false} ChainBelow(ms: seq<Mountain>, j: nat)
    requires Chain(ms) && j < |ms|
    ensures ms[j].pos < NodeEnd(ms)
    decreases |ms|
  {
    if j < |ms| - 1 {
      ChainBelow(ms[..|ms| - 1], j);
    }
  }

  /** Node blocks of `2^(h+1) - 1` nodes add up to twice the leaves less one per mountain. */
  lemma {:induction false} NodeEndIs(ms: seq<Mountain>)
    requires Chain(ms)
    ensures NodeEnd(ms) == 2 * LeafEnd(ms) - |ms|
    decreases |ms|
  {
    if ms != [] {
      NodeEndIs(ms[..|ms| - 1]);
    }
  }

  /** Mountains whose nodes did not change still stand. */
  lemma StandingFrame(nodes: Nodes, nodes': Nodes, lp: seq<nat>, lp': seq<nat>, ms: seq<Mountain>)
    requires Chain(ms) && Standing(nodes, lp, ms) && |nodes| <= |nodes'| && lp <= lp'
    requires NodeEnd(ms) <= |nodes| && nodes'[..NodeEnd(ms)] == nodes[..NodeEnd(ms)]
    ensures Standing(nodes', lp', ms)
  {
    forall j | 0 <= j < |ms| ensures StandsAt(nodes', lp', ms[j]) {
      assert StandsAt(nodes, lp, ms[j]);
      ChainBelow(ms, j);
      assert forall x :: 0 <= x < NodeEnd(ms) ==> nodes'[x] == nodes'[..NodeEnd(ms)][x] == nodes[x];
      TreeFrame(nodes, nodes', lp, lp', ms[j].pos, ms[j].height, ms[j].start);
    }
  }

  // ----- descending heights are the set bits

  /** Where the mountain with index `j` starts. */
  function StartOf(hs: seq<nat>, j: nat): nat
    requires j <= |hs|
    decreases j
  {
    if j == 0 then 0 else Pow2(hs[0]) + StartOf(hs[1..], j - 1)
  }

  lemma {:induction false} StartOfNext(hs: seq<nat>, j: nat)
    requires j < |hs|
    ensures StartOf(hs, j + 1) == StartOf(hs, j) + Pow2(hs[j])
    decreases j
  {
    if j > 0 {
      StartOfNext(hs[1..], j - 1);
    } else {
      assert StartOf(hs, 1) == Pow2(hs[0]) + StartOf(hs[1..], 0);
    }
  }

  lemma {:induction false} StartOfPrefix(hs: seq<nat>, n: nat, j: nat)
    requires j <= n <= |hs|
    ensures StartOf(hs[..n], j) == StartOf(hs, j)
    decreases j
  {
    if j > 0 {
      assert hs[..n][1..] == hs[1..][..n - 1];
      StartOfPrefix(hs[1..], n - 1, j - 1);
    }
  }

  lemma {:induction false} ChainStarts(ms: seq<Mountain>, j: nat)
    requires Chain(ms) && j <= |ms|
    ensures j < |ms| ==> ms[j].start == StartOf(HeightsOf(ms), j)
    ensures LeafEnd(ms) == StartOf(HeightsOf(ms), |ms|)
    decreases |ms|
  {
    if ms != [] {
      var n := |ms| - 1;
      var init := ms[..n];
      var hs := HeightsOf(ms);
      assert HeightsOf(init) == hs[..n];
      ChainStarts(init, if j < n then j else n);
      StartOfPrefix(hs, n, if j < n then j else n);
      StartOfPrefix(hs, n, n);
      StartOfNext(hs, n);
    }
  }

  lemma {:induction false} DescendingSum(hs: seq<nat>, k: nat)
    requires Descending(hs) && (forall j :: 0 <= j < |hs| ==> hs[j] < k)
    ensures StartOf(hs, |hs|) < Pow2(k)
    decreases |hs|
  {
    if hs != [] {
      DescendingSum(hs[1..], hs[0]);
      Pow2Monotone(hs[0] + 1, k);
    }
  }

  /** Descending heights that cover `n` leaves are the heights of `n`. */
  lemma {:induction false} HeightsUnique(hs: seq<nat>)
    requires Descending(hs)
    ensures Heights(StartOf(hs, |hs|)) == hs
    decreases |hs|
  {
    hide FloorLog2;
    if hs != [] {
      var n := StartOf(hs, |hs|);
      DescendingSum(hs[1..], hs[0]);
      FloorLog2Unique(n, hs[0]);
      HeightsUnique(hs[1..]);
      assert hs == [hs[0]] + hs[1..];
    }
  }

  /** Peak `j` is the perfect tree over its stretch of leaves. */
  lemma {:induction false} MountainAt(leaves: seq<Hash>, j: nat)
    requires j < |Heights(|leaves|)|
    ensures var hs := Heights(|leaves|);
      && |Mountains(leaves)| == |hs|
      && StartOf(hs, j) + Pow2(hs[j]) <= |leaves|
      && Mountains(leaves)[j] == Perfect(leaves[StartOf(hs, j)..StartOf(hs, j) + Pow2(hs[j])], hs[j])
    decreases |leaves|
  {
    hide FloorLog2, Perfect, Pow2, Heights, Mountains;
    MountainCount(leaves);
    HeightsStepOrNone(|leaves|);
    MountainsStep(leaves);
    var hs := Heights(|leaves|);
    var p := Pow2(hs[0]);
    if j > 0 {
      var rest := leaves[p..];
      assert hs[1..] == Heights(|rest|);
      MountainAt(rest, j - 1);
      var s := StartOf(hs[1..], j - 1);
      assert rest[s..s + Pow2(hs[j])] == leaves[p + s..p + s + Pow2(hs[j])];
    }
  }

  /** `Locate` finds the mountain by index, height and start. */
  lemma {:induction false} LocateAt(n: nat, i: nat)
    requires i < n
    ensures var p := Locate(n, i); var hs := Heights(n);
      p.peak < |hs| && p.height == hs[p.peak] && p.start == StartOf(hs, p.peak)
    decreases n
  {
    hide FloorLog2, Pow2, Heights;
    var k := FloorLog2(n);
    HeightsStepOrNone(n);
    if i >= Pow2(k) {
      LocateAt(n - Pow2(k), i - Pow2(k));
      assert Heights(n)[1..] == Heights(n - Pow2(k));
    }
  }

  // ----- climbing

  /** Position of the ancestor of leaf `i` at height `j` in the tree of height `h` at `pos`. */
  function Ancestor(pos: int, h: nat, a: nat, i: nat, j: nat): int
    requires j <= h
    decreases h
  {
    if j == h then pos
    else if i < a + Pow2(h - 1) then Ancestor(pos - Pow2(h), h - 1, a, i, j)
    else Ancestor(pos - 1, h - 1, a + Pow2(h - 1), i, j)
  }

  /** The facts one turn of the climbing loop uses. */
  predicate Rung(nodes: Nodes, c: int, p: int, sibling: Hash) {
    && 0 <= c < p < |nodes|
    && nodes[c].parent == Some(p)
    && nodes[p].leftChild.Some? && nodes[p].rightChild.Some?
    && nodes[p].leftChild.value < |nodes| && nodes[p].rightChild.value < |nodes|
    && nodes[p].leftChild != nodes[p].rightChild
    && (|| (nodes[p].leftChild == Some(c) && nodes[nodes[p].rightChild.value].hash == sibling)
        || (nodes[p].rightChild == Some(c) && nodes[nodes[p].leftChild.value].hash == sibling))
  }

  lemma TopRung(nodes: Nodes, lp: seq<nat>, pos: int, h: nat, a: nat, i: nat)
    requires TreeAt(nodes, lp, pos, h, a) && a <= i < a + Pow2(h) && h > 0
    ensures Rung(nodes, Ancestor(pos, h, a, i, h - 1), pos,
                 Path(LeafHashes(nodes, lp)[a..a + Pow2(h)], h, i - a)[h - 1])
  {
    hide Perfect, LeafHashes;
    Halves(LeafHashes(nodes, lp), a, h);
    if i < a + Pow2(h - 1) {
      TreeHash(nodes, lp, pos - 1, h - 1, a + Pow2(h - 1));
    } else {
      TreeHash(nodes, lp, pos - Pow2(h), h - 1, a);
    }
  }

  /** Below the top, a path is the path of the half that holds the leaf. */
  lemma LowerPath(c: seq<Hash>, h: nat, a: nat, i: nat, j: nat)
    requires h > 0 && a + Pow2(h) <= |c| && a <= i < a + Pow2(h) && j < h - 1
    ensures var half := Pow2(h - 1);
      Path(c[a..a + Pow2(h)], h, i - a)[j] ==
      if i < a + half then Path(c[a..a + half], h - 1, i - a)[j]
      else Path(c[a + half..a + half + half], h - 1, i - (a + half))[j]
  {
    hide Perfect;
    Halves(c, a, h);
  }

  /** From height `j` to `j + 1`: the links agree and the sibling is the path's. */
  lemma {:induction false} ClimbRung(nodes: Nodes, lp: seq<nat>, pos: int, h: nat, a: nat, i: nat, j: nat)
    requires TreeAt(nodes, lp, pos, h, a) && a <= i < a + Pow2(h) && j < h
    ensures Rung(nodes, Ancestor(pos, h, a, i, j), Ancestor(pos, h, a, i, j + 1),
                 Path(LeafHashes(nodes, lp)[a..a + Pow2(h)], h, i - a)[j])
    decreases h
  {
    hide Rung, LeafHashes, Path;
    if j + 1 == h {
      TopRung(nodes, lp, pos, h, a, i);
    } else {
      LowerPath(LeafHashes(nodes, lp), h, a, i, j);
      if i < a + Pow2(h - 1) {
        ClimbRung(nodes, lp, pos - Pow2(h), h - 1, a, i, j);
      } else {
        ClimbRung(nodes, lp, pos - 1, h - 1, a + Pow2(h - 1), i, j);
      }
    }
  }

  lemma {:induction false} LeafIsAncestor(nodes: Nodes, lp: seq<nat>, pos: int, h: nat, a: nat, i: nat)
    requires TreeAt(nodes, lp, pos, h, a) && a <= i < a + Pow2(h)
    ensures lp[i] == Ancestor(pos, h, a, i, 0)
    decreases h
  {
    if h > 0 {
      if i < a + Pow2(h - 1) {
        LeafIsAncestor(nodes, lp, pos - Pow2(h), h - 1, a, i);
      } else {
        LeafIsAncestor(nodes, lp, pos - 1, h - 1, a + Pow2(h - 1), i);
      }
    }
  }
}
