/**
 The Merkle mountain range as the mutable structure the source implements
 (crates/merkle/src/mmr.rs): an array of linked nodes, merged on append, climbed for proofs.
 */
module MerkleMountain {
  import opened Prelude
  import opened MerkleSpec
  import opened MerkleProof
  import opened MerkleForest

  datatype MmrError = LeafOutOfBounds(index: nat, count: nat) | NodeOutOfBounds | CorruptedTree

  /** The parent node of two trees that now end the array. */
  function ParentOf(nodes: Nodes, l: nat, r: nat): MmrNode
    requires l < |nodes| && r < |nodes|
  {
    MmrNode(Node(nodes[l].hash, nodes[r].hash), nodes[r].height + 1, Some(l), Some(r), None)
  }

  /** The node array after pushing the parent and linking its children to it. */
  function Linked(nodes: Nodes, l: nat, r: nat): Nodes
    requires l < |nodes| && r < |nodes| && l != r
  {
    var p := |nodes|;
    (nodes + [ParentOf(nodes, l, r)])[l := nodes[l].(parent := Some(p))][r := nodes[r].(parent := Some(p))]
  }

  lemma LinkedAt(nodes: Nodes, l: nat, r: nat)
    requires l < |nodes| && r < |nodes| && l != r
    ensures var nodes' := Linked(nodes, l, r);
      && |nodes'| == |nodes| + 1
      && (forall x :: 0 <= x < |nodes| && x != l && x != r ==> nodes'[x] == nodes[x])
      && nodes'[l] == nodes[l].(parent := Some(|nodes|)) && nodes'[r] == nodes[r].(parent := Some(|nodes|))
      && nodes'[|nodes|] == ParentOf(nodes, l, r)
  {
  }

  /** Linking changes no hash, so the leaves read as before. */
  lemma LinkedKeepsLeaves(nodes: Nodes, lp: seq<nat>, l: nat, r: nat)
    requires l < |nodes| && r < |nodes| && l != r
    requires forall i :: 0 <= i < |lp| ==> lp[i] < |nodes|
    ensures LeafHashes(Linked(nodes, l, r), lp) == LeafHashes(nodes, lp)
  {
  }

  /** Two neighbouring mountains of equal height become one, one step higher. */
  lemma MergeTwo(nodes: Nodes, lp: seq<nat>, ms: seq<Mountain>, last: Mountain, cur: Mountain)
    requires Chain(ms + [last] + [cur]) && Standing(nodes, lp, ms + [last] + [cur])
    requires NodeEnd(ms + [last] + [cur]) == |nodes| && last.height == cur.height
    ensures last.pos < cur.pos < |nodes|
    ensures var parent := Mountain(|nodes|, cur.height + 1, last.start);
      && Chain(ms + [parent]) && Standing(Linked(nodes, last.pos, cur.pos), lp, ms + [parent])
      && LeafEnd(ms + [parent]) == LeafEnd(ms + [last] + [cur])
  {
    hide TreeAt, Pow2, Linked;
    var all := ms + [last] + [cur];
    var parent := Mountain(|nodes|, cur.height + 1, last.start);
    assert all[..|all| - 1] == ms + [last];
    assert (ms + [last])[..|ms|] == ms;
    assert (ms + [parent])[..|ms|] == ms;
    Pow2Step(cur.height);
    Pow2Step(cur.height + 1);
    assert StandsAt(nodes, lp, all[|ms|]) && StandsAt(nodes, lp, all[|ms| + 1]);
    PeakHeight(nodes, lp, all, |ms|);
    LinkedAt(nodes, last.pos, cur.pos);
    MergedTree(nodes, lp, last, cur);
    OldOnesStand(nodes, Linked(nodes, last.pos, cur.pos), lp, ms, all);
  }

  /** The mountains in front still stand when nothing changed in their nodes. */
  lemma OldOnesStand(nodes: Nodes, nodes': Nodes, lp: seq<nat>, ms: seq<Mountain>, all: seq<Mountain>)
    requires Chain(ms) && Standing(nodes, lp, all) && ms <= all && NodeEnd(ms) <= |nodes| <= |nodes'|
    requires forall x :: 0 <= x < NodeEnd(ms) ==> nodes'[x] == nodes[x]
    ensures Standing(nodes', lp, ms)
  {
    hide StandsAt, Chain;
    forall j | 0 <= j < |ms| ensures StandsAt(nodes, lp, ms[j]) {
      assert all[j] == ms[j];
    }
    assert nodes'[..NodeEnd(ms)] == nodes[..NodeEnd(ms)];
    StandingFrame(nodes, nodes', lp, lp, ms);
  }

  lemma MergedTree(nodes: Nodes, lp: seq<nat>, last: Mountain, cur: Mountain)
    requires StandsAt(nodes, lp, last) && StandsAt(nodes, lp, cur) && last.height == cur.height
    requires cur.start == last.start + Pow2(last.height)
    requires cur.pos + 1 == |nodes| && last.pos + Pow2(cur.height + 1) == |nodes|
    ensures StandsAt(Linked(nodes, last.pos, cur.pos), lp, Mountain(|nodes|, cur.height + 1, last.start))
  {
    hide TreeAt, Pow2, Linked;
    TreeBounds(nodes, lp, last.pos, last.height, last.start);
    TreeBounds(nodes, lp, cur.pos, cur.height, cur.start);
    LinkedAt(nodes, last.pos, cur.pos);
    BothKept(nodes, Linked(nodes, last.pos, cur.pos), lp, last, cur);
    JoinTrees(Linked(nodes, last.pos, cur.pos), lp, last.pos, |nodes|, cur.height + 1, last.start);
  }

  lemma BothKept(nodes: Nodes, nodes': Nodes, lp: seq<nat>, last: Mountain, cur: Mountain)
    requires TreeAt(nodes, lp, last.pos, last.height, last.start) && TreeAt(nodes, lp, cur.pos, cur.height, cur.start)
    requires last.height == cur.height && last.pos < cur.pos - (Pow2(cur.height + 1) - 2) && |nodes'| >= |nodes|
    requires forall x :: 0 <= x < |nodes| && x != last.pos && x != cur.pos ==> nodes'[x] == nodes[x]
    requires SameButParent(nodes[last.pos], nodes'[last.pos]) && SameButParent(nodes[cur.pos], nodes'[cur.pos])
    ensures TreeAt(nodes', lp, last.pos, last.height, last.start) && TreeAt(nodes', lp, cur.pos, cur.height, cur.start)
  {
    hide TreeAt, Pow2, SameButParent;
    TreeBounds(nodes, lp, last.pos, last.height, last.start);
    TreeBounds(nodes, lp, cur.pos, cur.height, cur.start);
    TreeFrame(nodes, nodes', lp, lp, last.pos, last.height, last.start);
    TreeFrame(nodes, nodes', lp, lp, cur.pos, cur.height, cur.start);
  }

  lemma TreeBounds(nodes: Nodes, lp: seq<nat>, pos: int, h: nat, a: nat)
    requires TreeAt(nodes, lp, pos, h, a)
    ensures Pow2(h + 1) - 2 <= pos < |nodes| && a + Pow2(h) <= |lp| && nodes[pos].height == h
    ensures Pow2(h + 1) == 2 * Pow2(h)
  {
  }

  lemma JoinTrees(nodes: Nodes, lp: seq<nat>, l: nat, p: nat, h: nat, a: nat)
    requires h > 0 && 0 < p < |nodes| && l + Pow2(h) == p
    requires TreeAt(nodes, lp, l, h - 1, a) && TreeAt(nodes, lp, p - 1, h - 1, a + Pow2(h - 1))
    requires nodes[p] == MmrNode(Node(nodes[l].hash, nodes[p - 1].hash), h, Some(l), Some(p - 1), nodes[p].parent)
    requires nodes[l].parent == Some(p) && nodes[p - 1].parent == Some(p)
    ensures TreeAt(nodes, lp, p, h, a)
  {
  }

  /** Mountains of descending height, and one more behind them that is not higher than the last. */
  ghost predicate Growing(nodes: Nodes, lp: seq<nat>, ms: seq<Mountain>, m: Mountain) {
    && Chain(ms + [m]) && Standing(nodes, lp, ms + [m])
    && LeafEnd(ms + [m]) == |lp| && NodeEnd(ms + [m]) == |nodes|
    && Descending(HeightsOf(ms)) && (ms != [] ==> m.height <= ms[|ms| - 1].height)
    && (forall i :: 0 <= i < |lp| ==> lp[i] < |nodes|)
  }

  /** The mountain that two neighbours of equal height become. */
  function Merged(last: Mountain, cur: Mountain, pos: nat): Mountain {
    Mountain(pos, cur.height + 1, last.start)
  }

  /** A new leaf is a mountain of its own behind the others. */
  lemma LeafGrows(nodes: Nodes, lp: seq<nat>, ms: seq<Mountain>, leaf: Hash)
    requires Chain(ms) && Standing(nodes, lp, ms) && Descending(HeightsOf(ms))
    requires LeafEnd(ms) == |lp| && NodeEnd(ms) == |nodes| && (forall i :: 0 <= i < |lp| ==> lp[i] < |nodes|)
    ensures Growing(nodes + [MmrNode(leaf, 0, None, None, None)], lp + [|nodes|], ms, Mountain(|nodes|, 0, |lp|))
  {
    hide HeightsOf, Descending;
    var nodes', lp', m := nodes + [MmrNode(leaf, 0, None, None, None)], lp + [|nodes|], Mountain(|nodes|, 0, |lp|);
    assert (ms + [m])[..|ms|] == ms;
    assert nodes'[..NodeEnd(ms)] == nodes[..NodeEnd(ms)];
    StandingFrame(nodes, nodes', lp, lp', ms);
    assert Pow2(1) == 2;
    assert StandsAt(nodes', lp', m);
    hide StandsAt;
    assert Standing(nodes', lp', ms + [m]);
  }

  lemma LeavesGrow(nodes: Nodes, lp: seq<nat>, leaf: Hash)
    requires forall i :: 0 <= i < |lp| ==> lp[i] < |nodes|
    ensures LeafHashes(nodes + [MmrNode(leaf, 0, None, None, None)], lp + [|nodes|]) == LeafHashes(nodes, lp) + [leaf]
  {
  }

  /** The last two mountains stand at two different nodes, which know their heights. */
  lemma PeakAt(nodes: Nodes, lp: seq<nat>, ms: seq<Mountain>, m: Mountain)
    requires Growing(nodes, lp, ms, m) && ms != []
    ensures var last := ms[|ms| - 1];
      && last.pos < m.pos < |nodes| && nodes[last.pos].height == last.height && nodes[m.pos].height == m.height
      && m.height <= last.height
  {
    hide TreeAt, Pow2;
    var all := ms + [m];
    PeakHeight(nodes, lp, all, |ms| - 1);
    PeakHeight(nodes, lp, all, |ms|);
    assert all[..|ms|] == ms;
    Pow2Step(m.height);
  }

  /** Joining the last two mountains keeps everything. */
  lemma Merging(nodes: Nodes, lp: seq<nat>, ms: seq<Mountain>, m: Mountain)
    requires Growing(nodes, lp, ms, m) && ms != [] && ms[|ms| - 1].height == m.height
    ensures var init, last := ms[..|ms| - 1], ms[|ms| - 1];
      && last.pos < m.pos < |nodes|
      && Growing(Linked(nodes, last.pos, m.pos), lp, init, Merged(last, m, |nodes|))
      && LeafHashes(Linked(nodes, last.pos, m.pos), lp) == LeafHashes(nodes, lp)
  {
    hide LeafHashes, Chain, StandsAt, Pow2, LeafEnd, NodeEnd, Linked;
    var init, last := ms[..|ms| - 1], ms[|ms| - 1];
    assert ms == init + [last];
    MergeTwo(nodes, lp, init, last, m);
    LinkedAt(nodes, last.pos, m.pos);
    LinkedKeepsLeaves(nodes, lp, last.pos, m.pos);
    MergedEnd(init, |nodes|, m.height + 1, last.start);
    assert HeightsOf(init) == HeightsOf(ms)[..|init|];
    assert init != [] ==> HeightsOf(ms)[|init| - 1] > HeightsOf(ms)[|init|];
  }

  /** A growing range whose last mountain is strictly lower is a range. */
  lemma Grown(nodes: Nodes, lp: seq<nat>, ms: seq<Mountain>, m: Mountain)
    requires Growing(nodes, lp, ms, m) && (ms != [] ==> m.height < ms[|ms| - 1].height)
    ensures Chain(ms + [m]) && Standing(nodes, lp, ms + [m]) && Descending(HeightsOf(ms + [m]))
    ensures LeafEnd(ms + [m]) == |lp| && NodeEnd(ms + [m]) == |nodes|
    ensures forall i :: 0 <= i < |lp| ==> lp[i] < |nodes|
  {
    hide Chain, Standing, LeafEnd, NodeEnd;
    StrictlyBelow(ms, m);
  }

  class MerkleMountainRange {
    var nodes: Nodes
    var peaks: seq<nat>
    var leafPositions: seq<nat>
    /** The mountains behind `peaks`. */
    ghost var range: seq<Mountain>

    ghost predicate Valid()
      reads this
    {
      && Chain(range) && Standing(nodes, leafPositions, range)
      && Descending(HeightsOf(range))
      && LeafEnd(range) == |leafPositions| && NodeEnd(range) == |nodes|
      && |peaks| == |range| && (forall j :: 0 <= j < |peaks| ==> peaks[j] == range[j].pos)
      && (forall i :: 0 <= i < |leafPositions| ==> leafPositions[i] < |nodes|)
    }

    /** The leaf hashes appended so far. */
    function Leaves(): seq<Hash>
      reads this
    {
      LeafHashes(nodes, leafPositions)
    }

    constructor ()
      ensures Valid() && Leaves() == []
    {
      nodes := [];
      peaks := [];
      leafPositions := [];
      range := [];
    }

    /** Heights and starts of the mountains are those of the leaf count. */
    lemma RangeIsHeights()
      requires Valid()
      ensures HeightsOf(range) == Heights(|leafPositions|)
      ensures forall j :: 0 <= j < |range| ==> range[j].start == StartOf(Heights(|leafPositions|), j)
    {
      ChainStarts(range, |range|);
      HeightsUnique(HeightsOf(range));
      forall j | 0 <= j < |range| ensures range[j].start == StartOf(HeightsOf(range), j) {
        ChainStarts(range, j);
      }
    }

    /** Every node is a leaf or joins two: `2n - popcount(n)` nodes for `n` leaves. */
    lemma NodeCount()
      requires Valid()
      ensures |nodes| == 2 * |leafPositions| - PopCount(|leafPositions|)
    {
      NodeEndIs(range);
      RangeIsHeights();
      HeightsAreTheSetBits(|leafPositions|);
    }

    /** Peak `j` carries the hash of mountain `j` of the leaves. */
    lemma PeakHash(j: nat)
      requires Valid() && j < |peaks|
      ensures |peaks| == |Mountains(Leaves())| && peaks[j] < |nodes|
      ensures nodes[peaks[j]].hash == Mountains(Leaves())[j]
    {
      hide Perfect, Mountains, LeafHashes, Heights, TreeAt, Chain, Pow2, StartOf;
      assert StandsAt(nodes, leafPositions, range[j]);
      PeakHeight(nodes, leafPositions, range, j);
      TreeHash(nodes, leafPositions, range[j].pos, range[j].height, range[j].start);
      RangeIsHeights();
      assert range[j].height == HeightsOf(range)[j];
      MountainAt(Leaves(), j);
    }

    /** `peaks()`: the peak hashes, tallest mountain first. */
    method Peaks() returns (out: seq<Hash>)
      requires Valid()
      ensures out == Mountains(Leaves())
    {
      hide Perfect, Mountains, LeafHashes;
      out := [];
      MountainCount(Leaves());
      if |peaks| == 0 {
        RangeIsHeights();
      }
      for j := 0 to |peaks|
        invariant |out| == j <= |Mountains(Leaves())|
        invariant forall i :: 0 <= i < j ==> out[i] == Mountains(Leaves())[i]
      {
        PeakHash(j);
        if peaks[j] < |nodes| {
          out := out + [nodes[peaks[j]].hash];
        }
      }
      RangeIsHeights();
    }

    /** `root()`: the recursive split tree over everything appended so far. */
    method GetRoot() returns (h: Hash)
      requires Valid()
      ensures h == Root(Leaves()) == SplitRoot(Leaves())
    {
      var ps := Peaks();
      h := BagPeaksLoop(ps);
      RootIsSplitRoot(Leaves());
    }

    /** Push a leaf node as a mountain of its own. */
    method PushLeaf(leaf: Hash) returns (cur: nat, ghost m: Mountain)
      requires Valid()
      modifies this`nodes, this`leafPositions
      ensures cur == m.pos == |old(nodes)| && m.height == 0
      ensures Growing(nodes, leafPositions, range, m) && |leafPositions| == |old(leafPositions)| + 1
      ensures Leaves() == old(Leaves()) + [leaf]
    {
      hide Growing;
      cur := |nodes|;
      m := Mountain(cur, 0, |leafPositions|);
      LeafGrows(nodes, leafPositions, range, leaf);
      LeavesGrow(nodes, leafPositions, leaf);
      leafPositions := leafPositions + [cur];
      nodes := nodes + [MmrNode(leaf, 0, None, None, None)];
    }

    /** Push the parent of two peaks of one height and link them to it. */
    method JoinUnderParent(l: nat, r: nat, height: nat) returns (parent: nat)
      requires l < |nodes| && r < |nodes| && l != r && nodes[r].height == height
      modifies this`nodes
      ensures parent == |old(nodes)| && nodes == Linked(old(nodes), l, r)
    {
      var parentHash := Node(nodes[l].hash, nodes[r].hash);
      parent := |nodes|;
      nodes := nodes + [MmrNode(parentHash, height + 1, Some(l), Some(r), None)];
      nodes := nodes[l := nodes[l].(parent := Some(parent))];
      nodes := nodes[r := nodes[r].(parent := Some(parent))];
    }

    /** `append_leaf_hash`: push the leaf and merge mountains of equal height. */
    method AppendLeafHash(leaf: Hash) returns (index: nat)
      requires Valid()
      modifies this
      ensures Valid() && Leaves() == old(Leaves()) + [leaf]
      ensures index == |old(Leaves())|
    {
      hide LeafHashes, Growing, Linked, Chain, Standing, TreeAt, LeafEnd, NodeEnd, HeightsOf, Descending, Pow2;
      ghost var m;
      var current;
      current, m := PushLeaf(leaf);
      var currentHeight := 0;
      ghost var ms := range;
      while |peaks| > 0
        invariant Growing(nodes, leafPositions, ms, m) && m.pos == current && m.height == currentHeight
        invariant |peaks| == |ms| && (forall j :: 0 <= j < |peaks| ==> peaks[j] == ms[j].pos)
        invariant |leafPositions| == |old(leafPositions)| + 1
        invariant LeafHashes(nodes, leafPositions) == old(Leaves()) + [leaf]
        decreases |peaks|
      {
        var lastPeak := peaks[|peaks| - 1];
        PeakAt(nodes, leafPositions, ms, m);
        if nodes[lastPeak].height != currentHeight {
          break;
        }
        Merging(nodes, leafPositions, ms, m);
        peaks := peaks[..|peaks| - 1];
        var parent := JoinUnderParent(lastPeak, current, currentHeight);
        ms, m := ms[..|ms| - 1], Merged(ms[|ms| - 1], m, parent);
        current, currentHeight := parent, currentHeight + 1;
      }
      peaks := peaks + [current];
      range := ms + [m];
      Grown(nodes, leafPositions, ms, m);
      return |leafPositions| - 1;
    }

    /** `leaf_hash`. */
    method LeafHash(i: nat) returns (r: Result<Hash, MmrError>)
      requires Valid()
      ensures r == (if i < |Leaves()| then Ok(Leaves()[i]) else Err(LeafOutOfBounds(i, |Leaves()|)))
    {
      if i >= |leafPositions| {
        return Err(LeafOutOfBounds(i, |leafPositions|));
      }
      var pos := leafPositions[i];
      if pos >= |nodes| {
        return Err(NodeOutOfBounds);
      }
      return Ok(nodes[pos].hash);
    }

    /** Leaf `i` stands in the mountain `Locate` names. */
    lemma HomeOf(i: nat) returns (m: Mountain)
      requires Valid() && i < |leafPositions|
      ensures StandsAt(nodes, leafPositions, m)
      ensures var p := Locate(|leafPositions|, i); m.height == p.height && m.start == p.start
    {
      hide Locate, Heights;
      RangeIsHeights();
      LocateAt(|leafPositions|, i);
      var p := Locate(|leafPositions|, i);
      m := range[p.peak];
      assert HeightsOf(range)[p.peak] == m.height;
    }

    /** Climb from leaf `i` to its peak, collecting siblings. The links never turn out broken. */
    method CollectSiblings(i: nat) returns (r: Result<seq<Hash>, MmrError>)
      requires Valid() && i < |leafPositions|
      ensures r == Ok(PathOf(Leaves(), i))
    {
      hide LeafHashes, Locate, Path, Pow2;
      ghost var m := HomeOf(i);
      ghost var h, a := m.height, m.start;
      ghost var path := Path(Leaves()[a..a + Pow2(h)], h, i - a);
      ghost var j := 0;
      LeafIsAncestor(nodes, leafPositions, m.pos, h, a, i);
      var curr := leafPositions[i];
      var siblings: seq<Hash> := [];
      while curr < |nodes| && nodes[curr].parent.Some?
        invariant 0 <= j <= h && curr == Ancestor(m.pos, h, a, i, j) && curr < |nodes|
        invariant siblings == path[..j]
        decreases |nodes| - curr
      {
        if j == h {
          assert false;
        }
        ClimbRung(nodes, leafPositions, m.pos, h, a, i, j);
        var parentIdx := nodes[curr].parent.value;
        if parentIdx >= |nodes| {
          return Err(CorruptedTree);
        }
        var parent := nodes[parentIdx];
        var sibling := if parent.leftChild == Some(curr) then parent.rightChild
                       else if parent.rightChild == Some(curr) then parent.leftChild else None;
        if sibling.None? || sibling.value >= |nodes| {
          return Err(CorruptedTree);
        }
        siblings := siblings + [nodes[sibling.value].hash];
        assert path[..j + 1] == path[..j] + [path[j]];
        curr, j := parentIdx, j + 1;
      }
      if j < h {
        ClimbRung(nodes, leafPositions, m.pos, h, a, i, j);
        assert false;
      }
      assert path[..h] == path;
      return Ok(siblings);
    }

    /** `generate_proof`: never fails for an appended leaf, and the proof verifies. */
    method GenerateProof(i: u64) returns (r: Result<MmrProof, MmrError>)
      requires Valid() && |leafPositions| < U64_LIMIT
      ensures i >= |Leaves()| ==> r == Err(LeafOutOfBounds(i, |Leaves()|))
      ensures i < |Leaves()| ==> r == Ok(ProofOf(Leaves(), i))
      ensures r.Ok? ==> Verify(r.value, Root(Leaves()), Leaves()[i]).Ok?
      ensures r.Ok? ==> |r.value.siblings| == Locate(|Leaves()|, i).height
    {
      hide LeafHashes, Locate, Path, Verify, Mountains;
      if i >= |leafPositions| {
        return Err(LeafOutOfBounds(i, |leafPositions|));
      }
      var collected := CollectSiblings(i);
      var ps := Peaks();
      var proof := MmrProof(i, |leafPositions|, collected.value, ps);
      AcceptsExactly(Leaves(), proof, Leaves()[i]);
      return Ok(proof);
    }
  }

  lemma MergedEnd(init: seq<Mountain>, pos: nat, height: nat, start: nat)
    ensures NodeEnd(init + [Mountain(pos, height, start)]) == pos + 1
  {
  }

  lemma PeakHeight(nodes: Nodes, lp: seq<nat>, ms: seq<Mountain>, j: nat)
    requires Standing(nodes, lp, ms) && j < |ms|
    ensures ms[j].pos < |nodes| && nodes[ms[j].pos].height == ms[j].height
  {
    assert StandsAt(nodes, lp, ms[j]);
  }

  lemma StrictlyBelow(ms: seq<Mountain>, m: Mountain)
    requires Descending(HeightsOf(ms)) && (ms != [] ==> m.height < ms[|ms| - 1].height)
    ensures Descending(HeightsOf(ms + [m]))
  {
    var hs := HeightsOf(ms + [m]);
    forall i, j | 0 <= i < j < |hs| ensures hs[i] > hs[j] {
      assert forall k :: 0 <= k < |ms| ==> hs[k] == HeightsOf(ms)[k];
      if j == |ms| && i < |ms| - 1 {
        assert HeightsOf(ms)[i] > HeightsOf(ms)[|ms| - 1];
      }
    }
  }
}
