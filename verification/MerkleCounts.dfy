/**
 What a proof says when it declares another leaf count than the tree's: exactly which counts and
 indexes a root accepts, and which leaf each of them names.
 */
module MerkleCounts {
  import opened Prelude
  import opened MerkleSpec
  import opened MerkleProof
  import opened MerkleForest

  // ----- fewer peaks that bag to the same root

  predicate NoPeaks(ms: seq<Hash>) {
    forall i :: 0 <= i < |ms| ==> !ms[i].Peak?
  }

  /** The first `k - 1` mountains and the bag of the others. */
  function Merged(ms: seq<Hash>, k: nat): (ps: seq<Hash>)
    requires 1 <= k <= |ms|
    ensures |ps| == k
  {
    ms[..k - 1] + [BagPeaks(ms[k - 1..])]
  }

  /** Peaks bag to the root of some mountains exactly when they are the mountains, with some of the last ones merged. */
  lemma {:induction false} BagsAlikeIff(peaks: seq<Hash>, ms: seq<Hash>)
    requires NoPeaks(ms) && ms != [] && peaks != []
    ensures BagPeaks(peaks) == BagPeaks(ms) <==> |peaks| <= |ms| && peaks == Merged(ms, |peaks|)
    decreases |peaks|
  {
    if |peaks| == 1 {
      assert peaks == [peaks[0]] && ms[0..] == ms;
    } else if |ms| > 1 {
      BagsAlikeIff(peaks[1..], ms[1..]);
      if |peaks| <= |ms| {
        MergedStep(ms, |peaks|);
      }
      assert peaks == [peaks[0]] + peaks[1..];
    }
  }

  lemma MergedStep(ms: seq<Hash>, k: nat)
    requires 2 <= k <= |ms|
    ensures Merged(ms, k) == [ms[0]] + Merged(ms[1..], k - 1)
  {
    assert ms[1..][k - 2..] == ms[k - 1..] && ms[..k - 1] == [ms[0]] + ms[1..][..k - 2];
  }

  /** Where a merged peak list still holds a mountain, and where it holds a bag. */
  lemma MergedAt(ms: seq<Hash>, k: nat, j: nat)
    requires 1 <= k <= |ms| && j < k
    ensures j < k - 1 || k == |ms| ==> Merged(ms, k)[j] == ms[j]
    ensures j == k - 1 && k < |ms| ==> Merged(ms, k)[j].Peak?
  {
    if k == |ms| {
      assert ms[k - 1..] == [ms[k - 1]];
    }
  }

  // ----- a fold reaches only trees of its own height

  lemma ClimbShape(curr: Hash, s: seq<Hash>, index: nat)
    ensures s == [] ==> Climb(curr, s, index) == curr
    ensures s != [] ==> Climb(curr, s, index).Node?
  {
    if s != [] {
      assert s == s[..|s| - 1] + [s[|s| - 1]];
      ClimbSnoc(curr, s[..|s| - 1], s[|s| - 1], index);
    }
  }

  lemma {:induction false} ClimbHeight(leaves: seq<Hash>, h: nat, leaf: Hash, s: seq<Hash>, index: nat)
    requires |leaves| == Pow2(h) && AllLeaves(leaves) && leaf.Leaf? && Climb(leaf, s, index) == Perfect(leaves, h)
    ensures |s| == h
    decreases h
  {
    hide Climb;
    ClimbShape(leaf, s, index);
    if s != [] && h > 0 {
      var low, top, half := s[..|s| - 1], s[|s| - 1], Pow2(h - 1);
      assert s == low + [top];
      ClimbSnoc(leaf, low, top, index);
      if Bit(index, |low|) == 1 {
        ClimbHeight(leaves[half..], h - 1, leaf, low, index);
      } else {
        ClimbHeight(leaves[..half], h - 1, leaf, low, index);
      }
    }
  }

  // ----- which leaf a count and an index name

  lemma {:induction false} LocateInside(n: nat, p: nat, local: nat)
    requires p < |Heights(n)| && local < Pow2(Heights(n)[p])
    ensures var hs := Heights(n);
      StartOf(hs, p) + local < n && Locate(n, StartOf(hs, p) + local) == Place(p, hs[p], StartOf(hs, p))
    decreases n
  {
    hide FloorLog2, Pow2, Heights;
    HeightsStepOrNone(n);
    HeightsStep(n);
    var k := FloorLog2(n);
    if p > 0 {
      assert Heights(n)[1..] == Heights(n - Pow2(k));
      LocateInside(n - Pow2(k), p - 1, local);
    }
  }

  /** Count `m` and index `i` meet a tree of `n` leaves: the mountain they name has the same height in
      both, and is not merged away. */
  predicate Meets(n: nat, m: nat, i: nat)
    requires i < m
  {
    var p, hs, k := Locate(m, i), Heights(n), |Heights(m)|;
    && k <= |hs| && p.peak < |hs| && hs[p.peak] == p.height && (p.peak < k - 1 || k == |hs|)
  }

  /** The leaf of the tree that count `m` and index `i` name. */
  function Named(n: nat, m: nat, i: nat): (j: nat)
    requires i < m && Meets(n, m, i)
    ensures j < n
  {
    var p := Locate(m, i);
    LocateInside(n, p.peak, i - p.start);
    StartOf(Heights(n), p.peak) + (i - p.start)
  }

  lemma MountainsHaveNoPeak(leaves: seq<Hash>)
    requires AllLeaves(leaves)
    ensures NoPeaks(Mountains(leaves)) && |Mountains(leaves)| == |Heights(|leaves|)|
  {
    hide Mountains, Heights, PopCount;
    MountainCount(leaves);
    forall j | 0 <= j < |Mountains(leaves)| ensures !Mountains(leaves)[j].Peak? {
      MountainAt(leaves, j);
    }
  }

  /** The fold against one mountain, with the path of the leaf it names. */
  lemma FoldsToMountainIff(leaves: seq<Hash>, p: nat, local: nat, leaf: Hash, s: seq<Hash>)
    requires AllLeaves(leaves) && leaf.Leaf? && p < |Heights(|leaves|)| && |Mountains(leaves)| == |Heights(|leaves|)|
    requires local < Pow2(|s|)
    ensures var hs := Heights(|leaves|);
      Climb(leaf, s, local) == Mountains(leaves)[p] <==>
        && |s| == hs[p] && StartOf(hs, p) + local < |leaves|
        && leaf == leaves[StartOf(hs, p) + local] && s == PathOf(leaves, StartOf(hs, p) + local)
  {
    hide Climb, Mountains, Heights, Perfect, Path, Locate, Pow2, StartOf;
    var hs := Heights(|leaves|);
    MountainAt(leaves, p);
    var under := leaves[StartOf(hs, p)..StartOf(hs, p) + Pow2(hs[p])];
    assert AllLeaves(under);
    if Climb(leaf, s, local) == Mountains(leaves)[p] {
      ClimbHeight(under, hs[p], leaf, s, local);
    }
    if |s| == hs[p] {
      LocateInside(|leaves|, p, local);
      ClimbIsExact(under, hs[p], local, leaf, s);
    }
  }

  /** Acceptance at any declared count. For a hashed leaf and a tree of hashed leaves, a proof is
      accepted exactly when its count and index meet the tree, the leaf is the one they name, the
      siblings are that leaf's path and the peaks are the mountains, the last ones merged. */
  lemma AcceptsAnyCountIff(leaves: seq<Hash>, proof: MmrProof, leaf: Hash)
    requires AllLeaves(leaves) && leaf.Leaf?
    ensures Verify(proof, Root(leaves), leaf).Ok? <==>
      && proof.leafIndex < proof.leafCount && Meets(|leaves|, proof.leafCount, proof.leafIndex)
      && |Mountains(leaves)| >= PopCount(proof.leafCount) >= 1
      && leaf == leaves[Named(|leaves|, proof.leafCount, proof.leafIndex)]
      && proof.siblings == PathOf(leaves, Named(|leaves|, proof.leafCount, proof.leafIndex))
      && proof.peaks == Merged(Mountains(leaves), PopCount(proof.leafCount))
  {
    hide Climb, Mountains, Heights, Perfect, Path, Pow2, BagPeaks, PopCount, StartOf, PathOf, Locate, Merged;
    var m, i := proof.leafCount, proof.leafIndex;
    if i < m {
      var ms, p := Mountains(leaves), Locate(m, i);
      HeightsCount(m);
      LocateAt(m, i);
      MountainsHaveNoPeak(leaves);
      if |proof.peaks| == PopCount(m) && |proof.siblings| == p.height {
        if leaves == [] {
          EmptyRoot(leaves, proof.peaks, leaf, proof.siblings, i - p.start, p.peak);
        } else {
          NonEmptyMountains(leaves);
          BagsAlikeIff(proof.peaks, ms);
          if PopCount(m) <= |ms| {
            MergedAt(ms, PopCount(m), p.peak);
          }
          if p.peak < |ms| {
            FoldsToMountainIff(leaves, p.peak, i - p.start, leaf, proof.siblings);
          }
          ClimbShape(leaf, proof.siblings, i - p.start);
        }
      } else if Meets(|leaves|, m, i) {
        PathLength(leaves, Named(|leaves|, m, i));
        LocateInside(|leaves|, p.peak, i - p.start);
      }
    }
  }

  lemma PathLength(leaves: seq<Hash>, j: nat)
    requires j < |leaves|
    ensures |PathOf(leaves, j)| == Locate(|leaves|, j).height
  {
    hide Path, Locate;
  }

  lemma NonEmptyMountains(leaves: seq<Hash>)
    requires leaves != []
    ensures Mountains(leaves) != []
  {
    hide FloorLog2, Pow2, Perfect;
  }

  /** No leaf is accepted against the root of the empty tree. */
  lemma EmptyRoot(leaves: seq<Hash>, peaks: seq<Hash>, leaf: Hash, s: seq<Hash>, index: nat, j: nat)
    requires leaves == [] && leaf.Leaf? && j < |peaks|
    ensures Heights(|leaves|) == []
    ensures Climb(leaf, s, index) == peaks[j] ==> BagPeaks(peaks) != Root(leaves)
  {
    ClimbShape(leaf, s, index);
  }

  /** A count that is not the tree's can be accepted, and then the index may be wrong: of three leaves,
      the last is accepted as leaf 4 of 5. */
  lemma WrongIndexAccepted(a: Bytes, b: Bytes, c: Bytes)
    ensures var leaves := [Leaf(a), Leaf(b), Leaf(c)];
      && Verify(MmrProof(4, 5, [], Mountains(leaves)), Root(leaves), Leaf(c)).Ok?
      && !Verify(MmrProof(4, 3, [], Mountains(leaves)), Root(leaves), Leaf(c)).Ok?
  {
    hide Locate, Mountains, PopCount, BagPeaks;
    FourOfFive();
    LastOfThree(a, b, c);
    FivePeaks();
  }

  lemma FourOfFive()
    ensures Locate(5, 4) == Place(1, 0, 4)
  {
    hide FloorLog2;
    SmallLogs();
    assert Locate(1, 0) == Place(0, 0, 0);
  }

  lemma LastOfThree(a: Bytes, b: Bytes, c: Bytes)
    ensures var ms := Mountains([Leaf(a), Leaf(b), Leaf(c)]); |ms| == 2 && ms[1] == Leaf(c)
  {
    hide FloorLog2, Perfect, Mountains;
    var leaves := [Leaf(a), Leaf(b), Leaf(c)];
    SmallLogs();
    assert leaves[2..] == [Leaf(c)];
    MountainsStep(leaves);
    LastMountain(c);
  }

  lemma SmallLogs()
    ensures FloorLog2(5) == 2 && FloorLog2(3) == 1 && FloorLog2(1) == 0 && Pow2(2) == 4 && Pow2(1) == 2 && Pow2(0) == 1
  {
    hide FloorLog2;
    assert Pow2(3) == 8;
    FloorLog2Unique(5, 2);
    FloorLog2Unique(3, 1);
    FloorLog2Unique(1, 0);
  }

  lemma FivePeaks()
    ensures PopCount(5) == 2
  {
    assert PopCount(5) == 1 + PopCount(2) && PopCount(2) == PopCount(1) && PopCount(1) == 1 + PopCount(0);
  }

  lemma LastMountain(c: Bytes)
    ensures Mountains([Leaf(c)]) == [Leaf(c)]
  {
    hide FloorLog2, Mountains;
    SmallLogs();
    MountainsStep([Leaf(c)]);
    assert [Leaf(c)][1..] == [] && [Leaf(c)][..1] == [Leaf(c)];
    NoMountains();
  }
}
