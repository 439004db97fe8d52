/**
 Inclusion proofs (crates/merkle/src/proof.rs): the verifier that finds the mountain by powers of
 two and folds the sibling path by index bits, with its exact acceptance condition.
 */
module MerkleProof {
  import opened Prelude
  import opened MerkleSpec

  datatype MmrProof = MmrProof(leafIndex: u64, leafCount: u64, siblings: seq<Hash>, peaks: seq<Hash>)

  datatype ProofError =
    | EmptyTree
    | LeafIndexOutOfBounds(index: nat, count: nat)
    | PeakCountMismatch(expected: nat, actual: nat)
    | SiblingCountMismatch(expected: nat, actual: nat)
    | PeakMismatch(expectedPeak: Hash, computed: Hash, peakIndex: nat)
    | RootMismatch(expectedRoot: Hash, computed: Hash)

  // ----- the proof a tree should give

  /** Sibling hashes from leaf `i` up to the top of a perfect tree, bottom first. */
  function Path(leaves: seq<Hash>, h: nat, i: nat): (s: seq<Hash>)
    requires |leaves| == Pow2(h) && i < Pow2(h)
    ensures |s| == h
    decreases h
  {
    if h == 0 then []
    else
      var half := Pow2(h - 1);
      if i < half then Path(leaves[..half], h - 1, i) + [Perfect(leaves[half..], h - 1)]
      else Path(leaves[half..], h - 1, i - half) + [Perfect(leaves[..half], h - 1)]
  }

  /** The mountain that holds leaf `i` of `n`: its place among the peaks, its height and its first leaf. */
  datatype Place = Place(peak: nat, height: nat, start: nat)

  function Locate(n: nat, i: nat): (p: Place)
    requires i < n
    ensures p.start <= i < p.start + Pow2(p.height) <= n
    decreases n
  {
    var k := FloorLog2(n);
    if i < Pow2(k) then Place(0, k, 0)
    else
      var p := Locate(n - Pow2(k), i - Pow2(k));
      Place(p.peak + 1, p.height, p.start + Pow2(k))
  }

  function PathOf(leaves: seq<Hash>, i: nat): seq<Hash>
    requires i < |leaves|
  {
    var p := Locate(|leaves|, i);
    Path(leaves[p.start..p.start + Pow2(p.height)], p.height, i - p.start)
  }

  function ProofOf(leaves: seq<Hash>, i: nat): MmrProof
    requires i < |leaves| < U64_LIMIT
  {
    MmrProof(i, |leaves|, PathOf(leaves, i), Mountains(leaves))
  }

  /** The located mountain is the located peak. */
  lemma {:induction false} LocatedPeak(leaves: seq<Hash>, i: nat)
    requires i < |leaves|
    ensures var p := Locate(|leaves|, i);
      p.peak < |Mountains(leaves)| &&
      Mountains(leaves)[p.peak] == Perfect(leaves[p.start..p.start + Pow2(p.height)], p.height)
    decreases |leaves|
  {
    hide FloorLog2, Perfect, Pow2, Mountains;
    var k := FloorLog2(|leaves|);
    var size := Pow2(k);
    MountainsStep(leaves);
    if i >= size {
      var rest := leaves[size..];
      LocatedPeak(rest, i - size);
      var p := Locate(|rest|, i - size);
      var q := Locate(|leaves|, i);
      assert q == Place(p.peak + 1, p.height, p.start + size);
      assert rest[p.start..p.start + Pow2(p.height)] == leaves[q.start..q.start + Pow2(q.height)];
    }
  }

  // ----- what the verifier computes

  /** Fold a path: bit `j` of the index says on which side the sibling of height `j` stands. */
  function Climb(curr: Hash, siblings: seq<Hash>, index: nat): Hash
    decreases |siblings|
  {
    if siblings == [] then curr
    else Climb(if index % 2 == 1 then Node(siblings[0], curr) else Node(curr, siblings[0]), siblings[1..], index / 2)
  }

  function Verify(proof: MmrProof, root: Hash, leaf: Hash): Result<(), ProofError> {
    if proof.leafCount == 0 then Err(EmptyTree)
    else if proof.leafIndex >= proof.leafCount then Err(LeafIndexOutOfBounds(proof.leafIndex, proof.leafCount))
    else if |proof.peaks| != PopCount(proof.leafCount) then
      Err(PeakCountMismatch(PopCount(proof.leafCount), |proof.peaks|))
    else
      var p := Locate(proof.leafCount, proof.leafIndex);
      if |proof.siblings| != p.height then Err(SiblingCountMismatch(p.height, |proof.siblings|))
      else
        var curr := Climb(leaf, proof.siblings, proof.leafIndex - p.start);
        if p.peak >= |proof.peaks| then Err(PeakMismatch(Zero, curr, p.peak))
        else if curr != proof.peaks[p.peak] then Err(PeakMismatch(proof.peaks[p.peak], curr, p.peak))
        else if BagPeaks(proof.peaks) != root then Err(RootMismatch(root, BagPeaks(proof.peaks)))
        else Ok(())
  }

  // ----- folding a path

  lemma {:induction false} ClimbSnoc(curr: Hash, s: seq<Hash>, t: Hash, index: nat)
    ensures Climb(curr, s + [t], index)
         == (var c := Climb(curr, s, index); if Bit(index, |s|) == 1 then Node(t, c) else Node(c, t))
    decreases |s|
  {
    if s == [] {
      assert s + [t] == [t];
      assert [t][1..] == [];
    } else {
      assert (s + [t])[0] == s[0] && (s + [t])[1..] == s[1..] + [t];
      ClimbSnoc(if index % 2 == 1 then Node(s[0], curr) else Node(curr, s[0]), s[1..], t, index / 2);
    }
  }

  /** Only the low `|s|` bits of the index matter. */
  lemma {:induction false} ClimbLowBits(curr: Hash, s: seq<Hash>, index: nat)
    ensures Climb(curr, s, index + Pow2(|s|)) == Climb(curr, s, index)
    decreases |s|
  {
    if s != [] {
      var p := Pow2(|s| - 1);
      assert (index + 2 * p) % 2 == index % 2 && (index + 2 * p) / 2 == index / 2 + p;
      ClimbLowBits(if index % 2 == 1 then Node(s[0], curr) else Node(curr, s[0]), s[1..], index / 2);
    }
  }

  lemma ClimbNothing(leaves: seq<Hash>, i: nat, leaf: Hash, s: seq<Hash>)
    requires |leaves| == Pow2(0) && i < Pow2(0) && |s| == 0
    ensures Climb(leaf, s, i) == leaf && Perfect(leaves, 0) == leaves[i] && Path(leaves, 0, i) == s
  {
  }

  /** A tree and a path, one level down. */
  lemma OneLevelDown(leaves: seq<Hash>, h: nat, i: nat)
    requires h > 0 && |leaves| == Pow2(h) && i < Pow2(h)
    ensures var half := Pow2(h - 1);
      && Pow2(h) == half + half
      && Perfect(leaves, h) == Node(Perfect(leaves[..half], h - 1), Perfect(leaves[half..], h - 1))
      && (i < half ==> Path(leaves, h, i) == Path(leaves[..half], h - 1, i) + [Perfect(leaves[half..], h - 1)])
      && (i >= half ==> Path(leaves, h, i) == Path(leaves[half..], h - 1, i - half) + [Perfect(leaves[..half], h - 1)])
  {
  }

  /** Over a perfect tree a fold reaches the top exactly for the right leaf and the right path. */
  lemma {:induction false} ClimbIsExact(leaves: seq<Hash>, h: nat, i: nat, leaf: Hash, s: seq<Hash>)
    requires |leaves| == Pow2(h) && i < Pow2(h) && |s| == h
    ensures Climb(leaf, s, i) == Perfect(leaves, h) <==> leaf == leaves[i] && s == Path(leaves, h, i)
    decreases h
  {
    hide Climb, Bit, Pow2, Perfect, Path;
    if h == 0 {
      ClimbNothing(leaves, i, leaf, s);
      return;
    }
    var half := Pow2(h - 1);
    var low, top := s[..h - 1], s[h - 1];
    OneLevelDown(leaves, h, i);
    assert s == low + [top];
    ClimbSnoc(leaf, low, top, i);
    if i < half {
      BitBound(i, h - 1);
      ClimbIsExact(leaves[..half], h - 1, i, leaf, low);
      SnocInjective(low, top, Path(leaves[..half], h - 1, i), Perfect(leaves[half..], h - 1));
    } else {
      BitTop(h - 1, i - half, h - 1);
      ClimbLowBits(leaf, low, i - half);
      ClimbIsExact(leaves[half..], h - 1, i - half, leaf, low);
      SnocInjective(low, top, Path(leaves[half..], h - 1, i - half), Perfect(leaves[..half], h - 1));
    }
  }

  lemma SnocInjective(s: seq<Hash>, t: Hash, u: seq<Hash>, v: Hash)
    requires |u| == |s|
    ensures s + [t] == u + [v] <==> s == u && t == v
  {
    if s + [t] == u + [v] {
      assert s == (s + [t])[..|s|] && u == (u + [v])[..|s|];
      assert t == (s + [t])[|s|] && v == (u + [v])[|s|];
    }
  }

  lemma {:induction false} BagIsInjective(a: seq<Hash>, b: seq<Hash>)
    requires |a| == |b| && BagPeaks(a) == BagPeaks(b)
    ensures a == b
    decreases |a|
  {
    if |a| > 1 {
      BagIsInjective(a[1..], b[1..]);
      assert a == [a[0]] + a[1..] && b == [b[0]] + b[1..];
    }
  }

  // ----- the theorems

  /** Soundness and completeness together. Against the root of `leaves`, a proof that declares their
      count is accepted exactly when it is the proof the tree gives for that index and the leaf is
      the one that was appended there. */
  lemma AcceptsExactly(leaves: seq<Hash>, proof: MmrProof, leaf: Hash)
    requires proof.leafCount == |leaves|
    ensures Verify(proof, Root(leaves), leaf).Ok? <==>
      && proof.leafIndex < |leaves|
      && leaf == leaves[proof.leafIndex]
      && proof == ProofOf(leaves, proof.leafIndex)
  {
    hide BagPeaks, Mountains, PopCount, Locate, Climb, Path, Pow2, Perfect;
    var i := proof.leafIndex;
    if i < |leaves| {
      var p := Locate(|leaves|, i);
      var under := leaves[p.start..p.start + Pow2(p.height)];
      MountainCount(leaves);
      LocatedPeak(leaves, i);
      if |proof.siblings| == p.height {
        ClimbIsExact(under, p.height, i - p.start, leaf, proof.siblings);
      }
      if |proof.peaks| == PopCount(|leaves|) && BagPeaks(proof.peaks) == Root(leaves) {
        BagIsInjective(proof.peaks, Mountains(leaves));
      }
    }
  }

  /** `sub` occurs in `h`. */
  predicate Occurs(sub: Hash, h: Hash) {
    sub == h || ((h.Node? || h.Peak?) && (Occurs(sub, h.left) || Occurs(sub, h.right)))
  }

  lemma {:induction false} OccursTransitive(a: Hash, b: Hash, c: Hash)
    requires Occurs(a, b) && Occurs(b, c)
    ensures Occurs(a, c)
    decreases c
  {
    if b != c {
      if Occurs(b, c.left) { OccursTransitive(a, b, c.left); } else { OccursTransitive(a, b, c.right); }
    }
  }

  lemma {:induction false} ClimbKeepsLeaf(curr: Hash, s: seq<Hash>, index: nat)
    ensures Occurs(curr, Climb(curr, s, index))
    decreases |s|
  {
    if s != [] {
      var next := if index % 2 == 1 then Node(s[0], curr) else Node(curr, s[0]);
      ClimbKeepsLeaf(next, s[1..], index / 2);
      assert Occurs(curr, next);
      OccursTransitive(curr, next, Climb(next, s[1..], index / 2));
    }
  }

  lemma {:induction false} BagKeepsPeaks(peaks: seq<Hash>, j: nat)
    requires j < |peaks|
    ensures Occurs(peaks[j], BagPeaks(peaks))
    decreases |peaks|
  {
    if |peaks| > 1 && j > 0 {
      BagKeepsPeaks(peaks[1..], j - 1);
    }
  }

  predicate AllLeaves(leaves: seq<Hash>) {
    forall i :: 0 <= i < |leaves| ==> leaves[i].Leaf?
  }

  lemma {:induction false} LeafOfPerfect(leaves: seq<Hash>, h: nat, leaf: Hash)
    requires |leaves| == Pow2(h) && AllLeaves(leaves)
    requires leaf.Leaf? && Occurs(leaf, Perfect(leaves, h))
    ensures leaf in leaves
    decreases h
  {
    if h > 0 {
      var half := Pow2(h - 1);
      if Occurs(leaf, Perfect(leaves[..half], h - 1)) {
        LeafOfPerfect(leaves[..half], h - 1, leaf);
      } else {
        LeafOfPerfect(leaves[half..], h - 1, leaf);
      }
    }
  }

  lemma {:induction false} LeafOfRoot(leaves: seq<Hash>, leaf: Hash)
    requires AllLeaves(leaves) && leaf.Leaf? && Occurs(leaf, Root(leaves))
    ensures leaf in leaves
    decreases |leaves|
  {
    if leaves != [] {
      hide FloorLog2, Perfect;
      var k := FloorLog2(|leaves|);
      var p := Pow2(k);
      assert Mountains(leaves)[1..] == Mountains(leaves[p..]);
      if Occurs(leaf, Perfect(leaves[..p], k)) {
        LeafOfPerfect(leaves[..p], k, leaf);
      } else {
        LeafOfRoot(leaves[p..], leaf);
      }
    }
  }

  /** Whatever leaf count a proof declares, if it is accepted for a hashed leaf against the root of
      a tree of hashed leaves, then that leaf was appended. */
  lemma AcceptedLeafWasAppended(leaves: seq<Hash>, proof: MmrProof, leaf: Hash)
    requires AllLeaves(leaves) && leaf.Leaf?
    requires Verify(proof, Root(leaves), leaf).Ok?
    ensures leaf in leaves
  {
    var p := Locate(proof.leafCount, proof.leafIndex);
    var top := proof.peaks[p.peak];
    ClimbKeepsLeaf(leaf, proof.siblings, proof.leafIndex - p.start);
    BagKeepsPeaks(proof.peaks, p.peak);
    OccursTransitive(leaf, top, BagPeaks(proof.peaks));
    LeafOfRoot(leaves, leaf);
  }

  // ----- the verifier's loops

  /** `leading_zeros` of a non-zero 64-bit word. */
  function LeadingZeros(x: u64): nat
    requires x > 0
  {
    Log2Of64(x);
    63 - FloorLog2(x)
  }

  lemma Pow2Plus8(n: nat)
    ensures Pow2(n + 8) == 256 * Pow2(n)
  {
    assert Pow2(n + 2) == 2 * Pow2(n + 1) == 4 * Pow2(n);
    assert Pow2(n + 4) == 2 * Pow2(n + 3) == 4 * Pow2(n + 2);
    assert Pow2(n + 6) == 2 * Pow2(n + 5) == 4 * Pow2(n + 4);
    assert Pow2(n + 8) == 2 * Pow2(n + 7) == 4 * Pow2(n + 6);
  }

  lemma Pow2Of64()
    ensures Pow2(64) == U64_LIMIT
  {
    Pow2Plus8(0); Pow2Plus8(8); Pow2Plus8(16); Pow2Plus8(24);
    Pow2Plus8(32); Pow2Plus8(40); Pow2Plus8(48); Pow2Plus8(56);
    hide Pow2;
    assert Pow2(0) == 1 by { Pow2Zero(); }
  }

  lemma Pow2Zero()
    ensures Pow2(0) == 1
  {
  }

  lemma Log2Of64(x: u64)
    requires x > 0
    ensures FloorLog2(x) <= 63
  {
    hide Pow2, FloorLog2;
    if FloorLog2(x) > 63 {
      Pow2Monotone(64, FloorLog2(x));
      Pow2Of64();
    }
  }

  /** Decompose the leaf count into powers of two until the leaf's mountain is found. */
  method FindMountain(leafCount: u64, leafIndex: u64) returns (p: Place)
    requires leafIndex < leafCount
    ensures p == Locate(leafCount, leafIndex)
  {
    hide Pow2, FloorLog2;
    var rem, offset, current := leafCount, 0, 0;
    while rem > 0
      invariant 0 <= rem && 0 <= offset <= leafIndex && 0 <= current && offset + rem == leafCount
      invariant leafIndex - offset < rem
      invariant Locate(leafCount, leafIndex)
        == (var q := Locate(rem, leafIndex - offset); Place(q.peak + current, q.height, q.start + offset))
      decreases rem
    {
      var power := 63 - LeadingZeros(rem);
      var size := Pow2(power);
      if leafIndex >= offset && leafIndex < offset + size {
        return Place(current, power, offset);
      }
      offset := offset + size;
      rem := rem - size;
      current := current + 1;
    }
    assert false;
  }

  /** Fold the siblings, looking at one more bit of the local index each time. */
  method FoldPath(leaf: Hash, siblings: seq<Hash>, localIndex: nat) returns (curr: Hash)
    ensures curr == Climb(leaf, siblings, localIndex)
  {
    hide Pow2;
    curr := leaf;
    assert siblings[0..] == siblings;
    Pow2Zero();
    for h := 0 to |siblings|
      invariant Climb(curr, siblings[h..], localIndex / Pow2(h)) == Climb(leaf, siblings, localIndex)
    {
      assert siblings[h..][0] == siblings[h] && siblings[h..][1..] == siblings[h + 1..];
      NextQuotient(localIndex, h);
      var isRightChild := (localIndex / Pow2(h)) % 2 == 1;
      if isRightChild {
        curr := Node(siblings[h], curr);
      } else {
        curr := Node(curr, siblings[h]);
      }
    }
  }

  lemma NextQuotient(x: nat, h: nat)
    ensures x / Pow2(h + 1) == x / Pow2(h) / 2
  {
    HalveQuotient(x, Pow2(h));
  }

  lemma HalveQuotient(x: nat, p: nat)
    requires p > 0
    ensures x / (2 * p) == (x / p) / 2
  {
    var q := x / p;
    var r := x % p;
    var b := q % 2;
    assert x == p * q + r;
    assert q == 2 * (q / 2) + b;
    assert x == (2 * p) * (q / 2) + (p * b + r) by {
      assert p * q == p * (2 * (q / 2)) + p * b;
    }
    assert 0 <= p * b + r < 2 * p;
    QuotientUnique(x, 2 * p, q / 2, p * b + r);
  }

  lemma QuotientUnique(x: nat, d: nat, q: nat, r: nat)
    requires d > 0 && r < d && x == d * q + r
    ensures x / d == q
  {
    var p := x / d;
    assert x == d * p + x % d;
    assert d * (p - q) == r - x % d;
    MultipleInRange(d, p - q, r - x % d);
  }

  lemma MultipleInRange(d: nat, k: int, m: int)
    requires d * k == m && 0 - d < m < d
    ensures k == 0
  {
  }

  /** `bag_peaks` as a loop from the right. */
  method BagPeaksLoop(peaks: seq<Hash>) returns (acc: Hash)
    ensures acc == BagPeaks(peaks)
  {
    if peaks == [] {
      return Zero;
    }
    acc := peaks[|peaks| - 1];
    var i := |peaks| - 1;
    assert peaks[i..] == [peaks[i]];
    while i > 0
      invariant 0 <= i < |peaks| && acc == BagPeaks(peaks[i..])
    {
      i := i - 1;
      assert peaks[i..][1..] == peaks[i + 1..];
      acc := Peak(peaks[i], acc);
    }
    assert peaks[0..] == peaks;
  }

  /** `MmrProof::verify`. */
  method VerifyProof(proof: MmrProof, root: Hash, leaf: Hash) returns (r: Result<(), ProofError>)
    ensures r == Verify(proof, root, leaf)
  {
    hide Climb, BagPeaks, Locate, PopCount;
    if proof.leafCount == 0 {
      return Err(EmptyTree);
    }
    if proof.leafIndex >= proof.leafCount {
      return Err(LeafIndexOutOfBounds(proof.leafIndex, proof.leafCount));
    }
    var expectedPeaks := PopCount(proof.leafCount);
    if |proof.peaks| != expectedPeaks {
      return Err(PeakCountMismatch(expectedPeaks, |proof.peaks|));
    }
    var p := FindMountain(proof.leafCount, proof.leafIndex);
    if |proof.siblings| != p.height {
      return Err(SiblingCountMismatch(p.height, |proof.siblings|));
    }
    var curr := FoldPath(leaf, proof.siblings, proof.leafIndex - p.start);
    if p.peak >= |proof.peaks| {
      return Err(PeakMismatch(Zero, curr, p.peak));
    }
    if curr != proof.peaks[p.peak] {
      return Err(PeakMismatch(proof.peaks[p.peak], curr, p.peak));
    }
    var computed := BagPeaksLoop(proof.peaks);
    if computed != root {
      return Err(RootMismatch(root, computed));
    }
    return Ok(());
  }
}
