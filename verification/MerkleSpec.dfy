/**
 Merkle mountain ranges as a function of their leaves (crates/merkle). Hashes are free terms:
 two hashes are equal only if they were built the same way, which is what collision freedom
 of the tagged SHA-256 calls means here.
 */
module MerkleSpec {
  import opened Prelude

  /** `Zero` is the empty root, `Leaf`, `Node` and `Peak` carry tags 0x00, 0x01 and 0x02, and
      `Other` is any 32-byte value that none of the three tagged functions produced. */
  datatype Hash =
    | Zero
    | Leaf(data: Bytes)
    | Node(left: Hash, right: Hash)
    | Peak(left: Hash, right: Hash)
    | Other(id: nat)

  // ----- powers of two and bits

  /** The exponent of the largest power of two that is at most `n`. */
  function FloorLog2(n: nat): (k: nat)
    requires n > 0
    ensures Pow2(k) <= n < Pow2(k + 1)
  {
    if n == 1 then 0 else 1 + FloorLog2(n / 2)
  }

  function PopCount(n: nat): nat {
    if n == 0 then 0 else n % 2 + PopCount(n / 2)
  }

  function Bit(n: nat, h: nat): nat {
    if h == 0 then n % 2 else Bit(n / 2, h - 1)
  }

  lemma {:induction false} Pow2Monotone(a: nat, b: nat)
    requires a <= b
    ensures Pow2(a) <= Pow2(b)
    decreases b
  {
    if a < b {
      Pow2Monotone(a, b - 1);
    }
  }

  lemma FloorLog2Unique(n: nat, k: nat)
    requires Pow2(k) <= n < Pow2(k + 1)
    ensures FloorLog2(n) == k
  {
    var f := FloorLog2(n);
    if f < k {
      Pow2Monotone(f + 1, k);
    } else if f > k {
      Pow2Monotone(k + 1, f);
    }
  }

  /** Heights of the mountains over `n` leaves, tallest first. */
  function Heights(n: nat): seq<nat> {
    if n == 0 then [] else [FloorLog2(n)] + Heights(n - Pow2(FloorLog2(n)))
  }

  lemma {:induction false} PopCountTop(k: nat, r: nat)
    requires r < Pow2(k)
    ensures PopCount(Pow2(k) + r) == 1 + PopCount(r)
    decreases k
  {
    if k > 0 {
      PopCountTop(k - 1, r / 2);
      assert (Pow2(k) + r) / 2 == Pow2(k - 1) + r / 2 && (Pow2(k) + r) % 2 == r % 2;
    }
  }

  lemma {:induction false} BitTop(k: nat, r: nat, h: nat)
    requires r < Pow2(k)
    ensures Bit(Pow2(k) + r, h) == (if h == k then 1 else Bit(r, h))
    decreases k
  {
    if k > 0 {
      assert (Pow2(k) + r) / 2 == Pow2(k - 1) + r / 2 && (Pow2(k) + r) % 2 == r % 2;
      if h > 0 {
        BitTop(k - 1, r / 2, h - 1);
      }
    } else if h > 0 {
      BitOfZero(h - 1);
    }
  }

  lemma {:induction false} BitOfZero(h: nat)
    ensures Bit(0, h) == 0
  {
    if h > 0 {
      BitOfZero(h - 1);
    }
  }

  lemma {:induction false} BitBound(r: nat, h: nat)
    requires r < Pow2(h)
    ensures Bit(r, h) == 0
    decreases h
  {
    if h > 0 {
      BitBound(r / 2, h - 1);
    }
  }

  predicate Descending(hs: seq<nat>) {
    forall i, j :: 0 <= i < j < |hs| ==> hs[i] > hs[j]
  }

  lemma Pow2Step(k: nat)
    ensures Pow2(k + 1) == 2 * Pow2(k)
  {
  }

  /** The tallest mountain takes more than half of the leaves. */
  lemma HeightsStep(n: nat)
    requires n > 0
    ensures var k := FloorLog2(n);
      n - Pow2(k) < Pow2(k) && Heights(n) == [k] + Heights(n - Pow2(k))
  {
    hide FloorLog2, Pow2;
    Pow2Step(FloorLog2(n));
  }

  lemma {:induction false} HeightsFit(n: nat, h: nat)
    requires h in Heights(n)
    ensures Pow2(h) <= n
    decreases n
  {
    hide FloorLog2, Pow2, Heights;
    HeightsStepOrNone(n);
    if h != FloorLog2(n) {
      HeightsFit(n - Pow2(FloorLog2(n)), h);
    }
  }

  lemma HeightsStepOrNone(n: nat)
    ensures n == 0 ==> Heights(n) == []
    ensures n > 0 ==> Heights(n) == [FloorLog2(n)] + Heights(n - Pow2(FloorLog2(n)))
  {
    hide FloorLog2, Pow2;
  }

  lemma {:induction false} HeightsDescend(n: nat)
    ensures Descending(Heights(n))
  {
    hide FloorLog2, Pow2, Heights;
    HeightsStepOrNone(n);
    if n > 0 {
      var k := FloorLog2(n);
      var rest := Heights(n - Pow2(k));
      HeightsStep(n);
      HeightsDescend(n - Pow2(k));
      forall j | 0 <= j < |rest| ensures rest[j] < k {
        HeightsFit(n - Pow2(k), rest[j]);
        if rest[j] >= k { Pow2Monotone(k, rest[j]); }
      }
    }
  }

  lemma {:induction false} HeightsCount(n: nat)
    ensures |Heights(n)| == PopCount(n)
  {
    hide FloorLog2, Pow2, Heights;
    HeightsStepOrNone(n);
    if n > 0 {
      var k := FloorLog2(n);
      HeightsStep(n);
      HeightsCount(n - Pow2(k));
      PopCountTop(k, n - Pow2(k));
    }
  }

  lemma {:induction false} HeightIsBit(n: nat, h: nat)
    ensures h in Heights(n) <==> Bit(n, h) == 1
    decreases n
  {
    hide FloorLog2, Pow2, Heights, Bit;
    HeightsStepOrNone(n);
    if n == 0 {
      BitOfZero(h);
    } else {
      var k := FloorLog2(n);
      HeightsStep(n);
      HeightIsBit(n - Pow2(k), h);
      BitTop(k, n - Pow2(k), h);
    }
  }

  /** The mountains' heights are exactly the set bits of the leaf count, in descending order. */
  lemma HeightsAreTheSetBits(n: nat)
    ensures Descending(Heights(n))
    ensures forall h :: h in Heights(n) <==> Bit(n, h) == 1
    ensures |Heights(n)| == PopCount(n)
  {
    hide Heights, Bit, PopCount;
    HeightsDescend(n);
    HeightsCount(n);
    forall h: nat ensures h in Heights(n) <==> Bit(n, h) == 1 { HeightIsBit(n, h); }
  }

  // ----- trees

  /** A perfect tree of height `h`. */
  function Perfect(leaves: seq<Hash>, h: nat): Hash
    requires |leaves| == Pow2(h)
    decreases h
  {
    if h == 0 then leaves[0]
    else Node(Perfect(leaves[..Pow2(h - 1)], h - 1), Perfect(leaves[Pow2(h - 1)..], h - 1))
  }

  /** The peak hashes over `leaves`, tallest mountain first. */
  function Mountains(leaves: seq<Hash>): seq<Hash>
    decreases |leaves|
  {
    if leaves == [] then []
    else
      var k := FloorLog2(|leaves|);
      [Perfect(leaves[..Pow2(k)], k)] + Mountains(leaves[Pow2(k)..])
  }

  lemma MountainsStep(leaves: seq<Hash>)
    requires leaves != []
    ensures var k := FloorLog2(|leaves|);
      Mountains(leaves) == [Perfect(leaves[..Pow2(k)], k)] + Mountains(leaves[Pow2(k)..])
  {
    hide FloorLog2, Pow2, Perfect;
  }

  /** `bag_peaks`: fold the peaks from the right. */
  function BagPeaks(peaks: seq<Hash>): Hash {
    if peaks == [] then Zero
    else if |peaks| == 1 then peaks[0]
    else Peak(peaks[0], BagPeaks(peaks[1..]))
  }

  function Root(leaves: seq<Hash>): Hash {
    BagPeaks(Mountains(leaves))
  }

  /** The largest power of two smaller than `n`. */
  function SplitPoint(n: nat): (k: nat)
    requires n >= 2
    ensures 0 < k < n
  {
    Pow2(FloorLog2(n - 1))
  }

  /** The tree of section 2.1 of RFC 6962: split at the largest power of two below the leaf count.
      A split of a power of two is tagged as a node, any other split as a peak. */
  function SplitRoot(leaves: seq<Hash>): Hash
    decreases |leaves|
  {
    if leaves == [] then Zero
    else if |leaves| == 1 then leaves[0]
    else
      var k := SplitPoint(|leaves|);
      var l, r := SplitRoot(leaves[..k]), SplitRoot(leaves[k..]);
      if |leaves| == 2 * k then Node(l, r) else Peak(l, r)
  }

  lemma {:induction false} PerfectIsSplit(leaves: seq<Hash>, h: nat)
    requires |leaves| == Pow2(h)
    ensures SplitRoot(leaves) == Perfect(leaves, h)
    decreases h
  {
    hide FloorLog2;
    if h > 0 {
      FloorLog2Unique(|leaves| - 1, h - 1);
      assert SplitPoint(|leaves|) == Pow2(h - 1);
      PerfectIsSplit(leaves[..Pow2(h - 1)], h - 1);
      PerfectIsSplit(leaves[Pow2(h - 1)..], h - 1);
    }
  }

  /** Bagging the mountains gives the recursive split tree, for every leaf sequence. */
  lemma {:induction false} RootIsSplitRoot(leaves: seq<Hash>)
    ensures Root(leaves) == SplitRoot(leaves)
    decreases |leaves|
  {
    hide FloorLog2, Pow2, Perfect, Mountains;
    NoMountains();
    if leaves != [] {
      MountainsStep(leaves);
      var n := |leaves|;
      var k := FloorLog2(n);
      var p := Pow2(k);
      if n == p {
        PerfectIsSplit(leaves, k);
        assert leaves[..p] == leaves && leaves[p..] == [];
        assert Mountains(leaves) == [Perfect(leaves, k)] + [];
      } else {
        Pow2Step(k);
        FloorLog2Unique(n - 1, k);
        PerfectIsSplit(leaves[..p], k);
        RootIsSplitRoot(leaves[p..]);
        assert Mountains(leaves)[1..] == Mountains(leaves[p..]);
        MountainsStep(leaves[p..]);
      }
    }
  }

  lemma NoMountains()
    ensures Mountains([]) == []
  {
  }

  lemma {:induction false} MountainCount(leaves: seq<Hash>)
    ensures |Mountains(leaves)| == |Heights(|leaves|)| == PopCount(|leaves|)
    decreases |leaves|
  {
    HeightsAreTheSetBits(|leaves|);
    if leaves != [] {
      MountainCount(leaves[Pow2(FloorLog2(|leaves|))..]);
    }
  }
}
