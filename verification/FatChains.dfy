/** Cluster chains: they never repeat a cluster, clusters do not overlap, and the reading loop
    delivers a plain slice of the file. */
module FatChains {
  import opened Arithmetic
  import opened Bytes
  import opened Fat32

  // ----- Chains -----

  lemma {:induction false} ChainPresent(v: Volume, c: nat, ch: seq<nat>)
    requires v.Mounted() && v.IsChain(c, ch)
    ensures v.AllPresent(ch)
    decreases |ch|
  {
    if Live(c) {
      ChainPresent(v, v.FatEntry(c), ch[1..]);
      assert ch == [c] + ch[1..];
    }
  }

  /** A chain is determined by its first cluster. */
  lemma {:induction false} ChainUnique(v: Volume, c: nat, ch: seq<nat>, ch': seq<nat>)
    requires v.Mounted() && v.IsChain(c, ch) && v.IsChain(c, ch')
    ensures ch == ch'
    decreases |ch|
  {
    if Live(c) {
      ChainUnique(v, v.FatEntry(c), ch[1..], ch'[1..]);
      assert ch == [c] + ch[1..] && ch' == [c] + ch'[1..];
    }
  }

  /** Walking `k` links from the first cluster reaches the chain's cluster `k`, and past the end a
      value that is no cluster. */
  lemma {:induction false} WalkChain(v: Volume, c: nat, ch: seq<nat>, k: nat)
    requires v.Mounted() && v.IsChain(c, ch)
    ensures k < |ch| ==> v.Walk(c, k) == ch[k] && v.IsChain(ch[k], ch[k..]) && v.Present(ch[k])
    ensures k >= |ch| ==> !Live(v.Walk(c, k))
    decreases k
  {
    if k > 0 && Live(c) {
      WalkChain(v, v.FatEntry(c), ch[1..], k - 1);
      if k < |ch| {
        assert ch[1..][k - 1..] == ch[k..];
      }
    } else if Live(c) {
      assert ch[0..] == ch;
    }
  }

  /** A chain that reaches an end value never repeats a cluster. */
  lemma ChainDistinct(v: Volume, c: nat, ch: seq<nat>)
    requires v.Mounted() && v.IsChain(c, ch)
    ensures forall i, j :: 0 <= i < j < |ch| ==> ch[i] != ch[j]
  {
    forall i, j | 0 <= i < j < |ch|
      ensures ch[i] != ch[j]
    {
      WalkChain(v, c, ch, i);
      WalkChain(v, c, ch, j);
      assert |ch[i..]| != |ch[j..]|;
      if ch[i] == ch[j] {
        ChainUnique(v, ch[i], ch[i..], ch[j..]);
      }
    }
  }

  // ----- Where clusters lie -----

  lemma ClusterPlaces(v: Volume, c: nat, d: nat)
    requires v.Mounted() && Live(c) && Live(d)
    ensures v.DataSector() * SECTOR <= v.ClusterBase(c)
    ensures c < d ==> v.ClusterBase(c) + v.ClusterSize() <= v.ClusterBase(d)
  {
    if c < d {
      MulAtLeast(c - 2, d - 2, v.spc);
    }
  }

  // ----- Reading -----

  lemma ReadFromStep(v: Volume, c: nat, ch: seq<nat>, num: nat, start: nat, length: nat)
    requires v.Mounted() && v.IsChain(c, ch) && v.AllPresent(ch) && start < v.ClusterSize()
    ensures num >= |ch| || length == 0 ==> v.ReadFrom(c, num, start, length) == []
    ensures num < |ch| && length > 0 ==>
      var n := Min(v.ClusterSize() - start, length);
      v.ReadFrom(c, num, start, length)
      == v.Cluster(ch[num])[start..start + n] + v.ReadFrom(c, num + 1, 0, length - n)
  {
    WalkChain(v, c, ch, num);
    hide Volume.Walk, Volume.IsChain, Volume.Cluster, Volume.Mounted;
  }

  lemma {:induction false} ReadFromIsSlice(v: Volume, c: nat, ch: seq<nat>, num: nat, start: nat, length: nat)
    requires v.Mounted() && v.IsChain(c, ch) && v.AllPresent(ch) && start < v.ClusterSize()
    ensures v.ReadFrom(c, num, start, length) == Slice(v.Tail(ch, num), start, length)
    decreases length
  {
    hide Volume.ReadFrom, Volume.Cluster, Volume.IsChain, Volume.Mounted, Slice;
    ReadFromStep(v, c, ch, num, start, length);
    SliceOfNothing(v.Tail(ch, num), start);
    if length > 0 && num < |ch| {
      var n := Min(v.ClusterSize() - start, length);
      ReadFromIsSlice(v, c, ch, num + 1, 0, length - n);
      SliceOfAppend(v.Cluster(ch[num]), v.Tail(ch, num + 1), start, length);
    }
  }

  lemma SliceOfNothing(s: seq<Byte>, at: nat)
    ensures Slice(s, at, 0) == []
    ensures forall n: nat :: Slice([], at, n) == []
  {
  }

  lemma SliceOfAppend(a: seq<Byte>, b: seq<Byte>, at: nat, length: nat)
    requires at < |a|
    ensures Slice(a + b, at, length)
         == a[at..at + Min(|a| - at, length)] + Slice(b, 0, length - Min(|a| - at, length))
  {
  }

  lemma {:induction false} TailLength(v: Volume, ch: seq<nat>, k: nat)
    requires v.AllPresent(ch) && k <= |ch|
    ensures |v.Tail(ch, k)| == (|ch| - k) * v.ClusterSize()
    decreases |ch| - k
  {
    if k < |ch| {
      TailLength(v, ch, k + 1);
      assert (|ch| - k) * v.ClusterSize() == v.ClusterSize() + (|ch| - k - 1) * v.ClusterSize();
    }
  }

  lemma {:induction false} TailIsSuffix(v: Volume, ch: seq<nat>, k: nat)
    requires v.AllPresent(ch) && k <= |ch|
    ensures k * v.ClusterSize() <= |v.Contents(ch)|
    ensures v.Contents(ch)[k * v.ClusterSize()..] == v.Tail(ch, k)
  {
    if k > 0 {
      TailIsSuffix(v, ch, k - 1);
      assert k * v.ClusterSize() == v.ClusterSize() + (k - 1) * v.ClusterSize();
    }
  }

  lemma SliceOfSuffix(f: seq<Byte>, a: nat, start: nat, length: nat)
    requires a <= |f|
    ensures Slice(f[a..], start, length) == Slice(f, a + start, length)
  {
  }

  /** File position `start` bytes into the chain's cluster `k`, which may lie past the end. */
  lemma SliceAtCluster(v: Volume, ch: seq<nat>, k: nat, start: nat, length: nat)
    requires v.Mounted() && v.AllPresent(ch)
    ensures Slice(v.Tail(ch, k), start, length) == Slice(v.Contents(ch), k * v.ClusterSize() + start, length)
  {
    if k <= |ch| {
      TailIsSuffix(v, ch, k);
      SliceOfSuffix(v.Contents(ch), k * v.ClusterSize(), start, length);
    } else {
      TailLength(v, ch, 0);
      MulAtLeast(|ch|, k, v.ClusterSize());
    }
  }

  lemma SeekSplit(v: Volume, seek: nat)
    requires v.Mounted()
    ensures seek == v.ClusterIndex(seek) * v.ClusterSize() + v.ClusterOffset(seek)
    ensures v.ClusterOffset(seek) < v.ClusterSize()
  {
  }

  /** `fat_readfile` delivers a plain slice of the file, for every position and length. */
  lemma ReadIsSlice(v: Volume, c: nat, ch: seq<nat>, seek: nat, length: nat)
    requires v.Mounted() && v.IsChain(c, ch)
    ensures v.AllPresent(ch)
    ensures v.Read(c, seek, length) == Slice(v.Contents(ch), seek, length)
  {
    ChainPresent(v, c, ch);
    SeekSplit(v, seek);
    SliceAtCluster(v, ch, v.ClusterIndex(seek), v.ClusterOffset(seek), length);
    ReadFromIsSlice(v, c, ch, v.ClusterIndex(seek), v.ClusterOffset(seek), length);
  }
}
