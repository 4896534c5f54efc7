/** Writing: what it leaves alone, what it changes, and exactly when it is correct. */
module FatWrites {
  import opened Bytes
  import opened Fat32
  import opened FatChains

  // ----- What a write leaves alone -----

  /** `w` is `v` except inside the clusters `ch`: the boot sectors, the allocation tables and every
      other cluster have the same bytes. */
  ghost predicate Undisturbed(v: Volume, w: Volume, ch: seq<nat>) {
    && w == v.(bytes := w.bytes) && |w.bytes| == |v.bytes|
    && (v.Mounted() ==> w.bytes[..v.DataSector() * SECTOR] == v.bytes[..v.DataSector() * SECTOR])
    && forall d :: v.Present(d) && d !in ch ==> w.Present(d) && w.Cluster(d) == v.Cluster(d)
  }

  lemma SameSlice(s: seq<Byte>, t: seq<Byte>, n: nat, a: nat, b: nat)
    requires a <= b <= n <= |s| && n <= |t| && s[..n] == t[..n]
    ensures s[a..b] == t[a..b]
  {
    assert s[a..b] == s[..n][a..b] && t[a..b] == t[..n][a..b];
  }

  lemma SameTableSector(v: Volume, w: Volume, ch: seq<nat>, n: nat)
    requires v.Mounted() && Undisturbed(v, w, ch) && n < 512
    ensures w.Mounted() && w.TableSector(n) == v.TableSector(n)
  {
    SameSlice(v.bytes, w.bytes, v.DataSector() * SECTOR, v.FatBase() + n * SECTOR, v.FatBase() + (n + 1) * SECTOR);
  }

  lemma SameTable(v: Volume, w: Volume, ch: seq<nat>, i: nat)
    requires v.Mounted() && Undisturbed(v, w, ch) && i < CHAIN_END
    ensures w.Mounted() && w.FatEntry(i) == v.FatEntry(i)
  {
    SameSlice(v.bytes, w.bytes, v.DataSector() * SECTOR, v.FatBase() + 4 * i, v.FatBase() + 4 * i + 4);
  }

  lemma {:induction false} SameWalk(v: Volume, w: Volume, ch: seq<nat>, c: nat, n: nat)
    requires v.Mounted() && Undisturbed(v, w, ch)
    ensures w.Mounted() && w.ClusterSize() == v.ClusterSize() && w.Walk(c, n) == v.Walk(c, n) && w.TransferResult(c, n) == v.TransferResult(c, n)
    decreases n
  {
    if n > 0 && Live(c) {
      SameTable(v, w, ch, c);
      SameWalk(v, w, ch, v.FatEntry(c), n - 1);
    }
  }

  lemma {:induction false} SameChain(v: Volume, w: Volume, ch: seq<nat>, c: nat, other: seq<nat>)
    requires v.Mounted() && Undisturbed(v, w, ch) && v.IsChain(c, other)
    ensures w.Mounted() && w.IsChain(c, other)
    decreases |other|
  {
    if Live(c) {
      SameTable(v, w, ch, c);
      SameChain(v, w, ch, v.FatEntry(c), other[1..]);
    }
  }

  lemma {:induction false} SameTail(v: Volume, w: Volume, ch: seq<nat>, other: seq<nat>, k: nat)
    requires Undisturbed(v, w, ch) && v.AllPresent(other)
    requires forall i :: k <= i < |other| ==> other[i] !in ch
    ensures w.AllPresent(other) && w.Tail(other, k) == v.Tail(other, k)
    decreases |other| - k
  {
    if k < |other| {
      SameTail(v, w, ch, other, k + 1);
    }
  }

  lemma SpliceKeeps(s: seq<Byte>, a: nat, mid: seq<Byte>, i: nat, j: nat)
    requires a + |mid| <= |s| && i <= j <= |s|
    ensures var r := s[..a] + mid + s[a + |mid|..];
      && r[a..a + |mid|] == mid && r[..a] == s[..a]
      && (j <= a || a + |mid| <= i ==> r[i..j] == s[i..j])
  {
  }

  lemma PutClusterUndisturbed(v: Volume, c: nat, s: seq<Byte>)
    requires v.Mounted() && v.Present(c) && |s| == v.ClusterSize()
    ensures var w := v.PutCluster(c, s);
      Undisturbed(v, w, [c]) && w.Mounted() && w.Present(c) && w.Cluster(c) == s
  {
    var w, a := v.PutCluster(c, s), v.ClusterBase(c);
    ClusterPlaces(v, c, c);
    SpliceKeeps(v.bytes, a, s, 0, v.DataSector() * SECTOR);
    forall d | v.Present(d) && d != c
      ensures w.Present(d) && w.Cluster(d) == v.Cluster(d)
    {
      OtherClusterKept(v, c, s, d);
    }
  }

  lemma OtherClusterKept(v: Volume, c: nat, s: seq<Byte>, d: nat)
    requires v.Mounted() && v.Present(c) && |s| == v.ClusterSize() && v.Present(d) && d != c
    ensures v.PutCluster(c, s).Present(d) && v.PutCluster(c, s).Cluster(d) == v.Cluster(d)
  {
    ClusterPlaces(v, c, d);
    ClusterPlaces(v, d, c);
    SpliceKeeps(v.bytes, v.ClusterBase(c), s, v.ClusterBase(d), v.ClusterBase(d) + v.ClusterSize());
  }

  lemma UndisturbedTrans(u: Volume, v: Volume, w: Volume, ch: seq<nat>, ch': seq<nat>, all: seq<nat>)
    requires Undisturbed(u, v, ch) && Undisturbed(v, w, ch')
    requires forall c :: c in ch || c in ch' ==> c in all
    ensures Undisturbed(u, w, all)
  {
  }

  lemma UndisturbedSelf(v: Volume, ch: seq<nat>)
    ensures Undisturbed(v, v, ch)
  {
  }

  lemma PutUndisturbed(v: Volume, w: Volume, ch: seq<nat>, c: nat, s: seq<Byte>)
    requires v.Mounted() && Undisturbed(v, w, ch) && w.Present(c) && |s| == w.ClusterSize()
    ensures w.Mounted() && Undisturbed(v, w.PutCluster(c, s), ch + [c])
  {
    PutClusterUndisturbed(w, c, s);
    UndisturbedTrans(v, w, w.PutCluster(c, s), ch, [c], ch + [c]);
  }

  /** The volume after one turn of the writing loop, on the chain's cluster `num`. */
  ghost function OneTurn(v: Volume, ch: seq<nat>, num: nat, start: nat, data: seq<Byte>): Volume
    requires v.AllPresent(ch) && num < |ch| && start < v.ClusterSize()
  {
    v.PutCluster(ch[num], Overlay(v.Cluster(ch[num]), start, data[..Min(v.ClusterSize(), |data|)]))
  }

  /** One turn of the writing loop, on the chain's cluster `num`. */
  lemma WriteFromStep(v: Volume, c: nat, ch: seq<nat>, num: nat, start: nat, data: seq<Byte>)
    requires v.Mounted() && v.IsChain(c, ch) && v.AllPresent(ch) && start < v.ClusterSize()
    requires v.StaysInBuffer(c, num, start, |data|)
    ensures num >= |ch| || data == [] ==> v.WriteFrom(c, num, start, data) == v && v.WriteCount(c, num, start, |data|) == 0
    ensures num < |ch| && data != [] ==>
      var n := Min(v.ClusterSize(), |data|);
      && v.WriteFrom(c, num, start, data) == OneTurn(v, ch, num, start, data).WriteFrom(c, num + 1, 0, data[n..])
      && v.WriteCount(c, num, start, |data|) == n + v.WriteCount(c, num + 1, 0, |data| - n)
  {
    WalkChain(v, c, ch, num);
    if num < |ch| && data != [] {
      hide Volume.WriteFrom, Volume.WriteCount;
      WriteUnfold(v, v, c, num, start, data);
    }
  }

  /** One turn of the writing loop on any volume, the count being taken on another one. */
  lemma WriteUnfold(v: Volume, w: Volume, c: nat, num: nat, start: nat, rest: seq<Byte>)
    requires v.Mounted() && w.Mounted() && start < w.ClusterSize() == v.ClusterSize() && rest != []
    requires v.TransferResult(c, num) == w.TransferResult(c, num) > 0 && w.StaysInBuffer(c, num, start, |rest|)
    ensures var t, n := w.Walk(c, num), Min(w.ClusterSize(), |rest|);
      && 0 < n <= |rest|
      && v.WriteCount(c, num, start, |rest|) == n + v.WriteCount(c, num + 1, 0, |rest| - n)
      && w.WriteFrom(c, num, start, rest)
         == w.PutCluster(t, Overlay(w.Cluster(t), start, rest[..n])).WriteFrom(c, num + 1, 0, rest[n..])
  {
  }

  lemma OneTurnEffect(v: Volume, c: nat, ch: seq<nat>, num: nat, start: nat, data: seq<Byte>)
    requires v.Mounted() && v.IsChain(c, ch) && v.AllPresent(ch) && num < |ch| && start < v.ClusterSize()
    ensures var w := OneTurn(v, ch, num, start, data);
      && Undisturbed(v, w, [ch[num]]) && w.Mounted() && w.IsChain(c, ch) && w.AllPresent(ch)
      && w.Cluster(ch[num]) == Overlay(v.Cluster(ch[num]), start, data[..Min(v.ClusterSize(), |data|)])
      && w.Tail(ch, num + 1) == v.Tail(ch, num + 1)
  {
    var s := Overlay(v.Cluster(ch[num]), start, data[..Min(v.ClusterSize(), |data|)]);
    var w := v.PutCluster(ch[num], s);
    PutClusterUndisturbed(v, ch[num], s);
    SameChain(v, w, [ch[num]], c, ch);
    ChainPresent(w, c, ch);
    ChainDistinct(v, c, ch);
    SameTail(v, w, [ch[num]], ch, num + 1);
  }

  lemma LaterTurnsStay(v: Volume, c: nat, num: nat, length: nat)
    requires v.Mounted()
    ensures v.StaysInBuffer(c, num, 0, length)
  {
  }

  /** A write changes nothing but clusters of its own chain from number `num` on. */
  lemma {:induction false} WriteFromUndisturbed(
      v: Volume, c: nat, ch: seq<nat>, num: nat, start: nat, data: seq<Byte>)
    requires v.Mounted() && v.IsChain(c, ch) && v.AllPresent(ch) && start < v.ClusterSize()
    requires v.StaysInBuffer(c, num, start, |data|)
    ensures Undisturbed(v, v.WriteFrom(c, num, start, data), ch[Min(num, |ch|)..])
    decreases |data|
  {
    hide *;
    WriteFromStep(v, c, ch, num, start, data);
    if num < |ch| && data != [] {
      var n, w := Min(v.ClusterSize(), |data|), OneTurn(v, ch, num, start, data);
      OneTurnEffect(v, c, ch, num, start, data);
      LaterTurnsStay(w, c, num + 1, |data| - n);
      WriteFromUndisturbed(w, c, ch, num + 1, 0, data[n..]);
      assert Min(num, |ch|) == num && Min(num + 1, |ch|) == num + 1;
      UndisturbedTrans(v, w, w.WriteFrom(c, num + 1, 0, data[n..]), [ch[num]], ch[num + 1..], ch[num..]);
    } else {
      UndisturbedSelf(v, ch[Min(num, |ch|)..]);
    }
  }

  // ----- What a write changes -----

  /** Clusters before number `num` keep their bytes. */
  lemma EarlierClusters(v: Volume, c: nat, ch: seq<nat>, num: nat, start: nat, data: seq<Byte>)
    requires v.Mounted() && v.IsChain(c, ch) && v.AllPresent(ch) && start < v.ClusterSize()
    requires v.StaysInBuffer(c, num, start, |data|)
    ensures var w := v.WriteFrom(c, num, start, data);
      && w.AllPresent(ch)
      && forall i :: 0 <= i < num && i < |ch| ==> w.Cluster(ch[i]) == v.Cluster(ch[i])
  {
    var w := v.WriteFrom(c, num, start, data);
    WriteFromUndisturbed(v, c, ch, num, start, data);
    SameChain(v, w, ch[Min(num, |ch|)..], c, ch);
    ChainPresent(w, c, ch);
    ChainDistinct(v, c, ch);
  }

  /** From the start of a cluster on, the loop writes `data` over the rest of the file. */
  lemma {:induction false} WriteFromZero(v: Volume, c: nat, ch: seq<nat>, num: nat, data: seq<Byte>)
    requires v.Mounted() && v.IsChain(c, ch) && v.AllPresent(ch)
    ensures var w := v.WriteFrom(c, num, 0, data);
      && w.AllPresent(ch)
      && w.Tail(ch, num) == Overlay(v.Tail(ch, num), 0, data)
      && v.WriteCount(c, num, 0, |data|) == Min(|data|, |v.Tail(ch, num)|)
    decreases |data|, 1
  {
    LaterTurnsStay(v, c, num, |data|);
    if num < |ch| && data != [] {
      WriteExact(v, c, ch, num, 0, data);
      OverlayOfAppend(v.Cluster(ch[num]), v.Tail(ch, num + 1), data);
    } else {
      WriteFromStep(v, c, ch, num, 0, data);
      OverlayOfNothing(v.Tail(ch, num), data);
    }
  }

  lemma OverlayOfNothing(s: seq<Byte>, data: seq<Byte>)
    requires s == [] || data == []
    ensures Overlay(s, 0, data) == s
  {
  }

  lemma OverlayOfAppend(a: seq<Byte>, b: seq<Byte>, data: seq<Byte>)
    ensures var n := Min(|a|, |data|);
      Overlay(a + b, 0, data) == Overlay(a, 0, data[..n]) + Overlay(b, 0, data[n..])
  {
  }

  lemma {:induction false} SameCount(v: Volume, w: Volume, ch: seq<nat>, c: nat, num: nat, start: nat, length: nat)
    requires v.Mounted() && Undisturbed(v, w, ch)
    ensures w.Mounted() && w.WriteCount(c, num, start, length) == v.WriteCount(c, num, start, length)
    decreases length
  {
    hide Undisturbed, Volume.Walk, Volume.TransferResult, Volume.Mounted;
    SameWalk(v, w, ch, c, num);
    if length > 0 && v.TransferResult(c, num) > 0 {
      SameCount(v, w, ch, c, num + 1, 0, length - Min(v.ClusterSize(), length));
    }
  }

  /** The exact effect of a write of at least one byte from `start` in cluster `num`: that cluster takes the bytes
      that fit, and the rest of the file takes the data from byte `n` on, `n` being a whole cluster
      (or all of the data) although only `ClusterSize - start` bytes fitted. */
  lemma {:induction false} WriteExact(v: Volume, c: nat, ch: seq<nat>, num: nat, start: nat, data: seq<Byte>)
    requires v.Mounted() && v.IsChain(c, ch) && v.AllPresent(ch) && start < v.ClusterSize()
    requires num < |ch| && data != [] && v.StaysInBuffer(c, num, start, |data|)
    ensures var w, n := v.WriteFrom(c, num, start, data), Min(v.ClusterSize(), |data|);
      && w.AllPresent(ch)
      && w.Cluster(ch[num]) == Overlay(v.Cluster(ch[num]), start, data[..n])
      && w.Tail(ch, num + 1) == Overlay(v.Tail(ch, num + 1), 0, data[n..])
      && v.WriteCount(c, num, start, |data|) == n + Min(|data| - n, |v.Tail(ch, num + 1)|)
    decreases |data|, 0
  {
    hide *;
    var n, w1 := Min(v.ClusterSize(), |data|), OneTurn(v, ch, num, start, data);
    WriteFromStep(v, c, ch, num, start, data);
    OneTurnEffect(v, c, ch, num, start, data);
    WriteFromZero(w1, c, ch, num + 1, data[n..]);
    LaterTurnsStay(w1, c, num + 1, |data| - n);
    EarlierClusters(w1, c, ch, num + 1, 0, data[n..]);
    SameCount(v, w1, [ch[num]], c, num + 1, 0, |data| - n);
  }
}
