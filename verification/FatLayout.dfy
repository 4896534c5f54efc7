/** Where things lie on the card, byte by byte: the entries of the table, and the clusters of the data area. */
module FatLayout {
  import opened Arithmetic
  import opened Bytes
  import opened Fat32
  import opened FatChains

  /** `n` has the bytes at `at`, the least significant first. */
  predicate LittleEndian(n: nat, s: seq<Byte>, at: nat) {
    && at + 4 <= |s|
    && n % 0x100 == s[at] && n / 0x100 % 0x100 == s[at + 1]
    && n / 0x1_0000 % 0x100 == s[at + 2] && n / 0x100_0000 == s[at + 3]
  }

  lemma WordBytes(s: seq<Byte>)
    requires |s| == 4
    ensures LittleEndian(Word(s), s, 0)
  {
    var n := Word(s);
    var n1: nat := s[1] as nat + 0x100 * s[2] as nat + 0x1_0000 * s[3] as nat;
    var n2: nat := s[2] as nat + 0x100 * s[3] as nat;
    QuotientIs(n, 0x100, n1, s[0]);
    QuotientIs(n1, 0x100, n2, s[1]);
    QuotientIs(n2, 0x100, s[3], s[2]);
    QuotientIs(n, 0x1_0000, n2, s[0] as nat + 0x100 * s[1] as nat);
    QuotientIs(n, 0x100_0000, s[3], s[0] as nat + 0x100 * s[1] as nat + 0x1_0000 * s[2] as nat);
  }

  lemma WordOfSlice(s: seq<Byte>, at: nat)
    requires at + 4 <= |s|
    ensures LittleEndian(Word(s[at..at + 4]), s, at)
  {
    var part := s[at..at + 4];
    WordBytes(part);
    assert forall i :: 0 <= i < 4 ==> part[i] == s[at + i];
    hide Word;
  }

  // ----- The table -----

  /** Entry `i` of the table is the number whose bytes lie behind the reserved sectors, four bytes an entry. */
  lemma EntryBytes(v: Volume, i: nat)
    requires v.Mounted() && i < CHAIN_END
    ensures LittleEndian(v.FatEntry(i), v.bytes, (v.partitionLba + v.rsc) * 512 + 4 * i)
  {
    WordOfSlice(v.bytes, v.FatBase() + 4 * i);
  }

  // ----- The data area -----

  /** Place of cluster number `k` of the data area, counted from 0: behind the reserved sectors and the tables,
      one cluster on the other. */
  function DataPlace(v: Volume, k: nat): nat {
    (v.partitionLba + v.rsc + v.nf * v.spf32) * 512 + k * (v.spc * 512)
  }

  lemma PlaceIsBase(v: Volume, c: nat)
    requires Live(c)
    ensures v.ClusterBase(c) == DataPlace(v, c - 2)
  {
    var k: nat := c - 2;
    assert k * v.spc * 512 == k * (v.spc * 512);
    assert v.nf * v.spf32 == v.spf32 * v.nf;
  }

  lemma ClusterAt(v: Volume, k: nat)
    requires v.Present(k + 2)
    ensures DataPlace(v, k) + v.spc * 512 <= |v.bytes|
    ensures v.Cluster(k + 2) == v.bytes[DataPlace(v, k)..DataPlace(v, k) + v.spc * 512]
  {
    PlaceIsBase(v, k + 2);
    hide DataPlace, Volume.ClusterBase;
  }

  lemma PlaceStep(v: Volume, k: nat)
    requires k > 0
    ensures DataPlace(v, k) == DataPlace(v, k - 1) + v.spc * 512
  {
    assert k * (v.spc * 512) == (k - 1) * (v.spc * 512) + v.spc * 512;
  }

  /** The clusters numbered from 2 on, `n` of them. */
  function FirstClusters(v: Volume, n: nat): seq<Byte>
    requires forall c :: 2 <= c < 2 + n ==> v.Present(c)
  {
    if n == 0 then [] else FirstClusters(v, n - 1) + v.Cluster(n + 1)
  }

  /** Cluster 2 starts where the tables end, and the others follow without a gap. */
  lemma {:induction false} ClustersTile(v: Volume, n: nat)
    requires DataPlace(v, 0) <= |v.bytes| && forall c :: 2 <= c < 2 + n ==> v.Present(c)
    ensures DataPlace(v, 0) <= DataPlace(v, n) <= |v.bytes|
    ensures FirstClusters(v, n) == v.bytes[DataPlace(v, 0)..DataPlace(v, n)]
  {
    if n > 0 {
      assert v.Present(n + 1);
      hide *;
      PlaceStep(v, n);
      ClusterAt(v, n - 1);
      ClustersTile(v, n - 1);
      OneMoreCluster(v, n);
      Joined(v.bytes, DataPlace(v, 0), DataPlace(v, n - 1), DataPlace(v, n));
    }
  }

  lemma OneMoreCluster(v: Volume, n: nat)
    requires n > 0 && forall c :: 2 <= c < 2 + n ==> v.Present(c)
    ensures FirstClusters(v, n) == FirstClusters(v, n - 1) + v.Cluster(n + 1)
  {
  }

  lemma Joined(s: seq<Byte>, a: nat, b: nat, c: nat)
    requires a <= b <= c <= |s|
    ensures s[a..b] + s[b..c] == s[a..c]
  {
  }

  // ----- Files -----

  /** Byte `at` of cluster `k` of a file's chain lies at that place of the chain's cluster on the card. */
  lemma FileByte(v: Volume, ch: seq<nat>, k: nat, at: nat)
    requires v.Mounted() && v.AllPresent(ch) && k < |ch| && at < v.ClusterSize()
    ensures v.Present(ch[k]) && k * v.ClusterSize() + at < |v.Contents(ch)| && DataPlace(v, ch[k] - 2) + at < |v.bytes|
    ensures v.Contents(ch)[k * v.ClusterSize() + at] == v.bytes[DataPlace(v, ch[k] - 2) + at]
  {
    assert v.Present(ch[k]) && v.ClusterSize() == v.spc * 512;
    hide *;
    TailStarts(v, ch, k);
    TailIsSuffix(v, ch, k);
    ClusterIsLive(v, ch[k]);
    ClusterAt(v, ch[k] - 2);
    FileByteAt(v, v.Contents(ch), v.Tail(ch, k + 1), k * v.ClusterSize(), ch[k] - 2, at);
  }

  lemma FileByteAt(v: Volume, f: seq<Byte>, rest: seq<Byte>, a: nat, k: nat, at: nat)
    requires DataPlace(v, k) + v.spc * 512 <= |v.bytes| && at < v.spc * 512 && a <= |f|
    requires f[a..] == v.bytes[DataPlace(v, k)..DataPlace(v, k) + v.spc * 512] + rest
    ensures a + at < |f| && f[a + at] == v.bytes[DataPlace(v, k) + at]
  {
    hide DataPlace;
    assert f[a..][at] == f[a + at];
  }

  lemma ClusterIsLive(v: Volume, c: nat)
    requires v.Present(c)
    ensures c >= 2
  {
  }

  lemma TailStarts(v: Volume, ch: seq<nat>, k: nat)
    requires v.AllPresent(ch) && k < |ch|
    ensures v.Present(ch[k]) && v.Tail(ch, k) == v.Cluster(ch[k]) + v.Tail(ch, k + 1)
  {
  }
}
