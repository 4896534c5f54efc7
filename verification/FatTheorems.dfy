/** `fat_writefile` against the plain overlay of a file: exactly when it is correct, when it stays in its
    buffer, and that it would be correct for every range with the size that `fat_readfile` takes. */
module FatTheorems {
  import opened Arithmetic
  import opened Bytes
  import opened Fat32
  import opened FatChains
  import opened FatWrites

  /** The write did what a write at `seek` means: it stayed in its buffer, the file has `data` laid over
      it, and the count is the number of bytes that lie inside the file. */
  ghost predicate WriteCorrect(v: Volume, c: nat, ch: seq<nat>, seek: nat, data: seq<Byte>)
    requires v.Mounted() && v.AllPresent(ch)
  {
    var f, w := v.Contents(ch), v.Write(c, seek, data);
    && v.WriteStays(c, seek, |data|)
    && w.AllPresent(ch)
    && w.Contents(ch) == (if seek <= |f| then Overlay(f, seek, data) else f)
    && v.Written(c, seek, |data|) == |Slice(f, seek, |data|)|
  }

  /** What a caller can check beforehand: nothing to write, or a start on a cluster boundary, or an
      end within the first cluster. */
  predicate WriteFits(v: Volume, fileSize: nat, seek: nat, length: nat)
    requires v.Mounted()
  {
    || seek >= fileSize || length == 0
    || v.ClusterOffset(seek) == 0 || v.ClusterOffset(seek) + length <= v.ClusterSize()
  }

  lemma SameVolumeShape(v: Volume, w: Volume)
    requires w == v.(bytes := w.bytes)
    ensures w.spc == v.spc && w.ClusterSize() == v.ClusterSize()
  {
  }

  lemma SameLength(v: Volume, w: Volume, ch: seq<nat>)
    requires v.AllPresent(ch) && w.AllPresent(ch) && w.ClusterSize() == v.ClusterSize()
    ensures |w.Contents(ch)| == |v.Contents(ch)|
  {
    TailLength(v, ch, 0);
    TailLength(w, ch, 0);
  }

  /** One more cluster of an unchanged head. */
  lemma HeadStep(v: Volume, ch: seq<nat>, k: nat)
    requires v.AllPresent(ch) && k < |ch|
    ensures var a, size, f := k * v.ClusterSize(), v.ClusterSize(), v.Contents(ch);
      a + size == (k + 1) * size <= |f| && f[a..][..size] == v.Cluster(ch[k])
  {
    TailIsSuffix(v, ch, k);
    TailIsSuffix(v, ch, k + 1);
  }

  lemma {:induction false} HeadSame(v: Volume, w: Volume, ch: seq<nat>, k: nat)
    requires v.AllPresent(ch) && w.AllPresent(ch) && v.spc == w.spc && k <= |ch|
    requires forall i :: 0 <= i < k ==> w.Cluster(ch[i]) == v.Cluster(ch[i])
    ensures k * v.ClusterSize() <= |v.Contents(ch)| && k * v.ClusterSize() <= |w.Contents(ch)|
    ensures w.Contents(ch)[..k * v.ClusterSize()] == v.Contents(ch)[..k * v.ClusterSize()]
  {
    if k > 0 {
      HeadSame(v, w, ch, k - 1);
      HeadStep(v, ch, k - 1);
      HeadStep(w, ch, k - 1);
      HeadGrows(v.Contents(ch), w.Contents(ch), (k - 1) * v.ClusterSize(), v.ClusterSize());
    }
  }

  lemma HeadGrows(f: seq<Byte>, g: seq<Byte>, a: nat, n: nat)
    requires a + n <= |f| && a + n <= |g| && f[..a] == g[..a] && f[a..][..n] == g[a..][..n]
    ensures f[..a + n] == g[..a + n]
  {
    assert f[..a + n] == f[..a] + f[a..][..n];
    assert g[..a + n] == g[..a] + g[a..][..n];
  }

  /** A file whose head is unchanged and whose tail has `data` laid over it has `data` laid over it. */
  lemma OverlayOfSuffix(f: seq<Byte>, g: seq<Byte>, a: nat, start: nat, data: seq<Byte>)
    requires a + start <= |f| && |g| == |f| && g[..a] == f[..a]
    ensures g[a..] == Overlay(f[a..], start, data) <==> g == Overlay(f, a + start, data)
  {
    var o := Overlay(f, a + start, data);
    assert o[..a] == f[..a] && o[a..] == Overlay(f[a..], start, data);
    if g[a..] == o[a..] {
      assert g == g[..a] + g[a..] && o == o[..a] + o[a..];
    }
  }

  /** The file before and after a write, split at the write's first cluster. */
  lemma WriteSplitsFile(v: Volume, c: nat, ch: seq<nat>, k: nat, start: nat, data: seq<Byte>)
    requires v.Mounted() && v.IsChain(c, ch) && v.AllPresent(ch) && k < |ch| && start < v.ClusterSize()
    requires v.StaysInBuffer(c, k, start, |data|)
    ensures var w, a, f := v.WriteFrom(c, k, start, data), k * v.ClusterSize(), v.Contents(ch);
      && w.AllPresent(ch)
      && a + v.ClusterSize() <= |f| == |w.Contents(ch)|
      && w.Contents(ch)[..a] == f[..a]
      && w.Contents(ch)[a..] == w.Tail(ch, k) && f[a..] == v.Tail(ch, k)
  {
    hide *;
    var w := v.WriteFrom(c, k, start, data);
    EarlierClusters(v, c, ch, k, start, data);
    SameVolumeShape(v, w);
    HeadSame(v, w, ch, k);
    HeadStep(v, ch, k);
    TailIsSuffix(v, ch, k);
    TailIsSuffix(w, ch, k);
    SameLength(v, w, ch);
  }

  lemma WriteCorrectMeans(v: Volume, c: nat, ch: seq<nat>, seek: nat, data: seq<Byte>)
    requires v.Mounted() && v.AllPresent(ch) && seek <= |v.Contents(ch)|
    ensures var k, f := v.ClusterIndex(seek), v.Contents(ch);
      var w := v.WriteFrom(c, k, v.ClusterOffset(seek), data);
      WriteCorrect(v, c, ch, seek, data) <==>
        v.WriteStays(c, seek, |data|) && w.AllPresent(ch) && w.Contents(ch) == Overlay(f, seek, data)
        && v.WriteCount(c, k, v.ClusterOffset(seek), |data|) == Min(|data|, |f| - seek)
  {
  }

  /** Everything the write decides happens from its first cluster on. */
  lemma WriteCorrectFromCluster(v: Volume, c: nat, ch: seq<nat>, seek: nat, data: seq<Byte>)
    requires v.Mounted() && v.IsChain(c, ch) && v.AllPresent(ch) && v.ClusterIndex(seek) < |ch|
    requires v.WriteStays(c, seek, |data|)
    ensures var k, start := v.ClusterIndex(seek), v.ClusterOffset(seek);
      var w := v.WriteFrom(c, k, start, data);
      && seek < |v.Contents(ch)|
      && w.AllPresent(ch)
      && start < |v.Tail(ch, k)|
      && (WriteCorrect(v, c, ch, seek, data) <==>
           && w.Tail(ch, k) == Overlay(v.Tail(ch, k), start, data)
           && v.WriteCount(c, k, start, |data|) == Min(|data|, |v.Tail(ch, k)| - start))
  {
    hide *;
    var k, start := v.ClusterIndex(seek), v.ClusterOffset(seek);
    FirstTurn(v, c, seek, |data|);
    SeekSplit(v, seek);
    WriteSplitsFile(v, c, ch, k, start, data);
    WriteCorrectMeans(v, c, ch, seek, data);
    OverlayOfSuffix(v.Contents(ch), v.WriteFrom(c, k, start, data).Contents(ch), k * v.ClusterSize(), start, data);
  }

  lemma PastTheEnd(v: Volume, c: nat, ch: seq<nat>, seek: nat)
    requires v.Mounted() && v.IsChain(c, ch) && v.AllPresent(ch)
    ensures v.ClusterIndex(seek) < |ch| <==> seek < |v.Contents(ch)|
  {
    var k, size := v.ClusterIndex(seek), v.ClusterSize();
    SeekSplit(v, seek);
    TailLength(v, ch, 0);
    if k < |ch| {
      MulAtLeast(k, |ch|, size);
    } else if |ch| < k {
      MulAtLeast(|ch|, k, size);
    }
  }

  lemma OverlayInFirst(a: seq<Byte>, b: seq<Byte>, start: nat, data: seq<Byte>)
    requires start + |data| <= |a|
    ensures Overlay(a + b, start, data) == Overlay(a, start, data) + b
  {
  }

  lemma StaysIfFits(v: Volume, c: nat, k: nat, start: nat, length: nat)
    requires v.Mounted() && (start == 0 || start + length <= v.ClusterSize())
    ensures v.StaysInBuffer(c, k, start, length)
  {
  }

  lemma FittingInside(v: Volume, c: nat, ch: seq<nat>, k: nat, start: nat, data: seq<Byte>)
    requires v.Mounted() && v.IsChain(c, ch) && v.AllPresent(ch) && k < |ch| && data != []
    requires start < start + |data| <= v.ClusterSize()
    ensures var w := v.WriteFrom(c, k, start, data);
      && w.AllPresent(ch) && start < |v.Tail(ch, k)|
      && w.Tail(ch, k) == Overlay(v.Tail(ch, k), start, data)
      && v.WriteCount(c, k, start, |data|) == Min(|data|, |v.Tail(ch, k)| - start)
  {
    hide Volume.WriteFrom, Volume.WriteCount, Volume.IsChain, Volume.StaysInBuffer, Volume.Mounted, Overlay;
    StaysIfFits(v, c, k, start, |data|);
    WriteExact(v, c, ch, k, start, data);
    assert data[..|data|] == data && data[|data|..] == [];
    OverlayInFirst(v.Cluster(ch[k]), v.Tail(ch, k + 1), start, data);
    OverlayOfNothing(v.Tail(ch, k + 1), []);
  }

  lemma FittingTail(v: Volume, c: nat, ch: seq<nat>, k: nat, start: nat, data: seq<Byte>)
    requires v.Mounted() && v.IsChain(c, ch) && v.AllPresent(ch) && k < |ch| && data != []
    requires start == 0 || start + |data| <= v.ClusterSize()
    requires start < v.ClusterSize()
    ensures var w := v.WriteFrom(c, k, start, data);
      && w.AllPresent(ch) && start < |v.Tail(ch, k)|
      && w.Tail(ch, k) == Overlay(v.Tail(ch, k), start, data)
      && v.WriteCount(c, k, start, |data|) == Min(|data|, |v.Tail(ch, k)| - start)
  {
    hide *;
    StaysIfFits(v, c, k, start, |data|);
    if start == 0 {
      WriteFromZero(v, c, ch, k, data);
      WriteSplitsFile(v, c, ch, k, start, data);
    } else {
      FittingInside(v, c, ch, k, start, data);
    }
  }

  lemma NothingChanges(v: Volume, c: nat, ch: seq<nat>, seek: nat, data: seq<Byte>)
    requires v.Mounted() && v.IsChain(c, ch) && v.AllPresent(ch)
    requires v.ClusterIndex(seek) >= |ch| || data == []
    ensures v.Write(c, seek, data) == v && v.WriteStays(c, seek, |data|) && v.Written(c, seek, |data|) == 0
  {
    hide Volume.WriteFrom, Volume.WriteCount, Volume.IsChain, Volume.ClusterIndex, Volume.ClusterOffset;
    WalkChain(v, c, ch, v.ClusterIndex(seek));
    WriteFromStep(v, c, ch, v.ClusterIndex(seek), v.ClusterOffset(seek), data);
  }

  lemma NothingToWrite(v: Volume, c: nat, ch: seq<nat>, seek: nat, data: seq<Byte>)
    requires v.Mounted() && v.IsChain(c, ch) && v.AllPresent(ch)
    requires v.ClusterIndex(seek) >= |ch| || data == []
    ensures WriteCorrect(v, c, ch, seek, data)
  {
    hide Volume.Write, Volume.WriteStays, Volume.Written, Volume.IsChain, Volume.Tail;
    PastTheEnd(v, c, ch, seek);
    NothingChanges(v, c, ch, seek, data);
    assert seek <= |v.Contents(ch)| ==> Overlay(v.Contents(ch), seek, data) == v.Contents(ch);
  }

  lemma FitsInCluster(v: Volume, c: nat, ch: seq<nat>, seek: nat, length: nat)
    requires v.Mounted() && v.IsChain(c, ch) && v.AllPresent(ch)
    ensures WriteFits(v, |v.Contents(ch)|, seek, length)
       <==> || v.ClusterIndex(seek) >= |ch| || length == 0
            || v.ClusterOffset(seek) == 0 || v.ClusterOffset(seek) + length <= v.ClusterSize()
  {
    PastTheEnd(v, c, ch, seek);
  }

  lemma FirstTurn(v: Volume, c: nat, seek: nat, length: nat)
    requires v.Mounted()
    ensures v.WriteStays(c, seek, length) == v.StaysInBuffer(c, v.ClusterIndex(seek), v.ClusterOffset(seek), length)
    ensures v.ClusterOffset(seek) == 0 || v.ClusterOffset(seek) + length <= v.ClusterSize() ==>
      v.WriteStays(c, seek, length)
  {
  }

  lemma FittingWriteIsCorrect(v: Volume, c: nat, ch: seq<nat>, seek: nat, data: seq<Byte>)
    requires v.Mounted() && v.IsChain(c, ch) && v.AllPresent(ch)
    requires WriteFits(v, |v.Contents(ch)|, seek, |data|)
    ensures WriteCorrect(v, c, ch, seek, data)
  {
    hide *;
    FitsInCluster(v, c, ch, seek, |data|);
    if v.ClusterIndex(seek) < |ch| && data != [] {
      FirstTurn(v, c, seek, |data|);
      FittingTail(v, c, ch, v.ClusterIndex(seek), v.ClusterOffset(seek), data);
      WriteCorrectFromCluster(v, c, ch, seek, data);
    } else {
      NothingToWrite(v, c, ch, seek, data);
    }
  }

  /** Bytes that expose the lost ones: all differ from `x` except the one a whole cluster in. */
  function Telltale(x: Byte, size: nat, length: nat): (s: seq<Byte>)
    ensures |s| == length
  {
    seq(length, i => if i == size then x else (x + 1) % 256)
  }

  /** In the last cluster the count includes bytes that did not fit. */
  lemma OverflowMiscounts(v: Volume, c: nat, ch: seq<nat>, k: nat, start: nat, data: seq<Byte>)
    requires v.Mounted() && v.IsChain(c, ch) && v.AllPresent(ch) && k + 1 == |ch|
    requires 0 < start < v.ClusterSize() < start + |data| && v.StaysInBuffer(c, k, start, |data|)
    ensures v.WriteCount(c, k, start, |data|) != Min(|data|, |v.Tail(ch, k)| - start)
  {
    WriteFromStep(v, c, ch, k, start, data);
    assert v.Tail(ch, k) == v.Cluster(ch[k]) + v.Tail(ch, k + 1);
    hide Volume.WriteFrom, Volume.Walk, Volume.TransferResult, Volume.IsChain, Volume.Mounted, Volume.Cluster;
  }

  ghost function FirstByte(v: Volume, ch: seq<nat>, k: nat): Byte
    requires v.Mounted() && v.AllPresent(ch)
  {
    if k < |ch| then v.Cluster(ch[k])[0] else 0
  }

  lemma LeavingIsWrong(v: Volume, c: nat, ch: seq<nat>, seek: nat, data: seq<Byte>)
    requires v.Mounted() && v.AllPresent(ch) && !v.WriteStays(c, seek, |data|)
    ensures !WriteCorrect(v, c, ch, seek, data)
  {
  }

  lemma OverflowingWriteIsWrong(v: Volume, c: nat, ch: seq<nat>, seek: nat, length: nat) returns (data: seq<Byte>)
    requires v.Mounted() && v.IsChain(c, ch) && v.AllPresent(ch)
    requires !WriteFits(v, |v.Contents(ch)|, seek, length)
    ensures |data| == length && !WriteCorrect(v, c, ch, seek, data)
  {
    hide *;
    var k, start, size := v.ClusterIndex(seek), v.ClusterOffset(seek), v.ClusterSize();
    var x := FirstByte(v, ch, k + 1);
    SeekSplit(v, seek);
    FitsInCluster(v, c, ch, seek, length);
    data := Telltale(x, size, length);
    if !v.WriteStays(c, seek, length) {
      LeavingIsWrong(v, c, ch, seek, data);
    } else {
      FirstTurn(v, c, seek, length);
      WriteCorrectFromCluster(v, c, ch, seek, data);
      if k + 1 < |ch| {
        WriteExact(v, c, ch, k, start, data);
        OverflowShows(v, v.WriteFrom(c, k, start, data), ch, k, start, x, length);
      } else {
        OverflowMiscounts(v, c, ch, k, start, data);
      }
    }
  }

  /** The first byte of the next cluster keeps its value or takes a byte meant for further on. */
  lemma OverflowShows(v: Volume, w: Volume, ch: seq<nat>, k: nat, start: nat, x: Byte, length: nat)
    requires v.Mounted() && v.AllPresent(ch) && w.AllPresent(ch) && k + 1 < |ch| && w == v.(bytes := w.bytes)
    requires 0 < start < v.ClusterSize() < start + length && x == FirstByte(v, ch, k + 1)
    requires var data, n := Telltale(x, v.ClusterSize(), length), Min(v.ClusterSize(), length);
      w.Tail(ch, k + 1) == Overlay(v.Tail(ch, k + 1), 0, data[n..])
    ensures w.Tail(ch, k) != Overlay(v.Tail(ch, k), start, Telltale(x, v.ClusterSize(), length))
  {
    var data, size := Telltale(x, v.ClusterSize(), length), v.ClusterSize();
    var wrong, right := w.Tail(ch, k), Overlay(v.Tail(ch, k), start, data);
    assert v.Tail(ch, k + 1)[0] == x;
    assert w.Tail(ch, k + 1)[0] == x;
    assert wrong[size] == x;
    assert right[size] == data[size - start] == (x + 1) % 256;
  }

  /** `fat_writefile` is correct for all data of a length exactly when the write fits. */
  lemma WriteCorrectIffFits(v: Volume, c: nat, ch: seq<nat>, seek: nat, length: nat)
    requires v.Mounted() && v.IsChain(c, ch) && v.AllPresent(ch)
    ensures (forall data: seq<Byte> :: |data| == length ==> WriteCorrect(v, c, ch, seek, data))
       <==> WriteFits(v, |v.Contents(ch)|, seek, length)
  {
    if WriteFits(v, |v.Contents(ch)|, seek, length) {
      forall data: seq<Byte> | |data| == length
        ensures WriteCorrect(v, c, ch, seek, data)
      {
        FittingWriteIsCorrect(v, c, ch, seek, data);
      }
    } else {
      var data := OverflowingWriteIsWrong(v, c, ch, seek, length);
    }
  }

  /** A write that fits is read back, and everything else keeps its bytes: the rest of the file, the
      clusters of every other file, the boot sectors and the allocation tables. */
  lemma WriteThenRead(v: Volume, c: nat, ch: seq<nat>, seek: nat, data: seq<Byte>)
    requires v.Mounted() && v.IsChain(c, ch) && v.AllPresent(ch)
    requires WriteFits(v, |v.Contents(ch)|, seek, |data|)
    ensures var w := v.Write(c, seek, data);
      && w.Mounted() && w.IsChain(c, ch)
      && w.Read(c, seek, |data|) == data[..v.Written(c, seek, |data|)]
      && Undisturbed(v, w, ch)
  {
    var w := v.Write(c, seek, data);
    FittingWriteIsCorrect(v, c, ch, seek, data);
    WriteUndisturbed(v, c, ch, seek, data);
    SameChain(v, w, ch, c, ch);
    ReadIsSlice(w, c, ch, seek, |data|);
  }

  lemma WriteUndisturbed(v: Volume, c: nat, ch: seq<nat>, seek: nat, data: seq<Byte>)
    requires v.Mounted() && v.IsChain(c, ch) && v.AllPresent(ch) && v.WriteStays(c, seek, |data|)
    ensures Undisturbed(v, v.Write(c, seek, data), ch)
  {
    var k := v.ClusterIndex(seek);
    WriteFromUndisturbed(v, c, ch, k, v.ClusterOffset(seek), data);
    UndisturbedSelf(v, ch);
    UndisturbedTrans(v, v, v.Write(c, seek, data), ch, ch[Min(k, |ch|)..], ch);
  }

  /** No write that stays in its buffer, fitting or not, changes what another file holds, provided their
      clusters differ. */
  lemma OtherFilesKeepTheirBytes(v: Volume, c: nat, ch: seq<nat>, seek: nat, data: seq<Byte>, d: nat, other: seq<nat>)
    requires v.Mounted() && v.IsChain(c, ch) && v.IsChain(d, other)
    requires v.AllPresent(ch) && v.AllPresent(other) && forall x :: x in other ==> x !in ch
    requires v.WriteStays(c, seek, |data|)
    ensures var w := v.Write(c, seek, data);
      w.Mounted() && w.IsChain(d, other) && w.AllPresent(other) && w.Contents(other) == v.Contents(other)
  {
    var w := v.Write(c, seek, data);
    WriteUndisturbed(v, c, ch, seek, data);
    SameChain(v, w, ch, d, other);
    SameTail(v, w, ch, other, 0);
  }

  // ----- Leaving the buffer -----

  /** A write to a file leaves the buffer exactly when it starts inside the file and its first turn, a whole
      cluster or all of the data, does not fit between the offset and the buffer's end. */
  lemma LeavesBufferIff(v: Volume, c: nat, ch: seq<nat>, seek: nat, length: nat)
    requires v.Mounted() && v.IsChain(c, ch) && v.AllPresent(ch)
    ensures !v.WriteStays(c, seek, length)
       <==> seek < |v.Contents(ch)| && v.ClusterOffset(seek) + Min(v.ClusterSize(), length) > BUFFER_SIZE
  {
    PastTheEnd(v, c, ch, seek);
    WalkChain(v, c, ch, v.ClusterIndex(seek));
  }

  /** With clusters of at most 2 KiB no write leaves the buffer. */
  lemma SmallClustersStay(v: Volume, c: nat, seek: nat, length: nat)
    requires v.Mounted() && v.spc <= 4
    ensures v.WriteStays(c, seek, length)
  {
  }

  // ----- The size that was meant -----

  /** The writing loop with the size of the reading loop: a turn takes the bytes that fit behind `start`. */
  function RepairedFrom(v: Volume, c: nat, num: nat, start: nat, data: seq<Byte>): (w: Volume)
    requires v.Mounted() && start < v.ClusterSize()
    ensures w == v.(bytes := w.bytes) && |w.bytes| == |v.bytes|
    decreases |data|
  {
    if data == [] || v.TransferResult(c, num) <= 0 then v
    else
      var t, n := v.Walk(c, num), Min(v.ClusterSize() - start, |data|);
      RepairedFrom(v.PutCluster(t, Overlay(v.Cluster(t), start, data[..n])), c, num + 1, 0, data[n..])
  }

  function RepairedCount(v: Volume, c: nat, num: nat, start: nat, length: nat): (n: nat)
    requires v.Mounted() && start < v.ClusterSize()
    decreases length
  {
    if length == 0 || v.TransferResult(c, num) <= 0 then 0
    else
      var n := Min(v.ClusterSize() - start, length);
      n + RepairedCount(v, c, num + 1, 0, length - n)
  }

  /** From the start of a cluster on, the two loops are the same. */
  lemma {:induction false} RepairedFromZero(v: Volume, c: nat, num: nat, data: seq<Byte>)
    requires v.Mounted()
    ensures RepairedFrom(v, c, num, 0, data) == v.WriteFrom(c, num, 0, data)
    decreases |data|
  {
    if data != [] && v.TransferResult(c, num) > 0 {
      var t, n := v.Walk(c, num), Min(v.ClusterSize(), |data|);
      RepairedFromZero(v.PutCluster(t, Overlay(v.Cluster(t), 0, data[..n])), c, num + 1, data[n..]);
    }
  }

  lemma {:induction false} RepairedCountFromZero(v: Volume, c: nat, num: nat, length: nat)
    requires v.Mounted()
    ensures RepairedCount(v, c, num, 0, length) == v.WriteCount(c, num, 0, length)
    decreases length
  {
    if length > 0 && v.TransferResult(c, num) > 0 {
      RepairedCountFromZero(v, c, num + 1, length - Min(v.ClusterSize(), length));
    }
  }

  /** One turn of the repaired loop is one turn of the source's with the bytes that fit. */
  lemma RepairedTurn(v: Volume, c: nat, ch: seq<nat>, k: nat, start: nat, data: seq<Byte>)
    requires v.Mounted() && v.IsChain(c, ch) && v.AllPresent(ch) && k < |ch| && start < v.ClusterSize() && data != []
    ensures var n := Min(v.ClusterSize() - start, |data|);
      && RepairedFrom(v, c, k, start, data) == OneTurn(v, ch, k, start, data[..n]).WriteFrom(c, k + 1, 0, data[n..])
      && RepairedCount(v, c, k, start, |data|) == n + v.WriteCount(c, k + 1, 0, |data| - n)
  {
    hide *;
    var n := Min(v.ClusterSize() - start, |data|);
    RepairedUnfold(v, c, ch, k, start, data);
    OneTurnEffect(v, c, ch, k, start, data[..n]);
    RepairedFromZero(OneTurn(v, ch, k, start, data[..n]), c, k + 1, data[n..]);
    RepairedCountFromZero(v, c, k + 1, |data| - n);
  }

  lemma RepairedUnfold(v: Volume, c: nat, ch: seq<nat>, k: nat, start: nat, data: seq<Byte>)
    requires v.Mounted() && v.IsChain(c, ch) && v.AllPresent(ch) && k < |ch| && start < v.ClusterSize() && data != []
    ensures var n := Min(v.ClusterSize() - start, |data|);
      && 0 < n <= |data|
      && OneTurn(v, ch, k, start, data[..n]).Mounted()
      && RepairedFrom(v, c, k, start, data) == RepairedFrom(OneTurn(v, ch, k, start, data[..n]), c, k + 1, 0, data[n..])
      && RepairedCount(v, c, k, start, |data|) == n + RepairedCount(v, c, k + 1, 0, |data| - n)
  {
    var n := Min(v.ClusterSize() - start, |data|);
    WalkChain(v, c, ch, k);
    assert data[..n][..Min(v.ClusterSize(), n)] == data[..n];
    hide Volume.IsChain, Volume.Walk, Overlay, Volume.AllPresent;
  }

  lemma TurnKeepsEarlier(v: Volume, w: Volume, ch: seq<nat>, k: nat)
    requires v.AllPresent(ch) && k < |ch| && Undisturbed(v, w, [ch[k]])
    requires forall i, j :: 0 <= i < j < |ch| ==> ch[i] != ch[j]
    ensures w.AllPresent(ch) ==> forall i :: 0 <= i < k ==> w.Cluster(ch[i]) == v.Cluster(ch[i])
  {
  }

  lemma TailSplits(v: Volume, ch: seq<nat>, k: nat)
    requires v.AllPresent(ch) && k < |ch|
    ensures v.Present(ch[k]) && v.Tail(ch, k) == v.Cluster(ch[k]) + v.Tail(ch, k + 1)
    ensures |v.Cluster(ch[k])| == v.ClusterSize()
  {
  }

  lemma RepairedTail(v: Volume, c: nat, ch: seq<nat>, k: nat, start: nat, data: seq<Byte>)
    requires v.Mounted() && v.IsChain(c, ch) && v.AllPresent(ch) && k < |ch| && start < v.ClusterSize() && data != []
    ensures var w := RepairedFrom(v, c, k, start, data);
      && w.AllPresent(ch) && Undisturbed(v, w, ch)
      && (forall i :: 0 <= i < k ==> w.Cluster(ch[i]) == v.Cluster(ch[i]))
      && start < |v.Tail(ch, k)| && w.Tail(ch, k) == Overlay(v.Tail(ch, k), start, data)
      && RepairedCount(v, c, k, start, |data|) == Min(|data|, |v.Tail(ch, k)| - start)
  {
    hide *;
    var n := Min(v.ClusterSize() - start, |data|);
    var w1, w, rest := OneTurn(v, ch, k, start, data[..n]), RepairedFrom(v, c, k, start, data), data[n..];
    RepairedTurn(v, c, ch, k, start, data);
    OneTurnEffect(v, c, ch, k, start, data[..n]);
    ChainDistinct(v, c, ch);
    TurnKeepsEarlier(v, w1, ch, k);
    WriteFromZero(w1, c, ch, k + 1, rest);
    LaterTurnsStay(w1, c, k + 1, |rest|);
    EarlierClusters(w1, c, ch, k + 1, 0, rest);
    WriteFromUndisturbed(w1, c, ch, k + 1, 0, rest);
    UndisturbedTrans(v, w1, w, [ch[k]], ch[Min(k + 1, |ch|)..], ch);
    SameCount(v, w1, [ch[k]], c, k + 1, 0, |rest|);
    TailSplits(v, ch, k);
    TailSplits(w, ch, k);
    RepairedBytes(v.Cluster(ch[k]), v.Tail(ch, k + 1), start, data);
  }

  lemma RepairedBytes(a: seq<Byte>, b: seq<Byte>, start: nat, data: seq<Byte>)
    requires start < |a|
    ensures var n := Min(|a| - start, |data|);
      && data[..n][..Min(|a|, n)] == data[..n]
      && Overlay(a + b, start, data) == Overlay(a, start, data[..n]) + Overlay(b, 0, data[n..])
  {
  }

  /** With `size - start` in place of `size` the write is correct for every position, length and data, stays
      in its buffer and changes nothing but the file. */
  lemma RepairedWriteIsCorrect(v: Volume, c: nat, ch: seq<nat>, seek: nat, data: seq<Byte>)
    requires v.Mounted() && v.IsChain(c, ch) && v.AllPresent(ch)
    ensures var f, start := v.Contents(ch), v.ClusterOffset(seek);
      var w := RepairedFrom(v, c, v.ClusterIndex(seek), start, data);
      && w.AllPresent(ch) && Undisturbed(v, w, ch)
      && w.Contents(ch) == (if seek <= |f| then Overlay(f, seek, data) else f)
      && RepairedCount(v, c, v.ClusterIndex(seek), start, |data|) == |Slice(f, seek, |data|)|
      && start + Min(v.ClusterSize() - start, |data|) <= BUFFER_SIZE
  {
    hide *;
    PastTheEnd(v, c, ch, seek);
    if v.ClusterIndex(seek) < |ch| && data != [] {
      RepairedInside(v, c, ch, seek, data);
    } else {
      RepairedNothing(v, c, ch, seek, data);
    }
    RepairedStays(v, seek, |data|);
  }

  lemma RepairedStays(v: Volume, seek: nat, length: nat)
    requires v.Mounted()
    ensures v.ClusterOffset(seek) + Min(v.ClusterSize() - v.ClusterOffset(seek), length) <= BUFFER_SIZE
  {
  }

  lemma RepairedNothing(v: Volume, c: nat, ch: seq<nat>, seek: nat, data: seq<Byte>)
    requires v.Mounted() && v.IsChain(c, ch) && v.AllPresent(ch)
    requires seek >= |v.Contents(ch)| || data == []
    ensures var k, start, f := v.ClusterIndex(seek), v.ClusterOffset(seek), v.Contents(ch);
      && RepairedFrom(v, c, k, start, data) == v && RepairedCount(v, c, k, start, |data|) == 0
      && Undisturbed(v, v, ch) && f == (if seek <= |f| then Overlay(f, seek, data) else f)
      && |Slice(f, seek, |data|)| == 0
  {
    PastTheEnd(v, c, ch, seek);
    WalkChain(v, c, ch, v.ClusterIndex(seek));
    UndisturbedSelf(v, ch);
    NothingLaid(v.Contents(ch), seek, data);
    hide Volume.IsChain, Undisturbed, Volume.Tail, Overlay, Slice;
  }

  lemma NothingLaid(f: seq<Byte>, seek: nat, data: seq<Byte>)
    requires seek >= |f| || data == []
    ensures |Slice(f, seek, |data|)| == 0 && (seek <= |f| ==> Overlay(f, seek, data) == f)
  {
  }

  lemma SliceLength(f: seq<Byte>, seek: nat, length: nat)
    requires seek < |f|
    ensures |Slice(f, seek, length)| == Min(length, |f| - seek)
  {
  }

  lemma RepairedInside(v: Volume, c: nat, ch: seq<nat>, seek: nat, data: seq<Byte>)
    requires v.Mounted() && v.IsChain(c, ch) && v.AllPresent(ch) && v.ClusterIndex(seek) < |ch| && data != []
    ensures var f, start := v.Contents(ch), v.ClusterOffset(seek);
      var w := RepairedFrom(v, c, v.ClusterIndex(seek), start, data);
      && seek < |f| && w.AllPresent(ch) && Undisturbed(v, w, ch)
      && w.Contents(ch) == Overlay(f, seek, data)
      && RepairedCount(v, c, v.ClusterIndex(seek), start, |data|) == |Slice(f, seek, |data|)|
  {
    hide *;
    var k, start, f := v.ClusterIndex(seek), v.ClusterOffset(seek), v.Contents(ch);
    var w := RepairedFrom(v, c, k, start, data);
    PastTheEnd(v, c, ch, seek);
    SeekSplit(v, seek);
    RepairedTail(v, c, ch, k, start, data);
    SameVolumeShape(v, w);
    HeadSame(v, w, ch, k);
    TailIsSuffix(v, ch, k);
    TailIsSuffix(w, ch, k);
    SameLength(v, w, ch);
    SuffixLength(f, k * v.ClusterSize());
    OverlayOfSuffix(f, w.Contents(ch), k * v.ClusterSize(), start, data);
    SliceLength(f, seek, |data|);
  }

  lemma SuffixLength(f: seq<Byte>, a: nat)
    requires a <= |f|
    ensures |f[a..]| == |f| - a
  {
  }
}
