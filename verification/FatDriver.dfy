/** The FAT32 file layer of `fat.c`: one sector of the table cached, chains followed link by link,
    files read and written through a cluster-sized buffer. */
module FatDriver {
  import opened Bytes
  import opened Fat32
  import opened FatLayout
  import FatWrites

  /** The SD card.  A transfer moves whole sectors and returns the byte count, or 0 when the card
      does not have all of them. */
  class SdCard {
    var bytes: seq<Byte>

    constructor (image: seq<Byte>)
      ensures bytes == image
    {
      bytes := image;
    }

    method ReadBlocks(lba: nat, buffer: array<Byte>, num: nat) returns (r: int)
      requires num * SECTOR <= buffer.Length
      modifies buffer
      ensures (lba + num) * SECTOR > |bytes| ==> r == 0 && buffer[..] == old(buffer[..])
      ensures (lba + num) * SECTOR <= |bytes| ==>
        && r == num * SECTOR
        && buffer[..] == bytes[lba * SECTOR..(lba + num) * SECTOR] + old(buffer[..])[num * SECTOR..]
    {
      if (lba + num) * SECTOR > |bytes| {
        return 0;
      }
      forall i | 0 <= i < num * SECTOR {
        buffer[i] := bytes[lba * SECTOR + i];
      }
      return num * SECTOR;
    }

    method WriteBlocks(lba: nat, buffer: array<Byte>, num: nat) returns (r: int)
      requires num * SECTOR <= buffer.Length
      modifies this
      ensures (lba + num) * SECTOR > |old(bytes)| ==> r == 0 && bytes == old(bytes)
      ensures (lba + num) * SECTOR <= |old(bytes)| ==>
        && r == num * SECTOR
        && bytes == old(bytes)[..lba * SECTOR] + buffer[..num * SECTOR] + old(bytes)[(lba + num) * SECTOR..]
    {
      if (lba + num) * SECTOR > |bytes| {
        return 0;
      }
      bytes := bytes[..lba * SECTOR] + buffer[..num * SECTOR] + bytes[(lba + num) * SECTOR..];
      return num * SECTOR;
    }
  }

  lemma EntryPlace(index: nat)
    requires index < CHAIN_END
    ensures index * 4 / SECTOR < 512 && index % (SECTOR / 4) * 4 + 4 <= SECTOR
    ensures index * 4 == index * 4 / SECTOR * SECTOR + index % (SECTOR / 4) * 4
  {
  }

  lemma SliceOfSlice(s: seq<Byte>, a: nat, n: nat, at: nat)
    requires a + n <= |s| && at + 4 <= n
    ensures s[a..a + n][at..at + 4] == s[a + at..a + at + 4]
  {
    var x, y := s[a..a + n][at..at + 4], s[a + at..a + at + 4];
    forall i | 0 <= i < |x|
      ensures x[i] == y[i]
    {
      assert s[a..a + n][at + i] == s[a + at + i];
    }
  }

  class FileSystem {
    const card: SdCard
    const partitionLba: nat
    const spc: nat
    const rsc: nat
    const nf: nat
    const spf32: nat
    /** One sector of the table, as it lies in memory. */
    const cachedFat: array<Byte>
    var lastEntrySector: nat
    /** A copy has left the buffer of `fat_writefile`: from there on the source does not say what the
        program does. */
    var overrun: bool

    ghost function Vol(): Volume
      reads this, card
    {
      Volume(partitionLba, spc, rsc, nf, spf32, card.bytes)
    }

    ghost function Repr(): set<object> {
      {this, card, cachedFat}
    }

    /** The cache holds the table sector of the last lookup. */
    ghost predicate Valid()
      reads Repr()
    {
      && Vol().Mounted()
      && cachedFat.Length == SECTOR
      && lastEntrySector < 512
      && cachedFat[..] == Vol().TableSector(lastEntrySector)
    }

    /** Mounting ends by loading the first sector of the table. */
    constructor GetPartition(card: SdCard, partitionLba: nat, spc: nat, rsc: nat, nf: nat, spf32: nat)
      requires Volume(partitionLba, spc, rsc, nf, spf32, card.bytes).Mounted()
      ensures this.card == card && fresh(Repr() - {card})
      ensures Valid() && !overrun && Vol() == Volume(partitionLba, spc, rsc, nf, spf32, card.bytes)
      ensures lastEntrySector == 0 && cachedFat.Length == 512
      ensures (partitionLba + rsc) * 512 + 512 <= |card.bytes|
      ensures cachedFat[..] == card.bytes[(partitionLba + rsc) * 512..(partitionLba + rsc) * 512 + 512]
    {
      this.card, this.partitionLba, this.spc, this.rsc := card, partitionLba, spc, rsc;
      this.nf, this.spf32 := nf, spf32;
      cachedFat := new Byte[SECTOR];
      lastEntrySector, overrun := 0, false;
      new;
      var r := card.ReadBlocks(partitionLba + rsc, cachedFat, 1);
    }

    lemma EntryInSector(index: nat)
      requires Vol().Mounted() && index < CHAIN_END
      ensures index * 4 / SECTOR < 512 && index % (SECTOR / 4) * 4 + 4 <= SECTOR
      ensures Vol().FatEntry(index)
           == Word(Vol().TableSector(index * 4 / SECTOR)[index % (SECTOR / 4) * 4..index % (SECTOR / 4) * 4 + 4])
    {
      var sector, at := index * 4 / SECTOR, index % (SECTOR / 4) * 4;
      EntryPlace(index);
      SliceOfSlice(card.bytes, Vol().FatBase() + sector * SECTOR, SECTOR, at);
    }

    /** Loads the sector unless it is the one in the cache, and makes it the last one used. */
    method Cache(sector: nat)
      requires Valid() && sector < 512
      modifies this`lastEntrySector, cachedFat
      ensures Valid() && lastEntrySector == sector
    {
      var cachedBlocks := cachedFat.Length / SECTOR;
      if sector < lastEntrySector || sector >= lastEntrySector + cachedBlocks {
        var r := card.ReadBlocks(partitionLba + rsc + sector, cachedFat, cachedBlocks);
      }
      lastEntrySector := sector;
    }

    /** The cached table is transparent: the result is the entry on the device. */
    method GetTableEntry(index: nat) returns (entry: nat)
      requires Valid() && index < CHAIN_END
      modifies this`lastEntrySector, cachedFat
      ensures Valid()
      ensures entry == Vol().FatEntry(index)
      ensures LittleEndian(entry, card.bytes, (partitionLba + rsc) * 512 + 4 * index)
    {
      EntryInSector(index);
      EntryOnCard(index);
      hide LittleEndian, Word, Volume.FatEntry, Volume.Mounted, Volume.FatBase;
      var sector := index * 4 / SECTOR;
      Cache(sector);
      var at := index % (cachedFat.Length / 4) * 4;
      entry := Word(cachedFat[..][at..at + 4]);
    }

    lemma EntryOnCard(index: nat)
      requires Vol().Mounted() && index < CHAIN_END
      ensures LittleEndian(Vol().FatEntry(index), card.bytes, (partitionLba + rsc) * 512 + 4 * index)
    {
      EntryBytes(Vol(), index);
      hide *;
    }

    lemma ClusterSectors(c: nat)
      requires Live(c)
      ensures var lba := (c - 2) * spc + (spf32 * nf + rsc + partitionLba);
        lba * SECTOR == Vol().ClusterBase(c) && (lba + spc) * SECTOR == Vol().ClusterBase(c) + Vol().ClusterSize()
    {
    }

    method ReadCluster(cluster: nat, data: array<Byte>) returns (tmp: int)
      requires Valid() && Live(cluster) && data != cachedFat && data.Length >= Vol().ClusterSize()
      modifies data
      ensures Valid()
      ensures tmp == if Vol().Present(cluster) then Vol().ClusterSize() else 0
      ensures data[..]
           == if Vol().Present(cluster) then Vol().Cluster(cluster) + old(data[..])[Vol().ClusterSize()..] else old(data[..])
    {
      var lba := (cluster - 2) * spc + (spf32 * nf + rsc + partitionLba);
      ClusterSectors(cluster);
      hide Volume.ClusterBase, Volume.Mounted, Volume.TableSector;
      tmp := card.ReadBlocks(lba, data, spc);
    }

    method WriteCluster(cluster: nat, data: array<Byte>) returns (tmp: int)
      requires Valid() && Live(cluster) && data != cachedFat && data.Length >= Vol().ClusterSize()
      modifies card
      ensures Valid()
      ensures tmp == if old(Vol()).Present(cluster) then Vol().ClusterSize() else 0
      ensures Vol()
           == if old(Vol()).Present(cluster) then old(Vol()).PutCluster(cluster, data[..Vol().ClusterSize()]) else old(Vol())
    {
      ghost var v := Vol();
      if v.Present(cluster) {
        KeepsTable(cluster, data[..v.ClusterSize()]);
      }
      var lba := (cluster - 2) * spc + (spf32 * nf + rsc + partitionLba);
      ClusterSectors(cluster);
      hide Volume.ClusterBase, Volume.Mounted, Volume.TableSector;
      tmp := card.WriteBlocks(lba, data, spc);
    }

    lemma KeepsTable(cluster: nat, s: seq<Byte>)
      requires Valid() && Vol().Present(cluster) && |s| == Vol().ClusterSize()
      ensures var w := Vol().PutCluster(cluster, s);
        w.Mounted() && w.TableSector(lastEntrySector) == Vol().TableSector(lastEntrySector)
    {
      FatWrites.PutClusterUndisturbed(Vol(), cluster, s);
      FatWrites.SameTableSector(Vol(), Vol().PutCluster(cluster, s), [cluster], lastEntrySector);
    }

    /** Moves one cluster, to or from the start of `data`. */
    method MoveCluster(cluster: nat, data: array<Byte>, write: bool) returns (tmp: int)
      requires Valid() && Live(cluster) && data != cachedFat && data.Length >= Vol().ClusterSize()
      modifies if write then {card} else {data as object}
      ensures Valid()
      ensures tmp == if old(Vol()).Present(cluster) then Vol().ClusterSize() else 0
      ensures tmp == 0 ==> Vol() == old(Vol()) && data[..] == old(data[..])
      ensures tmp > 0 && !write ==>
        Vol() == old(Vol()) && data[..] == Vol().Cluster(cluster) + old(data[..])[Vol().ClusterSize()..]
      ensures tmp > 0 && write ==>
        Vol() == old(Vol()).PutCluster(cluster, data[..Vol().ClusterSize()]) && data[..] == old(data[..])
    {
      hide Volume.PutCluster, Volume.Cluster, Volume.Present, Volume.FatEntry;
      if write {
        tmp := WriteCluster(cluster, data);
      } else {
        tmp := ReadCluster(cluster, data);
      }
    }

    /** Moves cluster number `num` of the chain, found by following the table link by link. */
    method TransferFile(cluster: nat, data: array<Byte>, num: nat, write: bool) returns (read: int)
      requires Valid() && data != cachedFat && data.Length >= Vol().ClusterSize()
      modifies this`lastEntrySector, cachedFat, if write then {card} else {data as object}
      ensures Valid()
      ensures read == old(Vol()).TransferResult(cluster, num)
      ensures var t := old(Vol()).Walk(cluster, num);
        && (read == 0 <==> !(1 < t < 0xFFF8))
        && (read == -1 <==> 1 < t < 0xFFF8 && DataPlace(old(Vol()), t - 2) + spc * 512 > |old(card.bytes)|)
        && (read > 0 ==> read == spc * 512)
      ensures read <= 0 ==> Vol() == old(Vol()) && data[..] == old(data[..])
      ensures read > 0 && !write ==>
        Vol() == old(Vol()) && data[..] == Vol().Cluster(Vol().Walk(cluster, num)) + old(data[..])[Vol().ClusterSize()..]
      ensures read > 0 && write ==>
        Vol() == old(Vol()).PutCluster(old(Vol()).Walk(cluster, num), data[..Vol().ClusterSize()])
        && data[..] == old(data[..])
    {
      ghost var v := Vol();
      var c: nat, counter: nat := cluster, 0;
      read := 0;
      WalkLinks(v);
      ResultOnCard(v, cluster, num);
      hide Volume.PutCluster, Volume.Cluster, Volume.Present, Volume.FatEntry, Volume.Walk, Volume.Mounted, Valid;
      while c > 1 && c < CHAIN_END
        invariant Valid() && Vol() == v && data[..] == old(data[..])
        invariant read == 0 && counter <= num && v.Walk(c, num - counter) == v.Walk(cluster, num)
        decreases num - counter
      {
        if counter == num {
          var tmp := MoveCluster(c, data, write);
          if tmp <= 0 {
            return -1;
          }
          read := read + tmp;
          break;
        } else {
          c := GetTableEntry(c);
        }
        counter := counter + 1;
      }
    }

    lemma ResultOnCard(v: Volume, cluster: nat, num: nat)
      requires v.Mounted()
      ensures var t, read := v.Walk(cluster, num), v.TransferResult(cluster, num);
        && (read == 0 <==> !(1 < t < 0xFFF8))
        && (read == -1 <==> 1 < t < 0xFFF8 && DataPlace(v, t - 2) + v.spc * 512 > |v.bytes|)
        && (read > 0 ==> read == v.spc * 512)
    {
      var t := v.Walk(cluster, num);
      if Live(t) {
        PlaceIsBase(v, t);
      }
      hide Volume.Walk, DataPlace, Volume.ClusterBase;
    }

    lemma WalkLinks(v: Volume)
      requires v.Mounted()
      ensures forall c: nat, n: nat :: n == 0 || !Live(c) ==> v.Walk(c, n) == c
      ensures forall c: nat, n: nat :: n > 0 && Live(c) ==> v.Walk(c, n) == v.Walk(v.FatEntry(c), n - 1)
    {
    }

    /** One turn of the reading loop: fetches a cluster and copies what is wanted of it. */
    method ReadPiece(cluster: nat, buffer: array<Byte>, data: array<Byte>,
                     clusterNum: nat, start: nat, index: nat, remaining: nat)
      returns (size: int, effectiveLen: nat)
      requires Valid() && buffer != cachedFat && data != cachedFat && buffer != data
      requires buffer.Length == BUFFER_SIZE && start < Vol().ClusterSize() && index + remaining <= data.Length
      modifies this`lastEntrySector, cachedFat, buffer, data
      ensures Valid() && Vol() == old(Vol())
      ensures size == Vol().TransferResult(cluster, clusterNum)
      ensures size <= 0 ==> data[..] == old(data[..])
      ensures size > 0 ==>
        && effectiveLen == Min(Vol().ClusterSize() - start, remaining)
        && data[..] == Overlay(old(data[..]), index,
                               Vol().Cluster(Vol().Walk(cluster, clusterNum))[start..start + effectiveLen])
    {
      hide Volume.Walk, Volume.FatEntry, Volume.TableSector, Volume.Cluster, Volume.TransferResult, Volume.Mounted, Overlay;
      size := TransferFile(cluster, buffer, clusterNum, false);
      effectiveLen := 0;
      if size > 0 {
        effectiveLen := if size - start < remaining then size - start else remaining;
        assert buffer[start..start + effectiveLen]
            == Vol().Cluster(Vol().Walk(cluster, clusterNum))[start..start + effectiveLen];
        Memcpy(data, index, buffer, start, effectiveLen);
      }
    }

    /** One turn of the reading loop, and how it advances towards delivering `all`. */
    method ReadNext(cluster: nat, buffer: array<Byte>, data: array<Byte>,
                    clusterNum: nat, start: nat, index: nat, remaining: nat,
                    ghost all: seq<Byte>, ghost done: seq<Byte>, ghost before: seq<Byte>)
      returns (size: int, effectiveLen: nat, ghost done': seq<Byte>)
      requires Valid() && buffer != cachedFat && data != cachedFat && buffer != data
      requires buffer.Length == BUFFER_SIZE && |done| == index && index + remaining <= data.Length && remaining > 0
      requires ReadProgress(Vol(), cluster, clusterNum, start, remaining, all, done)
      requires Delivered(data[..], done, before)
      modifies this`lastEntrySector, cachedFat, buffer, data
      ensures Valid() && Vol() == old(Vol()) && Delivered(data[..], done', before)
      ensures size <= 0 ==> done' == done == all
      ensures size > 0 ==>
        && |done'| == index + effectiveLen && 0 < effectiveLen <= remaining
        && ReadProgress(Vol(), cluster, clusterNum + 1, 0, remaining - effectiveLen, all, done')
    {
      hide *;
      ghost var chunk := NextPiece(Vol(), cluster, clusterNum, start, remaining, all, done, data[..], before);
      size, effectiveLen := ReadPiece(cluster, buffer, data, clusterNum, start, index, remaining);
      done' := if size > 0 then done + chunk else done;
    }

    /** The reading loop. */
    method ReadPieces(cluster: nat, buffer: array<Byte>, data: array<Byte>,
                      firstCluster: nat, firstStart: nat, length: nat, ghost all: seq<Byte>, ghost before: seq<Byte>)
      returns (index: nat)
      requires Valid() && buffer != cachedFat && data != cachedFat && buffer != data
      requires buffer.Length == BUFFER_SIZE && length <= data.Length
      requires ReadProgress(Vol(), cluster, firstCluster, firstStart, length, all, [])
      requires Delivered(data[..], [], before)
      modifies this`lastEntrySector, cachedFat, buffer, data
      ensures Valid() && Vol() == old(Vol()) && index == |all| && Delivered(data[..], all, before)
    {
      hide *;
      var clusterNum: nat, start: nat, remaining: nat := firstCluster, firstStart, length;
      ghost var done: seq<Byte> := [];
      index := 0;
      while remaining > 0
        invariant Valid() && Vol() == old(Vol()) && index + remaining == length && index == |done|
        invariant ReadProgress(Vol(), cluster, clusterNum, start, remaining, all, done)
        invariant Delivered(data[..], done, before)
      {
        var size, effectiveLen;
        size, effectiveLen, done := ReadNext(cluster, buffer, data, clusterNum, start, index, remaining, all, done, before);
        if size <= 0 {
          return;
        }
        start := 0;
        index := index + effectiveLen;
        remaining := remaining - effectiveLen;
        clusterNum := clusterNum + 1;
      }
      ReadEnd(Vol(), cluster, clusterNum, start, all, done);
    }

    /** Reads up to `length` bytes of the file from position `seek`: the result counts the bytes that
        the chain has there, and exactly those are delivered. */
    method ReadFile(cluster: nat, data: array<Byte>, seek: nat, length: nat) returns (index: nat)
      requires Valid() && data != cachedFat && data.Length >= length
      modifies this`lastEntrySector, cachedFat, data
      ensures Valid() && Vol() == old(Vol())
      ensures index == |Vol().Read(cluster, seek, length)|
      ensures data[..] == Vol().Read(cluster, seek, length) + old(data[..])[index..]
    {
      hide Quotient, Remainder;
      var buffer := new Byte[BUFFER_SIZE];
      var clusterNum, start := Quotient(seek, spc * SECTOR), Remainder(seek, spc * SECTOR);
      ReadStart(Vol(), cluster, clusterNum, start, length, data[..]);
      index := ReadPieces(cluster, buffer, data, clusterNum, start, length,
                          Vol().ReadFrom(cluster, clusterNum, start, length), data[..]);
    }

    /** One turn of the writing loop: fetches a cluster, lays data over it from `start`, and writes
        it back.  A copy that would leave the buffer is recorded in its place and ends the writing. */
    method WritePiece(cluster: nat, buffer: array<Byte>, data: array<Byte>,
                      clusterNum: nat, start: nat, index: nat, remaining: nat, ghost chunk: seq<Byte>)
      returns (size: int, effectiveLen: nat)
      requires Valid() && buffer != cachedFat && data != cachedFat && buffer != data
      requires buffer.Length == BUFFER_SIZE && start < Vol().ClusterSize() && index + remaining <= data.Length
      requires 0 < |chunk| == Min(Vol().ClusterSize(), remaining) && chunk == data[index..index + |chunk|]
      modifies this`lastEntrySector, this`overrun, cachedFat, buffer, card
      ensures Valid()
      ensures var stays := old(Vol()).StaysInBuffer(cluster, clusterNum, start, remaining);
        && overrun == (old(overrun) || !stays)
        && size == if stays then old(Vol()).TransferResult(cluster, clusterNum) else 0
      ensures size <= 0 ==> Vol() == old(Vol())
      ensures size > 0 ==>
        var c, v := old(Vol()).Walk(cluster, clusterNum), old(Vol());
        && effectiveLen == |chunk|
        && Vol() == v.PutCluster(c, Overlay(v.Cluster(c), start, chunk))
    {
      hide Volume.PutCluster, Volume.Cluster, Volume.Walk, Volume.TransferResult, Volume.Present, Overlay;
      size := TransferFile(cluster, buffer, clusterNum, false);
      effectiveLen := 0;
      if size > 0 {
        ghost var content := Vol().Cluster(Vol().Walk(cluster, clusterNum));
        effectiveLen := if size < remaining then size else remaining;
        if start + effectiveLen > BUFFER_SIZE {
          overrun := true;
          return 0, 0;
        }
        assert buffer[..|content|] == content;
        LayOver(buffer, start, data, index, effectiveLen, content);
        var written := TransferFile(cluster, buffer, clusterNum, true);
      }
    }

    /** Copies data into the buffer from `start` on, `content` being the cluster that the buffer holds: what
        comes to lie behind the cluster is lost. */
    method LayOver(buffer: array<Byte>, start: nat, data: array<Byte>, index: nat, n: nat, ghost content: seq<Byte>)
      requires buffer != data && buffer.Length == BUFFER_SIZE && index + n <= data.Length
      requires start < |content| <= BUFFER_SIZE && start + n <= BUFFER_SIZE && buffer[..|content|] == content
      modifies buffer
      ensures buffer[..|content|] == Overlay(content, start, data[index..index + n])
    {
      ghost var before := buffer[..];
      Memcpy(buffer, start, data, index, n);
      OverlayInBuffer(content, before, start, data[index..index + n]);
    }

    /** One turn of the writing loop, and how it advances towards the final volume. */
    method WriteNext(cluster: nat, buffer: array<Byte>, data: array<Byte>,
                     clusterNum: nat, start: nat, index: nat, remaining: nat,
                     ghost all: seq<Byte>, ghost v: Volume, ghost touched: seq<nat>, ghost target: Volume, ghost count: nat,
                     ghost stays: bool)
      returns (size: int, effectiveLen: nat, ghost touched': seq<nat>)
      requires Valid() && buffer != cachedFat && data != cachedFat && buffer != data
      requires buffer.Length == BUFFER_SIZE && index + remaining == |all| <= data.Length && remaining > 0
      requires StartsWith(data[..], all)
      requires WriteProgress(v, Vol(), touched, cluster, clusterNum, start, all, index, target, count, stays)
      modifies this`lastEntrySector, this`overrun, cachedFat, buffer, card
      ensures Valid()
      ensures overrun == (old(overrun) || !stays)
      ensures size <= 0 ==> Vol() == target && index == count
      ensures size > 0 ==>
        && stays && 0 < effectiveLen <= remaining
        && WriteProgress(v, Vol(), touched', cluster, clusterNum + 1, 0, all,
                         index + effectiveLen, target, count, stays)
    {
      hide *;
      ghost var w := Vol();
      ghost var chunk := NextChunk(v, w, touched, cluster, clusterNum, start, all, data[..], index, target, count, stays);
      touched' := NextTurn(v, w, touched, cluster, clusterNum, start, all, chunk, index, target, count, stays);
      size, effectiveLen := WritePiece(cluster, buffer, data, clusterNum, start, index, remaining, chunk);
    }

    /** The writing loop. */
    method WritePieces(cluster: nat, buffer: array<Byte>, data: array<Byte>,
                       firstCluster: nat, firstStart: nat, length: nat,
                       ghost all: seq<Byte>, ghost v: Volume, ghost target: Volume, ghost count: nat, ghost stays: bool)
      returns (index: nat)
      requires Valid() && buffer != cachedFat && data != cachedFat && buffer != data
      requires buffer.Length == BUFFER_SIZE && length == |all| <= data.Length && StartsWith(data[..], all)
      requires WriteProgress(v, Vol(), [], cluster, firstCluster, firstStart, all, 0, target, count, stays)
      modifies this`lastEntrySector, this`overrun, cachedFat, buffer, card
      ensures Valid() && Vol() == target && index == count
      ensures overrun == (old(overrun) || !stays)
    {
      hide *;
      var clusterNum: nat, start: nat, remaining: nat := firstCluster, firstStart, length;
      ghost var touched := [];
      index := 0;
      while remaining > 0
        invariant Valid() && index + remaining == length && StartsWith(data[..], all) && overrun == old(overrun)
        invariant WriteProgress(v, Vol(), touched, cluster, clusterNum, start, all, index, target, count, stays)
      {
        var size, effectiveLen;
        size, effectiveLen, touched :=
          WriteNext(cluster, buffer, data, clusterNum, start, index, remaining, all, v, touched, target, count, stays);
        if size <= 0 {
          return;
        }
        start := 0;
        index := index + effectiveLen;
        remaining := remaining - effectiveLen;
        clusterNum := clusterNum + 1;
      }
      WriteEnd(v, Vol(), touched, cluster, clusterNum, start, all, index, target, count, stays);
    }

    /** Writes `length` bytes at position `seek` of the file, cluster by cluster, unless the first copy
        would leave the buffer. */
    method WriteFile(cluster: nat, data: array<Byte>, seek: nat, length: nat) returns (index: nat)
      requires Valid() && data != cachedFat && data.Length >= length
      modifies this`lastEntrySector, this`overrun, cachedFat, card
      ensures Valid()
      ensures overrun == (old(overrun) || !old(Vol()).WriteStays(cluster, seek, length))
      ensures Vol() == old(Vol()).Write(cluster, seek, data[..length])
      ensures index == old(Vol()).Written(cluster, seek, length)
    {
      hide Quotient, Remainder;
      var buffer := new Byte[BUFFER_SIZE];
      var clusterNum, start := Quotient(seek, spc * SECTOR), Remainder(seek, spc * SECTOR);
      ghost var v, all := Vol(), data[..length];
      WriteStart(v, cluster, clusterNum, start, all);
      index := WritePieces(cluster, buffer, data, clusterNum, start, length, all, v,
                           v.WriteFrom(cluster, clusterNum, start, all), v.WriteCount(cluster, clusterNum, start, length),
                           v.StaysInBuffer(cluster, clusterNum, start, length));
    }
  }

  /** The reading loop: `done` has been delivered of `all`, the rest is still to be read. */
  ghost predicate ReadProgress(v: Volume, c: nat, num: nat, start: nat, remaining: nat, all: seq<Byte>, done: seq<Byte>)
  {
    v.Mounted() && start < v.ClusterSize() && all == done + v.ReadFrom(c, num, start, remaining)
  }

  lemma ReadTurn(v: Volume, c: nat, num: nat, start: nat, remaining: nat, all: seq<Byte>, done: seq<Byte>)
    requires ReadProgress(v, c, num, start, remaining, all, done)
    ensures v.Mounted() && start < v.ClusterSize()
    ensures remaining == 0 || v.TransferResult(c, num) <= 0 ==> done == all
    ensures remaining > 0 && v.TransferResult(c, num) > 0 ==>
      var n := Min(v.ClusterSize() - start, remaining);
      ReadProgress(v, c, num + 1, 0, remaining - n, all, done + v.Cluster(v.Walk(c, num))[start..start + n])
  {
    hide Volume.Walk, Volume.TransferResult, Volume.Cluster, Volume.Mounted, Volume.Present;
    if remaining > 0 && v.TransferResult(c, num) > 0 {
      var n := Min(v.ClusterSize() - start, remaining);
      var chunk, rest := v.Cluster(v.Walk(c, num))[start..start + n], v.ReadFrom(c, num + 1, 0, remaining - n);
      assert done + (chunk + rest) == done + chunk + rest;
    }
  }

  lemma ReadEnd(v: Volume, c: nat, num: nat, start: nat, all: seq<Byte>, done: seq<Byte>)
    requires ReadProgress(v, c, num, start, 0, all, done)
    ensures done == all
  {
  }

  /** The destination holds the bytes delivered so far and behind them what it held before. */
  ghost predicate Delivered(data: seq<Byte>, done: seq<Byte>, before: seq<Byte>) {
    |done| <= |before| && data == done + before[|done|..]
  }

  lemma DeliverMore(data: seq<Byte>, done: seq<Byte>, before: seq<Byte>, chunk: seq<Byte>)
    requires Delivered(data, done, before) && |done| + |chunk| <= |before|
    ensures Delivered(Overlay(data, |done|, chunk), done + chunk, before)
  {
  }

  /** What the next turn reads, and where that leaves the loop. */
  lemma NextPiece(v: Volume, c: nat, num: nat, start: nat, remaining: nat, all: seq<Byte>, done: seq<Byte>,
                  data: seq<Byte>, before: seq<Byte>)
    returns (chunk: seq<Byte>)
    requires ReadProgress(v, c, num, start, remaining, all, done) && Delivered(data, done, before)
    requires 0 < remaining && |done| + remaining <= |data|
    ensures v.Mounted() && start < v.ClusterSize()
    ensures v.TransferResult(c, num) <= 0 ==> done == all
    ensures v.TransferResult(c, num) > 0 ==>
      && 0 < |chunk| == Min(v.ClusterSize() - start, remaining)
      && chunk == v.Cluster(v.Walk(c, num))[start..start + |chunk|]
      && ReadProgress(v, c, num + 1, 0, remaining - |chunk|, all, done + chunk)
      && Delivered(Overlay(data, |done|, chunk), done + chunk, before)
  {
    ReadTurn(v, c, num, start, remaining, all, done);
    assert |before| == |data|;
    hide *;
    chunk := [];
    if v.TransferResult(c, num) > 0 {
      chunk := v.Cluster(v.Walk(c, num))[start..start + Min(v.ClusterSize() - start, remaining)];
      DeliverMore(data, done, before, chunk);
    }
  }

  lemma ReadStart(v: Volume, c: nat, num: nat, start: nat, length: nat, before: seq<Byte>)
    requires v.Mounted() && start < v.ClusterSize()
    ensures ReadProgress(v, c, num, start, length, v.ReadFrom(c, num, start, length), [])
    ensures Delivered(before, [], before)
  {
  }

  lemma OverlayInBuffer(cluster: seq<Byte>, buffer: seq<Byte>, start: nat, chunk: seq<Byte>)
    requires |cluster| <= |buffer| && buffer[..|cluster|] == cluster && start < |cluster|
    requires start + |chunk| <= |buffer|
    ensures Overlay(buffer, start, chunk)[..|cluster|] == Overlay(cluster, start, chunk)
  {
  }

  ghost predicate StartsWith(data: seq<Byte>, all: seq<Byte>) {
    all <= data
  }

  /** The writing loop: `w` is the volume so far, and writing `rest` from here on gives `target`;
      `index` bytes are counted, and counting on gives `count`; `stays` says whether no copy leaves the
      buffer. */
  ghost predicate WriteState(v: Volume, w: Volume, touched: seq<nat>, c: nat, num: nat, start: nat,
                             rest: seq<Byte>, index: nat, target: Volume, count: nat, stays: bool)
  {
    && v.Mounted() && w.Mounted() && FatWrites.Undisturbed(v, w, touched)
    && start < w.ClusterSize()
    && w.WriteFrom(c, num, start, rest) == target
    && index + v.WriteCount(c, num, start, |rest|) == count
    && w.StaysInBuffer(c, num, start, |rest|) == stays
  }

  ghost predicate WriteProgress(v: Volume, w: Volume, touched: seq<nat>, c: nat, num: nat, start: nat,
                                all: seq<Byte>, index: nat, target: Volume, count: nat, stays: bool)
  {
    index <= |all| && WriteState(v, w, touched, c, num, start, all[index..], index, target, count, stays)
  }

  lemma WriteStart(v: Volume, c: nat, num: nat, start: nat, all: seq<Byte>)
    requires v.Mounted() && start < v.ClusterSize()
    ensures WriteProgress(v, v, [], c, num, start, all, 0, v.WriteFrom(c, num, start, all),
                          v.WriteCount(c, num, start, |all|), v.StaysInBuffer(c, num, start, |all|))
  {
    FatWrites.UndisturbedSelf(v, []);
    assert all[0..] == all;
  }

  lemma WriteEnd(v: Volume, w: Volume, touched: seq<nat>, c: nat, num: nat, start: nat,
                 all: seq<Byte>, index: nat, target: Volume, count: nat, stays: bool)
    requires WriteProgress(v, w, touched, c, num, start, all, index, target, count, stays)
    requires index == |all|
    ensures w == target && index == count && stays
  {
  }

  lemma WriteTurn(v: Volume, w: Volume, touched: seq<nat>, c: nat, num: nat, start: nat,
                  chunk: seq<Byte>, rest: seq<Byte>, index: nat, target: Volume, count: nat, stays: bool)
    returns (touched': seq<nat>)
    requires WriteState(v, w, touched, c, num, start, chunk + rest, index, target, count, stays)
    requires 0 < |chunk| == Min(w.ClusterSize(), |chunk| + |rest|)
    ensures w.StaysInBuffer(c, num, start, |chunk| + |rest|) == stays
    ensures w.TransferResult(c, num) <= 0 || !stays ==> w == target && index == count
    ensures w.TransferResult(c, num) > 0 && stays ==>
      var t := w.Walk(c, num);
      WriteState(v, w.PutCluster(t, Overlay(w.Cluster(t), start, chunk)), touched', c, num + 1, 0,
                 rest, index + |chunk|, target, count, stays)
  {
    touched' := touched;
    FatWrites.SameWalk(v, w, touched, c, num);
    if w.TransferResult(c, num) > 0 && stays {
      var t := w.Walk(c, num);
      FatWrites.PutUndisturbed(v, w, touched, t, Overlay(w.Cluster(t), start, chunk));
      touched' := touched + [t];
      assert (chunk + rest)[..|chunk|] == chunk && (chunk + rest)[|chunk|..] == rest;
      FatWrites.WriteUnfold(v, w, c, num, start, chunk + rest);
      WriteStays(w, w.PutCluster(t, Overlay(w.Cluster(t), start, chunk)), c, num + 1, |rest|);
      hide Volume.WriteFrom, Volume.WriteCount, Volume.Walk, Volume.TransferResult, Volume.StaysInBuffer, FatWrites.Undisturbed,
           Volume.PutCluster, Overlay;
    }
  }

  lemma WriteStays(w: Volume, w': Volume, c: nat, num: nat, length: nat)
    requires w.Mounted() && w' == w.(bytes := w'.bytes) && |w'.bytes| == |w.bytes|
    ensures w'.Mounted() && w'.StaysInBuffer(c, num, 0, length)
  {
  }

  /** The same for the loop's own variables: `chunk` is the next part of `all`. */
  lemma NextTurn(v: Volume, w: Volume, touched: seq<nat>, c: nat, num: nat, start: nat,
                 all: seq<Byte>, chunk: seq<Byte>, index: nat, target: Volume, count: nat, stays: bool)
    returns (touched': seq<nat>)
    requires WriteProgress(v, w, touched, c, num, start, all, index, target, count, stays)
    requires index + |chunk| <= |all| && chunk == all[index..index + |chunk|]
    requires 0 < |chunk| == Min(w.ClusterSize(), |all| - index)
    ensures w.Mounted() && start < w.ClusterSize() && w.StaysInBuffer(c, num, start, |all| - index) == stays
    ensures w.TransferResult(c, num) <= 0 || !stays ==> w == target && index == count
    ensures w.TransferResult(c, num) > 0 && stays ==>
      var t := w.Walk(c, num);
      WriteProgress(v, w.PutCluster(t, Overlay(w.Cluster(t), start, chunk)), touched', c, num + 1, 0,
                    all, index + |chunk|, target, count, stays)
  {
    hide *;
    var rest := all[index + |chunk|..];
    ProgressState(v, w, touched, c, num, start, all, chunk, index, target, count, stays);
    touched' := WriteTurn(v, w, touched, c, num, start, chunk, rest, index, target, count, stays);
    if w.TransferResult(c, num) > 0 && stays {
      var t := w.Walk(c, num);
      StateProgress(v, w.PutCluster(t, Overlay(w.Cluster(t), start, chunk)), touched', c, num + 1, all, index + |chunk|,
                    target, count, stays);
    }
  }

  /** The part of `all` that the next turn writes, found in the caller's data. */
  lemma NextChunk(v: Volume, w: Volume, touched: seq<nat>, c: nat, num: nat, start: nat,
                  all: seq<Byte>, data: seq<Byte>, index: nat, target: Volume, count: nat, stays: bool)
    returns (chunk: seq<Byte>)
    requires WriteProgress(v, w, touched, c, num, start, all, index, target, count, stays)
    requires index < |all| && StartsWith(data, all)
    ensures index + |chunk| <= |all| <= |data| && 0 < |chunk| == Min(w.ClusterSize(), |all| - index)
    ensures chunk == all[index..index + |chunk|] == data[index..index + |chunk|]
  {
    chunk := all[index..index + Min(w.ClusterSize(), |all| - index)];
    hide FatWrites.Undisturbed, Volume.WriteFrom, Volume.WriteCount, Volume.StaysInBuffer;
  }

  lemma ProgressState(v: Volume, w: Volume, touched: seq<nat>, c: nat, num: nat, start: nat,
                      all: seq<Byte>, chunk: seq<Byte>, index: nat, target: Volume, count: nat, stays: bool)
    requires WriteProgress(v, w, touched, c, num, start, all, index, target, count, stays)
    requires index + |chunk| <= |all| && chunk == all[index..index + |chunk|]
    ensures w.Mounted() && start < w.ClusterSize()
    ensures WriteState(v, w, touched, c, num, start, chunk + all[index + |chunk|..], index, target, count, stays)
  {
    assert all[index..] == chunk + all[index + |chunk|..];
    hide Volume.WriteFrom, Volume.WriteCount, Volume.StaysInBuffer, FatWrites.Undisturbed;
  }

  lemma StateProgress(v: Volume, w: Volume, touched: seq<nat>, c: nat, num: nat,
                      all: seq<Byte>, index: nat, target: Volume, count: nat, stays: bool)
    requires index <= |all| && WriteState(v, w, touched, c, num, 0, all[index..], index, target, count, stays)
    ensures WriteProgress(v, w, touched, c, num, 0, all, index, target, count, stays)
  {
    hide WriteState;
  }
}
