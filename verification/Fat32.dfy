/** A mounted FAT32 volume as a value: cluster chains, and what the file layer reads from and
    writes to them.  Offsets are in bytes of the block device; a sector has 512 bytes. */
module Fat32 {
  import opened Bytes

  const SECTOR := 512
  /** Every cluster number below this value and above 1 continues a chain. */
  const CHAIN_END := 0xFFF8
  const BUFFER_SIZE := 4096

  predicate Live(c: nat) {
    1 < c < CHAIN_END
  }

  datatype Volume = Volume(partitionLba: nat, spc: nat, rsc: nat, nf: nat, spf32: nat, bytes: seq<Byte>) {

    /** First sector of the data area. */
    function DataSector(): nat {
      spf32 * nf + rsc + partitionLba
    }

    function FatBase(): nat {
      (partitionLba + rsc) * SECTOR
    }

    /** A mounted volume: one to eight sectors a cluster, a table that covers every cluster number
        that continues a chain (512 sectors, the least a FAT32 volume has), and sector numbers
        that fit in 32 bits. */
    predicate Mounted() {
      && 1 <= spc <= 8
      && spf32 * nf >= 512
      && DataSector() * SECTOR <= |bytes|
      && |bytes| < (TWO_TO_THE_32 - 8 * CHAIN_END) * SECTOR
    }

    function ClusterSize(): (n: nat)
      ensures Mounted() ==> 0 < n <= BUFFER_SIZE
    {
      spc * SECTOR
    }

    /** The number of the cluster in its chain that holds the byte at file position `seek`. */
    function ClusterIndex(seek: nat): nat
      requires Mounted()
    {
      Quotient(seek, ClusterSize())
    }

    function ClusterOffset(seek: nat): (n: nat)
      requires Mounted()
      ensures n < ClusterSize()
    {
      Remainder(seek, ClusterSize())
    }

    function ClusterBase(c: nat): nat
      requires Live(c)
    {
      ((c - 2) * spc + DataSector()) * SECTOR
    }

    /** The cluster lies inside the device. */
    predicate Present(c: nat) {
      Live(c) && ClusterBase(c) + ClusterSize() <= |bytes|
    }

    function Cluster(c: nat): (s: seq<Byte>)
      requires Present(c)
      ensures |s| == ClusterSize()
    {
      bytes[ClusterBase(c)..ClusterBase(c) + ClusterSize()]
    }

    /** Entry `i` of the first file allocation table on the device. */
    function FatEntry(i: nat): nat
      requires Mounted() && i < CHAIN_END
    {
      Word(bytes[FatBase() + 4 * i..FatBase() + 4 * i + 4])
    }

    /** Sector `n` of the table. */
    function TableSector(n: nat): seq<Byte>
      requires Mounted() && n < 512
    {
      bytes[FatBase() + n * SECTOR..FatBase() + (n + 1) * SECTOR]
    }

    /** The cluster `n` links down the chain from `c`, or the value that ended the chain. */
    function Walk(c: nat, n: nat): nat
      requires Mounted()
      decreases n
    {
      if n == 0 || !Live(c) then c else Walk(FatEntry(c), n - 1)
    }

    /** Result of transferring cluster number `num` of the chain: its size, 0 when the chain is
        shorter, -1 when the device does not have that cluster. */
    function TransferResult(c: nat, num: nat): (r: int)
      requires Mounted()
      ensures r > 0 ==> r == ClusterSize() && Present(Walk(c, num))
    {
      var t := Walk(c, num);
      if !Live(t) then 0 else if Present(t) then ClusterSize() else -1
    }

    /** The bytes that reading cluster after cluster delivers, the first one from `start` on. */
    function ReadFrom(c: nat, num: nat, start: nat, length: nat): (s: seq<Byte>)
      requires Mounted() && start < ClusterSize()
      ensures |s| <= length
      decreases length
    {
      if length == 0 || TransferResult(c, num) <= 0 then []
      else
        var n := Min(ClusterSize() - start, length);
        Cluster(Walk(c, num))[start..start + n] + ReadFrom(c, num + 1, 0, length - n)
    }

    function Read(c: nat, seek: nat, length: nat): (s: seq<Byte>)
      requires Mounted()
      ensures |s| <= length
    {
      ReadFrom(c, ClusterIndex(seek), ClusterOffset(seek), length)
    }

    function PutCluster(c: nat, s: seq<Byte>): (v: Volume)
      requires Present(c) && |s| == ClusterSize()
      ensures v == this.(bytes := v.bytes) && |v.bytes| == |bytes|
    {
      this.(bytes := bytes[..ClusterBase(c)] + s + bytes[ClusterBase(c) + ClusterSize()..])
    }

    /** The writing loop copies into its buffer only where the buffer is: from `start` on, as many bytes
        as a whole cluster has.  Later turns start at 0, so only the first one can leave the buffer. */
    predicate StaysInBuffer(c: nat, num: nat, start: nat, length: nat)
      requires Mounted()
    {
      length == 0 || TransferResult(c, num) <= 0 || start + Min(ClusterSize(), length) <= BUFFER_SIZE
    }

    predicate WriteStays(c: nat, seek: nat, length: nat)
      requires Mounted()
    {
      StaysInBuffer(c, ClusterIndex(seek), ClusterOffset(seek), length)
    }

    /** The volume after writing cluster after cluster, the first one from `start` on.  Each turn
        takes as many bytes of `data` as a whole cluster has, whatever `start` is, and those that come to
        lie behind the cluster in the buffer are lost.  The writing ends before a copy that would leave
        the buffer: what the program does from there on the source does not say. */
    function WriteFrom(c: nat, num: nat, start: nat, data: seq<Byte>): (v: Volume)
      requires Mounted() && start < ClusterSize()
      ensures v == this.(bytes := v.bytes) && |v.bytes| == |bytes|
      decreases |data|
    {
      if data == [] || TransferResult(c, num) <= 0 || !StaysInBuffer(c, num, start, |data|) then this
      else
        var t, n := Walk(c, num), Min(ClusterSize(), |data|);
        PutCluster(t, Overlay(Cluster(t), start, data[..n])).WriteFrom(c, num + 1, 0, data[n..])
    }

    /** The count that the same loop returns. */
    function WriteCount(c: nat, num: nat, start: nat, length: nat): (n: nat)
      requires Mounted()
      ensures n <= length
      decreases length
    {
      if length == 0 || TransferResult(c, num) <= 0 || !StaysInBuffer(c, num, start, length) then 0
      else
        var n := Min(ClusterSize(), length);
        n + WriteCount(c, num + 1, 0, length - n)
    }

    function Write(c: nat, seek: nat, data: seq<Byte>): (v: Volume)
      requires Mounted()
      ensures v == this.(bytes := v.bytes) && |v.bytes| == |bytes|
    {
      WriteFrom(c, ClusterIndex(seek), ClusterOffset(seek), data)
    }

    function Written(c: nat, seek: nat, length: nat): nat
      requires Mounted()
    {
      WriteCount(c, ClusterIndex(seek), ClusterOffset(seek), length)
    }

    // ----- Files as chains -----

    /** `ch` lists the clusters of the chain from `c`, all inside the device, and the chain ends. */
    ghost predicate IsChain(c: nat, ch: seq<nat>)
      requires Mounted()
      decreases |ch|
    {
      if Live(c) then ch != [] && ch[0] == c && Present(c) && IsChain(FatEntry(c), ch[1..]) else ch == []
    }

    /** The chain's clusters from number `k` on, one after the other; from 0 on, the whole file. */
    ghost function Tail(ch: seq<nat>, k: nat): seq<Byte>
      requires AllPresent(ch)
      decreases |ch| - k
    {
      if k < |ch| then Cluster(ch[k]) + Tail(ch, k + 1) else []
    }

    ghost function Contents(ch: seq<nat>): seq<Byte>
      requires AllPresent(ch)
    {
      Tail(ch, 0)
    }

    ghost predicate AllPresent(ch: seq<nat>) {
      forall c :: c in ch ==> Present(c)
    }
  }
}
