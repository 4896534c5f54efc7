/** What start-up makes of the bytes of a device file: which files it takes for tapes and disks, and a disk's
    geometry. */
module DeviceFiles {
  import opened Bytes
  import opened Fat32
  import opened FatChains
  import opened FatTheorems
  import opened FatLayout
  import opened Hardware
  import Tapes
  import Disks

  // ----- The start of a file -----

  /** What the local holds once the start of a file has been read into it: the file's bytes, or what it held
      before when the file has no cluster. */
  function StartOf(f: seq<Byte>, junk: seq<Byte>): seq<Byte> {
    if |junk| <= |f| then f[..|junk|] else junk
  }

  lemma LocalIsStart(v: Volume, cluster: nat, ch: seq<nat>, junk: seq<Byte>)
    requires v.Mounted() && v.IsChain(cluster, ch) && v.AllPresent(ch) && |junk| <= 512
    ensures Overlay(junk, 0, v.Read(cluster, 0, |junk|)) == StartOf(v.Contents(ch), junk)
  {
    var f := v.Contents(ch);
    ReadIsSlice(v, cluster, ch, 0, |junk|);
    if ch != [] {
      TailSplits(v, ch, 0);
      WholeStart(f, junk);
    }
    hide Volume.Read, Volume.IsChain, Volume.Mounted;
  }

  lemma WholeStart(f: seq<Byte>, junk: seq<Byte>)
    requires |junk| <= |f|
    ensures Overlay(junk, 0, Slice(f, 0, |junk|)) == f[..|junk|]
  {
  }

  lemma WordIs(s: seq<Byte>, a: Byte, b: Byte, c: Byte, d: Byte)
    requires |s| == 4
    ensures Word(s) == Word([a, b, c, d]) <==> s == [a, b, c, d]
  {
    WordBytes(s);
    WordBytes([a, b, c, d]);
    hide Word;
  }

  // ----- Tapes -----

  /** A tape is installed if and only if it has a file and the local reads "MPS" and 1; then its head is at the
      start, where the marker is that of the start. */
  lemma TapeFile(v: Volume, cluster: nat, ch: seq<nat>, junk: seq<Byte>)
    requires v.Mounted() && v.IsChain(cluster, ch) && v.AllPresent(ch) && |junk| == 4
    ensures var t := Tapes.Boot(v, cluster, junk);
      && (t.regs.status == DEVICE_READY <==> cluster != 0 && StartOf(v.Contents(ch), junk) == [0x4D, 0x50, 0x53, 0x01])
      && (t.regs.status != DEVICE_READY ==> t.regs.status == DEVICE_NOT_INSTALLED)
      && t.blockIndex == 0 && t.cluster == cluster && t.mailbox == NULL
      && t.regs.command == RESET && t.regs.data0 == 0 && t.regs.mailbox == 0
      && t.regs.data1 == (if t.regs.status == DEVICE_READY then Tapes.TS else Tapes.EOT)
  {
    var local := StartOf(v.Contents(ch), junk);
    LocalIsStart(v, cluster, ch, junk);
    WordIs(local, 0x4D, 0x50, 0x53, 0x01);
    assert Word([0x4D, 0x50, 0x53, 0x01]) == Tapes.TAPEFILEID;
    hide Word, StartOf, Overlay, Volume.Read, Volume.IsChain, Volume.Tail;
  }

  // ----- Disks -----

  lemma InfoBytes(info: seq<Byte>, n: nat)
    requires |info| == 32 && n < 8
    ensures LittleEndian(Disks.InfoWord(info, n), info, 4 * n)
    ensures Disks.InfoWord(info, n) == info[4 * n] as nat + 0x100 * info[4 * n + 1] as nat
      + 0x1_0000 * info[4 * n + 2] as nat + 0x100_0000 * info[4 * n + 3] as nat
  {
    WordOfSlice(info, 4 * n);
    hide LittleEndian;
    var s := info[4 * n..4 * n + 4];
    assert s[0] == info[4 * n] && s[1] == info[4 * n + 1] && s[2] == info[4 * n + 2] && s[3] == info[4 * n + 3];
  }

  /** The header of a disk: "MPS" and 0, and a geometry of 16-bit cylinders, 8-bit heads and 8-bit sectors. */
  predicate GoodHeader(info: seq<Byte>)
    requires |info| == 32
  {
    && info[0] == 0x4D && info[1] == 0x50 && info[2] == 0x53 && info[3] == 0x00
    && info[6] == info[7] == 0
    && info[9] == info[10] == info[11] == 0
    && info[13] == info[14] == info[15] == 0
  }

  lemma GoodHeaderIsValid(info: seq<Byte>)
    requires |info| == 32
    ensures Disks.ValidInfo(info) <==> GoodHeader(info)
  {
    InfoBytes(info, 0);
    InfoBytes(info, 1);
    InfoBytes(info, 2);
    InfoBytes(info, 3);
    hide LittleEndian, Disks.InfoWord;
  }

  /** The fields of the header in their order, and the geometry as a program reads it in data register 1: sectors,
      heads, and the two bytes of the cylinders. */
  predicate FromHeader(d: Disks.Disk, info: seq<Byte>)
    requires |info| == 32
  {
    && LittleEndian(d.cylinders, info, 4) && LittleEndian(d.heads, info, 8) && LittleEndian(d.sectors, info, 12)
    && LittleEndian(d.rpm, info, 16) && LittleEndian(d.seekTime, info, 20) && LittleEndian(d.dataOccupation, info, 24)
    && LittleEndian(d.regs.data1, [info[12], info[8], info[4], info[5]], 0)
  }

  lemma GeometryRegister(info: seq<Byte>)
    requires |info| == 32 && GoodHeader(info)
    ensures var c, h, s := Disks.InfoWord(info, 1), Disks.InfoWord(info, 2), Disks.InfoWord(info, 3);
      LittleEndian(s + 0x100 * h + 0x1_0000 * c, [info[12], info[8], info[4], info[5]], 0)
  {
    InfoBytes(info, 1);
    InfoBytes(info, 2);
    InfoBytes(info, 3);
    WordBytes([info[12], info[8], info[4], info[5]]);
    hide LittleEndian, Disks.InfoWord;
  }

  /** A disk is installed if and only if it has a file and the local holds such a header; then its geometry, speed
      and seek time are those of the header, and its head is at 0. */
  lemma DiskFile(v: Volume, cluster: nat, ch: seq<nat>, junk: seq<Byte>)
    requires v.Mounted() && v.IsChain(cluster, ch) && v.AllPresent(ch) && |junk| == 32
    ensures var d, info := Disks.Boot(v, cluster, junk), StartOf(v.Contents(ch), junk);
      && |info| == 32
      && (d.regs.status == DEVICE_READY <==> cluster != 0 && GoodHeader(info))
      && (d.regs.status == DEVICE_READY ==> FromHeader(d, info))
      && (d.regs.status != DEVICE_READY ==> d.regs.status == DEVICE_NOT_INSTALLED && d.regs.data1 == 0)
      && d.cylinder == d.head == d.sector == 0 && d.cluster == cluster && d.mailbox == NULL
      && d.regs.command == RESET && d.regs.data0 == 0 && d.regs.mailbox == 0
  {
    var info := StartOf(v.Contents(ch), junk);
    LocalIsStart(v, cluster, ch, junk);
    GoodHeaderIsValid(info);
    if GoodHeader(info) {
      GeometryRegister(info);
      HeaderFields(info);
    }
    hide StartOf, Overlay, Volume.Read, Volume.IsChain, Volume.Tail, LittleEndian, GoodHeader, Disks.InfoWord, Disks.ValidInfo;
  }

  lemma HeaderFields(info: seq<Byte>)
    requires |info| == 32
    ensures forall n {:trigger Disks.InfoWord(info, n)} :: 0 <= n < 8 ==> LittleEndian(Disks.InfoWord(info, n), info, 4 * n)
  {
    forall n | 0 <= n < 8
      ensures LittleEndian(Disks.InfoWord(info, n), info, 4 * n)
    {
      InfoBytes(info, n);
    }
  }
}
