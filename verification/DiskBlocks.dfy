/** Where disk blocks lie in the disk file: when different places are different blocks, and why a block
    write does not do what it says. */
module DiskBlocks {
  import opened Arithmetic
  import opened Bytes
  import opened Fat32
  import opened FatTheorems
  import opened Hardware
  import opened Disks

  datatype Place = Place(head: nat, cylinder: nat, sector: nat)

  predicate OnDisk(heads: nat, cylinders: nat, sectors: nat, p: Place) {
    p.head < heads && p.cylinder < cylinders && p.sector < sectors
  }

  /** Number of the block at a place, the head stride being the number of cylinders. */
  function BlockNumber(cylinders: nat, sectors: nat, p: Place): nat {
    p.head * cylinders + p.cylinder * sectors + p.sector
  }

  /** File position of the block at a place: the blocks follow a 28-byte header, positions have 32 bits. */
  function PlaceStart(cylinders: nat, sectors: nat, p: Place): nat {
    (28 + BlockNumber(cylinders, sectors, p) * BLOCKSIZE) % TWO_TO_THE_32
  }

  lemma BlockStartIsNumber(d: Disk)
    ensures d.BlockStart() == PlaceStart(d.cylinders, d.sectors, Place(d.head, d.cylinder, d.sector))
  {
  }

  /** Number of blocks whose positions differ in 32 bits. */
  const POSITIONS := 0x10_0000

  lemma StartOf(n: nat)
    ensures (28 + n * BLOCKSIZE) % TWO_TO_THE_32 == 28 + n % POSITIONS * BLOCKSIZE
  {
    assert n == n / POSITIONS * POSITIONS + n % POSITIONS;
  }

  /** Two places share a block exactly when their numbers agree in 20 bits. */
  lemma SharedBlock(cylinders: nat, sectors: nat, p: Place, q: Place)
    ensures PlaceStart(cylinders, sectors, p) == PlaceStart(cylinders, sectors, q)
       <==> BlockNumber(cylinders, sectors, p) % POSITIONS == BlockNumber(cylinders, sectors, q) % POSITIONS
  {
    hide BlockNumber;
    StartOf(BlockNumber(cylinders, sectors, p));
    StartOf(BlockNumber(cylinders, sectors, q));
  }

  lemma Small(n: nat)
    requires n < POSITIONS
    ensures n % POSITIONS == n
  {
  }

  /** Different places on the disk have different blocks. */
  ghost predicate PlacesDiffer(heads: nat, cylinders: nat, sectors: nat) {
    forall p, q :: OnDisk(heads, cylinders, sectors, p) && OnDisk(heads, cylinders, sectors, q) && p != q ==>
      PlaceStart(cylinders, sectors, p) != PlaceStart(cylinders, sectors, q)
  }

  /** What can be read off the geometry: no places; or one head, or one sector a cylinder, and no more blocks
      than positions. */
  predicate BlocksApart(heads: nat, cylinders: nat, sectors: nat) {
    || heads == 0 || cylinders == 0 || sectors == 0
    || (heads == 1 && cylinders * sectors <= POSITIONS)
    || (sectors == 1 && heads * cylinders <= POSITIONS)
  }

  lemma QuotientBelow(c: nat, s: nat)
    requires c >= 1 && s >= 2
    ensures c / s < c && c % s < s && c / s * s + c % s == c
  {
    assert c / s * s == c / s * 2 + c / s * (s - 2);
  }

  /** A pair within its dimensions is told by the number it makes in a mixed radix, if that fits. */
  lemma PairTold(a: nat, b: nat, a': nat, b': nat, most: nat, m: nat)
    requires a < most && a' < most && b < m && b' < m && most * m <= POSITIONS
    requires (a * m + b) % POSITIONS == (a' * m + b') % POSITIONS
    ensures a == a' && b == b'
  {
    MulAtLeast(a, most, m);
    MulAtLeast(a', most, m);
    Small(a * m + b);
    Small(a' * m + b');
    MixedRadix(a, b, a', b', m);
  }

  lemma ApartDiffer(heads: nat, cylinders: nat, sectors: nat, p: Place, q: Place)
    requires BlocksApart(heads, cylinders, sectors)
    requires OnDisk(heads, cylinders, sectors, p) && OnDisk(heads, cylinders, sectors, q)
    requires PlaceStart(cylinders, sectors, p) == PlaceStart(cylinders, sectors, q)
    ensures p == q
  {
    hide PlaceStart, BlockNumber;
    SharedBlock(cylinders, sectors, p, q);
    if heads == 1 && cylinders * sectors <= POSITIONS {
      OneHeadNumbers(cylinders, sectors, p);
      OneHeadNumbers(cylinders, sectors, q);
      PairTold(p.cylinder, p.sector, q.cylinder, q.sector, cylinders, sectors);
    } else {
      OneSectorNumbers(cylinders, sectors, p);
      OneSectorNumbers(cylinders, sectors, q);
      PairTold(p.head, p.cylinder, q.head, q.cylinder, heads, cylinders);
    }
  }

  lemma OneHeadNumbers(cylinders: nat, sectors: nat, p: Place)
    ensures p.head == 0 ==> BlockNumber(cylinders, sectors, p) == p.cylinder * sectors + p.sector
  {
  }

  lemma OneSectorNumbers(cylinders: nat, sectors: nat, p: Place)
    ensures sectors == 1 && p.sector == 0 ==> BlockNumber(cylinders, sectors, p) == p.head * cylinders + p.cylinder
  {
  }

  lemma QuotientLess(n: nat, a: nat, b: nat)
    requires n < a * b && b > 0
    ensures n / b < a && n % b < b && n / b * b + n % b == n
  {
    if n / b >= a {
      MulMono(a, n / b, b, b);
    }
  }

  /** Two places that share a block: the start of the second head within the first head's blocks, or block
      0 and the block whose position has wrapped. */
  lemma Sharing(heads: nat, cylinders: nat, sectors: nat) returns (p: Place, q: Place)
    requires !BlocksApart(heads, cylinders, sectors)
    ensures OnDisk(heads, cylinders, sectors, p) && OnDisk(heads, cylinders, sectors, q) && p != q
    ensures PlaceStart(cylinders, sectors, p) == PlaceStart(cylinders, sectors, q)
  {
    hide PlaceStart;
    p := Place(0, 0, 0);
    if heads >= 2 && sectors >= 2 {
      QuotientBelow(cylinders, sectors);
      p, q := Place(1, 0, 0), Place(0, cylinders / sectors, cylinders % sectors);
    } else if heads == 1 {
      q := WrappedOnHead(cylinders, sectors);
    } else {
      q := WrappedOnSector(heads, cylinders);
    }
    SharedBlock(cylinders, sectors, p, q);
  }

  lemma WrappedOnHead(cylinders: nat, sectors: nat) returns (q: Place)
    requires cylinders * sectors > POSITIONS && sectors > 0
    ensures OnDisk(1, cylinders, sectors, q) && BlockNumber(cylinders, sectors, q) == POSITIONS && q.head == 0
  {
    QuotientLess(POSITIONS, cylinders, sectors);
    q := Place(0, POSITIONS / sectors, POSITIONS % sectors);
  }

  lemma WrappedOnSector(heads: nat, cylinders: nat) returns (q: Place)
    requires heads * cylinders > POSITIONS && cylinders > 0
    ensures OnDisk(heads, cylinders, 1, q) && BlockNumber(cylinders, 1, q) == POSITIONS
  {
    QuotientLess(POSITIONS, heads, cylinders);
    q := Place(POSITIONS / cylinders, POSITIONS % cylinders, 0);
  }

  /** `seek_disk_block` tells the places of a disk apart if and only if the geometry keeps them apart. */
  lemma PlacesDifferIff(heads: nat, cylinders: nat, sectors: nat)
    ensures PlacesDiffer(heads, cylinders, sectors) <==> BlocksApart(heads, cylinders, sectors)
  {
    hide PlaceStart, BlocksApart;
    if BlocksApart(heads, cylinders, sectors) {
      forall p, q | OnDisk(heads, cylinders, sectors, p) && OnDisk(heads, cylinders, sectors, q)
                    && PlaceStart(cylinders, sectors, p) == PlaceStart(cylinders, sectors, q)
        ensures p == q
      {
        ApartDiffer(heads, cylinders, sectors, p, q);
      }
    } else {
      var p, q := Sharing(heads, cylinders, sectors);
    }
  }

  // ----- The places that commands reach -----

  /** What the guards of the mailbox admit goes one past the disk in every direction. */
  predicate Admitted(heads: nat, cylinders: nat, sectors: nat, p: Place) {
    p.head <= heads && p.cylinder <= cylinders && p.sector <= sectors
  }

  ghost predicate AdmittedDiffer(heads: nat, cylinders: nat, sectors: nat) {
    forall p, q :: Admitted(heads, cylinders, sectors, p) && Admitted(heads, cylinders, sectors, q) && p != q ==>
      PlaceStart(cylinders, sectors, p) != PlaceStart(cylinders, sectors, q)
  }

  /** The sector past a cylinder's last is the first of the next cylinder. */
  lemma EdgeIsNextCylinder(cylinders: nat, sectors: nat, h: nat, c: nat)
    ensures PlaceStart(cylinders, sectors, Place(h, c, sectors)) == PlaceStart(cylinders, sectors, Place(h, c + 1, 0))
  {
    assert (c + 1) * sectors == c * sectors + sectors;
  }

  /** The places that commands are admitted for have different blocks only when all are on cylinder 0 of
      head 0. */
  lemma AdmittedDifferIff(heads: nat, cylinders: nat, sectors: nat)
    ensures AdmittedDiffer(heads, cylinders, sectors) <==> heads == 0 && cylinders == 0 && sectors < POSITIONS
  {
    var origin := Place(0, 0, 0);
    if cylinders > 0 {
      EdgeIsNextCylinder(cylinders, sectors, 0, 0);
      assert Admitted(heads, cylinders, sectors, Place(0, 0, sectors));
      assert Admitted(heads, cylinders, sectors, Place(0, 1, 0));
    } else if heads > 0 {
      SharedBlock(cylinders, sectors, origin, Place(1, 0, 0));
      assert Admitted(heads, cylinders, sectors, origin) && Admitted(heads, cylinders, sectors, Place(1, 0, 0));
    } else if sectors >= POSITIONS {
      SharedBlock(cylinders, sectors, origin, Place(0, 0, POSITIONS));
      assert Admitted(heads, cylinders, sectors, origin) && Admitted(heads, cylinders, sectors, Place(0, 0, POSITIONS));
    } else {
      forall p, q | Admitted(heads, cylinders, sectors, p) && Admitted(heads, cylinders, sectors, q)
                    && PlaceStart(cylinders, sectors, p) == PlaceStart(cylinders, sectors, q)
        ensures p == q
      {
        SharedBlock(cylinders, sectors, p, q);
        Small(p.sector);
        Small(q.sector);
      }
    }
    hide PlaceStart;
  }

  /** On a volume with the cluster sizes the standard allows, every disk block starts 28 bytes into a
      cluster, so a block never fits the way `fat_writefile` needs it. */
  lemma BlocksNeverFit(v: Volume, d: Disk, fileSize: nat)
    requires v.Mounted() && v.spc in {1, 2, 4, 8} && d.BlockStart() < fileSize
    ensures v.ClusterOffset(d.BlockStart()) == 28
    ensures !WriteFits(v, fileSize, d.BlockStart(), BLOCKSIZE)
  {
    var n := d.head * d.cylinders + d.cylinder * d.sectors + d.sector;
    assert d.BlockStart() == (28 + n * BLOCKSIZE) % TWO_TO_THE_32;
    HeaderOffset(n, v.ClusterSize());
  }

  lemma HeaderOffset(n: nat, size: nat)
    requires size in {512, 1024, 2048, 4096}
    ensures (28 + n * BLOCKSIZE) % TWO_TO_THE_32 % size == 28
  {
    var k, r := (28 + n * BLOCKSIZE) / TWO_TO_THE_32, (28 + n * BLOCKSIZE) % TWO_TO_THE_32;
    var m := n - k * 0x10_0000;
    assert r == 28 + m * BLOCKSIZE;
    if size == 512 {
      QuotientIs(r, 512, 8 * m, 28);
    } else if size == 1024 {
      QuotientIs(r, 1024, 4 * m, 28);
    } else if size == 2048 {
      QuotientIs(r, 2048, 2 * m, 28);
    } else {
      QuotientIs(r, 4096, m, 28);
    }
  }

  /** A block write inside the disk's file is wrong for some data: `write_disk_block` does not meet
      its purpose on any disk. */
  lemma BlockWriteGoesWrong(v: Volume, d: Disk, ch: seq<nat>)
    requires v.Mounted() && v.spc in {1, 2, 4, 8} && v.IsChain(d.cluster, ch) && v.AllPresent(ch)
    requires d.BlockStart() < |v.Contents(ch)|
    ensures exists data: seq<Byte> :: |data| == BLOCKSIZE && !WriteCorrect(v, d.cluster, ch, d.BlockStart(), data)
  {
    BlocksNeverFit(v, d, |v.Contents(ch)|);
    WriteCorrectIffFits(v, d.cluster, ch, d.BlockStart(), BLOCKSIZE);
  }

  /** A block write inside the disk's file leaves the buffer exactly on a volume with 4 KiB clusters. */
  lemma BlockOverrunsIff(v: Volume, d: Disk, ch: seq<nat>)
    requires v.Mounted() && v.spc in {1, 2, 4, 8} && v.IsChain(d.cluster, ch) && v.AllPresent(ch)
    ensures !v.WriteStays(d.cluster, d.BlockStart(), BLOCKSIZE)
       <==> v.spc == 8 && d.BlockStart() < |v.Contents(ch)|
  {
    hide Volume.Mounted, Volume.IsChain, Volume.WriteStays, Disk.BlockStart, Volume.Tail;
    LeavesBufferIff(v, d.cluster, ch, d.BlockStart(), BLOCKSIZE);
    if d.BlockStart() < |v.Contents(ch)| {
      BlocksNeverFit(v, d, |v.Contents(ch)|);
    }
  }

  /** Delays stay far below the end of the 64-bit clock. */
  lemma DelayFits(d: Disk, cyl: nat, sect: nat)
    requires d.cylinder <= MAX_CYLINDERS && cyl <= MAX_CYLINDERS && d.sector <= MAX_SECTORS && sect <= MAX_SECTORS
    requires d.seekTime < TWO_TO_THE_32
    ensures d.Delay(cyl, sect) < 0x2_0000_0000_0000
  {
    var t, a, b := SectorMicroseconds(d.rpm, d.sectors), Distance(d.sector, sect), Distance(d.cylinder, cyl);
    assert t <= 1000000;
    MulMono(a, MAX_SECTORS, t, 1000000);
    MulMono(b, MAX_CYLINDERS, d.seekTime, TWO_TO_THE_32);
    hide SectorMicroseconds;
  }

}
