/** Disks within their geometry: what the mailbox guards admit, that the head stays there, and how long
    its longest way takes. */
module DiskGeometry {
  import opened Arithmetic
  import opened Bytes
  import opened Fat32
  import opened Hardware
  import opened Disks
  import Effects

  /** What the guards of the mailbox admit: they compare with `>`, so the dimension itself passes. */
  predicate GoodCommand(d: Disk, word: nat) {
    && (Opcode(word) == SEEKCYL ==> CylinderOf(word) <= d.cylinders)
    && (Opcode(word) == READBLK || Opcode(word) == WRITEBLK ==> HeadOf(word) <= d.heads && SectorOf(word) <= d.sectors)
  }

  predicate HeadInside(d: Disk) {
    d.head <= d.heads && d.cylinder <= d.cylinders && d.sector <= d.sectors
  }

  /** The head is within the disk's geometry, and so is where a command under way moves it. */
  predicate InGeometry(d: Disk) {
    HeadInside(d) && (d.Busy() ==> GoodCommand(d, d.regs.command))
  }

  predicate SameGeometry(d: Disk, e: Disk) {
    && e.cylinders == d.cylinders && e.heads == d.heads && e.sectors == d.sectors
    && e.rpm == d.rpm && e.seekTime == d.seekTime && e.cluster == d.cluster
  }

  lemma BootInGeometry(v: Volume, cluster: nat, junk: seq<Byte>)
    requires v.Mounted() && |junk| == 32
    ensures var d := Boot(v, cluster, junk);
      && InGeometry(d) && !d.Busy()
      && d.cylinders <= MAX_CYLINDERS && d.heads <= MAX_HEADS && d.sectors <= MAX_SECTORS && d.seekTime < TWO_TO_THE_32
  {
    hide Volume.Read, Overlay;
  }

  lemma MailboxKeepsGeometry(d: Disk, hw: Hw, i: nat, address: nat, now: nat)
    requires hw.Shape() && InGeometry(d)
    ensures var d' := Mailbox(d, hw, i, address, now).0; InGeometry(d') && SameGeometry(d, d')
  {
    assert Opcode(READ_REGISTERS) == READ_REGISTERS && Opcode(RESET) == RESET;
    hide Disk.Delay, CylinderOf, SectorOf, HeadOf, Opcode, Hw.Arm;
  }

  lemma ManageKeepsGeometry(d: Disk, hw: Hw, i: nat)
    requires hw.Shape() && InGeometry(d)
    ensures var d' := Manage(d, hw, i).0; InGeometry(d') && SameGeometry(d, d')
  {
    hide CylinderOf, SectorOf, HeadOf, Opcode, ReadBlock, WriteBlock;
  }

  // ----- Delays -----

  function Max(a: nat, b: nat): (m: nat)
    ensures a <= m && b <= m && (m == a || m == b)
  {
    if a < b then b else a
  }

  /** The longest way within the geometry: past all sectors, or across all cylinders; no command does
      both. */
  function LongestMove(d: Disk): nat {
    Max(d.sectors * SectorMicroseconds(d.rpm, d.sectors), d.cylinders * d.seekTime)
  }

  /** A command that the guards admit takes no longer than the longest way. */
  lemma DelayInGeometry(d: Disk, word: nat)
    requires HeadInside(d) && GoodCommand(d, word) && TimedCommand(word)
    ensures Effects.DiskDelay(d, word) <= LongestMove(d)
  {
    var t := SectorMicroseconds(d.rpm, d.sectors);
    hide SectorMicroseconds, SectorOf, CylinderOf, HeadOf, Opcode;
    if Opcode(word) == SEEKCYL {
      MulMono(Distance(d.cylinder, CylinderOf(word)), d.cylinders, d.seekTime, d.seekTime);
    } else {
      MulMono(Distance(d.sector, SectorOf(word)), d.sectors, t, t);
    }
  }

  /** The longest way is taken: by a seek to the last cylinder, or a read of the last sector, from 0. */
  lemma LongestMoveIsTaken(d: Disk, seek: nat, read: nat)
    requires d.cylinder == 0 && d.sector == 0
    requires Opcode(seek) == SEEKCYL && CylinderOf(seek) == d.cylinders
    requires Opcode(read) == READBLK && HeadOf(read) == 0 && SectorOf(read) == d.sectors
    ensures GoodCommand(d, seek) && GoodCommand(d, read)
    ensures Effects.DiskDelay(d, seek) == d.cylinders * d.seekTime
    ensures Effects.DiskDelay(d, read) == d.sectors * SectorMicroseconds(d.rpm, d.sectors)
  {
    hide SectorMicroseconds, SectorOf, CylinderOf, HeadOf, Opcode;
  }
}
