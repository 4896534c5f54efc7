/** The emulated disks: geometry, delays, and what a mailbox command and an expired timer do to one
    disk and to the shared hardware. */
module Disks {
  import opened Bytes
  import opened TimerQueue
  import opened Fat32
  import opened Hardware

  const SEEKCYL := 3
  const READBLK := 4
  const WRITEBLK := 5

  const WRITE_ERROR := 6

  const MAX_DISKS := 4
  const MAX_CYLINDERS := 0xFFFF
  const MAX_HEADS := 0xFF
  const MAX_SECTORS := 0xFF
  const DISKFILEID := 0x0053504D

  // ----- Command words -----

  function SectorOf(word: nat): nat { word / 0x100 % 0x100 }

  function HeadOf(word: nat): nat { word / 0x1_0000 % 0x100 }

  function CylinderOf(word: nat): nat { word / 0x1_0000 % 0x1_0000 }

  predicate TimedCommand(command: nat) {
    Opcode(command) == SEEKCYL || Opcode(command) == READBLK || Opcode(command) == WRITEBLK
  }

  datatype Disk = Disk(
    cylinders: nat, heads: nat, sectors: nat,
    cylinder: nat, head: nat, sector: nat,
    rpm: nat, seekTime: nat, dataOccupation: nat,
    cluster: nat, mailbox: nat, regs: Registers)
  {
    function WithStatus(s: nat): Disk {
      this.(regs := regs.(status := s))
    }

    predicate Busy() {
      regs.status == DEVICE_BUSY
    }

    function Delay(cyl: nat, sect: nat): nat {
      Distance(sector, sect) * SectorMicroseconds(rpm, sectors) + Distance(cylinder, cyl) * seekTime
    }

    /** File position of the block under the head. */
    function BlockStart(): nat {
      (28 + (head * cylinders + cylinder * sectors + sector) * BLOCKSIZE) % TWO_TO_THE_32
    }
  }

  /** Microseconds a sector takes to pass, the divisor having 32 bits.  Division by zero gives zero,
      as it does on the target. */
  function SectorMicroseconds(rpm: nat, sectors: nat): nat {
    var perSecond := rpm / 60 * sectors % TWO_TO_THE_32;
    if perSecond == 0 then 0 else 1000000 / perSecond
  }

  function Distance(a: nat, b: nat): nat {
    if a > b then a - b else b - a
  }

  // ----- Start-up -----

  function InfoWord(info: seq<Byte>, n: nat): nat
    requires |info| == 32 && n < 8
  {
    Word(info[4 * n..4 * n + 4])
  }

  predicate ValidInfo(info: seq<Byte>)
    requires |info| == 32
  {
    && InfoWord(info, 0) == DISKFILEID && InfoWord(info, 1) <= MAX_CYLINDERS
    && InfoWord(info, 2) <= MAX_HEADS && InfoWord(info, 3) <= MAX_SECTORS
  }

  /** Disk at start-up, `cluster` being where its file starts, 0 without a file; `junk` is what the
      local buffer for the file's first 32 bytes held. */
  function Boot(v: Volume, cluster: nat, junk: seq<Byte>): Disk
    requires v.Mounted() && |junk| == 32
  {
    var info := Overlay(junk, 0, v.Read(cluster, 0, 32));
    if cluster != 0 && ValidInfo(info) then
      var c, h, s := InfoWord(info, 1), InfoWord(info, 2), InfoWord(info, 3);
      Disk(c, h, s, 0, 0, 0, InfoWord(info, 4), InfoWord(info, 5), InfoWord(info, 6), cluster, NULL,
           Registers(DEVICE_READY, RESET, 0, s + 0x100 * h + 0x1_0000 * c, 0))
    else
      Disk(0, 0, 0, 0, 0, 0, 0, 0, 0, cluster, NULL, Registers(DEVICE_NOT_INSTALLED, RESET, 0, 0, 0))
  }

  /** Device `i` at start-up: the local was used for the files before it. */
  function BootAt(v: Volume, clusters: seq<nat>, i: nat, junk: seq<Byte>): Disk
    requires v.Mounted() && |junk| == 32 && i < |clusters|
  {
    Boot(v, clusters[i], LocalAfter(v, clusters[..i], junk))
  }

  function Found(disks: seq<Disk>): set<nat> {
    set i: nat | i < |disks| && disks[i].regs.status == DEVICE_READY
  }

  // ----- An expired timer -----

  function Report(d: Disk, hw: Hw): (Disk, Hw) {
    (d.(mailbox := NULL), hw.Store(d.mailbox, d.regs))
  }

  function Complete(d: Disk, hw: Hw, i: nat): (Disk, Hw)
    requires hw.Shape()
  {
    Report(d.WithStatus(DEVICE_READY), hw.Raise(IL_DISK, i))
  }

  /** What follows a block transfer, `r` being its result. */
  function AfterTransfer(d: Disk, hw: Hw, i: nat, r: int, error: nat): (Disk, Hw)
    requires hw.Shape()
  {
    if r < 0 then Report(d.WithStatus(error), hw) else Complete(d, hw, i)
  }

  function ReadBlock(d: Disk, hw: Hw): (int, Hw)
    requires hw.Shape()
  {
    if d.cluster == 0 then (0, hw)
    else
      (|hw.volume.Read(d.cluster, d.BlockStart(), BLOCKSIZE)|, hw.ReadInto(d.regs.data0, d.cluster, d.BlockStart()))
  }

  function WriteBlock(d: Disk, hw: Hw): (int, Hw)
    requires hw.Shape()
  {
    if d.cluster == 0 then (0, hw)
    else
      (hw.volume.Written(d.cluster, d.BlockStart(), BLOCKSIZE), hw.WriteFrom(d.regs.data0, d.cluster, d.BlockStart()))
  }

  function AtBlock(d: Disk): Disk {
    d.(head := HeadOf(d.regs.command), sector := SectorOf(d.regs.command))
  }

  function RunRead(d: Disk, hw: Hw, i: nat): (Disk, Hw)
    requires hw.Shape()
  {
    var (r, hw') := ReadBlock(d, hw);
    AfterTransfer(d, hw', i, r, READ_ERROR)
  }

  function RunWrite(d: Disk, hw: Hw, i: nat): (Disk, Hw)
    requires hw.Shape()
  {
    var (r, hw') := WriteBlock(d, hw);
    AfterTransfer(d, hw', i, r, WRITE_ERROR)
  }

  function Manage(d: Disk, hw: Hw, i: nat): (r: (Disk, Hw))
    requires hw.Shape()
    ensures r.1.Shape() && r.1.pending == hw.pending
  {
    if d.regs.status == DEVICE_NOT_INSTALLED || !d.Busy() then (d, hw)
    else if Opcode(d.regs.command) == SEEKCYL then
      Complete(d.(cylinder := CylinderOf(d.regs.command)), hw, i)
    else if Opcode(d.regs.command) == READBLK then RunRead(AtBlock(d), hw, i)
    else if Opcode(d.regs.command) == WRITEBLK then RunWrite(AtBlock(d), hw, i)
    else (d, hw)
  }

  // ----- A mailbox command -----

  function Answer(d: Disk, hw: Hw, address: nat): (Disk, Hw) {
    (d, hw.Store(address, d.regs))
  }

  /** Accepts a timed command; the registers are reported once the timer is armed. */
  function Start(d: Disk, hw: Hw, i: nat, address: nat, now: nat, delay: nat): (Disk, Hw) {
    var sent := hw.RegistersAt(address);
    var d' := d.(regs := d.regs.(command := sent.command, data0 := sent.data0, status := DEVICE_BUSY),
                 mailbox := address);
    Answer(d', hw.Arm(delay, Key(DISK, i), now), address)
  }

  function ResetDisk(d: Disk, hw: Hw, i: nat, address: nat): (Disk, Hw)
    requires hw.Shape()
  {
    var d' := d.(regs := d.regs.(command := RESET, status := DEVICE_READY), cylinder := 0, head := 0, sector := 0);
    Answer(d', hw.Raise(IL_DISK, i), address)
  }

  /** A busy disk does not answer an acknowledgement. */
  function AckDisk(d: Disk, hw: Hw, i: nat, address: nat): (Disk, Hw)
    requires hw.Shape()
  {
    if d.Busy() then (d, hw)
    else Answer(d.(regs := d.regs.(command := ACK, status := DEVICE_READY)), hw.Lower(IL_DISK, i), address)
  }

  function TransferDisk(d: Disk, hw: Hw, i: nat, address: nat, now: nat): (Disk, Hw) {
    var word := hw.RegistersAt(address).command;
    if d.Busy() then Answer(d, hw, address)
    else if HeadOf(word) > d.heads || SectorOf(word) > d.sectors
    then Answer(d.WithStatus(ILLEGAL_OPERATION), hw, address)
    else Start(d, hw, i, address, now, d.Delay(d.cylinder, SectorOf(word)))
  }

  function SeekDisk(d: Disk, hw: Hw, i: nat, address: nat, now: nat): (Disk, Hw) {
    var word := hw.RegistersAt(address).command;
    if d.Busy() then Answer(d, hw, address)
    else if CylinderOf(word) > d.cylinders then Answer(d.WithStatus(ILLEGAL_OPERATION), hw, address)
    else Start(d, hw, i, address, now, d.Delay(CylinderOf(word), d.sector))
  }

  function Command(d: Disk, hw: Hw, i: nat, address: nat, now: nat): (r: (Disk, Hw))
    requires hw.Shape()
    ensures r.1.Shape()
  {
    hide SectorOf, HeadOf, CylinderOf, Opcode, Disk.Delay;
    var op := Opcode(hw.RegistersAt(address).command);
    if op == RESET then ResetDisk(d, hw, i, address)
    else if op == ACK then AckDisk(d, hw, i, address)
    else if op == READ_REGISTERS then Answer(d, hw, address)
    else if op == READBLK || op == WRITEBLK then TransferDisk(d, hw, i, address, now)
    else if op == SEEKCYL then SeekDisk(d, hw, i, address, now)
    else Answer(d.WithStatus(ILLEGAL_OPERATION), hw, address)
  }

  function Mailbox(d0: Disk, hw: Hw, i: nat, address: nat, now: nat): (r: (Disk, Hw))
    requires hw.Shape()
    ensures r.1.Shape()
  {
    hide Command;
    var d := d0.(regs := d0.regs.(mailbox := 1));
    if address == NULL then (d0, hw)
    else if d.regs.status == DEVICE_NOT_INSTALLED && hw.RegistersAt(address).command != READ_REGISTERS
    then Answer(d, hw, address)
    else Command(d, hw, i, address, now)
  }
}
