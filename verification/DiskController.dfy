/** The disk emulation as the source runs it, in place on the array of disks. */
module DiskController {
  import opened Bytes
  import opened TimerQueue
  import opened Fat32
  import opened Hardware
  import opened Machine
  import opened Disks

  class Controller {
    const board: Board
    const disks: array<Disk>

    ghost predicate Valid()
      reads this, board.Repr(), disks
    {
      board.Valid() && disks.Length == MAX_DISKS && board.Hw().Shape() && disks !in board.Repr()
    }

    ghost predicate After(i: nat, step: (Disk, Hw), before: seq<Disk>)
      requires Valid() && i < MAX_DISKS && |before| == MAX_DISKS
      reads this, board.Repr(), disks
    {
      disks[..] == before[i := step.0] && board.Hw() == step.1
    }

    // ----- Start-up -----

    /** Start-up: `clusters` are the first clusters of the files DISK0 to DISK3, 0 for none. */
    constructor InitEmulatedDisks(board: Board, clusters: seq<nat>, junk: seq<Byte>)
      requires board.Valid() && |clusters| == MAX_DISKS && |junk| == 32
      modifies board.installed, board.fs`lastEntrySector, board.fs.cachedFat
      ensures Valid() && this.board == board && fresh(disks)
      ensures forall i :: 0 <= i < MAX_DISKS ==> disks[i] == BootAt(old(board.Hw()).volume, clusters, i, junk)
      ensures board.Hw() == old(board.Hw()).Install(IL_DISK, Found(disks[..]))
    {
      board.HasShape();
      hide BootAt, Found, Volume.Mounted, Board.Hw, Board.Valid;
      this.board := board;
      disks := new Disk[MAX_DISKS](_ => Disk(0, 0, 0, 0, 0, 0, 0, 0, 0, 0, NULL, Registers(0, 0, 0, 0, 0)));
      new;
      assert disks !in board.Repr();
      assert Valid() && board.Hw() == old(board.Hw());
      hide *;
      ProbeAll(clusters, junk);
    }

    /** Without a card the disks stay as memory starts out, all zero. */
    constructor Untouched(board: Board)
      requires board.Valid()
      ensures Valid() && this.board == board && fresh(disks)
      ensures forall i :: 0 <= i < MAX_DISKS ==>
        disks[i] == Disk(0, 0, 0, 0, 0, 0, 0, 0, 0, 0, NULL, Registers(0, 0, 0, 0, 0))
    {
      board.HasShape();
      hide Board.Hw, Board.Valid;
      this.board := board;
      disks := new Disk[MAX_DISKS](_ => Disk(0, 0, 0, 0, 0, 0, 0, 0, 0, 0, NULL, Registers(0, 0, 0, 0, 0)));
      new;
      assert disks !in board.Repr();
    }

    method ProbeAll(clusters: seq<nat>, junk: seq<Byte>)
      requires Valid() && |clusters| == MAX_DISKS && |junk| == 32
      modifies disks, board.installed, board.fs`lastEntrySector, board.fs.cachedFat
      ensures Valid()
      ensures forall i :: 0 <= i < MAX_DISKS ==> disks[i] == BootAt(old(board.Hw()).volume, clusters, i, junk)
      ensures board.Hw() == old(board.Hw()).Install(IL_DISK, Found(disks[..]))
    {
      hide Boot, BootAt, Found, Volume.Mounted, Volume.Read, Overlay, Board.Hw, Board.Valid;
      ghost var was := board.Hw();
      var installed: set<nat> := {};
      board.Install(IL_DISK, installed);
      FoundNone();
      var local := junk;
      hide LocalAfter;
      for i := 0 to MAX_DISKS
        invariant |local| == |junk| && local == LocalAfter(was.volume, clusters[..i], junk)
        invariant Valid() && board.Hw() == was.Install(IL_DISK, installed)
        invariant installed == Found(disks[..i])
        invariant forall j :: 0 <= j < i ==> disks[j] == BootAt(was.volume, clusters, j, junk)
      {
        LocalNext(was.volume, clusters, i, junk);
        hide *;
        installed, local := ProbeNext(i, clusters[i], installed, local);
      }
      assert disks[..MAX_DISKS] == disks[..];
    }

    /** The turn of disk `i`: `installed` are the disks found before it. */
    method ProbeNext(i: nat, cluster: nat, found: set<nat>, junk: seq<Byte>)
      returns (installed: set<nat>, local: seq<Byte>)
      requires Valid() && i < MAX_DISKS && |junk| == 32 && found == Found(disks[..i])
      requires board.Hw().installed[IL_DISK] == found
      modifies disks, board.installed, board.fs`lastEntrySector, board.fs.cachedFat
      ensures Valid() && board.Hw() == old(board.Hw()).Install(IL_DISK, installed)
      ensures installed == Found(disks[..i + 1])
      ensures disks[..] == old(disks[..])[i := Boot(board.Hw().volume, cluster, junk)]
      ensures local == if cluster == 0 then junk else Overlay(junk, 0, board.Hw().volume.Read(cluster, 0, |junk|))
    {
      hide Boot, Found, Volume.Mounted, Volume.Read, Overlay, Board.Hw, Board.Valid;
      ghost var before := disks[..i];
      var ready;
      ready, local := Probe(i, cluster, junk);
      assert disks[..i] == before && disks[..i + 1] == before + [disks[i]];
      FoundNext(before, disks[i]);
      installed := found;
      if ready {
        installed := installed + {i};
        board.Install(IL_DISK, installed);
      }
    }

    lemma LocalNext(v: Volume, clusters: seq<nat>, i: nat, junk: seq<Byte>)
      requires v.Mounted() && i < |clusters| && |junk| == 32
      ensures var local := LocalAfter(v, clusters[..i], junk);
        && BootAt(v, clusters, i, junk) == Boot(v, clusters[i], local)
        && LocalAfter(v, clusters[..i + 1], junk)
           == if clusters[i] == 0 then local else Overlay(local, 0, v.Read(clusters[i], 0, |junk|))
    {
      hide Boot, Volume.Mounted, Volume.Read, Overlay;
      assert clusters[..i + 1][..i] == clusters[..i];
    }

    lemma FoundNone()
      ensures Found([]) == {}
    {
    }

    lemma FoundNext(before: seq<Disk>, d: Disk)
      ensures Found(before + [d]) == Found(before) + (if d.regs.status == DEVICE_READY then {|before|} else {})
    {
      assert forall i: nat :: i < |before| ==> (before + [d])[i] == before[i];
    }

    method Probe(i: nat, cluster: nat, junk: seq<Byte>) returns (found: bool, local: seq<Byte>)
      requires Valid() && i < MAX_DISKS && |junk| == 32
      modifies disks, board.fs`lastEntrySector, board.fs.cachedFat
      ensures Valid() && board.Hw() == old(board.Hw())
      ensures disks[..] == old(disks[..])[i := Boot(board.Hw().volume, cluster, junk)]
      ensures found == (disks[i].regs.status == DEVICE_READY)
      ensures local == if cluster == 0 then junk else Overlay(junk, 0, board.Hw().volume.Read(cluster, 0, |junk|))
    {
      hide Volume.Read, InfoWord, Volume.Mounted, Board.Hw, Board.Valid;
      disks[i] := Disk(0, 0, 0, 0, 0, 0, 0, 0, 0, cluster, NULL, Registers(DEVICE_NOT_INSTALLED, RESET, 0, 0, 0));
      found, local := false, junk;
      if cluster != 0 {
        var _, bytes := board.ReadBytes(cluster, 0, junk);
        local := bytes;
        found := ValidInfo(local);
        if found {
          var c, h, s := InfoWord(local, 1), InfoWord(local, 2), InfoWord(local, 3);
          disks[i] := Disk(c, h, s, 0, 0, 0, InfoWord(local, 4), InfoWord(local, 5), InfoWord(local, 6), cluster, NULL,
                           Registers(DEVICE_READY, RESET, 0, s + 0x100 * h + 0x1_0000 * c, 0));
        }
      }
    }

    // ----- An expired timer -----

    method SetStatus(i: nat, status: nat)
      requires Valid() && i < MAX_DISKS
      modifies disks
      ensures Valid() && board.Hw() == old(board.Hw())
      ensures disks[..] == old(disks[..])[i := old(disks[i]).WithStatus(status)]
    {
      hide Board.Hw, Board.Valid;
      disks[i] := disks[i].(regs := disks[i].regs.(status := status));
    }

    method ReportBack(i: nat)
      requires Valid() && i < MAX_DISKS
      modifies disks, board`memory
      ensures Valid() && After(i, Report(old(disks[i]), old(board.Hw())), old(disks[..]))
    {
      hide Board.Hw, Board.Valid;
      board.Store(disks[i].mailbox, disks[i].regs);
      disks[i] := disks[i].(mailbox := NULL);
    }

    method CompleteCommand(i: nat)
      requires Valid() && i < MAX_DISKS
      modifies disks, board`memory, board.lines
      ensures Valid() && After(i, Complete(old(disks[i]), old(board.Hw()), i), old(disks[..]))
    {
      hide Report, Hw.Store, Volume.Mounted, Board.Hw, Board.Valid;
      SetStatus(i, DEVICE_READY);
      board.Raise(IL_DISK, i);
      ReportBack(i);
    }

    method FinishTransfer(i: nat, r: int, error: nat)
      requires Valid() && i < MAX_DISKS
      modifies disks, board`memory, board.lines
      ensures Valid() && After(i, AfterTransfer(old(disks[i]), old(board.Hw()), i, r, error), old(disks[..]))
    {
      hide Board.Hw, Board.Valid;
      if r < 0 {
        SetStatus(i, error);
        ReportBack(i);
      } else {
        CompleteCommand(i);
      }
    }

    /** File position of the block under the head of disk `i`, in 32-bit arithmetic. */
    method SeekDiskBlock(i: nat) returns (start: nat)
      requires Valid() && i < MAX_DISKS
      ensures start == disks[i].BlockStart()
    {
      var d := disks[i];
      start := (7 * 4 + (d.head * d.cylinders + d.cylinder * d.sectors + d.sector) * BLOCKSIZE) % TWO_TO_THE_32;
    }

    method ReadDiskBlock(i: nat) returns (r: int)
      requires Valid() && i < MAX_DISKS
      modifies board`ram, board.fs`lastEntrySector, board.fs.cachedFat
      ensures Valid() && disks[..] == old(disks[..])
      ensures (r, board.Hw()) == ReadBlock(old(disks[i]), old(board.Hw()))
    {
      if disks[i].cluster == 0 {
        return 0;
      }
      var start := SeekDiskBlock(i);
      hide Disk.BlockStart, Volume.Read, Hw.ReadInto, Board.Hw, Board.Valid;
      r := board.ReadInto(disks[i].regs.data0, disks[i].cluster, start);
    }

    method WriteDiskBlock(i: nat) returns (r: int)
      requires Valid() && i < MAX_DISKS
      modifies board.fs`lastEntrySector, board.fs`overrun, board.fs.cachedFat, board.fs.card
      ensures Valid() && disks[..] == old(disks[..])
      ensures (r, board.Hw()) == WriteBlock(old(disks[i]), old(board.Hw()))
    {
      if disks[i].cluster == 0 {
        return 0;
      }
      var start := SeekDiskBlock(i);
      hide Disk.BlockStart, Volume.Write, Volume.Written, Hw.WriteFrom, Board.Hw, Board.Valid;
      r := board.WriteFrom(disks[i].regs.data0, disks[i].cluster, start);
    }

    method FinishReading(i: nat)
      requires Valid() && i < MAX_DISKS
      modifies disks, board.Repr()
      ensures Valid() && After(i, RunRead(old(disks[i]), old(board.Hw()), i), old(disks[..]))
    {
      hide AfterTransfer, ReadBlock, Board.Hw, Board.Valid;
      var r := ReadDiskBlock(i);
      FinishTransfer(i, r, READ_ERROR);
    }

    method FinishWriting(i: nat)
      requires Valid() && i < MAX_DISKS
      modifies disks, board.Repr()
      ensures Valid() && After(i, RunWrite(old(disks[i]), old(board.Hw()), i), old(disks[..]))
    {
      hide AfterTransfer, WriteBlock, Board.Hw, Board.Valid;
      var r := WriteDiskBlock(i);
      FinishTransfer(i, r, WRITE_ERROR);
    }

    /** Runs the command of disk `i` whose timer has expired. */
    method ManageEmulatedDisk(i: nat)
      requires Valid() && i < MAX_DISKS
      modifies disks, board.Repr()
      ensures Valid() && After(i, Manage(old(disks[i]), old(board.Hw()), i), old(disks[..]))
    {
      hide Complete, RunRead, RunWrite, Volume.Mounted, Opcode, HeadOf, SectorOf, CylinderOf, Board.Hw, Board.Valid;
      if disks[i].regs.status == DEVICE_NOT_INSTALLED {
        return;
      }
      if disks[i].regs.status == DEVICE_BUSY {
        var word := disks[i].regs.command;
        if Opcode(word) == SEEKCYL {
          disks[i] := disks[i].(cylinder := CylinderOf(word));
          CompleteCommand(i);
        } else if Opcode(word) == READBLK {
          disks[i] := disks[i].(head := HeadOf(word), sector := SectorOf(word));
          FinishReading(i);
        } else if Opcode(word) == WRITEBLK {
          disks[i] := disks[i].(head := HeadOf(word), sector := SectorOf(word));
          FinishWriting(i);
        }
      }
    }

    // ----- A mailbox command -----

    method AnswerAt(i: nat, address: nat)
      requires Valid() && i < MAX_DISKS
      modifies board`memory
      ensures Valid() && After(i, Answer(disks[i], old(board.Hw()), address), disks[..])
    {
      hide Board.Hw, Board.Valid;
      board.Store(address, disks[i].regs);
    }

    method Reset(i: nat, address: nat)
      requires Valid() && i < MAX_DISKS
      modifies disks, board.Repr()
      ensures Valid() && After(i, ResetDisk(old(disks[i]), old(board.Hw()), i, address), old(disks[..]))
    {
      hide Board.Hw, Board.Valid;
      disks[i] := disks[i].(regs := disks[i].regs.(command := RESET, status := DEVICE_READY),
                            cylinder := 0, head := 0, sector := 0);
      board.Raise(IL_DISK, i);
      AnswerAt(i, address);
    }

    method Acknowledge(i: nat, address: nat)
      requires Valid() && i < MAX_DISKS
      modifies disks, board.Repr()
      ensures Valid() && After(i, AckDisk(old(disks[i]), old(board.Hw()), i, address), old(disks[..]))
    {
      hide Board.Hw, Board.Valid;
      if disks[i].regs.status != DEVICE_BUSY {
        disks[i] := disks[i].(regs := disks[i].regs.(command := ACK, status := DEVICE_READY));
        board.Lower(IL_DISK, i);
        AnswerAt(i, address);
      }
    }

    /** The fabricated delay of a head movement. */
    method TimeToDestination(i: nat, cyl: nat, sect: nat) returns (us: nat)
      requires Valid() && i < MAX_DISKS
      ensures us == disks[i].Delay(cyl, sect)
    {
      hide Board.Hw, Board.Valid, SectorMicroseconds;
      var d := disks[i];
      var rotationSpeed := SectorMicroseconds(d.rpm, d.sectors);
      var cylinderTime := if d.cylinder > cyl then d.cylinder - cyl else cyl - d.cylinder;
      var sectorTime := if d.sector > sect then d.sector - sect else sect - d.sector;
      assert cylinderTime == Distance(d.cylinder, cyl) && sectorTime == Distance(d.sector, sect);
      hide Distance;
      us := sectorTime * rotationSpeed + cylinderTime * d.seekTime;
    }

    method StartCommand(i: nat, address: nat, now: nat, delay: nat, registers: Registers)
      requires Valid() && i < MAX_DISKS && registers == board.Hw().RegistersAt(address)
      modifies disks, board.Repr()
      ensures Valid() && After(i, Start(old(disks[i]), old(board.Hw()), i, address, now, delay), old(disks[..]))
    {
      hide Hw.Arm, Volume.Mounted, Board.Hw, Board.Valid;
      disks[i] := disks[i].(regs := disks[i].regs.(command := registers.command, data0 := registers.data0,
                                                  status := DEVICE_BUSY),
                            mailbox := address);
      board.SetDeviceTimer(delay, DISK, i, now);
      AnswerAt(i, address);
    }

    method StartTransfer(i: nat, address: nat, now: nat)
      requires Valid() && i < MAX_DISKS
      modifies disks, board.Repr()
      ensures Valid() && After(i, TransferDisk(old(disks[i]), old(board.Hw()), i, address, now), old(disks[..]))
    {
      hide Start, Answer, Disk.Delay, SectorOf, HeadOf, Volume.Mounted, Hw.RegistersAt, Board.Hw, Board.Valid;
      var registers := board.Load(address);
      var head, sect := HeadOf(registers.command), SectorOf(registers.command);
      if disks[i].regs.status != DEVICE_BUSY {
        if head > disks[i].heads || sect > disks[i].sectors {
          Reject(i, address);
        } else {
          var timeToDest := TimeToDestination(i, disks[i].cylinder, sect);
          StartCommand(i, address, now, timeToDest, registers);
        }
      } else {
        AnswerAt(i, address);
      }
    }

    method StartSeek(i: nat, address: nat, now: nat)
      requires Valid() && i < MAX_DISKS
      modifies disks, board.Repr()
      ensures Valid() && After(i, SeekDisk(old(disks[i]), old(board.Hw()), i, address, now), old(disks[..]))
    {
      hide Start, Answer, Disk.Delay, CylinderOf, Volume.Mounted, Hw.RegistersAt, Board.Hw, Board.Valid;
      var registers := board.Load(address);
      var cyl := CylinderOf(registers.command);
      if disks[i].regs.status != DEVICE_BUSY {
        if cyl > disks[i].cylinders {
          Reject(i, address);
        } else {
          var timeToDest := TimeToDestination(i, cyl, disks[i].sector);
          StartCommand(i, address, now, timeToDest, registers);
        }
      } else {
        AnswerAt(i, address);
      }
    }

    method Reject(i: nat, address: nat)
      requires Valid() && i < MAX_DISKS
      modifies disks, board.Repr()
      ensures Valid()
      ensures After(i, Answer(old(disks[i]).WithStatus(ILLEGAL_OPERATION), old(board.Hw()), address), old(disks[..]))
    {
      hide Board.Hw, Board.Valid;
      SetStatus(i, ILLEGAL_OPERATION);
      AnswerAt(i, address);
    }

    method Dispatch(i: nat, address: nat, now: nat)
      requires Valid() && i < MAX_DISKS
      modifies disks, board.Repr()
      ensures Valid() && After(i, Command(old(disks[i]), old(board.Hw()), i, address, now), old(disks[..]))
    {
      hide ResetDisk, AckDisk, TransferDisk, SeekDisk, Answer, Opcode, Board.Hw, Board.Valid;
      var registers := board.Load(address);
      var op := Opcode(registers.command);
      if op == RESET {
        Reset(i, address);
      } else if op == ACK {
        Acknowledge(i, address);
      } else if op == READ_REGISTERS {
        AnswerAt(i, address);
      } else if op == READBLK || op == WRITEBLK {
        StartTransfer(i, address, now);
      } else if op == SEEKCYL {
        StartSeek(i, address, now);
      } else {
        Reject(i, address);
      }
    }

    method MarkSeen(i: nat)
      requires Valid() && i < MAX_DISKS
      modifies disks
      ensures Valid() && board.Hw() == old(board.Hw())
      ensures disks[..] == old(disks[..])[i := old(disks[i]).(regs := old(disks[i]).regs.(mailbox := 1))]
    {
      hide Board.Hw, Board.Valid;
      disks[i] := disks[i].(regs := disks[i].regs.(mailbox := 1));
    }

    /** A command sent to disk `i` through the mailbox, its register block lying at `address`. */
    method EmulatedDiskMailbox(i: nat, address: nat, now: nat)
      requires Valid() && i < MAX_DISKS
      modifies disks, board.Repr()
      ensures Valid() && After(i, Mailbox(old(disks[i]), old(board.Hw()), i, address, now), old(disks[..]))
    {
      hide Command, Volume.Mounted, Board.Hw, Board.Valid;
      if address == NULL {
        return;
      }
      var registers := board.Load(address);
      MarkSeen(i);
      if disks[i].regs.status == DEVICE_NOT_INSTALLED && registers.command != READ_REGISTERS {
        AnswerAt(i, address);
        return;
      }
      Dispatch(i, address, now);
    }
  }
}
