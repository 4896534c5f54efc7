/** The tape emulation as the source runs it, in place on the array of tapes. */
module TapeController {
  import opened Bytes
  import opened TimerQueue
  import opened Fat32
  import opened Hardware
  import opened Machine
  import opened Tapes

  class Controller {
    const board: Board
    const tapes: array<Tape>

    ghost predicate Valid()
      reads this, board.Repr(), tapes
    {
      board.Valid() && tapes.Length == MAX_TAPES && board.Hw().Shape() && tapes !in board.Repr()
    }

    ghost predicate After(i: nat, step: (Tape, Hw), before: seq<Tape>)
      requires Valid() && i < MAX_TAPES && |before| == MAX_TAPES
      reads this, board.Repr(), tapes
    {
      tapes[..] == before[i := step.0] && board.Hw() == step.1
    }

    /** Start-up: `clusters` are the first clusters of the files TAPE0 to TAPE3, 0 for none. */
    constructor InitEmulatedTapes(board: Board, clusters: seq<nat>, junk: seq<Byte>)
      requires board.Valid() && |clusters| == MAX_TAPES && |junk| == 4
      modifies board.installed, board.fs`lastEntrySector, board.fs.cachedFat
      ensures Valid() && this.board == board && fresh(tapes)
      ensures forall i :: 0 <= i < MAX_TAPES ==> tapes[i] == BootAt(old(board.Hw()).volume, clusters, i, junk)
      ensures board.Hw() == old(board.Hw()).Install(IL_TAPE, Found(tapes[..]))
    {
      board.HasShape();
      hide BootAt, Found, Volume.Mounted, Board.Hw, Board.Valid;
      this.board := board;
      tapes := new Tape[MAX_TAPES](_ => Tape(0, 0, NULL, Registers(0, 0, 0, 0, 0)));
      new;
      assert tapes !in board.Repr();
      assert Valid() && board.Hw() == old(board.Hw());
      hide *;
      ProbeAll(clusters, junk);
    }

    /** Without a card the tapes stay as memory starts out, all zero. */
    constructor Untouched(board: Board)
      requires board.Valid()
      ensures Valid() && this.board == board && fresh(tapes)
      ensures forall i :: 0 <= i < MAX_TAPES ==> tapes[i] == Tape(0, 0, NULL, Registers(0, 0, 0, 0, 0))
    {
      board.HasShape();
      hide Board.Hw, Board.Valid;
      this.board := board;
      tapes := new Tape[MAX_TAPES](_ => Tape(0, 0, NULL, Registers(0, 0, 0, 0, 0)));
      new;
      assert tapes !in board.Repr();
    }

    method ProbeAll(clusters: seq<nat>, junk: seq<Byte>)
      requires Valid() && |clusters| == MAX_TAPES && |junk| == 4
      modifies tapes, board.installed, board.fs`lastEntrySector, board.fs.cachedFat
      ensures Valid()
      ensures forall i :: 0 <= i < MAX_TAPES ==> tapes[i] == BootAt(old(board.Hw()).volume, clusters, i, junk)
      ensures board.Hw() == old(board.Hw()).Install(IL_TAPE, Found(tapes[..]))
    {
      hide Boot, BootAt, Found, Volume.Mounted, Volume.Read, Overlay, Board.Hw, Board.Valid;
      ghost var was := board.Hw();
      var installed: set<nat> := {};
      board.Install(IL_TAPE, installed);
      FoundNone();
      var local := junk;
      hide LocalAfter;
      for i := 0 to MAX_TAPES
        invariant |local| == |junk| && local == LocalAfter(was.volume, clusters[..i], junk)
        invariant Valid() && board.Hw() == was.Install(IL_TAPE, installed)
        invariant installed == Found(tapes[..i])
        invariant forall j :: 0 <= j < i ==> tapes[j] == BootAt(was.volume, clusters, j, junk)
      {
        LocalNext(was.volume, clusters, i, junk);
        hide *;
        installed, local := ProbeNext(i, clusters[i], installed, local);
      }
      assert tapes[..MAX_TAPES] == tapes[..];
    }

    /** The turn of tape `i`: `installed` are the tapes found before it. */
    method ProbeNext(i: nat, cluster: nat, found: set<nat>, junk: seq<Byte>)
      returns (installed: set<nat>, local: seq<Byte>)
      requires Valid() && i < MAX_TAPES && |junk| == 4 && found == Found(tapes[..i])
      requires board.Hw().installed[IL_TAPE] == found
      modifies tapes, board.installed, board.fs`lastEntrySector, board.fs.cachedFat
      ensures Valid() && board.Hw() == old(board.Hw()).Install(IL_TAPE, installed)
      ensures installed == Found(tapes[..i + 1])
      ensures tapes[..] == old(tapes[..])[i := Boot(board.Hw().volume, cluster, junk)]
      ensures local == if cluster == 0 then junk else Overlay(junk, 0, board.Hw().volume.Read(cluster, 0, |junk|))
    {
      hide Boot, Found, Volume.Mounted, Volume.Read, Overlay, Board.Hw, Board.Valid;
      ghost var before := tapes[..i];
      var ready;
      ready, local := Probe(i, cluster, junk);
      assert tapes[..i] == before && tapes[..i + 1] == before + [tapes[i]];
      FoundNext(before, tapes[i]);
      installed := found;
      if ready {
        installed := installed + {i};
        board.Install(IL_TAPE, installed);
      }
    }

    lemma LocalNext(v: Volume, clusters: seq<nat>, i: nat, junk: seq<Byte>)
      requires v.Mounted() && i < |clusters| && |junk| == 4
      ensures var local := LocalAfter(v, clusters[..i], junk);
        && BootAt(v, clusters, i, junk) == Boot(v, clusters[i], local)
        && LocalAfter(v, clusters[..i + 1], junk)
           == if clusters[i] == 0 then local else Overlay(local, 0, v.Read(clusters[i], 0, |junk|))
    {
      hide Boot, Volume.Mounted, Volume.Read, Overlay;
      assert clusters[..i + 1][..i] == clusters[..i];
    }

    lemma FoundNone()
      ensures Found([]) == {}
    {
    }

    method Probe(i: nat, cluster: nat, junk: seq<Byte>) returns (found: bool, local: seq<Byte>)
      requires Valid() && i < MAX_TAPES && |junk| == 4
      modifies tapes, board.fs`lastEntrySector, board.fs.cachedFat
      ensures Valid() && board.Hw() == old(board.Hw())
      ensures tapes[..] == old(tapes[..])[i := Boot(board.Hw().volume, cluster, junk)]
      ensures found == (tapes[i].regs.status == DEVICE_READY)
      ensures local == if cluster == 0 then junk else Overlay(junk, 0, board.Hw().volume.Read(cluster, 0, |junk|))
    {
      hide Volume.Read, Word, Volume.Mounted, Board.Hw, Board.Valid;
      found, local := false, junk;
      if cluster != 0 {
        var _, bytes := board.ReadBytes(cluster, 0, junk);
        local := bytes;
        found := Word(local) == TAPEFILEID;
      }
      tapes[i] := if found then Tape(0, cluster, NULL, Registers(DEVICE_READY, RESET, 0, TS, 0))
                  else Tape(0, cluster, NULL, Registers(DEVICE_NOT_INSTALLED, RESET, 0, EOT, 0));
    }

    lemma FoundNext(before: seq<Tape>, t: Tape)
      ensures Found(before + [t]) == Found(before) + (if t.regs.status == DEVICE_READY then {|before|} else {})
    {
      assert forall i: nat :: i < |before| ==> (before + [t])[i] == before[i];
    }

    method SetStatus(i: nat, status: nat)
      requires Valid() && i < MAX_TAPES
      modifies tapes
      ensures Valid() && board.Hw() == old(board.Hw())
      ensures tapes[..] == old(tapes[..])[i := old(tapes[i]).WithStatus(status)]
    {
      hide Board.Hw, Board.Valid;
      tapes[i] := tapes[i].(regs := tapes[i].regs.(status := status));
    }

    method SetMarker(i: nat, marker: nat)
      requires Valid() && i < MAX_TAPES
      modifies tapes
      ensures Valid() && board.Hw() == old(board.Hw())
      ensures tapes[..] == old(tapes[..])[i := old(tapes[i]).(regs := old(tapes[i]).regs.(data1 := marker))]
    {
      hide Board.Hw, Board.Valid;
      tapes[i] := tapes[i].(regs := tapes[i].regs.(data1 := marker));
    }

    /** The marker word at the head of tape `i`, its position taken in 32-bit arithmetic. */
    method ReadMarker(i: nat, junk: seq<Byte>) returns (head: nat)
      requires Valid() && i < MAX_TAPES && |junk| == 4
      modifies board.fs`lastEntrySector, board.fs.cachedFat
      ensures Valid() && board.Hw() == old(board.Hw()) && tapes[..] == old(tapes[..])
      ensures head == Marker(tapes[i], board.Hw().volume, junk)
    {
      hide Word, Overlay, Volume.Read, Volume.Mounted, Board.Hw, Board.Valid;
      var seek := (tapes[i].blockIndex * BLOCKSIZE + tapes[i].blockIndex * 4) % TWO_TO_THE_32;
      head := board.ReadWord(tapes[i].cluster, seek, junk);
    }

    method UpdateTapeHead(i: nat, junk: seq<Byte>) returns (res: int)
      requires Valid() && i < MAX_TAPES && |junk| == 4
      modifies tapes, board.fs`lastEntrySector, board.fs.cachedFat
      ensures Valid() && board.Hw() == old(board.Hw())
      ensures res == UpdateHead(old(tapes[i]), board.Hw().volume, junk).0
      ensures tapes[..] == old(tapes[..])[i := UpdateHead(old(tapes[i]), board.Hw().volume, junk).1]
    {
      hide Marker, Volume.Mounted, Board.Hw, Board.Valid;
      if tapes[i].blockIndex == 0 {
        SetMarker(i, TS);
      } else {
        var head := ReadMarker(i, junk);
        if head != EOB && head != EOF && head != EOT {
          return -1;
        }
        SetMarker(i, head);
      }
      return 0;
    }

    /** Moves the head one block on. */
    method MoveForward(i: nat, junk: seq<Byte>) returns (res: int)
      requires Valid() && i < MAX_TAPES && |junk| == 4
      modifies tapes, board.fs`lastEntrySector, board.fs.cachedFat
      ensures Valid() && board.Hw() == old(board.Hw())
      ensures res == UpdateHead(Forward(old(tapes[i])), board.Hw().volume, junk).0
      ensures tapes[..] == old(tapes[..])[i := UpdateHead(Forward(old(tapes[i])), board.Hw().volume, junk).1]
    {
      hide UpdateHead, Board.Hw, Board.Valid;
      tapes[i] := tapes[i].(blockIndex := (tapes[i].blockIndex + 1) % TWO_TO_THE_32);
      res := UpdateTapeHead(i, junk);
    }

    method TapeNextBlock(i: nat, junk: seq<Byte>) returns (res: int)
      requires Valid() && i < MAX_TAPES && |junk| == 4
      modifies tapes, board.fs`lastEntrySector, board.fs.cachedFat
      ensures Valid() && board.Hw() == old(board.Hw())
      ensures res == NextBlock(old(tapes[i]), board.Hw().volume, junk).0
      ensures tapes[..] == old(tapes[..])[i := NextBlock(old(tapes[i]), board.Hw().volume, junk).1]
    {
      hide Board.Hw, Board.Valid;
      if tapes[i].regs.data1 == EOT {
        return -1;
      }
      res := MoveForward(i, junk);
    }

    method TapePrevBlock(i: nat, junk: seq<Byte>) returns (res: int)
      requires Valid() && i < MAX_TAPES && |junk| == 4
      modifies tapes, board.fs`lastEntrySector, board.fs.cachedFat
      ensures Valid() && board.Hw() == old(board.Hw())
      ensures res == PrevBlock(old(tapes[i]), board.Hw().volume, junk).0
      ensures tapes[..] == old(tapes[..])[i := PrevBlock(old(tapes[i]), board.Hw().volume, junk).1]
    {
      hide Board.Hw, Board.Valid;
      if tapes[i].blockIndex > 0 {
        tapes[i] := tapes[i].(blockIndex := tapes[i].blockIndex - 1);
        res := UpdateTapeHead(i, junk);
      } else {
        res := -1;
      }
    }

    /** Copies the registers to the program's block and forgets its address. */
    method ReportBack(i: nat)
      requires Valid() && i < MAX_TAPES
      modifies tapes, board`memory
      ensures Valid() && After(i, Report(old(tapes[i]), old(board.Hw())), old(tapes[..]))
    {
      hide Board.Hw, Board.Valid;
      board.Store(tapes[i].mailbox, tapes[i].regs);
      tapes[i] := tapes[i].(mailbox := NULL);
    }

    method CompleteWith(i: nat, status: nat)
      requires Valid() && i < MAX_TAPES
      modifies tapes, board`memory, board.lines
      ensures Valid() && After(i, Complete(old(tapes[i]), old(board.Hw()), i, status), old(tapes[..]))
    {
      hide Report, Hw.Store, Tape.WithStatus, Volume.Mounted, Board.Hw, Board.Valid;
      SetStatus(i, status);
      board.Raise(IL_TAPE, i);
      ReportBack(i);
    }

    method FinishRead(i: nat, r: int, junk: seq<Byte>)
      requires Valid() && i < MAX_TAPES && |junk| == 4
      modifies tapes, board`memory, board.lines, board.fs`lastEntrySector, board.fs.cachedFat
      ensures Valid() && After(i, AfterRead(old(tapes[i]), old(board.Hw()), i, r, junk), old(tapes[..]))
    {
      hide UpdateHead, Complete, Forward, Tape.WithStatus, Report, Volume.Mounted, Board.Hw, Board.Valid;
      if r < 0 {
        SetStatus(i, READ_ERROR);
        ReportBack(i);
      } else {
        var res := MoveForward(i, junk);
        CompleteWith(i, if res < 0 then READ_ERROR else DEVICE_READY);
      }
    }

    method ReadTapeBlock(i: nat) returns (r: int)
      requires Valid() && i < MAX_TAPES
      modifies board`ram, board.fs`lastEntrySector, board.fs.cachedFat
      ensures Valid() && tapes[..] == old(tapes[..])
      ensures (r, board.Hw()) == ReadBlock(old(tapes[i]), old(board.Hw()))
    {
      hide Volume.Read, Hw.ReadInto, Volume.Mounted, Board.Hw, Board.Valid;
      if tapes[i].cluster == 0 {
        return 0;
      }
      var start := (tapes[i].blockIndex * BLOCKSIZE + (tapes[i].blockIndex + 1) * 4) % TWO_TO_THE_32;
      r := board.ReadInto(tapes[i].regs.data0, tapes[i].cluster, start);
    }

    /** Runs the command of tape `i` whose timer has expired. */
    method ManageEmulatedTape(i: nat, junk: seq<Byte>)
      requires Valid() && i < MAX_TAPES && |junk| == 4
      modifies tapes, board`memory, board`ram, board.lines, board.fs`lastEntrySector, board.fs.cachedFat
      ensures Valid() && After(i, Manage(old(tapes[i]), old(board.Hw()), i, junk), old(tapes[..]))
    {
      hide Complete, AfterRead, NextBlock, PrevBlock, ReadBlock, Volume.Mounted, Board.Hw, Board.Valid;
      if tapes[i].regs.status == DEVICE_NOT_INSTALLED {
        return;
      }
      if tapes[i].regs.status == DEVICE_BUSY {
        if tapes[i].regs.command == SKIPBLK {
          var res := TapeNextBlock(i, junk);
          CompleteWith(i, if res < 0 then SKIP_ERROR else DEVICE_READY);
        } else if tapes[i].regs.command == BACKBLK {
          var res := TapePrevBlock(i, junk);
          CompleteWith(i, if res < 0 then BACK_BLOCK_ERROR else DEVICE_READY);
        } else if tapes[i].regs.command == READBLK {
          var r := ReadTapeBlock(i);
          FinishRead(i, r, junk);
        }
      }
    }

    /** Copies the registers to the block of the program that sent the command. */
    method AnswerAt(i: nat, address: nat)
      requires Valid() && i < MAX_TAPES
      modifies board`memory
      ensures Valid() && After(i, Answer(tapes[i], old(board.Hw()), address), tapes[..])
    {
      hide Board.Hw, Board.Valid;
      board.Store(address, tapes[i].regs);
    }

    method StartCommand(i: nat, address: nat, now: nat, command: nat, data0: nat)
      requires Valid() && i < MAX_TAPES
      modifies tapes, board.Repr()
      ensures Valid() && After(i, Start(old(tapes[i]), old(board.Hw()), i, address, now, command, data0), old(tapes[..]))
    {
      hide Hw.Arm, Volume.Mounted, Board.Hw, Board.Valid;
      tapes[i] := tapes[i].(regs := tapes[i].regs.(command := command, data0 := data0, status := DEVICE_BUSY),
                            mailbox := address);
      board.Store(address, tapes[i].regs);
      board.SetDeviceTimer(TAPE_DELAY, TAPE, i, now);
    }

    method Reset(i: nat, address: nat, junk: seq<Byte>)
      requires Valid() && i < MAX_TAPES && |junk| == 4
      modifies tapes, board.Repr()
      ensures Valid() && After(i, ResetTape(old(tapes[i]), old(board.Hw()), i, address, junk), old(tapes[..]))
    {
      hide UpdateHead, Volume.Mounted, Board.Hw, Board.Valid;
      tapes[i] := tapes[i].(regs := tapes[i].regs.(command := RESET, status := DEVICE_READY), blockIndex := 0);
      var res := UpdateTapeHead(i, junk);
      board.Raise(IL_TAPE, i);
      AnswerAt(i, address);
    }

    method Acknowledge(i: nat, address: nat)
      requires Valid() && i < MAX_TAPES
      modifies tapes, board.Repr()
      ensures Valid() && After(i, AckTape(old(tapes[i]), old(board.Hw()), i, address), old(tapes[..]))
    {
      hide Answer, Volume.Mounted, Board.Hw, Board.Valid;
      if tapes[i].regs.status != DEVICE_BUSY {
        tapes[i] := tapes[i].(regs := tapes[i].regs.(command := ACK, status := DEVICE_READY));
        board.Lower(IL_TAPE, i);
      }
      AnswerAt(i, address);
    }

    method Wind(i: nat, address: nat, now: nat, command: nat)
      requires Valid() && i < MAX_TAPES
      modifies tapes, board.Repr()
      ensures Valid() && After(i, WindTape(old(tapes[i]), old(board.Hw()), i, address, now, command), old(tapes[..]))
    {
      hide Board.Hw, Board.Valid;
      if tapes[i].regs.status != DEVICE_BUSY {
        StartCommand(i, address, now, command, tapes[i].regs.data0);
      } else {
        AnswerAt(i, address);
      }
    }

    /** The block's answer to a read at the end of the tape, with the registers stored over it. */
    method RefuseRead(i: nat, address: nat, registers: Registers)
      requires Valid() && i < MAX_TAPES
      modifies tapes, board.Repr()
      ensures Valid()
      ensures After(i, Answer(old(tapes[i]).WithStatus(READ_ERROR), old(board.Hw()), address), old(tapes[..]))
    {
      StoreTwice(board.Hw(), address, registers.(mailbox := 2), tapes[i].WithStatus(READ_ERROR).regs);
      hide Hw.Store, Volume.Mounted, Board.Hw, Board.Valid;
      SetStatus(i, READ_ERROR);
      board.Store(address, registers.(mailbox := 2));
      AnswerAt(i, address);
    }

    lemma StoreTwice(hw: Hw, address: nat, first: Registers, second: Registers)
      requires hw.Shape()
      ensures hw.Store(address, first).Shape() && hw.Store(address, first).Store(address, second) == hw.Store(address, second)
    {
      var r1, r2 := hw.Store(address, first).Store(address, second), hw.Store(address, second);
      assert r1.memory == r2.memory;
    }

    method StartRead(i: nat, address: nat, now: nat, registers: Registers)
      requires Valid() && i < MAX_TAPES
      modifies tapes, board.Repr()
      ensures Valid()
      ensures After(i, ReadTape(old(tapes[i]), old(board.Hw()), i, address, now, registers.data0), old(tapes[..]))
    {
      hide Start, Answer, Volume.Mounted, Tape.WithStatus, Board.Hw, Board.Valid;
      if tapes[i].regs.status != DEVICE_BUSY {
        if tapes[i].regs.data1 == EOT {
          RefuseRead(i, address, registers);
        } else {
          StartCommand(i, address, now, READBLK, registers.data0);
        }
      } else {
        AnswerAt(i, address);
      }
    }

    method Reject(i: nat, address: nat)
      requires Valid() && i < MAX_TAPES
      modifies tapes, board.Repr()
      ensures Valid()
      ensures After(i, Answer(old(tapes[i]).WithStatus(ILLEGAL_OPERATION), old(board.Hw()), address), old(tapes[..]))
    {
      hide Volume.Mounted, Board.Hw, Board.Valid;
      SetStatus(i, ILLEGAL_OPERATION);
      AnswerAt(i, address);
    }

    method Dispatch(i: nat, address: nat, now: nat, junk: seq<Byte>)
      requires Valid() && i < MAX_TAPES && |junk| == 4
      modifies tapes, board.Repr()
      ensures Valid() && After(i, Command(old(tapes[i]), old(board.Hw()), i, address, now, junk), old(tapes[..]))
    {
      hide ResetTape, AckTape, WindTape, ReadTape, Answer, Board.Hw, Board.Valid;
      var registers := board.Load(address);
      if registers.command == RESET {
        Reset(i, address, junk);
      } else if registers.command == ACK {
        Acknowledge(i, address);
      } else if registers.command == READ_REGISTERS {
        AnswerAt(i, address);
      } else if registers.command == SKIPBLK || registers.command == BACKBLK {
        Wind(i, address, now, registers.command);
      } else if registers.command == READBLK {
        StartRead(i, address, now, registers);
      } else {
        Reject(i, address);
      }
    }

    method MarkSeen(i: nat)
      requires Valid() && i < MAX_TAPES
      modifies tapes
      ensures Valid() && board.Hw() == old(board.Hw())
      ensures tapes[..] == old(tapes[..])[i := old(tapes[i]).(regs := old(tapes[i]).regs.(mailbox := 1))]
    {
      hide Board.Hw, Board.Valid;
      tapes[i] := tapes[i].(regs := tapes[i].regs.(mailbox := 1));
    }

    /** A command sent to tape `i` through the mailbox, its register block lying at `address`. */
    method EmulatedTapeMailbox(i: nat, address: nat, now: nat, junk: seq<Byte>)
      requires Valid() && i < MAX_TAPES && |junk| == 4
      modifies tapes, board.Repr()
      ensures Valid() && After(i, Mailbox(old(tapes[i]), old(board.Hw()), i, address, now, junk), old(tapes[..]))
    {
      hide Command, Volume.Mounted, Board.Hw, Board.Valid;
      if address == NULL {
        return;
      }
      var registers := board.Load(address);
      MarkSeen(i);
      if tapes[i].regs.status == DEVICE_NOT_INSTALLED && registers.command != READ_REGISTERS {
        AnswerAt(i, address);
        return;
      }
      Dispatch(i, address, now, junk);
    }
  }
}
