/** The printer emulation as the source runs it, in place on the array of printers. */
module PrinterController {
  import opened TimerQueue
  import opened Hardware
  import opened Machine
  import opened Printers

  class Controller {
    const board: Board
    const printers: array<Printer>

    ghost predicate Valid()
      reads this, board.Repr(), printers
    {
      board.Valid() && printers.Length == MAX_PRINTERS && board.Hw().Shape() && printers !in board.Repr()
    }

    ghost predicate After(i: nat, step: (Printer, Hw), before: seq<Printer>)
      requires Valid() && i < MAX_PRINTERS && |before| == MAX_PRINTERS
      reads this, board.Repr(), printers
    {
      printers[..] == before[i := step.0] && board.Hw() == step.1
    }

    constructor InitEmulatedPrinters(board: Board)
      requires board.Valid()
      modifies board.installed
      ensures Valid() && this.board == board && fresh(printers)
      ensures forall i :: 0 <= i < MAX_PRINTERS ==>
        && printers[i] == Boot() && printers[i].mailbox == NULL
        && printers[i].regs == Registers(DEVICE_READY, RESET, 0, 0, 0)
      ensures board.Hw() == old(board.Hw()).Install(IL_PRINTER, {0, 1, 2, 3})
    {
      board.HasShape();
      hide Board.Hw, Board.Valid, Boot;
      this.board := board;
      printers := new Printer[MAX_PRINTERS](_ => Printer(0, NULL, Registers(0, 0, 0, 0, 0)));
      new;
      assert printers !in board.Repr();
      board.Install(IL_PRINTER, {0, 1, 2, 3});
      hide *;
      SetUp();
    }

    method SetUp()
      requires Valid() && forall j :: 0 <= j < MAX_PRINTERS ==> printers[j] == Printer(0, NULL, Registers(0, 0, 0, 0, 0))
      modifies printers
      ensures Valid() && board.Hw() == old(board.Hw()) && forall i :: 0 <= i < MAX_PRINTERS ==> printers[i] == Boot()
    {
      hide Board.Hw, Board.Valid;
      for i := 0 to MAX_PRINTERS
        invariant Valid() && board.Hw() == old(board.Hw())
        invariant forall j :: 0 <= j < i ==> printers[j] == Boot()
        invariant forall j :: i <= j < MAX_PRINTERS ==> printers[j] == Printer(0, NULL, Registers(0, 0, 0, 0, 0))
      {
        printers[i] := printers[i].(regs := printers[i].regs.(command := RESET, status := DEVICE_READY));
      }
    }

    method PrinterSend(i: nat, word: nat)
      requires Valid() && i < MAX_PRINTERS
      modifies board`printed
      ensures Valid() && board.Hw() == Print(old(board.Hw()), i, word)
    {
      board.printed := board.printed + [(i, word % 0x100)];
    }

    /** Runs the command of printer `i` whose timer has expired. */
    method ManageEmulatedPrinter(i: nat)
      requires Valid() && i < MAX_PRINTERS
      modifies printers, board.Repr()
      ensures Valid() && After(i, Manage(old(printers[i]), old(board.Hw()), i), old(printers[..]))
    {
      hide Board.Hw, Board.Valid;
      if printers[i].regs.status == DEVICE_BUSY {
        if printers[i].regs.command == PRINT_CHAR {
          PrinterSend(i, printers[i].regs.data0);
          printers[i] := printers[i].(regs := printers[i].regs.(status := DEVICE_READY));
          board.Raise(IL_PRINTER, i);
          printers[i] := printers[i].(executing := RESET);
          board.Store(printers[i].mailbox, printers[i].regs);
          printers[i] := printers[i].(mailbox := NULL);
        }
      }
    }

    // ----- A mailbox command -----

    method AnswerAt(i: nat, address: nat)
      requires Valid() && i < MAX_PRINTERS
      modifies board`memory
      ensures Valid() && After(i, Answer(printers[i], old(board.Hw()), address), printers[..])
    {
      hide Board.Hw, Board.Valid;
      board.Store(address, printers[i].regs);
    }

    method RefuseAt(i: nat, address: nat)
      requires Valid() && i < MAX_PRINTERS
      modifies board`memory
      ensures Valid() && After(i, Refuse(printers[i], old(board.Hw()), address), printers[..])
    {
      hide Board.Hw, Board.Valid;
      var registers := board.Load(address);
      board.Store(address, registers.(mailbox := 2));
    }

    method Reset(i: nat, address: nat)
      requires Valid() && i < MAX_PRINTERS
      modifies printers, board.Repr()
      ensures Valid() && After(i, ResetPrinter(old(printers[i]), old(board.Hw()), i, address), old(printers[..]))
    {
      hide Board.Hw, Board.Valid;
      printers[i] := printers[i].(regs := printers[i].regs.(status := DEVICE_READY, command := RESET));
      board.Lower(IL_PRINTER, i);
      AnswerAt(i, address);
    }

    method Acknowledge(i: nat, address: nat)
      requires Valid() && i < MAX_PRINTERS
      modifies printers, board.Repr()
      ensures Valid() && After(i, AckPrinter(old(printers[i]), old(board.Hw()), i, address), old(printers[..]))
    {
      hide Board.Hw, Board.Valid;
      if printers[i].regs.status != DEVICE_BUSY {
        printers[i] := printers[i].(regs := printers[i].regs.(command := ACK, status := DEVICE_READY));
        board.Lower(IL_PRINTER, i);
        AnswerAt(i, address);
      } else {
        RefuseAt(i, address);
      }
    }

    method StartCommand(i: nat, address: nat, now: nat, data0: nat)
      requires Valid() && i < MAX_PRINTERS
      modifies printers, board.Repr()
      ensures Valid() && After(i, Start(old(printers[i]), old(board.Hw()), i, address, now, data0), old(printers[..]))
    {
      hide Hw.Arm, Board.Hw, Board.Valid;
      printers[i] := printers[i].(regs := printers[i].regs.(status := DEVICE_BUSY, command := PRINT_CHAR, data0 := data0),
                                  mailbox := address);
      board.Store(address, printers[i].regs);
      board.SetDeviceTimer(PRINT_DELAY, PRINTER, i, now);
    }

    method StartPrint(i: nat, address: nat, now: nat)
      requires Valid() && i < MAX_PRINTERS
      modifies printers, board.Repr()
      ensures Valid() && After(i, PrintChar(old(printers[i]), old(board.Hw()), i, address, now), old(printers[..]))
    {
      hide Start, Refuse, Board.Hw, Board.Valid;
      if printers[i].regs.status != DEVICE_BUSY {
        var registers := board.Load(address);
        StartCommand(i, address, now, registers.data0);
      } else {
        RefuseAt(i, address);
      }
    }

    method Reject(i: nat, address: nat)
      requires Valid() && i < MAX_PRINTERS
      modifies printers, board.Repr()
      ensures Valid()
      ensures After(i, Answer(old(printers[i]).WithStatus(ILLEGAL_OPERATION), old(board.Hw()), address), old(printers[..]))
    {
      hide Board.Hw, Board.Valid;
      printers[i] := printers[i].(regs := printers[i].regs.(status := ILLEGAL_OPERATION));
      AnswerAt(i, address);
    }

    method Dispatch(i: nat, address: nat, now: nat)
      requires Valid() && i < MAX_PRINTERS
      modifies printers, board.Repr()
      ensures Valid() && After(i, Command(old(printers[i]), old(board.Hw()), i, address, now), old(printers[..]))
    {
      hide ResetPrinter, AckPrinter, PrintChar, Answer, Board.Hw, Board.Valid;
      var registers := board.Load(address);
      var op := Opcode(registers.command);
      if op == RESET {
        Reset(i, address);
      } else if op == ACK {
        Acknowledge(i, address);
      } else if op == READ_REGISTERS {
        AnswerAt(i, address);
      } else if op == PRINT_CHAR {
        StartPrint(i, address, now);
      } else {
        Reject(i, address);
      }
    }

    /** A command sent to printer `i` through the mailbox, its register block lying at `address`. */
    method EmulatedPrinterMailbox(i: nat, address: nat, now: nat)
      requires Valid() && i < MAX_PRINTERS
      modifies printers, board.Repr()
      ensures Valid() && After(i, Mailbox(old(printers[i]), old(board.Hw()), i, address, now), old(printers[..]))
    {
      hide Command, Board.Hw, Board.Valid;
      if address == NULL {
        return;
      }
      var registers := board.Load(address);
      if printers[i].regs.status == DEVICE_NOT_INSTALLED && registers.command != READ_REGISTERS {
        return;
      }
      printers[i] := printers[i].(regs := printers[i].regs.(mailbox := 1));
      Dispatch(i, address, now);
    }
  }
}
