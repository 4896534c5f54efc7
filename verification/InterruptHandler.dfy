/** The FIQ handler as the source runs it, over the controllers and the shared board. */
module InterruptHandler {
  import opened TimerQueue
  import opened Hardware
  import opened Interrupts
  import opened Machine
  import Effects
  import Tapes
  import Disks
  import Printers
  import TapeController
  import DiskController
  import PrinterController

  class Handler {
    const board: Board
    const tapes: TapeController.Controller
    const disks: DiskController.Controller
    const printers: PrinterController.Controller

    ghost function Repr(): set<object> {
      {tapes.tapes as object, disks.disks as object, printers.printers as object} + board.Repr()
    }

    ghost predicate Valid()
      reads this, tapes, disks, printers, Repr()
    {
      && tapes.board == disks.board == printers.board == board
      && tapes.Valid() && disks.Valid() && printers.Valid()
    }

    ghost function State(): (s: System)
      requires Valid()
      reads this, tapes, disks, printers, Repr()
      ensures s.Shape()
    {
      System(tapes.tapes[..], disks.disks[..], printers.printers[..], board.Hw())
    }

    constructor (board: Board, tapes: TapeController.Controller, disks: DiskController.Controller,
                 printers: PrinterController.Controller)
      requires tapes.board == disks.board == printers.board == board
      requires tapes.Valid() && disks.Valid() && printers.Valid()
      ensures this.board == board
      ensures Valid() && State() == System(tapes.tapes[..], disks.disks[..], printers.printers[..], board.Hw())
    {
      this.board, this.tapes, this.disks, this.printers := board, tapes, disks, printers;
    }

    method TapeMessage(i: nat, address: nat, now: nat, junk: Local)
      requires Valid() && i < MAX_DEVICES
      modifies Repr()
      ensures Valid() && State() == old(State()).SetTape(i, Tapes.Mailbox(old(State()).tapes[i], old(State()).hw, i, address, now, junk))
    {
      hide Tapes.Mailbox, Tapes.Manage, Board.Hw, Board.Valid;
      tapes.EmulatedTapeMailbox(i, address, now, junk);
    }

    method DiskMessage(i: nat, address: nat, now: nat)
      requires Valid() && i < MAX_DEVICES
      modifies Repr()
      ensures Valid() && State() == old(State()).SetDisk(i, Disks.Mailbox(old(State()).disks[i], old(State()).hw, i, address, now))
    {
      hide Disks.Mailbox, Disks.Manage, Board.Hw, Board.Valid;
      disks.EmulatedDiskMailbox(i, address, now);
    }

    method PrinterMessage(i: nat, address: nat, now: nat)
      requires Valid() && i < MAX_DEVICES
      modifies Repr()
      ensures Valid() && State() == old(State()).SetPrinter(i, Printers.Mailbox(old(State()).printers[i], old(State()).hw, i, address, now))
    {
      hide Printers.Mailbox, Printers.Manage, Board.Hw, Board.Valid;
      printers.EmulatedPrinterMailbox(i, address, now);
    }

    /** Hands a mailbox message to the device it names. */
    method HandleMessage(word: nat, now: nat, junk: Junk)
      requires Valid()
      modifies Repr()
      ensures Valid() && State() == Message(old(State()), word, now, junk)
    {
      MessageByClass(State(), word, now, junk);
      hide *;
      var address, deviceClass, deviceNum := AddressOf(word), ClassOf(word), DeviceOf(word);
      if deviceClass == DEVICE_CLASS_DISK {
        DiskMessage(deviceNum, address, now);
      } else if deviceClass == DEVICE_CLASS_PRINTER {
        PrinterMessage(deviceNum, address, now);
      } else if deviceClass == DEVICE_CLASS_TAPE {
        TapeMessage(deviceNum, address, now, junk[deviceNum]);
      }
    }

    lemma MessageByClass(s: System, word: nat, now: nat, junk: Junk)
      requires s.Shape()
      ensures var a, i, m := AddressOf(word), DeviceOf(word), Message(s, word, now, junk);
        && (ClassOf(word) == DEVICE_CLASS_DISK ==> m == s.SetDisk(i, Disks.Mailbox(s.disks[i], s.hw, i, a, now)))
        && (ClassOf(word) == DEVICE_CLASS_PRINTER ==> m == s.SetPrinter(i, Printers.Mailbox(s.printers[i], s.hw, i, a, now)))
        && (ClassOf(word) == DEVICE_CLASS_TAPE ==> m == s.SetTape(i, Tapes.Mailbox(s.tapes[i], s.hw, i, a, now, junk[i])))
        && (ClassOf(word) > DEVICE_CLASS_DISK ==> m == s)
      ensures ClassOf(word) < 4
    {
    }

    method TapeTimer(i: nat, junk: Local)
      requires Valid() && i < MAX_DEVICES
      modifies Repr()
      ensures Valid() && State() == old(State()).SetTape(i, Tapes.Manage(old(State()).tapes[i], old(State()).hw, i, junk))
    {
      hide Tapes.Mailbox, Tapes.Manage, Board.Hw, Board.Valid;
      tapes.ManageEmulatedTape(i, junk);
    }

    method DiskTimer(i: nat)
      requires Valid() && i < MAX_DEVICES
      modifies Repr()
      ensures Valid() && State() == old(State()).SetDisk(i, Disks.Manage(old(State()).disks[i], old(State()).hw, i))
    {
      hide Disks.Mailbox, Disks.Manage, Board.Hw, Board.Valid;
      disks.ManageEmulatedDisk(i);
    }

    method PrinterTimer(i: nat)
      requires Valid() && i < MAX_DEVICES
      modifies Repr()
      ensures Valid() && State() == old(State()).SetPrinter(i, Printers.Manage(old(State()).printers[i], old(State()).hw, i))
    {
      hide Printers.Mailbox, Printers.Manage, Board.Hw, Board.Valid;
      printers.ManageEmulatedPrinter(i);
    }

    method ManageDevice(k: Key, junk: Junk)
      requires Valid() && DeviceKey(k)
      modifies Repr()
      ensures Valid() && State() == Manage(old(State()), k, junk)
    {
      hide Tapes.Manage, Disks.Manage, Printers.Manage;
      match k.kind
      case TAPE => TapeTimer(k.code, junk[k.code]);
      case PRINTER => PrinterTimer(k.code);
      case DISK => DiskTimer(k.code);
      case UNALLOCATED =>
    }

    /** Takes the first timer off the queue if it has expired. */
    method NextPendingTimer(now: nat) returns (res: int, next: Entry)
      requires Valid()
      modifies board.timers`pend, board.timers`free, board.timers.Links()
      ensures Valid()
      ensures var s, q := old(State()), old(State()).hw.pending;
        && (q == [] ==> res == -1 && State() == s)
        && (q != [] ==> next == q[0] && res == (if q[0].time < now then 1 else 0))
        && (res == 1 ==> State() == s.(hw := s.hw.(pending := q[1..])))
        && (res == 0 ==> State() == s)
    {
      res, next := board.timers.NextPendingTimer(now);
    }

    /** Drains the expired timers, and says whether one is left and which. */
    method DrainTimers(now: nat, junk: Junk) returns (res: int, next: Entry)
      requires Valid() && DeviceKeys(State().hw.pending)
      modifies Repr()
      ensures Valid() && State() == Drain(old(State()), now, junk)
      ensures State().hw.pending == [] ==> res == -1
      ensures State().hw.pending != [] ==> res == 0 && next == State().hw.pending[0] && next.time >= now
    {
      hide Manage, Handler.Valid, Handler.State;
      ghost var target := Drain(State(), now, junk);
      res, next := NextPendingTimer(now);
      while res > 0
        invariant Valid()
        invariant res > 0 ==> DeviceKey(next.key) && DeviceKeys(State().hw.pending)
        invariant res > 0 ==> Drain(Manage(State(), next.key, junk), now, junk) == target
        invariant res <= 0 ==> State() == target
        invariant res <= 0 ==> if State().hw.pending == [] then res == -1
                               else res == 0 && next == State().hw.pending[0] && next.time >= now
        decreases if res > 0 then 1 + |State().hw.pending| else 0
      {
        ManageDevice(next.key, junk);
        res, next := NextPendingTimer(now);
      }
    }

    /** Programs the counter for the timer that is left, or stops it. */
    method ProgramCounter(res: int, next: Entry, now: nat)
      requires Valid()
      requires var q := State().hw.pending;
        if q == [] then res == -1 else res == 0 && next == q[0] && next.time >= now
      modifies board`vtimer
      ensures Valid()
      ensures var s, q := old(State()), old(State()).hw.pending;
        State() == s.(hw := s.hw.(vtimer := if q != [] then s.hw.vtimer.Set(s.hw.freq, q[0].time - now, now)
                                            else s.hw.vtimer.Disable()))
    {
      hide VirtualTimer.Set;
      if res == 0 {
        board.SetVirtualTimer(next.time - now, now);
      } else {
        board.DisableVirtualCounter();
      }
    }

    method FireIfPending()
      requires Valid()
      modifies board`fireNow
      ensures Valid()
      ensures var s := old(State());
        State() == s.(hw := if s.hw.PendingInterrupt() then s.hw.(fireNow := true) else s.hw)
      ensures board.fireNow
        == (old(board.fireNow) || exists j :: 0 <= j < board.lines.Length && board.lines[j] != {} && j !in board.mask)
    {
      hide Hw.PendingInterrupt;
      var pending := board.PendingEmulatedInterrupt();
      if pending {
        board.FirePhysicalTimer();
      }
    }

    method RearmCounter(res: int, next: Entry, now: nat)
      requires Valid()
      requires var q := State().hw.pending;
        if q == [] then res == -1 else res == 0 && next == q[0] && next.time >= now
      modifies board`vtimer, board`fireNow
      ensures Valid() && State() == Rearm(old(State()), now)
    {
      RearmInSteps(State(), now);
      hide Rearm, VirtualTimer.Set, VirtualTimer.Disable, Hw.PendingInterrupt;
      ProgramCounter(res, next, now);
      FireIfPending();
    }

    method HandleTimers(now: nat, junk: Junk)
      requires Valid() && DeviceKeys(State().hw.pending)
      modifies Repr()
      ensures Valid() && State() == Expire(old(State()), now, junk)
    {
      hide Drain, Rearm;
      var res, next := DrainTimers(now, junk);
      RearmCounter(res, next, now);
    }

    method CleanInterruptLines()
      requires Valid()
      modifies board.lines
      ensures Valid() && State() == old(State()).(hw := old(State()).hw.CleanLines())
    {
      board.CleanInterruptLines();
    }

    /** The FIQ handler. */
    method CFiqHandler(source: nat, word: nat, now: nat, later: nat, junk: Junk)
      requires Valid() && DeviceKeys(State().hw.pending)
      modifies Repr()
      ensures Valid() && State() == Fiq(old(State()), source, word, now, later, junk)
    {
      hide Message, Expire;
      if source / 0x10 % 2 == 1 {
        HandleMessage(word, now, junk);
        MessageKeepsKeys(old(State()), word, now, junk);
      }
      if source / 0x08 % 2 == 1 {
        HandleTimers(later, junk);
      }
      CleanInterruptLines();
    }

    lemma MessageKeepsKeys(s: System, word: nat, now: nat, junk: Junk)
      requires s.Shape() && DeviceKeys(s.hw.pending)
      ensures DeviceKeys(Message(s, word, now, junk).hw.pending)
    {
      Effects.MessageEffect(s, word, now, junk);
      if DeviceKey(Effects.Target(word)) {
        AddTimerKeepsDeviceKeys(s.hw.pending, Effects.Deadline(s, word, now), Effects.Target(word));
      }
      hide Message, AddTimer, Effects.BitAfter, Effects.RegistersMove, Effects.OnlyBit;
    }
  }
}
