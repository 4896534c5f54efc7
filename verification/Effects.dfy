/** What one mailbox message and one expired timer do, told once for the three kinds of devices. */
module Effects {
  import opened Bytes
  import opened TimerQueue
  import opened Fat32
  import opened Hardware
  import opened Interrupts
  import Tapes
  import Disks
  import Printers

  // ----- A device by its timer key -----

  function Line(k: Key): (n: nat)
    ensures n < IL_LINES
  {
    match k.kind
    case TAPE => IL_TAPE
    case DISK => IL_DISK
    case PRINTER => IL_PRINTER
    case UNALLOCATED => IL_TIMER
  }

  function Regs(s: System, k: Key): Registers
    requires s.Shape() && DeviceKey(k)
  {
    match k.kind
    case TAPE => s.tapes[k.code].regs
    case DISK => s.disks[k.code].regs
    case PRINTER => s.printers[k.code].regs
  }

  /** The register block to report to, NULL for none. */
  function Pointer(s: System, k: Key): nat
    requires s.Shape() && DeviceKey(k)
  {
    match k.kind
    case TAPE => s.tapes[k.code].mailbox
    case DISK => s.disks[k.code].mailbox
    case PRINTER => s.printers[k.code].mailbox
  }

  predicate Timed(s: System, k: Key)
    requires s.Shape() && DeviceKey(k)
  {
    match k.kind
    case TAPE => Tapes.TimedCommand(Regs(s, k).command)
    case DISK => Disks.TimedCommand(Regs(s, k).command)
    case PRINTER => Printers.TimedCommand(Regs(s, k).command)
  }

  predicate Busy(s: System, k: Key)
    requires s.Shape() && DeviceKey(k)
  {
    Regs(s, k).status == DEVICE_BUSY
  }

  predicate Installed(s: System, k: Key)
    requires s.Shape() && DeviceKey(k)
  {
    Regs(s, k).status != DEVICE_NOT_INSTALLED
  }

  predicate Raised(s: System, k: Key)
    requires s.Shape() && DeviceKey(k)
  {
    k.code in s.hw.lines[Line(k)]
  }

  ghost predicate SameDevice(s: System, s': System, k: Key)
    requires s.Shape() && s'.Shape() && DeviceKey(k)
  {
    match k.kind
    case TAPE => s'.tapes[k.code] == s.tapes[k.code]
    case DISK => s'.disks[k.code] == s.disks[k.code]
    case PRINTER => s'.printers[k.code] == s.printers[k.code]
  }

  // ----- Messages -----

  function ClassKind(c: nat): TimerType {
    if c == DEVICE_CLASS_TAPE then TAPE
    else if c == DEVICE_CLASS_DISK then DISK
    else if c == DEVICE_CLASS_PRINTER then PRINTER
    else UNALLOCATED
  }

  /** The device a mailbox word addresses; no device for the fourth class. */
  function Target(word: nat): (k: Key)
    ensures DeviceKey(k) <==> !k.kind.UNALLOCATED?
  {
    Key(ClassKind(ClassOf(word)), DeviceOf(word))
  }

  function SentCommand(s: System, word: nat): nat {
    s.hw.RegistersAt(AddressOf(word)).command
  }

  function DiskDelay(d: Disks.Disk, command: nat): nat {
    if Opcode(command) == Disks.SEEKCYL then d.Delay(Disks.CylinderOf(command), d.sector)
    else d.Delay(d.cylinder, Disks.SectorOf(command))
  }

  /** The delay of the command that the message asks for, should the device accept it. */
  function CommandDelay(s: System, word: nat): nat
    requires s.Shape()
  {
    match Target(word).kind
    case TAPE => Tapes.TAPE_DELAY
    case DISK => DiskDelay(s.disks[DeviceOf(word)], SentCommand(s, word))
    case PRINTER => Printers.PRINT_DELAY
    case UNALLOCATED => 0
  }

  function Deadline(s: System, word: nat, now: nat): nat
    requires s.Shape()
  {
    (now + CommandDelay(s, word)) % TWO_TO_THE_64
  }

  /** The message made the device busy. */
  predicate Accepted(s: System, s': System, k: Key)
    requires s.Shape() && s'.Shape() && DeviceKey(k)
  {
    !Busy(s, k) && Busy(s', k)
  }

  /** A device's interrupt bit after a command: set by RESET of a tape or disk, cleared by an accepted
      ACK and by RESET of a printer. */
  function BitAfter(kind: TimerType, command: nat, status: nat, raised: bool): bool {
    var op := if kind == TAPE then command else Opcode(command);
    if status == DEVICE_NOT_INSTALLED then raised
    else if op == RESET then kind != PRINTER
    else if op == ACK && status != DEVICE_BUSY then false
    else raised
  }

  /** The hardware but for the memory, the lines, the queue and the counter. */
  ghost predicate SameStore(hw: Hw, hw': Hw) {
    hw' == hw.(memory := hw'.memory, lines := hw'.lines, pending := hw'.pending, vtimer := hw'.vtimer)
  }

  /** Only the interrupt bit of device `k` may have changed, and is now `bit`. */
  ghost predicate OnlyBit(hw: Hw, hw': Hw, k: Key, bit: bool) {
    && |hw.lines| == |hw'.lines| == IL_LINES && k.code >= 0
    && (forall j :: 0 <= j < IL_LINES && j != Line(k) ==> hw'.lines[j] == hw.lines[j])
    && (forall x: nat :: x in hw'.lines[Line(k)] <==> if x == k.code then bit else x in hw.lines[Line(k)])
  }

  /** The queue and the counter as after arming when a command was accepted, else unchanged. */
  ghost predicate ArmedIf(accepted: bool, hw: Hw, hw': Hw, k: Key, deadline: nat, now: nat) {
    if accepted then hw'.pending == AddTimer(hw.pending, deadline, k) && hw'.vtimer == hw.WakeFor(hw'.pending, now)
    else hw'.pending == hw.pending && hw'.vtimer == hw.vtimer
  }

  /** What a command may do to the registers, `p` being the program's block before and after. */
  ghost predicate RegistersMove(r: Registers, r': Registers, p: nat, p': nat, timed: bool) {
    && (r.status == DEVICE_NOT_INSTALLED <==> r'.status == DEVICE_NOT_INSTALLED)
    && (r'.status == DEVICE_BUSY && r.status != DEVICE_BUSY ==> p' != NULL && timed)
    && (r'.status == DEVICE_BUSY && r.status == DEVICE_BUSY ==> p' == p && r'.command == r.command)
  }

  lemma TapeBits(t: Tapes.Tape, hw: Hw, i: nat, address: nat, now: nat, junk: Local)
    requires hw.Shape() && address != NULL
    ensures var (_, hw') := Tapes.Mailbox(t, hw, i, address, now, junk);
      && SameStore(hw, hw')
      && OnlyBit(hw, hw', Key(TAPE, i),
                 BitAfter(TAPE, hw.RegistersAt(address).command, t.regs.status, i in hw.lines[IL_TAPE]))
  {
    hide Tapes.WindTape, Tapes.ReadTape, Hw.RegistersAt, Tapes.UpdateHead, Tapes.Tape.WithStatus;
    TapeMovesSameStore(t.(regs := t.regs.(mailbox := 1)), hw, i, address, now);
  }

  lemma TapeMovesSameStore(t: Tapes.Tape, hw: Hw, i: nat, address: nat, now: nat)
    ensures forall command ::
      var hw' := Tapes.WindTape(t, hw, i, address, now, command).1; SameStore(hw, hw') && hw'.lines == hw.lines
    ensures forall data0 ::
      var hw' := Tapes.ReadTape(t, hw, i, address, now, data0).1; SameStore(hw, hw') && hw'.lines == hw.lines
  {
    hide Tapes.Tape.WithStatus, AddTimer, Hw.WakeFor;
  }

  lemma TapeArms(t: Tapes.Tape, hw: Hw, i: nat, address: nat, now: nat, junk: Local)
    requires hw.Shape() && address != NULL
    ensures var (t', hw') := Tapes.Mailbox(t, hw, i, address, now, junk);
      && ArmedIf(!t.Busy() && t'.Busy(), hw, hw', Key(TAPE, i), (now + Tapes.TAPE_DELAY) % TWO_TO_THE_64, now)
      && RegistersMove(t.regs, t'.regs, t.mailbox, t'.mailbox, Tapes.TimedCommand(t'.regs.command))
  {
    hide AddTimer, VirtualTimer.Set, Tapes.Marker;
  }

  lemma DiskBits(d: Disks.Disk, hw: Hw, i: nat, address: nat, now: nat)
    requires hw.Shape() && address != NULL
    ensures var (_, hw') := Disks.Mailbox(d, hw, i, address, now);
      && SameStore(hw, hw')
      && OnlyBit(hw, hw', Key(DISK, i),
                 BitAfter(DISK, hw.RegistersAt(address).command, d.regs.status, i in hw.lines[IL_DISK]))
  {
    DiskSameStore(d, hw, i, address, now);
    OpcodeOfRead();
    hide SameStore, Disks.Disk.Delay, Disks.CylinderOf, Disks.SectorOf, Disks.HeadOf, Opcode, AddTimer, Hw.WakeFor;
  }

  lemma DiskSameStore(d: Disks.Disk, hw: Hw, i: nat, address: nat, now: nat)
    requires hw.Shape() && address != NULL
    ensures SameStore(hw, Disks.Mailbox(d, hw, i, address, now).1)
  {
    hide Disks.TransferDisk, Disks.SeekDisk, Disks.Disk.WithStatus, Opcode, Hw.RegistersAt;
    var d1 := d.(regs := d.regs.(mailbox := 1));
    DiskMovesSameStore(d1, hw, i, address, now);
  }

  lemma DiskMovesSameStore(d: Disks.Disk, hw: Hw, i: nat, address: nat, now: nat)
    ensures SameStore(hw, Disks.TransferDisk(d, hw, i, address, now).1)
    ensures SameStore(hw, Disks.SeekDisk(d, hw, i, address, now).1)
  {
    hide Disks.Start, Disks.Disk.Delay, Disks.CylinderOf, Disks.SectorOf, Disks.HeadOf;
    forall delay
      ensures SameStore(hw, Disks.Start(d, hw, i, address, now, delay).1)
    {
      DiskStartSameStore(d, hw, i, address, now, delay);
    }
  }

  lemma DiskStartSameStore(d: Disks.Disk, hw: Hw, i: nat, address: nat, now: nat, delay: nat)
    ensures SameStore(hw, Disks.Start(d, hw, i, address, now, delay).1)
  {
    hide AddTimer, Hw.WakeFor, Hw.RegistersAt;
  }

  lemma DiskStarts(d: Disks.Disk, hw: Hw, i: nat, address: nat, now: nat, delay: nat)
    ensures var (d', hw') := Disks.Start(d, hw, i, address, now, delay);
      && d'.Busy() && d'.mailbox == address && d'.regs.command == hw.RegistersAt(address).command
      && ArmedIf(true, hw, hw', Key(DISK, i), (now + delay) % TWO_TO_THE_64, now)
  {
    hide AddTimer, VirtualTimer.Set;
  }

  /** A disk takes up a timed command in one way only. */
  lemma DiskCases(d: Disks.Disk, hw: Hw, i: nat, address: nat, now: nat)
    requires hw.Shape() && address != NULL
    ensures var (d', hw') := Disks.Mailbox(d, hw, i, address, now);
      var d1, sent := d.(regs := d.regs.(mailbox := 1)), hw.RegistersAt(address);
      || (!d.Busy() && Disks.TimedCommand(sent.command)
          && (d', hw') == Disks.Start(d1, hw, i, address, now, DiskDelay(d1, sent.command)))
      || ((d'.Busy() ==> d.Busy() && d'.mailbox == d.mailbox && d'.regs.command == d.regs.command)
          && hw'.pending == hw.pending && hw'.vtimer == hw.vtimer)
  {
    OpcodeOfRead();
    hide Disks.Start, Disks.Disk.Delay, Disks.CylinderOf, Disks.SectorOf, Disks.HeadOf, Opcode;
  }

  lemma DiskArms(d: Disks.Disk, hw: Hw, i: nat, address: nat, now: nat)
    requires hw.Shape() && address != NULL
    ensures var (d', hw') := Disks.Mailbox(d, hw, i, address, now);
      && ArmedIf(!d.Busy() && d'.Busy(), hw, hw', Key(DISK, i),
                 (now + DiskDelay(d, hw.RegistersAt(address).command)) % TWO_TO_THE_64, now)
      && RegistersMove(d.regs, d'.regs, d.mailbox, d'.mailbox, Disks.TimedCommand(d'.regs.command))
  {
    var delay, d1 := DiskDelay(d, hw.RegistersAt(address).command), d.(regs := d.regs.(mailbox := 1));
    assert DiskDelay(d1, hw.RegistersAt(address).command) == delay;
    DiskStarts(d1, hw, i, address, now, delay);
    DiskCases(d, hw, i, address, now);
    DiskStaysInstalled(d, hw, i, address, now);
    hide Disks.Mailbox, Disks.Start, DiskDelay, Disks.TimedCommand, AddTimer, Hw.WakeFor;
  }

  lemma DiskStaysInstalled(d: Disks.Disk, hw: Hw, i: nat, address: nat, now: nat)
    requires hw.Shape()
    ensures var (d', _) := Disks.Mailbox(d, hw, i, address, now);
      d.regs.status == DEVICE_NOT_INSTALLED <==> d'.regs.status == DEVICE_NOT_INSTALLED
  {
    OpcodeOfRead();
    hide Disks.Disk.Delay, Disks.CylinderOf, Disks.SectorOf, Disks.HeadOf, Opcode, Hw.Arm;
  }

  lemma OpcodeOfRead()
    ensures Opcode(READ_REGISTERS) == READ_REGISTERS
  {
  }

  lemma PrinterPrintSameStore(p: Printers.Printer, hw: Hw, i: nat, address: nat, now: nat)
    ensures var hw' := Printers.PrintChar(p, hw, i, address, now).1; SameStore(hw, hw') && hw'.lines == hw.lines
  {
    hide AddTimer, Hw.WakeFor, Hw.RegistersAt;
  }

  lemma PrinterBits(p: Printers.Printer, hw: Hw, i: nat, address: nat, now: nat)
    requires hw.Shape() && address != NULL
    ensures var (_, hw') := Printers.Mailbox(p, hw, i, address, now);
      && SameStore(hw, hw')
      && OnlyBit(hw, hw', Key(PRINTER, i),
                 BitAfter(PRINTER, hw.RegistersAt(address).command, p.regs.status, i in hw.lines[IL_PRINTER]))
  {
    OpcodeOfRead();
    hide Opcode, Printers.PrintChar, Printers.Printer.WithStatus, Hw.RegistersAt;
    PrinterPrintSameStore(p.(regs := p.regs.(mailbox := 1)), hw, i, address, now);
  }

  lemma PrinterArms(p: Printers.Printer, hw: Hw, i: nat, address: nat, now: nat)
    requires hw.Shape() && address != NULL
    ensures var (p', hw') := Printers.Mailbox(p, hw, i, address, now);
      && ArmedIf(!p.Busy() && p'.Busy(), hw, hw', Key(PRINTER, i), (now + Printers.PRINT_DELAY) % TWO_TO_THE_64, now)
      && RegistersMove(p.regs, p'.regs, p.mailbox, p'.mailbox, Printers.TimedCommand(p'.regs.command))
  {
    OpcodeOfRead();
    hide Opcode, AddTimer, VirtualTimer.Set;
  }

  // ----- Messages to the whole system -----

  /** What a message does: to its device, that device's bit, the queue and the counter, and nothing else. */
  ghost predicate DeviceMessage(s: System, s': System, word: nat, now: nat) {
    var k := Target(word);
    && s.Shape() && s'.Shape() && DeviceKey(k)
    && SameStore(s.hw, s'.hw)
    && (forall j :: DeviceKey(j) && j != k ==> SameDevice(s, s', j))
    && OnlyBit(s.hw, s'.hw, k, BitAfter(k.kind, SentCommand(s, word), Regs(s, k).status, Raised(s, k)))
    && ArmedIf(Accepted(s, s', k), s.hw, s'.hw, k, Deadline(s, word, now), now)
    && RegistersMove(Regs(s, k), Regs(s', k), Pointer(s, k), Pointer(s', k), Timed(s', k))
  }

  lemma TapeMessage(s: System, word: nat, now: nat, junk: Junk)
    requires s.Shape() && AddressOf(word) != NULL && Target(word).kind == TAPE
    ensures DeviceMessage(s, Message(s, word, now, junk), word, now)
  {
    hide Tapes.Mailbox, Disks.Mailbox, Printers.Mailbox, ArmedIf, RegistersMove, BitAfter, DiskDelay,
         Tapes.TimedCommand, Disks.TimedCommand, Printers.TimedCommand;
    var i, a := DeviceOf(word), AddressOf(word);
    TapeBits(s.tapes[i], s.hw, i, a, now, junk[i]);
    TapeArms(s.tapes[i], s.hw, i, a, now, junk[i]);
  }

  lemma DiskMessage(s: System, word: nat, now: nat, junk: Junk)
    requires s.Shape() && AddressOf(word) != NULL && Target(word).kind == DISK
    ensures DeviceMessage(s, Message(s, word, now, junk), word, now)
  {
    hide Tapes.Mailbox, Disks.Mailbox, Printers.Mailbox, ArmedIf, RegistersMove, BitAfter, DiskDelay,
         Tapes.TimedCommand, Disks.TimedCommand, Printers.TimedCommand;
    var i, a := DeviceOf(word), AddressOf(word);
    DiskBits(s.disks[i], s.hw, i, a, now);
    DiskArms(s.disks[i], s.hw, i, a, now);
  }

  lemma PrinterMessage(s: System, word: nat, now: nat, junk: Junk)
    requires s.Shape() && AddressOf(word) != NULL && Target(word).kind == PRINTER
    ensures DeviceMessage(s, Message(s, word, now, junk), word, now)
  {
    hide Tapes.Mailbox, Disks.Mailbox, Printers.Mailbox, ArmedIf, RegistersMove, BitAfter, DiskDelay,
         Tapes.TimedCommand, Disks.TimedCommand, Printers.TimedCommand;
    var i, a := DeviceOf(word), AddressOf(word);
    PrinterBits(s.printers[i], s.hw, i, a, now);
    PrinterArms(s.printers[i], s.hw, i, a, now);
  }

  /** A message is about one device, or changes nothing: no address, or no device of that class. */
  lemma MessageEffect(s: System, word: nat, now: nat, junk: Junk)
    requires s.Shape()
    ensures var s' := Message(s, word, now, junk);
      if AddressOf(word) == NULL || !DeviceKey(Target(word)) then s' == s else DeviceMessage(s, s', word, now)
  {
    if AddressOf(word) != NULL && DeviceKey(Target(word)) {
      match Target(word).kind
      case TAPE => TapeMessage(s, word, now, junk);
      case DISK => DiskMessage(s, word, now, junk);
      case PRINTER => PrinterMessage(s, word, now, junk);
    } else {
      NoMessage(s, word, now, junk);
    }
  }

  lemma NoMessage(s: System, word: nat, now: nat, junk: Junk)
    requires s.Shape() && (AddressOf(word) == NULL || !DeviceKey(Target(word)))
    ensures Message(s, word, now, junk) == s
  {
    assert s.tapes[DeviceOf(word) := s.tapes[DeviceOf(word)]] == s.tapes;
    assert s.disks[DeviceOf(word) := s.disks[DeviceOf(word)]] == s.disks;
    assert s.printers[DeviceOf(word) := s.printers[DeviceOf(word)]] == s.printers;
  }

  // ----- Expired timers -----

  /** The parts of the hardware that managing a device leaves alone. */
  ghost predicate SameClockwork(hw: Hw, hw': Hw) {
    && hw'.installed == hw.installed && hw'.mask == hw.mask && hw'.freq == hw.freq
    && hw'.pending == hw.pending && hw'.vtimer == hw.vtimer && hw'.fireNow == hw.fireNow
  }

  /** A timed command ends: the registers are reported where the command came from, with a status that
      is neither busy nor uninstalled, and the interrupt bit is set. */
  ghost predicate Completed(r': Registers, p: nat, p': nat, hw: Hw, hw': Hw, k: Key) {
    && r'.status != DEVICE_BUSY && r'.status != DEVICE_NOT_INSTALLED && p' == NULL
    && hw'.memory == hw.memory[p := r']
    && OnlyBit(hw, hw', k, true)
  }

  /** Reporting with a final status and the interrupt bit set. */
  lemma TapeEnds(t: Tapes.Tape, hw: Hw, i: nat, status: nat)
    requires hw.Shape() && status != DEVICE_BUSY && status != DEVICE_NOT_INSTALLED
    ensures var (t', hw') := Tapes.Complete(t, hw, i, status);
      Completed(t'.regs, t.mailbox, t'.mailbox, hw, hw', Key(TAPE, i)) && SameClockwork(hw, hw')
  {
  }

  lemma TapeWinds(t: Tapes.Tape, v: Volume, junk: Local)
    requires v.Mounted()
    ensures Tapes.NextBlock(t, v, junk).1.mailbox == t.mailbox && Tapes.PrevBlock(t, v, junk).1.mailbox == t.mailbox
    ensures Tapes.UpdateHead(Tapes.Forward(t), v, junk).1.mailbox == t.mailbox
  {
    hide Tapes.Marker;
  }

  lemma TapeTransfers(t: Tapes.Tape, hw: Hw)
    requires hw.Shape()
    ensures var (r, hw') := Tapes.ReadBlock(t, hw); r >= 0 && hw' == hw.(ram := hw'.ram)
  {
    hide Volume.Read, Overlay, Tapes.BlockStart;
  }

  lemma SameButRam(hw: Hw, hw1: Hw, hw2: Hw, r': Registers, p: nat, p': nat, k: Key)
    requires hw1 == hw.(ram := hw1.ram) && Completed(r', p, p', hw1, hw2, k) && SameClockwork(hw1, hw2)
    ensures Completed(r', p, p', hw, hw2, k) && SameClockwork(hw, hw2)
  {
  }

  lemma TapeCompletes(t: Tapes.Tape, hw: Hw, i: nat, junk: Local)
    requires hw.Shape() && t.Busy() && Tapes.TimedCommand(t.regs.command)
    ensures var (t', hw') := Tapes.Manage(t, hw, i, junk);
      Completed(t'.regs, t.mailbox, t'.mailbox, hw, hw', Key(TAPE, i)) && SameClockwork(hw, hw')
  {
    hide Tapes.NextBlock, Tapes.PrevBlock, Tapes.UpdateHead, Tapes.Forward, Tapes.ReadBlock, Tapes.Complete, Completed, SameClockwork;
    TapeWinds(t, hw.volume, junk);
    if t.regs.command == Tapes.SKIPBLK {
      var (res, t') := Tapes.NextBlock(t, hw.volume, junk);
      TapeEnds(t', hw, i, if res < 0 then Tapes.SKIP_ERROR else DEVICE_READY);
    } else if t.regs.command == Tapes.BACKBLK {
      var (res, t') := Tapes.PrevBlock(t, hw.volume, junk);
      TapeEnds(t', hw, i, if res < 0 then Tapes.BACK_BLOCK_ERROR else DEVICE_READY);
    } else {
      TapeTransfers(t, hw);
      var (r, hw1) := Tapes.ReadBlock(t, hw);
      var (res, t') := Tapes.UpdateHead(Tapes.Forward(t), hw1.volume, junk);
      var status := if res < 0 then READ_ERROR else DEVICE_READY;
      TapeEnds(t', hw1, i, status);
      var (t2, hw2) := Tapes.Complete(t', hw1, i, status);
      SameButRam(hw, hw1, hw2, t2.regs, t.mailbox, t2.mailbox, Key(TAPE, i));
    }
  }

  /** As for tapes; a transfer may change the volume as well. */
  lemma DiskEnds(d: Disks.Disk, hw: Hw, hw1: Hw, i: nat)
    requires hw.Shape() && hw1.Shape() && hw1 == hw.(ram := hw1.ram, volume := hw1.volume, overrun := hw1.overrun)
    ensures var (d', hw') := Disks.Complete(d, hw1, i);
      Completed(d'.regs, d.mailbox, d'.mailbox, hw, hw', Key(DISK, i)) && SameClockwork(hw, hw')
  {
  }

  lemma DiskTransfers(d: Disks.Disk, hw: Hw)
    requires hw.Shape()
    ensures var (r, hw') := Disks.ReadBlock(d, hw); r >= 0 && hw'.Shape() && hw' == hw.(ram := hw'.ram)
    ensures var (r, hw') := Disks.WriteBlock(d, hw);
      r >= 0 && hw'.Shape() && hw' == hw.(volume := hw'.volume, overrun := hw'.overrun)
  {
    hide Volume.Read, Volume.Write, Volume.WriteStays, Volume.Written, Disks.Disk.BlockStart, Overlay;
  }

  /** The transfers return counts, so the branch that reports an error without an interrupt is not
      taken. */
  lemma DiskCompletes(d: Disks.Disk, hw: Hw, i: nat)
    requires hw.Shape() && d.Busy() && Disks.TimedCommand(d.regs.command)
    ensures var (d', hw') := Disks.Manage(d, hw, i);
      Completed(d'.regs, d.mailbox, d'.mailbox, hw, hw', Key(DISK, i)) && SameClockwork(hw, hw')
  {
    hide Disks.ReadBlock, Disks.WriteBlock, Disks.Complete, Completed, SameClockwork, Opcode, Disks.HeadOf, Disks.SectorOf,
         Disks.CylinderOf;
    var c := d.regs.command;
    if Opcode(c) == Disks.SEEKCYL {
      DiskEnds(d.(cylinder := Disks.CylinderOf(c)), hw, hw, i);
    } else {
      var d1 := Disks.AtBlock(d);
      DiskTransfers(d1, hw);
      DiskEnds(d1, hw, Disks.ReadBlock(d1, hw).1, i);
      DiskEnds(d1, hw, Disks.WriteBlock(d1, hw).1, i);
    }
  }

  lemma PrinterCompletes(p: Printers.Printer, hw: Hw, i: nat)
    requires hw.Shape() && p.Busy() && Printers.TimedCommand(p.regs.command)
    ensures var (p', hw') := Printers.Manage(p, hw, i);
      && Completed(p'.regs, p.mailbox, p'.mailbox, hw, hw', Key(PRINTER, i)) && SameClockwork(hw, hw')
      && p'.regs == p.regs.(status := DEVICE_READY) && hw'.printed == hw.printed + [(i, p.regs.data0 % 0x100)]
  {
  }

  /** Managing a device completes its timed command if it is busy with one, and otherwise does nothing. */
  lemma ManageEffect(s: System, k: Key, junk: Junk)
    requires s.Shape() && DeviceKey(k) && (Busy(s, k) ==> Timed(s, k))
    ensures var s' := Manage(s, k, junk);
      && SameClockwork(s.hw, s'.hw)
      && (forall j :: DeviceKey(j) && j != k ==> SameDevice(s, s', j))
      && if Busy(s, k)
         then Completed(Regs(s', k), Pointer(s, k), Pointer(s', k), s.hw, s'.hw, k)
         else s' == s
  {
    var s', i := Manage(s, k, junk), k.code;
    hide Completed, Tapes.TimedCommand, Disks.TimedCommand, Printers.TimedCommand;
    if Busy(s, k) {
      hide Tapes.Manage, Disks.Manage, Printers.Manage;
      match k.kind
      case TAPE => TapeCompletes(s.tapes[i], s.hw, i, junk[i]);
      case DISK => DiskCompletes(s.disks[i], s.hw, i);
      case PRINTER => PrinterCompletes(s.printers[i], s.hw, i);
    } else {
      assert s.tapes[i := s.tapes[i]] == s.tapes;
      assert s.disks[i := s.disks[i]] == s.disks;
      assert s.printers[i := s.printers[i]] == s.printers;
    }
  }
}
