/** The command protocol as a program sees it, the same for tapes, disks and printers: what status and
    command a message leaves, what the program is answered, and what is printed. */
module Protocol {
  import opened Bytes
  import opened TimerQueue
  import opened Fat32
  import opened Hardware
  import opened Interrupts
  import opened Effects
  import opened DiskGeometry
  import Tapes
  import Disks
  import Printers

  // ----- Status and answer of a message -----

  function Op(k: Key, command: nat): nat {
    if k.kind == TAPE then command else Opcode(command)
  }

  function LastOp(k: Key): nat {
    if k.kind == PRINTER then Printers.PRINT_CHAR else Disks.WRITEBLK
  }

  /** The commands that take time. */
  predicate TakesTime(k: Key, op: nat) {
    READ_REGISTERS < op <= LastOp(k)
  }

  /** The status that an idle device takes with such a command: busy, unless a tape is at its end or a disk
      does not have the place. */
  function StartStatus(s: System, k: Key, command: nat): nat
    requires s.Shape() && DeviceKey(k)
  {
    match k.kind
    case TAPE => TapeStart(s.tapes[k.code], command)
    case DISK => DiskStart(s.disks[k.code], command)
    case PRINTER => DEVICE_BUSY
  }

  function TapeStart(t: Tapes.Tape, op: nat): nat {
    if op == Tapes.READBLK && t.regs.data1 == Tapes.EOT then READ_ERROR else DEVICE_BUSY
  }

  function DiskStart(d: Disks.Disk, command: nat): nat {
    if GoodCommand(d, command) then DEVICE_BUSY else ILLEGAL_OPERATION
  }

  /** RESET makes a device ready whatever it was doing; ACK does so unless it is busy; reading the
      registers changes no status; an unknown command is an illegal operation; a device that is not installed
      stays so.  A command that takes time is refused by a busy device, without effect on what it is doing;
      an idle one takes it up with the program's data, or says why not. */
  ghost predicate StatusRules(k: Key, op: nat, start: nat, sent: Registers, r: Registers, r': Registers) {
    && (r.status == DEVICE_NOT_INSTALLED ==> r'.status == DEVICE_NOT_INSTALLED && r'.command == r.command)
    && (r.status != DEVICE_NOT_INSTALLED ==>
          && (op == RESET ==> r'.status == DEVICE_READY && r'.command == RESET)
          && (op == ACK && r.status != DEVICE_BUSY ==> r'.status == DEVICE_READY && r'.command == ACK)
          && (op == ACK && r.status == DEVICE_BUSY ==> r'.status == DEVICE_BUSY && r'.command == r.command)
          && (op == READ_REGISTERS ==> r'.status == r.status && r'.command == r.command)
          && (op > LastOp(k) ==> r'.status == ILLEGAL_OPERATION && r'.command == r.command)
          && (TakesTime(k, op) && r.status == DEVICE_BUSY ==> r'.status == DEVICE_BUSY && r'.command == r.command)
          && (TakesTime(k, op) && r.status != DEVICE_BUSY ==>
                && r'.status == start
                && r'.command == (if start != DEVICE_BUSY then r.command else if k.kind == DISK then sent.command else op)))
  }

  /** The other registers.  Data register 0 takes the program's data when a command that uses it is taken up, and
      data register 1 the marker of the start when a tape is reset; the mailbox register says that the device was
      there: it is 1 after every message, but for a printer that is not installed and is asked for anything
      else than its registers. */
  ghost predicate DataRules(k: Key, op: nat, start: nat, sent: Registers, r: Registers, r': Registers) {
    var there := r.status != DEVICE_NOT_INSTALLED;
    && r'.data0 == (if there && TakesTime(k, op) && r.status != DEVICE_BUSY && start == DEVICE_BUSY
                       && (k.kind == TAPE ==> op == Tapes.READBLK)
                    then sent.data0 else r.data0)
    && r'.data1 == (if there && k.kind == TAPE && op == RESET then Tapes.TS else r.data1)
    && r'.mailbox == (if there || k.kind != PRINTER || sent.command == READ_REGISTERS then 1 else r.mailbox)
  }

  /** What the register block at `a` holds after the message. */
  ghost predicate AnswerRules(k: Key, op: nat, r: Registers, r': Registers, a: nat, hw: Hw, hw': Hw) {
    var busy, silent := r.status == DEVICE_BUSY, r.status == DEVICE_NOT_INSTALLED;
    if k.kind == DISK && busy && op == ACK then hw'.memory == hw.memory
    else if k.kind == PRINTER && silent && hw.RegistersAt(a).command != READ_REGISTERS then hw'.memory == hw.memory
    else if k.kind == PRINTER && busy && (op == ACK || op == Printers.PRINT_CHAR)
    then hw'.memory == hw.memory[a := hw.RegistersAt(a).(mailbox := 2)]
    else hw'.memory == hw.memory[a := r']
  }

  lemma TapeProtocol(t: Tapes.Tape, hw: Hw, i: nat, a: nat, now: nat, junk: Local)
    requires hw.Shape() && a != NULL
    ensures var (t', hw') := Tapes.Mailbox(t, hw, i, a, now, junk);
      var k, op := Key(TAPE, i), hw.RegistersAt(a).command;
      StatusRules(k, op, TapeStart(t, op), hw.RegistersAt(a), t.regs, t'.regs)
      && DataRules(k, op, TapeStart(t, op), hw.RegistersAt(a), t.regs, t'.regs)
      && AnswerRules(k, op, t.regs, t'.regs, a, hw, hw')
  {
    hide AddTimer, Hw.WakeFor, Tapes.Marker;
  }

  lemma DiskStatusProtocol(d: Disks.Disk, hw: Hw, i: nat, a: nat, now: nat)
    requires hw.Shape() && a != NULL
    ensures var d', sent := Disks.Mailbox(d, hw, i, a, now).0, hw.RegistersAt(a);
      && StatusRules(Key(DISK, i), Opcode(sent.command), DiskStart(d, sent.command), sent, d.regs, d'.regs)
      && DataRules(Key(DISK, i), Opcode(sent.command), DiskStart(d, sent.command), sent, d.regs, d'.regs)
  {
    OpcodeOfRead();
    hide Disks.Disk.Delay, Disks.CylinderOf, Disks.SectorOf, Disks.HeadOf, Opcode, Hw.Arm, Hw.Raise, Hw.Lower,
         Hw.RegistersAt;
  }

  lemma DiskMovesAnswer(d: Disks.Disk, hw: Hw, i: nat, a: nat, now: nat)
    ensures var (d', hw') := Disks.TransferDisk(d, hw, i, a, now); hw'.memory == hw.memory[a := d'.regs]
    ensures var (d', hw') := Disks.SeekDisk(d, hw, i, a, now); hw'.memory == hw.memory[a := d'.regs]
  {
    hide Disks.Disk.Delay, Disks.CylinderOf, Disks.SectorOf, Disks.HeadOf, AddTimer, Hw.WakeFor, Hw.RegistersAt;
  }

  lemma DiskAnswerProtocol(d: Disks.Disk, hw: Hw, i: nat, a: nat, now: nat)
    requires hw.Shape() && a != NULL
    ensures var (d', hw') := Disks.Mailbox(d, hw, i, a, now);
      AnswerRules(Key(DISK, i), Opcode(hw.RegistersAt(a).command), d.regs, d'.regs, a, hw, hw')
  {
    OpcodeOfRead();
    hide Disks.TransferDisk, Disks.SeekDisk, Opcode;
    DiskMovesAnswer(d.(regs := d.regs.(mailbox := 1)), hw, i, a, now);
  }

  lemma DiskProtocol(d: Disks.Disk, hw: Hw, i: nat, a: nat, now: nat)
    requires hw.Shape() && a != NULL
    ensures var (d', hw') := Disks.Mailbox(d, hw, i, a, now);
      var k, op := Key(DISK, i), Opcode(hw.RegistersAt(a).command);
      StatusRules(k, op, DiskStart(d, hw.RegistersAt(a).command), hw.RegistersAt(a), d.regs, d'.regs)
      && DataRules(k, op, DiskStart(d, hw.RegistersAt(a).command), hw.RegistersAt(a), d.regs, d'.regs)
      && AnswerRules(k, op, d.regs, d'.regs, a, hw, hw')
  {
    hide *;
    DiskStatusProtocol(d, hw, i, a, now);
    DiskAnswerProtocol(d, hw, i, a, now);
  }

  lemma PrinterProtocol(p: Printers.Printer, hw: Hw, i: nat, a: nat, now: nat)
    requires hw.Shape() && a != NULL
    ensures var (p', hw') := Printers.Mailbox(p, hw, i, a, now);
      var k, op := Key(PRINTER, i), Opcode(hw.RegistersAt(a).command);
      StatusRules(k, op, DEVICE_BUSY, hw.RegistersAt(a), p.regs, p'.regs)
      && DataRules(k, op, DEVICE_BUSY, hw.RegistersAt(a), p.regs, p'.regs)
      && AnswerRules(k, op, p.regs, p'.regs, a, hw, hw')
  {
    OpcodeOfRead();
    hide Opcode, AddTimer, Hw.WakeFor;
  }

  /** Every message to a device follows the rules. */
  lemma MessageFollowsProtocol(s: System, word: nat, now: nat, junk: Junk)
    requires s.Shape() && AddressOf(word) != NULL && DeviceKey(Target(word))
    ensures var s', k, a := Message(s, word, now, junk), Target(word), AddressOf(word);
      var op := Op(k, SentCommand(s, word));
      && s'.Shape()
      && StatusRules(k, op, StartStatus(s, k, SentCommand(s, word)), s.hw.RegistersAt(a), Regs(s, k), Regs(s', k))
      && DataRules(k, op, StartStatus(s, k, SentCommand(s, word)), s.hw.RegistersAt(a), Regs(s, k), Regs(s', k))
      && AnswerRules(k, op, Regs(s, k), Regs(s', k), a, s.hw, s'.hw)
  {
    var i, a := DeviceOf(word), AddressOf(word);
    MessageEffect(s, word, now, junk);
    hide Tapes.Mailbox, Disks.Mailbox, Printers.Mailbox, StatusRules, DataRules, AnswerRules, DeviceMessage, TapeStart, DiskStart;
    match Target(word).kind
    case TAPE => TapeProtocol(s.tapes[i], s.hw, i, a, now, junk[i]);
    case DISK => DiskProtocol(s.disks[i], s.hw, i, a, now);
    case PRINTER => PrinterProtocol(s.printers[i], s.hw, i, a, now);
  }

  /** RESET rewinds a tape, whatever it was doing. */
  lemma ResetRewinds(t: Tapes.Tape, hw: Hw, i: nat, a: nat, now: nat, junk: Local)
    requires hw.Shape() && a != NULL && t.regs.status != DEVICE_NOT_INSTALLED && hw.RegistersAt(a).command == RESET
    ensures var t' := Tapes.Mailbox(t, hw, i, a, now, junk).0;
      t'.blockIndex == 0 && t'.regs.data1 == Tapes.TS && !t'.Busy()
  {
  }

  // ----- Printers: what is printed -----

  lemma TapePrintsNothing(t: Tapes.Tape, hw: Hw, i: nat, junk: Local)
    requires hw.Shape()
    ensures Tapes.Manage(t, hw, i, junk).1.printed == hw.printed
  {
    hide Tapes.NextBlock, Tapes.PrevBlock, Tapes.UpdateHead, Volume.Read, Overlay, Tapes.BlockStart;
  }

  lemma DiskPrintsNothing(d: Disks.Disk, hw: Hw, i: nat)
    requires hw.Shape()
    ensures Disks.Manage(d, hw, i).1.printed == hw.printed
  {
    hide Volume.Read, Volume.Write, Volume.WriteStays, Volume.Written, Overlay, Disks.Disk.BlockStart,
         Disks.CylinderOf, Disks.SectorOf, Disks.HeadOf, Opcode;
  }

  /** A character is printed when its command completes, at the end of what was printed before, and
      at no other time. */
  lemma PrintsOnCompletion(s: System, k: Key, junk: Junk)
    requires s.Shape() && DeviceKey(k)
    ensures Manage(s, k, junk).hw.printed == s.hw.printed
      + (if k.kind == PRINTER && Busy(s, k) && Timed(s, k) then [(k.code, Regs(s, k).data0 % 0x100)] else [])
  {
    match k.kind
    case TAPE =>
      TapePrintsNothing(s.tapes[k.code], s.hw, k.code, junk[k.code]);
      hide Tapes.Manage;
    case DISK =>
      DiskPrintsNothing(s.disks[k.code], s.hw, k.code);
      hide Disks.Manage;
    case PRINTER =>
  }
}
