/** How a program sends a command to an idle disk: it stores a register block and writes the mailbox. */
module DiskCommands {
  import opened TimerQueue
  import opened Hardware
  import opened Interrupts
  import opened Effects
  import opened DiskGeometry
  import Tapes
  import Disks
  import Printers

  const BLOCK_ADDRESS := 16

  function DiskMail(i: nat): nat {
    BLOCK_ADDRESS + 4 * DEVICE_CLASS_DISK + i
  }

  /** The two events of sending `word` to disk `i`, at clock reading 0. */
  function Ask(i: nat, word: nat, junk: Junk): seq<Event> {
    [StoreRegisters(BLOCK_ADDRESS, Registers(0, word, 0, 0, 0)), TakeFiq(0x10, DiskMail(i), 0, 0, junk)]
  }

  function Stored(s: System, word: nat): System {
    s.(hw := s.hw.Store(BLOCK_ADDRESS, Registers(0, word, 0, 0, 0)))
  }

  lemma AskRuns(s: System, i: nat, word: nat, junk: Junk)
    requires s.Shape() && i < MAX_DEVICES
    ensures Stored(s, word).Shape()
    ensures var m := Message(Stored(s, word), DiskMail(i), 0, junk);
      Run(s, Ask(i, word, junk)) == m.(hw := m.hw.CleanLines())
  {
    hide Message, Expire, Hw.CleanLines;
    var e := Ask(i, word, junk);
    assert e[..1][..0] == [] && e[..2] == e && |e| == 2;
    assert e[..|e| - 1] == [e[0]] && [e[0]][..0] == [];
    assert Run(s, []) == s;
    assert Run(s, [e[0]]) == Step(s, e[0]);
    assert Run(s, e) == Step(Run(s, [e[0]]), e[1]);
  }

  lemma MailParts(i: nat)
    requires i < MAX_DEVICES
    ensures AddressOf(DiskMail(i)) == BLOCK_ADDRESS != NULL && Target(DiskMail(i)) == Key(DISK, i)
  {
  }

  /** An idle disk accepts a timed command that its guards admit. */
  lemma DiskAccepts(d: Disks.Disk, hw: Hw, i: nat, address: nat, now: nat)
    requires hw.Shape() && address != NULL && d.regs.status != DEVICE_NOT_INSTALLED && !d.Busy()
    requires Disks.TimedCommand(hw.RegistersAt(address).command) && GoodCommand(d, hw.RegistersAt(address).command)
    ensures var d' := Disks.Mailbox(d, hw, i, address, now).0;
      d'.Busy() && d'.regs.command == hw.RegistersAt(address).command && d'.regs.data0 == hw.RegistersAt(address).data0
      && d' == d.(mailbox := address, regs := d'.regs)
  {
    hide Disks.Disk.Delay, Disks.CylinderOf, Disks.SectorOf, Disks.HeadOf, Opcode, Hw.Arm;
  }

  /** Asking an idle disk for a command that its guards admit makes it busy. */
  lemma AskAccepted(s: System, i: nat, word: nat, junk: Junk)
    requires s.Shape() && i < MAX_DEVICES && Installed(s, Key(DISK, i)) && !Busy(s, Key(DISK, i))
    requires Disks.TimedCommand(word) && GoodCommand(s.disks[i], word)
    ensures var m := Message(Stored(s, word), DiskMail(i), 0, junk);
      && Accepted(Stored(s, word), m, Key(DISK, i)) && m.disks[i].Busy() && m.disks[i].regs.command == word
      && m.disks[i] == s.disks[i].(mailbox := BLOCK_ADDRESS, regs := m.disks[i].regs)
      && CommandDelay(Stored(s, word), DiskMail(i)) == DiskDelay(s.disks[i], word)
  {
    MailParts(i);
    DiskAccepts(s.disks[i], Stored(s, word).hw, i, BLOCK_ADDRESS, 0);
    hide Tapes.Mailbox, Disks.Mailbox, Printers.Mailbox, DiskDelay, GoodCommand, Disks.TimedCommand;
  }

  // ----- Command words -----

  function SeekWord(cylinder: nat): nat {
    Disks.SEEKCYL + 0x1_0000 * cylinder
  }

  function TransferWord(op: nat, head: nat, sector: nat): nat {
    op + 0x100 * sector + 0x1_0000 * head
  }

  lemma SeekWordParts(cylinder: nat)
    requires cylinder <= 0xFFFF
    ensures Opcode(SeekWord(cylinder)) == Disks.SEEKCYL && Disks.CylinderOf(SeekWord(cylinder)) == cylinder
  {
    assert SeekWord(cylinder) / 0x1_0000 == cylinder;
  }

  lemma TransferWordParts(op: nat, head: nat, sector: nat)
    requires op <= 0xFF && head <= 0xFF && sector <= 0xFF
    ensures var w := TransferWord(op, head, sector);
      Opcode(w) == op && Disks.SectorOf(w) == sector && Disks.HeadOf(w) == head
  {
    var w := TransferWord(op, head, sector);
    assert w / 0x100 == sector + 0x100 * head;
    assert w / 0x1_0000 == head;
  }
}
