/** The emulated printers: the command state machine.  What a printed character does to the screen is
    not modelled; the characters sent are listed in the order they were sent. */
module Printers {
  import opened TimerQueue
  import opened Hardware

  const PRINT_CHAR := 3
  const MAX_PRINTERS := 4
  const PRINT_DELAY := 8

  datatype Printer = Printer(executing: nat, mailbox: nat, regs: Registers) {

    predicate Busy() {
      regs.status == DEVICE_BUSY
    }

    function WithStatus(s: nat): Printer {
      this.(regs := regs.(status := s))
    }
  }

  predicate TimedCommand(command: nat) {
    command == PRINT_CHAR
  }

  function Boot(): Printer {
    Printer(0, NULL, Registers(DEVICE_READY, RESET, 0, 0, 0))
  }

  function Print(hw: Hw, i: nat, word: nat): Hw {
    hw.(printed := hw.printed + [(i, word % 0x100)])
  }

  function Manage(p: Printer, hw: Hw, i: nat): (r: (Printer, Hw))
    requires hw.Shape()
    ensures r.1.Shape() && r.1.pending == hw.pending
  {
    if p.Busy() && p.regs.command == PRINT_CHAR then
      var p' := p.WithStatus(DEVICE_READY);
      (p'.(executing := RESET, mailbox := NULL),
       Print(hw, i, p.regs.data0).Raise(IL_PRINTER, i).Store(p.mailbox, p'.regs))
    else (p, hw)
  }

  // ----- A mailbox command -----

  function Answer(p: Printer, hw: Hw, address: nat): (Printer, Hw) {
    (p, hw.Store(address, p.regs))
  }

  /** A busy printer answers with 2 in the mailbox register and nothing else. */
  function Refuse(p: Printer, hw: Hw, address: nat): (Printer, Hw) {
    (p, hw.Store(address, hw.RegistersAt(address).(mailbox := 2)))
  }

  function ResetPrinter(p: Printer, hw: Hw, i: nat, address: nat): (Printer, Hw)
    requires hw.Shape()
  {
    Answer(p.(regs := p.regs.(status := DEVICE_READY, command := RESET)), hw.Lower(IL_PRINTER, i), address)
  }

  function AckPrinter(p: Printer, hw: Hw, i: nat, address: nat): (Printer, Hw)
    requires hw.Shape()
  {
    if p.Busy() then Refuse(p, hw, address)
    else Answer(p.(regs := p.regs.(command := ACK, status := DEVICE_READY)), hw.Lower(IL_PRINTER, i), address)
  }

  /** Accepts a character. */
  function Start(p: Printer, hw: Hw, i: nat, address: nat, now: nat, data0: nat): (Printer, Hw) {
    var p' := p.(regs := p.regs.(status := DEVICE_BUSY, command := PRINT_CHAR, data0 := data0), mailbox := address);
    (p', hw.Store(address, p'.regs).Arm(PRINT_DELAY, Key(PRINTER, i), now))
  }

  function PrintChar(p: Printer, hw: Hw, i: nat, address: nat, now: nat): (Printer, Hw) {
    if p.Busy() then Refuse(p, hw, address) else Start(p, hw, i, address, now, hw.RegistersAt(address).data0)
  }

  function Command(p: Printer, hw: Hw, i: nat, address: nat, now: nat): (Printer, Hw)
    requires hw.Shape()
  {
    var op := Opcode(hw.RegistersAt(address).command);
    if op == RESET then ResetPrinter(p, hw, i, address)
    else if op == ACK then AckPrinter(p, hw, i, address)
    else if op == READ_REGISTERS then Answer(p, hw, address)
    else if op == PRINT_CHAR then PrintChar(p, hw, i, address, now)
    else Answer(p.WithStatus(ILLEGAL_OPERATION), hw, address)
  }

  function Mailbox(p: Printer, hw: Hw, i: nat, address: nat, now: nat): (r: (Printer, Hw))
    requires hw.Shape()
    ensures r.1.Shape()
  {
    if address == NULL then (p, hw)
    else if p.regs.status == DEVICE_NOT_INSTALLED && hw.RegistersAt(address).command != READ_REGISTERS then (p, hw)
    else Command(p.(regs := p.regs.(mailbox := 1)), hw, i, address, now)
  }
}
