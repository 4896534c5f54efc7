/** The FIQ handler as a function on the whole state: one mailbox message, then the timers that have
    expired, then the interrupt lines. */
module Interrupts {
  import opened Bytes
  import opened TimerQueue
  import opened Hardware
  import Tapes
  import Disks
  import Printers

  const DEVICE_CLASS_PRINTER := 0
  const DEVICE_CLASS_TAPE := 1
  const DEVICE_CLASS_DISK := 2

  /** What a four-byte local held before it was read into. */
  type Local = s: seq<Byte> | |s| == 4 witness [0, 0, 0, 0]

  const ZEROES: Local := [0, 0, 0, 0]

  /** What the locals of the tape routines held in one FIQ, tape by tape: a FIQ reads into a local of a
      tape's once at most. */
  type Junk = s: seq<Local> | |s| == MAX_DEVICES witness [ZEROES, ZEROES, ZEROES, ZEROES]

  datatype System = System(tapes: seq<Tapes.Tape>, disks: seq<Disks.Disk>, printers: seq<Printers.Printer>, hw: Hw) {

    predicate Shape() {
      |tapes| == MAX_DEVICES && |disks| == MAX_DEVICES && |printers| == MAX_DEVICES && hw.Shape()
    }

    function SetTape(i: nat, step: (Tapes.Tape, Hw)): System
      requires i < |tapes|
    {
      this.(tapes := tapes[i := step.0], hw := step.1)
    }

    function SetDisk(i: nat, step: (Disks.Disk, Hw)): System
      requires i < |disks|
    {
      this.(disks := disks[i := step.0], hw := step.1)
    }

    function SetPrinter(i: nat, step: (Printers.Printer, Hw)): System
      requires i < |printers|
    {
      this.(printers := printers[i := step.0], hw := step.1)
    }
  }

  // ----- The mailbox -----

  function AddressOf(word: nat): nat { word - word % 16 }

  function ClassOf(word: nat): nat { word / 4 % 4 }

  function DeviceOf(word: nat): (i: nat)
    ensures i < MAX_DEVICES
  {
    word % 4
  }

  function Message(s: System, word: nat, now: nat, junk: Junk): (r: System)
    requires s.Shape()
    ensures r.Shape()
  {
    var address, i := AddressOf(word), DeviceOf(word);
    if ClassOf(word) == DEVICE_CLASS_DISK then s.SetDisk(i, Disks.Mailbox(s.disks[i], s.hw, i, address, now))
    else if ClassOf(word) == DEVICE_CLASS_PRINTER
    then s.SetPrinter(i, Printers.Mailbox(s.printers[i], s.hw, i, address, now))
    else if ClassOf(word) == DEVICE_CLASS_TAPE
    then s.SetTape(i, Tapes.Mailbox(s.tapes[i], s.hw, i, address, now, junk[i]))
    else s
  }

  // ----- The timers -----

  function Manage(s: System, k: Key, junk: Junk): (r: System)
    requires s.Shape()
    ensures r.Shape() && r.hw.pending == s.hw.pending
  {
    if !DeviceKey(k) then s
    else
      var i: nat := k.code;
      match k.kind
      case TAPE => s.SetTape(i, Tapes.Manage(s.tapes[i], s.hw, i, junk[i]))
      case PRINTER => s.SetPrinter(i, Printers.Manage(s.printers[i], s.hw, i))
      case DISK => s.SetDisk(i, Disks.Manage(s.disks[i], s.hw, i))
  }

  /** The drain loop: while the first timer has expired, it is taken off and its device managed. */
  function Drain(s: System, now: nat, junk: Junk): (r: System)
    requires s.Shape()
    ensures r.Shape()
    decreases |s.hw.pending|
  {
    var q := s.hw.pending;
    if q == [] || q[0].time >= now then s
    else Drain(Manage(s.(hw := s.hw.(pending := q[1..])), q[0].key, junk), now, junk)
  }

  /** After the loop: the counter is programmed for the first timer left, or stopped, and a pending
      interrupt is fired at once. */
  function Rearm(s: System, now: nat): System
    requires s.Shape()
    requires s.hw.pending != [] ==> s.hw.pending[0].time >= now
  {
    var q, v := s.hw.pending, s.hw.vtimer;
    var hw := s.hw.(vtimer := if q != [] then v.Set(s.hw.freq, q[0].time - now, now) else v.Disable());
    s.(hw := if hw.PendingInterrupt() then hw.(fireNow := true) else hw)
  }

  lemma DrainLeavesLater(s: System, now: nat, junk: Junk)
    requires s.Shape()
    ensures var q := Drain(s, now, junk).hw.pending; q != [] ==> q[0].time >= now
    decreases |s.hw.pending|
  {
    var q := s.hw.pending;
    if q != [] && q[0].time < now {
      DrainLeavesLater(Manage(s.(hw := s.hw.(pending := q[1..])), q[0].key, junk), now, junk);
    }
  }

  /** `Rearm` as two updates, one after the other. */
  lemma RearmInSteps(s: System, now: nat)
    requires s.Shape() && (s.hw.pending != [] ==> s.hw.pending[0].time >= now)
    ensures var q, v := s.hw.pending, s.hw.vtimer;
      var t := s.(hw := s.hw.(vtimer := if q != [] then v.Set(s.hw.freq, q[0].time - now, now) else v.Disable()));
      t.Shape() && Rearm(s, now) == t.(hw := if t.hw.PendingInterrupt() then t.hw.(fireNow := true) else t.hw)
  {
  }

  function Expire(s: System, now: nat, junk: Junk): System
    requires s.Shape()
  {
    DrainLeavesLater(s, now, junk);
    Rearm(Drain(s, now, junk), now)
  }

  // ----- One FIQ -----

  predicate MailboxPending(source: nat) { source / 0x10 % 2 == 1 }

  predicate TimerPending(source: nat) { source / 0x08 % 2 == 1 }

  function AfterMessage(s: System, source: nat, word: nat, now: nat, junk: Junk): (r: System)
    requires s.Shape()
    ensures r.Shape()
  {
    if MailboxPending(source) then Message(s, word, now, junk) else s
  }

  /** The clock is read once for each cause, at `now` for the message and `later` for the timers. */
  function Fiq(s: System, source: nat, word: nat, now: nat, later: nat, junk: Junk): (r: System)
    requires s.Shape()
    ensures r.Shape()
  {
    var s1 := AfterMessage(s, source, word, now, junk);
    var s2 := if TimerPending(source) then Expire(s1, later, junk) else s1;
    s2.(hw := s2.hw.CleanLines())
  }

  // ----- Runs -----

  /** User programs write register blocks, data blocks and the interrupt mask; FIQs are taken. */
  datatype Event =
    | StoreRegisters(address: nat, registers: Registers)
    | StoreBlock(address: nat, block: Block)
    | StoreMask(mask: set<nat>)
    | TakeFiq(source: nat, word: nat, now: nat, later: nat, junk: Junk)

  function Step(s: System, e: Event): (r: System)
    requires s.Shape()
    ensures r.Shape()
  {
    match e
    case StoreRegisters(address, registers) => s.(hw := s.hw.Store(address, registers))
    case StoreBlock(address, block) => s.(hw := s.hw.(ram := s.hw.ram[address := block]))
    case StoreMask(mask) => s.(hw := s.hw.(mask := mask))
    case TakeFiq(source, word, now, later, junk) => Fiq(s, source, word, now, later, junk)
  }

  function Run(s: System, events: seq<Event>): (r: System)
    requires s.Shape()
    ensures r.Shape()
    decreases |events|
  {
    if events == [] then s else Step(Run(s, events[..|events| - 1]), events[|events| - 1])
  }
}
