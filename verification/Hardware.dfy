/** What the emulated devices share, as a value: interrupt lines, user memory, the mounted volume,
    the timer queue and the virtual counter that wakes the FIQ handler. */
module Hardware {
  import opened Bytes
  import opened TimerQueue
  import opened Fat32

  const IL_TIMER := 0
  const IL_TAPE := 1
  const IL_DISK := 2
  const IL_PRINTER := 3

  const DEVICE_NOT_INSTALLED := 0
  const DEVICE_READY := 1
  const ILLEGAL_OPERATION := 2
  const DEVICE_BUSY := 3
  const READ_ERROR := 5

  const RESET := 0
  const ACK := 1
  const READ_REGISTERS := 2

  const NULL: nat := 0

  /** The command proper of a disk or printer command word. */
  function Opcode(word: nat): nat { word % 0x100 }

  const BLOCKSIZE := 4096

  /** The register block of a tape, disk or printer. */
  datatype Registers = Registers(status: nat, command: nat, data0: nat, data1: nat, mailbox: nat)

  type Block = s: seq<Byte> | |s| == BLOCKSIZE witness seq(BLOCKSIZE, _ => 0)

  // ----- The virtual counter -----

  /** Whether the counter runs, when it was last programmed, and for how many ticks from then. */
  datatype VirtualTimer = VirtualTimer(enabled: bool, setAt: nat, ticks: nat) {

    /** Programs the counter to fire `microseconds` after `now`.  The argument is cut to 32 bits, and
        a tick count of more than 32 bits leaves the counter as it was. */
    function Set(freq: nat, microseconds: nat, now: nat): VirtualTimer {
      var value := freq * (microseconds % TWO_TO_THE_32) / 1000000;
      if value > 0xFFFF_FFFF then this else VirtualTimer(true, now, value)
    }

    /** Ticks after which the counter fires: the register is a signed 32-bit number, and a negative count has
        run out already. */
    function FiresAfter(): nat {
      if ticks < 0x8000_0000 then ticks else 0
    }

    function Disable(): VirtualTimer {
      this.(enabled := false)
    }
  }

  // ----- Locals at start-up -----

  /** What a local that held `junk` holds once the start of one file after the other has been read into
      it; 0 stands for a file that is missing. */
  function LocalAfter(v: Volume, clusters: seq<nat>, junk: seq<Byte>): (s: seq<Byte>)
    requires v.Mounted()
    ensures |s| == |junk|
  {
    if clusters == [] then junk
    else
      var before, last := LocalAfter(v, clusters[..|clusters| - 1], junk), clusters[|clusters| - 1];
      if last == 0 then before else Overlay(before, 0, v.Read(last, 0, |junk|))
  }

  // ----- Shared state -----

  /** `lines`, `installed` and `mask` hold the numbers of the bits that are set, byte by byte;
      `memory` the register blocks and `ram` the data blocks of user programs, by address;
      `printed` what was sent to each printer; `overrun` says that a copy has left the buffer of
      `fat_writefile`, and a state that has it set stands for whatever the program does then. */
  datatype Hw = Hw(
    lines: seq<set<nat>>,
    installed: seq<set<nat>>,
    mask: set<nat>,
    memory: map<nat, Registers>,
    ram: map<nat, Block>,
    volume: Volume,
    pending: seq<Entry>,
    vtimer: VirtualTimer,
    fireNow: bool,
    freq: nat,
    printed: seq<(nat, nat)>,
    overrun: bool)
  {
    predicate Shape() {
      |lines| == IL_LINES && |installed| == IL_LINES && volume.Mounted()
    }

    function RegistersAt(address: nat): Registers {
      if address in memory then memory[address] else Registers(0, 0, 0, 0, 0)
    }

    function Store(address: nat, r: Registers): Hw {
      this.(memory := memory[address := r])
    }

    function BlockAt(address: nat): Block {
      if address in ram then ram[address] else seq(BLOCKSIZE, _ => 0)
    }

    function Raise(line: nat, device: nat): Hw
      requires line < |lines|
    {
      this.(lines := lines[line := lines[line] + {device}])
    }

    function Lower(line: nat, device: nat): Hw
      requires line < |lines|
    {
      this.(lines := lines[line := lines[line] - {device}])
    }

    function Install(line: nat, devices: set<nat>): Hw
      requires line < |installed|
    {
      this.(installed := installed[line := devices])
    }

    /** `set_device_timer`: arms the key's timer and programs the counter for the first deadline. */
    function Arm(microseconds: nat, key: Key, now: nat): (r: Hw)
      ensures Shape() ==> r.Shape()
    {
      var q := AddTimer(pending, (now + microseconds) % TWO_TO_THE_64, key);
      this.(pending := q, vtimer := WakeFor(q, now))
    }

    function WakeFor(q: seq<Entry>, now: nat): VirtualTimer {
      if q == [] then vtimer
      else vtimer.Set(freq, if now < q[0].time then q[0].time - now else 0, now)
    }

    /** Bytes of a file copied to the start of a data block; the rest of the block stays. */
    function ReadInto(address: nat, cluster: nat, seek: nat): (r: Hw)
      requires volume.Mounted()
      ensures Shape() ==> r.Shape()
    {
      this.(ram := ram[address := Overlay(BlockAt(address), 0, volume.Read(cluster, seek, BLOCKSIZE))])
    }

    function WriteFrom(address: nat, cluster: nat, seek: nat): Hw
      requires volume.Mounted()
    {
      this.(volume := volume.Write(cluster, seek, BlockAt(address)),
            overrun := overrun || !volume.WriteStays(cluster, seek, BLOCKSIZE))
    }

    /** Some line with its mask bit clear has a pending interrupt. */
    predicate PendingInterrupt()
      requires Shape()
    {
      exists i :: 0 <= i < IL_LINES && lines[i] != {} && i !in mask
    }

    function CleanLines(): Hw
      requires Shape()
    {
      this.(lines := seq(IL_LINES, i requires 0 <= i < IL_LINES => lines[i] * installed[i]))
    }
  }
}
