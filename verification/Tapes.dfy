/** The emulated tapes: what a mailbox command and an expired timer do to one tape and to the shared
    hardware. */
module Tapes {
  import opened Bytes
  import opened TimerQueue
  import opened Fat32
  import opened Hardware

  const EOT := 0
  const EOF := 1
  const EOB := 2
  const TS := 3

  const SKIPBLK := 3
  const READBLK := 4
  const BACKBLK := 5

  const SKIP_ERROR := 4
  const BACK_BLOCK_ERROR := 6

  const MAX_TAPES := 4
  const TAPE_DELAY := 1000

  datatype Tape = Tape(blockIndex: nat, cluster: nat, mailbox: nat, regs: Registers) {

    function WithStatus(s: nat): Tape {
      this.(regs := regs.(status := s))
    }

    predicate Busy() {
      regs.status == DEVICE_BUSY
    }
  }

  predicate TimedCommand(command: nat) {
    command == SKIPBLK || command == BACKBLK || command == READBLK
  }

  // ----- Start-up -----

  const TAPEFILEID := 0x0153504D

  /** Tape at start-up, `cluster` being where its file starts, 0 without a file. */
  function Boot(v: Volume, cluster: nat, junk: seq<Byte>): Tape
    requires v.Mounted() && |junk| == 4
  {
    var found := cluster != 0 && Word(Overlay(junk, 0, v.Read(cluster, 0, 4))) == TAPEFILEID;
    Tape(0, cluster, NULL,
         Registers(if found then DEVICE_READY else DEVICE_NOT_INSTALLED, RESET, 0, if found then TS else EOT, 0))
  }

  /** Device `i` at start-up: the local was used for the files before it. */
  function BootAt(v: Volume, clusters: seq<nat>, i: nat, junk: seq<Byte>): Tape
    requires v.Mounted() && |junk| == 4 && i < |clusters|
  {
    Boot(v, clusters[i], LocalAfter(v, clusters[..i], junk))
  }

  function Found(tapes: seq<Tape>): set<nat> {
    set i: nat | i < |tapes| && tapes[i].regs.status == DEVICE_READY
  }

  // ----- The head -----

  /** File position of the marker before block `index`; position 0 holds the tape's id. */
  function MarkerStart(index: nat): nat {
    (index * BLOCKSIZE + index * 4) % TWO_TO_THE_32
  }

  function BlockStart(index: nat): nat {
    (index * BLOCKSIZE + (index + 1) * 4) % TWO_TO_THE_32
  }

  /** The marker word as read into a local that held `junk`. */
  function Marker(t: Tape, v: Volume, junk: seq<Byte>): nat
    requires v.Mounted() && |junk| == 4
  {
    Word(Overlay(junk, 0, v.Read(t.cluster, MarkerStart(t.blockIndex), 4)))
  }

  /** Data register 1 takes the marker at the head; -1 when that is no marker. */
  function UpdateHead(t: Tape, v: Volume, junk: seq<Byte>): (int, Tape)
    requires v.Mounted() && |junk| == 4
  {
    if t.blockIndex == 0 then (0, t.(regs := t.regs.(data1 := TS)))
    else
      var head := Marker(t, v, junk);
      if head != EOB && head != EOF && head != EOT then (-1, t) else (0, t.(regs := t.regs.(data1 := head)))
  }

  function Forward(t: Tape): Tape {
    t.(blockIndex := (t.blockIndex + 1) % TWO_TO_THE_32)
  }

  function NextBlock(t: Tape, v: Volume, junk: seq<Byte>): (int, Tape)
    requires v.Mounted() && |junk| == 4
  {
    if t.regs.data1 == EOT then (-1, t) else UpdateHead(Forward(t), v, junk)
  }

  function PrevBlock(t: Tape, v: Volume, junk: seq<Byte>): (int, Tape)
    requires v.Mounted() && |junk| == 4
  {
    if t.blockIndex > 0 then UpdateHead(t.(blockIndex := t.blockIndex - 1), v, junk) else (-1, t)
  }

  // ----- An expired timer -----

  /** Reports the registers to the program that sent the command. */
  function Report(t: Tape, hw: Hw): (Tape, Hw) {
    (t.(mailbox := NULL), hw.Store(t.mailbox, t.regs))
  }

  function Complete(t: Tape, hw: Hw, i: nat, status: nat): (Tape, Hw)
    requires hw.Shape()
  {
    Report(t.WithStatus(status), hw.Raise(IL_TAPE, i))
  }

  /** What follows the block transfer of READBLK, `r` being its result. */
  function AfterRead(t: Tape, hw: Hw, i: nat, r: int, junk: seq<Byte>): (Tape, Hw)
    requires hw.Shape() && |junk| == 4
  {
    if r < 0 then Report(t.WithStatus(READ_ERROR), hw)
    else
      var (res, t') := UpdateHead(Forward(t), hw.volume, junk);
      Complete(t', hw, i, if res < 0 then READ_ERROR else DEVICE_READY)
  }

  function ReadBlock(t: Tape, hw: Hw): (r: (int, Hw))
    requires hw.Shape()
    ensures r.1.Shape()
  {
    if t.cluster == 0 then (0, hw)
    else
      (|hw.volume.Read(t.cluster, BlockStart(t.blockIndex), BLOCKSIZE)|,
       hw.ReadInto(t.regs.data0, t.cluster, BlockStart(t.blockIndex)))
  }

  function Manage(t: Tape, hw: Hw, i: nat, junk: seq<Byte>): (r: (Tape, Hw))
    requires hw.Shape() && |junk| == 4
    ensures r.1.Shape() && r.1.pending == hw.pending
  {
    if t.regs.status == DEVICE_NOT_INSTALLED || !t.Busy() then (t, hw)
    else if t.regs.command == SKIPBLK then
      var (res, t') := NextBlock(t, hw.volume, junk);
      Complete(t', hw, i, if res < 0 then SKIP_ERROR else DEVICE_READY)
    else if t.regs.command == BACKBLK then
      var (res, t') := PrevBlock(t, hw.volume, junk);
      Complete(t', hw, i, if res < 0 then BACK_BLOCK_ERROR else DEVICE_READY)
    else if t.regs.command == READBLK then
      var (r, hw') := ReadBlock(t, hw);
      AfterRead(t, hw', i, r, junk)
    else (t, hw)
  }

  // ----- A mailbox command -----

  function Answer(t: Tape, hw: Hw, address: nat): (Tape, Hw) {
    (t, hw.Store(address, t.regs))
  }

  /** Accepts a timed command. */
  function Start(t: Tape, hw: Hw, i: nat, address: nat, now: nat, command: nat, data0: nat): (Tape, Hw) {
    var t' := t.(regs := t.regs.(command := command, data0 := data0, status := DEVICE_BUSY), mailbox := address);
    (t', hw.Store(address, t'.regs).Arm(TAPE_DELAY, Key(TAPE, i), now))
  }

  function ResetTape(t: Tape, hw: Hw, i: nat, address: nat, junk: seq<Byte>): (Tape, Hw)
    requires hw.Shape() && |junk| == 4
  {
    var t' := t.(regs := t.regs.(command := RESET, status := DEVICE_READY), blockIndex := 0);
    Answer(UpdateHead(t', hw.volume, junk).1, hw.Raise(IL_TAPE, i), address)
  }

  function AckTape(t: Tape, hw: Hw, i: nat, address: nat): (Tape, Hw)
    requires hw.Shape()
  {
    if t.Busy() then Answer(t, hw, address)
    else Answer(t.(regs := t.regs.(command := ACK, status := DEVICE_READY)), hw.Lower(IL_TAPE, i), address)
  }

  function WindTape(t: Tape, hw: Hw, i: nat, address: nat, now: nat, command: nat): (Tape, Hw) {
    if t.Busy() then Answer(t, hw, address) else Start(t, hw, i, address, now, command, t.regs.data0)
  }

  function ReadTape(t: Tape, hw: Hw, i: nat, address: nat, now: nat, data0: nat): (Tape, Hw) {
    if t.Busy() then Answer(t, hw, address)
    else if t.regs.data1 == EOT then Answer(t.WithStatus(READ_ERROR), hw, address)
    else Start(t, hw, i, address, now, READBLK, data0)
  }

  function Command(t: Tape, hw: Hw, i: nat, address: nat, now: nat, junk: seq<Byte>): (Tape, Hw)
    requires hw.Shape() && |junk| == 4
  {
    var sent := hw.RegistersAt(address);
    if sent.command == RESET then ResetTape(t, hw, i, address, junk)
    else if sent.command == ACK then AckTape(t, hw, i, address)
    else if sent.command == READ_REGISTERS then Answer(t, hw, address)
    else if sent.command == SKIPBLK || sent.command == BACKBLK then WindTape(t, hw, i, address, now, sent.command)
    else if sent.command == READBLK then ReadTape(t, hw, i, address, now, sent.data0)
    else Answer(t.WithStatus(ILLEGAL_OPERATION), hw, address)
  }

  function Mailbox(t0: Tape, hw: Hw, i: nat, address: nat, now: nat, junk: seq<Byte>): (r: (Tape, Hw))
    requires hw.Shape() && |junk| == 4
    ensures r.1.Shape()
  {
    var t := t0.(regs := t0.regs.(mailbox := 1));
    if address == NULL then (t0, hw)
    else if t.regs.status == DEVICE_NOT_INSTALLED && hw.RegistersAt(address).command != READ_REGISTERS
    then Answer(t, hw, address)
    else Command(t, hw, i, address, now, junk)
  }
}
