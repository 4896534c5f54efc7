/** Reading a disk over whole runs of the handler: a READBLK that completes puts the block of its place at
    the program's address, a SEEKCYL that completes moves the head, whatever is sent to other devices. */
module DiskReads {
  import opened Bytes
  import opened TimerQueue
  import opened Fat32
  import opened FatChains
  import opened FatTheorems
  import opened Hardware
  import opened Interrupts
  import opened Effects
  import opened Invariants
  import opened RunTheorems
  import opened TapeRuns
  import opened Completions
  import opened DiskBlocks
  import Tapes
  import Disks
  import Printers

  /** Disk `j` has its file in the clusters `ch`, and no other disk's file shares one with it. */
  ghost predicate DiskKept(s: System, j: nat, ch: seq<nat>, own: seq<seq<nat>>) {
    && s.Shape() && j < MAX_DEVICES && |own| == MAX_DEVICES
    && s.disks[j].cluster != 0
    && s.hw.volume.IsChain(s.disks[j].cluster, ch) && s.hw.volume.AllPresent(ch)
    && forall x :: 0 <= x < MAX_DEVICES && x != j ==> Apart(s, x, own[x], ch)
  }

  /** The bytes of the disk's file. */
  ghost function FileOf(s: System, ch: seq<nat>): seq<Byte>
    requires s.Shape() && s.hw.volume.AllPresent(ch)
  {
    s.hw.volume.Contents(ch)
  }

  function DiskKey(j: nat): (k: Key)
    ensures j < MAX_DEVICES ==> DeviceKey(k)
  {
    Key(DISK, j)
  }

  // ----- Turns of other devices -----

  lemma WriteKeepsFile(v: Volume, c: nat, own: seq<nat>, seek: nat, data: seq<Byte>, cluster: nat, ch: seq<nat>)
    requires v.Mounted() && v.IsChain(c, own) && v.IsChain(cluster, ch) && v.AllPresent(ch)
    requires v.WriteStays(c, seek, |data|) && forall x :: x in ch ==> x !in own
    ensures var w := v.Write(c, seek, data);
      w.Mounted() && w.IsChain(cluster, ch) && w.AllPresent(ch) && w.Contents(ch) == v.Contents(ch)
  {
    ChainPresent(v, c, own);
    OtherFilesKeepTheirBytes(v, c, own, seek, data, cluster, ch);
  }

  lemma OtherDiskTurn(s: System, k: Key, junk: Junk, j: nat, ch: seq<nat>, own: seq<seq<nat>>)
    requires DiskKept(s, j, ch, own) && DeviceKey(k) && k.kind == DISK && k != DiskKey(j) && (Busy(s, k) ==> Timed(s, k))
    ensures var r := Manage(s, k, junk); DiskKept(r, j, ch, own) && FileOf(r, ch) == FileOf(s, ch)
  {
    var r, x := Manage(s, k, junk), k.code;
    ManageEffect(s, k, junk);
    var wrote, seek, data := DiskWrites(s.disks[x], s.hw, x);
    var v, c := s.hw.volume, s.disks[x].cluster;
    assert Apart(s, x, own[x], ch);
    if wrote {
      WriteKeepsFile(v, c, own[x], seek, data, s.disks[j].cluster, ch);
    }
    forall y | 0 <= y < MAX_DEVICES && y != j
      ensures Apart(r, y, own[y], ch)
    {
      assert Apart(s, y, own[y], ch);
      if wrote && s.disks[y].regs.status != DEVICE_NOT_INSTALLED && s.disks[y].cluster != 0 {
        WriteKeepsChain(v, c, own[x], seek, data, s.disks[y].cluster, own[y]);
      }
      hide Disks.Manage, Volume.Write, Volume.IsChain;
    }
    hide Disks.Manage, Volume.Write, Volume.IsChain, Apart, Volume.Tail;
  }

  lemma TapeOrPrinterTurn(s: System, k: Key, junk: Junk, j: nat, ch: seq<nat>, own: seq<seq<nat>>)
    requires DiskKept(s, j, ch, own) && DeviceKey(k) && k.kind != DISK
    ensures var r := Manage(s, k, junk); DiskKept(r, j, ch, own) && FileOf(r, ch) == FileOf(s, ch)
    ensures Manage(s, k, junk).disks == s.disks
  {
    if k.kind == TAPE {
      TapeKeepsVolume(s.tapes[k.code], s.hw, k.code, junk[k.code]);
    }
    hide Tapes.Manage, Volume.IsChain, Volume.Tail;
    forall y | 0 <= y < MAX_DEVICES && y != j
      ensures Apart(Manage(s, k, junk), y, own[y], ch)
    {
      assert Apart(s, y, own[y], ch);
    }
  }

  lemma PopKeepsDisk(s: System, k: Key, j: nat, ch: seq<nat>, own: seq<seq<nat>>)
    requires DiskKept(s, j, ch, own) && s.hw.pending != [] && DeviceKey(k)
    ensures DiskKept(Pop(s), j, ch, own) && FileOf(Pop(s), ch) == FileOf(s, ch)
    ensures Busy(Pop(s), k) == Busy(s, k) && Timed(Pop(s), k) == Timed(s, k)
  {
    hide Volume.IsChain, Volume.Tail;
    forall y | 0 <= y < MAX_DEVICES && y != j
      ensures Apart(Pop(s), y, own[y], ch)
    {
      assert Apart(s, y, own[y], ch);
    }
  }

  lemma OthersTurn(s: System, now: nat, junk: Junk, j: nat, ch: seq<nat>, own: seq<seq<nat>>)
    requires Inv(s) && DiskKept(s, j, ch, own)
    requires s.hw.pending != [] && s.hw.pending[0].time < now && s.hw.pending[0].key != DiskKey(j)
    ensures var r := Turn(s, junk);
      DiskKept(r, j, ch, own) && FileOf(r, ch) == FileOf(s, ch) && r.disks[j] == s.disks[j]
  {
    var k := s.hw.pending[0].key;
    assert s.hw.pending[0] in s.hw.pending;
    assert DeviceOk(s, k);
    PopKeepsDisk(s, k, j, ch, own);
    ManageEffect(Pop(s), k, junk);
    assert SameDevice(Pop(s), Turn(s, junk), DiskKey(j));
    hide DiskKept, DeviceOk, Inv, Manage, FileOf;
    if k.kind == DISK {
      OtherDiskTurn(Pop(s), k, junk, j, ch, own);
    } else {
      TapeOrPrinterTurn(Pop(s), k, junk, j, ch, own);
    }
  }

  // ----- The disk's own turn -----

  /** Where a command that takes time leaves the head: a seek moves it across, a transfer chooses head and
      sector. */
  function MoveTo(p: Place, command: nat): Place {
    if Opcode(command) == Disks.SEEKCYL then Place(p.head, Disks.CylinderOf(command), p.sector)
    else Place(Disks.HeadOf(command), p.cylinder, Disks.SectorOf(command))
  }

  function PlaceOf(d: Disks.Disk): Place {
    Place(d.head, d.cylinder, d.sector)
  }

  function PlaceAfter(d: Disks.Disk): Place {
    MoveTo(PlaceOf(d), d.regs.command)
  }

  predicate Reading(d: Disks.Disk) {
    Opcode(d.regs.command) == Disks.READBLK
  }

  lemma OwnCommandEnds(d: Disks.Disk, hw: Hw, i: nat)
    requires hw.Shape() && d.Busy() && Disks.TimedCommand(d.regs.command) && d.cluster != 0
    ensures var (d', hw') := Disks.Manage(d, hw, i);
      && PlaceOf(d') == PlaceAfter(d) && d'.regs.status == DEVICE_READY
      && (Reading(d) ==>
           hw'.ram == hw.ReadInto(d.regs.data0, d.cluster, PlaceStart(d.cylinders, d.sectors, PlaceAfter(d))).ram)
  {
    BlockStartIsNumber(Disks.AtBlock(d));
    hide Volume.Read, Volume.Write, Volume.WriteStays, Volume.Written, Overlay, Disks.Disk.BlockStart, PlaceStart,
         Opcode, Disks.HeadOf, Disks.SectorOf, Disks.CylinderOf;
  }

  /** A data block after reading a place of a file into it. */
  function Loaded(before: Block, f: seq<Byte>, at: nat): seq<Byte> {
    Overlay(before, 0, Slice(f, at, BLOCKSIZE))
  }

  /** What completing its command does to the disk and, for a read, to the program's block. */
  ghost predicate Ended(s: System, r: System, j: nat)
    requires s.Shape() && r.Shape() && j < MAX_DEVICES
  {
    var d, d' := s.disks[j], r.disks[j];
    PlaceOf(d') == PlaceAfter(d) && d'.regs.status == DEVICE_READY
  }

  ghost predicate BlockLoaded(s: System, r: System, j: nat, ch: seq<nat>)
    requires s.Shape() && r.Shape() && j < MAX_DEVICES && s.hw.volume.AllPresent(ch)
  {
    var d := s.disks[j];
    r.hw.BlockAt(d.regs.data0)
    == Loaded(s.hw.BlockAt(d.regs.data0), FileOf(s, ch), PlaceStart(d.cylinders, d.sectors, PlaceAfter(d)))
  }

  lemma OwnDiskTurn(s: System, junk: Junk, j: nat, ch: seq<nat>, own: seq<seq<nat>>)
    requires DiskKept(s, j, ch, own) && s.hw.pending != [] && s.hw.pending[0].key == DiskKey(j)
    requires s.disks[j].Busy() && Disks.TimedCommand(s.disks[j].regs.command)
    ensures var r := Turn(s, junk); Ended(s, r, j) && (Reading(s.disks[j]) ==> BlockLoaded(s, r, j, ch))
  {
    var d := s.disks[j];
    var at := PlaceStart(d.cylinders, d.sectors, PlaceAfter(d));
    OwnCommandEnds(d, Pop(s).hw, j);
    ReadIsSlice(s.hw.volume, d.cluster, ch, at, BLOCKSIZE);
    hide Disks.Manage, Volume.Read, Volume.IsChain, Overlay, Slice, PlaceStart, PlaceAfter, Volume.Tail, Apart, Opcode,
         Disks.TimedCommand, Reading;
  }

  // ----- Drains -----

  /** What a drain does to a busy disk, and to the block it reads. */
  ghost predicate DiskDrained(s: System, r: System, j: nat, ch: seq<nat>, now: nat)
    requires s.Shape() && r.Shape() && j < MAX_DEVICES && s.hw.volume.AllPresent(ch)
  {
    var d := s.disks[j];
    if r.disks[j].Busy() then r.disks[j] == d
    else Ended(s, r, j) && (Reading(d) && Undisputed(s, DiskKey(j), d.regs.data0, now) ==> BlockLoaded(s, r, j, ch))
  }

  lemma DiskKeptMeans(s: System, j: nat, ch: seq<nat>, own: seq<seq<nat>>)
    requires DiskKept(s, j, ch, own)
    ensures s.Shape() && j < MAX_DEVICES && s.hw.volume.AllPresent(ch)
  {
  }

  lemma SamePlaces(s: System, t: System, r: System, j: nat, ch: seq<nat>)
    requires s.Shape() && t.Shape() && r.Shape() && j < MAX_DEVICES && s.hw.volume.AllPresent(ch) && t.hw.volume.AllPresent(ch)
    requires t.disks[j] == s.disks[j]
    ensures Ended(t, r, j) == Ended(s, r, j)
    ensures FileOf(t, ch) == FileOf(s, ch) && t.hw.BlockAt(s.disks[j].regs.data0) == s.hw.BlockAt(s.disks[j].regs.data0) ==>
      BlockLoaded(t, r, j, ch) == BlockLoaded(s, r, j, ch)
  {
    hide FileOf, PlaceStart, PlaceAfter;
  }

  lemma EndedStays(s: System, t: System, r: System, j: nat, ch: seq<nat>)
    requires s.Shape() && t.Shape() && r.Shape() && j < MAX_DEVICES && s.hw.volume.AllPresent(ch)
    requires r.disks[j] == t.disks[j]
    ensures Ended(s, t, j) == Ended(s, r, j)
    ensures r.hw.BlockAt(s.disks[j].regs.data0) == t.hw.BlockAt(s.disks[j].regs.data0) ==>
      BlockLoaded(s, t, j, ch) == BlockLoaded(s, r, j, ch)
    ensures Ended(s, t, j) ==> !t.disks[j].Busy()
  {
    hide FileOf, PlaceStart, PlaceAfter;
  }

  lemma OwnDrain(s: System, now: nat, junk: Junk, j: nat, ch: seq<nat>, own: seq<seq<nat>>)
    requires Inv(s) && DiskKept(s, j, ch, own)
    requires s.hw.pending != [] && s.hw.pending[0].time < now && s.hw.pending[0].key == DiskKey(j)
    requires Inv(Turn(s, junk)) && s.disks[j].Busy() && Disks.TimedCommand(s.disks[j].regs.command)
    ensures DiskDrained(s, Drain(s, now, junk), j, ch, now)
  {
    var k, a, t, r := DiskKey(j), s.disks[j].regs.data0, Turn(s, junk), Drain(s, now, junk);
    OwnDiskTurn(s, junk, j, ch, own);
    DrainEffect(t, now, junk, k);
    EndedStays(s, t, t, j, ch);
    StaysIdle(t, Drain(t, now, junk), now, k);
    EndedStays(s, t, r, j, ch);
    if Undisputed(s, k, a, now) {
      TurnKeepsUndisputed(s, junk, k, a, now);
      DrainSpares(t, now, junk, k, a);
    }
    hide Inv, Undisputed, Manage, DiskKept, Drained, Ended, BlockLoaded, Reading;
  }

  lemma {:induction false} DrainDisk(s: System, now: nat, junk: Junk, j: nat, ch: seq<nat>, own: seq<seq<nat>>)
    requires Inv(s) && DiskKept(s, j, ch, own) && s.disks[j].Busy()
    ensures DiskDrained(s, Drain(s, now, junk), j, ch, now)
    decreases |s.hw.pending|
  {
    var q := s.hw.pending;
    assert DeviceOk(s, DiskKey(j));
    assert Disks.TimedCommand(s.disks[j].regs.command);
    if q != [] && q[0].time < now {
      TurnKeepsInv(s, now, junk);
      if q[0].key == DiskKey(j) {
        OwnDrain(s, now, junk, j, ch, own);
      } else {
        var t, a := Turn(s, junk), s.disks[j].regs.data0;
        OthersTurn(s, now, junk, j, ch, own);
        DiskKeptMeans(t, j, ch, own);
        DrainDisk(t, now, junk, j, ch, own);
        SamePlaces(s, t, Drain(t, now, junk), j, ch);
        if Undisputed(s, DiskKey(j), a, now) {
          TurnKeepsUndisputed(s, junk, DiskKey(j), a, now);
          TurnSpares(s, now, junk, DiskKey(j), a);
        }
        hide Inv, DiskKept, Undisputed, Manage, Ended, BlockLoaded, FileOf, Reading, DeviceOk, Disks.TimedCommand;
      }
    }
  }

  // ----- Chains over runs -----

  /** The disk's own turn may write its file, and leaves the chains alone. */
  lemma OwnTurnKeepsDisk(s: System, junk: Junk, j: nat, ch: seq<nat>, own: seq<seq<nat>>)
    requires DiskKept(s, j, ch, own)
    ensures DiskKept(Manage(s, DiskKey(j), junk), j, ch, own)
  {
    var r := Manage(s, DiskKey(j), junk);
    var wrote, seek, data := DiskWrites(s.disks[j], s.hw, j);
    var v, c := s.hw.volume, s.disks[j].cluster;
    if wrote {
      WriteKeepsChain(v, c, ch, seek, data, c, ch);
      ChainPresent(v.Write(c, seek, data), c, ch);
    }
    forall y | 0 <= y < MAX_DEVICES && y != j
      ensures Apart(r, y, own[y], ch)
    {
      assert Apart(s, y, own[y], ch);
      if wrote && s.disks[y].regs.status != DEVICE_NOT_INSTALLED && s.disks[y].cluster != 0 {
        WriteKeepsChain(v, c, ch, seek, data, s.disks[y].cluster, own[y]);
      }
      hide Disks.Manage, Volume.Write, Volume.IsChain;
    }
    hide Disks.Manage, Volume.Write, Volume.IsChain, Apart;
  }

  lemma {:induction false} DrainKeepsDisk(s: System, now: nat, junk: Junk, j: nat, ch: seq<nat>, own: seq<seq<nat>>)
    requires Inv(s) && DiskKept(s, j, ch, own)
    ensures DiskKept(Drain(s, now, junk), j, ch, own)
    decreases |s.hw.pending|
  {
    var q := s.hw.pending;
    if q != [] && q[0].time < now {
      TurnKeepsInv(s, now, junk);
      if q[0].key == DiskKey(j) {
        DiskKeptMeans(s, j, ch, own);
        PopKeepsDisk(s, DiskKey(j), j, ch, own);
        OwnTurnKeepsDisk(Pop(s), junk, j, ch, own);
      } else {
        OthersTurn(s, now, junk, j, ch, own);
      }
      hide Inv, DiskKept, Manage;
      DrainKeepsDisk(Turn(s, junk), now, junk, j, ch, own);
    }
  }

  lemma SameFilesKeepDisk(s: System, r: System, j: nat, ch: seq<nat>, own: seq<seq<nat>>)
    requires DiskKept(s, j, ch, own) && r.Shape() && r.hw.volume == s.hw.volume
    requires forall x :: 0 <= x < MAX_DEVICES ==> r.disks[x].cluster == s.disks[x].cluster
    requires forall x :: 0 <= x < MAX_DEVICES ==>
      (r.disks[x].regs.status == DEVICE_NOT_INSTALLED <==> s.disks[x].regs.status == DEVICE_NOT_INSTALLED)
    ensures DiskKept(r, j, ch, own)
  {
    hide Volume.IsChain;
    forall x | 0 <= x < MAX_DEVICES && x != j
      ensures Apart(r, x, own[x], ch)
    {
      assert Apart(s, x, own[x], ch);
    }
  }

  lemma MessageKeepsFiles(s: System, word: nat, now: nat, junk: Junk)
    requires s.Shape()
    ensures var r := Message(s, word, now, junk);
      && r.hw.volume == s.hw.volume
      && (forall x :: 0 <= x < MAX_DEVICES ==> r.disks[x].cluster == s.disks[x].cluster)
      && (forall x :: 0 <= x < MAX_DEVICES ==>
           (r.disks[x].regs.status == DEVICE_NOT_INSTALLED <==> s.disks[x].regs.status == DEVICE_NOT_INSTALLED))
  {
    var i, a := DeviceOf(word), AddressOf(word);
    MessageEffect(s, word, now, junk);
    DiskMailboxKeepsFile(s.disks[i], s.hw, i, a, now);
    DiskStaysInstalled(s.disks[i], s.hw, i, a, now);
    hide Tapes.Mailbox, Disks.Mailbox, Printers.Mailbox, OnlyBit, ArmedIf, RegistersMove;
  }

  lemma MiddleKeepsDisk(b: System, e: Event, j: nat, ch: seq<nat>, own: seq<seq<nat>>)
    requires DiskKept(b, j, ch, own)
    ensures DiskKept(Middle(b, e), j, ch, own) && FileOf(Middle(b, e), ch) == FileOf(b, ch)
  {
    DiskKeptMeans(b, j, ch, own);
    if e.TakeFiq? && MailboxPending(e.source) {
      MessageKeepsFiles(b, e.word, e.now, e.junk);
    }
    hide Message, DiskKept, Volume.Tail;
    SameFilesKeepDisk(b, Middle(b, e), j, ch, own);
    DiskKeptMeans(Middle(b, e), j, ch, own);
  }

  /** After the drain, or after the message if there is none, only memory and counters change. */
  lemma AfterTimers(b: System, e: Event)
    requires Inv(b)
    ensures var d, r := if Drains(e) then Drain(Middle(b, e), e.later, e.junk) else Middle(b, e), Step(b, e);
      && r.disks == d.disks && r.hw.volume == d.hw.volume
      && (Drains(e) ==> r.hw.ram == d.hw.ram)
  {
    if Drains(e) {
      DrainLeavesLater(Middle(b, e), e.later, e.junk);
    }
    hide Drain, Message, Hw.PendingInterrupt, Hw.CleanLines;
  }

  lemma StepKeepsDisk(b: System, e: Event, j: nat, ch: seq<nat>, own: seq<seq<nat>>)
    requires Inv(b) && DiskKept(b, j, ch, own)
    ensures DiskKept(Step(b, e), j, ch, own)
  {
    MiddleKeepsInv(b, e);
    MiddleKeepsDisk(b, e, j, ch, own);
    AfterTimers(b, e);
    if Drains(e) {
      DrainKeepsDisk(Middle(b, e), e.later, e.junk, j, ch, own);
    }
    hide Inv, DiskKept, Middle, Step, Drain;
    SameFilesKeepDisk(if Drains(e) then Drain(Middle(b, e), e.later, e.junk) else Middle(b, e), Step(b, e), j, ch, own);
  }

  lemma {:induction false} RunKeepsDisk(s: System, events: seq<Event>, j: nat, ch: seq<nat>, own: seq<seq<nat>>)
    requires Inv(s) && DiskKept(s, j, ch, own)
    ensures DiskKept(Run(s, events), j, ch, own)
    decreases |events|
  {
    if events != [] {
      var before := events[..|events| - 1];
      RunKeepsDisk(s, before, j, ch, own);
      RunKeepsInv(s, before);
      StepKeepsDisk(Run(s, before), events[|events| - 1], j, ch, own);
    }
  }

  // ----- A completion -----

  lemma CompletionEnds(b: System, e: Event, j: nat, ch: seq<nat>, own: seq<seq<nat>>)
    requires Inv(b) && DiskKept(b, j, ch, own) && Completes(b, e, DiskKey(j))
    ensures DiskKept(Middle(b, e), j, ch, own) && Middle(b, e).hw.volume.AllPresent(ch) && b.hw.volume.AllPresent(ch)
    ensures var m, r := Middle(b, e), Step(b, e);
      && FileOf(m, ch) == FileOf(b, ch) && Ended(m, r, j)
      && (Reading(m.disks[j]) && Undisputed(m, DiskKey(j), m.disks[j].regs.data0, e.later) ==> BlockLoaded(m, r, j, ch))
  {
    var m, r, k := Middle(b, e), Step(b, e), DiskKey(j);
    MiddleKeepsInv(b, e);
    MiddleKeepsDisk(b, e, j, ch, own);
    AfterTimers(b, e);
    DiskKeptMeans(b, j, ch, own);
    DiskKeptMeans(m, j, ch, own);
    if Drains(e) {
      DrainDisk(m, e.later, e.junk, j, ch, own);
      EndedStays(m, Drain(m, e.later, e.junk), r, j, ch);
    }
    hide Inv, DiskKept, Middle, Step, Drain, Undisputed, FileOf, Ended, BlockLoaded, Reading;
  }

  // ----- Messages -----

  predicate Resets(b: System, e: Event, j: nat)
    requires b.Shape() && j < MAX_DEVICES
  {
    Messages(e, DiskKey(j)) && Installed(b, DiskKey(j)) && Opcode(SentCommand(b, e.word)) == RESET
  }

  lemma MailboxPlace(d: Disks.Disk, hw: Hw, i: nat, address: nat, now: nat)
    requires hw.Shape() && address != NULL
    ensures var d', sent := Disks.Mailbox(d, hw, i, address, now).0, hw.RegistersAt(address);
      && PlaceOf(d') == (if d.regs.status != DEVICE_NOT_INSTALLED && Opcode(sent.command) == RESET then Place(0, 0, 0)
                         else PlaceOf(d))
      && d'.cylinders == d.cylinders && d'.sectors == d.sectors
      && (d'.Busy() ==> if d.Busy() then d'.regs.command == d.regs.command && d'.regs.data0 == d.regs.data0
                        else d'.regs.command == sent.command && d'.regs.data0 == sent.data0)
  {
    assert Opcode(READ_REGISTERS) == READ_REGISTERS;
    hide Disks.Disk.Delay, Disks.CylinderOf, Disks.SectorOf, Disks.HeadOf, Opcode, Hw.Arm;
  }

  /** The disk after the event's message. */
  ghost predicate MessagePlaces(b: System, e: Event, j: nat)
    requires b.Shape() && j < MAX_DEVICES
  {
    var d, d' := b.disks[j], Middle(b, e).disks[j];
    && PlaceOf(d') == (if Resets(b, e, j) then Place(0, 0, 0) else PlaceOf(d))
    && d'.cylinders == d.cylinders && d'.sectors == d.sectors
    && (d'.Busy() ==> (Accepts(b, e, DiskKey(j)) <==> !d.Busy()))
    && (d'.Busy() && d.Busy() ==> d'.regs.command == d.regs.command && d'.regs.data0 == d.regs.data0)
    && (d'.Busy() && !d.Busy() ==> d'.regs.command == SentCommand(b, e.word))
    && (d'.Busy() && !d.Busy() ==> d'.regs.data0 == b.hw.RegistersAt(AddressOf(e.word)).data0)
  }

  lemma MiddlePlaces(b: System, e: Event, j: nat)
    requires b.Shape() && j < MAX_DEVICES
    ensures MessagePlaces(b, e, j)
  {
    if e.TakeFiq? && MailboxPending(e.source) {
      MessageEffect(b, e.word, e.now, e.junk);
      if Messages(e, DiskKey(j)) {
        MailboxPlace(b.disks[j], b.hw, j, AddressOf(e.word), e.now);
        DiskOfMessage(b, e.word, e.now, e.junk, j);
        hide Message, Disks.Mailbox, DeviceMessage, Opcode;
      } else {
        assert Middle(b, e) != b ==> SameDevice(b, Middle(b, e), DiskKey(j));
        hide Message, OnlyBit, ArmedIf, RegistersMove;
      }
    }
  }

  lemma DiskOfMessage(s: System, word: nat, now: nat, junk: Junk, j: nat)
    requires s.Shape() && j < MAX_DEVICES && Target(word) == DiskKey(j)
    ensures Message(s, word, now, junk).disks[j] == Disks.Mailbox(s.disks[j], s.hw, j, AddressOf(word), now).0
  {
    hide Tapes.Mailbox, Disks.Mailbox, Printers.Mailbox;
  }

  // ----- Where the head is, from what was sent -----

  /** The head's place after a run: a RESET takes it to 0, a completion moves it by the command that was
      accepted last. */
  function HeadPlace(s: System, events: seq<Event>, j: nat): Place
    requires s.Shape() && j < MAX_DEVICES
    decreases |events|
  {
    if events == [] then PlaceOf(s.disks[j])
    else
      var before, e := events[..|events| - 1], events[|events| - 1];
      Moved(s, events, Run(s, before), e, j, HeadPlace(s, before, j))
  }

  function Moved(s: System, events: seq<Event>, b: System, e: Event, j: nat, p: Place): Place
    requires s.Shape() && b.Shape() && j < MAX_DEVICES
  {
    var p1 := if Resets(b, e, j) then Place(0, 0, 0) else p;
    if Completes(b, e, DiskKey(j)) then MoveTo(p1, LastSent(s, events, DiskKey(j)).command) else p1
  }

  /** The head is where the commands sent have taken it, and a command under way is the one accepted last. */
  ghost predicate DiskState(s: System, events: seq<Event>, j: nat)
    requires s.Shape() && j < MAX_DEVICES
  {
    var d, sent := Run(s, events).disks[j], LastSent(s, events, DiskKey(j));
    PlaceOf(d) == HeadPlace(s, events, j) && (d.Busy() ==> d.regs.command == sent.command && d.regs.data0 == sent.data0)
  }

  /** What a command under way in the middle of the event was sent with. */
  ghost predicate MiddleState(s: System, events: seq<Event>, e: Event, j: nat)
    requires s.Shape() && j < MAX_DEVICES
  {
    var d, sent := Middle(Run(s, events), e).disks[j], LastSent(s, events + [e], DiskKey(j));
    d.Busy() ==> d.regs.command == sent.command && d.regs.data0 == sent.data0
  }

  lemma MiddleSent(s: System, events: seq<Event>, e: Event, j: nat)
    requires s.Shape() && j < MAX_DEVICES && DiskState(s, events, j) && MessagePlaces(Run(s, events), e, j)
    ensures MiddleState(s, events, e, j)
  {
    NextSent(s, events, e, DiskKey(j));
    hide Run, Middle, Accepts, LastSent, PlaceOf, HeadPlace, Resets;
  }

  lemma NextPlace(s: System, events: seq<Event>, e: Event, j: nat)
    requires s.Shape() && j < MAX_DEVICES
    ensures HeadPlace(s, events + [e], j) == Moved(s, events + [e], Run(s, events), e, j, HeadPlace(s, events, j))
  {
    assert (events + [e])[..|events + [e]| - 1] == events;
    hide Run, Moved;
  }

  lemma IdleDiskStays(b: System, e: Event, j: nat, ch: seq<nat>, own: seq<seq<nat>>)
    requires Inv(b) && DiskKept(b, j, ch, own) && !Completes(b, e, DiskKey(j))
    ensures Step(b, e).disks[j] == Middle(b, e).disks[j]
  {
    var m, r, k := Middle(b, e), Step(b, e), DiskKey(j);
    MiddleKeepsInv(b, e);
    MiddleKeepsDisk(b, e, j, ch, own);
    AfterTimers(b, e);
    DiskKeptMeans(m, j, ch, own);
    hide Inv, DiskKept, Middle, Step, Drain, Undisputed, FileOf, Ended, BlockLoaded, Reading;
    if Drains(e) {
      if m.disks[j].Busy() {
        DrainDisk(m, e.later, e.junk, j, ch, own);
      } else {
        DrainEffect(m, e.later, e.junk, k);
        StaysIdle(m, Drain(m, e.later, e.junk), e.later, k);
      }
    }
  }

  lemma NextDiskState(s: System, events: seq<Event>, e: Event, j: nat)
    requires s.Shape() && j < MAX_DEVICES && DiskState(s, events, j)
    requires MessagePlaces(Run(s, events), e, j) && MiddleState(s, events, e, j)
    requires var b := Run(s, events);
      if Completes(b, e, DiskKey(j)) then Ended(Middle(b, e), Step(b, e), j) else Step(b, e).disks[j] == Middle(b, e).disks[j]
    ensures DiskState(s, events + [e], j)
  {
    NextSent(s, events, e, DiskKey(j));
    NextPlace(s, events, e, j);
    hide Run, Step, Middle, Accepts, LastSent, HeadPlace, Resets, MoveTo;
  }

  lemma {:induction false} RunKeepsDiskState(s: System, events: seq<Event>, j: nat, ch: seq<nat>, own: seq<seq<nat>>)
    requires Inv(s) && DiskKept(s, j, ch, own) && !s.disks[j].Busy()
    ensures DiskState(s, events, j)
    decreases |events|
  {
    if events != [] {
      var before, e := events[..|events| - 1], events[|events| - 1];
      assert before + [e] == events;
      assert j < MAX_DEVICES && s.Shape();
      hide *;
      RunKeepsDiskState(s, before, j, ch, own);
      var b := Run(s, before);
      RunKeepsInv(s, before);
      RunKeepsDisk(s, before, j, ch, own);
      MiddlePlaces(b, e, j);
      MiddleSent(s, before, e, j);
      KeyIsDevice(b, j);
      if Completes(b, e, DiskKey(j)) {
        CompletionEnds(b, e, j, ch, own);
      } else {
        IdleDiskStays(b, e, j, ch, own);
      }
      NextDiskState(s, before, e, j);
    }
  }

  lemma KeyIsDevice(b: System, j: nat)
    requires b.Shape() && j < MAX_DEVICES
    ensures DeviceKey(DiskKey(j)) && j < |b.disks|
  {
  }

  // ----- The theorem -----

  /** Over every run from a state in which disk `j` is idle, with the files of installed disks apart: the head
      is where the commands sent have taken it, and when the disk completes a READBLK, the bytes that its
      file has at the cylinder last sought, and at the head and sector asked for, 28 bytes of header and then
      the blocks by number, are at the address sent with the command, unless another read to that address
      ends in the same FIQ or a disk write has left its buffer. */
  lemma DiskDelivers(s: System, events: seq<Event>, e: Event, j: nat, ch: seq<nat>, own: seq<seq<nat>>)
    requires Inv(s) && DiskKept(s, j, ch, own) && !s.disks[j].Busy()
    ensures Run(s, events).hw.volume.AllPresent(ch)
    ensures var b, all, k := Run(s, events), events + [e], DiskKey(j);
      var m, r, sent, place := Middle(b, e), Step(b, e), LastSent(s, all, k), HeadPlace(s, all, j);
      r.hw.overrun ||
      (&& PlaceOf(r.disks[j]) == place
       && (Completes(b, e, k) && Opcode(sent.command) == Disks.READBLK && Undisputed(m, k, sent.data0, e.later) ==>
             r.hw.BlockAt(sent.data0)
             == Loaded(m.hw.BlockAt(sent.data0), FileOf(b, ch), PlaceStart(m.disks[j].cylinders, m.disks[j].sectors, place))))
  {
    var b, all, k := Run(s, events), events + [e], DiskKey(j);
    assert j < MAX_DEVICES && s.Shape();
    hide *;
    RunKeepsInv(s, events);
    RunKeepsDisk(s, events, j, ch, own);
    RunKeepsDiskState(s, events, j, ch, own);
    RunKeepsDiskState(s, all, j, ch, own);
    DiskKeptMeans(b, j, ch, own);
    KeyIsDevice(b, j);
    MiddlePlaces(b, e, j);
    MiddleSent(s, events, e, j);
    NextSent(s, events, e, k);
    StatePlace(s, all, j);
    if Completes(b, e, k) {
      CompletionEnds(b, e, j, ch, own);
      LoadedAtPlace(s, events, e, j, ch);
    }
  }

  lemma StatePlace(s: System, events: seq<Event>, j: nat)
    requires s.Shape() && j < MAX_DEVICES && DiskState(s, events, j)
    ensures j < |Run(s, events).disks| && PlaceOf(Run(s, events).disks[j]) == HeadPlace(s, events, j)
  {
    hide Run, HeadPlace;
  }

  lemma LoadedAtPlace(s: System, events: seq<Event>, e: Event, j: nat, ch: seq<nat>)
    requires s.Shape() && j < MAX_DEVICES && MiddleState(s, events, e, j) && Completes(Run(s, events), e, DiskKey(j))
    requires var b := Run(s, events);
      var m, r := Middle(b, e), Step(b, e);
      && m.hw.volume.AllPresent(ch) && b.hw.volume.AllPresent(ch) && FileOf(m, ch) == FileOf(b, ch) && Ended(m, r, j)
      && (Reading(m.disks[j]) && Undisputed(m, DiskKey(j), m.disks[j].regs.data0, e.later) ==> BlockLoaded(m, r, j, ch))
    ensures var b, k := Run(s, events), DiskKey(j);
      var m, r, sent := Middle(b, e), Step(b, e), LastSent(s, events + [e], k);
      Opcode(sent.command) == Disks.READBLK && Undisputed(m, k, sent.data0, e.later) ==>
        r.hw.BlockAt(sent.data0)
        == Loaded(m.hw.BlockAt(sent.data0), FileOf(b, ch),
                  PlaceStart(m.disks[j].cylinders, m.disks[j].sectors, PlaceOf(r.disks[j])))
  {
    hide Run, Middle, Step, LastSent, Undisputed, FileOf, PlaceStart, PlaceAfter, PlaceOf, Opcode, Loaded;
  }
}
