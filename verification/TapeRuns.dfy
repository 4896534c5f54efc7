/** Tapes over whole runs: the head stays on the tape whatever is sent to any device, disk writes never
    reach a tape's file, and reading from RESET delivers the blocks in order. */
module TapeRuns {
  import opened Bytes
  import opened TimerQueue
  import opened Fat32
  import opened FatChains
  import opened FatWrites
  import opened FatTheorems
  import opened Hardware
  import opened Interrupts
  import opened Effects
  import opened Invariants
  import RunTheorems
  import opened TapeLayout
  import Tapes
  import Disks
  import Printers

  // ----- Start-up -----

  lemma BootsOnTape(v: Volume, cluster: nat, junk: seq<Byte>, ch: seq<nat>, f: seq<Byte>, n: nat)
    requires Holds(v, cluster, ch, f, n) && |junk| == 4
    ensures var t := Tapes.Boot(v, cluster, junk); t.cluster == cluster && OnTape(t, f, n)
  {
    ReadIsSlice(v, cluster, ch, 0, 4);
    OverlayAll(junk, MarkerBytes(f, 0));
    hide Volume.Read, Volume.IsChain, Word, Overlay;
  }

  // ----- Disk writes and tape files -----

  /** Managing a disk leaves the volume alone or writes to the disk's own file. */
  lemma DiskWrites(d: Disks.Disk, hw: Hw, i: nat) returns (wrote: bool, seek: nat, data: seq<Byte>)
    requires hw.Shape()
    ensures var (d', hw') := Disks.Manage(d, hw, i);
      && d'.cluster == d.cluster
      && hw'.volume == if wrote then hw.volume.Write(d.cluster, seek, data) else hw.volume
    ensures wrote ==> d.Busy() && d.cluster != 0 && hw.volume.WriteStays(d.cluster, seek, |data|)
  {
    var d1 := Disks.AtBlock(d);
    wrote := d.Busy() && d.cluster != 0 && Opcode(d.regs.command) == Disks.WRITEBLK
             && hw.volume.WriteStays(d.cluster, d1.BlockStart(), BLOCKSIZE);
    StoppedWrite(hw.volume, d.cluster, d1.BlockStart(), hw.BlockAt(d.regs.data0));
    seek, data := d1.BlockStart(), hw.BlockAt(d.regs.data0);
    hide Volume.Read, Volume.Write, Volume.WriteStays, Volume.Written, Disks.Disk.BlockStart, Overlay, Opcode,
         Disks.CylinderOf, Disks.HeadOf, Disks.SectorOf;
  }

  lemma StoppedWrite(v: Volume, c: nat, seek: nat, data: seq<Byte>)
    requires v.Mounted()
    ensures !v.WriteStays(c, seek, |data|) ==> v.Write(c, seek, data) == v
  {
  }

  /** The file of disk `j`, if it has one, lies in the clusters `own`, none of them the tape's. */
  ghost predicate Apart(s: System, j: nat, own: seq<nat>, ch: seq<nat>)
    requires s.Shape() && j < MAX_DEVICES
  {
    s.disks[j].regs.status != DEVICE_NOT_INSTALLED && s.disks[j].cluster != 0 ==>
      s.hw.volume.IsChain(s.disks[j].cluster, own) && forall c :: c in ch ==> c !in own
  }

  /** Tape `i` holds `f`, its head is on the tape, and no disk's file shares a cluster with it.  A write
      that leaves its buffer changes no volume here, so this says something only where none has. */
  ghost predicate TapeKept(s: System, i: nat, ch: seq<nat>, f: seq<Byte>, n: nat, own: seq<seq<nat>>) {
    && s.Shape() && i < MAX_DEVICES && |own| == MAX_DEVICES
    && Holds(s.hw.volume, s.tapes[i].cluster, ch, f, n)
    && OnTape(s.tapes[i], f, n)
    && forall j :: 0 <= j < MAX_DEVICES ==> Apart(s, j, own[j], ch)
  }

  lemma WriteKeepsHolds(v: Volume, c: nat, own: seq<nat>, seek: nat, data: seq<Byte>,
                        cluster: nat, ch: seq<nat>, f: seq<Byte>, n: nat)
    requires Holds(v, cluster, ch, f, n) && v.IsChain(c, own) && forall x :: x in ch ==> x !in own
    requires v.WriteStays(c, seek, |data|)
    ensures Holds(v.Write(c, seek, data), cluster, ch, f, n)
  {
    ChainPresent(v, c, own);
    OtherFilesKeepTheirBytes(v, c, own, seek, data, cluster, ch);
    hide Volume.Write, Volume.IsChain, WellFormedTape;
  }

  lemma WriteKeepsChain(v: Volume, c: nat, own: seq<nat>, seek: nat, data: seq<Byte>, d: nat, other: seq<nat>)
    requires v.Mounted() && v.IsChain(c, own) && v.IsChain(d, other) && v.WriteStays(c, seek, |data|)
    ensures var w := v.Write(c, seek, data); w.Mounted() && w.IsChain(d, other)
  {
    ChainPresent(v, c, own);
    WriteUndisturbed(v, c, own, seek, data);
    SameChain(v, v.Write(c, seek, data), own, d, other);
  }

  // ----- Events -----

  lemma DiskTurnKeepsWorld(s: System, k: Key, junk: Junk, i: nat, ch: seq<nat>, f: seq<Byte>, n: nat, own: seq<seq<nat>>)
    requires TapeKept(s, i, ch, f, n, own) && DeviceKey(k) && k.kind == DISK && (Busy(s, k) ==> Timed(s, k))
    ensures TapeKept(Manage(s, k, junk), i, ch, f, n, own)
  {
    var r, j := Manage(s, k, junk), k.code;
    ManageEffect(s, k, junk);
    var wrote, seek, data := DiskWrites(s.disks[j], s.hw, j);
    var v, c := s.hw.volume, s.disks[j].cluster;
    assert Apart(s, j, own[j], ch);
    if wrote {
      WriteKeepsHolds(v, c, own[j], seek, data, s.tapes[i].cluster, ch, f, n);
    }
    forall x | 0 <= x < MAX_DEVICES
      ensures Apart(r, x, own[x], ch)
    {
      assert Apart(s, x, own[x], ch);
      if wrote && s.disks[x].regs.status != DEVICE_NOT_INSTALLED && s.disks[x].cluster != 0 {
        WriteKeepsChain(v, c, own[j], seek, data, s.disks[x].cluster, own[x]);
      }
      hide Disks.Manage, Volume.Write, Volume.IsChain, Holds, OnTape;
    }
    hide Disks.Manage, Volume.Write, Volume.IsChain, Holds, OnTape, Apart;
  }

  /** A tape or printer step that keeps the volume and the tape in order. */
  lemma OtherTurnKeepsWorld(s: System, k: Key, junk: Junk, i: nat, ch: seq<nat>, f: seq<Byte>, n: nat, own: seq<seq<nat>>)
    requires TapeKept(s, i, ch, f, n, own) && DeviceKey(k) && k.kind != DISK
    ensures TapeKept(Manage(s, k, junk), i, ch, f, n, own)
  {
    if k.kind == TAPE {
      if k.code == i {
        ManageKeepsOnTape(s.tapes[i], s.hw, i, junk[i], ch, f, n);
      } else {
        TapeKeepsVolume(s.tapes[k.code], s.hw, k.code, junk[k.code]);
      }
    }
    hide Tapes.Manage, Volume.IsChain, Holds, OnTape;
  }

  lemma TapeKeepsVolume(t: Tapes.Tape, hw: Hw, i: nat, junk: Local)
    requires hw.Shape()
    ensures Tapes.Manage(t, hw, i, junk).1.volume == hw.volume
  {
    hide Tapes.NextBlock, Tapes.PrevBlock, Tapes.UpdateHead, Volume.Read, Overlay, Tapes.BlockStart;
  }

  lemma {:induction false} DrainKeepsWorld(
      s: System, now: nat, junk: Junk, i: nat, ch: seq<nat>, f: seq<Byte>, n: nat, own: seq<seq<nat>>)
    requires Inv(s) && TapeKept(s, i, ch, f, n, own)
    ensures TapeKept(Drain(s, now, junk), i, ch, f, n, own)
    decreases |s.hw.pending|
  {
    var q := s.hw.pending;
    if q != [] && q[0].time < now {
      var k := q[0].key;
      assert q[0] in q;
      assert DeviceOk(s, k);
      PopKeepsWorld(s, k, i, ch, f, n, own);
      TurnKeepsInv(s, now, junk);
      hide TapeKept, DeviceOk, Inv, WellFormed;
      if k.kind == DISK {
        DiskTurnKeepsWorld(Pop(s), k, junk, i, ch, f, n, own);
      } else {
        OtherTurnKeepsWorld(Pop(s), k, junk, i, ch, f, n, own);
      }
      DrainKeepsWorld(Turn(s, junk), now, junk, i, ch, f, n, own);
    }
  }

  lemma PopKeepsWorld(s: System, k: Key, i: nat, ch: seq<nat>, f: seq<Byte>, n: nat, own: seq<seq<nat>>)
    requires TapeKept(s, i, ch, f, n, own) && s.hw.pending != [] && DeviceKey(k)
    ensures TapeKept(Pop(s), i, ch, f, n, own)
    ensures Busy(Pop(s), k) == Busy(s, k) && Timed(Pop(s), k) == Timed(s, k)
  {
    hide Holds, OnTape, Volume.IsChain;
    forall j | 0 <= j < MAX_DEVICES
      ensures Apart(Pop(s), j, own[j], ch)
    {
      assert Apart(s, j, own[j], ch);
    }
  }

  lemma DiskMailboxKeepsFile(d: Disks.Disk, hw: Hw, i: nat, address: nat, now: nat)
    requires hw.Shape()
    ensures Disks.Mailbox(d, hw, i, address, now).0.cluster == d.cluster
  {
    hide Disks.Disk.Delay, Disks.CylinderOf, Disks.SectorOf, Disks.HeadOf, Opcode, Hw.Arm;
  }

  lemma MessageKeepsWorld(s: System, word: nat, now: nat, junk: Junk, i: nat, ch: seq<nat>, f: seq<Byte>, n: nat,
                          own: seq<seq<nat>>)
    requires TapeKept(s, i, ch, f, n, own)
    ensures TapeKept(Message(s, word, now, junk), i, ch, f, n, own)
  {
    var r, x, a, k := Message(s, word, now, junk), DeviceOf(word), AddressOf(word), Target(word);
    MessageEffect(s, word, now, junk);
    if r != s {
      if k.kind == TAPE && x == i {
        MailboxKeepsOnTape(s.tapes[i], s.hw, i, a, now, junk[i], ch, f, n);
      }
      if k.kind == DISK {
        DiskMailboxKeepsFile(s.disks[x], s.hw, x, a, now);
      }
      hide Tapes.Mailbox, Disks.Mailbox, Printers.Mailbox, Holds, OnTape, Volume.IsChain, OnlyBit, ArmedIf;
      forall j | 0 <= j < MAX_DEVICES
        ensures Apart(r, j, own[j], ch)
      {
        assert Apart(s, j, own[j], ch);
      }
    }
  }

  lemma SameButMemoryKeepsWorld(s: System, r: System, i: nat, ch: seq<nat>, f: seq<Byte>, n: nat, own: seq<seq<nat>>)
    requires TapeKept(s, i, ch, f, n, own) && RunTheorems.SameButMemory(s, r)
    ensures TapeKept(r, i, ch, f, n, own)
  {
    hide Holds, OnTape, Volume.IsChain;
    forall j | 0 <= j < MAX_DEVICES
      ensures Apart(r, j, own[j], ch)
    {
      assert Apart(s, j, own[j], ch);
    }
  }

  lemma StepKeepsWorld(s: System, e: Event, i: nat, ch: seq<nat>, f: seq<Byte>, n: nat, own: seq<seq<nat>>)
    requires Inv(s) && TapeKept(s, i, ch, f, n, own)
    ensures TapeKept(Step(s, e), i, ch, f, n, own)
  {
    var m := RunTheorems.Middle(s, e);
    RunTheorems.MiddleKeepsInv(s, e);
    if e.TakeFiq? && MailboxPending(e.source) {
      MessageKeepsWorld(s, e.word, e.now, e.junk, i, ch, f, n, own);
    }
    assert TapeKept(m, i, ch, f, n, own);
    hide Drain, Inv, TapeKept, RunTheorems.Middle, Step;
    if RunTheorems.Drains(e) {
      DrainKeepsWorld(m, e.later, e.junk, i, ch, f, n, own);
    }
    RunTheorems.Ending(s, e);
    SameButMemoryKeepsWorld(RunTheorems.Managed(s, e), Step(s, e), i, ch, f, n, own);
  }

  lemma {:induction false} RunKeepsWorld(
      s: System, events: seq<Event>, i: nat, ch: seq<nat>, f: seq<Byte>, n: nat, own: seq<seq<nat>>)
    requires Inv(s) && TapeKept(s, i, ch, f, n, own)
    ensures TapeKept(Run(s, events), i, ch, f, n, own)
    decreases |events|
  {
    if events != [] {
      var before := events[..|events| - 1];
      RunKeepsWorld(s, before, i, ch, f, n, own);
      RunTheorems.RunKeepsInv(s, before);
      StepKeepsWorld(Run(s, before), events[|events| - 1], i, ch, f, n, own);
    }
  }

  /** As `TapeKept`, and no copy has left its buffer. */
  ghost predicate TapeWorld(s: System, i: nat, ch: seq<nat>, f: seq<Byte>, n: nat, own: seq<seq<nat>>) {
    TapeKept(s, i, ch, f, n, own) && !s.hw.overrun
  }

  /** Over every run of commands to all devices, until a disk write leaves its buffer, a tape whose clusters
      no disk uses keeps its file, and its head stays on it: block index at most n, data register 1 the
      marker there, EOT exactly at n, and a read under way only before a block. */
  lemma TapeStaysOnTape(s: System, events: seq<Event>, i: nat, ch: seq<nat>, f: seq<Byte>, n: nat, own: seq<seq<nat>>)
    requires Inv(s) && TapeWorld(s, i, ch, f, n, own)
    ensures Run(s, events).hw.overrun || TapeWorld(Run(s, events), i, ch, f, n, own)
  {
    RunKeepsWorld(s, events, i, ch, f, n, own);
  }
}
