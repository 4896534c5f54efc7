/** Commands that an event completes, and the blocks that their reads put into the programs' memory. */
module Completions {
  import opened Bytes
  import opened TimerQueue
  import opened Fat32
  import opened Hardware
  import opened Interrupts
  import opened Effects
  import opened Invariants
  import opened RunTheorems
  import Tapes
  import Disks
  import Printers

  /** Device `k` ends its command in the event. */
  predicate Completes(b: System, e: Event, k: Key)
    requires b.Shape() && DeviceKey(k)
  {
    Busy(Middle(b, e), k) && !Busy(Step(b, e), k)
  }

  /** Device `k` is busy with a read of a block into a program's memory. */
  predicate Loads(s: System, k: Key)
    requires s.Shape() && DeviceKey(k)
  {
    Busy(s, k) && match k.kind
      case TAPE => Regs(s, k).command == Tapes.READBLK
      case DISK => Opcode(Regs(s, k).command) == Disks.READBLK
      case PRINTER => false
  }

  /** No timer but that of `k` that has expired at `now` is of a read to the address `a`. */
  ghost predicate Undisputed(s: System, k: Key, a: nat, now: nat)
    requires s.Shape()
  {
    forall e :: e in s.hw.pending && e.time < now && e.key != k && DeviceKey(e.key) && Loads(s, e.key) ==>
      Regs(s, e.key).data0 != a
  }

  // ----- Blocks that a drain leaves alone -----

  lemma TapeCompletionLoads(t: Tapes.Tape, hw: Hw, i: nat, status: nat, a: nat)
    requires hw.Shape()
    ensures Tapes.Complete(t, hw, i, status).1.BlockAt(a) == hw.BlockAt(a)
  {
  }

  lemma TapeAfterReadLoads(t: Tapes.Tape, hw: Hw, i: nat, r: int, junk: Local, a: nat)
    requires hw.Shape()
    ensures Tapes.AfterRead(t, hw, i, r, junk).1.BlockAt(a) == hw.BlockAt(a)
  {
    hide Tapes.UpdateHead, Tapes.Tape.WithStatus, Tapes.Forward;
  }

  lemma TapeReadLoads(t: Tapes.Tape, hw: Hw, a: nat)
    requires hw.Shape() && t.regs.data0 != a
    ensures Tapes.ReadBlock(t, hw).1.BlockAt(a) == hw.BlockAt(a)
  {
    hide Volume.Read, Overlay, Tapes.BlockStart;
  }

  lemma TapeLoads(t: Tapes.Tape, hw: Hw, i: nat, junk: Local, a: nat)
    requires hw.Shape() && (t.Busy() && t.regs.command == Tapes.READBLK ==> t.regs.data0 != a)
    ensures Tapes.Manage(t, hw, i, junk).1.BlockAt(a) == hw.BlockAt(a)
  {
    hide Tapes.NextBlock, Tapes.PrevBlock, Tapes.ReadBlock, Tapes.AfterRead, Tapes.Complete, Hw.BlockAt;
    if t.Busy() && t.regs.command == Tapes.SKIPBLK {
      var (res, t') := Tapes.NextBlock(t, hw.volume, junk);
      TapeCompletionLoads(t', hw, i, if res < 0 then Tapes.SKIP_ERROR else DEVICE_READY, a);
    } else if t.Busy() && t.regs.command == Tapes.BACKBLK {
      var (res, t') := Tapes.PrevBlock(t, hw.volume, junk);
      TapeCompletionLoads(t', hw, i, if res < 0 then Tapes.BACK_BLOCK_ERROR else DEVICE_READY, a);
    } else if t.Busy() && t.regs.command == Tapes.READBLK {
      var (r, hw') := Tapes.ReadBlock(t, hw);
      TapeReadLoads(t, hw, a);
      TapeAfterReadLoads(t, hw', i, r, junk, a);
    }
  }

  lemma DiskLoads(d: Disks.Disk, hw: Hw, i: nat, a: nat)
    requires hw.Shape() && (d.Busy() && Opcode(d.regs.command) == Disks.READBLK ==> d.regs.data0 != a)
    ensures Disks.Manage(d, hw, i).1.BlockAt(a) == hw.BlockAt(a)
  {
    hide Volume.Read, Volume.Write, Volume.WriteStays, Volume.Written, Disks.Disk.BlockStart, Disks.Disk.WithStatus,
         Overlay, Opcode, Disks.CylinderOf, Disks.HeadOf, Disks.SectorOf, Volume.Mounted;
  }

  lemma ManageSpares(s: System, k: Key, junk: Junk, a: nat)
    requires s.Shape() && DeviceKey(k) && (Loads(s, k) ==> Regs(s, k).data0 != a)
    ensures Manage(s, k, junk).hw.BlockAt(a) == s.hw.BlockAt(a)
  {
    hide Tapes.Manage, Disks.Manage, Opcode, Hw.BlockAt;
    match k.kind
    case TAPE => TapeLoads(s.tapes[k.code], s.hw, k.code, junk[k.code], a);
    case DISK => DiskLoads(s.disks[k.code], s.hw, k.code, a);
    case PRINTER => PrinterLoads(s.printers[k.code], s.hw, k.code, a);
  }

  lemma PrinterLoads(p: Printers.Printer, hw: Hw, i: nat, a: nat)
    requires hw.Shape()
    ensures Printers.Manage(p, hw, i).1.BlockAt(a) == hw.BlockAt(a)
  {
  }

  lemma SameLoads(s: System, r: System, k: Key)
    requires s.Shape() && r.Shape() && DeviceKey(k) && SameDevice(s, r, k)
    ensures Loads(r, k) == Loads(s, k) && Regs(r, k) == Regs(s, k)
  {
  }

  /** A turn leaves the reads of the other devices as they were. */
  lemma TurnKeepsUndisputed(s: System, junk: Junk, k: Key, a: nat, now: nat)
    requires Inv(s) && s.hw.pending != [] && Undisputed(s, k, a, now)
    ensures Undisputed(Turn(s, junk), k, a, now)
  {
    var q, r := s.hw.pending, Turn(s, junk);
    var h := q[0].key;
    assert q[0] in q;
    assert DeviceOk(s, h);
    SameDeviceMeans(s, Pop(s), h);
    ManageEffect(Pop(s), h, junk);
    forall e | e in r.hw.pending && e.time < now && e.key != k && DeviceKey(e.key) && Loads(r, e.key)
      ensures Regs(r, e.key).data0 != a
    {
      assert e in q;
      if e.key != h {
        SameLoads(Pop(s), r, e.key);
        SameLoads(s, Pop(s), e.key);
      }
    }
    hide Manage;
  }

  lemma {:induction false} DrainSpares(s: System, now: nat, junk: Junk, k: Key, a: nat)
    requires Inv(s) && DeviceKey(k) && Undisputed(s, k, a, now) && !Busy(s, k)
    ensures Drain(s, now, junk).hw.BlockAt(a) == s.hw.BlockAt(a)
    decreases |s.hw.pending|
  {
    var q := s.hw.pending;
    if q != [] && q[0].time < now {
      TurnSpares(s, now, junk, k, a);
      TurnKeepsUndisputed(s, junk, k, a, now);
      TurnKeepsInv(s, now, junk);
      TurnOnDevice(s, now, junk, k);
      StaysIdle(s, Turn(s, junk), now, k);
      hide Inv, Undisputed, Manage, Drained;
      DrainSpares(Turn(s, junk), now, junk, k, a);
    }
  }

  lemma StaysIdle(s: System, r: System, now: nat, k: Key)
    requires Drained(s, r, now, k) && !Busy(s, k)
    ensures !Busy(r, k) && SameDevice(s, r, k)
  {
    SameDeviceMeans(s, r, k);
  }

  lemma TurnSpares(s: System, now: nat, junk: Junk, k: Key, a: nat)
    requires Inv(s) && s.hw.pending != [] && s.hw.pending[0].time < now && DeviceKey(k)
    requires Undisputed(s, k, a, now) && (!Busy(s, k) || s.hw.pending[0].key != k)
    ensures Turn(s, junk).hw.BlockAt(a) == s.hw.BlockAt(a)
  {
    var h := s.hw.pending[0].key;
    assert s.hw.pending[0] in s.hw.pending;
    SameLoads(s, Pop(s), h);
    ManageSpares(Pop(s), h, junk, a);
    hide Manage;
  }
}
