/** The drain loop takes off exactly the expired timers, and manages their devices once each, in order
    of deadlines, timers of equal deadline in the order they were armed. */
module DrainTheorems {
  import opened Bytes
  import opened TimerQueue
  import opened Fat32
  import opened Hardware
  import opened Interrupts
  import opened Invariants
  import Tapes
  import Disks

  function Expired(q: seq<Entry>, now: nat): seq<Entry> {
    Filter(q, (e: Entry) => e.time < now)
  }

  function Remaining(q: seq<Entry>, now: nat): seq<Entry> {
    Filter(q, (e: Entry) => e.time >= now)
  }

  /** Manages the devices of the timers, first to last. */
  function ManageAll(s: System, q: seq<Entry>, junk: Junk): (r: System)
    requires s.Shape()
    ensures r.Shape()
    decreases |q|
  {
    if q == [] then s else ManageAll(Manage(s, q[0].key, junk), q[1..], junk)
  }

  function WithQueue(s: System, q: seq<Entry>): System {
    s.(hw := s.hw.(pending := q))
  }

  lemma TapeReadIgnoresQueue(t: Tapes.Tape, hw: Hw, q: seq<Entry>)
    requires hw.Shape()
    ensures var a, b := Tapes.ReadBlock(t, hw), Tapes.ReadBlock(t, hw.(pending := q)); b == (a.0, a.1.(pending := q))
  {
    hide Volume.Read, Overlay, Tapes.BlockStart, Volume.Mounted;
  }

  lemma TapeAfterReadIgnoresQueue(t: Tapes.Tape, hw: Hw, i: nat, r: int, junk: Local, q: seq<Entry>)
    requires hw.Shape()
    ensures var a, b := Tapes.AfterRead(t, hw, i, r, junk), Tapes.AfterRead(t, hw.(pending := q), i, r, junk);
      b == (a.0, a.1.(pending := q))
  {
    hide Tapes.UpdateHead, Tapes.Complete, Volume.Mounted;
    if r >= 0 {
      var (res, t') := Tapes.UpdateHead(Tapes.Forward(t), hw.volume, junk);
      TapeEndIgnoresQueue(t', hw, i, if res < 0 then READ_ERROR else DEVICE_READY, q);
    }
  }

  lemma TapeEndIgnoresQueue(t: Tapes.Tape, hw: Hw, i: nat, status: nat, q: seq<Entry>)
    requires hw.Shape()
    ensures var a, b := Tapes.Complete(t, hw, i, status), Tapes.Complete(t, hw.(pending := q), i, status);
      b == (a.0, a.1.(pending := q))
  {
  }

  lemma TapeIgnoresQueue(t: Tapes.Tape, hw: Hw, i: nat, junk: Local, q: seq<Entry>)
    requires hw.Shape()
    ensures var a, b := Tapes.Manage(t, hw, i, junk), Tapes.Manage(t, hw.(pending := q), i, junk);
      b == (a.0, a.1.(pending := q))
  {
    hide Tapes.NextBlock, Tapes.PrevBlock, Tapes.ReadBlock, Tapes.AfterRead, Tapes.Complete;
    if t.Busy() && t.regs.command == Tapes.SKIPBLK {
      var (res, t') := Tapes.NextBlock(t, hw.volume, junk);
      TapeEndIgnoresQueue(t', hw, i, if res < 0 then Tapes.SKIP_ERROR else DEVICE_READY, q);
    } else if t.Busy() && t.regs.command == Tapes.BACKBLK {
      var (res, t') := Tapes.PrevBlock(t, hw.volume, junk);
      TapeEndIgnoresQueue(t', hw, i, if res < 0 then Tapes.BACK_BLOCK_ERROR else DEVICE_READY, q);
    } else {
      var (r, hw') := Tapes.ReadBlock(t, hw);
      TapeReadIgnoresQueue(t, hw, q);
      TapeAfterReadIgnoresQueue(t, hw', i, r, junk, q);
    }
  }

  lemma DiskTransferIgnoresQueue(d: Disks.Disk, hw: Hw, i: nat, r: int, error: nat, q: seq<Entry>)
    requires hw.Shape()
    ensures var a, b := Disks.AfterTransfer(d, hw, i, r, error), Disks.AfterTransfer(d, hw.(pending := q), i, r, error);
      b == (a.0, a.1.(pending := q))
  {
  }

  lemma DiskReadIgnoresQueue(d: Disks.Disk, hw: Hw, i: nat, q: seq<Entry>)
    requires hw.Shape()
    ensures var a, b := Disks.RunRead(d, hw, i), Disks.RunRead(d, hw.(pending := q), i); b == (a.0, a.1.(pending := q))
  {
    hide Disks.AfterTransfer, Volume.Read, Disks.Disk.BlockStart, Overlay, Volume.Mounted;
    var (r, hw') := Disks.ReadBlock(d, hw);
    DiskTransferIgnoresQueue(d, hw', i, r, READ_ERROR, q);
  }

  lemma DiskWriteIgnoresQueue(d: Disks.Disk, hw: Hw, i: nat, q: seq<Entry>)
    requires hw.Shape()
    ensures var a, b := Disks.RunWrite(d, hw, i), Disks.RunWrite(d, hw.(pending := q), i); b == (a.0, a.1.(pending := q))
  {
    hide Disks.AfterTransfer, Volume.Write, Volume.WriteStays, Volume.Written, Disks.Disk.BlockStart;
    var (r, hw') := Disks.WriteBlock(d, hw);
    DiskTransferIgnoresQueue(d, hw', i, r, Disks.WRITE_ERROR, q);
  }

  lemma DiskSeekIgnoresQueue(d: Disks.Disk, hw: Hw, i: nat, q: seq<Entry>)
    requires hw.Shape()
    ensures var a, b := Disks.Complete(d, hw, i), Disks.Complete(d, hw.(pending := q), i);
      b == (a.0, a.1.(pending := q))
  {
  }

  lemma DiskIgnoresQueue(d: Disks.Disk, hw: Hw, i: nat, q: seq<Entry>)
    requires hw.Shape()
    ensures var a, b := Disks.Manage(d, hw, i), Disks.Manage(d, hw.(pending := q), i);
      b == (a.0, a.1.(pending := q))
  {
    hide Disks.RunRead, Disks.RunWrite, Disks.AtBlock, Disks.Complete, Opcode, Disks.CylinderOf;
    DiskReadIgnoresQueue(Disks.AtBlock(d), hw, i, q);
    DiskWriteIgnoresQueue(Disks.AtBlock(d), hw, i, q);
    DiskSeekIgnoresQueue(d.(cylinder := Disks.CylinderOf(d.regs.command)), hw, i, q);
  }

  lemma ManageIgnoresQueue(s: System, k: Key, junk: Junk, q: seq<Entry>)
    requires s.Shape()
    ensures Manage(WithQueue(s, q), k, junk) == WithQueue(Manage(s, k, junk), q)
  {
    if DeviceKey(k) {
      hide Tapes.Manage, Disks.Manage;
      match k.kind
      case TAPE => TapeIgnoresQueue(s.tapes[k.code], s.hw, k.code, junk[k.code], q);
      case DISK => DiskIgnoresQueue(s.disks[k.code], s.hw, k.code, q);
      case PRINTER =>
    }
  }

  lemma FilterFirst(q: seq<Entry>, p: Entry -> bool)
    requires q != []
    ensures Filter(q, p) == (if p(q[0]) then [q[0]] else []) + Filter(q[1..], p)
  {
    assert q == [q[0]] + q[1..];
    FilterAppend([q[0]], q[1..], p);
    FilterSingle(q[0], p);
  }

  lemma SortedSplit(q: seq<Entry>, now: nat)
    requires Sorted(q) && q != []
    ensures q[0].time < now ==>
      Expired(q, now) == [q[0]] + Expired(q[1..], now) && Remaining(q, now) == Remaining(q[1..], now)
    ensures q[0].time >= now ==> Expired(q, now) == [] && Remaining(q, now) == q
  {
    var early, late := (e: Entry) => e.time < now, (e: Entry) => e.time >= now;
    FilterFirst(q, early);
    FilterFirst(q, late);
    if q[0].time >= now {
      AllLate(q, now);
      FilterNone(q, early);
      FilterAll(q, late);
    }
  }

  lemma AllLate(q: seq<Entry>, now: nat)
    requires Sorted(q) && q != [] && q[0].time >= now
    ensures forall e :: e in q ==> e.time >= now
  {
    forall e | e in q
      ensures e.time >= now
    {
      var i :| 0 <= i < |q| && q[i] == e;
      assert q[0].time <= q[i].time;
    }
  }

  lemma FilterSingle(e: Entry, p: Entry -> bool)
    ensures Filter([e], p) == if p(e) then [e] else []
  {
    assert [e][..0] == [];
  }

  /** Draining is managing the expired timers' devices in queue order, with the others left queued. */
  lemma {:induction false} DrainIsInOrder(s: System, now: nat, junk: Junk)
    requires s.Shape() && Sorted(s.hw.pending)
    ensures Drain(s, now, junk) == WithQueue(ManageAll(s, Expired(s.hw.pending, now), junk), Remaining(s.hw.pending, now))
    decreases |s.hw.pending|
  {
    var q := s.hw.pending;
    if q != [] {
      SortedSplit(q, now);
    }
    if q != [] && q[0].time < now {
      var t, m := Turn(s, junk), Manage(s, q[0].key, junk);
      ManageIgnoresQueue(s, q[0].key, junk, q[1..]);
      DrainIsInOrder(t, now, junk);
      ManageAllIgnoresQueue(m, Expired(q[1..], now), junk, q[1..]);
      hide Manage, Expired, Remaining;
      assert ([q[0]] + Expired(q[1..], now))[1..] == Expired(q[1..], now);
    }
  }

  lemma {:induction false} ManageAllIgnoresQueue(s: System, todo: seq<Entry>, junk: Junk, q: seq<Entry>)
    requires s.Shape()
    ensures ManageAll(WithQueue(s, q), todo, junk) == WithQueue(ManageAll(s, todo, junk), q)
    decreases |todo|
  {
    if todo != [] {
      ManageIgnoresQueue(s, todo[0].key, junk, q);
      ManageAllIgnoresQueue(Manage(s, todo[0].key, junk), todo[1..], junk, q);
    }
  }

  /** What stays queued is what was queued and has not expired. */
  lemma DrainedQueue(s: System, now: nat, junk: Junk)
    requires s.Shape() && Sorted(s.hw.pending)
    ensures var q := Drain(s, now, junk).hw.pending;
      q == Remaining(s.hw.pending, now) && forall e :: e in q <==> e in s.hw.pending && e.time >= now
  {
    DrainIsInOrder(s, now, junk);
    FilterMembers(s.hw.pending, (e: Entry) => e.time >= now);
  }
}
