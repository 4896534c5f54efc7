/** What a disk's file holds over whole runs: it changes only when the disk completes a WRITEBLK, and then as
    `fat_writefile` changes it at the place of the head. */
module DiskFiles {
  import opened Bytes
  import opened TimerQueue
  import opened Fat32
  import opened FatChains
  import opened FatWrites
  import opened FatTheorems
  import opened Hardware
  import opened Interrupts
  import opened Effects
  import opened Invariants
  import opened RunTheorems
  import opened Completions
  import opened TapeRuns
  import opened DiskBlocks
  import opened DiskReads
  import opened Overruns
  import Disks

  // ----- The bytes of a file after a write -----

  /** A file after `fat_writefile` at `seek`, which is `start` bytes into a cluster of `size` bytes: that cluster
      takes what fits of the first `size` bytes of data, and the rest of the file the bytes from `size` on.
      The bytes between are lost. */
  function WrittenFile(f: seq<Byte>, seek: nat, start: nat, size: nat, data: seq<Byte>): seq<Byte>
    requires start <= seek && start < size
  {
    if seek >= |f| || data == [] then f
    else
      var a, n := seek - start, Min(size, |data|);
      var e := Min(a + size, |f|);
      f[..a] + Overlay(f[a..e], start, data[..n]) + Overlay(f[e..], 0, data[n..])
  }

  /** A write that starts in the part `first`. */
  lemma WrittenParts(head: seq<Byte>, first: seq<Byte>, rest: seq<Byte>, seek: nat, start: nat, data: seq<Byte>)
    requires seek == |head| + start && start < |first| && data != []
    ensures var n := Min(|first|, |data|);
      WrittenFile(head + (first + rest), seek, start, |first|, data)
      == head + (Overlay(first, start, data[..n]) + Overlay(rest, 0, data[n..]))
  {
    PartsOf(head, first, rest);
    var n := Min(|first|, |data|);
    Associates(head, Overlay(first, start, data[..n]), Overlay(rest, 0, data[n..]));
    hide Overlay;
  }

  lemma Associates(a: seq<Byte>, b: seq<Byte>, c: seq<Byte>)
    ensures a + b + c == a + (b + c)
  {
  }

  lemma PartsOf(head: seq<Byte>, first: seq<Byte>, rest: seq<Byte>)
    ensures var f, a, e := head + (first + rest), |head|, |head| + |first|;
      f[..a] == head && f[a..e] == first && f[e..] == rest
  {
  }

  lemma OffsetBelow(v: Volume, seek: nat)
    requires v.Mounted()
    ensures v.ClusterOffset(seek) <= seek && v.ClusterOffset(seek) < v.ClusterSize()
    ensures seek - v.ClusterOffset(seek) == v.ClusterIndex(seek) * v.ClusterSize()
  {
    SeekSplit(v, seek);
  }

  lemma SplitAt(f: seq<Byte>, a: nat)
    requires a <= |f|
    ensures f == f[..a] + f[a..]
  {
  }

  /** `fat_writefile` on the bytes of the file, for every write that stays in its buffer. */
  lemma FileAfterWrite(v: Volume, c: nat, ch: seq<nat>, seek: nat, data: seq<Byte>)
    requires v.Mounted() && v.IsChain(c, ch) && v.AllPresent(ch) && v.WriteStays(c, seek, |data|)
    ensures v.ClusterOffset(seek) <= seek
    ensures var w := v.Write(c, seek, data);
      w.AllPresent(ch)
      && w.Contents(ch) == WrittenFile(v.Contents(ch), seek, v.ClusterOffset(seek), v.ClusterSize(), data)
  {
    hide *;
    OffsetBelow(v, seek);
    PastTheEnd(v, c, ch, seek);
    if v.ClusterIndex(seek) < |ch| && data != [] {
      FileWrittenInside(v, c, ch, seek, data);
    } else {
      FileUntouched(v, c, ch, seek, data);
    }
  }

  lemma FileUntouched(v: Volume, c: nat, ch: seq<nat>, seek: nat, data: seq<Byte>)
    requires v.Mounted() && v.IsChain(c, ch) && v.AllPresent(ch) && v.WriteStays(c, seek, |data|)
    requires v.ClusterIndex(seek) >= |ch| || data == []
    ensures v.ClusterOffset(seek) <= seek && v.Write(c, seek, data) == v
    ensures v.Contents(ch) == WrittenFile(v.Contents(ch), seek, v.ClusterOffset(seek), v.ClusterSize(), data)
  {
    hide Volume.WriteFrom, Volume.IsChain, Volume.Tail, Volume.StaysInBuffer, Overlay;
    OffsetBelow(v, seek);
    PastTheEnd(v, c, ch, seek);
    WriteFromStep(v, c, ch, v.ClusterIndex(seek), v.ClusterOffset(seek), data);
  }

  lemma WriteIsFrom(v: Volume, c: nat, seek: nat, data: seq<Byte>)
    requires v.Mounted()
    ensures v.Write(c, seek, data) == v.WriteFrom(c, v.ClusterIndex(seek), v.ClusterOffset(seek), data)
  {
  }

  lemma FileWrittenInside(v: Volume, c: nat, ch: seq<nat>, seek: nat, data: seq<Byte>)
    requires v.Mounted() && v.IsChain(c, ch) && v.AllPresent(ch) && v.WriteStays(c, seek, |data|)
    requires v.ClusterIndex(seek) < |ch| && data != []
    ensures v.ClusterOffset(seek) <= seek
    ensures var w := v.Write(c, seek, data);
      w.AllPresent(ch)
      && w.Contents(ch) == WrittenFile(v.Contents(ch), seek, v.ClusterOffset(seek), v.ClusterSize(), data)
  {
    hide *;
    var k, start, f := v.ClusterIndex(seek), v.ClusterOffset(seek), v.Contents(ch);
    var w := v.Write(c, seek, data);
    OffsetBelow(v, seek);
    FirstTurn(v, c, seek, |data|);
    WriteIsFrom(v, c, seek, data);
    PastTheEnd(v, c, ch, seek);
    WriteSplitsFile(v, c, ch, k, start, data);
    WriteExact(v, c, ch, k, start, data);
    TailSplits(v, ch, k);
    TailSplits(w, ch, k);
    SplitAt(f, k * v.ClusterSize());
    SplitAt(w.Contents(ch), k * v.ClusterSize());
    WrittenParts(f[..k * v.ClusterSize()], v.Cluster(ch[k]), v.Tail(ch, k + 1), seek, start, data);
  }

  // ----- The disk's own turn -----

  predicate Writing(d: Disks.Disk) {
    Opcode(d.regs.command) == Disks.WRITEBLK
  }

  /** The file position that disk `d` is about to transfer at. */
  function Target(d: Disks.Disk): nat {
    PlaceStart(d.cylinders, d.sectors, PlaceAfter(d))
  }

  /** The file is as after a write of the program's block where the head goes. */
  ghost predicate BlockWritten(s: System, r: System, j: nat, ch: seq<nat>)
    requires s.Shape() && r.Shape() && j < MAX_DEVICES && s.hw.volume.AllPresent(ch) && r.hw.volume.AllPresent(ch)
  {
    var d, v := s.disks[j], s.hw.volume;
    var at := Target(d);
    v.ClusterOffset(at) <= at
    && FileOf(r, ch) == WrittenFile(FileOf(s, ch), at, v.ClusterOffset(at), v.ClusterSize(), s.hw.BlockAt(d.regs.data0))
  }

  lemma OwnVolume(d: Disks.Disk, hw: Hw, i: nat)
    requires hw.Shape() && d.Busy() && Disks.TimedCommand(d.regs.command) && d.cluster != 0
    ensures Disks.Manage(d, hw, i).1.volume
         == if Writing(d) then hw.volume.Write(d.cluster, Target(d), hw.BlockAt(d.regs.data0)) else hw.volume
    ensures Writing(d) && !hw.volume.WriteStays(d.cluster, Target(d), BLOCKSIZE) ==> Disks.Manage(d, hw, i).1.overrun
  {
    BlockStartIsNumber(Disks.AtBlock(d));
    hide Volume.Read, Volume.Write, Volume.WriteStays, Volume.Written, Overlay, Disks.Disk.BlockStart, PlaceStart,
         Opcode, Disks.HeadOf, Disks.SectorOf, Disks.CylinderOf;
  }

  lemma OwnTurnFile(s: System, junk: Junk, j: nat, ch: seq<nat>, own: seq<seq<nat>>)
    requires DiskKept(s, j, ch, own) && s.hw.pending != [] && s.hw.pending[0].key == DiskKey(j)
    requires s.disks[j].Busy() && Disks.TimedCommand(s.disks[j].regs.command)
    ensures var r := Turn(s, junk);
      DiskKept(r, j, ch, own) && r.hw.volume.AllPresent(ch)
      && (r.hw.overrun || if Writing(s.disks[j]) then BlockWritten(s, r, j, ch) else FileOf(r, ch) == FileOf(s, ch))
  {
    var d, v := s.disks[j], s.hw.volume;
    PopKeepsDisk(s, DiskKey(j), j, ch, own);
    OwnTurnKeepsDisk(Pop(s), junk, j, ch, own);
    DiskKeptMeans(Turn(s, junk), j, ch, own);
    OwnVolume(d, Pop(s).hw, j);
    if Writing(d) && v.WriteStays(d.cluster, Target(d), BLOCKSIZE) {
      FileAfterWrite(v, d.cluster, ch, Target(d), s.hw.BlockAt(d.regs.data0));
    }
    hide Disks.Manage, Volume.Write, Volume.WriteStays, Volume.IsChain, WrittenFile, Target, Apart, Writing, Volume.Tail,
         Disks.TimedCommand, Volume.ClusterOffset;
  }

  // ----- Drains -----

  lemma {:induction false} OverrunStays(s: System, now: nat, junk: Junk)
    requires Inv(s) && s.hw.overrun
    ensures Drain(s, now, junk).hw.overrun
    decreases |s.hw.pending|
  {
    var q := s.hw.pending;
    if q != [] && q[0].time < now {
      assert q[0] in q;
      TurnKeepsInv(s, now, junk);
      LeavesExactly(Pop(s), q[0].key, junk);
      hide Inv, Manage, Leaves;
      OverrunStays(Turn(s, junk), now, junk);
    }
  }

  /** A drain leaves the file of an idle disk alone. */
  lemma {:induction false} DrainKeepsFile(s: System, now: nat, junk: Junk, j: nat, ch: seq<nat>, own: seq<seq<nat>>)
    requires Inv(s) && DiskKept(s, j, ch, own) && !s.disks[j].Busy()
    ensures var r := Drain(s, now, junk); DiskKept(r, j, ch, own) && FileOf(r, ch) == FileOf(s, ch)
    decreases |s.hw.pending|
  {
    var q := s.hw.pending;
    if q != [] && q[0].time < now {
      TurnKeepsInv(s, now, junk);
      DiskKeptMeans(s, j, ch, own);
      if q[0].key == DiskKey(j) {
        IdleTurn(s, junk, j, ch, own);
      } else {
        OthersTurn(s, now, junk, j, ch, own);
      }
      hide Inv, DiskKept, Manage, FileOf;
      DrainKeepsFile(Turn(s, junk), now, junk, j, ch, own);
    }
  }

  lemma IdleTurn(s: System, junk: Junk, j: nat, ch: seq<nat>, own: seq<seq<nat>>)
    requires DiskKept(s, j, ch, own) && s.hw.pending != [] && s.hw.pending[0].key == DiskKey(j) && !s.disks[j].Busy()
    ensures var r := Turn(s, junk);
      DiskKept(r, j, ch, own) && FileOf(r, ch) == FileOf(s, ch) && !r.disks[j].Busy()
  {
    PopKeepsDisk(s, DiskKey(j), j, ch, own);
    ManageEffect(Pop(s), DiskKey(j), junk);
    hide DiskKept, Manage, FileOf;
  }

  /** What a drain does to the file of a busy disk. */
  ghost predicate FileDrained(s: System, r: System, j: nat, ch: seq<nat>, now: nat)
    requires s.Shape() && r.Shape() && j < MAX_DEVICES && s.hw.volume.AllPresent(ch) && r.hw.volume.AllPresent(ch)
  {
    var d := s.disks[j];
    if !r.disks[j].Busy() && Writing(d)
    then Undisputed(s, DiskKey(j), d.regs.data0, now) ==> BlockWritten(s, r, j, ch)
    else FileOf(r, ch) == FileOf(s, ch)
  }

  lemma OwnFileDrain(s: System, now: nat, junk: Junk, j: nat, ch: seq<nat>, own: seq<seq<nat>>)
    requires Inv(s) && DiskKept(s, j, ch, own)
    requires s.hw.pending != [] && s.hw.pending[0].time < now && s.hw.pending[0].key == DiskKey(j)
    requires Inv(Turn(s, junk))
    requires s.disks[j].Busy() && Disks.TimedCommand(s.disks[j].regs.command)
    ensures var r := Drain(s, now, junk);
      DiskKept(r, j, ch, own) && (r.hw.overrun || FileDrained(s, r, j, ch, now))
  {
    var k, t, r := DiskKey(j), Turn(s, junk), Drain(s, now, junk);
    DiskKeptMeans(s, j, ch, own);
    OwnTurnFile(s, junk, j, ch, own);
    OwnDiskTurn(s, junk, j, ch, own);
    EndedStays(s, t, t, j, ch);
    DrainKeepsFile(t, now, junk, j, ch, own);
    DiskKeptMeans(r, j, ch, own);
    DrainEffect(t, now, junk, k);
    StaysIdle(t, r, now, k);
    if t.hw.overrun {
      OverrunStays(t, now, junk);
    }
    hide Inv, Manage, DiskKept, Drained, Ended, BlockLoaded, Undisputed, WrittenFile, FileOf, Target, Writing,
         Volume.ClusterOffset, Disks.TimedCommand;
  }

  lemma SameFiles(s: System, t: System, r: System, j: nat, ch: seq<nat>)
    requires s.Shape() && t.Shape() && r.Shape() && j < MAX_DEVICES && t.disks[j] == s.disks[j]
    requires s.hw.volume.AllPresent(ch) && t.hw.volume.AllPresent(ch) && r.hw.volume.AllPresent(ch)
    requires FileOf(t, ch) == FileOf(s, ch) && t.hw.volume.spc == s.hw.volume.spc
    ensures t.hw.BlockAt(s.disks[j].regs.data0) == s.hw.BlockAt(s.disks[j].regs.data0) ==>
      BlockWritten(t, r, j, ch) == BlockWritten(s, r, j, ch)
  {
    SameOffsets(s.hw.volume, t.hw.volume, Target(s.disks[j]));
    hide FileOf, WrittenFile, Target, Volume.ClusterOffset;
  }

  lemma SameOffsets(v: Volume, w: Volume, seek: nat)
    requires v.Mounted() && w.Mounted() && w.spc == v.spc
    ensures w.ClusterSize() == v.ClusterSize() && w.ClusterOffset(seek) == v.ClusterOffset(seek)
  {
  }

  lemma TurnKeepsSpc(s: System, k: Key, junk: Junk)
    requires s.Shape() && DeviceKey(k)
    ensures Manage(s, k, junk).hw.volume.spc == s.hw.volume.spc
  {
    QuietVolume(s, k, junk);
    hide Manage;
  }

  lemma {:induction false} DrainFile(s: System, now: nat, junk: Junk, j: nat, ch: seq<nat>, own: seq<seq<nat>>)
    requires Inv(s) && DiskKept(s, j, ch, own) && s.disks[j].Busy()
    ensures var r := Drain(s, now, junk);
      DiskKept(r, j, ch, own) && (r.hw.overrun || FileDrained(s, r, j, ch, now))
    decreases |s.hw.pending|
  {
    var q := s.hw.pending;
    assert DeviceOk(s, DiskKey(j));
    assert Disks.TimedCommand(s.disks[j].regs.command);
    if q != [] && q[0].time < now {
      TurnKeepsInv(s, now, junk);
      if q[0].key == DiskKey(j) {
        OwnFileDrain(s, now, junk, j, ch, own);
      } else {
        OthersFileDrain(s, now, junk, j, ch, own);
      }
    }
    hide Inv, DiskKept, Manage, Drain, FileDrained;
  }

  lemma OthersFileDrain(s: System, now: nat, junk: Junk, j: nat, ch: seq<nat>, own: seq<seq<nat>>)
    requires Inv(s) && DiskKept(s, j, ch, own) && s.disks[j].Busy()
    requires s.hw.pending != [] && s.hw.pending[0].time < now && s.hw.pending[0].key != DiskKey(j)
    ensures var r := Drain(s, now, junk);
      DiskKept(r, j, ch, own) && (r.hw.overrun || FileDrained(s, r, j, ch, now))
    decreases |s.hw.pending|, 0
  {
    var t, a, r := Turn(s, junk), s.disks[j].regs.data0, Drain(s, now, junk);
    assert s.hw.pending[0] in s.hw.pending;
    DiskKeptMeans(s, j, ch, own);
    OthersTurn(s, now, junk, j, ch, own);
    DiskKeptMeans(t, j, ch, own);
    TurnKeepsInv(s, now, junk);
    TurnKeepsSpc(Pop(s), s.hw.pending[0].key, junk);
    hide *;
    DrainUnfolds(s, now, junk);
    DrainFile(t, now, junk, j, ch, own);
    DiskKeptMeans(r, j, ch, own);
    if Undisputed(s, DiskKey(j), a, now) {
      TurnKeepsUndisputed(s, junk, DiskKey(j), a, now);
      TurnSpares(s, now, junk, DiskKey(j), a);
    }
    if !r.hw.overrun {
      SameFileDrained(s, t, r, j, ch, now);
    }
  }

  /** A turn that leaves the disk, its file and the block it writes alone can be taken out of the drain. */
  lemma SameFileDrained(s: System, t: System, r: System, j: nat, ch: seq<nat>, now: nat)
    requires s.Shape() && t.Shape() && r.Shape() && j < MAX_DEVICES && t.disks[j] == s.disks[j]
    requires s.hw.volume.AllPresent(ch) && t.hw.volume.AllPresent(ch) && r.hw.volume.AllPresent(ch)
    requires FileOf(t, ch) == FileOf(s, ch) && t.hw.volume.spc == s.hw.volume.spc
    requires var a := s.disks[j].regs.data0;
      Undisputed(s, DiskKey(j), a, now) ==> Undisputed(t, DiskKey(j), a, now) && t.hw.BlockAt(a) == s.hw.BlockAt(a)
    requires FileDrained(t, r, j, ch, now)
    ensures FileDrained(s, r, j, ch, now)
  {
    SameFiles(s, t, r, j, ch);
    hide BlockWritten, FileOf, Undisputed, Writing;
  }

  // ----- Events -----

  /** The file changes in the event only if the disk completes a WRITEBLK, and then as that write changes it. */
  ghost predicate FileChanges(b: System, e: Event, j: nat, ch: seq<nat>)
    requires b.Shape() && j < MAX_DEVICES && b.hw.volume.AllPresent(ch)
    requires Middle(b, e).hw.volume.AllPresent(ch) && Step(b, e).hw.volume.AllPresent(ch)
  {
    var m, r := Middle(b, e), Step(b, e);
    if Completes(b, e, DiskKey(j)) && Writing(m.disks[j])
    then Undisputed(m, DiskKey(j), m.disks[j].regs.data0, e.later) ==> BlockWritten(m, r, j, ch)
    else FileOf(r, ch) == FileOf(b, ch)
  }

  lemma StepFile(b: System, e: Event, j: nat, ch: seq<nat>, own: seq<seq<nat>>)
    requires Inv(b) && DiskKept(b, j, ch, own)
    ensures b.hw.volume.AllPresent(ch) && Middle(b, e).hw.volume.AllPresent(ch) && Step(b, e).hw.volume.AllPresent(ch)
    ensures Step(b, e).hw.overrun || FileChanges(b, e, j, ch)
  {
    var m, d, r := Middle(b, e), Managed(b, e), Step(b, e);
    MiddleKeepsInv(b, e);
    MiddleKeepsDisk(b, e, j, ch, own);
    StepKeepsDisk(b, e, j, ch, own);
    DiskKeptMeans(b, j, ch, own);
    DiskKeptMeans(m, j, ch, own);
    DiskKeptMeans(r, j, ch, own);
    Ending(b, e);
    assert r.disks == d.disks && r.hw.volume == d.hw.volume && r.hw.overrun == d.hw.overrun;
    hide Inv, DiskKept, Middle, Step, Drain, SameButMemory, FileDrained, FileChanges;
    if Drains(e) {
      if m.disks[j].Busy() {
        DrainFile(m, e.later, e.junk, j, ch, own);
      } else {
        DrainKeepsFile(m, e.later, e.junk, j, ch, own);
      }
    }
    if !r.hw.overrun {
      ManagedFile(b, e, j, ch);
    }
  }

  lemma ManagedFile(b: System, e: Event, j: nat, ch: seq<nat>)
    requires b.Shape() && j < MAX_DEVICES && b.hw.volume.AllPresent(ch)
    requires Middle(b, e).hw.volume.AllPresent(ch) && Managed(b, e).hw.volume.AllPresent(ch)
    requires var m, d, r := Middle(b, e), Managed(b, e), Step(b, e);
      && r.disks == d.disks && r.hw.volume == d.hw.volume && FileOf(m, ch) == FileOf(b, ch)
      && if Drains(e) && m.disks[j].Busy() then FileDrained(m, d, j, ch, e.later) else FileOf(d, ch) == FileOf(m, ch)
    ensures Step(b, e).hw.volume.AllPresent(ch) && FileChanges(b, e, j, ch)
  {
    hide Middle, Step, Drain, Undisputed, Writing, WrittenFile, Target, Volume.ClusterOffset;
  }

  // ----- The theorem -----

  /** Over every run from a state in which disk `j` is idle, with the files of installed disks apart: the disk's
      file changes only in events that complete a WRITEBLK of this disk, and such a completion puts the block
      at the address sent with the command at the place of the head, 28 bytes of header and then the blocks
      by number, as `fat_writefile` writes it; unless a read to that address ends in the same FIQ, or a disk
      write has left its buffer. */
  lemma FileChangesOnlyByWrites(s: System, events: seq<Event>, e: Event, j: nat, ch: seq<nat>, own: seq<seq<nat>>)
    requires Inv(s) && DiskKept(s, j, ch, own) && !s.disks[j].Busy()
    ensures Run(s, events).hw.volume.AllPresent(ch) && Step(Run(s, events), e).hw.volume.AllPresent(ch)
    ensures var b, all, k := Run(s, events), events + [e], DiskKey(j);
      var m, r, sent := Middle(b, e), Step(b, e), LastSent(s, all, k);
      var v, at := m.hw.volume, PlaceStart(m.disks[j].cylinders, m.disks[j].sectors, HeadPlace(s, all, j));
      r.hw.overrun ||
      if Completes(b, e, k) && Opcode(sent.command) == Disks.WRITEBLK then
        Undisputed(m, k, sent.data0, e.later) ==>
          && v.ClusterOffset(at) <= at
          && FileOf(r, ch) == WrittenFile(FileOf(b, ch), at, v.ClusterOffset(at), v.ClusterSize(), m.hw.BlockAt(sent.data0))
      else FileOf(r, ch) == FileOf(b, ch)
  {
    var b, all, k := Run(s, events), events + [e], DiskKey(j);
    assert j < MAX_DEVICES && s.Shape();
    hide *;
    RunKeepsInv(s, events);
    RunKeepsDisk(s, events, j, ch, own);
    RunKeepsDiskState(s, events, j, ch, own);
    RunKeepsDiskState(s, all, j, ch, own);
    StepFile(b, e, j, ch, own);
    KeyIsDevice(b, j);
    MiddlePlaces(b, e, j);
    MiddleSent(s, events, e, j);
    NextSent(s, events, e, k);
    StatePlace(s, all, j);
    if Completes(b, e, k) {
      CompletionEnds(b, e, j, ch, own);
    }
    if !Step(b, e).hw.overrun {
      ChangesAtPlace(s, events, e, j, ch);
    }
  }

  lemma ChangesAtPlace(s: System, events: seq<Event>, e: Event, j: nat, ch: seq<nat>)
    requires s.Shape() && j < MAX_DEVICES && MiddleState(s, events, e, j)
    requires var b := Run(s, events);
      var m, r := Middle(b, e), Step(b, e);
      && m.hw.volume.AllPresent(ch) && b.hw.volume.AllPresent(ch) && r.hw.volume.AllPresent(ch)
      && FileChanges(b, e, j, ch)
      && PlaceOf(r.disks[j]) == HeadPlace(s, events + [e], j)
      && (Completes(b, e, DiskKey(j)) ==> FileOf(m, ch) == FileOf(b, ch) && Ended(m, r, j))
    ensures var b, all, k := Run(s, events), events + [e], DiskKey(j);
      var m, r, sent := Middle(b, e), Step(b, e), LastSent(s, all, k);
      var v, at := m.hw.volume, PlaceStart(m.disks[j].cylinders, m.disks[j].sectors, HeadPlace(s, all, j));
      if Completes(b, e, k) && Opcode(sent.command) == Disks.WRITEBLK then
        Undisputed(m, k, sent.data0, e.later) ==>
          && v.ClusterOffset(at) <= at
          && FileOf(r, ch) == WrittenFile(FileOf(b, ch), at, v.ClusterOffset(at), v.ClusterSize(), m.hw.BlockAt(sent.data0))
      else FileOf(r, ch) == FileOf(b, ch)
  {
    hide Run, Middle, Step, LastSent, Undisputed, FileOf, PlaceStart, PlaceAfter, PlaceOf, Opcode, WrittenFile, HeadPlace,
         Volume.ClusterOffset;
  }
}
