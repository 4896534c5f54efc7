/** Copies that leave the buffer of `fat_writefile`, over whole runs: exactly which completion makes one,
    and exactly when some run does. */
module Overruns {
  import opened Arithmetic
  import opened Bytes
  import opened TimerQueue
  import opened Fat32
  import opened Hardware
  import opened Interrupts
  import opened Effects
  import opened Invariants
  import opened RunTheorems
  import opened DiskGeometry
  import opened DiskCommands
  import opened StartUp
  import opened WakeUpRuns
  import TapeRuns
  import WakeUp
  import Tapes
  import Disks
  import Printers

  /** Device `k` is a disk about to write a block, and its first copy does not stay in the buffer. */
  predicate Leaves(s: System, k: Key)
    requires s.Shape() && DeviceKey(k)
  {
    k.kind == DISK &&
    var d := s.disks[k.code];
    && d.Busy() && d.cluster != 0 && Opcode(d.regs.command) == Disks.WRITEBLK
    && !s.hw.volume.WriteStays(d.cluster, Disks.AtBlock(d).BlockStart(), BLOCKSIZE)
  }

  lemma DiskLeaves(d: Disks.Disk, hw: Hw, i: nat)
    requires hw.Shape()
    ensures Disks.Manage(d, hw, i).1.overrun
      == (hw.overrun || (d.Busy() && d.cluster != 0 && Opcode(d.regs.command) == Disks.WRITEBLK
                         && !hw.volume.WriteStays(d.cluster, Disks.AtBlock(d).BlockStart(), BLOCKSIZE)))
  {
    hide Volume.Read, Volume.Write, Volume.WriteStays, Volume.Written, Disks.Disk.BlockStart, Overlay, Opcode,
         Disks.CylinderOf, Disks.HeadOf, Disks.SectorOf;
  }

  lemma TapeStays(t: Tapes.Tape, hw: Hw, i: nat, junk: Local)
    requires hw.Shape()
    ensures Tapes.Manage(t, hw, i, junk).1.overrun == hw.overrun
  {
    hide Tapes.NextBlock, Tapes.PrevBlock, Tapes.UpdateHead, Volume.Read, Overlay, Tapes.BlockStart;
  }

  /** A copy leaves the buffer in the completion of such a write and in no other. */
  lemma LeavesExactly(s: System, k: Key, junk: Junk)
    requires s.Shape() && DeviceKey(k)
    ensures Manage(s, k, junk).hw.overrun == (s.hw.overrun || Leaves(s, k))
  {
    hide Tapes.Manage, Disks.Manage, Volume.WriteStays, Disks.Disk.BlockStart, Opcode;
    match k.kind
    case TAPE => TapeStays(s.tapes[k.code], s.hw, k.code, junk[k.code]);
    case DISK => DiskLeaves(s.disks[k.code], s.hw, k.code);
    case PRINTER =>
  }

  // ----- Volumes and disks on which none does -----

  ghost predicate QuietDisk(v: Volume, d: Disks.Disk) {
    v.spc <= 4 || d.regs.status == DEVICE_NOT_INSTALLED || !Live(d.cluster)
  }

  ghost predicate Quiet(s: System) {
    && s.Shape() && !s.hw.overrun
    && forall i :: 0 <= i < MAX_DEVICES ==> QuietDisk(s.hw.volume, s.disks[i])
  }

  lemma NoClusterStays(v: Volume, c: nat, seek: nat, length: nat)
    requires v.Mounted() && (v.spc <= 4 || !Live(c))
    ensures v.WriteStays(c, seek, length)
  {
  }

  lemma QuietManage(s: System, k: Key, junk: Junk)
    requires Quiet(s)
    ensures Quiet(Manage(s, k, junk))
  {
    if DeviceKey(k) {
      LeavesExactly(s, k, junk);
      QuietVolume(s, k, junk);
      if k.kind == DISK {
        var d := s.disks[k.code];
        assert QuietDisk(s.hw.volume, d);
        if d.Busy() {
          NoClusterStays(s.hw.volume, d.cluster, Disks.AtBlock(d).BlockStart(), BLOCKSIZE);
        }
      }
      hide Tapes.Manage, Disks.Manage, Volume.WriteStays, Disks.Disk.BlockStart, Opcode;
    }
  }

  lemma QuietVolume(s: System, k: Key, junk: Junk)
    requires s.Shape() && DeviceKey(k)
    ensures var r := Manage(s, k, junk);
      && r.hw.volume == s.hw.volume.(bytes := r.hw.volume.bytes)
      && (forall i :: 0 <= i < MAX_DEVICES ==> r.disks[i].cluster == s.disks[i].cluster)
      && (forall i :: 0 <= i < MAX_DEVICES && s.disks[i].regs.status == DEVICE_NOT_INSTALLED ==> r.disks[i] == s.disks[i])
  {
    if k.kind == DISK {
      var wrote, seek, data := TapeRuns.DiskWrites(s.disks[k.code], s.hw, k.code);
      NotInstalledStays(s.disks[k.code], s.hw, k.code);
    } else if k.kind == TAPE {
      TapeRuns.TapeKeepsVolume(s.tapes[k.code], s.hw, k.code, junk[k.code]);
    }
    hide Tapes.Manage, Disks.Manage, Volume.Write;
  }

  lemma NotInstalledStays(d: Disks.Disk, hw: Hw, i: nat)
    requires hw.Shape()
    ensures d.regs.status == DEVICE_NOT_INSTALLED ==> Disks.Manage(d, hw, i) == (d, hw)
  {
  }

  lemma {:induction false} QuietDrain(s: System, now: nat, junk: Junk)
    requires Quiet(s)
    ensures Quiet(Drain(s, now, junk))
    decreases |s.hw.pending|
  {
    var q := s.hw.pending;
    if q != [] && q[0].time < now {
      assert Quiet(Pop(s));
      QuietManage(Pop(s), q[0].key, junk);
      hide Manage, Quiet;
      QuietDrain(Turn(s, junk), now, junk);
    }
  }

  lemma QuietMessage(s: System, word: nat, now: nat, junk: Junk)
    requires Quiet(s)
    ensures Quiet(Message(s, word, now, junk))
  {
    var i, a := DeviceOf(word), AddressOf(word);
    MessageEffect(s, word, now, junk);
    assert QuietDisk(s.hw.volume, s.disks[i]);
    TapeRuns.DiskMailboxKeepsFile(s.disks[i], s.hw, i, a, now);
    DiskStaysInstalled(s.disks[i], s.hw, i, a, now);
    hide Tapes.Mailbox, Disks.Mailbox, Printers.Mailbox, OnlyBit, ArmedIf, RegistersMove;
  }

  lemma QuietStep(s: System, e: Event)
    requires Quiet(s)
    ensures Quiet(Step(s, e))
  {
    if e.TakeFiq? {
      if MailboxPending(e.source) {
        QuietMessage(s, e.word, e.now, e.junk);
      }
      var m := Middle(s, e);
      assert Quiet(m);
      QuietDrain(m, e.later, e.junk);
      hide Message, Drain;
    }
  }

  /** On clusters of at most 2 KiB, and for disks without a cluster of their own, no run leaves a buffer. */
  lemma {:induction false} QuietForever(s: System, events: seq<Event>)
    requires Quiet(s)
    ensures Quiet(Run(s, events))
    decreases |events|
  {
    if events != [] {
      QuietForever(s, events[..|events| - 1]);
      QuietStep(Run(s, events[..|events| - 1]), events[|events| - 1]);
    }
  }

  /** There, a tape stays on its file in every run. */
  lemma TapeStaysWhereQuiet(s: System, events: seq<Event>, i: nat, ch: seq<nat>, f: seq<Byte>, n: nat, own: seq<seq<nat>>)
    requires Inv(s) && TapeRuns.TapeWorld(s, i, ch, f, n, own) && Quiet(s)
    ensures TapeRuns.TapeWorld(Run(s, events), i, ch, f, n, own)
  {
    hide Quiet, Run, TapeRuns.TapeWorld;
    TapeRuns.TapeStaysOnTape(s, events, i, ch, f, n, own);
    QuietForever(s, events);
    QuietMeans(Run(s, events));
  }

  lemma QuietMeans(s: System)
    requires Quiet(s)
    ensures !s.hw.overrun
  {
  }

  // ----- A run in which one does -----

  /** Send a command, then let its timer expire. */
  function AskAndExpire(i: nat, word: nat, junk: Junk): seq<Event> {
    Ask(i, word, junk) + [TakeFiq(0x08, 0, 0, 1, junk)]
  }

  /** The word of a write of head 0 and sector 0. */
  lemma FirstBlockWord() returns (word: nat)
    ensures FirstBlock(word)
  {
    TransferWordParts(Disks.WRITEBLK, 0, 0);
    word := TransferWord(Disks.WRITEBLK, 0, 0);
  }

  lemma NoDelay(d: Disks.Disk, word: nat)
    requires d.cylinder == 0 && d.sector == 0 && FirstBlock(word)
    ensures DiskDelay(d, word) == 0
  {
    hide Disks.SectorMicroseconds;
  }

  lemma FirstBlockLeaves(v: Volume, d: Disks.Disk)
    requires v.Mounted() && v.spc == 8 && v.Present(d.cluster) && d.cylinder == 0
    requires Disks.HeadOf(d.regs.command) == 0 && Disks.SectorOf(d.regs.command) == 0
    ensures !v.WriteStays(d.cluster, Disks.AtBlock(d).BlockStart(), BLOCKSIZE)
  {
    HeaderFirst(Disks.AtBlock(d));
    assert v.ClusterSize() == 4096 && v.Walk(d.cluster, 0) == d.cluster;
    QuotientIs(28, 4096, 0, 28);
    hide Disks.Disk.BlockStart, Disks.AtBlock, Disks.HeadOf, Disks.SectorOf, Volume.Walk, Volume.Mounted, Volume.ClusterSize;
  }

  lemma HeaderFirst(d: Disks.Disk)
    requires d.head == d.cylinder == d.sector == 0
    ensures d.BlockStart() == 28
  {
  }

  /** Asking an idle disk, with nothing queued, for a command without delay leaves its timer queued alone. */
  lemma AskedNow(s: System, i: nat, word: nat, junk: Junk)
    requires Inv(s) && i < MAX_DEVICES && Installed(s, Key(DISK, i)) && !Busy(s, Key(DISK, i)) && s.hw.pending == []
    requires Disks.TimedCommand(word) && GoodCommand(s.disks[i], word) && DiskDelay(s.disks[i], word) == 0
    ensures var r := Run(s, Ask(i, word, junk));
      && r == Message(Stored(s, word), DiskMail(i), 0, junk) && Inv(r)
  {
    hide *;
    var t, w := Stored(s, word), DiskMail(i);
    StoredIsMemory(s, word);
    var m := Message(t, w, 0, junk);
    AskRuns(s, i, word, junk);
    SameButMemoryKeepsInv(s, t);
    MessageKeepsInv(t, w, 0, junk);
    CleanDoesNothing(m);
  }

  lemma StoredIsMemory(s: System, word: nat)
    requires Inv(s)
    ensures s.Shape() && Stored(s, word).Shape() && SameButMemory(s, Stored(s, word))
  {
  }

  lemma AskedQueue(t: System, w: nat, k: Key, junk: Junk)
    requires t.Shape() && t.hw.pending == [] && AddressOf(w) != NULL && Target(w) == k && DeviceKey(k)
    requires Accepted(t, Message(t, w, 0, junk), k) && CommandDelay(t, w) == 0
    ensures var m := Message(t, w, 0, junk); m.hw.pending == [Entry(0, k)] && m.hw.volume == t.hw.volume
  {
    hide Message, CommandDelay, RegistersMove, OnlyBit, Accepted;
    MessageEffect(t, w, 0, junk);
    WakeUp.AloneInQueue(t.hw, Entry(0, k), 0);
  }

  lemma LeavesNow(r: System, i: nat, word: nat)
    requires r.Shape() && i < MAX_DEVICES
    requires var d := r.disks[i]; d.Busy() && d.regs.command == word && d.cylinder == 0 && Present8(r.hw.volume, d.cluster)
    requires FirstBlock(word)
    ensures Leaves(r, Key(DISK, i))
  {
    FirstBlockLeaves(r.hw.volume, r.disks[i]);
    hide Volume.WriteStays, Disks.AtBlock, Opcode, Disks.SectorOf, Disks.HeadOf;
  }

  predicate FirstBlock(word: nat) {
    Opcode(word) == Disks.WRITEBLK && Disks.SectorOf(word) == 0 && Disks.HeadOf(word) == 0
  }

  /** Between asking and expiry: the disk is busy with the write, and its timer is the only one. */
  lemma AskedToWrite(s: System, i: nat, word: nat, junk: Junk)
    requires Inv(s) && i < MAX_DEVICES && Installed(s, Key(DISK, i)) && !Busy(s, Key(DISK, i)) && s.hw.pending == []
    requires var d := s.disks[i]; d.cylinder == 0 && d.sector == 0 && InGeometry(d) && Present8(s.hw.volume, d.cluster)
    requires FirstBlock(word)
    ensures var r := Run(s, Ask(i, word, junk));
      && Inv(r) && r.hw.pending == [Entry(0, Key(DISK, i))] && Leaves(r, Key(DISK, i))
  {
    var t, w, d, k := Stored(s, word), DiskMail(i), s.disks[i], Key(DISK, i);
    hide *;
    StoredIsMemory(s, word);
    WriteIsGood(d, word);
    NoDelay(d, word);
    AskedNow(s, i, word, junk);
    MailParts(i);
    AskAccepted(s, i, word, junk);
    AskedQueue(t, w, k, junk);
    LeavesNow(Message(t, w, 0, junk), i, word);
  }

  predicate Present8(v: Volume, c: nat) {
    v.Mounted() && v.spc == 8 && v.Present(c)
  }

  lemma WriteIsGood(d: Disks.Disk, word: nat)
    requires FirstBlock(word)
    ensures Disks.TimedCommand(word) && GoodCommand(d, word)
  {
  }

  lemma FirstBlockOverruns(s: System, i: nat, word: nat, junk: Junk)
    requires Inv(s) && i < MAX_DEVICES && Installed(s, Key(DISK, i)) && !Busy(s, Key(DISK, i)) && s.hw.pending == []
    requires var d := s.disks[i]; d.cylinder == 0 && d.sector == 0 && InGeometry(d) && Present8(s.hw.volume, d.cluster)
    requires FirstBlock(word)
    ensures Run(s, AskAndExpire(i, word, junk)).hw.overrun
  {
    var asked, e := Ask(i, word, junk), TakeFiq(0x08, 0, 0, 1, junk);
    assert AskAndExpire(i, word, junk) == asked + [e];
    assert s.Shape() && DeviceKey(Key(DISK, i));
    hide *;
    AskedToWrite(s, i, word, junk);
    ExpiryOverruns(Run(s, asked), i, junk);
    NextSent(s, asked, e, Key(DISK, i));
  }

  lemma ExpiryOverruns(s: System, i: nat, junk: Junk)
    requires s.Shape() && i < MAX_DEVICES && s.hw.pending == [Entry(0, Key(DISK, i))] && Leaves(s, Key(DISK, i))
    ensures Step(s, TakeFiq(0x08, 0, 0, 1, junk)).hw.overrun
  {
    hide Manage, Leaves;
    var t := Turn(s, junk);
    assert Leaves(Pop(s), Key(DISK, i)) by {
      LeavesIgnoresQueue(s, Pop(s), Key(DISK, i));
    }
    LeavesExactly(Pop(s), Key(DISK, i), junk);
    assert Drain(t, 1, junk) == t;
    assert Drain(s, 1, junk) == t;
  }

  lemma LeavesIgnoresQueue(s: System, r: System, k: Key)
    requires s.Shape() && DeviceKey(k) && r == s.(hw := s.hw.(pending := r.hw.pending))
    ensures r.Shape() && (Leaves(r, k) <==> Leaves(s, k))
  {
  }

  lemma OneRunOverruns(v: Volume, freq: nat, tapeFiles: seq<nat>, diskFiles: seq<nat>, junk: Local, junk32: seq<Byte>, i: nat)
    requires v.Mounted() && |tapeFiles| == MAX_DEVICES && |diskFiles| == MAX_DEVICES && |junk32| == 32
    requires i < MAX_DEVICES && v.spc == 8 && v.Present(diskFiles[i])
    requires Installed(Boot(v, freq, tapeFiles, diskFiles, junk, junk32), Key(DISK, i))
    ensures exists events :: Run(Boot(v, freq, tapeFiles, diskFiles, junk, junk32), events).hw.overrun
  {
    var s := Boot(v, freq, tapeFiles, diskFiles, junk, junk32);
    var locals: Junk := [ZEROES, ZEROES, ZEROES, ZEROES];
    BootInv(v, freq, tapeFiles, diskFiles, junk, junk32);
    BootVolume(v, freq, tapeFiles, diskFiles, junk, junk32);
    BootDisk(v, freq, tapeFiles, diskFiles, junk, junk32, i);
    assert !Busy(s, Key(DISK, i)) && Present8(v, diskFiles[i]);
    hide *;
    var word := FirstBlockWord();
    FirstBlockOverruns(s, i, word, locals);
  }

  lemma NoRunOverruns(v: Volume, freq: nat, tapeFiles: seq<nat>, diskFiles: seq<nat>, junk: Local, junk32: seq<Byte>)
    requires v.Mounted() && |tapeFiles| == MAX_DEVICES && |diskFiles| == MAX_DEVICES && |junk32| == 32
    requires v.spc <= 4 || forall i :: 0 <= i < MAX_DEVICES && Live(diskFiles[i]) ==>
      !Installed(Boot(v, freq, tapeFiles, diskFiles, junk, junk32), Key(DISK, i))
    ensures forall events :: !Run(Boot(v, freq, tapeFiles, diskFiles, junk, junk32), events).hw.overrun
  {
    var s := Boot(v, freq, tapeFiles, diskFiles, junk, junk32);
    hide Run, Boot, InGeometry, Volume.Mounted, Live;
    BootVolume(v, freq, tapeFiles, diskFiles, junk, junk32);
    forall i | 0 <= i < MAX_DEVICES
      ensures QuietDisk(v, s.disks[i])
    {
      BootDisk(v, freq, tapeFiles, diskFiles, junk, junk32, i);
    }
    assert Quiet(s);
    forall events
      ensures !Run(s, events).hw.overrun
    {
      hide *;
      QuietForever(s, events);
      QuietMeans(Run(s, events));
    }
  }

  /** From start-up on a volume of the standard's cluster sizes, with the first cluster of every disk file
      on the card: some run leaves the buffer if and only if clusters have 4 KiB and a disk is installed
      that has a cluster. */
  lemma SomeRunOverrunsIff(v: Volume, freq: nat, tapeFiles: seq<nat>, diskFiles: seq<nat>, junk: Local, junk32: seq<Byte>)
    requires v.Mounted() && |tapeFiles| == MAX_DEVICES && |diskFiles| == MAX_DEVICES && |junk32| == 32
    requires v.spc in {1, 2, 4, 8} && forall i :: 0 <= i < MAX_DEVICES && Live(diskFiles[i]) ==> v.Present(diskFiles[i])
    ensures var s := Boot(v, freq, tapeFiles, diskFiles, junk, junk32);
      && s.Shape()
      && ((exists events :: Run(s, events).hw.overrun)
          <==> v.spc == 8 && exists i :: 0 <= i < MAX_DEVICES && Installed(s, Key(DISK, i)) && Live(diskFiles[i]))
  {
    var s := Boot(v, freq, tapeFiles, diskFiles, junk, junk32);
    BootVolume(v, freq, tapeFiles, diskFiles, junk, junk32);
    hide Run, Boot, Volume.Mounted, Volume.Present, Live;
    if i: nat :| i < MAX_DEVICES && v.spc == 8 && Installed(s, Key(DISK, i)) && Live(diskFiles[i]) {
      OneRunOverruns(v, freq, tapeFiles, diskFiles, junk, junk32, i);
    } else {
      NoRunOverruns(v, freq, tapeFiles, diskFiles, junk, junk32);
    }
  }

  lemma BootVolume(v: Volume, freq: nat, tapeFiles: seq<nat>, diskFiles: seq<nat>, junk: Local, junk32: seq<Byte>)
    requires v.Mounted() && |tapeFiles| == MAX_DEVICES && |diskFiles| == MAX_DEVICES && |junk32| == 32
    ensures var s := Boot(v, freq, tapeFiles, diskFiles, junk, junk32);
      s.Shape() && s.hw.volume == v && !s.hw.overrun && s.hw.pending == []
  {
    hide Tapes.BootAt, Disks.BootAt, Tapes.Found, Disks.Found;
  }
}
