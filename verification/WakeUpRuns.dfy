/** Wake-ups over all runs from start-up: exactly when all are on time. */
module WakeUpRuns {
  import opened Arithmetic
  import opened Bytes
  import opened TimerQueue
  import opened Fat32
  import opened Hardware
  import opened Interrupts
  import opened Effects
  import opened Invariants
  import opened DiskGeometry
  import opened DiskCommands
  import opened WakeUp
  import opened StartUp
  import Tapes
  import Disks

  /** The disk's two longest ways fit: the seek to the last cylinder and the wait for the last sector. */
  predicate MovesFit(freq: nat, d: Disks.Disk) {
    Fits(freq, d.sectors * Disks.SectorMicroseconds(d.rpm, d.sectors)) && Fits(freq, d.cylinders * d.seekTime)
  }

  ghost predicate AllMovesFit(s: System)
    requires s.Shape()
  {
    forall i :: 0 <= i < MAX_DEVICES && Installed(s, Key(DISK, i)) ==> MovesFit(s.hw.freq, s.disks[i])
  }

  // ----- When the ways fit -----

  lemma TapesFit(freq: nat)
    requires freq < TWO_TO_THE_32
    ensures Fits(freq, Tapes.TAPE_DELAY)
  {
  }

  function Slowest(s: System): nat
    requires s.Shape()
  {
    Max(Max(Max(LongestMove(s.disks[0]), LongestMove(s.disks[1])),
            Max(LongestMove(s.disks[2]), LongestMove(s.disks[3]))), Tapes.TAPE_DELAY)
  }

  lemma BootDisk(v: Volume, freq: nat, tapeFiles: seq<nat>, diskFiles: seq<nat>, junk: Local, junk32: seq<Byte>, i: nat)
    requires v.Mounted() && |tapeFiles| == MAX_DEVICES && |diskFiles| == MAX_DEVICES && |junk32| == 32 && i < MAX_DEVICES
    ensures var s := Boot(v, freq, tapeFiles, diskFiles, junk, junk32);
      var d := s.disks[i];
      && s.Shape() && InGeometry(d) && !d.Busy() && d.cylinder == 0 && d.sector == 0 && d.head == 0
      && d.cylinders <= Disks.MAX_CYLINDERS && d.sectors <= Disks.MAX_SECTORS && d.seekTime < TWO_TO_THE_32
      && d.cluster == diskFiles[i]
      && (!Installed(s, Key(DISK, i)) ==> d.sectors == 0 && d.cylinders == 0)
  {
    BootInGeometry(v, diskFiles[i], LocalAfter(v, diskFiles[..i], junk32));
    hide Volume.Read, Overlay, LocalAfter, Tapes.BootAt, Tapes.Found, Disks.Found, Disks.InfoWord;
  }

  lemma MoveFits(freq: nat, d: Disks.Disk)
    ensures MovesFit(freq, d) || (d.sectors == 0 && d.cylinders == 0) ==> Fits(freq, LongestMove(d))
  {
  }

  lemma BootDiskFits(v: Volume, freq: nat, tapeFiles: seq<nat>, diskFiles: seq<nat>, junk: Local, junk32: seq<Byte>, i: nat)
    requires v.Mounted() && |tapeFiles| == MAX_DEVICES && |diskFiles| == MAX_DEVICES && |junk32| == 32 && i < MAX_DEVICES
    ensures var s := Boot(v, freq, tapeFiles, diskFiles, junk, junk32);
      s.Shape() && InGeometry(s.disks[i]) && (AllMovesFit(s) ==> Fits(freq, LongestMove(s.disks[i])))
  {
    var s := Boot(v, freq, tapeFiles, diskFiles, junk, junk32);
    BootDisk(v, freq, tapeFiles, diskFiles, junk, junk32, i);
    MoveFits(s.hw.freq, s.disks[i]);
    hide Fits, LongestMove, InGeometry, MovesFit, Tapes.BootAt, Disks.BootAt, Tapes.Found, Disks.Found, Volume.Mounted;
  }

  /** All disks fit, so the slowest delay does. */
  lemma SlowestFits(s: System, freq: nat)
    requires s.Shape() && freq < TWO_TO_THE_32
    requires forall i :: 0 <= i < MAX_DEVICES ==> InGeometry(s.disks[i]) && Fits(freq, LongestMove(s.disks[i]))
    ensures DelaysWithin(s, Slowest(s)) && Fits(freq, Slowest(s))
  {
    TapesFit(freq);
    hide Fits, LongestMove, InGeometry;
  }

  lemma BootDelays(v: Volume, freq: nat, tapeFiles: seq<nat>, diskFiles: seq<nat>, junk: Local, junk32: seq<Byte>)
    requires v.Mounted() && |tapeFiles| == MAX_DEVICES && |diskFiles| == MAX_DEVICES && |junk32| == 32
    requires freq < TWO_TO_THE_32
    ensures var s := Boot(v, freq, tapeFiles, diskFiles, junk, junk32);
      s.Shape() && (AllMovesFit(s) ==> DelaysWithin(s, Slowest(s)) && Fits(freq, Slowest(s)))
  {
    hide Boot, AllMovesFit, Slowest, DelaysWithin, Fits, LongestMove, InGeometry;
    var s := Boot(v, freq, tapeFiles, diskFiles, junk, junk32);
    BootDiskFits(v, freq, tapeFiles, diskFiles, junk, junk32, 0);
    if AllMovesFit(s) {
      forall i | 0 <= i < MAX_DEVICES
        ensures InGeometry(s.disks[i]) && Fits(freq, LongestMove(s.disks[i]))
      {
        BootDiskFits(v, freq, tapeFiles, diskFiles, junk, junk32, i);
      }
      SlowestFits(s, freq);
    }
  }

  lemma FittingStaysAwake(v: Volume, freq: nat, tapeFiles: seq<nat>, diskFiles: seq<nat>, junk: Local, junk32: seq<Byte>,
                          events: seq<Event>)
    requires v.Mounted() && |tapeFiles| == MAX_DEVICES && |diskFiles| == MAX_DEVICES && |junk32| == 32
    requires freq < TWO_TO_THE_32 && ClockRuns(events, 0)
    requires var s := Boot(v, freq, tapeFiles, diskFiles, junk, junk32); s.Shape() && AllMovesFit(s)
    ensures Awake(Run(Boot(v, freq, tapeFiles, diskFiles, junk, junk32), events).hw)
  {
    var s := Boot(v, freq, tapeFiles, diskFiles, junk, junk32);
    hide Fits, AllMovesFit, Slowest, DelaysWithin, Awake, Run, ClockRuns, Inv, Boot;
    BootDelays(v, freq, tapeFiles, diskFiles, junk, junk32);
    BootOnTime(v, freq, tapeFiles, diskFiles, junk, junk32, 0, Slowest(s));
    StaysOnTime(s, events, 0, Slowest(s));
  }

  // ----- When one does not -----

  /** A command whose delay does not fit, sent after start-up, leaves its timer pending without a wake-up. */
  lemma AskedTooLong(s: System, i: nat, word: nat, junk: Junk)
    requires s.Shape() && i < MAX_DEVICES && Installed(s, Key(DISK, i)) && !Busy(s, Key(DISK, i))
    requires s.hw.pending == [] && !s.hw.vtimer.enabled && s.hw.freq > 0
    requires Disks.TimedCommand(word) && GoodCommand(s.disks[i], word)
    requires DiskDelay(s.disks[i], word) < TWO_TO_THE_64 && !Fits(s.hw.freq, DiskDelay(s.disks[i], word))
    ensures !Awake(Run(s, Ask(i, word, junk)).hw)
  {
    hide Message, Fits, Awake, DiskDelay, CommandDelay, GoodCommand, Disks.TimedCommand, Run, Ask;
    var t := Stored(s, word);
    AskRuns(s, i, word, junk);
    MailParts(i);
    AskAccepted(s, i, word, junk);
    AloneAwakeIff(t, DiskMail(i), 0, junk);
    AwakeByQueueAndCounter(Message(t, DiskMail(i), 0, junk).hw, Run(s, Ask(i, word, junk)).hw);
  }

  lemma AskClock(i: nat, word: nat, junk: Junk)
    ensures ClockRuns(Ask(i, word, junk), 0)
  {
    var e := Ask(i, word, junk);
    assert e[..|e| - 1] == [e[0]] && [e[0]][..0] == [];
    assert ClockRuns([], 0) && ClockAfter([], 0) == 0;
    assert ClockRuns([e[0]], 0) && ClockAfter([e[0]], 0) == 0;
  }

  lemma ProductsFit(d: Disks.Disk)
    requires d.cylinders <= Disks.MAX_CYLINDERS && d.sectors <= Disks.MAX_SECTORS && d.seekTime < TWO_TO_THE_32
    ensures d.cylinders * d.seekTime < TWO_TO_THE_64
    ensures d.sectors * Disks.SectorMicroseconds(d.rpm, d.sectors) < TWO_TO_THE_64
  {
    var t := Disks.SectorMicroseconds(d.rpm, d.sectors);
    assert t <= 1000000;
    MulMono(d.cylinders, Disks.MAX_CYLINDERS, d.seekTime, d.seekTime);
    MulMono(d.sectors, Disks.MAX_SECTORS, t, t);
    hide Disks.SectorMicroseconds;
  }

  /** The command to a disk at rest at 0 that takes a way that does not fit. */
  lemma TooLong(freq: nat, d: Disks.Disk) returns (word: nat)
    requires InGeometry(d) && d.cylinder == 0 && d.sector == 0 && !MovesFit(freq, d)
    requires d.cylinders <= Disks.MAX_CYLINDERS && d.sectors <= Disks.MAX_SECTORS && d.seekTime < TWO_TO_THE_32
    ensures Disks.TimedCommand(word) && GoodCommand(d, word)
    ensures DiskDelay(d, word) < TWO_TO_THE_64 && !Fits(freq, DiskDelay(d, word))
  {
    hide Fits, DiskDelay, GoodCommand, Disks.SectorMicroseconds, SeekWord, TransferWord, Opcode, InGeometry;
    var seek, read := SeekWord(d.cylinders), TransferWord(Disks.READBLK, 0, d.sectors);
    SeekWordParts(d.cylinders);
    TransferWordParts(Disks.READBLK, 0, d.sectors);
    LongestMoveIsTaken(d, seek, read);
    ProductsFit(d);
    word := if Fits(freq, d.cylinders * d.seekTime) then read else seek;
  }

  lemma MissesFrom(s: System, i: nat) returns (events: seq<Event>)
    requires s.Shape() && i < MAX_DEVICES && Installed(s, Key(DISK, i)) && !Busy(s, Key(DISK, i))
    requires s.hw.pending == [] && !s.hw.vtimer.enabled && s.hw.freq > 0
    requires InGeometry(s.disks[i]) && s.disks[i].cylinder == 0 && s.disks[i].sector == 0
    requires s.disks[i].cylinders <= Disks.MAX_CYLINDERS && s.disks[i].sectors <= Disks.MAX_SECTORS
    requires s.disks[i].seekTime < TWO_TO_THE_32 && !MovesFit(s.hw.freq, s.disks[i])
    ensures ClockRuns(events, 0) && !Awake(Run(s, events).hw)
  {
    var d, locals: Junk := s.disks[i], [ZEROES, ZEROES, ZEROES, ZEROES];
    hide *;
    var word := TooLong(s.hw.freq, d);
    AskClock(i, word, locals);
    AskedTooLong(s, i, word, locals);
    events := Ask(i, word, locals);
  }

  lemma MissesTime(v: Volume, freq: nat, tapeFiles: seq<nat>, diskFiles: seq<nat>, junk: Local, junk32: seq<Byte>)
    returns (events: seq<Event>)
    requires v.Mounted() && |tapeFiles| == MAX_DEVICES && |diskFiles| == MAX_DEVICES && |junk32| == 32
    requires 0 < freq < TWO_TO_THE_32
    requires var s := Boot(v, freq, tapeFiles, diskFiles, junk, junk32); s.Shape() && !AllMovesFit(s)
    ensures ClockRuns(events, 0)
    ensures !Awake(Run(Boot(v, freq, tapeFiles, diskFiles, junk, junk32), events).hw)
  {
    var s := Boot(v, freq, tapeFiles, diskFiles, junk, junk32);
    BootTimers(v, freq, tapeFiles, diskFiles, junk, junk32);
    hide Boot, ClockRuns, Awake, Run, MovesFit, Volume.Mounted;
    var i: nat :| i < MAX_DEVICES && Installed(s, Key(DISK, i)) && !MovesFit(s.hw.freq, s.disks[i]);
    BootDisk(v, freq, tapeFiles, diskFiles, junk, junk32, i);
    assert !Busy(s, Key(DISK, i));
    hide *;
    events := MissesFrom(s, i);
  }

  lemma BootTimers(v: Volume, freq: nat, tapeFiles: seq<nat>, diskFiles: seq<nat>, junk: Local, junk32: seq<Byte>)
    requires v.Mounted() && |tapeFiles| == MAX_DEVICES && |diskFiles| == MAX_DEVICES && |junk32| == 32
    ensures var s := Boot(v, freq, tapeFiles, diskFiles, junk, junk32);
      s.Shape() && s.hw.pending == [] && s.hw.vtimer == VirtualTimer(false, 0, 0) && s.hw.freq == freq
  {
    hide Tapes.BootAt, Disks.BootAt, Tapes.Found, Disks.Found, Volume.Mounted;
  }

  /** From start-up, with the counter's 32-bit frequency: in every run whose clock goes on, a pending timer
      always has its wake-up set on time, if and only if for every installed disk the seek to the last cylinder
      and the wait for the last sector fit in 32 bits and their tick counts in 31. */
  lemma AwakeInEveryRunIff(v: Volume, freq: nat, tapeFiles: seq<nat>, diskFiles: seq<nat>, junk: Local, junk32: seq<Byte>)
    requires v.Mounted() && |tapeFiles| == MAX_DEVICES && |diskFiles| == MAX_DEVICES && |junk32| == 32
    requires 0 < freq < TWO_TO_THE_32
    ensures var s := Boot(v, freq, tapeFiles, diskFiles, junk, junk32);
      s.Shape() && ((forall events :: ClockRuns(events, 0) ==> Awake(Run(s, events).hw)) <==> AllMovesFit(s))
  {
    var s := Boot(v, freq, tapeFiles, diskFiles, junk, junk32);
    hide ClockRuns, Awake, Run, AllMovesFit, Boot;
    BootDelays(v, freq, tapeFiles, diskFiles, junk, junk32);
    if AllMovesFit(s) {
      forall events | ClockRuns(events, 0)
        ensures Awake(Run(s, events).hw)
      {
        FittingStaysAwake(v, freq, tapeFiles, diskFiles, junk, junk32, events);
      }
    } else {
      var events := MissesTime(v, freq, tapeFiles, diskFiles, junk, junk32);
    }
  }
}
