/** Lost wake-ups: a pending timer with the counter stopped, or set too late.  A wake-up that comes early is
    repeated by the handler; one that is lost never comes. */
module LostWakeUps {
  import opened Arithmetic
  import opened Bytes
  import opened TimerQueue
  import opened Fat32
  import opened Hardware
  import opened Interrupts
  import opened Effects
  import opened Invariants
  import opened RunTheorems
  import opened DiskGeometry
  import opened DiskCommands
  import opened TimeOfDay
  import opened WakeUp
  import opened WakeUpRuns
  import opened StartUp
  import DrainTheorems
  import Tapes
  import Disks
  import Printers

  /** The counter runs and fires no later than `head`. */
  predicate InTime(v: VirtualTimer, freq: nat, head: nat) {
    v.enabled && v.FiresAfter() * 1000000 <= freq * Gap(head, v.setAt)
  }

  /** A pending timer has a wake-up that does not come too late. */
  predicate NotLost(hw: Hw) {
    hw.pending != [] ==> InTime(hw.vtimer, hw.freq, hw.pending[0].time)
  }

  // ----- One programming of the counter -----

  /** The tick count of the delay, as far as it is not cut, fits in 32 bits: the counter accepts it. */
  predicate Settable(freq: nat, us: nat) {
    Ticks(freq, us % TWO_TO_THE_32) < TWO_TO_THE_32
  }

  /** What the counter has been at any time: set in the past, to a 32-bit tick count. */
  predicate Counting(v: VirtualTimer, now: nat) {
    v.ticks < TWO_TO_THE_32 && v.setAt <= now
  }

  lemma TicksBelow(freq: nat, us: nat)
    ensures Ticks(freq, us) * 1000000 <= freq * us
  {
  }

  /** A counter that refuses a delay keeps an earlier wake-up: what it was set to has fewer ticks. */
  lemma RefusalKeepsEarlier(v: VirtualTimer, freq: nat, gap: nat, now: nat)
    requires Counting(v, now) && !Settable(freq, gap)
    ensures v.Set(freq, gap, now) == v && v.FiresAfter() * 1000000 <= freq * (now + gap - v.setAt)
  {
    var cut := gap % TWO_TO_THE_32;
    TicksBelow(freq, cut);
    MulMono(freq, freq, cut, now + gap - v.setAt);
  }

  lemma SetInTime(v: VirtualTimer, freq: nat, head: nat, now: nat)
    requires Counting(v, now) && (v.enabled || Settable(freq, Gap(head, now)))
    ensures var w := v.Set(freq, Gap(head, now), now); InTime(w, freq, head) && Counting(w, now)
  {
    var gap := Gap(head, now);
    if Settable(freq, gap) {
      TicksBelow(freq, gap % TWO_TO_THE_32);
      MulMono(freq, freq, gap % TWO_TO_THE_32, gap);
    } else {
      RefusalKeepsEarlier(v, freq, gap, now);
      NothingIsSettable(freq);
    }
    hide Ticks;
  }

  lemma NothingIsSettable(freq: nat)
    ensures Settable(freq, 0)
  {
  }

  // ----- The delays that occur -----

  function SeekTime(d: Disks.Disk, cylinders: nat): nat {
    cylinders * d.seekTime
  }

  function WaitTime(d: Disks.Disk, sectors: nat): nat {
    sectors * Disks.SectorMicroseconds(d.rpm, d.sectors)
  }

  /** Every way of the disk's head within its geometry gives a delay that the counter accepts. */
  ghost predicate MovesSettable(freq: nat, d: Disks.Disk) {
    && (forall n: nat :: n <= d.cylinders ==> Settable(freq, SeekTime(d, n)))
    && (forall n: nat :: n <= d.sectors ==> Settable(freq, WaitTime(d, n)))
  }

  predicate SmallDisk(d: Disks.Disk) {
    d.cylinders <= Disks.MAX_CYLINDERS && d.sectors <= Disks.MAX_SECTORS && d.seekTime < TWO_TO_THE_32
  }

  ghost predicate DiskOk(freq: nat, d: Disks.Disk) {
    InGeometry(d) && SmallDisk(d) && MovesSettable(freq, d)
  }

  ghost predicate DelaysSettable(s: System)
    requires s.Shape()
  {
    s.hw.freq < TWO_TO_THE_32 && forall i :: 0 <= i < MAX_DEVICES ==> DiskOk(s.hw.freq, s.disks[i])
  }

  lemma SameDiskOk(freq: nat, d: Disks.Disk, e: Disks.Disk)
    requires DiskOk(freq, d) && SameGeometry(d, e) && InGeometry(e)
    ensures DiskOk(freq, e)
  {
    assert forall n :: SeekTime(e, n) == SeekTime(d, n) && WaitTime(e, n) == WaitTime(d, n);
    hide Settable, InGeometry;
  }

  lemma FixedDelaysSettable(freq: nat)
    requires freq < TWO_TO_THE_32
    ensures Settable(freq, Tapes.TAPE_DELAY) && Settable(freq, Printers.PRINT_DELAY)
  {
  }

  lemma DiskDelaySettable(freq: nat, d: Disks.Disk, word: nat)
    requires DiskOk(freq, d) && GoodCommand(d, word) && Disks.TimedCommand(word)
    ensures Settable(freq, DiskDelay(d, word)) && DiskDelay(d, word) < CLEARANCE
  {
    var n := if Opcode(word) == Disks.SEEKCYL then Disks.Distance(d.cylinder, Disks.CylinderOf(word))
             else Disks.Distance(d.sector, Disks.SectorOf(word));
    DelayInGeometry(d, word);
    LongestBelow(d);
    assert DiskDelay(d, word) == if Opcode(word) == Disks.SEEKCYL then SeekTime(d, n) else WaitTime(d, n);
    hide Settable, SeekTime, WaitTime, DiskDelay, Opcode, Disks.CylinderOf, Disks.SectorOf, Disks.HeadOf, LongestMove;
  }

  lemma LongestBelow(d: Disks.Disk)
    requires SmallDisk(d)
    ensures LongestMove(d) < CLEARANCE
  {
    var t := Disks.SectorMicroseconds(d.rpm, d.sectors);
    assert t <= 1000000;
    MulMono(d.cylinders, Disks.MAX_CYLINDERS, d.seekTime, TWO_TO_THE_32);
    MulMono(d.sectors, Disks.MAX_SECTORS, t, 1000000);
    hide Disks.SectorMicroseconds;
  }

  /** A command that is accepted has a delay that the counter accepts. */
  lemma AcceptedSettable(s: System, word: nat, now: nat, junk: Junk)
    requires s.Shape() && DelaysSettable(s) && DeviceKey(Target(word))
    requires Accepted(s, Message(s, word, now, junk), Target(word))
    ensures Settable(s.hw.freq, CommandDelay(s, word)) && CommandDelay(s, word) < CLEARANCE
  {
    FixedDelaysSettable(s.hw.freq);
    if Target(word).kind == DISK {
      var i := DeviceOf(word);
      assert DiskOk(s.hw.freq, s.disks[i]);
      AcceptedIsGood(s.disks[i], s.hw, i, AddressOf(word), now);
      DiskDelaySettable(s.hw.freq, s.disks[i], SentCommand(s, word));
    }
    hide Tapes.Mailbox, Disks.Mailbox, Printers.Mailbox, DiskDelay, GoodCommand, Settable;
  }

  lemma MessageKeepsSettable(s: System, word: nat, now: nat, junk: Junk)
    requires s.Shape() && DelaysSettable(s)
    ensures DelaysSettable(Message(s, word, now, junk))
  {
    var i := DeviceOf(word);
    MessageEffect(s, word, now, junk);
    assert DiskOk(s.hw.freq, s.disks[i]);
    MailboxKeepsGeometry(s.disks[i], s.hw, i, AddressOf(word), now);
    SameDiskOk(s.hw.freq, s.disks[i], Disks.Mailbox(s.disks[i], s.hw, i, AddressOf(word), now).0);
    hide Tapes.Mailbox, Disks.Mailbox, Printers.Mailbox, DiskOk, InGeometry, SameGeometry;
  }

  lemma TurnKeepsSettable(s: System, k: Key, junk: Junk)
    requires s.Shape() && DelaysSettable(s)
    ensures DelaysSettable(Manage(s, k, junk))
  {
    if DeviceKey(k) {
      if k.kind == DISK {
        assert DiskOk(s.hw.freq, s.disks[k.code]);
        ManageKeepsGeometry(s.disks[k.code], s.hw, k.code);
        SameDiskOk(s.hw.freq, s.disks[k.code], Disks.Manage(s.disks[k.code], s.hw, k.code).0);
      }
      ManageKeepsFrequency(s, k, junk);
    }
    hide Tapes.Manage, Disks.Manage, Printers.Manage, DiskOk, InGeometry, SameGeometry;
  }

  lemma ManageKeepsFrequency(s: System, k: Key, junk: Junk)
    requires s.Shape() && DeviceKey(k)
    ensures Manage(s, k, junk).hw.freq == s.hw.freq
  {
    match k.kind
    case TAPE => TapeFrequency(s.tapes[k.code], s.hw, k.code, junk[k.code]);
    case DISK => DiskFrequency(s.disks[k.code], s.hw, k.code);
    case PRINTER => PrinterFrequency(s.printers[k.code], s.hw, k.code);
    hide Tapes.Manage, Disks.Manage, Printers.Manage;
  }

  lemma TapeFrequency(t: Tapes.Tape, hw: Hw, i: nat, junk: Local)
    requires hw.Shape()
    ensures Tapes.Manage(t, hw, i, junk).1.freq == hw.freq
  {
    hide Tapes.NextBlock, Tapes.PrevBlock, Tapes.UpdateHead, Volume.Read, Overlay, Tapes.BlockStart;
  }

  lemma DiskFrequency(d: Disks.Disk, hw: Hw, i: nat)
    requires hw.Shape()
    ensures Disks.Manage(d, hw, i).1.freq == hw.freq
  {
    hide Volume.Read, Volume.Write, Volume.WriteStays, Volume.Written, Overlay, Disks.Disk.BlockStart,
         Disks.CylinderOf, Disks.SectorOf, Disks.HeadOf, Opcode;
  }

  lemma PrinterFrequency(p: Printers.Printer, hw: Hw, i: nat)
    requires hw.Shape()
    ensures Printers.Manage(p, hw, i).1.freq == hw.freq
  {
  }

  lemma {:induction false} DrainKeepsSettable(s: System, now: nat, junk: Junk)
    requires s.Shape() && DelaysSettable(s)
    ensures DelaysSettable(Drain(s, now, junk))
    decreases |s.hw.pending|
  {
    var q := s.hw.pending;
    if q != [] && q[0].time < now {
      TurnKeepsSettable(Pop(s), q[0].key, junk);
      DrainKeepsSettable(Turn(s, junk), now, junk);
    }
  }

  // ----- The invariant -----

  /** At clock reading `clock` the pending timers have their wake-up, and the delays to come will be accepted. */
  ghost predicate Kept(s: System, clock: nat) {
    Inv(s) && DelaysSettable(s) && Counting(s.hw.vtimer, clock) && NotLost(s.hw)
  }

  lemma Later(v: VirtualTimer, clock: nat, now: nat)
    requires Counting(v, clock) && clock <= now
    ensures Counting(v, now)
  {
  }

  /** Arming: a running counter stays in time for the first timer, and a stopped one has nothing else queued. */
  lemma ArmInTime(hw: Hw, e: Entry, delay: nat, now: nat)
    requires Counting(hw.vtimer, now) && NotLost(hw) && Settable(hw.freq, delay) && e.time == now + delay
    ensures var q := AddTimer(hw.pending, e.time, e.key);
      NotLost(hw.(pending := q, vtimer := hw.WakeFor(q, now))) && Counting(hw.WakeFor(q, now), now)
  {
    var q := AddTimer(hw.pending, e.time, e.key);
    if hw.pending == [] {
      AloneInQueue(hw, e, now);
    }
    if q != [] {
      SetInTime(hw.vtimer, hw.freq, q[0].time, now);
    }
    hide AddTimer, Settable, VirtualTimer.Set;
  }

  lemma SameWakeUp(hw: Hw, hw': Hw)
    requires hw'.pending == hw.pending && hw'.vtimer == hw.vtimer && hw'.freq == hw.freq
    ensures NotLost(hw') == NotLost(hw)
  {
  }

  lemma MessageKeeps(s: System, word: nat, now: nat, junk: Junk, clock: nat)
    requires Kept(s, clock) && clock <= now && now + CLEARANCE <= TWO_TO_THE_64
    ensures Kept(Message(s, word, now, junk), now)
  {
    var s', k := Message(s, word, now, junk), Target(word);
    MessageKeepsInv(s, word, now, junk);
    MessageKeepsSettable(s, word, now, junk);
    MessageEffect(s, word, now, junk);
    Later(s.hw.vtimer, clock, now);
    if s' != s {
      if Accepted(s, s', k) {
        AcceptedKeeps(s, word, now, junk);
      } else {
        hide Message, Inv, DelaysSettable, RegistersMove, OnlyBit, NotLost, Counting, Accepted;
        SameWakeUp(s.hw, s'.hw);
      }
    }
  }

  lemma AcceptedKeeps(s: System, word: nat, now: nat, junk: Junk)
    requires s.Shape() && DelaysSettable(s) && Counting(s.hw.vtimer, now) && NotLost(s.hw) && now + CLEARANCE <= TWO_TO_THE_64
    requires DeviceKey(Target(word)) && Message(s, word, now, junk) != s
    requires Accepted(s, Message(s, word, now, junk), Target(word))
    ensures var r := Message(s, word, now, junk); NotLost(r.hw) && Counting(r.hw.vtimer, now)
  {
    hide *;
    var r, k, d := Message(s, word, now, junk), Target(word), CommandDelay(s, word);
    AcceptedSettable(s, word, now, junk);
    ArmedMessage(s, word, now, junk);
    ArmInTime(s.hw, Entry(now + d, k), d, now);
    SameWakeUp(s.hw.(pending := r.hw.pending, vtimer := r.hw.vtimer), r.hw);
  }

  lemma ArmedMessage(s: System, word: nat, now: nat, junk: Junk)
    requires s.Shape() && DeviceKey(Target(word)) && Message(s, word, now, junk) != s
    requires CommandDelay(s, word) < CLEARANCE && now + CLEARANCE <= TWO_TO_THE_64
    requires Accepted(s, Message(s, word, now, junk), Target(word))
    ensures var r := Message(s, word, now, junk);
      && r.hw.pending == AddTimer(s.hw.pending, now + CommandDelay(s, word), Target(word))
      && r.hw.vtimer == s.hw.WakeFor(r.hw.pending, now) && r.hw.freq == s.hw.freq
  {
    hide *;
    MessageEffect(s, word, now, junk);
    DeadlineIs(s, word, now);
    DeviceArms(s, Message(s, word, now, junk), word, now);
  }

  lemma DeadlineIs(s: System, word: nat, now: nat)
    requires s.Shape() && CommandDelay(s, word) < CLEARANCE && now + CLEARANCE <= TWO_TO_THE_64
    ensures Deadline(s, word, now) == now + CommandDelay(s, word)
  {
    hide CommandDelay;
    NoWrap(now, CommandDelay(s, word));
  }

  lemma DeviceArms(s: System, r: System, word: nat, now: nat)
    requires DeviceMessage(s, r, word, now) && Accepted(s, r, Target(word))
    ensures r.hw.pending == AddTimer(s.hw.pending, Deadline(s, word, now), Target(word))
    ensures r.hw.vtimer == s.hw.WakeFor(r.hw.pending, now) && r.hw.freq == s.hw.freq
  {
    hide RegistersMove, OnlyBit, Hw.WakeFor, AddTimer, Deadline, Accepted, BitAfter, Target, SameDevice, Regs, Timed;
  }

  /** After a drain: a timer that is left was pending before, so the counter is running. */
  lemma RearmKeeps(d: System, now: nat)
    requires d.Shape() && Counting(d.hw.vtimer, now) && (d.hw.pending != [] ==> d.hw.vtimer.enabled)
    requires d.hw.pending != [] ==> d.hw.pending[0].time >= now
    ensures var r := Rearm(d, now);
      && NotLost(r.hw) && Counting(r.hw.vtimer, now)
      && r.hw.freq == d.hw.freq && r.disks == d.disks && r.hw.pending == d.hw.pending && r.Shape()
  {
    if d.hw.pending != [] {
      SetInTime(d.hw.vtimer, d.hw.freq, d.hw.pending[0].time, now);
    }
    hide Hw.PendingInterrupt, VirtualTimer.Set, Settable;
  }

  lemma SameDelays(d: System, r: System)
    requires d.Shape() && r.Shape() && r.disks == d.disks && r.hw.freq == d.hw.freq
    ensures DelaysSettable(r) == DelaysSettable(d)
  {
    hide DiskOk;
  }

  lemma ExpireKeeps(s: System, now: nat, junk: Junk, clock: nat)
    requires Kept(s, clock) && clock <= now
    ensures var r := Expire(s, now, junk);
      r.Shape() && DelaysSettable(r) && NotLost(r.hw) && Counting(r.hw.vtimer, now)
  {
    var d := Drain(s, now, junk);
    DrainTheorems.DrainedQueue(s, now, junk);
    DrainKeepsSettable(s, now, junk);
    DrainEffect(s, now, junk, Key(TAPE, 0));
    DrainLeavesLater(s, now, junk);
    Later(s.hw.vtimer, clock, now);
    assert d.hw.pending != [] ==> d.hw.pending[0] in s.hw.pending;
    hide Drain, Inv, Drained, Rearm, DelaysSettable, Counting;
    RearmKeeps(d, now);
    SameDelays(d, Rearm(d, now));
  }

  lemma StepKeeps(s: System, e: Event, clock: nat)
    requires Kept(s, clock) && ClockGoesOn(e, clock)
    ensures Kept(Step(s, e), if e.TakeFiq? then e.later else clock)
  {
    StepKeepsInv(s, e);
    if e.TakeFiq? {
      MiddleKeeps(s, e, clock);
      if Drains(e) {
        DrainingStep(s, e);
      } else {
        OtherStep(s, e);
      }
    } else {
      MemoryStep(s, e, clock);
    }
    hide Inv, DelaysSettable, Step, Counting;
  }

  lemma MiddleKeeps(s: System, e: Event, clock: nat)
    requires Kept(s, clock) && ClockGoesOn(e, clock) && e.TakeFiq?
    ensures Kept(Middle(s, e), e.now)
  {
    hide Inv, DelaysSettable, Message, NotLost;
    if MailboxPending(e.source) {
      MessageKeeps(s, e.word, e.now, e.junk, clock);
    }
  }

  lemma DrainingStep(s: System, e: Event)
    requires s.Shape() && Drains(e) && Kept(Middle(s, e), e.now) && e.now <= e.later
    ensures var r := Step(s, e); DelaysSettable(r) && NotLost(r.hw) && Counting(r.hw.vtimer, e.later)
  {
    var x := Expire(Middle(s, e), e.later, e.junk);
    ExpireKeeps(Middle(s, e), e.later, e.junk, e.now);
    hide Message, Kept, Expire, DelaysSettable, Counting, NotLost;
    SameWakeUp(x.hw, Step(s, e).hw);
    SameDelays(x, Step(s, e));
  }

  lemma OtherStep(s: System, e: Event)
    requires s.Shape() && e.TakeFiq? && !Drains(e) && Kept(Middle(s, e), e.now) && e.now <= e.later
    ensures var r := Step(s, e); DelaysSettable(r) && NotLost(r.hw) && Counting(r.hw.vtimer, e.later)
  {
    var m := Middle(s, e);
    hide Message, DelaysSettable, NotLost, Inv;
    SameWakeUp(m.hw, Step(s, e).hw);
    SameDelays(m, Step(s, e));
  }

  lemma MemoryStep(s: System, e: Event, clock: nat)
    requires Kept(s, clock) && !e.TakeFiq?
    ensures var r := Step(s, e); DelaysSettable(r) && NotLost(r.hw) && Counting(r.hw.vtimer, clock)
  {
    assert s.Shape();
    hide DelaysSettable, NotLost, Inv;
    SameWakeUp(s.hw, Step(s, e).hw);
    SameDelays(s, Step(s, e));
  }

  lemma {:induction false} RunKeeps(s: System, events: seq<Event>, clock: nat)
    requires Kept(s, clock) && ClockRuns(events, clock)
    ensures Kept(Run(s, events), ClockAfter(events, clock))
    decreases |events|
  {
    if events != [] {
      var before := events[..|events| - 1];
      RunKeeps(s, before, clock);
      StepKeeps(Run(s, before), events[|events| - 1], ClockAfter(before, clock));
      hide Kept, Step;
    }
  }

  // ----- A run that loses one -----

  /** A delay that the counter refuses, accepted with the counter stopped and nothing queued, leaves it
      stopped. */
  lemma MessageUnset(t: System, w: nat, junk: Junk)
    requires t.Shape() && t.hw.pending == [] && t.hw.vtimer == VirtualTimer(false, 0, 0)
    requires AddressOf(w) != NULL && DeviceKey(Target(w)) && Accepted(t, Message(t, w, 0, junk), Target(w))
    requires CommandDelay(t, w) < TWO_TO_THE_64 && !Settable(t.hw.freq, CommandDelay(t, w))
    ensures var m := Message(t, w, 0, junk); m.hw.pending != [] && !m.hw.vtimer.enabled
  {
    hide Message, CommandDelay, RegistersMove, OnlyBit, AddTimer, Settable, VirtualTimer.Set;
    var us := CommandDelay(t, w);
    MessageEffect(t, w, 0, junk);
    NoWrap(0, us);
    AloneInQueue(t.hw, Entry(us, Target(w)), 0);
    RefusalKeepsEarlier(t.hw.vtimer, t.hw.freq, us, 0);
  }

  lemma AskedUnset(s: System, i: nat, word: nat, junk: Junk)
    requires s.Shape() && i < MAX_DEVICES && Installed(s, Key(DISK, i)) && !Busy(s, Key(DISK, i))
    requires s.hw.pending == [] && s.hw.vtimer == VirtualTimer(false, 0, 0)
    requires Disks.TimedCommand(word) && GoodCommand(s.disks[i], word)
    requires DiskDelay(s.disks[i], word) < TWO_TO_THE_64 && !Settable(s.hw.freq, DiskDelay(s.disks[i], word))
    ensures !NotLost(Run(s, Ask(i, word, junk)).hw)
  {
    var t, w := Stored(s, word), DiskMail(i);
    AskRuns(s, i, word, junk);
    AskAccepted(s, i, word, junk);
    MailParts(i);
    CleanKeepsWakeUp(Message(t, w, 0, junk).hw);
    hide Message, DiskDelay, CommandDelay, GoodCommand, Disks.TimedCommand, Run, Ask, Settable, Hw.CleanLines, DiskMail, Accepted;
    MessageUnset(t, w, junk);
  }

  lemma CleanKeepsWakeUp(hw: Hw)
    requires hw.Shape()
    ensures hw.pending != [] && !hw.vtimer.enabled ==> !NotLost(hw.CleanLines())
  {
  }

  /** The command to a disk at rest at 0 whose delay the counter refuses. */
  lemma Unsettable(freq: nat, d: Disks.Disk) returns (word: nat)
    requires InGeometry(d) && d.cylinder == 0 && d.sector == 0 && SmallDisk(d) && !MovesSettable(freq, d)
    ensures Disks.TimedCommand(word) && GoodCommand(d, word)
    ensures DiskDelay(d, word) < TWO_TO_THE_64 && !Settable(freq, DiskDelay(d, word))
  {
    if n: nat :| n <= d.cylinders && !Settable(freq, SeekTime(d, n)) {
      word := SeekWord(n);
      SeekWordParts(n);
      SeekFromRest(d, word, n);
    } else {
      var n: nat :| n <= d.sectors && !Settable(freq, WaitTime(d, n));
      word := TransferWord(Disks.READBLK, 0, n);
      TransferWordParts(Disks.READBLK, 0, n);
      WaitFromRest(d, word, n);
    }
    hide Settable, DiskDelay, GoodCommand, SeekWord, TransferWord, Opcode, InGeometry, SeekTime, WaitTime, Disks.TimedCommand;
  }

  lemma SeekFromRest(d: Disks.Disk, word: nat, n: nat)
    requires d.cylinder == 0 && d.sector == 0 && SmallDisk(d) && InGeometry(d) && n <= d.cylinders
    requires Opcode(word) == Disks.SEEKCYL && Disks.CylinderOf(word) == n
    ensures Disks.TimedCommand(word) && GoodCommand(d, word) && DiskDelay(d, word) == SeekTime(d, n) < TWO_TO_THE_64
  {
    hide Disks.SectorMicroseconds, Opcode, Disks.CylinderOf, Disks.SectorOf, Disks.HeadOf, LongestMove;
    DelayInGeometry(d, word);
    LongestBelow(d);
  }

  lemma WaitFromRest(d: Disks.Disk, word: nat, n: nat)
    requires d.cylinder == 0 && d.sector == 0 && SmallDisk(d) && InGeometry(d) && n <= d.sectors
    requires Opcode(word) == Disks.READBLK && Disks.SectorOf(word) == n && Disks.HeadOf(word) == 0
    ensures Disks.TimedCommand(word) && GoodCommand(d, word) && DiskDelay(d, word) == WaitTime(d, n) < TWO_TO_THE_64
  {
    hide Disks.SectorMicroseconds, Opcode, Disks.CylinderOf, Disks.SectorOf, Disks.HeadOf, LongestMove;
    DelayInGeometry(d, word);
    LongestBelow(d);
  }

  // ----- All runs from start-up -----

  ghost predicate AllMovesSettable(s: System)
    requires s.Shape()
  {
    forall i :: 0 <= i < MAX_DEVICES && Installed(s, Key(DISK, i)) ==> MovesSettable(s.hw.freq, s.disks[i])
  }

  lemma NoMoves(freq: nat, d: Disks.Disk)
    requires d.sectors == 0 && d.cylinders == 0
    ensures MovesSettable(freq, d)
  {
  }

  lemma BootDiskOk(v: Volume, freq: nat, tapeFiles: seq<nat>, diskFiles: seq<nat>, junk: Local, junk32: seq<Byte>, i: nat)
    requires v.Mounted() && |tapeFiles| == MAX_DEVICES && |diskFiles| == MAX_DEVICES && |junk32| == 32 && i < MAX_DEVICES
    ensures var s := Boot(v, freq, tapeFiles, diskFiles, junk, junk32);
      s.Shape() && s.hw.freq == freq && (AllMovesSettable(s) ==> DiskOk(freq, s.disks[i]))
  {
    var s := Boot(v, freq, tapeFiles, diskFiles, junk, junk32);
    BootDisk(v, freq, tapeFiles, diskFiles, junk, junk32, i);
    if !Installed(s, Key(DISK, i)) {
      NoMoves(freq, s.disks[i]);
    }
    hide InGeometry, MovesSettable, Tapes.BootAt, Disks.BootAt, Tapes.Found, Disks.Found, Volume.Mounted;
  }

  lemma BootKept(v: Volume, freq: nat, tapeFiles: seq<nat>, diskFiles: seq<nat>, junk: Local, junk32: seq<Byte>)
    requires v.Mounted() && |tapeFiles| == MAX_DEVICES && |diskFiles| == MAX_DEVICES && |junk32| == 32
    requires freq < TWO_TO_THE_32
    ensures var s := Boot(v, freq, tapeFiles, diskFiles, junk, junk32);
      s.Shape() && (AllMovesSettable(s) ==> Kept(s, 0))
  {
    var s := Boot(v, freq, tapeFiles, diskFiles, junk, junk32);
    BootTimers(v, freq, tapeFiles, diskFiles, junk, junk32);
    hide Boot, DiskOk, AllMovesSettable, Inv, Volume.Mounted;
    BootInv(v, freq, tapeFiles, diskFiles, junk, junk32);
    BootDiskOk(v, freq, tapeFiles, diskFiles, junk, junk32, 0);
    if AllMovesSettable(s) {
      forall i | 0 <= i < MAX_DEVICES
        ensures DiskOk(freq, s.disks[i])
      {
        BootDiskOk(v, freq, tapeFiles, diskFiles, junk, junk32, i);
      }
    }
  }

  lemma LosesFrom(s: System, i: nat) returns (events: seq<Event>)
    requires s.Shape() && i < MAX_DEVICES && Installed(s, Key(DISK, i)) && !Busy(s, Key(DISK, i))
    requires s.hw.pending == [] && s.hw.vtimer == VirtualTimer(false, 0, 0)
    requires InGeometry(s.disks[i]) && s.disks[i].cylinder == 0 && s.disks[i].sector == 0
    requires SmallDisk(s.disks[i]) && !MovesSettable(s.hw.freq, s.disks[i])
    ensures ClockRuns(events, 0) && !NotLost(Run(s, events).hw)
  {
    var d, locals: Junk := s.disks[i], [ZEROES, ZEROES, ZEROES, ZEROES];
    hide *;
    var word := Unsettable(s.hw.freq, d);
    AskClock(i, word, locals);
    AskedUnset(s, i, word, locals);
    events := Ask(i, word, locals);
  }

  lemma LosesWakeUp(v: Volume, freq: nat, tapeFiles: seq<nat>, diskFiles: seq<nat>, junk: Local, junk32: seq<Byte>)
    returns (events: seq<Event>)
    requires v.Mounted() && |tapeFiles| == MAX_DEVICES && |diskFiles| == MAX_DEVICES && |junk32| == 32
    requires freq < TWO_TO_THE_32
    requires var s := Boot(v, freq, tapeFiles, diskFiles, junk, junk32); s.Shape() && !AllMovesSettable(s)
    ensures ClockRuns(events, 0)
    ensures !NotLost(Run(Boot(v, freq, tapeFiles, diskFiles, junk, junk32), events).hw)
  {
    var s := Boot(v, freq, tapeFiles, diskFiles, junk, junk32);
    BootTimers(v, freq, tapeFiles, diskFiles, junk, junk32);
    hide Boot, ClockRuns, NotLost, Run, MovesSettable, Volume.Mounted;
    var i: nat :| i < MAX_DEVICES && Installed(s, Key(DISK, i)) && !MovesSettable(s.hw.freq, s.disks[i]);
    BootDisk(v, freq, tapeFiles, diskFiles, junk, junk32, i);
    assert !Busy(s, Key(DISK, i)) && SmallDisk(s.disks[i]);
    hide *;
    events := LosesFrom(s, i);
  }

  /** From start-up, with the counter's 32-bit frequency: no run whose clock goes on loses a wake-up if and
      only if for every installed disk every way of its head, cut to 32 bits, has a tick count of 32
      bits.  Otherwise one command loses it. */
  lemma NoWakeUpLostIff(v: Volume, freq: nat, tapeFiles: seq<nat>, diskFiles: seq<nat>, junk: Local, junk32: seq<Byte>)
    requires v.Mounted() && |tapeFiles| == MAX_DEVICES && |diskFiles| == MAX_DEVICES && |junk32| == 32
    requires freq < TWO_TO_THE_32
    ensures var s := Boot(v, freq, tapeFiles, diskFiles, junk, junk32);
      s.Shape() && ((forall events :: ClockRuns(events, 0) ==> NotLost(Run(s, events).hw)) <==> AllMovesSettable(s))
  {
    var s := Boot(v, freq, tapeFiles, diskFiles, junk, junk32);
    hide ClockRuns, NotLost, Run, AllMovesSettable, Boot, Inv, DelaysSettable, Counting;
    BootKept(v, freq, tapeFiles, diskFiles, junk, junk32);
    if AllMovesSettable(s) {
      forall events | ClockRuns(events, 0)
        ensures NotLost(Run(s, events).hw)
      {
        RunKeeps(s, events, 0);
      }
    } else {
      var events := LosesWakeUp(v, freq, tapeFiles, diskFiles, junk, junk32);
    }
  }
}
