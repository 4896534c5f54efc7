/** Wake-ups on time: while a timer is pending the virtual counter runs, programmed no later than the first
    deadline and less than a tick early.  It rests on delays of 32 bits with tick counts of 31 bits. */
module WakeUp {
  import opened Arithmetic
  import opened Bytes
  import opened TimerQueue
  import opened Fat32
  import opened Hardware
  import opened Interrupts
  import opened Effects
  import opened Invariants
  import opened RunTheorems
  import opened DiskGeometry
  import opened TimeOfDay
  import DrainTheorems
  import StartUp
  import Tapes
  import Disks
  import Printers

  // ----- One programming of the counter -----

  /** Ticks for a delay, in whole ticks. */
  function Ticks(freq: nat, microseconds: nat): nat {
    freq * microseconds / 1000000
  }

  /** The counter fires no later than `us` after it was set, and less than one tick early. */
  predicate FiresOnTime(v: VirtualTimer, freq: nat, us: nat) {
    v.enabled && v.FiresAfter() * 1000000 <= freq * us < (v.FiresAfter() + 1) * 1000000
  }

  /** The product of a 32-bit frequency and the truncated delay fits in 64 bits. */
  lemma ProductFits(freq: nat, us: nat)
    requires freq < TWO_TO_THE_32
    ensures freq * (us % TWO_TO_THE_32) < TWO_TO_THE_64
  {
    MulBelow(freq, TWO_TO_THE_32, us % TWO_TO_THE_32, TWO_TO_THE_32);
  }

  /** The delay fits in 32 bits, and its tick count in the 31 bits of a positive register. */
  predicate Fits(freq: nat, us: nat) {
    us < TWO_TO_THE_32 && Ticks(freq, us) < 0x8000_0000
  }

  /** From a stopped counter: it fires on time exactly when the delay and its tick count fit; otherwise it
      stays stopped, or fires early by the bits that were cut or at once for the sign. */
  lemma SetFiresOnTimeIff(v: VirtualTimer, freq: nat, us: nat, now: nat)
    requires !v.enabled && freq > 0
    ensures FiresOnTime(v.Set(freq, us, now), freq, us) <==> Fits(freq, us)
  {
    if us < TWO_TO_THE_32 {
      assert us % TWO_TO_THE_32 == us;
    } else {
      CutShort(freq, us);
    }
  }

  /** A delay that is cut to 32 bits loses 2^32 microseconds or more, which is more than a tick. */
  lemma CutShort(freq: nat, us: nat)
    requires freq > 0 && us >= TWO_TO_THE_32
    ensures (freq * (us % TWO_TO_THE_32) / 1000000 + 1) * 1000000 <= freq * us
  {
    var cut := us % TWO_TO_THE_32;
    var lost: nat := us - cut;
    assert lost >= TWO_TO_THE_32;
    MulMono(1, freq, TWO_TO_THE_32, lost);
    assert freq * us == freq * cut + freq * lost;
  }

  /** Whatever the delay, a counter that gets programmed never fires late. */
  lemma NeverLate(v: VirtualTimer, freq: nat, us: nat, now: nat)
    requires !v.enabled && v.Set(freq, us, now).enabled
    ensures v.Set(freq, us, now).FiresAfter() * 1000000 <= freq * us
  {
    MulMono(freq, freq, us % TWO_TO_THE_32, us);
  }

  // ----- Over runs -----

  function Gap(deadline: nat, from: nat): nat {
    if from < deadline then deadline - from else 0
  }

  /** A pending timer has the counter set for it. */
  predicate Awake(hw: Hw) {
    hw.pending != [] ==> FiresOnTime(hw.vtimer, hw.freq, Gap(hw.pending[0].time, hw.vtimer.setAt))
  }

  lemma WakeInTime(v: VirtualTimer, freq: nat, us: nat, now: nat, most: nat)
    requires Fits(freq, most) && us <= most
    ensures FiresOnTime(v.Set(freq, us, now), freq, us) && v.Set(freq, us, now).setAt == now
  {
    MulMono(freq, freq, us, most);
    assert us % TWO_TO_THE_32 == us;
  }

  /** No command takes longer than `most` microseconds, disks being within their geometry. */
  predicate DelaysWithin(s: System, most: nat)
    requires s.Shape()
  {
    && Tapes.TAPE_DELAY <= most && Printers.PRINT_DELAY <= most
    && forall i :: 0 <= i < MAX_DEVICES ==> InGeometry(s.disks[i]) && LongestMove(s.disks[i]) <= most
  }

  lemma SameLongestMove(d: Disks.Disk, e: Disks.Disk)
    requires SameGeometry(d, e)
    ensures LongestMove(e) == LongestMove(d)
  {
  }

  lemma MessageKeepsDelays(s: System, word: nat, now: nat, junk: Junk, most: nat)
    requires s.Shape() && DelaysWithin(s, most)
    ensures DelaysWithin(Message(s, word, now, junk), most)
  {
    var i, s' := DeviceOf(word), Message(s, word, now, junk);
    MessageEffect(s, word, now, junk);
    MailboxKeepsGeometry(s.disks[i], s.hw, i, AddressOf(word), now);
    SameLongestMove(s.disks[i], Disks.Mailbox(s.disks[i], s.hw, i, AddressOf(word), now).0);
    hide Tapes.Mailbox, Disks.Mailbox, Printers.Mailbox, InGeometry, SameGeometry, LongestMove;
  }

  lemma TurnKeepsDelays(s: System, k: Key, junk: Junk, most: nat)
    requires s.Shape() && DelaysWithin(s, most)
    ensures DelaysWithin(Manage(s, k, junk), most)
  {
    if DeviceKey(k) {
      ManageKeepsGeometry(s.disks[k.code], s.hw, k.code);
      SameLongestMove(s.disks[k.code], Disks.Manage(s.disks[k.code], s.hw, k.code).0);
    }
    hide Tapes.Manage, Disks.Manage, Printers.Manage, InGeometry, SameGeometry, LongestMove;
  }

  lemma {:induction false} DrainKeepsDelays(s: System, now: nat, junk: Junk, most: nat)
    requires s.Shape() && DelaysWithin(s, most)
    ensures DelaysWithin(Drain(s, now, junk), most)
    decreases |s.hw.pending|
  {
    var q := s.hw.pending;
    if q != [] && q[0].time < now {
      TurnKeepsDelays(Pop(s), q[0].key, junk, most);
      DrainKeepsDelays(Turn(s, junk), now, junk, most);
    }
  }

  // ----- The invariant -----

  /** At clock reading `clock`, every pending timer is due within `most` microseconds and the counter is
      set for the first. */
  ghost predicate OnTime(s: System, clock: nat, most: nat) {
    && Inv(s) && DelaysWithin(s, most) && Fits(s.hw.freq, most) && Awake(s.hw)
    && forall e :: e in s.hw.pending ==> e.time <= clock + most
  }

  lemma WakeForFirst(hw: Hw, q: seq<Entry>, now: nat, most: nat)
    requires Fits(hw.freq, most) && forall e :: e in q ==> e.time <= now + most
    ensures Awake(hw.(pending := q, vtimer := hw.WakeFor(q, now)))
  {
    if q != [] {
      assert q[0] in q;
      WakeInTime(hw.vtimer, hw.freq, Gap(q[0].time, now), now, most);
    }
  }

  lemma AwakeByQueueAndCounter(hw: Hw, hw': Hw)
    requires hw'.pending == hw.pending && hw'.vtimer == hw.vtimer && hw'.freq == hw.freq
    ensures Awake(hw') == Awake(hw)
  {
  }

  /** An accepted command is due within `most` microseconds. */
  lemma DeadlineWithin(s: System, word: nat, now: nat, junk: Junk, most: nat)
    requires s.Shape() && DelaysWithin(s, most) && DeviceKey(Target(word)) && now + most < TWO_TO_THE_64
    requires Accepted(s, Message(s, word, now, junk), Target(word))
    ensures Deadline(s, word, now) == now + CommandDelay(s, word) <= now + most
  {
    hide CommandDelay, DiskDelay, DelaysWithin, Message;
    DelayWithin(s, word, now, junk, most);
    NoWrap(now, CommandDelay(s, word));
  }

  lemma NoWrap(a: nat, b: nat)
    requires a + b < TWO_TO_THE_64
    ensures (a + b) % TWO_TO_THE_64 == a + b
  {
  }

  lemma QueueWithin(s: System, word: nat, now: nat, junk: Junk, clock: nat, most: nat)
    requires OnTime(s, clock, most) && clock <= now && now + most < TWO_TO_THE_64
    requires DeviceMessage(s, Message(s, word, now, junk), word, now)
    ensures forall e :: e in Message(s, word, now, junk).hw.pending ==> e.time <= now + most
  {
    var k := Target(word);
    hide Message, Inv, DelaysWithin, RegistersMove, OnlyBit, Deadline, Awake, Hw.WakeFor;
    if Accepted(s, Message(s, word, now, junk), k) {
      DeadlineWithin(s, word, now, junk, most);
      QueueMembers(s, word, now);
    }
    hide AddTimer;
  }

  lemma QueueMembers(s: System, word: nat, now: nat)
    requires Inv(s) && DeviceKey(Target(word))
    ensures forall e :: e in AddTimer(s.hw.pending, Deadline(s, word, now), Target(word)) ==>
      e == Entry(Deadline(s, word, now), Target(word)) || e in s.hw.pending
  {
    AllocationNeverFails(s.hw.pending, Target(word));
    AddTimerMembers(s.hw.pending, Deadline(s, word, now), Target(word));
  }

  lemma MessageOnTime(s: System, word: nat, now: nat, junk: Junk, clock: nat, most: nat)
    requires OnTime(s, clock, most) && clock <= now && now + most < TWO_TO_THE_64
    ensures OnTime(Message(s, word, now, junk), now, most)
  {
    var s', k := Message(s, word, now, junk), Target(word);
    MessageKeepsInv(s, word, now, junk);
    MessageKeepsDelays(s, word, now, junk, most);
    MessageEffect(s, word, now, junk);
    if s' != s {
      hide Message, Inv, DelaysWithin, RegistersMove, OnlyBit, Awake, Hw.WakeFor;
      QueueWithin(s, word, now, junk, clock, most);
      if Accepted(s, s', k) {
        WakeForFirst(s.hw, s'.hw.pending, now, most);
        AwakeByQueueAndCounter(s.hw.(pending := s'.hw.pending, vtimer := s'.hw.vtimer), s'.hw);
      } else {
        AwakeByQueueAndCounter(s.hw, s'.hw);
      }
    }
  }

  lemma DelayWithin(s: System, word: nat, now: nat, junk: Junk, most: nat)
    requires s.Shape() && DelaysWithin(s, most) && DeviceKey(Target(word))
    requires Accepted(s, Message(s, word, now, junk), Target(word))
    ensures CommandDelay(s, word) <= most
  {
    if Target(word).kind == DISK {
      var i := DeviceOf(word);
      AcceptedIsGood(s.disks[i], s.hw, i, AddressOf(word), now);
      DelayInGeometry(s.disks[i], SentCommand(s, word));
    }
    hide Tapes.Mailbox, Disks.Mailbox, Printers.Mailbox, DiskDelay, LongestMove, GoodCommand;
  }

  /** A disk that accepts a command has it within its geometry. */
  lemma AcceptedIsGood(d: Disks.Disk, hw: Hw, i: nat, address: nat, now: nat)
    requires hw.Shape() && InGeometry(d) && !d.Busy() && Disks.Mailbox(d, hw, i, address, now).0.Busy()
    ensures HeadInside(d) && GoodCommand(d, hw.RegistersAt(address).command)
    ensures Disks.TimedCommand(hw.RegistersAt(address).command)
  {
    MailboxKeepsGeometry(d, hw, i, address, now);
    DiskCases(d, hw, i, address, now);
    hide Disks.Mailbox, Disks.TimedCommand, DiskDelay, Hw.Arm, HeadInside;
  }

  lemma RearmOnTime(d: System, now: nat, most: nat)
    requires d.Shape() && Fits(d.hw.freq, most) && DelaysWithin(d, most)
    requires forall e :: e in d.hw.pending ==> now <= e.time <= now + most
    ensures d.hw.pending != [] ==> d.hw.pending[0] in d.hw.pending
    ensures var r := Rearm(d, now);
      Awake(r.hw) && r.Shape() && DelaysWithin(r, most) && r.hw.freq == d.hw.freq && r.hw.pending == d.hw.pending
  {
    hide LongestMove, InGeometry, Hw.PendingInterrupt;
    if d.hw.pending != [] {
      WakeInTime(d.hw.vtimer, d.hw.freq, d.hw.pending[0].time - now, now, most);
    }
  }

  lemma ExpireOnTime(s: System, now: nat, junk: Junk, clock: nat, most: nat)
    requires OnTime(s, clock, most) && clock <= now
    ensures var r := Expire(s, now, junk);
      Awake(r.hw) && r.Shape() && DelaysWithin(r, most) && r.hw.freq == s.hw.freq
      && forall e :: e in r.hw.pending ==> e.time <= now + most
  {
    var d := Drain(s, now, junk);
    DrainTheorems.DrainedQueue(s, now, junk);
    DrainKeepsDelays(s, now, junk, most);
    DrainEffect(s, now, junk, Key(TAPE, 0));
    hide Drain, Inv, Drained, Rearm, Awake, DelaysWithin;
    RearmOnTime(d, now, most);
  }

  // ----- Runs -----

  /** Clock readings do not go back, and stay clear of the end of the 64-bit range by the longest delay of
      any disk; see `TimeOfDay` for when they do. */
  predicate ClockGoesOn(e: Event, clock: nat) {
    e.TakeFiq? ==> clock <= e.now <= e.later && e.later + CLEARANCE <= TWO_TO_THE_64
  }

  function ClockAfter(events: seq<Event>, clock: nat): nat
    decreases |events|
  {
    if events == [] then clock
    else
      var e := events[|events| - 1];
      if e.TakeFiq? then e.later else ClockAfter(events[..|events| - 1], clock)
  }

  predicate ClockRuns(events: seq<Event>, clock: nat)
    decreases |events|
  {
    events != [] ==>
      var before := events[..|events| - 1];
      ClockRuns(before, clock) && ClockGoesOn(events[|events| - 1], ClockAfter(before, clock))
  }

  /** Start-up leaves nothing pending, so wake-ups are on time from there. */
  lemma BootOnTime(v: Volume, freq: nat, tapeFiles: seq<nat>, diskFiles: seq<nat>, junk: Local, junk32: seq<Byte>,
                   clock: nat, most: nat)
    requires v.Mounted() && |tapeFiles| == MAX_DEVICES && |diskFiles| == MAX_DEVICES && |junk32| == 32
    requires var s := StartUp.Boot(v, freq, tapeFiles, diskFiles, junk, junk32); s.Shape() && DelaysWithin(s, most)
    requires Fits(freq, most)
    ensures OnTime(StartUp.Boot(v, freq, tapeFiles, diskFiles, junk, junk32), clock, most)
  {
    hide Inv, DelaysWithin, Fits, Tapes.BootAt, Disks.BootAt, Tapes.Found, Disks.Found;
    StartUp.BootInv(v, freq, tapeFiles, diskFiles, junk, junk32);
  }

  lemma StepOnTime(s: System, e: Event, clock: nat, most: nat)
    requires OnTime(s, clock, most) && ClockGoesOn(e, clock)
    ensures OnTime(Step(s, e), if e.TakeFiq? then e.later else clock, most)
  {
    StepKeepsInv(s, e);
    if e.TakeFiq? {
      var m := Middle(s, e);
      if MailboxPending(e.source) {
        MessageOnTime(s, e.word, e.now, e.junk, clock, most);
      }
      assert OnTime(m, e.now, most);
      FiqOnTime(s, e, most);
    }
    hide Inv, Step, Middle, DelaysWithin, Fits;
  }

  lemma FiqOnTime(s: System, e: Event, most: nat)
    requires s.Shape() && e.TakeFiq? && OnTime(Middle(s, e), e.now, most) && e.now <= e.later && Inv(Step(s, e))
    ensures OnTime(Step(s, e), e.later, most)
  {
    var m := Middle(s, e);
    var x := if Drains(e) then Expire(m, e.later, e.junk) else m;
    if Drains(e) {
      ExpireOnTime(m, e.later, e.junk, e.now, most);
    }
    hide Message, Inv, Expire, Awake, Fits;
    AwakeByQueueAndCounter(x.hw, Step(s, e).hw);
  }

  /** Wake-ups stay on time in every run whose clock goes on: after every event a pending timer has the
      counter running, set to fire no later than the first deadline and less than a tick early. */
  lemma {:induction false} StaysOnTime(s: System, events: seq<Event>, clock: nat, most: nat)
    requires OnTime(s, clock, most) && ClockRuns(events, clock)
    ensures OnTime(Run(s, events), ClockAfter(events, clock), most)
    decreases |events|
  {
    if events != [] {
      var before := events[..|events| - 1];
      StaysOnTime(s, before, clock, most);
      StepOnTime(Run(s, before), events[|events| - 1], ClockAfter(before, clock), most);
    }
  }

  /** Without the bound a wake-up can miss its time: a command accepted while the counter is stopped and
      nothing else is queued has the counter set on time for it exactly when its delay and tick count fit. */
  lemma AloneAwakeIff(s: System, word: nat, now: nat, junk: Junk)
    requires s.Shape() && s.hw.pending == [] && !s.hw.vtimer.enabled && DeviceKey(Target(word))
    requires now + CommandDelay(s, word) < TWO_TO_THE_64 && s.hw.freq > 0
    ensures Message(s, word, now, junk).Shape()
    ensures Accepted(s, Message(s, word, now, junk), Target(word)) ==>
      (Awake(Message(s, word, now, junk).hw) <==> Fits(s.hw.freq, CommandDelay(s, word)))
  {
    hide Message, CommandDelay, DiskDelay, RegistersMove, OnlyBit, Ticks, AddTimer, Hw.WakeFor, Awake;
    var s', k, us := Message(s, word, now, junk), Target(word), CommandDelay(s, word);
    MessageEffect(s, word, now, junk);
    if Accepted(s, s', k) {
      NoWrap(now, us);
      SetFiresOnTimeIff(s.hw.vtimer, s.hw.freq, us, now);
      AloneInQueue(s.hw, Entry(now + us, k), now);
      AwakeByQueueAndCounter(s.hw.(pending := s'.hw.pending, vtimer := s'.hw.vtimer), s'.hw);
    }
  }

  lemma AloneInQueue(hw: Hw, e: Entry, now: nat)
    requires hw.pending == [] && now <= e.time
    ensures var q := AddTimer(hw.pending, e.time, e.key);
      && q == [e]
      && (Awake(hw.(pending := q, vtimer := hw.WakeFor(q, now)))
          <==> FiresOnTime(hw.vtimer.Set(hw.freq, e.time - now, now), hw.freq, Gap(e.time, hw.vtimer.Set(hw.freq, e.time - now, now).setAt)))
  {
  }
}
