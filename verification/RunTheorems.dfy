/** Theorems over whole runs: the invariant, deadlines and completions, and interrupt lines. */
module RunTheorems {
  import opened Arithmetic
  import opened TimerQueue
  import opened Hardware
  import opened Interrupts
  import opened Effects
  import opened Invariants

  // ----- One event -----

  /** The state between the two causes of a FIQ; for the other events, the state before. */
  function Middle(s: System, e: Event): (m: System)
    requires s.Shape()
    ensures m.Shape()
  {
    match e
    case TakeFiq(source, word, now, later, junk) => AfterMessage(s, source, word, now, junk)
    case _ => s
  }

  predicate Messages(e: Event, k: Key) {
    e.TakeFiq? && MailboxPending(e.source) && AddressOf(e.word) != NULL && Target(e.word) == k
  }

  predicate Drains(e: Event) {
    e.TakeFiq? && TimerPending(e.source)
  }

  /** The two bits of the cause word, wherever they stand. */
  lemma CauseBits(a: nat, m: nat, t: nat, r: nat)
    requires m <= 1 && t <= 1 && r < 8
    ensures var source := 32 * a + 16 * m + 8 * t + r;
      (MailboxPending(source) <==> m == 1) && (TimerPending(source) <==> t == 1)
  {
    var source := 32 * a + 16 * m + 8 * t + r;
    QuotientIs(source, 0x10, 2 * a + m, 8 * t + r);
    QuotientIs(source, 0x08, 4 * a + 2 * m + t, r);
    QuotientIs(2 * a + m, 2, a, m);
    QuotientIs(4 * a + 2 * m + t, 2, 2 * a + m, t);
  }

  lemma CauseByBits(source: nat)
    ensures (TimerPending(source) <==> source % 16 >= 8) && (MailboxPending(source) <==> source % 32 >= 16)
  {
    var q, r := source / 8, source % 8;
    var h, t := q / 2, q % 2;
    var a, m := h / 2, h % 2;
    assert source == 8 * q + r && q == 2 * h + t && h == 2 * a + m;
    CauseBits(a, m, t, r);
    QuotientIs(source, 16, h, 8 * t + r);
    QuotientIs(source, 32, a, 16 * m + 8 * t + r);
  }

  /** Two states that differ in what the handler's end and user programs may change. */
  ghost predicate SameButMemory(s: System, r: System) {
    r == s.(hw := s.hw.(memory := r.hw.memory, ram := r.hw.ram, mask := r.hw.mask, vtimer := r.hw.vtimer,
                        fireNow := r.hw.fireNow))
  }

  lemma SameButMemoryKeepsInv(s: System, r: System)
    requires Inv(s) && SameButMemory(s, r)
    ensures Inv(r)
    ensures forall k :: DeviceKey(k) ==> SameDevice(s, r, k) && Raised(r, k) == Raised(s, k) && Installed(r, k) == Installed(s, k)
  {
    forall k | DeviceKey(k)
      ensures DeviceOk(r, k) && SameDevice(s, r, k) && Raised(r, k) == Raised(s, k)
    {
      SameDeviceMeans(s, r, k);
      assert DeviceOk(s, k);
    }
    assert forall k :: DeviceKey(k) ==> (Installed(r, k) <==> Installed(s, k));
  }

  lemma CleanDoesNothing(s: System)
    requires Inv(s)
    ensures s.hw.CleanLines() == s.hw
  {
    forall j | 0 <= j < IL_LINES
      ensures s.hw.lines[j] * s.hw.installed[j] == s.hw.lines[j]
    {
      assert s.hw.lines[j] <= s.hw.installed[j];
    }
  }

  lemma MiddleKeepsInv(s: System, e: Event)
    requires Inv(s)
    ensures Inv(Middle(s, e))
  {
    if e.TakeFiq? && MailboxPending(e.source) {
      MessageKeepsInv(s, e.word, e.now, e.junk);
    }
  }

  /** The state once the expired timers are managed; where there are none to manage, the one after the message. */
  function Managed(s: System, e: Event): (r: System)
    requires s.Shape()
    ensures r.Shape()
  {
    if Drains(e) then Drain(Middle(s, e), e.later, e.junk) else Middle(s, e)
  }

  lemma RearmIsMemory(d: System, now: nat)
    requires d.Shape() && (d.hw.pending != [] ==> d.hw.pending[0].time >= now)
    ensures SameButMemory(d, Rearm(d, now))
  {
    hide Hw.PendingInterrupt, VirtualTimer.Set, VirtualTimer.Disable;
  }

  lemma DrainedIsManaged(s: System, e: Event)
    requires Inv(s) && Drains(e)
    ensures var d, r := Managed(s, e), Step(s, e); Inv(d) && SameButMemory(d, r)
  {
    var m, d := Middle(s, e), Managed(s, e);
    MiddleKeepsInv(s, e);
    DrainEffect(m, e.later, e.junk, Key(TAPE, 0));
    DrainLeavesLater(m, e.later, e.junk);
    RearmIsMemory(d, e.later);
    hide Drain, Inv, AfterMessage, Rearm, SameButMemory, Hw.CleanLines;
    SameButMemoryKeepsInv(d, Rearm(d, e.later));
    CleanDoesNothing(Rearm(d, e.later));
  }

  /** What follows only reprograms the counter or stores what a program writes. */
  lemma Ending(s: System, e: Event)
    requires Inv(s)
    ensures var d, r := Managed(s, e), Step(s, e); Inv(d) && SameButMemory(d, r)
  {
    MiddleKeepsInv(s, e);
    if Drains(e) {
      DrainedIsManaged(s, e);
    } else {
      hide Message, Inv, Expire, Hw.CleanLines;
      if e.TakeFiq? {
        CleanDoesNothing(Middle(s, e));
      }
    }
  }

  /** From the state after the message to the state after the event. */
  lemma SecondHalf(s: System, e: Event, k: Key)
    requires Inv(s) && DeviceKey(k)
    ensures var m, r := Middle(s, e), Step(s, e);
      && Inv(m) && Inv(r)
      && (if Drains(e) then Drained(m, r, e.later, k) && forall x :: x in r.hw.pending ==> x.time >= e.later
          else SameDevice(m, r, k) && Raised(r, k) == Raised(m, k) && Installed(r, k) == Installed(m, k)
               && r.hw.pending == m.hw.pending)
  {
    var m, d, r := Middle(s, e), Managed(s, e), Step(s, e);
    MiddleKeepsInv(s, e);
    Ending(s, e);
    SameButMemoryKeepsInv(d, r);
    if Drains(e) {
      DrainEffect(m, e.later, e.junk, k);
      hide Drain, Inv, Drained, Middle, Step;
      DrainedThenSame(m, d, r, e.later, k);
    }
    hide Inv, Middle, Step, Drained;
  }

  lemma DrainedThenSame(m: System, d: System, r: System, later: nat, k: Key)
    requires Drained(m, d, later, k) && SameButMemory(d, r)
    ensures Drained(m, r, later, k)
  {
    SameDeviceMeans(d, r, k);
  }

  lemma StepKeepsInv(s: System, e: Event)
    requires Inv(s)
    ensures Inv(Step(s, e))
  {
    SecondHalf(s, e, Key(TAPE, 0));
  }

  /** Over every run, a busy device has exactly one pending timer, a program to report to and a timed
      command; the queue is sorted, with one timer a device at most; and no line has a bit set that
      is not installed. */
  lemma {:induction false} RunKeepsInv(s: System, events: seq<Event>)
    requires Inv(s)
    ensures Inv(Run(s, events))
    decreases |events|
  {
    if events != [] {
      RunKeepsInv(s, events[..|events| - 1]);
      StepKeepsInv(Run(s, events[..|events| - 1]), events[|events| - 1]);
    }
  }

  // ----- Deadlines -----

  /** No command is running. */
  ghost predicate Idle(s: System)
    requires s.Shape()
  {
    forall k :: DeviceKey(k) ==> !Busy(s, k)
  }

  /** The event makes device `k` accept a timed command. */
  predicate Accepts(s: System, e: Event, k: Key)
    requires s.Shape() && DeviceKey(k)
  {
    Messages(e, k) && Accepted(s, Middle(s, e), k)
  }

  /** When the command that device `k` accepted last in the run is due: its acceptance time plus its
      delay; 0 when it accepted none. */
  function Due(s: System, events: seq<Event>, k: Key): nat
    requires s.Shape() && DeviceKey(k)
    decreases |events|
  {
    if events == [] then 0
    else
      var before, e := events[..|events| - 1], events[|events| - 1];
      if Accepts(Run(s, before), e, k) then Deadline(Run(s, before), e.word, e.now) else Due(s, before, k)
  }

  /** The register block of the command that device `k` accepted last in the run; an empty one when it
      accepted none. */
  function LastSent(s: System, events: seq<Event>, k: Key): Registers
    requires s.Shape() && DeviceKey(k)
    decreases |events|
  {
    if events == [] then Registers(0, 0, 0, 0, 0)
    else
      var before, e := events[..|events| - 1], events[|events| - 1];
      if Accepts(Run(s, before), e, k) then Run(s, before).hw.RegistersAt(AddressOf(e.word)) else LastSent(s, before, k)
  }

  lemma NextSent(s: System, events: seq<Event>, e: Event, k: Key)
    requires s.Shape() && DeviceKey(k)
    ensures LastSent(s, events + [e], k)
         == if Accepts(Run(s, events), e, k) then Run(s, events).hw.RegistersAt(AddressOf(e.word))
            else LastSent(s, events, k)
    ensures Run(s, events + [e]) == Step(Run(s, events), e)
  {
    assert (events + [e])[..|events + [e]| - 1] == events;
    hide Accepts;
  }

  /** A message leaves a busy device's timer in place, and gives the one it makes busy its deadline. */
  lemma MiddleTimer(s: System, e: Event, k: Key, d: nat)
    requires Inv(s) && DeviceKey(k) && (Busy(s, k) ==> Entry(d, k) in s.hw.pending)
    ensures var m := Middle(s, e);
      Busy(m, k) ==> Entry(if Accepts(s, e, k) then Deadline(s, e.word, e.now) else d, k) in m.hw.pending
  {
    if e.TakeFiq? && MailboxPending(e.source) {
      var m, t := Middle(s, e), Target(e.word);
      MessageEffect(s, e.word, e.now, e.junk);
      if m != s {
        AllocationNeverFails(s.hw.pending, t);
        AddTimerMembers(s.hw.pending, Deadline(s, e.word, e.now), t);
        hide AddTimer, Message, Deadline, RegistersMove, OnlyBit, SameStore;
        if k != t {
          SameDeviceMeans(s, m, k);
        }
      }
    }
  }

  /** A busy device's pending timer carries the deadline of the command accepted last: timers that an
      aborted command left behind are never taken for it. */
  lemma {:induction false} TimerOfLastCommand(s: System, events: seq<Event>, k: Key)
    requires Inv(s) && Idle(s) && DeviceKey(k)
    ensures Busy(Run(s, events), k) ==> Entry(Due(s, events, k), k) in Run(s, events).hw.pending
    decreases |events|
  {
    if events != [] {
      var before, e := events[..|events| - 1], events[|events| - 1];
      TimerOfLastCommand(s, before, k);
      RunKeepsInv(s, before);
      MiddleTimer(Run(s, before), e, k, Due(s, before, k));
      SecondHalf(Run(s, before), e, k);
      hide Middle, Step, Inv, Accepts, Drains;
      SameDeviceIfBusy(Middle(Run(s, before), e), Step(Run(s, before), e), e, k);
    }
  }

  lemma SameDeviceIfBusy(m: System, r: System, e: Event, k: Key)
    requires m.Shape() && r.Shape() && DeviceKey(k)
    requires if Drains(e) then Drained(m, r, e.later, k) else SameDevice(m, r, k)
    ensures Busy(r, k) ==> Busy(m, k)
  {
    if SameDevice(m, r, k) {
      SameDeviceMeans(m, r, k);
    }
  }

  /** A command ends exactly in the first FIQ with the timer's cause bit set whose clock reading is past its
      deadline, whatever happened to earlier commands of the device; ending sets the device's interrupt bit. */
  lemma CompletesExactlyWhenDue(s: System, events: seq<Event>, e: Event, k: Key)
    requires Inv(s) && Idle(s) && DeviceKey(k)
    ensures var b := Run(s, events);
      var m, r, due := Middle(b, e), Step(b, e), Due(s, events + [e], k);
      Busy(m, k) ==>
        && (!Busy(r, k) <==> e.TakeFiq? && e.source % 16 >= 8 && due < e.later)
        && (!Busy(r, k) ==> Raised(r, k))
  {
    var b := Run(s, events);
    assert s.Shape();
    DrainsAtBit(e);
    hide *;
    NextDue(s, events, e, k);
    RunKeepsInv(s, events);
    TimerOfLastCommand(s, events, k);
    MiddleTimer(b, e, k, Due(s, events, k));
    SecondHalf(b, e, k);
    EndsWhenDue(Middle(b, e), Step(b, e), e, Due(s, events + [e], k), k);
  }

  lemma DrainsAtBit(e: Event)
    ensures Drains(e) <==> e.TakeFiq? && e.source % 16 >= 8
  {
    if e.TakeFiq? {
      CauseByBits(e.source);
    }
  }

  lemma NextDue(s: System, events: seq<Event>, e: Event, k: Key)
    requires s.Shape() && DeviceKey(k)
    ensures var b := Run(s, events);
      Due(s, events + [e], k) == if Accepts(b, e, k) then Deadline(b, e.word, e.now) else Due(s, events, k)
  {
    assert (events + [e])[..|events + [e]| - 1] == events;
    hide Accepts, Deadline;
  }

  lemma EndsWhenDue(m: System, r: System, e: Event, due: nat, k: Key)
    requires m.Shape() && r.Shape() && DeviceKey(k) && (Busy(m, k) ==> Entry(due, k) in m.hw.pending)
    requires if Drains(e) then Drained(m, r, e.later, k) && forall x :: x in r.hw.pending ==> x.time >= e.later
             else SameDevice(m, r, k)
    ensures Busy(m, k) ==>
      && (!Busy(r, k) <==> Drains(e) && due < e.later)
      && (!Busy(r, k) ==> Raised(r, k))
  {
    hide Drains;
    if SameDevice(m, r, k) {
      SameDeviceMeans(m, r, k);
    }
  }

  // ----- Interrupt lines -----

  /** The exact life of an interrupt bit: a message to the device sets or clears it by its command, a
      completion in the same FIQ sets it, and nothing else changes it. */
  lemma InterruptBitExactly(s: System, e: Event, k: Key)
    requires Inv(s) && DeviceKey(k)
    ensures var m, r := Middle(s, e), Step(s, e);
      && Raised(m, k) == (if Messages(e, k) then BitAfter(k.kind, SentCommand(s, e.word), Regs(s, k).status, Raised(s, k))
                          else Raised(s, k))
      && Raised(r, k) == (Raised(m, k) || (Busy(m, k) && !Busy(r, k)))
  {
    var m, r := Middle(s, e), Step(s, e);
    MiddleBit(s, e, k);
    SecondHalf(s, e, k);
    hide Middle, Step, Inv, BitAfter, Messages;
    if !Drains(e) {
      SameDeviceMeans(m, r, k);
    }
  }

  lemma MiddleBit(s: System, e: Event, k: Key)
    requires Inv(s) && DeviceKey(k)
    ensures var m := Middle(s, e);
      && Raised(m, k) == (if Messages(e, k) then BitAfter(k.kind, SentCommand(s, e.word), Regs(s, k).status, Raised(s, k))
                          else Raised(s, k))
      && (Installed(m, k) <==> Installed(s, k))
  {
    if e.TakeFiq? && MailboxPending(e.source) {
      MessageEffect(s, e.word, e.now, e.junk);
      hide Inv, Message, DeviceMessage;
      if AddressOf(e.word) != NULL && DeviceKey(Target(e.word)) {
        MessageBit(s, Middle(s, e), e.word, e.now, k);
      }
    }
  }

  lemma MessageBit(s: System, m: System, word: nat, now: nat, k: Key)
    requires DeviceMessage(s, m, word, now) && DeviceKey(k)
    ensures Raised(m, k) == (if k == Target(word) then BitAfter(k.kind, SentCommand(s, word), Regs(s, k).status, Raised(s, k))
                             else Raised(s, k))
    ensures Installed(m, k) <==> Installed(s, k)
  {
    hide BitAfter, ArmedIf, SameStore, Target;
    if k != Target(word) {
      SameDeviceMeans(s, m, k);
    }
  }

  /** What clears a bit: an accepted ACK, or RESET of a printer. */
  lemma ClearedOnlyByAckOrPrinterReset(s: System, e: Event, k: Key)
    requires Inv(s) && DeviceKey(k)
    ensures Raised(s, k) && !Raised(Step(s, e), k) ==>
      var op := if k.kind == TAPE then SentCommand(s, e.word) else Opcode(SentCommand(s, e.word));
      && Messages(e, k) && Installed(s, k)
      && ((op == ACK && !Busy(s, k)) || (op == RESET && k.kind == PRINTER))
  {
    InterruptBitExactly(s, e, k);
    hide Step, Inv, Middle;
  }

  /** A device is installed for the whole run or for none of it. */
  lemma {:induction false} InstalledForever(s: System, events: seq<Event>, k: Key)
    requires Inv(s) && DeviceKey(k)
    ensures Installed(Run(s, events), k) <==> Installed(s, k)
    decreases |events|
  {
    if events != [] {
      var b, e := Run(s, events[..|events| - 1]), events[|events| - 1];
      InstalledForever(s, events[..|events| - 1], k);
      RunKeepsInv(s, events[..|events| - 1]);
      MiddleBit(b, e, k);
      SecondHalf(b, e, k);
    }
  }
}
