/** One FIQ, told from its cause word, its mailbox word and the mask alone: which causes are served, whom a
    message reaches, and when an interrupt is fired. */
module FiqTheorems {
  import opened Bytes
  import opened TimerQueue
  import opened Fat32
  import opened Hardware
  import opened Interrupts
  import opened Effects
  import opened Invariants
  import opened RunTheorems
  import opened Completions
  import Protocol
  import StartUp

  // ----- The cause word -----

  /** The device is ended if a timer of its has passed, and is otherwise left alone with its timer. */
  ghost predicate EndedIfDue(b: System, r: System, later: nat, k: Key)
    requires b.Shape() && r.Shape() && DeviceKey(k)
  {
    && (!Busy(b, k) ==> SameDevice(b, r, k))
    && (forall d: nat :: Busy(b, k) && Entry(d, k) in b.hw.pending ==>
          if d < later then !Busy(r, k) && Raised(r, k) else SameDevice(b, r, k) && Entry(d, k) in r.hw.pending)
  }

  lemma HandedOn(s: System, a: nat, m: nat, t: nat, r: nat, word: nat, now: nat, later: nat, junk: Junk)
    requires s.Shape() && m <= 1 && t <= 1 && r < 8
    ensures var e := TakeFiq(32 * a + 16 * m + 8 * t + r, word, now, later, junk);
      Middle(s, e) == (if m == 1 then Message(s, word, now, junk) else s) && (Drains(e) <==> t == 1)
  {
    CauseBits(a, m, t, r);
  }

  /** With the timer's cause bit set the timers are served, whatever the other bits are: none before `later` is
      left, and every device whose deadline has passed ends its command.  A message comes first, exactly when
      its bit is set. */
  lemma TimerCauseServed(s: System, a: nat, m: nat, r: nat, word: nat, now: nat, later: nat, junk: Junk)
    requires Inv(s) && m <= 1 && r < 8
    ensures var b := if m == 1 then Message(s, word, now, junk) else s;
      var t := Step(s, TakeFiq(32 * a + 16 * m + 8 + r, word, now, later, junk));
      && (forall x :: x in t.hw.pending ==> x.time >= later)
      && (forall k :: DeviceKey(k) ==> EndedIfDue(b, t, later, k))
  {
    assert s.Shape();
    HandedOn(s, a, m, 1, r, word, now, later, junk);
    hide *;
    DrainsServed(s, TakeFiq(32 * a + 16 * m + 8 + r, word, now, later, junk));
  }

  lemma DrainsServed(s: System, e: Event)
    requires Inv(s) && Drains(e)
    ensures var b, r := Middle(s, e), Step(s, e);
      && (forall x :: x in r.hw.pending ==> x.time >= e.later)
      && (forall k :: DeviceKey(k) ==> EndedIfDue(b, r, e.later, k))
  {
    assert s.Shape();
    hide Inv, Middle, Step, Drains, EndedIfDue, Drained;
    SecondHalf(s, e, Key(TAPE, 0));
    forall k | DeviceKey(k)
      ensures EndedIfDue(Middle(s, e), Step(s, e), e.later, k)
    {
      SecondHalf(s, e, k);
      DrainedEnds(Middle(s, e), Step(s, e), e.later, k);
    }
  }

  lemma DrainedEnds(b: System, r: System, later: nat, k: Key)
    requires Drained(b, r, later, k) && forall x :: x in r.hw.pending ==> x.time >= later
    ensures EndedIfDue(b, r, later, k)
  {
    if SameDevice(b, r, k) {
      SameDeviceMeans(b, r, k);
    }
  }

  /** Without it no timer is managed: all that happens is the message, exactly when its bit is set. */
  lemma OtherCausesServed(s: System, a: nat, m: nat, r: nat, word: nat, now: nat, later: nat, junk: Junk)
    requires Inv(s) && m <= 1 && r < 8
    ensures Step(s, TakeFiq(32 * a + 16 * m + r, word, now, later, junk))
         == if m == 1 then Message(s, word, now, junk) else s
  {
    CauseBits(a, m, 0, r);
    if m == 1 {
      MessageKeepsInv(s, word, now, junk);
    }
    CleanDoesNothing(if m == 1 then Message(s, word, now, junk) else s);
    hide Inv, Message, Expire, MailboxPending, TimerPending, Hw.CleanLines;
  }

  /** Whatever the lines hold, a FIQ without a cause keeps exactly the bits of installed devices, and changes
      nothing else. */
  lemma LinesAreCleaned(s: System, a: nat, r: nat, word: nat, now: nat, later: nat, junk: Junk)
    requires s.Shape() && r < 8
    ensures var t := Step(s, TakeFiq(32 * a + r, word, now, later, junk));
      && t == s.(hw := s.hw.(lines := t.hw.lines))
      && forall j, x :: 0 <= j < IL_LINES ==> (x in t.hw.lines[j] <==> x in s.hw.lines[j] && x in s.hw.installed[j])
  {
    CauseBits(a, 0, 0, r);
  }

  // ----- The mailbox word -----

  /** The device that class and number name. */
  function Named(c: nat, i: nat): (k: Key)
    requires c < 3 && i < 4
    ensures DeviceKey(k)
  {
    Key(if c == 0 then PRINTER else if c == 1 then TAPE else DISK, i)
  }

  lemma WordParts(x: nat, c: nat, i: nat)
    requires c < 4 && i < 4
    ensures var word := 16 * x + 4 * c + i; AddressOf(word) == 16 * x && ClassOf(word) == c && DeviceOf(word) == i
  {
    var word := 16 * x + 4 * c + i;
    assert word / 4 == 4 * x + c;
  }

  lemma TargetIsNamed(x: nat, c: nat, i: nat)
    requires c < 4 && i < 4
    ensures var word := 16 * x + 4 * c + i;
      if c < 3 then Target(word) == Named(c, i) else !DeviceKey(Target(word))
  {
    WordParts(x, c, i);
  }

  /** A message goes to the device that its class and number name and to no other: 0 is a printer, 1 a tape, 2 a
      disk.  The answer goes to the address alone.  A fourth class, or address 0, changes nothing. */
  lemma MessageReachesNamed(s: System, x: nat, c: nat, i: nat, now: nat, junk: Junk)
    requires s.Shape() && c < 4 && i < 4
    ensures var r := Message(s, 16 * x + 4 * c + i, now, junk);
      && (c == 3 || x == 0 ==> r == s)
      && (c < 3 ==> forall k :: DeviceKey(k) && k != Named(c, i) ==> SameDevice(s, r, k) && Raised(r, k) == Raised(s, k))
      && (forall p :: p != 16 * x ==> r.hw.RegistersAt(p) == s.hw.RegistersAt(p))
  {
    var word := 16 * x + 4 * c + i;
    WordParts(x, c, i);
    TargetIsNamed(x, c, i);
    MessageEffect(s, word, now, junk);
    if c < 3 && x != 0 {
      assert AddressOf(word) == 16 * x != NULL && DeviceKey(Target(word));
      hide *;
      OthersAreSame(s, Message(s, word, now, junk), word, now);
      AnswerIsAlone(s, word, now, junk);
    } else {
      assert Message(s, word, now, junk) == s;
      hide *;
    }
  }

  lemma OthersAreSame(s: System, r: System, word: nat, now: nat)
    requires DeviceMessage(s, r, word, now)
    ensures DeviceKey(Target(word)) && s.Shape() && r.Shape()
    ensures forall k :: DeviceKey(k) && k != Target(word) ==> SameDevice(s, r, k) && Raised(r, k) == Raised(s, k)
  {
    hide Target, BitAfter, ArmedIf, RegistersMove, SameStore, SameDevice;
  }

  lemma AnswerIsAlone(s: System, word: nat, now: nat, junk: Junk)
    requires s.Shape() && AddressOf(word) != NULL && DeviceKey(Target(word))
    ensures forall p :: p != AddressOf(word) ==> Message(s, word, now, junk).hw.RegistersAt(p) == s.hw.RegistersAt(p)
  {
    Protocol.MessageFollowsProtocol(s, word, now, junk);
    hide Message, AddressOf, Target, Protocol.StatusRules, Regs;
  }

  /** Asking a device for its registers delivers those of the device named. */
  lemma RegistersAreDelivered(s: System, x: nat, c: nat, i: nat, now: nat, junk: Junk)
    requires s.Shape() && c < 3 && i < 4 && x != 0 && s.hw.RegistersAt(16 * x).command == READ_REGISTERS
    ensures var r, k := Message(s, 16 * x + 4 * c + i, now, junk), Named(c, i);
      r.hw.RegistersAt(16 * x) == Regs(r, k) == Regs(s, k).(mailbox := 1)
  {
    var word := 16 * x + 4 * c + i;
    WordParts(x, c, i);
    TargetIsNamed(x, c, i);
    OpcodeOfRead();
    Protocol.MessageFollowsProtocol(s, word, now, junk);
    hide Message, AddressOf, Target, ClassOf, DeviceOf, Opcode;
  }

  // ----- Firing -----

  /** Every bit on a line is that of a device. */
  ghost predicate DeviceLines(s: System)
    requires s.Shape()
  {
    && s.hw.lines[IL_TIMER] == {}
    && forall j, x :: IL_TIMER < j < IL_LINES && x in s.hw.lines[j] ==> x < MAX_DEVICES
  }

  lemma OnlyBitKeepsLines(hw: Hw, hw': Hw, k: Key, bit: bool, s: System, r: System)
    requires s.Shape() && r.Shape() && s.hw.lines == hw.lines && r.hw.lines == hw'.lines
    requires DeviceKey(k) && OnlyBit(hw, hw', k, bit) && DeviceLines(s)
    ensures DeviceLines(r)
  {
  }

  lemma MessageKeepsDeviceLines(s: System, word: nat, now: nat, junk: Junk)
    requires s.Shape() && DeviceLines(s)
    ensures var r := Message(s, word, now, junk); DeviceLines(r) && r.hw.fireNow == s.hw.fireNow && r.hw.mask == s.hw.mask
  {
    var r, k := Message(s, word, now, junk), Target(word);
    MessageEffect(s, word, now, junk);
    if AddressOf(word) != NULL && DeviceKey(k) {
      OnlyBitKeepsLines(s.hw, r.hw, k, BitAfter(k.kind, SentCommand(s, word), Regs(s, k).status, Raised(s, k)), s, r);
    }
    hide Message, DeviceLines, ArmedIf, RegistersMove, OnlyBit;
  }

  lemma TurnKeepsDeviceLines(s: System, junk: Junk)
    requires Inv(s) && DeviceLines(s) && s.hw.pending != []
    ensures var r := Turn(s, junk); DeviceLines(r) && r.hw.fireNow == s.hw.fireNow && r.hw.mask == s.hw.mask
  {
    var k, r := s.hw.pending[0].key, Turn(s, junk);
    assert s.hw.pending[0] in s.hw.pending;
    assert DeviceOk(s, k);
    SameDeviceMeans(s, Pop(s), k);
    ManageEffect(Pop(s), k, junk);
    hide Inv, Manage;
    if Busy(s, k) {
      OnlyBitKeepsLines(Pop(s).hw, r.hw, k, true, s, r);
    }
  }

  lemma {:induction false} DrainKeepsDeviceLines(s: System, now: nat, junk: Junk)
    requires Inv(s) && DeviceLines(s)
    ensures var r := Drain(s, now, junk); DeviceLines(r) && r.hw.fireNow == s.hw.fireNow && r.hw.mask == s.hw.mask
    decreases |s.hw.pending|
  {
    var q := s.hw.pending;
    if q != [] && q[0].time < now {
      TurnKeepsInv(s, now, junk);
      TurnKeepsDeviceLines(s, junk);
      hide Inv, Manage, DeviceLines;
      DrainKeepsDeviceLines(Turn(s, junk), now, junk);
    }
  }

  lemma ManagedKeepsDeviceLines(s: System, e: Event)
    requires Inv(s) && DeviceLines(s)
    ensures var d := Managed(s, e); DeviceLines(d) && d.hw.fireNow == s.hw.fireNow && d.hw.mask == s.hw.mask
  {
    MiddleKeepsInv(s, e);
    if e.TakeFiq? {
      MessageKeepsDeviceLines(s, e.word, e.now, e.junk);
      if Drains(e) {
        DrainKeepsDeviceLines(Middle(s, e), e.later, e.junk);
      }
    }
    hide Inv, Message, Drain, DeviceLines;
  }

  /** A pending interrupt is the bit of a device whose line is not masked. */
  lemma PendingIsDevice(s: System)
    requires s.Shape() && DeviceLines(s)
    ensures s.hw.PendingInterrupt() <==> exists k :: DeviceKey(k) && Line(k) !in s.hw.mask && Raised(s, k)
  {
    if s.hw.PendingInterrupt() {
      var j :| 0 <= j < IL_LINES && s.hw.lines[j] != {} && j !in s.hw.mask;
      var x :| x in s.hw.lines[j];
      var k := Key(if j == IL_TAPE then TAPE else if j == IL_DISK then DISK else PRINTER, x);
      assert DeviceKey(k) && Line(k) == j && Raised(s, k);
    }
    if k :| DeviceKey(k) && Line(k) !in s.hw.mask && Raised(s, k) {
      assert s.hw.lines[Line(k)] != {};
    }
  }

  lemma FiqEnds(s: System, e: Event)
    requires s.Shape() && e.TakeFiq?
    ensures var d := Managed(s, e);
      && (Drains(e) && d.hw.pending != [] ==> d.hw.pending[0].time >= e.later)
      && var x := if Drains(e) then Rearm(d, e.later) else d;
         x.Shape() && Step(s, e) == x.(hw := x.hw.CleanLines())
  {
    if Drains(e) {
      DrainLeavesLater(Middle(s, e), e.later, e.junk);
    }
    hide Drain, Message, Hw.CleanLines, Hw.PendingInterrupt, VirtualTimer.Set, VirtualTimer.Disable;
  }

  lemma RearmFires(d: System, now: nat)
    requires d.Shape() && (d.hw.pending != [] ==> d.hw.pending[0].time >= now)
    ensures var r := Rearm(d, now);
      && r.hw.mask == d.hw.mask && (r.hw.fireNow <==> d.hw.fireNow || d.hw.PendingInterrupt())
      && (r.hw.pending == [] ==> !r.hw.vtimer.enabled)
  {
    hide VirtualTimer.Set;
  }

  lemma FiresAfterDrain(s: System, e: Event)
    requires Inv(s) && e.TakeFiq?
    ensures var d, r := Managed(s, e), Step(s, e);
      && r.hw.mask == d.hw.mask && r.hw.lines == d.hw.lines && r.hw.pending == d.hw.pending
      && (r.hw.fireNow <==> d.hw.fireNow || (Drains(e) && d.hw.PendingInterrupt()))
      && (Drains(e) && r.hw.pending == [] ==> !r.hw.vtimer.enabled)
  {
    Ending(s, e);
    FiqEnds(s, e);
    if Drains(e) {
      RearmFires(Managed(s, e), e.later);
    }
    hide Inv, Managed, Step, Rearm, Hw.PendingInterrupt, Drains;
  }

  lemma RaisedByLines(s: System, r: System)
    requires s.Shape() && r.Shape() && r.hw.lines == s.hw.lines
    ensures DeviceLines(r) == DeviceLines(s) && forall k :: DeviceKey(k) ==> Raised(r, k) == Raised(s, k)
  {
  }

  /** The interrupt is fired in a timer FIQ that leaves a device's bit set whose line is not masked, and in no
      other event; it is never taken back. */
  lemma FiresExactly(s: System, e: Event)
    requires Inv(s) && DeviceLines(s)
    ensures var r := Step(s, e);
      r.hw.fireNow <==> s.hw.fireNow || (&& e.TakeFiq? && e.source % 16 >= 8
                                         && exists k :: DeviceKey(k) && Line(k) !in s.hw.mask && Raised(r, k))
  {
    if e.TakeFiq? {
      var d, r := Managed(s, e), Step(s, e);
      CauseByBits(e.source);
      ManagedKeepsDeviceLines(s, e);
      FiresAfterDrain(s, e);
      PendingIsDevice(d);
      RaisedByLines(d, r);
      assert Drains(e) <==> e.source % 16 >= 8;
      hide Inv, Managed, Step, DeviceLines, Hw.PendingInterrupt, Raised, Drains;
    }
  }

  lemma StepKeepsDeviceLines(s: System, e: Event)
    requires Inv(s) && DeviceLines(s)
    ensures DeviceLines(Step(s, e))
  {
    if e.TakeFiq? {
      ManagedKeepsDeviceLines(s, e);
      FiresAfterDrain(s, e);
      RaisedByLines(Managed(s, e), Step(s, e));
      hide Inv, Managed, Step, DeviceLines, Hw.PendingInterrupt, Drains;
    }
  }

  lemma {:induction false} RunKeepsDeviceLines(s: System, events: seq<Event>)
    requires Inv(s) && DeviceLines(s)
    ensures DeviceLines(Run(s, events))
    decreases |events|
  {
    if events != [] {
      var before := events[..|events| - 1];
      RunKeepsInv(s, before);
      RunKeepsDeviceLines(s, before);
      StepKeepsDeviceLines(Run(s, before), events[|events| - 1]);
    }
  }

  /** Start-up leaves no bit set, so its runs fire as told below. */
  lemma BootLines(v: Volume, freq: nat, tapeFiles: seq<nat>, diskFiles: seq<nat>, junk: Local, junk32: seq<Byte>)
    requires v.Mounted() && |tapeFiles| == MAX_DEVICES && |diskFiles| == MAX_DEVICES && |junk32| == 32
    ensures var s := StartUp.Boot(v, freq, tapeFiles, diskFiles, junk, junk32); s.Shape() && DeviceLines(s)
  {
    StartUp.BootQuiet(v, freq, tapeFiles, diskFiles, junk, junk32);
    hide StartUp.Boot;
  }

  predicate AllMasked(mask: set<nat>) {
    IL_TAPE in mask && IL_DISK in mask && IL_PRINTER in mask
  }

  /** With every line masked all along, no interrupt is ever fired. */
  lemma {:induction false} MaskedNeverFires(s: System, events: seq<Event>)
    requires Inv(s) && DeviceLines(s) && !s.hw.fireNow && AllMasked(s.hw.mask)
    requires forall e :: e in events && e.StoreMask? ==> AllMasked(e.mask)
    ensures !Run(s, events).hw.fireNow && AllMasked(Run(s, events).hw.mask)
    decreases |events|
  {
    if events != [] {
      var before, e := events[..|events| - 1], events[|events| - 1];
      assert e in events;
      MaskedNeverFires(s, before);
      RunKeepsInv(s, before);
      RunKeepsDeviceLines(s, before);
      FiresExactly(Run(s, before), e);
      MaskAfter(Run(s, before), e);
      hide Inv, Step, DeviceLines;
    }
  }

  lemma MaskAfter(s: System, e: Event)
    requires Inv(s)
    ensures Step(s, e).hw.mask == if e.StoreMask? then e.mask else s.hw.mask
  {
    if e.TakeFiq? {
      FiqMask(s, e);
    }
    hide Inv, Fiq;
  }

  lemma FiqMask(s: System, e: Event)
    requires Inv(s) && e.TakeFiq?
    ensures Step(s, e).hw.mask == s.hw.mask
  {
    FiresAfterDrain(s, e);
    MessageEffect(s, e.word, e.now, e.junk);
    MiddleKeepsInv(s, e);
    if Drains(e) {
      DrainEffect(Middle(s, e), e.later, e.junk, Key(TAPE, 0));
    }
    hide Inv, Step, Message, Drain, Drained, OnlyBit, ArmedIf, RegistersMove;
  }

  /** A completion on a line that is not masked always fires one. */
  lemma CompletionFires(s: System, events: seq<Event>, e: Event, k: Key)
    requires Inv(s) && DeviceLines(s) && DeviceKey(k)
    ensures var b := Run(s, events);
      Completes(b, e, k) && Line(k) !in b.hw.mask ==> Step(b, e).hw.fireNow
  {
    var b := Run(s, events);
    RunKeepsInv(s, events);
    RunKeepsDeviceLines(s, events);
    FiresExactly(b, e);
    SecondHalf(b, e, k);
    if Completes(b, e, k) {
      CompletionDrains(b, e, k);
      if e.TakeFiq? {
        CauseByBits(e.source);
      }
    }
    hide Inv, Step, Middle, DeviceLines, Raised, Completes, Run;
  }

  lemma CompletionDrains(b: System, e: Event, k: Key)
    requires Inv(b) && DeviceKey(k) && Completes(b, e, k)
    ensures Drains(e) && Raised(Step(b, e), k)
  {
    SecondHalf(b, e, k);
    hide Inv, Step, Middle;
    if !Drains(e) {
      SameDeviceMeans(Middle(b, e), Step(b, e), k);
    }
  }

  /** With nothing pending any more, a timer FIQ stops the counter. */
  lemma CounterStops(s: System, e: Event)
    requires Inv(s) && e.TakeFiq? && e.source % 16 >= 8
    ensures Step(s, e).hw.pending == [] ==> !Step(s, e).hw.vtimer.enabled
  {
    CauseByBits(e.source);
    FiresAfterDrain(s, e);
    hide Inv, Step, Managed;
  }
}
