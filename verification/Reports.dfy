/** What a program finds when its command has ended: the device's registers, in the register block that the command
    was sent with; over whole runs, for tapes, disks and printers alike. */
module Reports {
  import opened TimerQueue
  import opened Hardware
  import opened Interrupts
  import opened Effects
  import opened Invariants
  import opened RunTheorems
  import opened Completions
  import Tapes
  import Disks
  import Printers

  // ----- One turn -----

  /** The turn of a busy device stores its registers where the command came from. */
  lemma OwnReport(s: System, junk: Junk, k: Key)
    requires Inv(s) && s.hw.pending != [] && s.hw.pending[0].key == k && DeviceKey(k) && Busy(s, k)
    ensures var t := Turn(s, junk);
      !Busy(t, k) && Pointer(t, k) == NULL && t.hw.RegistersAt(Pointer(s, k)) == Regs(t, k)
  {
    assert DeviceOk(s, k);
    SameDeviceMeans(s, Pop(s), k);
    ManageEffect(Pop(s), k, junk);
    hide Inv, Manage, OnlyBit, SameClockwork;
  }

  /** The turn of another device leaves the block at `p` alone, unless it reports there. */
  lemma OtherReport(s: System, junk: Junk, p: nat)
    requires Inv(s) && s.hw.pending != []
    requires var h := s.hw.pending[0].key; DeviceKey(h) ==> !Busy(s, h) || Pointer(s, h) != p
    ensures Turn(s, junk).hw.RegistersAt(p) == s.hw.RegistersAt(p)
  {
    var h := s.hw.pending[0].key;
    assert s.hw.pending[0] in s.hw.pending;
    assert DeviceOk(s, h);
    SameDeviceMeans(s, Pop(s), h);
    ManageEffect(Pop(s), h, junk);
    hide Inv, Manage, OnlyBit, SameClockwork;
  }

  // ----- A drain -----

  /** No device but `k` whose timer has expired at `now` reports to `p`. */
  ghost predicate NoneReports(s: System, k: Key, p: nat, now: nat)
    requires s.Shape()
  {
    forall e :: e in s.hw.pending && e.time < now && e.key != k && DeviceKey(e.key) && Busy(s, e.key) ==>
      Pointer(s, e.key) != p
  }

  lemma TurnKeepsNone(s: System, junk: Junk, k: Key, p: nat, now: nat)
    requires Inv(s) && s.hw.pending != [] && NoneReports(s, k, p, now)
    ensures NoneReports(Turn(s, junk), k, p, now)
  {
    var q, r := s.hw.pending, Turn(s, junk);
    var h := q[0].key;
    assert q[0] in q;
    assert DeviceOk(s, h);
    SameDeviceMeans(s, Pop(s), h);
    ManageEffect(Pop(s), h, junk);
    hide Manage, OnlyBit;
    forall e | e in r.hw.pending && e.time < now && e.key != k && DeviceKey(e.key) && Busy(r, e.key)
      ensures Pointer(r, e.key) != p
    {
      assert e in q;
      if e.key != h {
        SameDeviceMeans(Pop(s), r, e.key);
        SameDeviceMeans(s, Pop(s), e.key);
      }
    }
  }

  lemma {:induction false} DrainKeepsBlock(s: System, now: nat, junk: Junk, k: Key, p: nat)
    requires Inv(s) && DeviceKey(k) && !Busy(s, k) && NoneReports(s, k, p, now)
    ensures Drain(s, now, junk).hw.RegistersAt(p) == s.hw.RegistersAt(p)
    decreases |s.hw.pending|
  {
    var q := s.hw.pending;
    if q != [] && q[0].time < now {
      TurnKeepsInv(s, now, junk);
      TurnKeepsNone(s, junk, k, p, now);
      TurnOnDevice(s, now, junk, k);
      StaysIdle(s, Turn(s, junk), now, k);
      assert q[0] in q;
      OtherReport(s, junk, p);
      hide Inv, NoneReports, Manage, Drained;
      DrainKeepsBlock(Turn(s, junk), now, junk, k, p);
    }
  }

  /** A busy device that a drain ends has reported. */
  ghost predicate Reported(s: System, r: System, k: Key, now: nat)
    requires s.Shape() && r.Shape() && DeviceKey(k)
  {
    !Busy(r, k) ==>
      Pointer(r, k) == NULL
      && (NoneReports(s, k, Pointer(s, k), now) ==> r.hw.RegistersAt(Pointer(s, k)) == Regs(r, k))
  }

  lemma OwnDrainReports(s: System, now: nat, junk: Junk, k: Key)
    requires Inv(s) && DeviceKey(k) && Busy(s, k)
    requires s.hw.pending != [] && s.hw.pending[0].time < now && s.hw.pending[0].key == k
    ensures Reported(s, Drain(s, now, junk), k, now)
  {
    var t, p := Turn(s, junk), Pointer(s, k);
    TurnKeepsInv(s, now, junk);
    OwnReport(s, junk, k);
    DrainUnfolds(s, now, junk);
    hide Inv, Manage, Drain, NoneReports, Drained;
    DrainEffect(t, now, junk, k);
    StaysIdle(t, Drain(t, now, junk), now, k);
    SameDeviceMeans(t, Drain(t, now, junk), k);
    if NoneReports(s, k, p, now) {
      TurnKeepsNone(s, junk, k, p, now);
      DrainKeepsBlock(t, now, junk, k, p);
    }
  }

  lemma {:induction false} DrainReports(s: System, now: nat, junk: Junk, k: Key)
    requires Inv(s) && DeviceKey(k) && Busy(s, k)
    ensures Reported(s, Drain(s, now, junk), k, now)
    decreases |s.hw.pending|
  {
    var q := s.hw.pending;
    if q != [] && q[0].time < now {
      if q[0].key == k {
        OwnDrainReports(s, now, junk, k);
      } else {
        OthersDrainReports(s, now, junk, k);
      }
    }
    hide Inv, Drain, Reported;
  }

  lemma OthersDrainReports(s: System, now: nat, junk: Junk, k: Key)
    requires Inv(s) && DeviceKey(k) && Busy(s, k)
    requires s.hw.pending != [] && s.hw.pending[0].time < now && s.hw.pending[0].key != k
    ensures Reported(s, Drain(s, now, junk), k, now)
    decreases |s.hw.pending|, 0
  {
    var t := Turn(s, junk);
    TurnKeepsInv(s, now, junk);
    TurnSparesDevice(s, junk, k);
    DrainUnfolds(s, now, junk);
    assert s.Shape();
    hide *;
    DrainReports(t, now, junk, k);
    if NoneReports(s, k, Pointer(s, k), now) {
      TurnKeepsNone(s, junk, k, Pointer(s, k), now);
    }
    SameReported(s, t, Drain(s, now, junk), k, now);
  }

  lemma SameReported(s: System, t: System, r: System, k: Key, now: nat)
    requires s.Shape() && t.Shape() && r.Shape() && DeviceKey(k) && Pointer(t, k) == Pointer(s, k)
    requires NoneReports(s, k, Pointer(s, k), now) ==> NoneReports(t, k, Pointer(s, k), now)
    requires Reported(t, r, k, now)
    ensures Reported(s, r, k, now)
  {
    hide NoneReports;
  }

  // ----- Messages -----

  lemma TapePointer(t: Tapes.Tape, hw: Hw, i: nat, address: nat, now: nat, junk: Local)
    requires hw.Shape() && !t.Busy()
    ensures var t' := Tapes.Mailbox(t, hw, i, address, now, junk).0; t'.Busy() ==> t'.mailbox == address
  {
    hide Hw.Arm, Tapes.Marker;
  }

  lemma DiskPointer(d: Disks.Disk, hw: Hw, i: nat, address: nat, now: nat)
    requires hw.Shape() && !d.Busy()
    ensures var d' := Disks.Mailbox(d, hw, i, address, now).0; d'.Busy() ==> d'.mailbox == address
  {
    hide Hw.Arm, Disks.Disk.Delay, Disks.CylinderOf, Disks.SectorOf, Disks.HeadOf, Opcode;
  }

  lemma PrinterPointer(p: Printers.Printer, hw: Hw, i: nat, address: nat, now: nat)
    requires hw.Shape() && !p.Busy()
    ensures var p' := Printers.Mailbox(p, hw, i, address, now).0; p'.Busy() ==> p'.mailbox == address
  {
    hide Hw.Arm, Opcode;
  }

  lemma AcceptedPointer(s: System, word: nat, now: nat, junk: Junk)
    requires s.Shape() && DeviceKey(Target(word)) && Accepted(s, Message(s, word, now, junk), Target(word))
    ensures Pointer(Message(s, word, now, junk), Target(word)) == AddressOf(word)
  {
    var i, a := DeviceOf(word), AddressOf(word);
    hide Tapes.Mailbox, Disks.Mailbox, Printers.Mailbox;
    match Target(word).kind
    case TAPE => TapePointer(s.tapes[i], s.hw, i, a, now, junk[i]);
    case DISK => DiskPointer(s.disks[i], s.hw, i, a, now);
    case PRINTER => PrinterPointer(s.printers[i], s.hw, i, a, now);
  }

  /** Where a device busy after the event's message will report. */
  lemma MiddlePointer(b: System, e: Event, k: Key)
    requires b.Shape() && DeviceKey(k)
    ensures Busy(Middle(b, e), k) ==>
      Pointer(Middle(b, e), k) == if Accepts(b, e, k) then AddressOf(e.word) else Pointer(b, k)
    ensures Busy(Middle(b, e), k) && !Busy(b, k) ==> Accepts(b, e, k)
  {
    if e.TakeFiq? && MailboxPending(e.source) {
      MessageEffect(b, e.word, e.now, e.junk);
      var m := Middle(b, e);
      if AddressOf(e.word) != NULL && DeviceKey(Target(e.word)) {
        if k == Target(e.word) {
          if Accepted(b, m, k) {
            AcceptedPointer(b, e.word, e.now, e.junk);
          }
        } else {
          SameDeviceMeans(b, m, k);
        }
      }
      hide Message, OnlyBit, ArmedIf, SameStore, Target, AddressOf;
    }
  }

  // ----- Runs -----

  /** The address of the register block of the command that device `k` accepted last in the run; NULL when it
      accepted none. */
  function LastAddress(s: System, events: seq<Event>, k: Key): nat
    requires s.Shape() && DeviceKey(k)
    decreases |events|
  {
    if events == [] then NULL
    else
      var before, e := events[..|events| - 1], events[|events| - 1];
      if Accepts(Run(s, before), e, k) then AddressOf(e.word) else LastAddress(s, before, k)
  }

  lemma NextAddress(s: System, events: seq<Event>, e: Event, k: Key)
    requires s.Shape() && DeviceKey(k)
    ensures LastAddress(s, events + [e], k)
         == if Accepts(Run(s, events), e, k) then AddressOf(e.word) else LastAddress(s, events, k)
  {
    assert (events + [e])[..|events + [e]| - 1] == events;
    hide Accepts;
  }

  /** A device busy in the middle of the event reports to the sender of its command. */
  ghost predicate MiddleReports(s: System, events: seq<Event>, e: Event, k: Key)
    requires s.Shape() && DeviceKey(k)
  {
    var m := Middle(Run(s, events), e);
    Busy(m, k) ==> Pointer(m, k) == LastAddress(s, events + [e], k) != NULL
  }

  lemma StepReports(s: System, events: seq<Event>, e: Event, k: Key)
    requires Inv(s) && DeviceKey(k)
    requires var b := Run(s, events); Busy(b, k) ==> Pointer(b, k) == LastAddress(s, events, k)
    ensures MiddleReports(s, events, e, k)
  {
    var b := Run(s, events);
    RunKeepsInv(s, events);
    MiddlePointer(b, e, k);
    NextAddress(s, events, e, k);
    MiddleKeepsInv(b, e);
    assert DeviceOk(Middle(b, e), k);
    hide Inv, Run, Middle, Accepts, LastAddress, AddressOf;
  }

  lemma {:induction false} RunReports(s: System, events: seq<Event>, k: Key)
    requires Inv(s) && Idle(s) && DeviceKey(k)
    ensures var r := Run(s, events); Busy(r, k) ==> Pointer(r, k) == LastAddress(s, events, k)
    decreases |events|
  {
    if events != [] {
      var before, e := events[..|events| - 1], events[|events| - 1];
      assert before + [e] == events;
      var b := Run(s, before);
      RunReports(s, before, k);
      StepReports(s, before, e, k);
      RunKeepsInv(s, before);
      SecondHalf(b, e, k);
      hide Inv, Middle, Step, LastAddress, Accepts, Drains;
      PointerKept(Middle(b, e), Step(b, e), e, k);
    }
  }

  lemma PointerKept(m: System, r: System, e: Event, k: Key)
    requires Inv(m) && r.Shape() && DeviceKey(k)
    requires if Drains(e) then Drained(m, r, e.later, k) else SameDevice(m, r, k)
    ensures Busy(r, k) ==> Busy(m, k) && Pointer(r, k) == Pointer(m, k)
  {
    if SameDevice(m, r, k) {
      SameDeviceMeans(m, r, k);
    } else {
      assert DeviceOk(m, k);
      assert HasTimer(m.hw.pending, k);
      var x :| x in m.hw.pending && x.key == k;
      assert x == Entry(x.time, k);
    }
    hide Inv, Drains;
  }

  /** Over every run: a device that ends a command has stored its registers in the block that the command was sent
      with, and forgets the address; the block holds exactly them at the end of the event, unless another device
      reports to the same address in it. */
  lemma ReportsToSender(s: System, events: seq<Event>, e: Event, k: Key)
    requires Inv(s) && Idle(s) && DeviceKey(k)
    ensures var b := Run(s, events);
      var m, r, p := Middle(b, e), Step(b, e), LastAddress(s, events + [e], k);
      Completes(b, e, k) ==>
        && p != NULL && Pointer(m, k) == p && Pointer(r, k) == NULL
        && (NoneReports(m, k, p, e.later) ==> r.hw.RegistersAt(p) == Regs(r, k))
  {
    var b := Run(s, events);
    assert s.Shape();
    hide *;
    RunKeepsInv(s, events);
    RunReports(s, events, k);
    StepReports(s, events, e, k);
    if Completes(b, e, k) {
      CompletionReports(b, e, k);
      MiddleReportsMeans(s, events, e, k);
    }
  }

  lemma MiddleReportsMeans(s: System, events: seq<Event>, e: Event, k: Key)
    requires s.Shape() && DeviceKey(k) && MiddleReports(s, events, e, k) && Completes(Run(s, events), e, k)
    ensures Pointer(Middle(Run(s, events), e), k) == LastAddress(s, events + [e], k) != NULL
  {
    hide Run, Middle, Step, LastAddress;
  }

  lemma CompletionReports(b: System, e: Event, k: Key)
    requires Inv(b) && DeviceKey(k) && Completes(b, e, k)
    ensures var m, r := Middle(b, e), Step(b, e);
      && Pointer(r, k) == NULL
      && (NoneReports(m, k, Pointer(m, k), e.later) ==> r.hw.RegistersAt(Pointer(m, k)) == Regs(r, k))
  {
    var m, d, r := Middle(b, e), Managed(b, e), Step(b, e);
    MiddleKeepsInv(b, e);
    Ending(b, e);
    SameButMemoryKeepsInv(d, r);
    SameDeviceMeans(d, r, k);
    hide Inv, Middle, Drain, NoneReports;
    if Drains(e) {
      DrainReports(m, e.later, e.junk, k);
      FiqKeepsMemory(b, e);
    }
    hide Step, Drains;
  }

  /** After the drain the register blocks stay. */
  lemma FiqKeepsMemory(b: System, e: Event)
    requires Inv(b) && Drains(e)
    ensures Step(b, e).hw.memory == Managed(b, e).hw.memory
  {
    DrainLeavesLater(Middle(b, e), e.later, e.junk);
    hide Inv, Drain, Message, Hw.PendingInterrupt, Hw.CleanLines, VirtualTimer.Set, VirtualTimer.Disable;
  }
}
