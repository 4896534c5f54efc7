/** Printing over whole runs of the handler: what each printer has printed is what was sent to it, in order, whatever
    is sent to the other devices and however timers expire. */
module PrinterRuns {
  import opened TimerQueue
  import opened Hardware
  import opened Interrupts
  import opened Effects
  import opened Invariants
  import opened RunTheorems
  import opened Completions
  import opened Reports
  import Protocol
  import Tapes
  import Disks
  import Printers

  function PrinterKey(j: nat): (k: Key)
    ensures j < MAX_DEVICES ==> DeviceKey(k)
  {
    Key(PRINTER, j)
  }

  /** The characters printed on printer `j`, in order. */
  function TextOf(printed: seq<(nat, nat)>, j: nat): seq<nat> {
    if printed == [] then []
    else
      var last := printed[|printed| - 1];
      TextOf(printed[..|printed| - 1], j) + (if last.0 == j then [last.1] else [])
  }

  lemma TextOfOneMore(printed: seq<(nat, nat)>, c: (nat, nat), j: nat)
    ensures TextOf(printed + [c], j) == TextOf(printed, j) + (if c.0 == j then [c.1] else [])
  {
    assert (printed + [c])[..|printed + [c]| - 1] == printed;
  }

  // ----- Drains -----

  /** What a turn or a drain does to printer `j`: a character is printed when its command ends, and the registers
      stay but for the status, which says that the printer is ready; else nothing happens to it. */
  ghost predicate PrinterDrained(s: System, r: System, j: nat)
    requires s.Shape() && r.Shape() && j < MAX_DEVICES
  {
    var p, p' := s.printers[j], r.printers[j];
    if p.Busy() && !p'.Busy() then
      && p'.regs == p.regs.(status := DEVICE_READY)
      && TextOf(r.hw.printed, j) == TextOf(s.hw.printed, j) + [p.regs.data0 % 0x100]
    else p' == p && TextOf(r.hw.printed, j) == TextOf(s.hw.printed, j)
  }

  lemma OwnPrinterTurn(s: System, junk: Junk, j: nat)
    requires Inv(s) && s.hw.pending != [] && j < MAX_DEVICES && s.hw.pending[0].key == PrinterKey(j)
    ensures PrinterDrained(s, Turn(s, junk), j)
  {
    assert DeviceOk(s, PrinterKey(j));
    TextOfOneMore(s.hw.printed, (j, s.printers[j].regs.data0 % 0x100), j);
    hide Inv, TextOf, HasTimer;
  }

  lemma OtherPrinterTurn(s: System, junk: Junk, j: nat)
    requires Inv(s) && s.hw.pending != [] && j < MAX_DEVICES && s.hw.pending[0].key != PrinterKey(j)
    ensures PrinterDrained(s, Turn(s, junk), j)
  {
    var h, t := s.hw.pending[0].key, Turn(s, junk);
    assert s.hw.pending[0] in s.hw.pending;
    TurnSparesDevice(s, junk, PrinterKey(j));
    OthersText(Pop(s), h, junk, j);
    hide Inv, Manage, TextOf;
  }

  lemma OthersText(s: System, h: Key, junk: Junk, j: nat)
    requires s.Shape() && DeviceKey(h) && j < MAX_DEVICES && h != PrinterKey(j)
    ensures TextOf(Manage(s, h, junk).hw.printed, j) == TextOf(s.hw.printed, j)
  {
    hide Manage, TextOf, Regs, Busy, Timed;
    Protocol.PrintsOnCompletion(s, h, junk);
    if h.kind == PRINTER {
      TextOfOneMore(s.hw.printed, (h.code, Regs(s, h).data0 % 0x100), j);
    }
    assert s.hw.printed + [] == s.hw.printed;
  }

  lemma PrinterDrainedTrans(s: System, t: System, r: System, j: nat)
    requires s.Shape() && t.Shape() && r.Shape() && j < MAX_DEVICES && PrinterDrained(s, t, j) && PrinterDrained(t, r, j)
    ensures PrinterDrained(s, r, j)
  {
    hide TextOf;
  }

  lemma {:induction false} DrainPrints(s: System, now: nat, junk: Junk, j: nat)
    requires Inv(s) && j < MAX_DEVICES
    ensures PrinterDrained(s, Drain(s, now, junk), j)
    decreases |s.hw.pending|
  {
    var q := s.hw.pending;
    if q != [] && q[0].time < now {
      TurnKeepsInv(s, now, junk);
      if q[0].key == PrinterKey(j) {
        OwnPrinterTurn(s, junk, j);
      } else {
        OtherPrinterTurn(s, junk, j);
      }
      hide Inv, PrinterDrained, Manage;
      DrainPrints(Turn(s, junk), now, junk, j);
      PrinterDrainedTrans(s, Turn(s, junk), Drain(s, now, junk), j);
    } else {
      hide Inv, Manage, TextOf;
    }
  }

  // ----- Messages -----

  /** The printer after the event's message: nothing is printed, a command under way stays, and one taken up is
      what the program sent. */
  ghost predicate MessagePrints(b: System, e: Event, j: nat)
    requires b.Shape() && j < MAX_DEVICES
  {
    var m := Middle(b, e);
    var p, p' := b.printers[j], m.printers[j];
    && m.hw.printed == b.hw.printed
    && (p'.Busy() ==> (Accepts(b, e, PrinterKey(j)) <==> !p.Busy()))
    && (p'.Busy() && p.Busy() ==> p'.regs.command == p.regs.command && p'.regs.data0 == p.regs.data0)
    && (p'.Busy() && !p.Busy() ==>
          && p'.regs.command == Printers.PRINT_CHAR == Opcode(SentCommand(b, e.word))
          && p'.regs.data0 == b.hw.RegistersAt(AddressOf(e.word)).data0)
  }

  lemma MailboxPrints(p: Printers.Printer, hw: Hw, i: nat, address: nat, now: nat)
    requires hw.Shape() && address != NULL
    ensures var p', sent := Printers.Mailbox(p, hw, i, address, now).0, hw.RegistersAt(address);
      && (p'.Busy() && p.Busy() ==> p'.regs.command == p.regs.command && p'.regs.data0 == p.regs.data0)
      && (p'.Busy() && !p.Busy() ==>
            p'.regs.command == Printers.PRINT_CHAR == Opcode(sent.command) && p'.regs.data0 == sent.data0)
  {
    hide Opcode, Hw.Arm;
  }

  lemma PrinterOfMessage(s: System, word: nat, now: nat, junk: Junk, j: nat)
    requires s.Shape() && j < MAX_DEVICES && Target(word) == PrinterKey(j)
    ensures Message(s, word, now, junk).printers[j] == Printers.Mailbox(s.printers[j], s.hw, j, AddressOf(word), now).0
  {
    hide Tapes.Mailbox, Disks.Mailbox, Printers.Mailbox;
  }

  lemma MiddlePrints(b: System, e: Event, j: nat)
    requires b.Shape() && j < MAX_DEVICES
    ensures MessagePrints(b, e, j)
  {
    if e.TakeFiq? && MailboxPending(e.source) {
      MessageEffect(b, e.word, e.now, e.junk);
      if Messages(e, PrinterKey(j)) {
        MailboxPrints(b.printers[j], b.hw, j, AddressOf(e.word), e.now);
        PrinterOfMessage(b, e.word, e.now, e.junk, j);
        hide Message, Printers.Mailbox, OnlyBit, ArmedIf, RegistersMove, Opcode;
      } else {
        assert Middle(b, e) != b ==> SameDevice(b, Middle(b, e), PrinterKey(j));
        hide Message, OnlyBit, ArmedIf, RegistersMove;
      }
    }
  }

  // ----- Runs -----

  /** The characters sent to printer `j` with the commands that have ended in the run, in order. */
  function SentText(s: System, events: seq<Event>, j: nat): seq<nat>
    requires s.Shape() && j < MAX_DEVICES
    decreases |events|
  {
    if events == [] then []
    else
      var before, e := events[..|events| - 1], events[|events| - 1];
      SentText(s, before, j)
      + (if Completes(Run(s, before), e, PrinterKey(j)) then [LastSent(s, events, PrinterKey(j)).data0 % 0x100] else [])
  }

  lemma NextText(s: System, events: seq<Event>, e: Event, j: nat)
    requires s.Shape() && j < MAX_DEVICES
    ensures SentText(s, events + [e], j) == SentText(s, events, j)
      + (if Completes(Run(s, events), e, PrinterKey(j)) then [LastSent(s, events + [e], PrinterKey(j)).data0 % 0x100]
         else [])
  {
    assert (events + [e])[..|events + [e]| - 1] == events;
    hide Completes, LastSent;
  }

  /** A busy printer prints what was sent to it last. */
  ghost predicate Printing(p: Printers.Printer, sent: Registers) {
    p.Busy() ==> p.regs.command == Printers.PRINT_CHAR == Opcode(sent.command) && p.regs.data0 == sent.data0
  }

  /** From the middle of an event to its end. */
  lemma EventPrints(b: System, e: Event, j: nat)
    requires Inv(b) && j < MAX_DEVICES
    ensures PrinterDrained(Middle(b, e), Step(b, e), j)
  {
    var m, d, r := Middle(b, e), Managed(b, e), Step(b, e);
    MiddleKeepsInv(b, e);
    Ending(b, e);
    if Drains(e) {
      DrainPrints(m, e.later, e.junk, j);
    }
    assert r.printers == d.printers && r.hw.printed == d.hw.printed;
    hide Inv, Middle, Step, Drain, TextOf;
  }

  lemma MiddlePrinting(s: System, events: seq<Event>, e: Event, j: nat)
    requires s.Shape() && j < MAX_DEVICES
    requires var b := Run(s, events);
      MessagePrints(b, e, j) && Printing(b.printers[j], LastSent(s, events, PrinterKey(j)))
    ensures j < |Middle(Run(s, events), e).printers|
    ensures Printing(Middle(Run(s, events), e).printers[j], LastSent(s, events + [e], PrinterKey(j)))
  {
    NextSent(s, events, e, PrinterKey(j));
    hide Run, Middle, Accepts, LastSent, Opcode;
  }

  lemma StillPrinting(m: System, r: System, j: nat, sent: Registers)
    requires m.Shape() && r.Shape() && j < MAX_DEVICES && PrinterDrained(m, r, j) && Printing(m.printers[j], sent)
    ensures Printing(r.printers[j], sent)
  {
    hide TextOf, Opcode;
  }

  /** What holds of printer `j` after a run. */
  ghost predicate PrinterState(s: System, events: seq<Event>, j: nat)
    requires s.Shape() && j < MAX_DEVICES
  {
    var r := Run(s, events);
    && Printing(r.printers[j], LastSent(s, events, PrinterKey(j)))
    && TextOf(r.hw.printed, j) == TextOf(s.hw.printed, j) + SentText(s, events, j)
  }

  lemma {:induction false} RunPrints(s: System, events: seq<Event>, j: nat)
    requires Inv(s) && j < MAX_DEVICES && !s.printers[j].Busy()
    ensures PrinterState(s, events, j)
    decreases |events|
  {
    if events != [] {
      var before, e := events[..|events| - 1], events[|events| - 1];
      assert before + [e] == events;
      assert s.Shape();
      hide *;
      RunPrints(s, before, j);
      NextPrints(s, before, e, j);
    }
  }

  lemma NextPrints(s: System, before: seq<Event>, e: Event, j: nat)
    requires Inv(s) && j < MAX_DEVICES && PrinterState(s, before, j)
    ensures PrinterState(s, before + [e], j)
  {
    var b, all, k := Run(s, before), before + [e], PrinterKey(j);
    assert s.Shape();
    hide *;
    RunKeepsInv(s, before);
    StatePrints(s, before, j);
    MiddlePrints(b, e, j);
    MiddlePrinting(s, before, e, j);
    EventPrints(b, e, j);
    StillPrinting(Middle(b, e), Step(b, e), j, LastSent(s, all, k));
    NextSent(s, before, e, k);
    NextText(s, before, e, j);
    EventText(b, e, j, LastSent(s, all, k));
    MakesState(s, before, e, j);
  }

  lemma EventText(b: System, e: Event, j: nat, sent: Registers)
    requires b.Shape() && j < MAX_DEVICES && MessagePrints(b, e, j)
    requires PrinterDrained(Middle(b, e), Step(b, e), j) && Printing(Middle(b, e).printers[j], sent)
    ensures TextOf(Step(b, e).hw.printed, j) == TextOf(b.hw.printed, j)
      + (if Completes(b, e, PrinterKey(j)) then [sent.data0 % 0x100] else [])
  {
    hide Middle, Step, TextOf, Opcode, Accepts;
  }

  lemma MakesState(s: System, before: seq<Event>, e: Event, j: nat)
    requires s.Shape() && j < MAX_DEVICES
    requires var b, all, k := Run(s, before), before + [e], PrinterKey(j);
      var r, sent := Step(b, e), LastSent(s, all, k);
      var c := if Completes(b, e, k) then [sent.data0 % 0x100] else [];
      && Run(s, all) == r && Printing(r.printers[j], sent)
      && TextOf(r.hw.printed, j) == TextOf(b.hw.printed, j) + c && SentText(s, all, j) == SentText(s, before, j) + c
      && TextOf(b.hw.printed, j) == TextOf(s.hw.printed, j) + SentText(s, before, j)
    ensures PrinterState(s, before + [e], j)
  {
    hide Run, Step, Completes, LastSent, SentText, TextOf, Printing;
  }

  /** Over every run from a state in which printer `j` is idle: what it has printed is what was sent to it with the
      commands that have ended, in order.  When one ends, the printer is ready, its command is PRINT_CHAR, its data
      register 0 is the one sent, of which the low byte is the character printed, and the register block that the
      command was sent with holds exactly its registers, unless another device reports there in the same FIQ. */
  lemma PrintsWhatWasSent(s: System, events: seq<Event>, e: Event, j: nat)
    requires Inv(s) && Idle(s) && j < MAX_DEVICES
    ensures var b, all, k := Run(s, events), events + [e], PrinterKey(j);
      var m, r, sent, p := Middle(b, e), Step(b, e), LastSent(s, all, k), LastAddress(s, all, k);
      && TextOf(r.hw.printed, j) == TextOf(s.hw.printed, j) + SentText(s, all, j)
      && (Completes(b, e, k) ==>
            && Opcode(sent.command) == Printers.PRINT_CHAR
            && r.printers[j].regs.status == DEVICE_READY && r.printers[j].regs.command == Printers.PRINT_CHAR
            && r.printers[j].regs.data0 == sent.data0
            && TextOf(r.hw.printed, j) == TextOf(b.hw.printed, j) + [sent.data0 % 0x100]
            && p != NULL && (NoneReports(m, k, p, e.later) ==> r.hw.RegistersAt(p) == r.printers[j].regs))
  {
    var b, all, k := Run(s, events), events + [e], PrinterKey(j);
    IdlePrinter(s, j);
    assert s.Shape();
    hide *;
    RunKeepsInv(s, events);
    RunPrints(s, events, j);
    RunPrints(s, all, j);
    StatePrints(s, events, j);
    StatePrints(s, all, j);
    NextSent(s, events, e, k);
    MiddlePrints(b, e, j);
    MiddlePrinting(s, events, e, j);
    EventPrints(b, e, j);
    ReportsToSender(s, events, e, k);
    if Completes(b, e, k) {
      CompletionPrints(b, e, j, LastSent(s, all, k));
    }
  }

  lemma IdlePrinter(s: System, j: nat)
    requires s.Shape() && Idle(s) && j < MAX_DEVICES
    ensures !s.printers[j].Busy()
  {
    assert !Busy(s, PrinterKey(j));
  }

  lemma StatePrints(s: System, events: seq<Event>, j: nat)
    requires s.Shape() && j < MAX_DEVICES && PrinterState(s, events, j)
    ensures j < |Run(s, events).printers| && Printing(Run(s, events).printers[j], LastSent(s, events, PrinterKey(j)))
    ensures TextOf(Run(s, events).hw.printed, j) == TextOf(s.hw.printed, j) + SentText(s, events, j)
  {
    hide Run, Printing;
  }

  lemma CompletionPrints(b: System, e: Event, j: nat, sent: Registers)
    requires b.Shape() && j < MAX_DEVICES && Completes(b, e, PrinterKey(j))
    requires MessagePrints(b, e, j) && PrinterDrained(Middle(b, e), Step(b, e), j) && Printing(Middle(b, e).printers[j], sent)
    ensures var r := Step(b, e);
      && Opcode(sent.command) == Printers.PRINT_CHAR
      && r.printers[j].regs.status == DEVICE_READY && r.printers[j].regs.command == Printers.PRINT_CHAR
      && r.printers[j].regs.data0 == sent.data0
      && TextOf(r.hw.printed, j) == TextOf(b.hw.printed, j) + [sent.data0 % 0x100]
      && Regs(r, PrinterKey(j)) == r.printers[j].regs
  {
    hide Middle, Step, TextOf, Opcode, Accepts;
  }
}
