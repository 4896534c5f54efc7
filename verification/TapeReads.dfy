/** A tape over whole runs of the handler: where the head is follows from what was sent, whatever is sent to
    the other devices and however timers expire, and a read that completes puts the block there at the
    program's address.  With reads alone, the blocks arrive in order, each once. */
module TapeReads {
  import opened Bytes
  import opened TimerQueue
  import opened Fat32
  import opened Hardware
  import opened Interrupts
  import opened Effects
  import opened Invariants
  import opened RunTheorems
  import opened TapeLayout
  import opened TapeRuns
  import opened Completions
  import Protocol
  import Tapes
  import Disks
  import Printers

  // ----- What runs are about -----

  function TapeKey(i: nat): (k: Key)
    ensures i < MAX_DEVICES ==> DeviceKey(k)
  {
    Key(TAPE, i)
  }

  // ----- Where commands take the head -----

  /** The block index after a command that takes time, on a tape of `n` blocks. */
  function MoveIndex(index: nat, command: nat, n: nat): nat {
    if command == Tapes.SKIPBLK then (if index < n then index + 1 else index)
    else if command == Tapes.BACKBLK then (if index > 0 then index - 1 else 0)
    else index + 1
  }

  /** The status it ends with: winding past an end of the tape is an error. */
  function EndStatus(index: nat, command: nat, n: nat): nat {
    if command == Tapes.SKIPBLK && index >= n then Tapes.SKIP_ERROR
    else if command == Tapes.BACKBLK && index == 0 then Tapes.BACK_BLOCK_ERROR
    else DEVICE_READY
  }

  /** What completing its command does to a tape and, for a read, to the program's block. */
  ghost predicate TapeEnded(t: Tapes.Tape, t': Tapes.Tape, n: nat) {
    && t'.blockIndex == MoveIndex(t.blockIndex, t.regs.command, n)
    && t'.regs.status == EndStatus(t.blockIndex, t.regs.command, n)
  }

  predicate Reading(t: Tapes.Tape) {
    t.regs.command == Tapes.READBLK
  }

  lemma SkipEnds(t: Tapes.Tape, hw: Hw, i: nat, junk: Local, ch: seq<nat>, f: seq<Byte>, n: nat)
    requires hw.Shape() && Holds(hw.volume, t.cluster, ch, f, n) && OnTape(t, f, n)
    requires t.Busy() && t.regs.command == Tapes.SKIPBLK
    ensures TapeEnded(t, Tapes.Manage(t, hw, i, junk).0, n)
  {
    SkipForward(t, hw.volume, junk, ch, f, n);
    assert t.blockIndex <= n;
    hide Tapes.NextBlock, Tapes.PrevBlock, Tapes.ReadBlock, Tapes.AfterRead, Holds, OnTape, MarkerUnder;
  }

  lemma BackEnds(t: Tapes.Tape, hw: Hw, i: nat, junk: Local, ch: seq<nat>, f: seq<Byte>, n: nat)
    requires hw.Shape() && Holds(hw.volume, t.cluster, ch, f, n) && OnTape(t, f, n)
    requires t.Busy() && t.regs.command == Tapes.BACKBLK
    ensures TapeEnded(t, Tapes.Manage(t, hw, i, junk).0, n)
  {
    SkipBack(t, hw.volume, junk, ch, f, n);
    hide Tapes.NextBlock, Tapes.PrevBlock, Tapes.ReadBlock, Tapes.AfterRead, Holds, OnTape, MarkerUnder;
  }

  lemma TapeEnds(t: Tapes.Tape, hw: Hw, i: nat, junk: Local, ch: seq<nat>, f: seq<Byte>, n: nat)
    requires hw.Shape() && Holds(hw.volume, t.cluster, ch, f, n) && OnTape(t, f, n)
    requires t.Busy() && Tapes.TimedCommand(t.regs.command)
    ensures var (t', hw') := Tapes.Manage(t, hw, i, junk);
      && TapeEnded(t, t', n)
      && (Reading(t) ==> t.blockIndex < n && hw'.BlockAt(t.regs.data0) == BlockBytes(f, t.blockIndex))
  {
    if t.regs.command == Tapes.SKIPBLK {
      SkipEnds(t, hw, i, junk, ch, f, n);
    } else if t.regs.command == Tapes.BACKBLK {
      BackEnds(t, hw, i, junk, ch, f, n);
    } else {
      ReadDelivers(t, hw, i, junk, ch, f, n);
    }
    hide Tapes.Manage, Holds, WellFormedTape, BlockBytes, MarkerUnder;
  }

  // ----- A drain -----

  /** What a drain does to a busy tape, and to the block it reads. */
  ghost predicate TapeDrained(s: System, r: System, i: nat, f: seq<Byte>, n: nat, now: nat)
    requires s.Shape() && r.Shape() && i < MAX_DEVICES && STRIDE * n <= |f|
  {
    var t := s.tapes[i];
    if r.tapes[i].Busy() then r.tapes[i] == t
    else
      && TapeEnded(t, r.tapes[i], n)
      && (Reading(t) ==> t.blockIndex < n)
      && (Reading(t) && Undisputed(s, TapeKey(i), t.regs.data0, now) ==>
           r.hw.BlockAt(t.regs.data0) == BlockBytes(f, t.blockIndex))
  }

  lemma TapeIsLong(s: System, i: nat, ch: seq<nat>, f: seq<Byte>, n: nat, own: seq<seq<nat>>)
    requires TapeKept(s, i, ch, f, n, own)
    ensures s.Shape() && i < MAX_DEVICES && STRIDE * n <= |f|
  {
  }

  lemma {:induction false} DrainTape(
      s: System, now: nat, junk: Junk, i: nat, ch: seq<nat>, f: seq<Byte>, n: nat, own: seq<seq<nat>>)
    requires Inv(s) && TapeKept(s, i, ch, f, n, own) && s.tapes[i].Busy()
    ensures STRIDE * n <= |f| && TapeDrained(s, Drain(s, now, junk), i, f, n, now)
    decreases |s.hw.pending|
  {
    var q := s.hw.pending;
    TapeIsLong(s, i, ch, f, n, own);
    if q != [] && q[0].time < now {
      TurnKeepsInv(s, now, junk);
      if q[0].key == TapeKey(i) {
        OwnTurn(s, now, junk, i, ch, f, n, own);
      } else {
        OthersDrain(s, now, junk, i, ch, f, n, own);
      }
    }
    hide Inv, TapeKept, Drain, Manage, Undisputed, BlockBytes, TapeEnded, Reading;
  }

  lemma OthersDrain(s: System, now: nat, junk: Junk, i: nat, ch: seq<nat>, f: seq<Byte>, n: nat, own: seq<seq<nat>>)
    requires Inv(s) && TapeKept(s, i, ch, f, n, own) && s.tapes[i].Busy() && STRIDE * n <= |f|
    requires s.hw.pending != [] && s.hw.pending[0].time < now && s.hw.pending[0].key != TapeKey(i)
    ensures TapeDrained(s, Drain(s, now, junk), i, f, n, now)
    decreases |s.hw.pending|, 0
  {
    var t, a := Turn(s, junk), s.tapes[i].regs.data0;
    assert s.hw.pending[0] in s.hw.pending && i < MAX_DEVICES;
    TurnKeepsInv(s, now, junk);
    DrainUnfolds(s, now, junk);
    hide *;
    OtherTurn(s, now, junk, i, ch, f, n, own);
    DrainTape(t, now, junk, i, ch, f, n, own);
    if Undisputed(s, TapeKey(i), a, now) {
      TurnKeepsUndisputed(s, junk, TapeKey(i), a, now);
    }
    SameDrained(s, t, Drain(s, now, junk), i, f, n, now);
  }

  lemma SameDrained(s: System, t: System, r: System, i: nat, f: seq<Byte>, n: nat, now: nat)
    requires s.Shape() && t.Shape() && r.Shape() && i < MAX_DEVICES && STRIDE * n <= |f|
    requires t.tapes[i] == s.tapes[i] && TapeDrained(t, r, i, f, n, now)
    requires var a := s.tapes[i].regs.data0; Undisputed(s, TapeKey(i), a, now) ==> Undisputed(t, TapeKey(i), a, now)
    ensures TapeDrained(s, r, i, f, n, now)
  {
    hide Undisputed, BlockBytes, TapeEnded, Reading;
  }

  lemma OtherTurn(s: System, now: nat, junk: Junk, i: nat, ch: seq<nat>, f: seq<Byte>, n: nat, own: seq<seq<nat>>)
    requires Inv(s) && TapeKept(s, i, ch, f, n, own)
    requires s.hw.pending != [] && s.hw.pending[0].time < now && s.hw.pending[0].key != TapeKey(i)
    ensures TapeKept(Turn(s, junk), i, ch, f, n, own) && Turn(s, junk).tapes[i] == s.tapes[i]
  {
    var k := s.hw.pending[0].key;
    assert s.hw.pending[0] in s.hw.pending;
    assert DeviceOk(s, k);
    PopKeepsWorld(s, k, i, ch, f, n, own);
    ManageEffect(Pop(s), k, junk);
    assert SameDevice(Pop(s), Turn(s, junk), TapeKey(i));
    hide TapeKept, DeviceOk, Inv, Manage;
    if k.kind == DISK {
      DiskTurnKeepsWorld(Pop(s), k, junk, i, ch, f, n, own);
    } else {
      OtherTurnKeepsWorld(Pop(s), k, junk, i, ch, f, n, own);
    }
  }

  lemma OwnTurn(s: System, now: nat, junk: Junk, i: nat, ch: seq<nat>, f: seq<Byte>, n: nat, own: seq<seq<nat>>)
    requires Inv(s) && TapeKept(s, i, ch, f, n, own) && STRIDE * n <= |f|
    requires s.hw.pending != [] && s.hw.pending[0].time < now && s.hw.pending[0].key == TapeKey(i)
    requires s.tapes[i].Busy() && Inv(Turn(s, junk))
    ensures TapeDrained(s, Drain(s, now, junk), i, f, n, now)
  {
    var k, a, t := TapeKey(i), s.tapes[i].regs.data0, Turn(s, junk);
    TapeTurn(s, junk, i, ch, f, n, own);
    DrainEffect(t, now, junk, k);
    EndedIsIdle(s.tapes[i], t.tapes[i], n);
    StaysIdle(t, Drain(t, now, junk), now, k);
    if Undisputed(s, k, a, now) {
      TurnKeepsUndisputed(s, junk, k, a, now);
      DrainSpares(t, now, junk, k, a);
    }
    hide Inv, Undisputed, Manage, TapeKept, Drained, BlockBytes, TapeEnded, Reading;
  }

  lemma EndedIsIdle(t: Tapes.Tape, t': Tapes.Tape, n: nat)
    requires TapeEnded(t, t', n)
    ensures !t'.Busy()
  {
  }

  /** The tape's own turn. */
  lemma TapeTurn(s: System, junk: Junk, i: nat, ch: seq<nat>, f: seq<Byte>, n: nat, own: seq<seq<nat>>)
    requires Inv(s) && TapeKept(s, i, ch, f, n, own) && s.hw.pending != [] && s.hw.pending[0].key == TapeKey(i)
    requires s.tapes[i].Busy()
    ensures var r, t := Turn(s, junk), s.tapes[i];
      && TapeEnded(t, r.tapes[i], n)
      && (Reading(t) ==> t.blockIndex < n && r.hw.BlockAt(t.regs.data0) == BlockBytes(f, t.blockIndex))
  {
    assert DeviceOk(s, TapeKey(i));
    assert Tapes.TimedCommand(s.tapes[i].regs.command);
    hide Tapes.Manage, Holds, OnTape, BlockBytes, TapeEnded, Inv, Reading, Tapes.TimedCommand, DeviceOk;
    TapeEnds(s.tapes[i], Pop(s).hw, i, junk[i], ch, f, n);
  }

  // ----- Messages -----

  predicate Rewinds(b: System, e: Event, i: nat)
    requires b.Shape() && i < MAX_DEVICES
  {
    Messages(e, TapeKey(i)) && Installed(b, TapeKey(i)) && SentCommand(b, e.word) == RESET
  }

  lemma MailboxMoves(t: Tapes.Tape, hw: Hw, i: nat, address: nat, now: nat, junk: Local)
    requires hw.Shape() && address != NULL
    ensures var t', sent := Tapes.Mailbox(t, hw, i, address, now, junk).0, hw.RegistersAt(address);
      && t'.blockIndex == (if t.regs.status != DEVICE_NOT_INSTALLED && sent.command == RESET then 0 else t.blockIndex)
      && (t'.Busy() && t.Busy() ==> t'.regs.command == t.regs.command && t'.regs.data0 == t.regs.data0)
      && (t'.Busy() && !t.Busy() ==> t'.regs.command == sent.command && Tapes.TimedCommand(sent.command))
      && (t'.Busy() && !t.Busy() && Reading(t') ==> t'.regs.data0 == sent.data0)
  {
    hide Hw.Arm, Tapes.Marker;
  }

  /** The tape after the event's message. */
  ghost predicate MessageMoves(b: System, e: Event, i: nat)
    requires b.Shape() && i < MAX_DEVICES
  {
    var t, t' := b.tapes[i], Middle(b, e).tapes[i];
    && t'.blockIndex == (if Rewinds(b, e, i) then 0 else t.blockIndex)
    && (t'.Busy() ==> (Accepts(b, e, TapeKey(i)) <==> !t.Busy()))
    && (t'.Busy() && t.Busy() ==> t'.regs.command == t.regs.command && t'.regs.data0 == t.regs.data0)
    && (t'.Busy() && !t.Busy() ==> t'.regs.command == SentCommand(b, e.word) && Tapes.TimedCommand(t'.regs.command))
    && (t'.Busy() && !t.Busy() && Reading(t') ==> t'.regs.data0 == b.hw.RegistersAt(AddressOf(e.word)).data0)
  }

  lemma MiddleMoves(b: System, e: Event, i: nat)
    requires b.Shape() && i < MAX_DEVICES
    ensures MessageMoves(b, e, i)
  {
    if e.TakeFiq? && MailboxPending(e.source) {
      MessageEffect(b, e.word, e.now, e.junk);
      if Messages(e, TapeKey(i)) {
        MailboxMoves(b.tapes[i], b.hw, i, AddressOf(e.word), e.now, e.junk[i]);
        TapeOfMessage(b, e.word, e.now, e.junk, i);
        hide Message, Tapes.Mailbox, DeviceMessage, Tapes.TimedCommand;
      } else {
        assert Middle(b, e) != b ==> SameDevice(b, Middle(b, e), TapeKey(i));
        hide Message, OnlyBit, ArmedIf, RegistersMove;
      }
    }
  }

  lemma TapeOfMessage(s: System, word: nat, now: nat, junk: Junk, i: nat)
    requires s.Shape() && i < MAX_DEVICES && Target(word) == TapeKey(i)
    ensures Message(s, word, now, junk).tapes[i] == Tapes.Mailbox(s.tapes[i], s.hw, i, AddressOf(word), now, junk[i]).0
  {
    hide Tapes.Mailbox, Disks.Mailbox, Printers.Mailbox;
  }

  // ----- Events -----

  /** Programming the counter and cleaning the lines leave devices and blocks alone. */
  lemma AfterDrain(b: System, e: Event)
    requires Inv(b) && Drains(e)
    ensures var d, r := Drain(Middle(b, e), e.later, e.junk), Step(b, e);
      r.tapes == d.tapes && r.hw.ram == d.hw.ram
  {
    DrainLeavesLater(Middle(b, e), e.later, e.junk);
    hide Drain, Message, Hw.PendingInterrupt, Hw.CleanLines;
  }

  lemma NoDrain(b: System, e: Event)
    requires b.Shape() && !Drains(e)
    ensures Step(b, e).tapes == Middle(b, e).tapes
  {
    hide Message, Hw.CleanLines;
  }

  /** From the middle of an event to its end. */
  ghost predicate TapeStep(b: System, e: Event, i: nat, f: seq<Byte>, n: nat)
    requires b.Shape() && i < MAX_DEVICES && STRIDE * n <= |f|
  {
    var m, r := Middle(b, e), Step(b, e);
    if Completes(b, e, TapeKey(i)) then TapeDrained(m, r, i, f, n, e.later) else r.tapes[i] == m.tapes[i]
  }

  lemma StepMoves(b: System, e: Event, i: nat, ch: seq<nat>, f: seq<Byte>, n: nat, own: seq<seq<nat>>)
    requires Inv(b) && TapeKept(b, i, ch, f, n, own)
    ensures STRIDE * n <= |f| && TapeStep(b, e, i, f, n)
  {
    TapeIsLong(b, i, ch, f, n, own);
    if Drains(e) {
      DrainMoves(b, e, i, ch, f, n, own);
    } else {
      NoDrain(b, e);
      hide Inv, TapeKept, Middle, Step;
    }
  }

  lemma DrainMoves(b: System, e: Event, i: nat, ch: seq<nat>, f: seq<Byte>, n: nat, own: seq<seq<nat>>)
    requires Inv(b) && TapeKept(b, i, ch, f, n, own) && Drains(e) && STRIDE * n <= |f|
    ensures i < MAX_DEVICES && TapeStep(b, e, i, f, n)
  {
    var m, k := Middle(b, e), TapeKey(i);
    TapeIsLong(b, i, ch, f, n, own);
    hide *;
    MiddleKeepsInv(b, e);
    MiddleKeepsWorld(b, e, i, ch, f, n, own);
    TapeIsLong(m, i, ch, f, n, own);
    AfterDrain(b, e);
    if m.tapes[i].Busy() {
      DrainTape(m, e.later, e.junk, i, ch, f, n, own);
    } else {
      IdleDrain(m, e.later, e.junk, i);
    }
    StepIsDrain(b, e, i, f, n);
  }

  lemma IdleDrain(m: System, now: nat, junk: Junk, i: nat)
    requires Inv(m) && i < MAX_DEVICES && !m.tapes[i].Busy()
    ensures Drain(m, now, junk).tapes[i] == m.tapes[i]
  {
    DrainEffect(m, now, junk, TapeKey(i));
    hide Inv, Drain, Drained;
    StaysIdle(m, Drain(m, now, junk), now, TapeKey(i));
  }

  lemma StepIsDrain(b: System, e: Event, i: nat, f: seq<Byte>, n: nat)
    requires b.Shape() && i < MAX_DEVICES && STRIDE * n <= |f| && Drains(e)
    requires var m, d, r := Middle(b, e), Drain(Middle(b, e), e.later, e.junk), Step(b, e);
      && r.tapes == d.tapes && r.hw.ram == d.hw.ram
      && if m.tapes[i].Busy() then TapeDrained(m, d, i, f, n, e.later) else d.tapes[i] == m.tapes[i]
    ensures TapeStep(b, e, i, f, n)
  {
    hide Drain, Middle, Step, Undisputed, BlockBytes, TapeEnded, Reading;
  }

  lemma MiddleKeepsWorld(b: System, e: Event, i: nat, ch: seq<nat>, f: seq<Byte>, n: nat, own: seq<seq<nat>>)
    requires TapeKept(b, i, ch, f, n, own)
    ensures TapeKept(Middle(b, e), i, ch, f, n, own)
  {
    if e.TakeFiq? && MailboxPending(e.source) {
      MessageKeepsWorld(b, e.word, e.now, e.junk, i, ch, f, n, own);
    }
    hide TapeKept, Message;
  }

  // ----- Where the head is, from what was sent -----

  /** The block index after a run: a RESET takes it to 0, a completion moves it by the command accepted last. */
  function TapeIndex(s: System, events: seq<Event>, i: nat, n: nat): nat
    requires s.Shape() && i < MAX_DEVICES
    decreases |events|
  {
    if events == [] then s.tapes[i].blockIndex
    else
      var before, e := events[..|events| - 1], events[|events| - 1];
      IndexAfter(s, events, Run(s, before), e, i, n, TapeIndex(s, before, i, n))
  }

  /** The index between the message and the timers of an event. */
  function IndexBetween(b: System, e: Event, i: nat, index: nat): nat
    requires b.Shape() && i < MAX_DEVICES
  {
    if Rewinds(b, e, i) then 0 else index
  }

  function IndexAfter(s: System, events: seq<Event>, b: System, e: Event, i: nat, n: nat, index: nat): nat
    requires s.Shape() && b.Shape() && i < MAX_DEVICES
  {
    var between := IndexBetween(b, e, i, index);
    if Completes(b, e, TapeKey(i)) then MoveIndex(between, LastSent(s, events, TapeKey(i)).command, n) else between
  }

  /** The head is where the commands sent have taken it, and a command under way is the one accepted last. */
  ghost predicate TapeState(s: System, events: seq<Event>, i: nat, n: nat)
    requires s.Shape() && i < MAX_DEVICES
  {
    var t, sent := Run(s, events).tapes[i], LastSent(s, events, TapeKey(i));
    && t.blockIndex == TapeIndex(s, events, i, n)
    && (t.Busy() ==> t.regs.command == sent.command && (Reading(t) ==> t.regs.data0 == sent.data0))
  }

  /** The same between the message and the timers of the next event. */
  ghost predicate MiddleState(s: System, events: seq<Event>, e: Event, i: nat, n: nat)
    requires s.Shape() && i < MAX_DEVICES
  {
    var b := Run(s, events);
    var t, sent := Middle(b, e).tapes[i], LastSent(s, events + [e], TapeKey(i));
    && t.blockIndex == IndexBetween(b, e, i, TapeIndex(s, events, i, n))
    && (t.Busy() ==> t.regs.command == sent.command && (Reading(t) ==> t.regs.data0 == sent.data0))
  }

  lemma MiddleSent(s: System, events: seq<Event>, e: Event, i: nat, n: nat)
    requires s.Shape() && i < MAX_DEVICES && TapeState(s, events, i, n) && MessageMoves(Run(s, events), e, i)
    ensures MiddleState(s, events, e, i, n)
  {
    NextSent(s, events, e, TapeKey(i));
    hide Run, Middle, Accepts, LastSent, TapeIndex, Rewinds, Tapes.TimedCommand;
  }

  lemma NextIndex(s: System, events: seq<Event>, e: Event, i: nat, n: nat)
    requires s.Shape() && i < MAX_DEVICES
    ensures TapeIndex(s, events + [e], i, n)
         == IndexAfter(s, events + [e], Run(s, events), e, i, n, TapeIndex(s, events, i, n))
  {
    assert (events + [e])[..|events + [e]| - 1] == events;
    hide Run, IndexAfter;
  }

  lemma NextState(s: System, events: seq<Event>, e: Event, i: nat, f: seq<Byte>, n: nat)
    requires s.Shape() && i < MAX_DEVICES && STRIDE * n <= |f|
    requires MiddleState(s, events, e, i, n) && TapeStep(Run(s, events), e, i, f, n)
    ensures TapeState(s, events + [e], i, n)
  {
    NextSent(s, events, e, TapeKey(i));
    NextIndex(s, events, e, i, n);
    hide Run, Step, Middle, Accepts, LastSent, TapeIndex, IndexBetween, MoveIndex, Undisputed, BlockBytes;
  }

  lemma {:induction false} RunMoves(
      s: System, events: seq<Event>, i: nat, ch: seq<nat>, f: seq<Byte>, n: nat, own: seq<seq<nat>>)
    requires Inv(s) && TapeKept(s, i, ch, f, n, own) && !s.tapes[i].Busy()
    ensures TapeState(s, events, i, n)
    decreases |events|
  {
    if events != [] {
      var before, e := events[..|events| - 1], events[|events| - 1];
      assert before + [e] == events;
      assert i < MAX_DEVICES && s.Shape();
      hide *;
      RunMoves(s, before, i, ch, f, n, own);
      var b := Run(s, before);
      RunKeepsInv(s, before);
      RunKeepsWorld(s, before, i, ch, f, n, own);
      MiddleMoves(b, e, i);
      MiddleSent(s, before, e, i, n);
      StepMoves(b, e, i, ch, f, n, own);
      NextState(s, before, e, i, f, n);
    }
  }

  /** Over every run from a state in which tape `i` is idle, for every mix of SKIPBLK, BACKBLK, READBLK, RESET,
      ACK and illegal commands to it, other devices and timers interleaved: the block index is where the
      commands sent have taken it, at most n, with the end-of-tape marker exactly at n; a READBLK completes
      only before a block, and then puts that block, whole, at the address sent with it, unless another read
      to that address ends in the same FIQ or a disk write has left its buffer. */
  lemma TapeDelivers(s: System, events: seq<Event>, e: Event, i: nat, ch: seq<nat>, f: seq<Byte>, n: nat,
                     own: seq<seq<nat>>)
    requires Inv(s) && TapeWorld(s, i, ch, f, n, own) && !s.tapes[i].Busy()
    ensures STRIDE * n <= |f|
    ensures var b, all, k := Run(s, events), events + [e], TapeKey(i);
      var m, r, sent := Middle(b, e), Step(b, e), LastSent(s, all, k);
      var index := IndexBetween(b, e, i, TapeIndex(s, events, i, n));
      r.hw.overrun ||
      (&& r.tapes[i].blockIndex == TapeIndex(s, all, i, n) <= n
       && (r.tapes[i].regs.data1 == Tapes.EOT <==> TapeIndex(s, all, i, n) == n)
       && (Completes(b, e, k) ==> r.tapes[i].regs.status == EndStatus(index, sent.command, n))
       && (Completes(b, e, k) && sent.command == Tapes.READBLK ==>
             && index < n
             && (Undisputed(m, k, sent.data0, e.later) ==> r.hw.BlockAt(sent.data0) == BlockBytes(f, index))))
  {
    var b, all := Run(s, events), events + [e];
    assert i < MAX_DEVICES && s.Shape() && TapeKept(s, i, ch, f, n, own);
    hide *;
    RunKeepsInv(s, events);
    RunKeepsWorld(s, events, i, ch, f, n, own);
    RunMoves(s, events, i, ch, f, n, own);
    RunKeepsWorld(s, all, i, ch, f, n, own);
    RunMoves(s, all, i, ch, f, n, own);
    MiddleMoves(b, e, i);
    MiddleSent(s, events, e, i, n);
    StepMoves(b, e, i, ch, f, n, own);
    NextSent(s, events, e, TapeKey(i));
    KeptMeans(Run(s, all), i, ch, f, n, own);
    StateMeans(s, all, i, n);
    CompletionMeans(s, events, e, i, f, n);
  }

  lemma StateMeans(s: System, events: seq<Event>, i: nat, n: nat)
    requires s.Shape() && i < MAX_DEVICES && TapeState(s, events, i, n)
    ensures i < |Run(s, events).tapes| && Run(s, events).tapes[i].blockIndex == TapeIndex(s, events, i, n)
  {
    hide Run, TapeIndex;
  }

  lemma CompletionMeans(s: System, events: seq<Event>, e: Event, i: nat, f: seq<Byte>, n: nat)
    requires s.Shape() && i < MAX_DEVICES && STRIDE * n <= |f|
    requires MiddleState(s, events, e, i, n) && TapeStep(Run(s, events), e, i, f, n)
    ensures DeviceKey(TapeKey(i)) && i < |Step(Run(s, events), e).tapes|
    ensures var b, k := Run(s, events), TapeKey(i);
      var m, r, sent := Middle(b, e), Step(b, e), LastSent(s, events + [e], k);
      var index := IndexBetween(b, e, i, TapeIndex(s, events, i, n));
      Completes(b, e, k) ==>
        && r.tapes[i].regs.status == EndStatus(index, sent.command, n)
        && (sent.command == Tapes.READBLK ==>
             && index < n
             && (Undisputed(m, k, sent.data0, e.later) ==> r.hw.BlockAt(sent.data0) == BlockBytes(f, index)))
  {
    hide Run, Middle, Step, LastSent, Undisputed, TapeIndex, IndexBetween, EndStatus, BlockBytes, MoveIndex;
  }

  // ----- Reads alone -----

  /** The event's message, if it is for tape `i`, reads, acknowledges or asks for registers; winding is sent
      only while the tape is busy, when it is refused. */
  predicate OnlyReads(b: System, e: Event, i: nat)
    requires b.Shape() && i < MAX_DEVICES
  {
    Messages(e, TapeKey(i)) ==> ReadOp(SentCommand(b, e.word), b.tapes[i].Busy())
  }

  predicate ReadOp(op: nat, busy: bool) {
    op == Tapes.READBLK || op == ACK || op == READ_REGISTERS || (busy && (op == Tapes.SKIPBLK || op == Tapes.BACKBLK))
  }

  predicate RunOnlyReads(s: System, events: seq<Event>, i: nat)
    requires s.Shape() && i < MAX_DEVICES
    decreases |events|
  {
    events != [] ==>
      var before := events[..|events| - 1];
      RunOnlyReads(s, before, i) && OnlyReads(Run(s, before), events[|events| - 1], i)
  }

  /** How many commands tape `i` has completed in the run. */
  function CompletionCount(s: System, events: seq<Event>, i: nat): nat
    requires s.Shape() && i < MAX_DEVICES
    decreases |events|
  {
    if events == [] then 0
    else
      var before := events[..|events| - 1];
      CompletionCount(s, before, i) + (if Completes(Run(s, before), events[|events| - 1], TapeKey(i)) then 1 else 0)
  }

  lemma NextCount(s: System, events: seq<Event>, e: Event, i: nat)
    requires s.Shape() && i < MAX_DEVICES
    ensures CompletionCount(s, events + [e], i)
         == CompletionCount(s, events, i) + if Completes(Run(s, events), e, TapeKey(i)) then 1 else 0
  {
    assert (events + [e])[..|events + [e]| - 1] == events;
    hide Run, Completes;
  }

  lemma NextOnlyReads(s: System, events: seq<Event>, e: Event, i: nat)
    requires s.Shape() && i < MAX_DEVICES
    ensures RunOnlyReads(s, events + [e], i) <==> RunOnlyReads(s, events, i) && OnlyReads(Run(s, events), e, i)
  {
    assert (events + [e])[..|events + [e]| - 1] == events;
    hide Run, OnlyReads;
  }

  /** With reads alone the index counts the completions, and what completes is a read. */
  ghost predicate Counted(s: System, events: seq<Event>, i: nat, n: nat)
    requires s.Shape() && i < MAX_DEVICES
  {
    && TapeIndex(s, events, i, n) == CompletionCount(s, events, i)
    && (Run(s, events).tapes[i].Busy() ==> LastSent(s, events, TapeKey(i)).command == Tapes.READBLK)
  }

  lemma NotRewound(b: System, e: Event, i: nat)
    requires b.Shape() && i < MAX_DEVICES && OnlyReads(b, e, i)
    ensures !Rewinds(b, e, i)
  {
    hide Middle;
  }

  /** A tape that is busy after the message has accepted a read by it, or was busy before. */
  lemma BusyWithRead(b: System, e: Event, i: nat)
    requires b.Shape() && i < MAX_DEVICES && OnlyReads(b, e, i) && MessageMoves(b, e, i) && Middle(b, e).tapes[i].Busy()
    ensures DeviceKey(TapeKey(i))
    ensures if b.tapes[i].Busy() then !Accepts(b, e, TapeKey(i))
            else Accepts(b, e, TapeKey(i)) && b.hw.RegistersAt(AddressOf(e.word)).command == Tapes.READBLK
  {
    AcceptsIsMessage(b, e, i);
    hide Middle, Accepts, Messages, Rewinds;
  }

  lemma AcceptsIsMessage(b: System, e: Event, i: nat)
    requires b.Shape() && i < MAX_DEVICES
    ensures DeviceKey(TapeKey(i)) && (Accepts(b, e, TapeKey(i)) ==> Messages(e, TapeKey(i)))
  {
    hide Middle;
  }

  /** The command under way between message and timers is a read. */
  lemma MiddleIsRead(s: System, events: seq<Event>, e: Event, i: nat, n: nat)
    requires s.Shape() && i < MAX_DEVICES && Counted(s, events, i, n) && OnlyReads(Run(s, events), e, i)
    requires MessageMoves(Run(s, events), e, i)
    ensures Middle(Run(s, events), e).tapes[i].Busy() ==> LastSent(s, events + [e], TapeKey(i)).command == Tapes.READBLK
  {
    hide Run, Middle, Accepts, LastSent, TapeIndex, CompletionCount, OnlyReads, MessageMoves;
    if Middle(Run(s, events), e).tapes[i].Busy() {
      NextSent(s, events, e, TapeKey(i));
      BusyWithRead(Run(s, events), e, i);
    }
  }

  lemma NextCounted(s: System, events: seq<Event>, e: Event, i: nat, f: seq<Byte>, n: nat)
    requires s.Shape() && i < MAX_DEVICES && STRIDE * n <= |f| && Counted(s, events, i, n)
    requires !Rewinds(Run(s, events), e, i)
    requires Middle(Run(s, events), e).tapes[i].Busy() ==> LastSent(s, events + [e], TapeKey(i)).command == Tapes.READBLK
    requires TapeStep(Run(s, events), e, i, f, n)
    ensures Counted(s, events + [e], i, n)
  {
    hide Run, Middle, Step, LastSent, TapeIndex, CompletionCount, TapeDrained, Rewinds, Completes, Accepts;
    NextSent(s, events, e, TapeKey(i));
    NextIndex(s, events, e, i, n);
    NextCount(s, events, e, i);
    StepStaysBusy(Run(s, events), e, i, f, n);
  }

  lemma StepStaysBusy(b: System, e: Event, i: nat, f: seq<Byte>, n: nat)
    requires b.Shape() && i < MAX_DEVICES && STRIDE * n <= |f| && TapeStep(b, e, i, f, n)
    ensures DeviceKey(TapeKey(i)) && i < |Step(b, e).tapes| && i < |Middle(b, e).tapes|
    ensures Step(b, e).tapes[i].Busy() ==> Middle(b, e).tapes[i].Busy()
    ensures Completes(b, e, TapeKey(i)) ==> Middle(b, e).tapes[i].Busy()
  {
    hide Middle, Step, TapeDrained;
  }

  lemma {:induction false} RunCounts(
      s: System, events: seq<Event>, i: nat, ch: seq<nat>, f: seq<Byte>, n: nat, own: seq<seq<nat>>)
    requires Inv(s) && TapeKept(s, i, ch, f, n, own) && !s.tapes[i].Busy() && s.tapes[i].blockIndex == 0
    requires RunOnlyReads(s, events, i)
    ensures Counted(s, events, i, n)
    decreases |events|
  {
    if events != [] {
      var before, e := events[..|events| - 1], events[|events| - 1];
      assert before + [e] == events;
      assert i < MAX_DEVICES && s.Shape();
      hide *;
      NextOnlyReads(s, before, e, i);
      RunCounts(s, before, i, ch, f, n, own);
      OneMoreCounted(s, before, e, i, ch, f, n, own);
    }
  }

  lemma OneMoreCounted(s: System, before: seq<Event>, e: Event, i: nat, ch: seq<nat>, f: seq<Byte>, n: nat, own: seq<seq<nat>>)
    requires Inv(s) && TapeKept(s, i, ch, f, n, own) && !s.tapes[i].Busy() && s.tapes[i].blockIndex == 0
    requires Counted(s, before, i, n) && OnlyReads(Run(s, before), e, i)
    ensures Counted(s, before + [e], i, n)
  {
    var b := Run(s, before);
    assert i < MAX_DEVICES && s.Shape();
    hide *;
    RunKeepsInv(s, before);
    RunKeepsWorld(s, before, i, ch, f, n, own);
    RunMoves(s, before, i, ch, f, n, own);
    MiddleMoves(b, e, i);
    MiddleSent(s, before, e, i, n);
    StepMoves(b, e, i, ch, f, n, own);
    NotRewound(b, e, i);
    MiddleIsRead(s, before, e, i, n);
    NextCounted(s, before, e, i, f, n);
  }

  /** Reading from RESET, over every run in which the messages to tape `i` read, acknowledge or ask for
      registers, whatever is sent to the other devices and however timers expire: the block index counts
      the completions so far, the end-of-tape marker shows exactly when all n blocks have been read, and
      the next completion puts the next block, whole, at the address that its READBLK gave, unless
      another read to that address ends in the same FIQ or a disk write has left its buffer. */
  lemma ReadsBlocksInOrder(s: System, events: seq<Event>, e: Event, i: nat, ch: seq<nat>, f: seq<Byte>, n: nat,
                           own: seq<seq<nat>>)
    requires Inv(s) && TapeWorld(s, i, ch, f, n, own) && !s.tapes[i].Busy() && s.tapes[i].blockIndex == 0
    requires RunOnlyReads(s, events, i) && OnlyReads(Run(s, events), e, i)
    ensures STRIDE * n <= |f|
    ensures var b := Run(s, events);
      var m, r, done, target := Middle(b, e), Step(b, e), CompletionCount(s, events, i), LastSent(s, events + [e], TapeKey(i)).data0;
      r.hw.overrun ||
      (&& b.tapes[i].blockIndex == done <= n
       && (b.tapes[i].regs.data1 == Tapes.EOT <==> done == n)
       && (Completes(b, e, TapeKey(i)) ==>
             && done < n
             && (Undisputed(m, TapeKey(i), target, e.later) ==> r.hw.BlockAt(target) == BlockBytes(f, done))))
  {
    var b := Run(s, events);
    assert i < MAX_DEVICES && s.Shape() && TapeKept(s, i, ch, f, n, own);
    hide *;
    RunKeepsInv(s, events);
    RunKeepsWorld(s, events, i, ch, f, n, own);
    RunMoves(s, events, i, ch, f, n, own);
    RunCounts(s, events, i, ch, f, n, own);
    MiddleMoves(b, e, i);
    MiddleSent(s, events, e, i, n);
    NotRewound(b, e, i);
    MiddleIsRead(s, events, e, i, n);
    StepMoves(b, e, i, ch, f, n, own);
    KeptMeans(b, i, ch, f, n, own);
    StateMeans(s, events, i, n);
    CompletionMeans(s, events, e, i, f, n);
    CountMeans(s, events, e, i, n);
  }

  lemma CountMeans(s: System, events: seq<Event>, e: Event, i: nat, n: nat)
    requires s.Shape() && i < MAX_DEVICES && Counted(s, events, i, n) && !Rewinds(Run(s, events), e, i)
    ensures IndexBetween(Run(s, events), e, i, TapeIndex(s, events, i, n)) == TapeIndex(s, events, i, n) == CompletionCount(s, events, i)
    ensures DeviceKey(TapeKey(i)) && i < |Middle(Run(s, events), e).tapes|
    ensures Completes(Run(s, events), e, TapeKey(i)) ==> Middle(Run(s, events), e).tapes[i].Busy()
  {
    hide Run, Step, Middle, TapeIndex, CompletionCount, Rewinds;
  }

  lemma KeptMeans(s: System, i: nat, ch: seq<nat>, f: seq<Byte>, n: nat, own: seq<seq<nat>>)
    requires TapeKept(s, i, ch, f, n, own)
    ensures s.Shape() && i < MAX_DEVICES && s.tapes[i].blockIndex <= n
    ensures s.tapes[i].regs.data1 == Tapes.EOT <==> s.tapes[i].blockIndex == n
  {
    EotExactlyAtEnd(s.tapes[i], f, n);
  }

  /** A RESET of the tape, whatever it was doing and whatever else the FIQ does, gives the state that the
      theorem starts from. */
  lemma ResetStarts(b: System, e: Event, i: nat, ch: seq<nat>, f: seq<Byte>, n: nat, own: seq<seq<nat>>)
    requires Inv(b) && TapeWorld(b, i, ch, f, n, own) && Messages(e, TapeKey(i)) && SentCommand(b, e.word) == RESET
    ensures var r := Step(b, e);
      && Inv(r) && (r.hw.overrun || TapeWorld(r, i, ch, f, n, own))
      && !r.tapes[i].Busy() && r.tapes[i].blockIndex == 0
  {
    var m, r, k := Middle(b, e), Step(b, e), TapeKey(i);
    TapeIsLong(b, i, ch, f, n, own);
    InstalledTape(b, i, ch, f, n, own);
    TapeOfMessage(b, e.word, e.now, e.junk, i);
    Protocol.ResetRewinds(b.tapes[i], b.hw, i, AddressOf(e.word), e.now, e.junk[i]);
    SecondHalf(b, e, k);
    StepKeepsWorld(b, e, i, ch, f, n, own);
    assert m == Message(b, e.word, e.now, e.junk);
    hide Inv, TapeKept, Message, Step, Tapes.Mailbox;
    if Drains(e) {
      StaysIdle(m, r, e.later, k);
    }
  }

  lemma InstalledTape(s: System, i: nat, ch: seq<nat>, f: seq<Byte>, n: nat, own: seq<seq<nat>>)
    requires TapeKept(s, i, ch, f, n, own)
    ensures s.tapes[i].regs.status != DEVICE_NOT_INSTALLED
  {
  }
}
