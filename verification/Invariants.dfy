/** What every reachable state keeps, over every run of mailbox messages, timer expiries and writes of
    user programs. */
module Invariants {
  import opened TimerQueue
  import opened Hardware
  import opened Interrupts
  import opened Effects
  import Tapes
  import Disks
  import Printers

  ghost predicate HasTimer(q: seq<Entry>, k: Key) {
    exists e :: e in q && e.key == k
  }

  /** A busy device has a pending timer, a program to report to, and a command that ends by itself. */
  ghost predicate DeviceOk(s: System, k: Key)
    requires s.Shape() && DeviceKey(k)
  {
    Busy(s, k) ==> HasTimer(s.hw.pending, k) && Pointer(s, k) != NULL && Timed(s, k)
  }

  /** The installed mask says which devices are installed, and no line has another bit set. */
  ghost predicate LinesOk(s: System)
    requires s.Shape()
  {
    && (forall k :: DeviceKey(k) ==> (k.code in s.hw.installed[Line(k)] <==> Installed(s, k)))
    && (forall j :: 0 <= j < IL_LINES ==> s.hw.lines[j] <= s.hw.installed[j])
  }

  ghost predicate Inv(s: System) {
    && s.Shape()
    && WellFormed(s.hw.pending)
    && (forall k :: DeviceKey(k) ==> DeviceOk(s, k))
    && LinesOk(s)
  }

  lemma SameDeviceMeans(s: System, s': System, k: Key)
    requires s.Shape() && s'.Shape() && DeviceKey(k) && SameDevice(s, s', k)
    ensures Regs(s', k) == Regs(s, k) && Pointer(s', k) == Pointer(s, k)
    ensures Timed(s', k) == Timed(s, k) && Busy(s', k) == Busy(s, k) && Installed(s', k) == Installed(s, k)
  {
  }

  // ----- Messages -----

  lemma MessageKeepsDevices(s: System, s': System, word: nat, now: nat, k: Key)
    requires Inv(s) && DeviceMessage(s, s', word, now) && DeviceKey(k)
    ensures DeviceOk(s', k)
  {
    var t, deadline := Target(word), Deadline(s, word, now);
    AllocationNeverFails(s.hw.pending, t);
    AddTimerMembers(s.hw.pending, deadline, t);
    assert DeviceOk(s, k);
    hide AddTimer, Deadline, BitAfter, Tapes.TimedCommand, Disks.TimedCommand, Printers.TimedCommand;
    if k != t {
      SameDeviceMeans(s, s', k);
    }
    if Accepted(s, s', t) {
      assert Entry(deadline, t) in s'.hw.pending;
    }
  }

  lemma MessageKeepsLines(s: System, s': System, word: nat, now: nat)
    requires Inv(s) && DeviceMessage(s, s', word, now)
    ensures LinesOk(s')
  {
    var t := Target(word);
    forall k | DeviceKey(k)
      ensures k.code in s'.hw.installed[Line(k)] <==> Installed(s', k)
    {
      if k != t {
        SameDeviceMeans(s, s', k);
      }
    }
    assert t.code in s.hw.installed[Line(t)] <==> Installed(s, t);
    assert s.hw.lines[Line(t)] <= s.hw.installed[Line(t)];
  }

  lemma MessageKeepsInv(s: System, word: nat, now: nat, junk: Junk)
    requires Inv(s)
    ensures Inv(Message(s, word, now, junk))
  {
    var s', t := Message(s, word, now, junk), Target(word);
    MessageEffect(s, word, now, junk);
    if s' != s {
      MessageKeepsLines(s, s', word, now);
      AddTimerWellFormed(s.hw.pending, Deadline(s, word, now), t);
      forall k | DeviceKey(k)
        ensures DeviceOk(s', k)
      {
        MessageKeepsDevices(s, s', word, now, k);
      }
      hide LinesOk, WellFormed, DeviceOk, AddTimer;
    }
  }

  // ----- Draining -----

  function Pop(s: System): System
    requires s.Shape() && s.hw.pending != []
  {
    s.(hw := s.hw.(pending := s.hw.pending[1..]))
  }

  /** One turn of the drain loop. */
  function Turn(s: System, junk: Junk): (r: System)
    requires s.Shape() && s.hw.pending != []
    ensures r.Shape()
  {
    Manage(Pop(s), s.hw.pending[0].key, junk)
  }

  /** What draining up to `now` does to device `k`: it is completed, its deadline having passed, or it
      is left alone with its timer; its interrupt bit is set by completion and by nothing else, and
      never cleared. */
  ghost predicate Drained(s: System, r: System, now: nat, k: Key) {
    && s.Shape() && r.Shape() && DeviceKey(k)
    && (!Busy(s, k) ==> SameDevice(s, r, k))
    && (forall d: nat :: Busy(s, k) && Entry(d, k) in s.hw.pending ==>
          (d < now && !Busy(r, k)) || (SameDevice(s, r, k) && Entry(d, k) in r.hw.pending))
    && (Raised(r, k) <==> Raised(s, k) || (Busy(s, k) && !Busy(r, k)))
    && (Installed(r, k) <==> Installed(s, k))
  }

  ghost predicate SameSetting(hw: Hw, hw': Hw) {
    hw'.installed == hw.installed && hw'.mask == hw.mask && hw'.freq == hw.freq && hw'.vtimer == hw.vtimer
  }

  lemma PopMembers(q: seq<Entry>, k: Key)
    requires WellFormed(q) && q != []
    ensures k != q[0].key ==> forall d: nat :: Entry(d, k) in q ==> Entry(d, k) in q[1..]
    ensures k == q[0].key ==> forall d: nat :: Entry(d, k) in q ==> d == q[0].time
    ensures k != q[0].key && HasTimer(q, k) ==> HasTimer(q[1..], k)
  {
    hide Sorted, DeviceKeys;
    assert q == [q[0]] + q[1..];
    if k == q[0].key {
      forall d: nat | Entry(d, k) in q
        ensures d == q[0].time
      {
        var i :| 0 <= i < |q| && q[i] == Entry(d, k);
      }
    } else if HasTimer(q, k) {
      var e :| e in q && e.key == k;
      assert e in q[1..];
    }
  }

  lemma PopWellFormed(q: seq<Entry>)
    requires WellFormed(q) && q != []
    ensures WellFormed(q[1..])
  {
    assert q == [q[0]] + q[1..];
  }

  lemma TurnSparesDevice(s: System, junk: Junk, k: Key)
    requires Inv(s) && DeviceKey(k) && s.hw.pending != [] && s.hw.pending[0].key != k
    ensures var t := Turn(s, junk);
      && t.hw.pending == s.hw.pending[1..] && SameDevice(s, t, k) && Raised(t, k) == Raised(s, k)
      && Busy(t, k) == Busy(s, k) && Pointer(t, k) == Pointer(s, k) && Regs(t, k) == Regs(s, k)
  {
    var h := s.hw.pending[0].key;
    assert s.hw.pending[0] in s.hw.pending;
    assert DeviceOk(s, h);
    SameDeviceMeans(s, Pop(s), h);
    SameDeviceMeans(s, Pop(s), k);
    ManageEffect(Pop(s), h, junk);
    hide Inv, Manage, OnlyBit;
    SameDeviceMeans(Pop(s), Turn(s, junk), k);
  }

  /** A turn of another device leaves the device, its bit and its timer. */
  lemma SparedMeans(s: System, r: System, now: nat, k: Key)
    requires s.Shape() && r.Shape() && DeviceKey(k) && DeviceOk(s, k)
    requires SameDevice(s, r, k) && Raised(r, k) == Raised(s, k)
    requires forall d: nat :: Entry(d, k) in s.hw.pending ==> Entry(d, k) in r.hw.pending
    requires HasTimer(s.hw.pending, k) ==> HasTimer(r.hw.pending, k)
    ensures DeviceOk(r, k) && Drained(s, r, now, k)
  {
    SameDeviceMeans(s, r, k);
    hide HasTimer, SameDevice, Raised, Regs, Pointer, Timed;
  }

  lemma TurnOnOther(s: System, now: nat, junk: Junk, k: Key)
    requires Inv(s) && s.hw.pending != [] && s.hw.pending[0].key != k && DeviceKey(k)
    ensures var r := Turn(s, junk); DeviceOk(r, k) && Drained(s, r, now, k)
  {
    assert DeviceOk(s, k) && WellFormed(s.hw.pending) && s.Shape();
    hide *;
    PopMembers(s.hw.pending, k);
    TurnSparesDevice(s, junk, k);
    SparedMeans(s, Turn(s, junk), now, k);
  }

  lemma TurnOnOwn(s: System, now: nat, junk: Junk)
    requires Inv(s) && s.hw.pending != [] && s.hw.pending[0].time < now
    ensures DeviceKey(s.hw.pending[0].key)
    ensures var r, k := Turn(s, junk), s.hw.pending[0].key; DeviceOk(r, k) && Drained(s, r, now, k)
  {
    var q := s.hw.pending;
    var k := q[0].key;
    assert q[0] in q;
    assert DeviceOk(s, k);
    hide Inv, Manage, HasTimer, WellFormed, LinesOk;
    PopMembers(q, k);
    SameDeviceMeans(s, Pop(s), k);
    ManageEffect(Pop(s), k, junk);
  }

  lemma TurnOnDevice(s: System, now: nat, junk: Junk, k: Key)
    requires Inv(s) && s.hw.pending != [] && s.hw.pending[0].time < now && DeviceKey(k)
    ensures var r := Turn(s, junk); DeviceOk(r, k) && Drained(s, r, now, k)
  {
    if k != s.hw.pending[0].key {
      TurnOnOther(s, now, junk, k);
    } else {
      TurnOnOwn(s, now, junk);
    }
    hide *;
  }

  lemma TurnKeepsLines(s: System, junk: Junk)
    requires Inv(s) && s.hw.pending != []
    ensures LinesOk(Turn(s, junk)) && SameSetting(s.hw, Turn(s, junk).hw)
    ensures WellFormed(s.hw.pending[1..]) && Turn(s, junk).hw.pending == s.hw.pending[1..]
  {
    var r, h := Turn(s, junk), s.hw.pending[0].key;
    assert s.hw.pending[0] in s.hw.pending;
    assert DeviceOk(s, h);
    PopWellFormed(s.hw.pending);
    ManageEffect(Pop(s), h, junk);
    hide Manage, WellFormed;
    forall k | DeviceKey(k)
      ensures k.code in r.hw.installed[Line(k)] <==> Installed(r, k)
    {
      SameDeviceMeans(s, Pop(s), k);
      if k != h {
        SameDeviceMeans(Pop(s), r, k);
      }
    }
    assert h.code in s.hw.installed[Line(h)] <==> Installed(s, h);
    assert s.hw.lines[Line(h)] <= s.hw.installed[Line(h)];
  }

  lemma TurnKeepsInv(s: System, now: nat, junk: Junk)
    requires Inv(s) && s.hw.pending != [] && s.hw.pending[0].time < now
    ensures Inv(Turn(s, junk))
  {
    TurnKeepsLines(s, junk);
    forall k | DeviceKey(k)
      ensures DeviceOk(Turn(s, junk), k)
    {
      TurnOnDevice(s, now, junk, k);
    }
  }

  lemma DrainedTrans(s: System, m: System, r: System, now: nat, k: Key)
    requires Drained(s, m, now, k) && Drained(m, r, now, k)
    ensures Drained(s, r, now, k)
  {
    if !Busy(s, k) {
      SameDeviceMeans(s, m, k);
    }
  }

  lemma {:induction false} DrainEffect(s: System, now: nat, junk: Junk, k: Key)
    requires Inv(s) && DeviceKey(k)
    ensures var r := Drain(s, now, junk);
      && Inv(r) && Drained(s, r, now, k) && SameSetting(s.hw, r.hw)
      && forall e :: e in r.hw.pending ==> e.time >= now
    decreases |s.hw.pending|
  {
    var q := s.hw.pending;
    if q != [] && q[0].time < now {
      TurnKeepsInv(s, now, junk);
      TurnOnDevice(s, now, junk, k);
      TurnKeepsLines(s, junk);
      DrainEffect(Turn(s, junk), now, junk, k);
      hide Drained, Inv, Manage;
      DrainedTrans(s, Turn(s, junk), Drain(s, now, junk), now, k);
    } else {
      DrainNothing(s, now, k);
    }
  }

  lemma DrainUnfolds(s: System, now: nat, junk: Junk)
    requires s.Shape() && s.hw.pending != [] && s.hw.pending[0].time < now
    ensures Drain(s, now, junk) == Drain(Turn(s, junk), now, junk)
  {
    hide Manage;
  }

  lemma DrainNothing(s: System, now: nat, k: Key)
    requires Inv(s) && DeviceKey(k) && (s.hw.pending == [] || s.hw.pending[0].time >= now)
    ensures Drained(s, s, now, k) && forall e :: e in s.hw.pending ==> e.time >= now
  {
    forall e | e in s.hw.pending
      ensures e.time >= now
    {
      var i :| 0 <= i < |s.hw.pending| && s.hw.pending[i] == e;
      assert s.hw.pending[0].time <= s.hw.pending[i].time;
    }
  }
}
