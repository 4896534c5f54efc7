/** When the commands of a run are due.  A disk's time follows from its geometry: sectors pass as the disk turns,
    and the head moves cylinder by cylinder. */
module DueTimes {
  import opened Arithmetic
  import opened Bytes
  import opened TimerQueue
  import opened Hardware
  import opened Interrupts
  import opened Effects
  import opened Invariants
  import opened RunTheorems
  import opened DiskGeometry
  import opened DiskReads
  import Tapes
  import Disks
  import Printers

  // ----- One way -----

  /** `t` is the time of one sector, in whole microseconds, where `w` of them pass in a second. */
  predicate SectorTime(t: nat, w: nat) {
    if w == 0 then t == 0 else t * w <= 1000000 < (t + 1) * w
  }

  lemma WholePart(w: nat)
    requires w > 0
    ensures SectorTime(1000000 / w, w)
  {
    var t := 1000000 / w;
    assert 1000000 == t * w + 1000000 % w && (t + 1) * w == t * w + w;
  }

  /** A disk of 60 k + r turns a minute turns k times a second, r being less than 60, and k times its sectors pass
      in a second; of that product, q times 2^32 are cut off and w is left. */
  predicate Turns(d: Disks.Disk, k: nat, r: nat, q: nat, w: nat) {
    && d.rpm == 60 * k + r && r < 60
    && k * d.sectors == q * TWO_TO_THE_32 + w && w < TWO_TO_THE_32
  }

  predicate Away(a: nat, b: nat, n: nat) {
    a == b + n || a + n == b
  }

  lemma Rotation(d: Disks.Disk, k: nat, r: nat, q: nat, w: nat)
    requires Turns(d, k, r, q, w)
    ensures SectorTime(Disks.SectorMicroseconds(d.rpm, d.sectors), w)
  {
    QuotientIs(d.rpm, 60, k, r);
    QuotientIs(k * d.sectors, TWO_TO_THE_32, q, w);
    if w > 0 {
      WholePart(w);
    }
    hide SectorTime;
  }

  /** The time to a neighbouring sector of the same cylinder. */
  lemma NeighbourDelay(d: Disks.Disk, k: nat, r: nat, q: nat, w: nat, sector: nat)
    requires Turns(d, k, r, q, w) && Away(d.sector, sector, 1)
    ensures SectorTime(d.Delay(d.cylinder, sector), w)
  {
    Rotation(d, k, r, q, w);
    hide Turns, SectorTime, Disks.SectorMicroseconds;
  }

  lemma DelayAlong(d: Disks.Disk, n: nat, sector: nat)
    requires Away(d.sector, sector, n)
    ensures d.Delay(d.cylinder, sector) == n * Disks.SectorMicroseconds(d.rpm, d.sectors)
  {
    hide Disks.SectorMicroseconds;
    assert Disks.Distance(d.sector, sector) == n && Disks.Distance(d.cylinder, d.cylinder) == 0;
  }

  lemma DelayAcross(d: Disks.Disk, m: nat, cylinder: nat)
    requires Away(d.cylinder, cylinder, m)
    ensures d.Delay(cylinder, d.sector) == m * d.seekTime
  {
    hide Disks.SectorMicroseconds;
    assert Disks.Distance(d.cylinder, cylinder) == m && Disks.Distance(d.sector, d.sector) == 0;
  }

  // ----- The geometry of a run -----

  lemma MailboxSameGeometry(d: Disks.Disk, hw: Hw, i: nat, address: nat, now: nat)
    requires hw.Shape()
    ensures SameGeometry(d, Disks.Mailbox(d, hw, i, address, now).0)
  {
    hide Disks.Disk.Delay, Disks.CylinderOf, Disks.SectorOf, Disks.HeadOf, Opcode, Hw.Arm;
  }

  lemma ManageSameGeometry(d: Disks.Disk, hw: Hw, i: nat)
    requires hw.Shape()
    ensures SameGeometry(d, Disks.Manage(d, hw, i).0)
  {
    hide Disks.CylinderOf, Disks.SectorOf, Disks.HeadOf, Opcode, Disks.ReadBlock, Disks.WriteBlock;
  }

  lemma SystemManageGeometry(s: System, k: Key, junk: Junk, j: nat)
    requires s.Shape() && j < MAX_DEVICES
    ensures SameGeometry(s.disks[j], Manage(s, k, junk).disks[j])
  {
    if k == DiskKey(j) {
      ManageSameGeometry(s.disks[j], s.hw, j);
    }
    hide Tapes.Manage, Disks.Manage, Printers.Manage;
  }

  lemma {:induction false} DrainSameGeometry(s: System, now: nat, junk: Junk, j: nat)
    requires s.Shape() && j < MAX_DEVICES
    ensures SameGeometry(s.disks[j], Drain(s, now, junk).disks[j])
    decreases |s.hw.pending|
  {
    var q := s.hw.pending;
    if q != [] && q[0].time < now {
      SystemManageGeometry(Pop(s), q[0].key, junk, j);
      DrainSameGeometry(Turn(s, junk), now, junk, j);
      hide Manage;
    }
  }

  lemma MessageSameGeometry(s: System, word: nat, now: nat, junk: Junk, j: nat)
    requires s.Shape() && j < MAX_DEVICES
    ensures SameGeometry(s.disks[j], Message(s, word, now, junk).disks[j])
  {
    MailboxSameGeometry(s.disks[j], s.hw, j, AddressOf(word), now);
    hide Tapes.Mailbox, Disks.Mailbox, Printers.Mailbox;
  }

  lemma StepSameGeometry(s: System, e: Event, j: nat)
    requires Inv(s) && j < MAX_DEVICES
    ensures SameGeometry(s.disks[j], Step(s, e).disks[j])
  {
    Ending(s, e);
    if e.TakeFiq? {
      MessageSameGeometry(s, e.word, e.now, e.junk, j);
      DrainSameGeometry(Middle(s, e), e.later, e.junk, j);
    }
    hide Inv, Step, Message, Drain;
  }

  lemma {:induction false} RunSameGeometry(s: System, events: seq<Event>, j: nat)
    requires Inv(s) && j < MAX_DEVICES
    ensures SameGeometry(s.disks[j], Run(s, events).disks[j])
    decreases |events|
  {
    if events != [] {
      var before := events[..|events| - 1];
      RunKeepsInv(s, before);
      RunSameGeometry(s, before, j);
      StepSameGeometry(Run(s, before), events[|events| - 1], j);
    }
  }

  // ----- Runs -----

  function Times(n: nat, t: nat): nat {
    n * t
  }

  /** A sum in 64 bits. */
  function Sum64(a: nat, b: nat): nat {
    (a + b) % TWO_TO_THE_64
  }

  /** Event `e` makes the disk accept a transfer with the head `n` sectors away. */
  ghost predicate AcceptsTransfer(s: System, events: seq<Event>, e: Event, j: nat, n: nat)
    requires s.Shape() && j < MAX_DEVICES
  {
    var word := LastSent(s, events + [e], DiskKey(j)).command;
    && Accepts(Run(s, events), e, DiskKey(j))
    && (Opcode(word) == Disks.READBLK || Opcode(word) == Disks.WRITEBLK)
    && Away(HeadPlace(s, events, j).sector, Disks.SectorOf(word), n)
  }

  /** Event `e` makes the disk accept a seek with the head `m` cylinders away. */
  ghost predicate AcceptsSeek(s: System, events: seq<Event>, e: Event, j: nat, m: nat)
    requires s.Shape() && j < MAX_DEVICES
  {
    var word := LastSent(s, events + [e], DiskKey(j)).command;
    && Accepts(Run(s, events), e, DiskKey(j)) && Opcode(word) == Disks.SEEKCYL
    && Away(HeadPlace(s, events, j).cylinder, Disks.CylinderOf(word), m)
  }

  /** The command that device `k` accepts in event `e` is due `delay` after the clock reading of the event. */
  ghost predicate DueAfter(s: System, events: seq<Event>, e: Event, k: Key, delay: nat)
    requires s.Shape() && DeviceKey(k)
  {
    e.TakeFiq? && Due(s, events + [e], k) == Sum64(e.now, delay)
  }

  /** A tape's command takes a millisecond, a character 8 microseconds. */
  lemma FixedDue(s: System, events: seq<Event>, e: Event, k: Key)
    requires s.Shape() && DeviceKey(k) && k.kind != DISK && Accepts(Run(s, events), e, k)
    ensures DueAfter(s, events, e, k, if k.kind == TAPE then 1000 else 8)
  {
    NextDue(s, events, e, k);
    FixedDelay(Run(s, events), e, k);
    hide Run, Accepts, Due, Deadline, Sum64;
  }

  lemma FixedDelay(b: System, e: Event, k: Key)
    requires b.Shape() && DeviceKey(k) && k.kind != DISK && Accepts(b, e, k)
    ensures e.TakeFiq? && Deadline(b, e.word, e.now) == Sum64(e.now, if k.kind == TAPE then 1000 else 8)
  {
    hide Middle, Accepted;
  }

  /** The deadline of a command accepted in event `e`, and the place that the disk's head has then. */
  lemma AcceptedDue(s: System, events: seq<Event>, e: Event, j: nat, ch: seq<nat>, own: seq<seq<nat>>)
    requires Inv(s) && DiskKept(s, j, ch, own) && !s.disks[j].Busy() && Accepts(Run(s, events), e, DiskKey(j))
    ensures e.TakeFiq?
    ensures var d, sent := Run(s, events).disks[j], LastSent(s, events + [e], DiskKey(j)).command;
      && PlaceOf(d) == HeadPlace(s, events, j) && SameGeometry(s.disks[j], d)
      && Due(s, events + [e], DiskKey(j)) == Sum64(e.now, DiskDelay(d, sent))
  {
    var b, k := Run(s, events), DiskKey(j);
    assert j < MAX_DEVICES && s.Shape();
    AcceptedDelay(b, e, j);
    hide *;
    RunKeepsInv(s, events);
    RunSameGeometry(s, events, j);
    RunKeepsDiskState(s, events, j, ch, own);
    StatePlace(s, events, j);
    NextDue(s, events, e, k);
    NextSent(s, events, e, k);
  }

  lemma AcceptedDelay(b: System, e: Event, j: nat)
    requires b.Shape() && j < MAX_DEVICES && Accepts(b, e, DiskKey(j))
    ensures e.TakeFiq?
    ensures Deadline(b, e.word, e.now)
         == Sum64(e.now, DiskDelay(b.disks[j], b.hw.RegistersAt(AddressOf(e.word)).command))
  {
    hide Middle, DiskDelay, Accepted;
  }

  /** Over every run: a transfer accepted with the head `n` sectors away is due `n` sector times after it was
      accepted. */
  lemma TransferDue(s: System, events: seq<Event>, e: Event, j: nat, ch: seq<nat>, own: seq<seq<nat>>,
                    k: nat, r: nat, q: nat, w: nat, n: nat)
    returns (t: nat)
    requires Inv(s) && DiskKept(s, j, ch, own) && !s.disks[j].Busy()
    requires Turns(s.disks[j], k, r, q, w) && AcceptsTransfer(s, events, e, j, n)
    ensures SectorTime(t, w) && DueAfter(s, events, e, DiskKey(j), Times(n, t))
  {
    var d, word := Run(s, events).disks[j], LastSent(s, events + [e], DiskKey(j)).command;
    AcceptedDue(s, events, e, j, ch, own);
    t := Disks.SectorMicroseconds(d.rpm, d.sectors);
    assert d.sectors == s.disks[j].sectors && d.rpm == s.disks[j].rpm;
    Rotation(s.disks[j], k, r, q, w);
    hide Turns, SectorTime, Disks.SectorMicroseconds, Inv, DiskKept, Run, LastSent, Due, Sum64, HeadPlace, Opcode,
         Disks.SectorOf, Away, Accepts, DiskDelay, Times;
    TransferDelay(d, word, n);
  }

  lemma TransferDelay(d: Disks.Disk, word: nat, n: nat)
    requires Opcode(word) in {Disks.READBLK, Disks.WRITEBLK} && Away(d.sector, Disks.SectorOf(word), n)
    ensures DiskDelay(d, word) == Times(n, Disks.SectorMicroseconds(d.rpm, d.sectors))
  {
    DelayAlong(d, n, Disks.SectorOf(word));
    hide Disks.Disk.Delay, Disks.SectorMicroseconds, Opcode, Disks.SectorOf;
  }

  /** Over every run: a seek accepted with the head `m` cylinders away is due `m` seek times after it was
      accepted. */
  lemma SeekDue(s: System, events: seq<Event>, e: Event, j: nat, ch: seq<nat>, own: seq<seq<nat>>, m: nat)
    requires Inv(s) && DiskKept(s, j, ch, own) && !s.disks[j].Busy() && AcceptsSeek(s, events, e, j, m)
    ensures DueAfter(s, events, e, DiskKey(j), Times(m, s.disks[j].seekTime))
  {
    var d, word := Run(s, events).disks[j], LastSent(s, events + [e], DiskKey(j)).command;
    AcceptedDue(s, events, e, j, ch, own);
    assert d.seekTime == s.disks[j].seekTime;
    hide Inv, DiskKept, Run, LastSent, Due, Sum64, HeadPlace, Opcode, Disks.CylinderOf, Away, Accepts, DiskDelay, Times;
    SeekDelay(d, word, m);
  }

  lemma SeekDelay(d: Disks.Disk, word: nat, m: nat)
    requires Opcode(word) == Disks.SEEKCYL && Away(d.cylinder, Disks.CylinderOf(word), m)
    ensures DiskDelay(d, word) == Times(m, d.seekTime)
  {
    DelayAcross(d, m, Disks.CylinderOf(word));
    hide Disks.Disk.Delay, Opcode, Disks.CylinderOf;
  }
}
