/** The shared hardware as the source keeps it: bytes in memory, the timer rings, the file system. */
module Machine {
  import opened Bytes
  import opened TimerQueue
  import opened TimerPool
  import opened Fat32
  import opened FatDriver
  import opened Hardware

  class Board {
    const lines: array<set<nat>>
    const installed: array<set<nat>>
    const freq: nat
    const timers: Pool
    const fs: FileSystem
    var mask: set<nat>
    var memory: map<nat, Registers>
    var ram: map<nat, Block>
    var vtimer: VirtualTimer
    var fireNow: bool
    var printed: seq<(nat, nat)>

    ghost function Repr(): set<object> {
      {this, lines, installed} + fs.Repr() + timers.Repr()
    }

    ghost predicate Valid()
      reads Repr()
    {
      && lines.Length == IL_LINES && installed.Length == IL_LINES && lines != installed
      && fs.Valid() && timers.Valid()
    }

    ghost function Hw(): Hw
      requires Valid()
      reads Repr()
    {
      Hardware.Hw(lines[..], installed[..], mask, memory, ram, fs.Vol(), timers.Pending(), vtimer, fireNow, freq, printed,
                  fs.overrun)
    }

    lemma HasShape()
      requires Valid()
      ensures Hw().Shape()
    {
    }

    constructor (fs: FileSystem, freq: nat)
      requires fs.Valid()
      ensures Valid() && fresh(Repr() - fs.Repr()) && this.fs == fs
      ensures Hw() == Hardware.Hw([{}, {}, {}, {}], [{}, {}, {}, {}], {0, 1, 2, 3, 4, 5, 6, 7}, map[], map[],
                                  fs.Vol(), [], VirtualTimer(false, 0, 0), false, freq, [], fs.overrun)
    {
      hide Pool.Valid;
      this.fs, this.freq := fs, freq;
      lines := new set<nat>[IL_LINES](_ => {});
      installed := new set<nat>[IL_LINES](_ => {});
      mask := {0, 1, 2, 3, 4, 5, 6, 7};
      memory, ram := map[], map[];
      vtimer, fireNow, printed := VirtualTimer(false, 0, 0), false, [];
      timers := new Pool.InitEmulatedTimers();
      new;
      assert lines[..] == [{}, {}, {}, {}] && installed[..] == [{}, {}, {}, {}];
    }

    method Load(address: nat) returns (r: Registers)
      requires Valid()
      ensures r == Hw().RegistersAt(address)
    {
      r := if address in memory then memory[address] else Registers(0, 0, 0, 0, 0);
    }

    method Store(address: nat, r: Registers)
      requires Valid()
      modifies this`memory
      ensures Valid() && Hw() == old(Hw()).Store(address, r)
    {
      memory := memory[address := r];
    }

    method Raise(line: nat, device: nat)
      requires Valid() && line < IL_LINES
      modifies lines
      ensures Valid() && Hw() == old(Hw()).Raise(line, device)
    {
      lines[line] := lines[line] + {device};
    }

    method Install(line: nat, devices: set<nat>)
      requires Valid() && line < IL_LINES
      modifies installed
      ensures Valid() && Hw() == old(Hw()).Install(line, devices)
    {
      installed[line] := devices;
    }

    method Lower(line: nat, device: nat)
      requires Valid() && line < IL_LINES
      modifies lines
      ensures Valid() && Hw() == old(Hw()).Lower(line, device)
    {
      lines[line] := lines[line] - {device};
    }

    /** Programs the counter; the tick count is computed in 64 bits, which it never exceeds. */
    method SetVirtualTimer(microseconds: nat, now: nat)
      requires Valid()
      modifies this`vtimer
      ensures Valid() && Hw() == old(Hw()).(vtimer := old(vtimer).Set(freq, microseconds, now))
    {
      var timer := microseconds % TWO_TO_THE_32;
      var value := freq * timer / 1000000;
      if value > 0xFFFF_FFFF {
        return;
      }
      vtimer := VirtualTimer(true, now, value);
    }

    method DisableVirtualCounter()
      requires Valid()
      modifies this`vtimer
      ensures Valid() && Hw() == old(Hw()).(vtimer := old(vtimer).Disable())
    {
      vtimer := vtimer.(enabled := false);
    }

    /** Makes the physical timer fire at once. */
    method FirePhysicalTimer()
      requires Valid()
      modifies this`fireNow
      ensures Valid() && Hw() == old(Hw()).(fireNow := true)
    {
      fireNow := true;
    }

    method AddTimer(time: nat, kind: TimerType, device: nat)
      requires Valid()
      modifies timers`pend, timers`free, timers.Links()
      ensures Valid() && Hw() == old(Hw()).(pending := TimerQueue.AddTimer(old(Hw()).pending, time, Key(kind, device)))
    {
      timers.AddTimer(time, kind, device);
    }

    /** Programs the counter for the first pending timer. */
    method WakeForFirst(now: nat)
      requires Valid()
      modifies this`vtimer
      ensures Valid() && Hw() == old(Hw()).(vtimer := old(Hw()).WakeFor(old(Hw()).pending, now))
    {
      var res, next := timers.NextTimer();
      if res == 0 {
        if now < next.time {
          SetVirtualTimer(next.time - now, now);
        } else {
          SetVirtualTimer(0, now);
        }
      }
    }

    /** Arms the device's timer and programs the counter for the first deadline of all. */
    method SetDeviceTimer(microseconds: nat, kind: TimerType, device: nat, now: nat)
      requires Valid()
      modifies this`vtimer, timers`pend, timers`free, timers.Links()
      ensures Valid() && Hw() == old(Hw()).Arm(microseconds, Key(kind, device), now)
    {
      var timer := (now + microseconds) % TWO_TO_THE_64;
      hide *;
      ghost var before := Hw();
      AddTimer(timer, kind, device);
      WakeForFirst(now);
      ArmInSteps(before, microseconds, Key(kind, device), now);
    }

    lemma ArmInSteps(hw: Hw, microseconds: nat, key: Key, now: nat)
      ensures var q := TimerQueue.AddTimer(hw.pending, (now + microseconds) % TWO_TO_THE_64, key);
        var mid := hw.(pending := q);
        mid.(vtimer := mid.WakeFor(mid.pending, now)) == hw.Arm(microseconds, key, now)
    {
    }

    /** A copy of a user's data block. */
    method CopyOfBlock(address: nat) returns (local: array<Byte>)
      requires Valid()
      ensures fresh(local) && local.Length == BLOCKSIZE && local[..] == Hw().BlockAt(address)
      ensures Valid() && Hw() == old(Hw())
    {
      var block: Block := if address in ram then ram[address] else seq(BLOCKSIZE, _ => 0);
      local := new Byte[BLOCKSIZE](i requires 0 <= i < BLOCKSIZE => block[i]);
      assert local[..] == block;
    }

    /** Reads the first bytes of a file from `seek` on into a local that held `junk`; what the file
        does not have keeps its value. */
    method ReadBytes(cluster: nat, seek: nat, junk: seq<Byte>) returns (r: int, bytes: seq<Byte>)
      requires Valid()
      modifies fs`lastEntrySector, fs.cachedFat
      ensures Valid() && Hw() == old(Hw())
      ensures r == |old(Hw()).volume.Read(cluster, seek, |junk|)|
      ensures bytes == Overlay(junk, 0, old(Hw()).volume.Read(cluster, seek, |junk|))
    {
      var local := new Byte[|junk|](i requires 0 <= i < |junk| => junk[i]);
      assert local[..] == junk;
      hide Volume.Read, Overlay;
      r := fs.ReadFile(cluster, local, seek, |junk|);
      OverlayAtStart(junk, fs.Vol().Read(cluster, seek, |junk|));
      bytes := local[..];
    }

    lemma OverlayAtStart(s: seq<Byte>, chunk: seq<Byte>)
      requires |chunk| <= |s|
      ensures Overlay(s, 0, chunk) == chunk + s[|chunk|..]
    {
    }

    method ReadWord(cluster: nat, seek: nat, junk: seq<Byte>) returns (head: nat)
      requires Valid() && |junk| == 4
      modifies fs`lastEntrySector, fs.cachedFat
      ensures Valid() && Hw() == old(Hw())
      ensures head == Word(Overlay(junk, 0, Hw().volume.Read(cluster, seek, 4)))
    {
      var _, bytes := ReadBytes(cluster, seek, junk);
      head := Word(bytes);
    }

    /** Reads a block of a file into a user's data block. */
    method ReadInto(address: nat, cluster: nat, seek: nat) returns (r: int)
      requires Valid()
      modifies this`ram, fs`lastEntrySector, fs.cachedFat
      ensures Valid() && Hw() == old(Hw()).ReadInto(address, cluster, seek)
      ensures r == |old(Hw()).volume.Read(cluster, seek, BLOCKSIZE)|
    {
      hide Volume.Read, Volume.Mounted, Overlay;
      var block: Block := if address in ram then ram[address] else seq(BLOCKSIZE, _ => 0);
      var bytes;
      r, bytes := ReadBytes(cluster, seek, block);
      ram := ram[address := bytes];
    }

    /** Writes a user's data block into a file. */
    method WriteFrom(address: nat, cluster: nat, seek: nat) returns (r: int)
      requires Valid()
      modifies fs`lastEntrySector, fs`overrun, fs.cachedFat, fs.card
      ensures Valid() && Hw() == old(Hw()).WriteFrom(address, cluster, seek)
      ensures r == old(Hw()).volume.Written(cluster, seek, BLOCKSIZE)
    {
      var local := CopyOfBlock(address);
      assert local[..BLOCKSIZE] == local[..];
      r := fs.WriteFile(cluster, local, seek, BLOCKSIZE);
    }

    method PendingEmulatedInterrupt() returns (pending: bool)
      requires Valid()
      ensures pending == Hw().PendingInterrupt()
      ensures pending <==> exists i :: 0 <= i < lines.Length && lines[i] != {} && i !in mask
    {
      for i := 0 to IL_LINES
        invariant forall j :: 0 <= j < i ==> lines[j] == {} || j in mask
      {
        if lines[i] != {} && i !in mask {
          return true;
        }
      }
      return false;
    }

    method CleanInterruptLines()
      requires Valid()
      modifies lines
      ensures Valid() && Hw() == old(Hw()).CleanLines()
    {
      for i := 0 to IL_LINES
        invariant Valid()
        invariant forall j :: 0 <= j < IL_LINES ==> lines[j] == if j < i then old(lines[j]) * installed[j] else old(lines[j])
      {
        lines[i] := lines[i] * installed[i];
      }
    }
  }
}
