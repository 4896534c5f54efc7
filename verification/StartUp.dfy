/** Start-up of the emulated devices, and the state it leaves. */
module StartUp {
  import opened Bytes
  import opened TimerQueue
  import opened Fat32
  import opened FatDriver
  import opened Hardware
  import opened Machine
  import opened Interrupts
  import opened InterruptHandler
  import opened Effects
  import opened Invariants
  import RunTheorems
  import Tapes
  import Disks
  import Printers
  import TapeController
  import DiskController
  import PrinterController

  const ALL: set<nat> := {0, 1, 2, 3}

  /** `tapeFiles` and `diskFiles` are the first clusters of the device files, 0 for a missing one;
      `junk` and `junk32` what the local buffers held. */
  function Boot(v: Volume, freq: nat, tapeFiles: seq<nat>, diskFiles: seq<nat>, junk: Local, junk32: seq<Byte>): System
    requires v.Mounted() && |tapeFiles| == MAX_DEVICES && |diskFiles| == MAX_DEVICES && |junk32| == 32
  {
    var tapes := seq(MAX_DEVICES, i requires 0 <= i < MAX_DEVICES => Tapes.BootAt(v, tapeFiles, i, junk));
    var disks := seq(MAX_DEVICES, i requires 0 <= i < MAX_DEVICES => Disks.BootAt(v, diskFiles, i, junk32));
    System(tapes, disks, seq(MAX_DEVICES, _ => Printers.Boot()),
           Hw([{}, {}, {}, {}], [ALL, Tapes.Found(tapes), Disks.Found(disks), ALL], {0, 1, 2, 3, 4, 5, 6, 7},
              map[], map[], v, [], VirtualTimer(false, 0, 0), false, freq, [], false))
  }

  /** The state after start-up satisfies the invariant, with no command running. */
  lemma BootInv(v: Volume, freq: nat, tapeFiles: seq<nat>, diskFiles: seq<nat>, junk: Local, junk32: seq<Byte>)
    requires v.Mounted() && |tapeFiles| == MAX_DEVICES && |diskFiles| == MAX_DEVICES && |junk32| == 32
    ensures var s := Boot(v, freq, tapeFiles, diskFiles, junk, junk32);
      Inv(s) && RunTheorems.Idle(s)
  {
    var s := Boot(v, freq, tapeFiles, diskFiles, junk, junk32);
    BootQuiet(v, freq, tapeFiles, diskFiles, junk, junk32);
    hide Boot, Installed;
    forall k | DeviceKey(k)
      ensures !Busy(s, k) && (k.code in s.hw.installed[Line(k)] <==> Installed(s, k))
    {
      BootDevice(v, freq, tapeFiles, diskFiles, junk, junk32, k);
    }
  }

  lemma BootQuiet(v: Volume, freq: nat, tapeFiles: seq<nat>, diskFiles: seq<nat>, junk: Local, junk32: seq<Byte>)
    requires v.Mounted() && |tapeFiles| == MAX_DEVICES && |diskFiles| == MAX_DEVICES && |junk32| == 32
    ensures var s := Boot(v, freq, tapeFiles, diskFiles, junk, junk32);
      s.Shape() && s.hw.pending == [] && s.hw.lines == [{}, {}, {}, {}]
  {
    hide Tapes.BootAt, Disks.BootAt, Tapes.Found, Disks.Found, Volume.Mounted;
  }

  lemma BootDevice(v: Volume, freq: nat, tapeFiles: seq<nat>, diskFiles: seq<nat>, junk: Local, junk32: seq<Byte>, k: Key)
    requires v.Mounted() && |tapeFiles| == MAX_DEVICES && |diskFiles| == MAX_DEVICES && |junk32| == 32 && DeviceKey(k)
    ensures var s := Boot(v, freq, tapeFiles, diskFiles, junk, junk32);
      s.Shape() && !Busy(s, k) && (k.code in s.hw.installed[Line(k)] <==> Installed(s, k))
  {
    var s := Boot(v, freq, tapeFiles, diskFiles, junk, junk32);
    hide Volume.Read, Word, Overlay, Disks.InfoWord, LocalAfter, Volume.Mounted;
    match k.kind
    case TAPE => assert s.tapes[k.code] == Tapes.BootAt(v, tapeFiles, k.code, junk);
    case DISK => assert s.disks[k.code] == Disks.BootAt(v, diskFiles, k.code, junk32);
    case PRINTER => assert s.printers[k.code] == Printers.Boot();
  }

  /** The device files that start-up finds: none without a card. */
  function Files(card: bool, clusters: seq<nat>): (r: seq<nat>)
    requires |clusters| == MAX_DEVICES
    ensures |r| == MAX_DEVICES
  {
    if card then clusters else [0, 0, 0, 0]
  }

  /** Devices that are never initialised are as if their files were missing: not installed, with all
      registers 0. */
  lemma UntouchedIsMissing(v: Volume, i: nat, junk: Local, junk32: seq<Byte>)
    requires v.Mounted() && |junk32| == 32 && i < MAX_DEVICES
    ensures Tapes.BootAt(v, [0, 0, 0, 0], i, junk) == Tapes.Tape(0, 0, NULL, Registers(0, 0, 0, 0, 0))
    ensures Disks.BootAt(v, [0, 0, 0, 0], i, junk32)
         == Disks.Disk(0, 0, 0, 0, 0, 0, 0, 0, 0, 0, NULL, Registers(0, 0, 0, 0, 0))
  {
    hide LocalAfter, Volume.Read, Overlay;
  }

  lemma NoneFound(tapes: seq<Tapes.Tape>, disks: seq<Disks.Disk>)
    requires forall t :: t in tapes ==> t.regs.status == DEVICE_NOT_INSTALLED
    requires forall d :: d in disks ==> d.regs.status == DEVICE_NOT_INSTALLED
    ensures Tapes.Found(tapes) == {} && Disks.Found(disks) == {}
  {
  }

  method InitFromCard(board: Board, tapeFiles: seq<nat>, diskFiles: seq<nat>, junk: Local, junk32: seq<Byte>)
    returns (tapes: TapeController.Controller, disks: DiskController.Controller)
    requires board.Valid() && |tapeFiles| == MAX_DEVICES && |diskFiles| == MAX_DEVICES && |junk32| == 32
    modifies board.installed, board.fs`lastEntrySector, board.fs.cachedFat
    ensures tapes.board == disks.board == board && tapes.Valid() && disks.Valid()
    ensures var v := old(board.Hw()).volume;
      && tapes.tapes[..] == seq(MAX_DEVICES, i requires 0 <= i < MAX_DEVICES => Tapes.BootAt(v, tapeFiles, i, junk))
      && disks.disks[..] == seq(MAX_DEVICES, i requires 0 <= i < MAX_DEVICES => Disks.BootAt(v, diskFiles, i, junk32))
      && board.Hw() == old(board.Hw()).Install(IL_TAPE, Tapes.Found(tapes.tapes[..]))
                                      .Install(IL_DISK, Disks.Found(disks.disks[..]))
  {
    hide Tapes.BootAt, Disks.BootAt, Tapes.Found, Disks.Found;
    ghost var v := board.Hw().volume;
    tapes := new TapeController.Controller.InitEmulatedTapes(board, tapeFiles, junk);
    ghost var ts := tapes.tapes[..];
    assert ts == seq(MAX_DEVICES, i requires 0 <= i < MAX_DEVICES => Tapes.BootAt(v, tapeFiles, i, junk));
    disks := new DiskController.Controller.InitEmulatedDisks(board, diskFiles, junk32);
    ghost var ds := disks.disks[..];
    assert ds == seq(MAX_DEVICES, i requires 0 <= i < MAX_DEVICES => Disks.BootAt(v, diskFiles, i, junk32));
  }

  method InitTapesAndDisks(board: Board, card: bool, tapeFiles: seq<nat>, diskFiles: seq<nat>, junk: Local, junk32: seq<Byte>)
    returns (tapes: TapeController.Controller, disks: DiskController.Controller)
    requires board.Valid() && |tapeFiles| == MAX_DEVICES && |diskFiles| == MAX_DEVICES && |junk32| == 32
    requires board.Hw().installed == [ALL, {}, {}, {}]
    modifies board.installed, board.fs`lastEntrySector, board.fs.cachedFat
    ensures tapes.board == disks.board == board && tapes.Valid() && disks.Valid()
    ensures var v, tf, df := old(board.Hw()).volume, Files(card, tapeFiles), Files(card, diskFiles);
      && tapes.tapes[..] == seq(MAX_DEVICES, i requires 0 <= i < MAX_DEVICES => Tapes.BootAt(v, tf, i, junk))
      && disks.disks[..] == seq(MAX_DEVICES, i requires 0 <= i < MAX_DEVICES => Disks.BootAt(v, df, i, junk32))
      && board.Hw() == old(board.Hw()).Install(IL_TAPE, Tapes.Found(tapes.tapes[..]))
                                      .Install(IL_DISK, Disks.Found(disks.disks[..]))
  {
    hide Tapes.BootAt, Disks.BootAt, Tapes.Found, Disks.Found;
    ghost var v := board.Hw().volume;
    if card {
      tapes, disks := InitFromCard(board, tapeFiles, diskFiles, junk, junk32);
    } else {
      tapes := new TapeController.Controller.Untouched(board);
      disks := new DiskController.Controller.Untouched(board);
      forall i | 0 <= i < MAX_DEVICES
        ensures tapes.tapes[i] == Tapes.BootAt(v, [0, 0, 0, 0], i, junk)
        ensures disks.disks[i] == Disks.BootAt(v, [0, 0, 0, 0], i, junk32)
      {
        UntouchedIsMissing(v, i, junk, junk32);
      }
      NoneFound(tapes.tapes[..], disks.disks[..]);
    }
  }

  method InitDevices(board: Board, card: bool, tapeFiles: seq<nat>, diskFiles: seq<nat>, junk: Local, junk32: seq<Byte>)
    returns (h: Handler)
    requires board.Valid() && |tapeFiles| == MAX_DEVICES && |diskFiles| == MAX_DEVICES && |junk32| == 32
    requires board.Hw().installed == [ALL, {}, {}, {}]
    modifies board.installed, board.fs`lastEntrySector, board.fs.cachedFat
    ensures h.Valid() && h.board == board
    ensures var v, s, tf, df := old(board.Hw()).volume, h.State(), Files(card, tapeFiles), Files(card, diskFiles);
      && s.tapes == seq(MAX_DEVICES, i requires 0 <= i < MAX_DEVICES => Tapes.BootAt(v, tf, i, junk))
      && s.disks == seq(MAX_DEVICES, i requires 0 <= i < MAX_DEVICES => Disks.BootAt(v, df, i, junk32))
      && s.printers == seq(MAX_DEVICES, _ => Printers.Boot())
      && s.hw == old(board.Hw()).Install(IL_TAPE, Tapes.Found(s.tapes)).Install(IL_DISK, Disks.Found(s.disks))
                                .Install(IL_PRINTER, ALL)
  {
    hide Tapes.BootAt, Disks.BootAt, Printers.Boot, Tapes.Found, Disks.Found, Files;
    var tapes, disks := InitTapesAndDisks(board, card, tapeFiles, diskFiles, junk, junk32);
    var printers := new PrinterController.Controller.InitEmulatedPrinters(board);
    h := new Handler(board, tapes, disks, printers);
  }

  method InitBoard(fs: FileSystem, freq: nat) returns (board: Board)
    requires fs.Valid()
    ensures board.Valid() && board.fs == fs && fresh(board.installed)
    ensures board.Hw() == Hw([{}, {}, {}, {}], [ALL, {}, {}, {}], {0, 1, 2, 3, 4, 5, 6, 7}, map[], map[],
                             fs.Vol(), [], VirtualTimer(false, 0, 0), false, freq, [], fs.overrun)
  {
    board := new Board(fs, freq);
    board.Install(IL_TIMER, ALL);
  }

  /** Start-up of the devices; `card` says whether the card came up, and then `fs` is its mounted volume.
      Without a card no device is installed that would use the volume. */
  method InitSystem(fs: FileSystem, freq: nat, card: bool, tapeFiles: seq<nat>, diskFiles: seq<nat>, junk: Local,
                    junk32: seq<Byte>)
    returns (h: Handler)
    requires fs.Valid() && !fs.overrun && |tapeFiles| == MAX_DEVICES && |diskFiles| == MAX_DEVICES && |junk32| == 32
    modifies fs`lastEntrySector, fs.cachedFat
    ensures h.Valid()
    ensures h.State() == Boot(old(fs.Vol()), freq, Files(card, tapeFiles), Files(card, diskFiles), junk, junk32)
  {
    ghost var v := fs.Vol();
    hide *;
    var board := InitBoard(fs, freq);
    h := InitDevices(board, card, tapeFiles, diskFiles, junk, junk32);
    InstalledIsBoot(h.State(), v, freq, Files(card, tapeFiles), Files(card, diskFiles), junk, junk32);
  }

  lemma InstalledIsBoot(s: System, v: Volume, freq: nat, tapeFiles: seq<nat>, diskFiles: seq<nat>, junk: Local,
                        junk32: seq<Byte>)
    requires v.Mounted() && |tapeFiles| == MAX_DEVICES && |diskFiles| == MAX_DEVICES && |junk32| == 32
    requires s.tapes == seq(MAX_DEVICES, i requires 0 <= i < MAX_DEVICES => Tapes.BootAt(v, tapeFiles, i, junk))
    requires s.disks == seq(MAX_DEVICES, i requires 0 <= i < MAX_DEVICES => Disks.BootAt(v, diskFiles, i, junk32))
    requires s.printers == seq(MAX_DEVICES, _ => Printers.Boot())
    requires s.hw == Hw([{}, {}, {}, {}], [ALL, {}, {}, {}], {0, 1, 2, 3, 4, 5, 6, 7}, map[], map[], v, [],
                        VirtualTimer(false, 0, 0), false, freq, [], false)
                     .Install(IL_TAPE, Tapes.Found(s.tapes)).Install(IL_DISK, Disks.Found(s.disks)).Install(IL_PRINTER, ALL)
    ensures s == Boot(v, freq, tapeFiles, diskFiles, junk, junk32)
  {
    hide Tapes.BootAt, Disks.BootAt, Printers.Boot, Tapes.Found, Disks.Found, Volume.Mounted;
  }
}
