/** Moving the head on any file that a tape may have, well formed or not: which words are markers, and how a command
    ends that finds another one. */
module TapeMarkers {
  import opened Bytes
  import opened Fat32
  import opened FatChains
  import opened Hardware
  import Tapes

  /** What the local for the marker holds when the head comes to block `index`: four bytes of the file, a block and
      a marker taking 4100 and the position 32 bits; what the file does not have keeps its value. */
  function LocalAt(f: seq<Byte>, index: nat, junk: seq<Byte>): (s: seq<Byte>)
    requires |junk| == 4
    ensures |s| == 4
  {
    Overlay(junk, 0, Slice(f, 4100 * index % 0x1_0000_0000, 4))
  }

  /** The three markers: 0 ends the tape, 1 a file, 2 a block. */
  predicate IsMarker(s: seq<Byte>)
    requires |s| == 4
  {
    s[0] <= 2 && s[1] == s[2] == s[3] == 0
  }

  /** The head can be at block `index`: at the start, or at a marker. */
  predicate GoodPlace(f: seq<Byte>, index: nat, junk: seq<Byte>)
    requires |junk| == 4
  {
    index == 0 || IsMarker(LocalAt(f, index, junk))
  }

  /** Data register 1 there: 3 at the start, else the marker; any other word leaves what it was. */
  function Shown(f: seq<Byte>, index: nat, junk: seq<Byte>, before: nat): nat
    requires |junk| == 4
  {
    if index == 0 then 3 else if GoodPlace(f, index, junk) then LocalAt(f, index, junk)[0] else before
  }

  lemma WordMarks(s: seq<Byte>)
    requires |s| == 4
    ensures IsMarker(s) <==> Word(s) <= 2
    ensures IsMarker(s) ==> Word(s) == s[0]
  {
  }

  lemma SamePlace(index: nat)
    ensures Tapes.MarkerStart(index) == 4100 * index % 0x1_0000_0000
  {
  }

  lemma HeadAt(t: Tapes.Tape, v: Volume, ch: seq<nat>, junk: seq<Byte>)
    requires v.Mounted() && v.IsChain(t.cluster, ch) && v.AllPresent(ch) && |junk| == 4
    ensures var f, i := v.Contents(ch), t.blockIndex;
      Tapes.UpdateHead(t, v, junk)
      == (if GoodPlace(f, i, junk) then 0 else -1, t.(regs := t.regs.(data1 := Shown(f, i, junk, t.regs.data1))))
  {
    var f, i := v.Contents(ch), t.blockIndex;
    SamePlace(i);
    ReadIsSlice(v, t.cluster, ch, Tapes.MarkerStart(i), 4);
    WordMarks(LocalAt(f, i, junk));
    hide Word, Overlay, Slice, IsMarker, Tapes.MarkerStart, Volume.Read, Volume.IsChain, Volume.Tail, Volume.Mounted;
  }

  /** Where a command takes the head; -1 when the tape cannot move that way. */
  function MovesTo(t: Tapes.Tape): int {
    if t.regs.command == Tapes.SKIPBLK && t.regs.data1 == 0 then -1
    else if t.regs.command == Tapes.BACKBLK then t.blockIndex - 1
    else (t.blockIndex + 1) % 0x1_0000_0000
  }

  /** The status of a command that does not find its place: 4 for skipping, 6 for going back, 5 for reading. */
  function ErrorOf(command: nat): nat {
    if command == Tapes.SKIPBLK then 4 else if command == Tapes.BACKBLK then 6 else 5
  }

  /** How a tape's command ends, whatever its file holds. */
  ghost predicate EndsSo(t: Tapes.Tape, t': Tapes.Tape, f: seq<Byte>, junk: seq<Byte>)
    requires |junk| == 4
  {
    var to := MovesTo(t);
    if to < 0 then
      t'.blockIndex == t.blockIndex && t'.regs.data1 == t.regs.data1 && t'.regs.status == ErrorOf(t.regs.command)
    else
      && t'.blockIndex == to && t'.regs.data1 == Shown(f, to, junk, t.regs.data1)
      && t'.regs.status == if GoodPlace(f, to, junk) then DEVICE_READY else ErrorOf(t.regs.command)
  }

  lemma AnySkip(t: Tapes.Tape, hw: Hw, i: nat, junk: seq<Byte>, ch: seq<nat>)
    requires hw.Shape() && hw.volume.IsChain(t.cluster, ch) && hw.volume.AllPresent(ch) && |junk| == 4
    requires t.Busy() && t.regs.command == Tapes.SKIPBLK
    ensures EndsSo(t, Tapes.Manage(t, hw, i, junk).0, hw.volume.Contents(ch), junk)
  {
    HeadAt(Tapes.Forward(t), hw.volume, ch, junk);
    hide Tapes.UpdateHead, Volume.IsChain, Volume.Tail, Volume.Mounted, GoodPlace, Shown;
  }

  lemma AnyBack(t: Tapes.Tape, hw: Hw, i: nat, junk: seq<Byte>, ch: seq<nat>)
    requires hw.Shape() && hw.volume.IsChain(t.cluster, ch) && hw.volume.AllPresent(ch) && |junk| == 4
    requires t.Busy() && t.regs.command == Tapes.BACKBLK
    ensures EndsSo(t, Tapes.Manage(t, hw, i, junk).0, hw.volume.Contents(ch), junk)
  {
    if t.blockIndex > 0 {
      HeadAt(t.(blockIndex := t.blockIndex - 1), hw.volume, ch, junk);
    }
    hide Tapes.UpdateHead, Volume.IsChain, Volume.Tail, Volume.Mounted, GoodPlace, Shown;
  }

  lemma AnyRead(t: Tapes.Tape, hw: Hw, i: nat, junk: seq<Byte>, ch: seq<nat>)
    requires hw.Shape() && hw.volume.IsChain(t.cluster, ch) && hw.volume.AllPresent(ch) && |junk| == 4
    requires t.Busy() && t.regs.command == Tapes.READBLK
    ensures EndsSo(t, Tapes.Manage(t, hw, i, junk).0, hw.volume.Contents(ch), junk)
  {
    HeadAt(Tapes.Forward(t), hw.volume, ch, junk);
    hide Tapes.UpdateHead, Tapes.BlockStart, Volume.Read, Overlay, Volume.IsChain, Volume.Tail, Volume.Mounted, GoodPlace,
         Shown;
  }

  /** On any file: a command moves the head by one block and shows the marker there; at a word that is no marker it
      ends with its error, the head moved and data register 1 as it was; at an end of the tape it ends with its
      error where it was. */
  lemma AnyTapeEnds(t: Tapes.Tape, hw: Hw, i: nat, junk: seq<Byte>, ch: seq<nat>)
    requires hw.Shape() && hw.volume.IsChain(t.cluster, ch) && hw.volume.AllPresent(ch) && |junk| == 4
    requires t.Busy() && Tapes.TimedCommand(t.regs.command)
    ensures EndsSo(t, Tapes.Manage(t, hw, i, junk).0, hw.volume.Contents(ch), junk)
  {
    hide Tapes.Manage, EndsSo, Volume.IsChain;
    if t.regs.command == Tapes.SKIPBLK {
      AnySkip(t, hw, i, junk, ch);
    } else if t.regs.command == Tapes.BACKBLK {
      AnyBack(t, hw, i, junk, ch);
    } else {
      AnyRead(t, hw, i, junk, ch);
    }
  }
}
