/** A tape file and the head that moves over it: markers and blocks tile the file, and the head stays
    on the tape whatever commands are sent. */
module TapeLayout {
  import opened Arithmetic
  import opened Bytes
  import opened TimerQueue
  import opened Fat32
  import opened FatChains
  import opened Hardware
  import opened Tapes

  const STRIDE := 4100

  // ----- Chains are short -----

  function Below(n: nat): (s: set<nat>)
    ensures |s| == n && forall x: nat :: x in s <==> x < n
  {
    if n == 0 then {} else Below(n - 1) + {n - 1}
  }

  function Elements(s: seq<nat>): set<nat> {
    set x | x in s
  }

  lemma {:induction false} CountDistinct(s: seq<nat>)
    requires forall i, j :: 0 <= i < j < |s| ==> s[i] != s[j]
    ensures |Elements(s)| == |s|
  {
    if s != [] {
      var front, last := s[..|s| - 1], s[|s| - 1];
      CountDistinct(front);
      assert s == front + [last];
      assert Elements(s) == Elements(front) + {last};
      assert last !in Elements(front);
    }
  }

  lemma DistinctBelow(s: seq<nat>, n: nat)
    requires forall i, j :: 0 <= i < j < |s| ==> s[i] != s[j]
    requires forall x :: x in s ==> x < n
    ensures |s| <= n
  {
    CountDistinct(s);
    SubsetSize(Elements(s), Below(n));
  }

  /** A file has less than 2^28 bytes, so positions in it do not wrap. */
  lemma FileIsSmall(v: Volume, c: nat, ch: seq<nat>)
    requires v.Mounted() && v.IsChain(c, ch) && v.AllPresent(ch)
    ensures |v.Contents(ch)| <= CHAIN_END * BUFFER_SIZE
  {
    ChainDistinct(v, c, ch);
    DistinctBelow(ch, CHAIN_END);
    TailLength(v, ch, 0);
    MulMono(|ch|, CHAIN_END, v.ClusterSize(), BUFFER_SIZE);
  }

  // ----- The layout -----

  function MarkerBytes(f: seq<Byte>, k: nat): seq<Byte>
    requires STRIDE * k + 4 <= |f|
  {
    f[STRIDE * k..STRIDE * k + 4]
  }

  function BlockBytes(f: seq<Byte>, k: nat): (b: Block)
    requires STRIDE * (k + 1) <= |f|
  {
    f[STRIDE * k + 4..STRIDE * (k + 1)]
  }

  function MarkerWord(f: seq<Byte>, k: nat): nat
    requires STRIDE * k + 4 <= |f|
  {
    Word(MarkerBytes(f, k))
  }

  /** A tape of `n` blocks: the id, then each block followed by its marker, the last one EOT. */
  ghost predicate WellFormedTape(f: seq<Byte>, n: nat) {
    && n >= 1 && STRIDE * n + 4 <= |f|
    && MarkerWord(f, 0) == TAPEFILEID
    && (forall k :: 1 <= k < n ==> MarkerWord(f, k) == EOB || MarkerWord(f, k) == EOF)
    && MarkerWord(f, n) == EOT
  }

  /** The file as its parts in order, up to and including marker `k`. */
  function Parts(f: seq<Byte>, k: nat): seq<Byte>
    requires STRIDE * k + 4 <= |f|
  {
    if k == 0 then MarkerBytes(f, 0) else Parts(f, k - 1) + BlockBytes(f, k - 1) + MarkerBytes(f, k)
  }

  /** The id, the blocks and the markers tile the file without gap or overlap. */
  lemma {:induction false} PartsTile(f: seq<Byte>, k: nat)
    requires STRIDE * k + 4 <= |f|
    ensures Parts(f, k) == f[..STRIDE * k + 4]
  {
    if k > 0 {
      PartsTile(f, k - 1);
      assert f[..STRIDE * k + 4] == f[..STRIDE * (k - 1) + 4] + BlockBytes(f, k - 1) + MarkerBytes(f, k);
    }
  }

  // ----- What the tape routines read -----

  /** `f` is the file that starts at the tape's cluster, and it is a tape of `n` blocks. */
  ghost predicate Holds(v: Volume, cluster: nat, ch: seq<nat>, f: seq<Byte>, n: nat) {
    && v.Mounted() && cluster != 0
    && v.IsChain(cluster, ch) && v.AllPresent(ch) && v.Contents(ch) == f
    && WellFormedTape(f, n)
  }

  lemma ReadsMarker(t: Tape, v: Volume, ch: seq<nat>, f: seq<Byte>, n: nat, junk: seq<Byte>)
    requires Holds(v, t.cluster, ch, f, n) && t.blockIndex <= n && |junk| == 4
    ensures Marker(t, v, junk) == MarkerWord(f, t.blockIndex)
  {
    var k := t.blockIndex;
    FileIsSmall(v, t.cluster, ch);
    ReadIsSlice(v, t.cluster, ch, STRIDE * k, 4);
    PlaceOf(k, n);
    assert Slice(f, STRIDE * k, 4) == MarkerBytes(f, k);
    OverlayAll(junk, MarkerBytes(f, k));
    hide Volume.Read, Volume.IsChain, WellFormedTape, Word, MarkerBytes, Overlay, Slice;
  }

  lemma OverlayAll(s: seq<Byte>, d: seq<Byte>)
    requires |s| == |d|
    ensures Overlay(s, 0, d) == d
  {
  }

  lemma PlaceOf(k: nat, n: nat)
    requires k <= n && STRIDE * n + 4 <= CHAIN_END * BUFFER_SIZE
    ensures MarkerStart(k) == STRIDE * k && BlockStart(k) == STRIDE * k + 4
  {
  }

  lemma ReadsBlock(v: Volume, cluster: nat, ch: seq<nat>, f: seq<Byte>, n: nat, k: nat)
    requires Holds(v, cluster, ch, f, n) && k < n
    ensures v.Read(cluster, BlockStart(k), BLOCKSIZE) == BlockBytes(f, k)
  {
    FileIsSmall(v, cluster, ch);
    ReadIsSlice(v, cluster, ch, STRIDE * k + 4, BLOCKSIZE);
    PlaceOf(k, n);
    assert Slice(f, STRIDE * k + 4, BLOCKSIZE) == BlockBytes(f, k);
    hide Volume.Read, Volume.IsChain, WellFormedTape;
  }

  // ----- The head stays on the tape -----

  function MarkerUnder(f: seq<Byte>, k: nat): nat
    requires STRIDE * k + 4 <= |f|
  {
    if k == 0 then TS else MarkerWord(f, k)
  }

  /** The head is at one of the markers 0 to n, data register 1 shows that marker, and a block is being
      read only when there is one. */
  ghost predicate OnTape(t: Tape, f: seq<Byte>, n: nat) {
    && WellFormedTape(f, n)
    && t.regs.status != DEVICE_NOT_INSTALLED
    && t.blockIndex <= n
    && t.regs.data1 == MarkerUnder(f, t.blockIndex)
    && (t.Busy() && t.regs.command == READBLK ==> t.blockIndex < n)
  }

  /** The end-of-tape marker shows exactly at the end. */
  lemma EotExactlyAtEnd(t: Tape, f: seq<Byte>, n: nat)
    requires OnTape(t, f, n)
    ensures t.regs.data1 == EOT <==> t.blockIndex == n
  {
  }

  lemma HeadUpdates(t: Tape, v: Volume, ch: seq<nat>, f: seq<Byte>, n: nat, junk: seq<Byte>)
    requires Holds(v, t.cluster, ch, f, n) && t.blockIndex <= n && |junk| == 4
    ensures UpdateHead(t, v, junk) == (0, t.(regs := t.regs.(data1 := MarkerUnder(f, t.blockIndex))))
  {
    if t.blockIndex > 0 {
      ReadsMarker(t, v, ch, f, n, junk);
      assert t.blockIndex < n ==> MarkerWord(f, t.blockIndex) == EOB || MarkerWord(f, t.blockIndex) == EOF;
    }
    hide Marker, MarkerWord, Volume.IsChain;
  }

  lemma MailboxKeepsOnTape(t: Tape, hw: Hw, i: nat, address: nat, now: nat, junk: seq<Byte>,
                           ch: seq<nat>, f: seq<Byte>, n: nat)
    requires hw.Shape() && |junk| == 4 && Holds(hw.volume, t.cluster, ch, f, n) && OnTape(t, f, n)
    ensures var t' := Mailbox(t, hw, i, address, now, junk).0; t'.cluster == t.cluster && OnTape(t', f, n)
  {
    EotExactlyAtEnd(t, f, n);
    hide Hw.Arm, MarkerWord, Holds, WellFormedTape;
  }

  lemma ForwardBy1(t: Tape, v: Volume, ch: seq<nat>, f: seq<Byte>, n: nat)
    requires Holds(v, t.cluster, ch, f, n) && t.blockIndex < n
    ensures Forward(t) == t.(blockIndex := t.blockIndex + 1)
  {
    hide Volume.IsChain, Volume.Mounted, Volume.Tail, MarkerWord;
    FileIsSmall(v, t.cluster, ch);
    assert t.blockIndex + 1 < TWO_TO_THE_32;
  }

  lemma SkipForward(t: Tape, v: Volume, junk: seq<Byte>, ch: seq<nat>, f: seq<Byte>, n: nat)
    requires Holds(v, t.cluster, ch, f, n) && OnTape(t, f, n) && |junk| == 4
    ensures t.blockIndex < n ==>
      NextBlock(t, v, junk) == (0, t.(blockIndex := t.blockIndex + 1, regs := t.regs.(data1 := MarkerUnder(f, t.blockIndex + 1))))
    ensures t.blockIndex == n ==> NextBlock(t, v, junk) == (-1, t)
  {
    EotExactlyAtEnd(t, f, n);
    if t.blockIndex < n {
      ForwardBy1(t, v, ch, f, n);
      HeadUpdates(Forward(t), v, ch, f, n, junk);
    }
    hide UpdateHead, Forward, MarkerUnder, Volume.IsChain, MarkerWord, WellFormedTape;
  }

  lemma SkipBack(t: Tape, v: Volume, junk: seq<Byte>, ch: seq<nat>, f: seq<Byte>, n: nat)
    requires Holds(v, t.cluster, ch, f, n) && OnTape(t, f, n) && |junk| == 4
    ensures t.blockIndex > 0 ==>
      PrevBlock(t, v, junk) == (0, t.(blockIndex := t.blockIndex - 1, regs := t.regs.(data1 := MarkerUnder(f, t.blockIndex - 1))))
    ensures t.blockIndex == 0 ==> PrevBlock(t, v, junk) == (-1, t)
  {
    hide UpdateHead, MarkerUnder, Volume.IsChain, MarkerWord;
    if t.blockIndex > 0 {
      HeadUpdates(t.(blockIndex := t.blockIndex - 1), v, ch, f, n, junk);
    }
    hide WellFormedTape;
  }

  /** A read that ends has delivered the block under the head, whole, and moved the head past it. */
  lemma ReadDelivers(t: Tape, hw: Hw, i: nat, junk: seq<Byte>, ch: seq<nat>, f: seq<Byte>, n: nat)
    requires hw.Shape() && |junk| == 4 && Holds(hw.volume, t.cluster, ch, f, n) && OnTape(t, f, n)
    requires t.Busy() && t.regs.command == READBLK
    ensures var (t', hw') := Manage(t, hw, i, junk);
      && t'.cluster == t.cluster && t'.blockIndex == t.blockIndex + 1 && t'.regs.status == DEVICE_READY
      && t'.regs.data1 == MarkerUnder(f, t.blockIndex + 1)
      && hw'.ram == hw.ram[t.regs.data0 := BlockBytes(f, t.blockIndex)]
      && hw'.volume == hw.volume
  {
    hide Volume.IsChain, BlockStart, Overlay, UpdateHead, MarkerUnder, BlockBytes;
    ReadsBlock(hw.volume, t.cluster, ch, f, n, t.blockIndex);
    ForwardBy1(t, hw.volume, ch, f, n);
    HeadUpdates(Forward(t), hw.volume, ch, f, n, junk);
    OverlayAll(hw.BlockAt(t.regs.data0), BlockBytes(f, t.blockIndex));
    hide Forward, Volume.Read, WellFormedTape;
  }

  lemma CompleteMeans(t: Tape, hw: Hw, i: nat, status: nat)
    requires hw.Shape()
    ensures Complete(t, hw, i, status).0 == t.(mailbox := NULL, regs := t.regs.(status := status))
    ensures Complete(t, hw, i, status).1.volume == hw.volume
  {
  }

  lemma WindingManaged(t: Tape, hw: Hw, i: nat, junk: seq<Byte>)
    requires hw.Shape() && |junk| == 4 && t.Busy()
    ensures t.regs.command == SKIPBLK ==>
      var (res, t1) := NextBlock(t, hw.volume, junk);
      Manage(t, hw, i, junk) == Complete(t1, hw, i, if res < 0 then SKIP_ERROR else DEVICE_READY)
    ensures t.regs.command == BACKBLK ==>
      var (res, t1) := PrevBlock(t, hw.volume, junk);
      Manage(t, hw, i, junk) == Complete(t1, hw, i, if res < 0 then BACK_BLOCK_ERROR else DEVICE_READY)
  {
    hide Complete, NextBlock, PrevBlock, ReadBlock, AfterRead, Volume.Mounted;
  }

  lemma SkipKeepsOnTape(t: Tape, hw: Hw, i: nat, junk: seq<Byte>, ch: seq<nat>, f: seq<Byte>, n: nat)
    requires hw.Shape() && |junk| == 4 && Holds(hw.volume, t.cluster, ch, f, n) && OnTape(t, f, n)
    requires t.Busy() && t.regs.command == SKIPBLK
    ensures var (t', hw') := Manage(t, hw, i, junk);
      t'.cluster == t.cluster && OnTape(t', f, n) && hw'.volume == hw.volume
  {
    var (res, t1) := NextBlock(t, hw.volume, junk);
    SkipForward(t, hw.volume, junk, ch, f, n);
    CompleteMeans(t1, hw, i, if res < 0 then SKIP_ERROR else DEVICE_READY);
    WindingManaged(t, hw, i, junk);
    hide Manage, Complete, NextBlock, PrevBlock, MarkerUnder, Holds, WellFormedTape;
  }

  lemma BackKeepsOnTape(t: Tape, hw: Hw, i: nat, junk: seq<Byte>, ch: seq<nat>, f: seq<Byte>, n: nat)
    requires hw.Shape() && |junk| == 4 && Holds(hw.volume, t.cluster, ch, f, n) && OnTape(t, f, n)
    requires t.Busy() && t.regs.command == BACKBLK
    ensures var (t', hw') := Manage(t, hw, i, junk);
      t'.cluster == t.cluster && OnTape(t', f, n) && hw'.volume == hw.volume
  {
    var (res, t1) := PrevBlock(t, hw.volume, junk);
    SkipBack(t, hw.volume, junk, ch, f, n);
    CompleteMeans(t1, hw, i, if res < 0 then BACK_BLOCK_ERROR else DEVICE_READY);
    WindingManaged(t, hw, i, junk);
    hide Manage, Complete, NextBlock, PrevBlock, MarkerUnder, Holds, WellFormedTape;
  }

  lemma ReadKeepsOnTape(t: Tape, hw: Hw, i: nat, junk: seq<Byte>, ch: seq<nat>, f: seq<Byte>, n: nat)
    requires hw.Shape() && |junk| == 4 && Holds(hw.volume, t.cluster, ch, f, n) && OnTape(t, f, n)
    requires t.Busy() && t.regs.command == READBLK
    ensures var (t', hw') := Manage(t, hw, i, junk);
      t'.cluster == t.cluster && OnTape(t', f, n) && hw'.volume == hw.volume
  {
    ReadDelivers(t, hw, i, junk, ch, f, n);
    hide Manage, MarkerUnder, Holds, WellFormedTape, BlockBytes;
  }

  lemma OtherwiseUntouched(t: Tape, hw: Hw, i: nat, junk: seq<Byte>)
    requires hw.Shape() && |junk| == 4 && (t.Busy() ==> !TimedCommand(t.regs.command))
    ensures Manage(t, hw, i, junk) == (t, hw)
  {
    hide NextBlock, PrevBlock, AfterRead, ReadBlock, Complete;
  }

  lemma ManageKeepsOnTape(t: Tape, hw: Hw, i: nat, junk: seq<Byte>, ch: seq<nat>, f: seq<Byte>, n: nat)
    requires hw.Shape() && |junk| == 4 && Holds(hw.volume, t.cluster, ch, f, n) && OnTape(t, f, n)
    ensures var (t', hw') := Manage(t, hw, i, junk);
      t'.cluster == t.cluster && OnTape(t', f, n) && hw'.volume == hw.volume
  {
    hide Manage, OnTape, Holds;
    if !t.Busy() || !TimedCommand(t.regs.command) {
      OtherwiseUntouched(t, hw, i, junk);
    } else if t.regs.command == READBLK {
      ReadKeepsOnTape(t, hw, i, junk, ch, f, n);
    } else if t.regs.command == SKIPBLK {
      SkipKeepsOnTape(t, hw, i, junk, ch, f, n);
    } else {
      BackKeepsOnTape(t, hw, i, junk, ch, f, n);
    }
  }
}
