/** The fixed pool of emulated timers: twenty nodes linked into two circular doubly linked lists,
    free and pending, each closed by a sentinel.  A node stands for a `timer_t` together with its
    embedded `list_head`; the payload of a sentinel is never read. */
module TimerPool {
  import opened TimerQueue

  class Timer {
    var time: nat
    var kind: TimerType
    var code: int
    var next: Timer?
    var prev: Timer?

    constructor ()
      ensures time == 0 && kind == UNALLOCATED && code == 0 && next == null && prev == null
    {
      time, kind, code, next, prev := 0, UNALLOCATED, 0, null, null;
    }
  }

  // ----- Circular lists -----

  /** The node at position `i` of the ring: position 0 and the one past the last are the sentinel. */
  ghost function At(h: Timer, s: seq<Timer>, i: nat): Timer {
    if 1 <= i <= |s| then s[i - 1] else h
  }

  ghost predicate Distinct(h: Timer, s: seq<Timer>) {
    h !in s && forall i, j :: 0 <= i < j < |s| ==> s[i] != s[j]
  }

  ghost function Nodes(s: seq<Timer>): set<Timer> {
    set t | t in s
  }

  /** One cycle through the sentinel `h` and the nodes `s`, next and prev being inverse. */
  ghost predicate Ring(h: Timer, s: seq<Timer>)
    reads h, Nodes(s)
  {
    && Distinct(h, s)
    && forall i :: 0 <= i <= |s| ==>
         At(h, s, i).next == At(h, s, i + 1) && At(h, s, i + 1).prev == At(h, s, i)
  }

  ghost function With(s: seq<Timer>, k: nat, n: Timer): seq<Timer>
    requires k <= |s|
  {
    s[..k] + [n] + s[k..]
  }

  ghost function Without(s: seq<Timer>, k: nat): seq<Timer>
    requires k < |s|
  {
    s[..k] + s[k + 1..]
  }

  /** Links `n` between its two new neighbours. */
  method LinkBetween(n: Timer, prev: Timer, next: Timer, ghost h: Timer, ghost s: seq<Timer>, ghost k: nat)
    requires Ring(h, s) && n != h && n !in s && k <= |s|
    requires prev == At(h, s, k) && next == At(h, s, k + 1)
    modifies n`next, n`prev, prev`next, next`prev
    ensures Ring(h, With(s, k, n))
  {
    next.prev := n;
    n.next := next;
    n.prev := prev;
    prev.next := n;
    ghost var r := With(s, k, n);
    forall i | 0 <= i <= |r|
      ensures At(h, r, i).next == At(h, r, i + 1) && At(h, r, i + 1).prev == At(h, r, i)
    {
      if i < k {
        assert At(h, r, i) == At(h, s, i) && At(h, r, i + 1) == At(h, s, i + 1);
      } else if i > k + 1 {
        assert At(h, r, i) == At(h, s, i - 1) && At(h, r, i + 1) == At(h, s, i);
      }
    }
  }

  method ListAdd(n: Timer, old_: Timer, ghost h: Timer, ghost s: seq<Timer>, ghost k: nat)
    requires Ring(h, s) && n != h && n !in s && k <= |s| && old_ == At(h, s, k)
    modifies n`next, n`prev, old_`next, At(h, s, k + 1)`prev
    ensures Ring(h, With(s, k, n))
  {
    assert old_.next == At(h, s, k + 1);
    LinkBetween(n, old_, old_.next, h, s, k);
  }

  method ListAddTail(n: Timer, h: Timer, ghost s: seq<Timer>)
    requires Ring(h, s) && n != h && n !in s
    modifies n`next, n`prev, At(h, s, |s|)`next, h`prev
    ensures Ring(h, s + [n])
  {
    assert At(h, s, |s| + 1) == h;
    LinkBetween(n, h.prev, h, h, s, |s|);
    assert With(s, |s|, n) == s + [n];
  }

  /** Unlinks `n`, whose own pointers keep their values. */
  method ListDel(n: Timer, ghost h: Timer, ghost s: seq<Timer>, ghost k: nat)
    requires Ring(h, s) && k < |s| && n == s[k]
    modifies At(h, s, k)`next, At(h, s, k + 2)`prev
    ensures Ring(h, Without(s, k))
  {
    assert At(h, s, k + 1) == n;
    n.next.prev := n.prev;
    n.prev.next := n.next;
    ghost var r := Without(s, k);
    forall i | 0 <= i <= |r|
      ensures At(h, r, i).next == At(h, r, i + 1) && At(h, r, i + 1).prev == At(h, r, i)
    {
      if i < k {
        assert At(h, r, i) == At(h, s, i) && At(h, r, i + 1) == At(h, s, i + 1);
      } else if i > k {
        assert At(h, r, i) == At(h, s, i + 1) && At(h, r, i + 1) == At(h, s, i + 2);
      }
    }
  }

  // ----- The queue a ring stands for -----

  ghost function EntryOf(t: Timer): Entry
    reads t
  {
    Entry(t.time, Key(t.kind, t.code))
  }

  ghost function Entries(s: seq<Timer>): (q: seq<Entry>)
    reads Nodes(s)
    ensures |q| == |s|
    ensures forall i :: 0 <= i < |s| ==> q[i] == EntryOf(s[i])
  {
    if s == [] then [] else Entries(s[..|s| - 1]) + [EntryOf(s[|s| - 1])]
  }

  lemma {:induction false} EntriesWithout(s: seq<Timer>, k: nat)
    requires k < |s|
    ensures Entries(Without(s, k)) == Entries(s)[..k] + Entries(s)[k + 1..]
  {
    var r, q := Without(s, k), Entries(s)[..k] + Entries(s)[k + 1..];
    forall i | 0 <= i < |r|
      ensures Entries(r)[i] == q[i]
    {
      assert r[i] == if i < k then s[i] else s[i + 1];
    }
  }

  lemma {:induction false} NodesWithout(h: Timer, s: seq<Timer>, k: nat)
    requires k < |s| && Distinct(h, s)
    ensures Nodes(Without(s, k)) == Nodes(s) - {s[k]}
  {
    assert s == s[..k] + [s[k]] + s[k + 1..];
  }

  lemma {:induction false} NodesWith(s: seq<Timer>, k: nat, n: Timer)
    requires k <= |s|
    ensures Nodes(With(s, k, n)) == Nodes(s) + {n}
  {
    assert s == s[..k] + s[k..];
  }

  lemma {:induction false} EntriesWith(s: seq<Timer>, k: nat, n: Timer)
    requires k <= |s|
    ensures Entries(With(s, k, n)) == Entries(s)[..k] + [EntryOf(n)] + Entries(s)[k..]
  {
    var r, q := With(s, k, n), Entries(s)[..k] + [EntryOf(n)] + Entries(s)[k..];
    forall i | 0 <= i < |r|
      ensures Entries(r)[i] == q[i]
    {
      assert r[i] == if i < k then s[i] else if i == k then n else s[i - 1];
    }
  }

  class Pool {
    const pendingTimers: Timer
    const freeTimers: Timer
    const timerArray: seq<Timer>
    ghost var pend: seq<Timer>
    ghost var free: seq<Timer>

    ghost predicate Rings()
      reads this, pendingTimers, freeTimers, Nodes(timerArray)
    {
      && pendingTimers != freeTimers && pendingTimers !in timerArray && freeTimers !in timerArray
      && Nodes(pend) <= Nodes(timerArray) && Nodes(free) <= Nodes(timerArray) && Nodes(pend) !! Nodes(free)
      && Ring(pendingTimers, pend)
      && Ring(freeTimers, free)
    }

    /** Both rings are well formed and disjoint, and together hold exactly the nodes of the array. */
    ghost predicate Valid()
      reads this, pendingTimers, freeTimers, Nodes(timerArray)
    {
      && Rings()
      && (forall t :: t in timerArray ==> t in pend || t in free)
      && |pend| + |free| == MAX_TIMERS
    }

    ghost predicate Detached(p: Timer)
      reads this
    {
      p in timerArray && p !in pend && p !in free
    }

    /** Every node but `p` is on one of the rings. */
    ghost predicate ValidWithout(p: Timer)
      reads this, pendingTimers, freeTimers, Nodes(timerArray)
    {
      && Rings() && Detached(p)
      && (forall t :: t in timerArray ==> t in pend || t in free || t == p)
      && |pend| + |free| == MAX_TIMERS - 1
    }

    ghost function Links(): set<Timer> {
      {pendingTimers, freeTimers} + Nodes(timerArray)
    }

    ghost function Repr(): set<object> {
      {this, pendingTimers, freeTimers} + Nodes(timerArray)
    }

    ghost function Pending(): seq<Entry>
      reads this, Nodes(pend)
    {
      Entries(pend)
    }

    constructor InitEmulatedTimers()
      ensures Valid() && Pending() == [] && free == timerArray && fresh(Repr())
    {
      var p := new Timer();
      var f := new Timer();
      var nodes: seq<Timer> := [];
      for i := 0 to MAX_TIMERS
        invariant |nodes| == i && Distinct(f, nodes) && p !in nodes && p != f
        invariant fresh(p) && fresh(f) && forall t :: t in nodes ==> fresh(t)
      {
        var t := new Timer();
        nodes := nodes + [t];
      }
      pendingTimers, freeTimers, timerArray := p, f, nodes;
      pend, free := [], [];
      new;
      LinkFree();
    }

    /** Closes the rings and links the nodes of the array into the free one, in order. */
    method LinkFree()
      requires |timerArray| == MAX_TIMERS && pend == free == [] && pendingTimers != freeTimers
      requires Distinct(freeTimers, timerArray) && pendingTimers !in timerArray
      modifies this`free, Links()
      ensures Valid() && pend == [] && free == timerArray
    {
      pendingTimers.next, pendingTimers.prev := pendingTimers, pendingTimers;
      freeTimers.next, freeTimers.prev := freeTimers, freeTimers;
      for i := 0 to MAX_TIMERS
        invariant pend == [] && free == timerArray[..i] && Ring(pendingTimers, []) && Ring(freeTimers, free)
      {
        assert timerArray[i] in Nodes(timerArray) && (i > 0 ==> At(freeTimers, free, i) in Nodes(timerArray));
        ListAddTail(timerArray[i], freeTimers, free);
        free := free + [timerArray[i]];
      }
      assert free == timerArray;
    }

    /** Unlinks the first free node. */
    method UnlinkFree(block: Timer)
      requires Rings() && free != [] && block == free[0]
      modifies this`free, Links()`next, Links()`prev
      ensures Rings() && Detached(block) && pend == old(pend) && old(free) == [block] + free
    {
      ghost var s := free;
      assert block in Nodes(s);
      assert At(freeTimers, s, 2) == freeTimers || At(freeTimers, s, 2) in Nodes(s);
      ListDel(block, freeTimers, s, 0);
      free := Without(s, 0);
      NodesWithout(freeTimers, s, 0);
    }

    /** Takes the first free node.  Only its first eight bytes, the deadline, are cleared. */
    method AllocTimer() returns (block: Timer?)
      requires Valid()
      modifies this`free, Links()
      ensures pend == old(pend) && Pending() == old(Pending())
      ensures block == null <==> |old(Pending())| == MAX_TIMERS
      ensures if block == null then Valid() else ValidWithout(block)
      ensures block != null ==> old(free) == [block] + free && block.time == 0
      ensures block != null ==> block.kind == old(block.kind) && block.code == old(block.code)
    {
      assert At(freeTimers, free, 0).next == At(freeTimers, free, 1);
      if freeTimers.next == freeTimers {
        return null;
      }
      block := freeTimers.next;
      UnlinkFree(block);
      block.time := 0;
    }

    method FreeTimer(p: Timer)
      requires Rings() && Detached(p)
      modifies this`free, Links()`next, Links()`prev
      ensures Rings() && pend == old(pend) && free == old(free) + [p]
    {
      ListAddTail(p, freeTimers, free);
      free := free + [p];
    }

    /** Walks the pending ring to the first timer that expires later than `t`. */
    method SeekLater(t: nat) returns (prev: Timer, aux: Timer?)
      requires Rings()
      ensures prev == At(pendingTimers, pend, InsertPos(Pending(), t))
      ensures aux == At(pendingTimers, pend, InsertPos(Pending(), t) + 1)
    {
      prev, aux := pendingTimers, pendingTimers.next;
      ghost var k := 0;
      assert At(pendingTimers, pend, 0).next == At(pendingTimers, pend, 1);
      while aux != pendingTimers && aux != null
        invariant k <= |pend| && prev == At(pendingTimers, pend, k) && aux == At(pendingTimers, pend, k + 1)
        invariant forall i :: 0 <= i < k ==> pend[i].time <= t
        decreases |pend| - k
      {
        if aux.time > t {
          break;
        }
        k := k + 1;
        assert At(pendingTimers, pend, k).next == At(pendingTimers, pend, k + 1);
        prev, aux := aux, aux.next;
      }
    }

    /** Links a detached node at position `k` of the pending ring: as the last node when the walk
        has come back to the sentinel, else behind `prev`. */
    method LinkPending(p: Timer, prev: Timer, aux: Timer?, ghost k: nat)
      requires Rings() && Detached(p) && k <= |pend|
      requires prev == At(pendingTimers, pend, k) && aux == At(pendingTimers, pend, k + 1)
      modifies this`pend, Links()`next, Links()`prev
      ensures Rings() && free == old(free) && pend == old(With(pend, k, p))
    {
      ghost var s := pend;
      assert prev == pendingTimers || prev in Nodes(s);
      assert aux == pendingTimers || aux in Nodes(s);
      if aux == pendingTimers {
        assert With(s, k, p) == s + [p];
        ListAddTail(p, pendingTimers, pend);
      } else {
        ListAdd(p, prev, pendingTimers, pend, k);
      }
      pend := With(s, k, p);
      assert Nodes(pend) == Nodes(s) + {p};
    }

    /** Links `p` into the pending ring before the first timer that expires later. */
    method InsertTimer(p: Timer)
      requires ValidWithout(p)
      modifies this`pend, Links()`next, Links()`prev
      ensures Valid() && free == old(free)
      ensures Pending() == Insert(old(Pending()), old(EntryOf(p)))
    {
      var prev, aux := SeekLater(p.time);
      ghost var s, q, k := pend, Pending(), InsertPos(Pending(), p.time);
      LinkPending(p, prev, aux, k);
      assert Entries(s) == q;
      NodesWith(s, k, p);
      EntriesWith(s, k, p);
      assert forall t :: t in timerArray ==> t in Nodes(pend) || t in Nodes(free);
    }

    /** Unlinks the node at position `k` of the pending ring. */
    method UnlinkPending(del: Timer, ghost k: nat)
      requires Rings() && k < |pend| && del == pend[k]
      modifies this`pend, Links()`next, Links()`prev
      ensures Rings() && free == old(free) && pend == old(Without(pend, k)) && Detached(del)
      ensures del.next == old(At(pendingTimers, pend, k + 2))
    {
      ghost var s := pend;
      assert del in Nodes(s);
      assert At(pendingTimers, s, k) == pendingTimers || At(pendingTimers, s, k) in Nodes(s);
      assert At(pendingTimers, s, k + 2) == pendingTimers || At(pendingTimers, s, k + 2) in Nodes(s);
      assert At(pendingTimers, s, k + 1).next == At(pendingTimers, s, k + 2);
      ListDel(del, pendingTimers, pend, k);
      pend := Without(s, k);
      NodesWithout(pendingTimers, s, k);
    }

    /** Moves the node at position `k` of the pending ring to the end of the free ring. */
    method Release(del: Timer, ghost k: nat)
      requires Valid() && k < |pend| && del == pend[k]
      modifies this`pend, this`free, Links()`next, Links()`prev
      ensures Valid() && free == old(free) + [del] && pend == old(Without(pend, k))
      ensures Pending() == old(Pending())[..k] + old(Pending())[k + 1..]
    {
      ghost var s, q := pend, Pending();
      NodesWithout(pendingTimers, s, k);
      UnlinkPending(del, k);
      FreeTimer(del);
      assert Entries(s) == q;
      EntriesWithout(s, k);
    }

    /** One turn of the removal loop at position `k`: `aux` moves on before its node is unlinked. */
    method RemoveOne(del: Timer, kind: TimerType, code: int, ghost k: nat) returns (aux: Timer?, removed: bool)
      requires Valid() && k < |pend| && del == pend[k]
      modifies this`pend, this`free, Links()`next, Links()`prev
      ensures Valid() && removed == (old(EntryOf(del)).key == Key(kind, code))
      ensures Pending() == if removed then old(Pending())[..k] + old(Pending())[k + 1..] else old(Pending())
      ensures aux == At(pendingTimers, pend, if removed then k + 1 else k + 2)
    {
      assert At(pendingTimers, pend, k + 1).next == At(pendingTimers, pend, k + 2);
      aux := del.next;
      removed := del.kind == kind && del.code == code;
      if removed {
        Release(del, k);
      }
    }

    /** Unlinks and frees every pending timer of the key. */
    method RemoveTimerType(kind: TimerType, code: int)
      requires Valid()
      modifies this`pend, this`free, Links()`next, Links()`prev
      ensures Valid() && Pending() == RemoveKey(old(Pending()), Key(kind, code))
    {
      var aux := pendingTimers.next;
      ghost var m, n, q, key := 0, 0, Pending(), Key(kind, code);
      assert At(pendingTimers, pend, 0).next == At(pendingTimers, pend, 1);
      while aux != pendingTimers && aux != null
        invariant Valid() && Walked(Pending(), q, m, n, key)
        invariant aux == At(pendingTimers, pend, n + 1)
        decreases |q| - m
      {
        WalkedAt(Pending(), q, m, n, key);
        WalkedNext(Pending(), q, m, n, key);
        var removed;
        aux, removed := RemoveOne(aux, kind, code, n);
        m, n := m + 1, if removed then n else n + 1;
      }
      WalkedAt(Pending(), q, m, n, key);
    }

    /** Copies of the first pending timer, which stays where it is. */
    method NextTimer() returns (res: int, next: Entry)
      requires Valid()
      ensures res == (if Pending() == [] then -1 else 0)
      ensures res == 0 ==> next == Pending()[0]
    {
      var timer := HeadTimer();
      if timer == null {
        return -1, Entry(0, Key(UNALLOCATED, 0));
      }
      return 0, Entry(timer.time, Key(timer.kind, timer.code));
    }

    method HeadTimer() returns (timer: Timer?)
      requires Valid()
      ensures timer == if pend == [] then null else pend[0]
    {
      assert At(pendingTimers, pend, 0).next == At(pendingTimers, pend, 1);
      if pendingTimers.next == pendingTimers {
        return null;
      }
      return pendingTimers.next;
    }

    /** The first pending timer, released if it expired before `currentTime`. */
    method NextPendingTimer(currentTime: nat) returns (res: int, next: Entry)
      requires Valid()
      modifies this`pend, this`free, Links()`next, Links()`prev
      ensures Valid()
      ensures old(Pending()) == [] ==> res == -1 && Pending() == old(Pending())
      ensures old(Pending()) != [] ==>
        && next == old(Pending())[0]
        && res == (if next.time < currentTime then 1 else 0)
        && Pending() == if res == 1 then old(Pending())[1..] else old(Pending())
    {
      var timer := HeadTimer();
      if timer == null {
        return -1, Entry(0, Key(UNALLOCATED, 0));
      }
      next := Entry(timer.time, Key(timer.kind, timer.code));
      if timer.time < currentTime {
        Release(timer, 0);
        return 1, next;
      }
      return 0, next;
    }

    method Fill(timer: Timer, time: nat, kind: TimerType, code: int)
      requires ValidWithout(timer)
      modifies timer`time, timer`kind, timer`code
      ensures ValidWithout(timer) && EntryOf(timer) == Entry(time, Key(kind, code))
      ensures Pending() == old(Pending())
    {
      timer.time := time;
      timer.kind := kind;
      timer.code := code;
    }

    /** Re-arms the key: its old timer is dropped and a node of the free ring is filled in and
        inserted.  Without a free node the timer is lost. */
    method AddTimer(time: nat, kind: TimerType, code: int)
      requires Valid()
      modifies this`pend, this`free, Links()
      ensures Valid() && Pending() == TimerQueue.AddTimer(old(Pending()), time, Key(kind, code))
    {
      hide Valid, Rings, Insert, RemoveKey;
      RemoveTimerType(kind, code);
      SizeBound();
      var timer := AllocTimer();
      if timer == null {
        return;
      }
      Fill(timer, time, kind, code);
      InsertTimer(timer);
    }

    /** With one timer a device at most, eight nodes or more are free, and an allocation finds one. */
    lemma EightNodesFree(k: Key)
      requires Valid() && WellFormed(Pending())
      ensures |free| >= 8 && |RemoveKey(Pending(), k)| < MAX_TIMERS
    {
      AllocationNeverFails(Pending(), k);
    }

    lemma SizeBound()
      requires Valid()
      ensures |Pending()| <= MAX_TIMERS
    {
    }
  }
}
