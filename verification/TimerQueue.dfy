/** The abstract event queue behind the emulated timers: entries sorted by deadline, at most
    one per (type, code) key.  The heap rings in `TimerPool` refine the functions given here. */
module TimerQueue {

  datatype TimerType = UNALLOCATED | PRINTER | TAPE | DISK

  datatype Key = Key(kind: TimerType, code: int)

  datatype Entry = Entry(time: nat, key: Key)

  const IL_LINES := 4
  const MAX_DEVICES := 4
  const MAX_TIMERS := (IL_LINES + 1) * MAX_DEVICES

  // ----- Operations -----

  function Filter(q: seq<Entry>, p: Entry -> bool): seq<Entry> {
    if q == [] then []
    else
      var last := q[|q| - 1];
      Filter(q[..|q| - 1], p) + (if p(last) then [last] else [])
  }

  /** What remains of the queue once every timer of key `k` is unlinked. */
  function RemoveKey(q: seq<Entry>, k: Key): seq<Entry> {
    Filter(q, (e: Entry) => e.key != k)
  }

  /** The position of the first timer that expires strictly after `t`. */
  function InsertPos(q: seq<Entry>, t: nat): (n: nat)
    ensures n <= |q|
    ensures forall i :: 0 <= i < n ==> q[i].time <= t
    ensures n < |q| ==> q[n].time > t
  {
    if q == [] || q[0].time > t then 0 else 1 + InsertPos(q[1..], t)
  }

  function Insert(q: seq<Entry>, e: Entry): seq<Entry> {
    var n := InsertPos(q, e.time);
    q[..n] + [e] + q[n..]
  }

  /** Re-arming a key: the old timer goes, the new one is inserted unless no node is free. */
  function AddTimer(q: seq<Entry>, t: nat, k: Key): seq<Entry> {
    var r := RemoveKey(q, k);
    if |r| < MAX_TIMERS then Insert(r, Entry(t, k)) else r
  }

  // ----- Invariants -----

  ghost predicate Sorted(q: seq<Entry>) {
    forall i, j :: 0 <= i < j < |q| ==> q[i].time <= q[j].time
  }

  ghost predicate UniqueKeys(q: seq<Entry>) {
    forall i, j :: 0 <= i < j < |q| ==> q[i].key != q[j].key
  }

  predicate DeviceKey(k: Key) {
    !k.kind.UNALLOCATED? && 0 <= k.code < MAX_DEVICES
  }

  ghost predicate DeviceKeys(q: seq<Entry>) {
    forall e :: e in q ==> DeviceKey(e.key)
  }

  ghost predicate WellFormed(q: seq<Entry>) {
    Sorted(q) && UniqueKeys(q) && DeviceKeys(q)
  }

  // ----- Filtering -----

  lemma {:induction false} FilterMembers(q: seq<Entry>, p: Entry -> bool)
    ensures forall e :: e in Filter(q, p) <==> e in q && p(e)
    ensures |Filter(q, p)| <= |q|
  {
    if q != [] {
      FilterMembers(q[..|q| - 1], p);
      assert q == q[..|q| - 1] + [q[|q| - 1]];
    }
  }

  lemma {:induction false} FilterKeepsOrder(q: seq<Entry>, p: Entry -> bool)
    ensures Sorted(q) ==> Sorted(Filter(q, p))
    ensures UniqueKeys(q) ==> UniqueKeys(Filter(q, p))
  {
    if q != [] {
      var front := q[..|q| - 1];
      FilterKeepsOrder(front, p);
      FilterMembers(front, p);
      var f := Filter(front, p);
      forall i | 0 <= i < |f|
        ensures f[i] in front
      {
        assert f[i] in f;
      }
    }
  }

  lemma {:induction false} FilterAppend(q: seq<Entry>, r: seq<Entry>, p: Entry -> bool)
    ensures Filter(q + r, p) == Filter(q, p) + Filter(r, p)
  {
    if r == [] {
      assert q + r == q;
    } else {
      FilterAppend(q, r[..|r| - 1], p);
      assert (q + r)[..|q + r| - 1] == q + r[..|r| - 1];
    }
  }

  lemma {:induction false} FilterAll(q: seq<Entry>, p: Entry -> bool)
    requires forall e :: e in q ==> p(e)
    ensures Filter(q, p) == q
  {
    if q != [] {
      assert q == q[..|q| - 1] + [q[|q| - 1]];
      FilterAll(q[..|q| - 1], p);
    }
  }

  lemma {:induction false} FilterNone(q: seq<Entry>, p: Entry -> bool)
    requires forall e :: e in q ==> !p(e)
    ensures Filter(q, p) == []
  {
    if q != [] {
      assert q == q[..|q| - 1] + [q[|q| - 1]];
      FilterNone(q[..|q| - 1], p);
    }
  }

  lemma {:induction false} FilterTwice(q: seq<Entry>, p: Entry -> bool, r: Entry -> bool, both: Entry -> bool)
    requires forall e :: both(e) <==> p(e) && r(e)
    ensures Filter(Filter(q, p), r) == Filter(q, both)
  {
    if q != [] {
      var front, last := q[..|q| - 1], q[|q| - 1];
      FilterTwice(front, p, r, both);
      if p(last) {
        assert Filter(q, p)[..|Filter(q, p)| - 1] == Filter(front, p);
      } else {
        assert Filter(q, p) == Filter(front, p);
      }
    }
  }

  /** The queue while the removal loop stands at element `m` of the original queue `q`: the part
      already walked is filtered, the rest is as it was. */
  ghost predicate Walked(p: seq<Entry>, q: seq<Entry>, m: nat, n: nat, key: Key) {
    m <= |q| && n == |RemoveKey(q[..m], key)| && p == RemoveKey(q[..m], key) + q[m..]
  }

  lemma WalkedAt(p: seq<Entry>, q: seq<Entry>, m: nat, n: nat, key: Key)
    requires Walked(p, q, m, n, key)
    ensures |p| - n == |q| - m && forall i :: n <= i < |p| ==> p[i] == q[m + i - n]
    ensures n == |p| ==> p == RemoveKey(q, key)
  {
    if m == |q| {
      assert q[..m] == q;
    }
  }

  /** One turn of the loop. */
  lemma WalkedNext(p: seq<Entry>, q: seq<Entry>, m: nat, n: nat, key: Key)
    requires Walked(p, q, m, n, key) && m < |q|
    ensures n < |p|
    ensures if q[m].key == key then Walked(p[..n] + p[n + 1..], q, m + 1, n, key) else Walked(p, q, m + 1, n + 1, key)
  {
    assert q[..m + 1][..m] == q[..m];
  }

  // ----- What re-arming does -----

  lemma InsertMembers(q: seq<Entry>, e: Entry)
    ensures forall x :: x in Insert(q, e) <==> x == e || x in q
  {
    var n := InsertPos(q, e.time);
    assert q == q[..n] + q[n..];
  }

  lemma InsertKeepsOrder(q: seq<Entry>, e: Entry)
    requires Sorted(q)
    ensures Sorted(Insert(q, e))
  {
    var n, r := InsertPos(q, e.time), Insert(q, e);
    forall i, j | 0 <= i < j < |r|
      ensures r[i].time <= r[j].time
    {
      if j < n || i > n {
      } else if i == n {
        assert r[j] == q[j - 1] && q[n].time <= q[j - 1].time;
      } else if j > n {
        assert r[i] == q[i] && r[j] == q[j - 1];
      }
    }
  }

  lemma InsertKeepsKeysUnique(q: seq<Entry>, e: Entry)
    requires UniqueKeys(q)
    requires forall x :: x in q ==> x.key != e.key
    ensures UniqueKeys(Insert(q, e))
  {
    var n, r := InsertPos(q, e.time), Insert(q, e);
    forall i, j | 0 <= i < j < |r|
      ensures r[i].key != r[j].key
    {
      var i', j' := if i < n then i else i - 1, if j < n then j else j - 1;
      if i == n {
        assert r[j] == q[j'];
      } else if j == n {
        assert r[i] == q[i'];
      } else {
        assert r[i] == q[i'] && r[j] == q[j'];
      }
    }
  }

  /** Membership after re-arming: the new timer, and every timer of another key. */
  lemma AddTimerMembers(q: seq<Entry>, t: nat, k: Key)
    requires |RemoveKey(q, k)| < MAX_TIMERS
    ensures forall e :: e in AddTimer(q, t, k) <==> e == Entry(t, k) || (e in q && e.key != k)
  {
    FilterMembers(q, (e: Entry) => e.key != k);
    InsertMembers(RemoveKey(q, k), Entry(t, k));
  }

  lemma RemoveKeyWellFormed(q: seq<Entry>, k: Key)
    requires WellFormed(q)
    ensures WellFormed(RemoveKey(q, k))
    ensures forall e :: e in RemoveKey(q, k) <==> e in q && e.key != k
  {
    FilterMembers(q, (e: Entry) => e.key != k);
    FilterKeepsOrder(q, (e: Entry) => e.key != k);
  }

  lemma AddTimerWellFormed(q: seq<Entry>, t: nat, k: Key)
    requires WellFormed(q) && DeviceKey(k)
    ensures WellFormed(AddTimer(q, t, k))
  {
    var r, e := RemoveKey(q, k), Entry(t, k);
    RemoveKeyWellFormed(q, k);
    InsertMembers(r, e);
    InsertKeepsOrder(r, e);
    InsertKeepsKeysUnique(r, e);
  }

  lemma FilterSplit(a: seq<Entry>, b: seq<Entry>, p: Entry -> bool)
    ensures (forall e :: e in a ==> p(e)) && (forall e :: e in b ==> !p(e)) ==> Filter(a + b, p) == a
    ensures (forall e :: e in a ==> !p(e)) && (forall e :: e in b ==> p(e)) ==> Filter(a + b, p) == b
  {
    FilterAppend(a, b, p);
    if (forall e :: e in a ==> p(e)) && (forall e :: e in b ==> !p(e)) {
      FilterAll(a, p);
      FilterNone(b, p);
    }
    if (forall e :: e in a ==> !p(e)) && (forall e :: e in b ==> p(e)) {
      FilterNone(a, p);
      FilterAll(b, p);
    }
  }

  lemma AddTimerKeepsDeviceKeys(q: seq<Entry>, t: nat, k: Key)
    requires DeviceKeys(q) && DeviceKey(k)
    ensures DeviceKeys(AddTimer(q, t, k))
  {
    FilterMembers(q, (e: Entry) => e.key != k);
    InsertMembers(RemoveKey(q, k), Entry(t, k));
  }

  lemma InsertIsStable(q: seq<Entry>, e: Entry, early: Entry -> bool, late: Entry -> bool)
    requires Sorted(q)
    requires forall x :: early(x) <==> x.time <= e.time
    requires forall x :: late(x) <==> x.time > e.time
    ensures Insert(q, e) == Filter(q, early) + [e] + Filter(q, late)
  {
    var n := InsertPos(q, e.time);
    assert q == q[..n] + q[n..];
    forall i | n <= i < |q|
      ensures q[i].time > e.time
    {
      assert q[n].time <= q[i].time;
    }
    FilterSplit(q[..n], q[n..], early);
    FilterSplit(q[..n], q[n..], late);
  }

  /** `AddTimer` is the removal of the key followed by stable sorted insertion: with the key's old
      timer dropped, every timer due no later than `t` stands before the new one in its old order,
      and every later timer after it in its old order. */
  lemma AddTimerIsStableInsertion(q: seq<Entry>, t: nat, k: Key)
    requires Sorted(q) && |RemoveKey(q, k)| < MAX_TIMERS
    ensures AddTimer(q, t, k)
         == Filter(q, (e: Entry) => e.key != k && e.time <= t)
            + [Entry(t, k)]
            + Filter(q, (e: Entry) => e.key != k && e.time > t)
  {
    var other, early, late := (e: Entry) => e.key != k, (e: Entry) => e.time <= t, (e: Entry) => e.time > t;
    FilterKeepsOrder(q, other);
    InsertIsStable(RemoveKey(q, k), Entry(t, k), early, late);
    FilterTwice(q, other, early, (e: Entry) => e.key != k && e.time <= t);
    FilterTwice(q, other, late, (e: Entry) => e.key != k && e.time > t);
  }

  // ----- The pool is large enough -----

  function KeySet(q: seq<Entry>): set<Key> {
    set e | e in q :: e.key
  }

  lemma {:induction false} UniqueKeysCount(q: seq<Entry>)
    requires UniqueKeys(q)
    ensures |KeySet(q)| == |q|
  {
    if q != [] {
      var front, last := q[..|q| - 1], q[|q| - 1];
      UniqueKeysCount(front);
      assert q == front + [last];
      assert KeySet(q) == KeySet(front) + {last.key};
      assert last.key !in KeySet(front);
    }
  }

  function AllDeviceKeys(): (s: set<Key>)
    ensures forall k :: DeviceKey(k) ==> k in s
    ensures |s| <= 12
  {
    var s := {Key(PRINTER, 0), Key(PRINTER, 1), Key(PRINTER, 2), Key(PRINTER, 3),
              Key(TAPE, 0), Key(TAPE, 1), Key(TAPE, 2), Key(TAPE, 3),
              Key(DISK, 0), Key(DISK, 1), Key(DISK, 2), Key(DISK, 3)};
    s
  }

  lemma SubsetSize<T>(a: set<T>, b: set<T>)
    requires a <= b
    ensures |a| <= |b|
  {
    assert b == a + (b - a);
  }

  /** Key uniqueness bounds the queue by the twelve devices, so an allocation always finds one
      of the twenty nodes free. */
  lemma AllocationNeverFails(q: seq<Entry>, k: Key)
    requires WellFormed(q)
    ensures |q| <= 12
    ensures |RemoveKey(q, k)| < MAX_TIMERS
  {
    UniqueKeysCount(q);
    forall k | k in KeySet(q)
      ensures k in AllDeviceKeys()
    {
    }
    SubsetSize(KeySet(q), AllDeviceKeys());
    FilterMembers(q, (e: Entry) => e.key != k);
  }
}
