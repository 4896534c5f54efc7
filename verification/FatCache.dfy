/** The table cache of `fat_get_table_entry` for a cache of `k` sectors, of which the source has
    one: the window test compares with the sector of the last lookup, not of the last load. */
module FatCache {

  const ENTRIES := 128

  datatype Cache = Cache(last: nat, words: seq<nat>)

  function Load(k: nat, fat: nat -> nat, sector: nat): (words: seq<nat>)
    ensures |words| == ENTRIES * k
  {
    seq(ENTRIES * k, j requires 0 <= j => fat(ENTRIES * sector + j))
  }

  function Lookup(k: nat, fat: nat -> nat, c: Cache, index: nat): (nat, Cache)
    requires k > 0 && |c.words| == ENTRIES * k
  {
    var sector := index / ENTRIES;
    var words := if sector < c.last || sector >= c.last + k then Load(k, fat, sector) else c.words;
    (words[index % (ENTRIES * k)], Cache(sector, words))
  }

  /** What a sequence of lookups returns. */
  function Lookups(k: nat, fat: nat -> nat, c: Cache, indices: seq<nat>): (r: seq<nat>)
    requires k > 0 && |c.words| == ENTRIES * k
    ensures |r| == |indices|
    decreases |indices|
  {
    if indices == [] then []
    else
      var (r, c') := Lookup(k, fat, c, indices[0]);
      [r] + Lookups(k, fat, c', indices[1..])
  }

  /** From the state after mounting, every lookup of every sequence returns the entry on the device. */
  ghost predicate Transparent(k: nat)
    requires k > 0
  {
    forall fat: nat -> nat, indices: seq<nat>, i: nat :: i < |indices| ==>
      Lookups(k, fat, Cache(0, Load(k, fat, 0)), indices)[i] == fat(indices[i])
  }

  lemma {:induction false} OneSectorIsTransparent(fat: nat -> nat, sector: nat, indices: seq<nat>, i: nat)
    requires i < |indices|
    ensures Lookups(1, fat, Cache(sector, Load(1, fat, sector)), indices)[i] == fat(indices[i])
    decreases |indices|
  {
    if i > 0 {
      OneSectorIsTransparent(fat, indices[0] / ENTRIES, indices[1..], i - 1);
    }
  }

  /** The cache is transparent exactly when it holds one sector. */
  lemma TransparentIffOneSector(k: nat)
    requires k > 0
    ensures Transparent(k) <==> k == 1
  {
    if k == 1 {
      forall fat: nat -> nat, indices: seq<nat>, i: nat | i < |indices|
        ensures Lookups(k, fat, Cache(0, Load(k, fat, 0)), indices)[i] == fat(indices[i])
      {
        OneSectorIsTransparent(fat, 0, indices, i);
      }
    } else {
      var fat, indices := (n: nat) => n, [ENTRIES, ENTRIES * k];
      var c := Cache(0, Load(k, fat, 0));
      assert ENTRIES / ENTRIES == 1 && (ENTRIES * k) / ENTRIES == k && (ENTRIES * k) % (ENTRIES * k) == 0;
      var c' := Lookup(k, fat, c, indices[0]).1;
      assert c' == Cache(1, c.words);
      assert indices[1..] == [ENTRIES * k];
      assert Lookups(k, fat, c', indices[1..])[0] == 0;
      assert Lookups(k, fat, c, indices)[1] != fat(indices[1]);
    }
  }
}
