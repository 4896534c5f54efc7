/** The identity page tables of `mmu.c`, and the table walk of the ARM architecture (DDI 0487, section
    D4.3) for a 4 KB granule and 39-bit addresses.  Descriptors are 64-bit words. */
module PageTables {

  const TABLE_ENTRIES := 512
  const BLOCK: nat := 0x20_0000
  const GIGABYTE: nat := 0x4000_0000
  const REGION: nat := 0x80_0000_0000
  const PAGE: nat := 0x1000

  const NO_LIMIT := 1

  const DEVICE := 0
  const NORMAL_NC := 3
  const NORMAL := 4

  const INNER_SHAREABLE := 3

  /** First address that is not mapped: one gigabyte and the block of the mailboxes. */
  const MAPPED: nat := 0x4020_0000
  const PERIPHERALS: nat := 0x3F00_0000

  type Permission = p: nat | p < 4

  // ----- Descriptors -----

  /** A table descriptor: entry type 3, the address of the next table, the non-secure bit. */
  function TableDescriptor(address: nat): nat {
    3 + address / PAGE % 0x10_0000_0000 * PAGE + 0x8000_0000_0000_0000
  }

  /** A block descriptor: entry type 1, memory attribute index at bit 2, access permission at bit 6,
      shareability at bit 8, access flag and not-global at bits 10 and 11, output address. */
  function BlockDescriptor(base: nat, ap: nat, sh: nat, attr: nat): nat {
    1 + 4 * attr + 0x40 * ap + 0x100 * sh + 0x400 + 0x800 + base * BLOCK
  }

  /** Entry `base` of the second-level tables, which lie one after the other. */
  function Level1Entry(base: nat, permission: Permission): nat {
    if base < 440 then BlockDescriptor(base, permission, INNER_SHAREABLE, NORMAL)
    else if base < 504 then BlockDescriptor(base, permission, 0, NORMAL_NC)
    else if base <= 512 then BlockDescriptor(base, NO_LIMIT, 0, DEVICE)
    else 0
  }

  function Level0Entry(i: nat, level1Address: nat): nat {
    if i == 0 then TableDescriptor(level1Address)
    else if i == 1 then TableDescriptor(level1Address + PAGE)
    else 0
  }

  /** Fills both tables. */
  method InitPageTables(level0: array<nat>, level1: array<nat>, level1Address: nat, permission: Permission)
    requires level0 != level1 && level0.Length == TABLE_ENTRIES && level1.Length == 2 * TABLE_ENTRIES
    modifies level0, level1
    ensures forall i :: 0 <= i < TABLE_ENTRIES ==> level0[i] == Level0Entry(i, level1Address)
    ensures forall i :: 0 <= i < 2 * TABLE_ENTRIES ==> level1[i] == Level1Entry(i, permission)
  {
    hide BlockDescriptor, TableDescriptor;
    var base: nat := 0;
    while base < 440
      invariant base <= 440 && forall i :: 0 <= i < base ==> level1[i] == Level1Entry(i, permission)
    {
      level1[base] := BlockDescriptor(base, permission, INNER_SHAREABLE, NORMAL);
      base := base + 1;
    }
    while base < 512 - 8
      invariant 440 <= base <= 504 && forall i :: 0 <= i < base ==> level1[i] == Level1Entry(i, permission)
    {
      level1[base] := BlockDescriptor(base, permission, 0, NORMAL_NC);
      base := base + 1;
    }
    while base < 512
      invariant 504 <= base <= 512 && forall i :: 0 <= i < base ==> level1[i] == Level1Entry(i, permission)
    {
      level1[base] := BlockDescriptor(base, NO_LIMIT, 0, DEVICE);
      base := base + 1;
    }
    level1[512] := BlockDescriptor(512, NO_LIMIT, 0, DEVICE);
    base := 513;
    while base < 1024
      invariant 513 <= base <= 1024 && forall i :: 0 <= i < base ==> level1[i] == Level1Entry(i, permission)
    {
      level1[base] := 0;
      base := base + 1;
    }
    for i := 0 to TABLE_ENTRIES
      invariant forall j :: 0 <= j < i ==> level0[j] == 0
      invariant forall j :: 0 <= j < 2 * TABLE_ENTRIES ==> level1[j] == Level1Entry(j, permission)
    {
      level0[i] := 0;
    }
    level0[0] := TableDescriptor(level1Address);
    level0[1] := TableDescriptor(level1Address + PAGE);
  }

  // ----- The walk -----

  /** Where an address goes, who may access it there, as what memory, shared with whom, and whether the entry
      holds for the current process alone. */
  datatype Translation = Fault | Mapped(address: nat, ap: nat, attr: nat, sh: nat, notGlobal: nat)

  function EntryType(d: nat): nat { d % 4 }

  /** Address of the next table: bits 12 to 47. */
  function NextTable(d: nat): nat { d / PAGE % 0x10_0000_0000 * PAGE }

  /** Address of a 2 MB block: bits 21 to 47. */
  function OutputBlock(d: nat): nat { d / BLOCK % 0x800_0000 * BLOCK }

  function Attribute(d: nat): nat { d / 4 % 8 }

  function AccessPermission(d: nat): nat { d / 0x40 % 4 }

  function Shareability(d: nat): nat { d / 0x100 % 4 }

  function AccessFlag(d: nat): nat { d / 0x400 % 2 }

  function NotGlobal(d: nat): nat { d / 0x800 % 2 }

  /** The non-secure bit of a table descriptor. */
  function NonSecure(d: nat): nat { d / 0x8000_0000_0000_0000 }

  /** The descriptor at a physical address, memory holding the second-level tables at `at`. */
  function Fetch(level1: seq<nat>, at: nat, address: nat): nat {
    if at <= address < at + 8 * |level1| then level1[(address - at) / 8] else 0
  }

  /** A block descriptor whose access flag is clear faults like an invalid one. */
  function WalkBlock(d: nat, va: nat): Translation {
    if EntryType(d) == 1 && AccessFlag(d) == 1
    then Mapped(OutputBlock(d) + va % BLOCK, AccessPermission(d), Attribute(d), Shareability(d), NotGlobal(d)) else Fault
  }

  function Walk(level0: seq<nat>, level1: seq<nat>, at: nat, va: nat): Translation
    requires |level0| == TABLE_ENTRIES
  {
    if va >= REGION then Fault
    else
      var d := level0[va / GIGABYTE];
      if EntryType(d) != 3 then Fault
      else WalkBlock(Fetch(level1, at, NextTable(d) + 8 * (va / BLOCK % TABLE_ENTRIES)), va)
  }

  // ----- What the tables mean -----

  // Each field of a descriptor that is given by its parts.

  lemma EntryTypeIs(d: nat, t: nat, rest: nat)
    requires t < 4 && d == t + 4 * rest
    ensures EntryType(d) == t
  {
  }

  lemma AttributeIs(d: nat, low: nat, attr: nat, rest: nat)
    requires low < 4 && attr < 8 && d == low + 4 * attr + 0x20 * rest
    ensures Attribute(d) == attr
  {
    assert d / 4 == attr + 8 * rest;
  }

  lemma PermissionIs(d: nat, low: nat, ap: nat, rest: nat)
    requires low < 0x40 && ap < 4 && d == low + 0x40 * ap + 0x100 * rest
    ensures AccessPermission(d) == ap
  {
    assert d / 0x40 == ap + 4 * rest;
  }

  lemma FlagIs(d: nat, low: nat, rest: nat)
    requires low < 0x400 && d == low + 0x400 + 0x800 * rest
    ensures AccessFlag(d) == 1
  {
    assert d / 0x400 == 1 + 2 * rest;
  }

  lemma ShareabilityIs(d: nat, low: nat, sh: nat, rest: nat)
    requires low < 0x100 && sh < 4 && d == low + 0x100 * sh + 0x400 * rest
    ensures Shareability(d) == sh
  {
    assert d / 0x100 == sh + 4 * rest;
  }

  lemma NotGlobalIs(d: nat, low: nat, rest: nat)
    requires low < 0x800 && d == low + 0x800 + 0x1000 * rest
    ensures NotGlobal(d) == 1
  {
    assert d / 0x800 == 1 + 2 * rest;
  }

  lemma OutputIs(d: nat, low: nat, base: nat)
    requires low < BLOCK && base < 0x800_0000 && d == low + base * BLOCK
    ensures OutputBlock(d) == base * BLOCK
  {
    assert d / BLOCK == base;
  }

  lemma NextTableIs(d: nat, low: nat, page: nat, rest: nat)
    requires low < PAGE && page < 0x10_0000_0000 && d == low + page * PAGE + 0x1_0000_0000_0000 * rest
    ensures NextTable(d) == page * PAGE
  {
    assert d / PAGE == page + 0x10_0000_0000 * rest;
  }

  lemma BlockFields(base: nat, ap: nat, sh: nat, attr: nat)
    requires base <= 512 && ap < 4 && sh < 4 && attr < 8
    ensures var d := BlockDescriptor(base, ap, sh, attr);
      && EntryType(d) == 1 && Attribute(d) == attr && AccessPermission(d) == ap && AccessFlag(d) == 1
      && OutputBlock(d) == base * BLOCK && Shareability(d) == sh && NotGlobal(d) == 1
  {
    var d, high := BlockDescriptor(base, ap, sh, attr), base * 0x400;
    hide EntryType, Attribute, AccessPermission, AccessFlag, OutputBlock, Shareability, NotGlobal;
    EntryTypeIs(d, 1, attr + 0x10 * ap + 0x40 * sh + 0x100 + 0x200 + 0x200 * high);
    AttributeIs(d, 1, attr, 2 * ap + 8 * sh + 0x20 + 0x40 + 0x40 * high);
    PermissionIs(d, 1 + 4 * attr, ap, sh + 4 + 8 + 8 * high);
    FlagIs(d, 1 + 4 * attr + 0x40 * ap + 0x100 * sh, 1 + high);
    ShareabilityIs(d, 1 + 4 * attr + 0x40 * ap, sh, 1 + 2 + 2 * high);
    NotGlobalIs(d, 1 + 4 * attr + 0x40 * ap + 0x100 * sh + 0x400, 0x200 * base);
    OutputIs(d, 1 + 4 * attr + 0x40 * ap + 0x100 * sh + 0x400 + 0x800, base);
  }

  lemma TableFields(page: nat)
    requires page < 0x10_0000_0000
    ensures var d := TableDescriptor(page * PAGE); EntryType(d) == 3 && NextTable(d) == page * PAGE && NonSecure(d) == 1
  {
    var d := TableDescriptor(page * PAGE);
    PageOf(page);
    hide EntryType, NextTable;
    EntryTypeIs(d, 3, 0x400 * page + 0x2000_0000_0000_0000);
    NextTableIs(d, 3, page, 0x8000);
    assert d < 2 * 0x8000_0000_0000_0000;
  }

  lemma PageOf(page: nat)
    requires page < 0x10_0000_0000
    ensures page * PAGE / PAGE == page && page % 0x10_0000_0000 == page
  {
  }

  /** The access permission and the memory attribute that an address gets. */
  function PermissionAt(va: nat, permission: Permission): nat {
    if va < PERIPHERALS then permission else NO_LIMIT
  }

  function AttributeAt(va: nat): nat {
    if va < 440 * BLOCK then NORMAL else if va < PERIPHERALS then NORMAL_NC else DEVICE
  }

  /** Ordinary memory is shared between the cores. */
  function SharedAt(va: nat): nat {
    if va < 440 * BLOCK then INNER_SHAREABLE else 0
  }

  function Identity(va: nat, permission: Permission): Translation {
    if va < MAPPED then Mapped(va, PermissionAt(va, permission), AttributeAt(va), SharedAt(va), 1) else Fault
  }

  ghost predicate Tables(level0: seq<nat>, level1: seq<nat>, at: nat, permission: Permission) {
    && |level0| == TABLE_ENTRIES && |level1| == 2 * TABLE_ENTRIES
    && at % PAGE == 0 && at + 2 * PAGE <= 0x1_0000_0000_0000
    && (forall i :: 0 <= i < TABLE_ENTRIES ==> level0[i] == Level0Entry(i, at))
    && (forall i :: 0 <= i < 2 * TABLE_ENTRIES ==> level1[i] == Level1Entry(i, permission))
  }

  /** Within the first two gigabytes the walk reaches entry `va / BLOCK` of the tables. */
  lemma WalkReaches(level0: seq<nat>, level1: seq<nat>, at: nat, permission: Permission, va: nat)
    requires Tables(level0, level1, at, permission) && va < 2 * GIGABYTE
    ensures Walk(level0, level1, at, va) == WalkBlock(Level1Entry(va / BLOCK, permission), va)
  {
    var i, j := va / GIGABYTE, va / BLOCK % TABLE_ENTRIES;
    assert va / BLOCK == i * TABLE_ENTRIES + j;
    TableFields(at / PAGE);
    TableFields(at / PAGE + 1);
    var address := at + i * PAGE + 8 * j;
    assert (address - at) / 8 == i * TABLE_ENTRIES + j;
    hide TableDescriptor, NextTable, EntryType, WalkBlock, Level1Entry;
  }

  lemma EntryMeans(va: nat, permission: Permission)
    requires va < 2 * GIGABYTE
    ensures WalkBlock(Level1Entry(va / BLOCK, permission), va) == Identity(va, permission)
  {
    var base := va / BLOCK;
    assert va == base * BLOCK + va % BLOCK;
    if base <= 512 {
      BlockFields(base, permission, INNER_SHAREABLE, NORMAL);
      BlockFields(base, permission, 0, NORMAL_NC);
      BlockFields(base, NO_LIMIT, 0, DEVICE);
    }
    hide BlockDescriptor, OutputBlock, Attribute, AccessPermission, AccessFlag, Shareability, NotGlobal;
  }

  /** The tables map every address below 0x40200000 to itself and fault on every other; the peripherals
      and mailboxes are device memory without access limit, everything lower has the requested
      permission, and ordinary memory is shared between the cores. */
  lemma IdentityMap(level0: seq<nat>, level1: seq<nat>, at: nat, permission: Permission, va: nat)
    requires Tables(level0, level1, at, permission)
    ensures Walk(level0, level1, at, va) == Identity(va, permission)
  {
    if va < 2 * GIGABYTE {
      WalkReaches(level0, level1, at, permission, va);
      EntryMeans(va, permission);
      hide Walk, WalkBlock, Level1Entry, Tables;
    } else if va < REGION {
      assert level0[va / GIGABYTE] == 0;
    }
  }
}
