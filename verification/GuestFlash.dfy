/**
  Is a guest's flash window write-protected?  Two checks read the hardware's answer:
  a greedy walk over address-range descriptors, and a scan of a bitmap of sector
  groups.  Both are proved to decide a statement about every byte of the window.
  */
module GuestFlash {
  const WORD: nat := 0x1_0000_0000
  const GROUPS: nat := 32

  const OK: int := 0
  const ERROR_ARGUMENT: int := -700
  const ERROR_LAYOUT: int := -701
  const ERROR_WRP: int := -706

  datatype Region = Region(start: nat, end: nat, writeAcp: nat, valid: bool, locked: bool)

  predicate Denies(r: Region) {
    r.valid && r.locked && r.writeAcp == 0
  }

  predicate Holds(r: Region, a: nat) {
    r.start <= a <= r.end
  }

  /** Byte a lies in a valid, locked descriptor that denies writes. */
  predicate Covered(rs: seq<Region>, a: nat) {
    exists i :: 0 <= i < |rs| && Denies(rs[i]) && Holds(rs[i], a)
  }

  /** A valid descriptor reaches into the window and does not deny writes. */
  predicate Opens(r: Region, base: nat, last: nat) {
    r.valid && r.start <= last && r.end >= base && !Denies(r)
  }

  ghost predicate Protected(rs: seq<Region>, base: nat, last: nat) {
    && (forall a :: base <= a <= last ==> Covered(rs, a))
    && (forall i :: 0 <= i < |rs| ==> !Opens(rs[i], base, last))
  }

  /** A descriptor that is a real range opens the window exactly when it shares a byte with it. */
  lemma OpensIsByte(r: Region, base: nat, last: nat)
    requires r.start <= r.end && base <= last
    ensures Opens(r, base, last) <==> r.valid && !Denies(r) && exists a :: base <= a <= last && Holds(r, a)
  {
    if r.start <= last && r.end >= base {
      var a := if r.start < base then base else r.start;
      assert base <= a <= last && Holds(r, a);
    }
  }

  method AnyOpens(rs: seq<Region>, base: nat, last: nat) returns (open: bool)
    ensures open <==> exists i :: 0 <= i < |rs| && Opens(rs[i], base, last)
  {
    var i := 0;
    while i < |rs|
      invariant 0 <= i <= |rs| && forall k :: 0 <= k < i ==> !Opens(rs[k], base, last)
    {
      if rs[i].valid && rs[i].start <= last && rs[i].end >= base && !Denies(rs[i]) {
        return true;
      }
      i := i + 1;
    }
    open := false;
  }

  /** The first descriptor that covers the cursor, or none. */
  method FindCover(rs: seq<Region>, cursor: nat) returns (i: nat)
    ensures i <= |rs| && (i < |rs| ==> Denies(rs[i]) && Holds(rs[i], cursor))
    ensures i < |rs| <==> Covered(rs, cursor)
  {
    i := 0;
    while i < |rs| && !(Denies(rs[i]) && rs[i].start <= cursor && rs[i].end >= cursor)
      invariant 0 <= i <= |rs| && forall k :: 0 <= k < i ==> !(Denies(rs[k]) && Holds(rs[k], cursor))
      decreases |rs| - i
    {
      i := i + 1;
    }
  }

  function Indices(n: nat): (r: set<nat>)
    ensures |r| == n && forall i :: i in r <==> 0 <= i < n
  {
    if n == 0 then {} else
      assert n - 1 !in Indices(n - 1);
      Indices(n - 1) + {n - 1}
  }

  /** A set of n distinct indices below n holds them all. */
  lemma FullSet(used: set<nat>, n: nat)
    requires |used| == n && forall i :: i in used ==> 0 <= i < n
    ensures forall i :: 0 <= i < n ==> i in used
  {
    var all := Indices(n);
    assert used <= all;
    if exists i :: 0 <= i < n && i !in used {
      var i :| 0 <= i < n && i !in used;
      assert used <= all - {i};
      SubsetSize(used, all - {i});
    }
  }

  lemma {:induction false} SubsetSize(a: set<nat>, b: set<nat>)
    requires a <= b
    ensures |a| <= |b|
    decreases a
  {
    if a != {} {
      var x :| x in a;
      SubsetSize(a - {x}, b - {x});
    }
  }

  /**
    The greedy walk: every round either finishes, fails at an uncovered byte, or moves
    the cursor past one more descriptor, so as many rounds as descriptors suffice.
    */
  method Walk(rs: seq<Region>, base: nat, last: nat) returns (covered: bool)
    requires base <= last
    ensures covered <==> forall a :: base <= a <= last ==> Covered(rs, a)
  {
    var cursor, step := base, 0;
    ghost var used: set<nat> := {};
    while step < |rs|
      invariant 0 <= step <= |rs| && base <= cursor <= last
      invariant forall a :: base <= a < cursor ==> Covered(rs, a)
      invariant |used| == step && forall i :: i in used ==> 0 <= i < |rs| && rs[i].end < cursor
    {
      var i := FindCover(rs, cursor);
      if i == |rs| {
        return false;
      }
      if rs[i].end >= last {
        forall a | cursor <= a <= last ensures Covered(rs, a) {
          assert Denies(rs[i]) && Holds(rs[i], a);
        }
        return true;
      }
      assert i !in used;
      forall a | cursor <= a < rs[i].end + 1 ensures Covered(rs, a) {
        assert Denies(rs[i]) && Holds(rs[i], a);
      }
      used := used + {i};
      cursor := rs[i].end + 1;
      step := step + 1;
    }
    FullSet(used, |rs|);
    assert !Covered(rs, cursor);
    covered := false;
  }

  /** OK exactly when the window is real, every byte is write-protected and no descriptor opens it. */
  method FradCovers(rs: seq<Region>, base: nat, size: nat) returns (ret: int)
    requires base < WORD && size < WORD
    ensures ret == OK <==> rs != [] && size != 0 && base + size <= WORD && Protected(rs, base, base + size - 1)
    ensures ret == ERROR_ARGUMENT <==> rs == [] || size == 0 || base + size > WORD
  {
    if |rs| == 0 || size == 0 {
      return ERROR_ARGUMENT;
    }
    var last := (base + size - 1) % WORD;
    if last < base {
      return ERROR_ARGUMENT;
    }
    assert last == base + size - 1;
    var open := AnyOpens(rs, base, last);
    if open {
      return ERROR_WRP;
    }
    var covered := Walk(rs, base, last);
    ret := if covered then OK else ERROR_WRP;
  }

  // ---------------------------------------------------------------- sector groups

  /** The protection group of the byte at this offset into the bank. */
  function GroupOf(offset: nat, sector: nat, perGroup: nat): nat
    requires sector > 0 && perGroup > 0
  {
    (offset / sector) / perGroup
  }

  /** No byte from offset first to last lies in an unmapped or writable group. */
  ghost predicate GroupsProtected(bitmap: set<nat>, first: nat, last: nat, sector: nat, perGroup: nat)
    requires sector > 0 && perGroup > 0
  {
    forall x :: first <= x <= last ==> GroupOf(x, sector, perGroup) < GROUPS && GroupOf(x, sector, perGroup) !in bitmap
  }

  lemma DivBounds(x: nat, d: nat)
    requires d > 0
    ensures (x / d) * d <= x < (x / d) * d + d
  {
  }

  lemma MulMono(p: nat, q: nat, d: nat)
    requires p <= q
    ensures p * d <= q * d
  {
  }

  lemma DivMono(x: nat, y: nat, d: nat)
    requires d > 0 && x <= y
    ensures x / d <= y / d
  {
    DivBounds(x, d);
    DivBounds(y, d);
    if x / d > y / d {
      MulMono(y / d + 1, x / d, d);
    }
  }

  lemma DivOfMultiple(q: nat, d: nat)
    requires d > 0
    ensures (q * d) / d == q
  {
    DivBounds(q * d, d);
    var r := (q * d) / d;
    if r < q {
      MulMono(r + 1, q, d);
    }
  }

  lemma GroupMono(x: nat, y: nat, sector: nat, perGroup: nat)
    requires sector > 0 && perGroup > 0 && x <= y
    ensures GroupOf(x, sector, perGroup) <= GroupOf(y, sector, perGroup)
  {
    DivMono(x, y, sector);
    DivMono(x / sector, y / sector, perGroup);
  }

  /** The first byte of group g lies beyond every byte of an earlier group, and not beyond any byte of g or later. */
  lemma GroupStart(x: nat, sector: nat, perGroup: nat, g: nat)
    requires sector > 0 && perGroup > 0
    ensures GroupOf(x, sector, perGroup) < g ==> x < g * perGroup * sector
    ensures g <= GroupOf(x, sector, perGroup) ==> g * perGroup * sector <= x
  {
    var q := x / sector;
    DivBounds(x, sector);
    DivBounds(q, perGroup);
    if q / perGroup < g {
      MulMono(q / perGroup + 1, g, perGroup);
      MulMono(q + 1, g * perGroup, sector);
    } else {
      MulMono(g, q / perGroup, perGroup);
      MulMono(g * perGroup, q, sector);
    }
  }

  /** Every group between those of the first and the last byte contains a byte of the window. */
  lemma GroupHit(first: nat, last: nat, sector: nat, perGroup: nat, g: nat) returns (x: nat)
    requires sector > 0 && perGroup > 0 && first <= last
    requires GroupOf(first, sector, perGroup) <= g <= GroupOf(last, sector, perGroup)
    ensures first <= x <= last && GroupOf(x, sector, perGroup) == g
  {
    hide GroupOf;
    if g == GroupOf(first, sector, perGroup) {
      return first;
    }
    x := g * perGroup * sector;
    GroupOfStart(sector, perGroup, g);
    GroupStart(first, sector, perGroup, g);
    GroupStart(last, sector, perGroup, g);
  }

  lemma GroupOfStart(sector: nat, perGroup: nat, g: nat)
    requires sector > 0 && perGroup > 0
    ensures GroupOf(g * perGroup * sector, sector, perGroup) == g
  {
    DivOfMultiple(g * perGroup, sector);
    DivOfMultiple(g, perGroup);
  }

  /** The scan over groups. */
  method ScanGroups(bitmap: set<nat>, first: nat, last: nat) returns (clear: bool)
    ensures clear <==> forall g :: first <= g <= last ==> g !in bitmap
  {
    var g := first;
    while g <= last
      invariant first <= g && (g <= last + 1 || first > last) && forall k :: first <= k < g ==> k !in bitmap
      decreases last + 1 - g
    {
      if g in bitmap {
        return false;
      }
      g := g + 1;
    }
    clear := true;
  }

  /** The offset of the window's last byte as the 32-bit arithmetic computes it. */
  function LastOffset(base: nat, size: nat, bank: nat): nat
    requires bank <= base && size > 0
  {
    (base - bank + size - 1) % WORD
  }

  method WrpCovers(bitmap: set<nat>, base: nat, size: nat, bank: nat, sector: nat, perGroup: nat) returns (ret: int)
    requires base < WORD && size < WORD
    ensures ret == ERROR_ARGUMENT <==> size == 0 || sector == 0 || perGroup == 0 || base < bank
    ensures ret == OK <==>
              && size != 0 && sector != 0 && perGroup != 0 && bank <= base
              && GroupOf(LastOffset(base, size, bank), sector, perGroup) < GROUPS
              && forall g :: GroupOf(base - bank, sector, perGroup) <= g <= GroupOf(LastOffset(base, size, bank), sector, perGroup)
                   ==> g !in bitmap
  {
    if size == 0 || sector == 0 || perGroup == 0 || base < bank {
      return ERROR_ARGUMENT;
    }
    var first := GroupOf(base - bank, sector, perGroup);
    var last := GroupOf(LastOffset(base, size, bank), sector, perGroup);
    if last >= GROUPS {
      return ERROR_LAYOUT;
    }
    var clear := ScanGroups(bitmap, first, last);
    ret := if clear then OK else ERROR_WRP;
  }

  /** The group scan answers for every byte of the window, provided the window's end does not wrap. */
  lemma GroupsAreBytes(bitmap: set<nat>, base: nat, size: nat, bank: nat, sector: nat, perGroup: nat)
    requires bank <= base && size > 0 && sector > 0 && perGroup > 0 && base - bank + size <= WORD
    ensures var first, last := base - bank, base - bank + size - 1;
            && LastOffset(base, size, bank) == last
            && (GroupsProtected(bitmap, first, last, sector, perGroup) <==>
                  && GroupOf(last, sector, perGroup) < GROUPS
                  && forall g :: GroupOf(first, sector, perGroup) <= g <= GroupOf(last, sector, perGroup) ==> g !in bitmap)
  {
    var first, last := base - bank, base - bank + size - 1;
    forall x | first <= x <= last
      ensures GroupOf(first, sector, perGroup) <= GroupOf(x, sector, perGroup) <= GroupOf(last, sector, perGroup)
    {
      GroupMono(first, x, sector, perGroup);
      GroupMono(x, last, sector, perGroup);
    }
    if GroupsProtected(bitmap, first, last, sector, perGroup) {
      forall g | GroupOf(first, sector, perGroup) <= g <= GroupOf(last, sector, perGroup) ensures g !in bitmap {
        var x := GroupHit(first, last, sector, perGroup, g);
      }
    }
  }

  /** The scan accepts these parameters. */
  ghost predicate ScanAccepts(bitmap: set<nat>, base: nat, size: nat, bank: nat, sector: nat, perGroup: nat)
    requires bank <= base && size > 0 && sector > 0 && perGroup > 0
  {
    && GroupOf(LastOffset(base, size, bank), sector, perGroup) < GROUPS
    && forall g :: GroupOf(base - bank, sector, perGroup) <= g <= GroupOf(LastOffset(base, size, bank), sector, perGroup)
         ==> g !in bitmap
  }

  /** A window whose end wraps reaches past the group map, so no bitmap protects it. */
  lemma WrappedIsUnprotected(bitmap: set<nat>, base: nat, size: nat, bank: nat, sector: nat, perGroup: nat)
    requires bank <= base && size > 0 && sector > 0 && perGroup > 0 && base - bank + size > WORD
    requires perGroup * sector * GROUPS <= WORD
    ensures !GroupsProtected(bitmap, base - bank, base - bank + size - 1, sector, perGroup)
  {
    var last := base - bank + size - 1;
    var s := GROUPS * perGroup;
    DivOfMultiple(s, sector);
    DivOfMultiple(GROUPS, perGroup);
    assert s * sector == perGroup * sector * GROUPS;
    GroupMono(s * sector, last, sector, perGroup);
    assert GroupOf(last, sector, perGroup) >= GROUPS;
  }

  /**
    With a group map that fits the address space, acceptance can be trusted for every
    bitmap exactly when the window does not wrap, or wraps to an offset past the map.
    */
  lemma AcceptanceSoundExactly(base: nat, size: nat, bank: nat, sector: nat, perGroup: nat)
    requires bank <= base && size > 0 && sector > 0 && perGroup > 0 && perGroup * sector * GROUPS <= WORD
    ensures (forall bitmap: set<nat> :: ScanAccepts(bitmap, base, size, bank, sector, perGroup) ==>
               GroupsProtected(bitmap, base - bank, base - bank + size - 1, sector, perGroup))
            <==> (base - bank + size <= WORD || GroupOf(LastOffset(base, size, bank), sector, perGroup) >= GROUPS)
  {
    if base - bank + size <= WORD {
      forall bitmap: set<nat> | ScanAccepts(bitmap, base, size, bank, sector, perGroup)
        ensures GroupsProtected(bitmap, base - bank, base - bank + size - 1, sector, perGroup)
      {
        GroupsAreBytes(bitmap, base, size, bank, sector, perGroup);
      }
    } else if GroupOf(LastOffset(base, size, bank), sector, perGroup) < GROUPS {
      assert ScanAccepts({}, base, size, bank, sector, perGroup);
      WrappedIsUnprotected({}, base, size, bank, sector, perGroup);
    }
  }

  /** A wrapped window that the scan accepts although every group is writable. */
  lemma WrappedWindowAccepted()
    ensures ScanAccepts(Indices(GROUPS), 0xFFFF_FFF0, 0x20, 0, 8192, 4)
    ensures !GroupsProtected(Indices(GROUPS), 0xFFFF_FFF0, 0xFFFF_FFF0 + 0x20 - 1, 8192, 4)
  {
    WrappedIsUnprotected(Indices(GROUPS), 0xFFFF_FFF0, 0x20, 0, 8192, 4);
  }
}
