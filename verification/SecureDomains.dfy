/**
  Secure Partition tables: resolving a domain into the region set the hardware is
  given, the queries over such tables, and the isolation of any two of them.
  */
module SecureDomains {
  import opened Domains

  const MAX_REGIONS: nat := 8

  const OK: int := 0
  const ERROR_NOT_FOUND: int := -601
  const ERROR_NOT_PARTITION: int := -602
  const ERROR_CAPACITY: int := -603
  const MANIFEST_VALID: int := 0
  const MANIFEST_ERROR_INTERRUPT: int := -119
  const MANIFEST_ERROR_RESOURCE_OWNERSHIP: int := -120

  datatype Region = Region(base: nat, size: nat, attributes: Attributes)

  datatype Table = Table(id: nat, regions: seq<Region>, stackBase: nat, stackSize: nat)

  // ---------------------------------------------------------------- resource ownership

  predicate OwnershipOk(d: Domain) {
    && (d.kind == KIND_APPLICATION ==> d.interrupts == [])
    && (d.kind == KIND_PARTITION ==>
          && (forall j :: 0 <= j < |d.memory| ==> !(d.memory[j].attributes.device && d.memory[j].attributes.shared))
          && (forall j :: 0 <= j < |d.interrupts| ==> !d.interrupts[j].shared))
  }

  /** Accepts exactly the manifests whose partitions share no device and no interrupt. */
  method ValidateFfmResources(ds: seq<Domain>) returns (ret: int)
    ensures ret == MANIFEST_VALID <==> forall i :: 0 <= i < |ds| ==> OwnershipOk(ds[i])
  {
    var i := 0;
    while i < |ds|
      invariant 0 <= i <= |ds| && forall k :: 0 <= k < i ==> OwnershipOk(ds[k])
    {
      var d := ds[i];
      if d.kind == KIND_APPLICATION && |d.interrupts| != 0 {
        return MANIFEST_ERROR_INTERRUPT;
      }
      if d.kind == KIND_PARTITION {
        var j := 0;
        while j < |d.memory|
          invariant 0 <= j <= |d.memory|
          invariant forall k :: 0 <= k < j ==> !(d.memory[k].attributes.device && d.memory[k].attributes.shared)
        {
          if d.memory[j].attributes.device && d.memory[j].attributes.shared {
            return MANIFEST_ERROR_RESOURCE_OWNERSHIP;
          }
          j := j + 1;
        }
        j := 0;
        while j < |d.interrupts|
          invariant 0 <= j <= |d.interrupts| && forall k :: 0 <= k < j ==> !d.interrupts[k].shared
        {
          if d.interrupts[j].shared {
            return MANIFEST_ERROR_RESOURCE_OWNERSHIP;
          }
          j := j + 1;
        }
      }
      i := i + 1;
    }
    ret := MANIFEST_VALID;
  }

  // ---------------------------------------------------------------- resolution

  function DomainFrom(ds: seq<Domain>, id: nat, i: nat): (r: nat)
    requires i <= |ds|
    ensures i <= r <= |ds| && (r < |ds| ==> ds[r].id == id)
    ensures forall k :: i <= k < r ==> ds[k].id != id
    decreases |ds| - i
  {
    if i == |ds| || ds[i].id == id then i else DomainFrom(ds, id, i + 1)
  }

  function RegionOf(m: Memory): Region {
    Region(m.base, m.size, m.attributes.(other := 0))
  }

  function RegionsOf(ms: seq<Memory>): (r: seq<Region>)
    ensures |r| == |ms| && forall i :: 0 <= i < |ms| ==> r[i] == RegionOf(ms[i])
  {
    seq(|ms|, i requires 0 <= i < |ms| => RegionOf(ms[i]))
  }

  const EMPTY: Table := Table(ID_INVALID, [], 0, 0)

  /** Descriptor i is the first one with this id. */
  predicate FirstWith(ds: seq<Domain>, id: nat, i: nat)
    requires i < |ds|
  {
    ds[i].id == id && forall k :: 0 <= k < i ==> ds[k].id != id
  }

  /** The table of the first Secure Partition with this id, or the error of that descriptor and an empty table. */
  method Resolve(ds: seq<Domain>, id: nat) returns (ret: int, table: Table)
    ensures ret == ERROR_NOT_FOUND <==> forall i :: 0 <= i < |ds| ==> ds[i].id != id
    ensures forall i :: 0 <= i < |ds| && FirstWith(ds, id, i) ==>
              && (ret == ERROR_NOT_PARTITION <==> ds[i].kind != KIND_PARTITION || ds[i].security != SECURE)
              && (ret == OK <==> ds[i].kind == KIND_PARTITION && ds[i].security == SECURE && |ds[i].memory| <= MAX_REGIONS)
              && (ret == OK ==> table == Table(id, RegionsOf(ds[i].memory), ds[i].stackBase, ds[i].stackSize))
    ensures ret in {OK, ERROR_NOT_FOUND, ERROR_NOT_PARTITION, ERROR_CAPACITY} && (ret != OK ==> table == EMPTY)
  {
    table := EMPTY;
    var i := 0;
    while i < |ds| && ds[i].id != id
      invariant 0 <= i <= |ds| && forall k :: 0 <= k < i ==> ds[k].id != id
    {
      i := i + 1;
    }
    if i == |ds| {
      return ERROR_NOT_FOUND, table;
    }
    var d := ds[i];
    if d.kind != KIND_PARTITION || d.security != SECURE {
      return ERROR_NOT_PARTITION, table;
    }
    if |d.memory| > MAX_REGIONS {
      return ERROR_CAPACITY, table;
    }
    var regions: seq<Region> := [];
    var j := 0;
    while j < |d.memory|
      invariant 0 <= j <= |d.memory| && |regions| == j
      invariant forall k :: 0 <= k < j ==> regions[k] == RegionOf(d.memory[k])
    {
      regions := regions + [RegionOf(d.memory[j])];
      j := j + 1;
    }
    assert regions == RegionsOf(d.memory);
    table := Table(id, regions, d.stackBase, d.stackSize);
    ret := OK;
  }

  // ---------------------------------------------------------------- ranges

  /** base and size describe a non-empty range that does not wrap. */
  predicate Ranged(base: nat, size: nat) {
    size != 0 && base + size <= ADDRESS_MAX
  }

  predicate Holds(r: Region, a: nat) {
    Ranged(r.base, r.size) && r.base <= a < r.base + r.size
  }

  predicate RegionsOverlap(r: Region, q: Region) {
    Ranged(r.base, r.size) && Ranged(q.base, q.size) && r.base < q.base + q.size && q.base < r.base + r.size
  }

  predicate Within(r: Region, window: Region) {
    && Ranged(r.base, r.size) && Ranged(window.base, window.size)
    && window.base <= r.base && r.base + r.size <= window.base + window.size
  }

  lemma OverlapIsByte(r: Region, q: Region)
    ensures RegionsOverlap(r, q) <==> exists a :: Holds(r, a) && Holds(q, a)
  {
    if RegionsOverlap(r, q) {
      var a := if r.base < q.base then q.base else r.base;
      assert Holds(r, a) && Holds(q, a);
    }
  }

  predicate Allows(r: Region, write: bool) {
    r.attributes.read && (write ==> r.attributes.write)
  }

  /** One region grants the whole access; every byte of it is then reachable. */
  method Contains(table: Table, addr: nat, len: nat, write: bool) returns (ok: bool)
    ensures ok <==>
              && Ranged(addr, len)
              && exists i :: 0 <= i < |table.regions| && Allows(table.regions[i], write)
                             && Within(Region(addr, len, table.regions[i].attributes), table.regions[i])
  {
    if len == 0 || addr > ADDRESS_MAX - len {
      return false;
    }
    var i := 0;
    while i < |table.regions|
      invariant 0 <= i <= |table.regions|
      invariant forall k :: 0 <= k < i ==>
                  !(Allows(table.regions[k], write) && Within(Region(addr, len, table.regions[k].attributes), table.regions[k]))
    {
      var r := table.regions[i];
      if r.size != 0 && r.base <= ADDRESS_MAX - r.size && r.attributes.read && (!write || r.attributes.write)
         && addr >= r.base && addr + len <= r.base + r.size {
        assert Allows(r, write) && Within(Region(addr, len, r.attributes), r);
        return true;
      }
      i := i + 1;
    }
    ok := false;
  }

  /** A checked buffer lies in memory of the domain byte for byte, with the access asked for. */
  lemma ContainedBytes(table: Table, addr: nat, len: nat, write: bool, i: nat, a: nat)
    requires i < |table.regions| && Allows(table.regions[i], write)
    requires Within(Region(addr, len, table.regions[i].attributes), table.regions[i]) && addr <= a < addr + len
    ensures Holds(table.regions[i], a) && table.regions[i].attributes.read
    ensures write ==> table.regions[i].attributes.write
  {
  }

  /** True exactly when no region wraps and, for a real range, no region reaches any byte of it. */
  method Excludes(table: Table, base: nat, size: nat) returns (ok: bool)
    ensures ok <==>
              && |table.regions| <= MAX_REGIONS
              && (forall i :: 0 <= i < |table.regions| ==>
                    table.regions[i].size == 0 || Ranged(table.regions[i].base, table.regions[i].size))
              && (Ranged(base, size) ==>
                    forall i, a :: 0 <= i < |table.regions| && base <= a < base + size ==> !Holds(table.regions[i], a))
  {
    if |table.regions| > MAX_REGIONS {
      return false;
    }
    var range := Region(base, size, Attributes(false, false, false, false, false, false, 0));
    var i := 0;
    while i < |table.regions|
      invariant 0 <= i <= |table.regions|
      invariant forall k :: 0 <= k < i ==>
                  && (table.regions[k].size == 0 || Ranged(table.regions[k].base, table.regions[k].size))
                  && !RegionsOverlap(table.regions[k], range)
    {
      var r := table.regions[i];
      if r.size != 0 && r.base + r.size > ADDRESS_MAX {
        return false;
      }
      OverlapIsByte(r, range);
      if RegionsOverlap(r, range) {
        return false;
      }
      i := i + 1;
    }
    forall k, a | 0 <= k < |table.regions| && base <= a < base + size && Ranged(base, size)
      ensures !Holds(table.regions[k], a)
    {
      OverlapIsByte(table.regions[k], range);
      assert Holds(range, a);
    }
    ok := true;
  }

  // ---------------------------------------------------------------- isolation

  predicate WindowFor(r: Region, q: Region, shared: seq<Region>) {
    exists k :: 0 <= k < |shared| && Within(r, shared[k]) && Within(q, shared[k])
  }

  predicate RegionsIsolated(r: Region, q: Region, shared: seq<Region>) {
    (r.attributes.write || q.attributes.write) && RegionsOverlap(r, q) ==> WindowFor(r, q, shared)
  }

  ghost predicate TablesIsolated(t: Table, u: Table, shared: seq<Region>) {
    && |t.regions| <= MAX_REGIONS && |u.regions| <= MAX_REGIONS
    && forall i, j :: 0 <= i < |t.regions| && 0 <= j < |u.regions| ==>
         RegionsIsolated(t.regions[i], u.regions[j], shared)
  }

  /** Decides isolation of two tables up to the shared windows. */
  method Isolated(t: Table, u: Table, shared: seq<Region>) returns (ok: bool)
    ensures ok <==> TablesIsolated(t, u, shared)
  {
    if |t.regions| > MAX_REGIONS || |u.regions| > MAX_REGIONS {
      return false;
    }
    var i := 0;
    while i < |t.regions|
      invariant 0 <= i <= |t.regions|
      invariant forall k, j :: 0 <= k < i && 0 <= j < |u.regions| ==> RegionsIsolated(t.regions[k], u.regions[j], shared)
    {
      var j := 0;
      while j < |u.regions|
        invariant 0 <= j <= |u.regions|
        invariant forall k :: 0 <= k < j ==> RegionsIsolated(t.regions[i], u.regions[k], shared)
      {
        var r, q := t.regions[i], u.regions[j];
        if (r.attributes.write || q.attributes.write) && RegionsOverlap(r, q) {
          var k := 0;
          while k < |shared| && !(Within(r, shared[k]) && Within(q, shared[k]))
            invariant 0 <= k <= |shared|
            invariant forall w :: 0 <= w < k ==> !(Within(r, shared[w]) && Within(q, shared[w]))
            decreases |shared| - k
          {
            k := k + 1;
          }
          if k == |shared| {
            assert !RegionsIsolated(r, q, shared);
            return false;
          }
        }
        j := j + 1;
      }
      i := i + 1;
    }
    ok := true;
  }

  /** With no shared window, isolation says that no byte one table can write is mapped by the other. */
  lemma IsolatedBytes(t: Table, u: Table)
    requires |t.regions| <= MAX_REGIONS && |u.regions| <= MAX_REGIONS
    ensures TablesIsolated(t, u, []) <==>
              forall i, j, a :: 0 <= i < |t.regions| && 0 <= j < |u.regions|
                                && Holds(t.regions[i], a) && Holds(u.regions[j], a) ==>
                !t.regions[i].attributes.write && !u.regions[j].attributes.write
  {
    forall i, j | 0 <= i < |t.regions| && 0 <= j < |u.regions|
      ensures RegionsOverlap(t.regions[i], u.regions[j]) <==>
                exists a :: Holds(t.regions[i], a) && Holds(u.regions[j], a)
    {
      OverlapIsByte(t.regions[i], u.regions[j]);
    }
  }

  /** The table of domain i as resolution builds it. */
  function TableOf(d: Domain): Table {
    Table(d.id, RegionsOf(d.memory), d.stackBase, d.stackSize)
  }

  /** In an accepted level 3 manifest any two Secure Partitions are isolated, with no shared window needed. */
  lemma PartitionsIsolated(ds: seq<Domain>, caps: Capabilities, i: nat, j: nat)
    requires SetOk(ds, LEVEL_3, caps) && (forall k :: 0 <= k < |ds| ==> OwnershipOk(ds[k]))
    requires i < |ds| && j < |ds| && i != j && ds[i].kind == KIND_PARTITION && ds[j].kind == KIND_PARTITION
    requires |ds[i].memory| <= MAX_REGIONS && |ds[j].memory| <= MAX_REGIONS
    ensures TablesIsolated(TableOf(ds[i]), TableOf(ds[j]), [])
  {
    hide SetOk;
    var t, u := TableOf(ds[i]), TableOf(ds[j]);
    forall x, y | 0 <= x < |t.regions| && 0 <= y < |u.regions| ensures RegionsIsolated(t.regions[x], u.regions[y], []) {
      var m, n := ds[i].memory[x], ds[j].memory[y];
      if RegionsOverlap(t.regions[x], u.regions[y]) {
        assert Overlap(m, n);
        PairEither(ds, LEVEL_3, caps, i, j, x, y);
        assert OwnershipOk(ds[i]);
      }
    }
  }

  /** With unique ids, resolution by id finds the domain itself. */
  lemma ResolutionFinds(ds: seq<Domain>, caps: Capabilities, i: nat)
    requires SetOk(ds, LEVEL_3, caps) && i < |ds|
    ensures DomainFrom(ds, ds[i].id, 0) == i
  {
    forall k | 0 <= k < i ensures ds[k].id != ds[i].id {
      assert PairOk(ds[i], ds[k], LEVEL_3);
    }
  }

  // ---------------------------------------------------------------- composition

  /** The shared regions every partition needs, then the partition's own. */
  method Compose(table: Table, shared: seq<Region>) returns (ret: int, out: Table)
    ensures ret == OK <==> |shared| + |table.regions| <= MAX_REGIONS
    ensures ret == OK ==> out.id == table.id && out.regions == shared + table.regions
    ensures ret != OK ==> ret == ERROR_CAPACITY && out.regions == [] && out.id == ID_INVALID
  {
    out := Table(ID_INVALID, [], 0, 0);
    if |shared| > MAX_REGIONS || |shared| + |table.regions| > MAX_REGIONS {
      return ERROR_CAPACITY, out;
    }
    var regions: seq<Region> := [];
    var i := 0;
    while i < |shared|
      invariant 0 <= i <= |shared| && regions == shared[..i]
    {
      regions := regions + [shared[i]];
      i := i + 1;
    }
    i := 0;
    while i < |table.regions|
      invariant 0 <= i <= |table.regions| && regions == shared + table.regions[..i]
    {
      regions := regions + [table.regions[i]];
      i := i + 1;
    }
    out := Table(table.id, regions, 0, 0);
    ret := OK;
  }

  /**
    Composing isolated partitions with common regions keeps them isolated when those
    regions are read-only and no partition writes to them.
    */
  lemma ComposeKeepsIsolation(t: Table, u: Table, shared: seq<Region>, t': Table, u': Table)
    requires TablesIsolated(t, u, [])
    requires forall k :: 0 <= k < |shared| ==> !shared[k].attributes.write
    requires forall k, i :: 0 <= k < |shared| && 0 <= i < |t.regions| && t.regions[i].attributes.write ==>
               !RegionsOverlap(t.regions[i], shared[k])
    requires forall k, i :: 0 <= k < |shared| && 0 <= i < |u.regions| && u.regions[i].attributes.write ==>
               !RegionsOverlap(u.regions[i], shared[k])
    requires t'.regions == shared + t.regions && u'.regions == shared + u.regions
    requires |t'.regions| <= MAX_REGIONS && |u'.regions| <= MAX_REGIONS
    ensures TablesIsolated(t', u', [])
  {
    var n := |shared|;
    forall i, j | 0 <= i < |t'.regions| && 0 <= j < |u'.regions| ensures RegionsIsolated(t'.regions[i], u'.regions[j], []) {
      if i >= n && j >= n {
        assert RegionsIsolated(t.regions[i - n], u.regions[j - n], []);
      } else if i >= n {
        assert t'.regions[i] == t.regions[i - n];
      } else if j >= n {
        assert u'.regions[j] == u.regions[j - n];
      }
    }
  }
}
