/**
  Protection domains and the check that accepts a set of them.  The validators are
  nested scans over ranges and flags; what acceptance means is stated about bytes.
  */
module Domains {
  const ADDRESS_MAX: nat := 0xFFFF_FFFF
  const ID_INVALID: nat := 0xFFFF_FFFF
  const GRANULE: nat := 32
  const SHARE_NONE: nat := 0

  const VALID: int := 0
  const ERROR_COUNT: int := -2
  const ERROR_PROFILE: int := -3
  const ERROR_CAPABILITY: int := -4
  const ERROR_ID: int := -5
  const ERROR_CLASS: int := -6
  const ERROR_ROT_ROLE: int := -7
  const ERROR_SECURITY_STATE: int := -8
  const ERROR_PRIVILEGE_STATE: int := -9
  const ERROR_LIFECYCLE: int := -10
  const ERROR_RESTART_POLICY: int := -11
  const ERROR_MEMORY_COUNT: int := -12
  const ERROR_EMPTY_REGION: int := -13
  const ERROR_ADDRESS_OVERFLOW: int := -14
  const ERROR_MEMORY_ATTRIBUTES: int := -15
  const ERROR_WRITE_EXECUTE: int := -16
  const ERROR_ENTRY_POINT: int := -17
  const ERROR_STACK: int := -18
  const ERROR_OVERLAP: int := -19
  const ERROR_SHARING: int := -20
  const ERROR_INTERRUPT_COUNT: int := -21
  const ERROR_INTERRUPT: int := -22
  const ERROR_INTERRUPT_OWNERSHIP: int := -23
  const ERROR_SPM_COUNT: int := -24
  const ERROR_LAUNCH_POLICY: int := -25
  const ERROR_ISOLATION: int := -26

  // ---------------------------------------------------------------- data

  /** The six attribute bits; other holds any bit outside them. */
  datatype Attributes = Attributes(read: bool, write: bool, execute: bool, device: bool, restartClear: bool,
                                   shared: bool, other: nat)

  datatype Memory = Memory(base: nat, size: nat, attributes: Attributes, share: nat)

  datatype Interrupt = Interrupt(number: nat, shared: bool, other: nat, share: nat)

  datatype Restart = Restart(action: nat, limit: nat, window: nat, delay: nat)

  /** Enumerations keep their numeric codes, so that values outside them can be rejected. */
  datatype Domain = Domain(id: nat, kind: nat, role: nat, security: nat, privilege: nat, lifecycle: nat,
                           entry: nat, stackBase: nat, stackSize: nat, memory: seq<Memory>,
                           interrupts: seq<Interrupt>, restart: Restart, required: set<nat>, launch: nat)

  const KIND_SPM: nat := 0
  const KIND_PARTITION: nat := 1
  const KIND_APPLICATION: nat := 2
  const ROLE_NONE: nat := 0
  const ROLE_SPM: nat := 1
  const ROLE_PROT: nat := 2
  const ROLE_AROT: nat := 3
  const SECURE: nat := 0
  const NONSECURE: nat := 1
  const PRIVILEGED: nat := 0
  const UNPRIVILEGED: nat := 1
  const RESTART_DOMAIN: nat := 1
  const SERVICE_ONLY: nat := 0
  const LEVEL_3: nat := 3

  /** Capability bits by number. */
  const CAP_MEMORY_PROTECTION: nat := 4
  const CAP_INTERRUPT_ISOLATION: nat := 5
  const CAP_RESTART: nat := 6
  const CAP_ALL: set<nat> := {0, 1, 2, 3, 4, 5, 6}
  const CAP_LEVEL_3: set<nat> := {0, 1, 2, 3, 4, 5}

  datatype Capabilities = Capabilities(present: set<nat>, maxDomains: nat, maxMemory: nat, maxInterrupts: nat)

  // ---------------------------------------------------------------- single-domain checks

  function IdentityError(d: Domain): int {
    if d.id == ID_INVALID then ERROR_ID
    else if d.kind > KIND_APPLICATION then ERROR_CLASS
    else if d.role > ROLE_AROT then ERROR_ROT_ROLE
    else if d.security > NONSECURE then ERROR_SECURITY_STATE
    else if d.privilege > UNPRIVILEGED then ERROR_PRIVILEGE_STATE
    else if d.lifecycle > 1 then ERROR_LIFECYCLE
    else if d.kind == KIND_SPM then
      if d.role != ROLE_SPM then ERROR_ROT_ROLE
      else if d.security != SECURE then ERROR_SECURITY_STATE
      else if d.privilege != PRIVILEGED then ERROR_PRIVILEGE_STATE
      else VALID
    else if d.kind == KIND_PARTITION then
      if d.role != ROLE_PROT && d.role != ROLE_AROT then ERROR_ROT_ROLE
      else if d.security != SECURE then ERROR_SECURITY_STATE
      else if d.privilege != UNPRIVILEGED then ERROR_PRIVILEGE_STATE
      else VALID
    else if d.role != ROLE_NONE then ERROR_ROT_ROLE
    else if d.security != NONSECURE then ERROR_SECURITY_STATE
    else VALID
  }

  predicate RestartOk(r: Restart) {
    && r.action <= 2
    && if r.action == RESTART_DOMAIN then r.limit != 0 && r.window != 0
       else r.limit == 0 && r.window == 0 && r.delay == 0
  }

  predicate LaunchOk(d: Domain) {
    d.launch <= 1 && (d.launch == 1 ==> d.kind == KIND_APPLICATION)
  }

  predicate CapabilitiesOk(d: Domain, present: set<nat>) {
    && d.required <= CAP_ALL && d.required <= present
    && (d.restart.action == RESTART_DOMAIN ==> CAP_RESTART in present)
    && (d.memory != [] ==> CAP_MEMORY_PROTECTION in present)
    && (d.interrupts != [] ==> CAP_INTERRUPT_ISOLATION in present)
  }

  /** The range check: VALID, or why base and size describe no range. */
  function RangeError(base: nat, size: nat): int {
    if size == 0 then ERROR_EMPTY_REGION
    else if base > ADDRESS_MAX || size > ADDRESS_MAX - base then ERROR_ADDRESS_OVERFLOW
    else VALID
  }

  function MemoryError(m: Memory): int {
    var a := m.attributes;
    if RangeError(m.base, m.size) != VALID then RangeError(m.base, m.size)
    else if m.base % GRANULE != 0 || m.size % GRANULE != 0 then ERROR_MEMORY_ATTRIBUTES
    else if a.other != 0 then ERROR_MEMORY_ATTRIBUTES
    else if !(a.read || a.write || a.execute) then ERROR_MEMORY_ATTRIBUTES
    else if a.device && a.execute then ERROR_MEMORY_ATTRIBUTES
    else if a.restartClear && !a.write then ERROR_MEMORY_ATTRIBUTES
    else if a.write && a.execute then ERROR_WRITE_EXECUTE
    else if a.shared != (m.share != SHARE_NONE) then ERROR_SHARING
    else VALID
  }

  predicate Overlap(m: Memory, n: Memory) {
    m.base < n.base + n.size && n.base < m.base + m.size
  }

  predicate SharedAlike(m: Memory, n: Memory) {
    m.attributes.shared && n.attributes.shared && m.share == n.share && m.share != SHARE_NONE &&
    m.base == n.base && m.size == n.size && m.attributes == n.attributes
  }

  predicate InterruptOk(i: Interrupt) {
    i.number != 0xFFFF_FFFF && i.other == 0 && i.shared == (i.share != SHARE_NONE)
  }

  predicate EntryIn(d: Domain, m: Memory) {
    m.attributes.execute && m.base <= d.entry < m.base + m.size
  }

  /** Resource m can hold d's stack: private read-write memory around it. */
  predicate StackIn(d: Domain, m: Memory) {
    && m.attributes.read && m.attributes.write
    && !m.attributes.execute && !m.attributes.device && !m.attributes.shared
    && m.base <= d.stackBase && d.stackBase + d.stackSize <= m.base + m.size
  }

  ghost predicate EntryAndStackOk(d: Domain) {
    && RangeError(d.stackBase, d.stackSize) == VALID
    && (exists i :: 0 <= i < |d.memory| && EntryIn(d, d.memory[i]))
    && (exists i :: 0 <= i < |d.memory| && StackIn(d, d.memory[i]))
  }

  ghost predicate ResourcesOk(d: Domain, caps: Capabilities) {
    && 0 < |d.memory| <= caps.maxMemory && |d.interrupts| <= caps.maxInterrupts
    && (forall i :: 0 <= i < |d.memory| ==> MemoryError(d.memory[i]) == VALID)
    && (forall i, j :: 0 <= j < i < |d.memory| ==> !Overlap(d.memory[i], d.memory[j]))
    && (forall i :: 0 <= i < |d.interrupts| ==> InterruptOk(d.interrupts[i]))
    && (forall i, j :: 0 <= j < i < |d.interrupts| ==> d.interrupts[i].number != d.interrupts[j].number)
    && EntryAndStackOk(d)
  }

  method ValidateEntryAndStack(d: Domain) returns (ret: int)
    ensures ret == VALID <==> EntryAndStackOk(d)
    ensures ret in {VALID, ERROR_STACK, ERROR_ADDRESS_OVERFLOW, ERROR_ENTRY_POINT}
  {
    var range := RangeError(d.stackBase, d.stackSize);
    if range == ERROR_EMPTY_REGION {
      return ERROR_STACK;
    }
    if range != VALID {
      return range;
    }
    var entry, stack := false, false;
    var i := 0;
    while i < |d.memory|
      invariant 0 <= i <= |d.memory|
      invariant entry <==> exists k :: 0 <= k < i && EntryIn(d, d.memory[k])
      invariant stack <==> exists k :: 0 <= k < i && StackIn(d, d.memory[k])
    {
      var m := d.memory[i];
      if EntryIn(d, m) {
        entry := true;
      }
      if StackIn(d, m) {
        stack := true;
      }
      i := i + 1;
    }
    if !entry {
      return ERROR_ENTRY_POINT;
    }
    if !stack {
      return ERROR_STACK;
    }
    ret := VALID;
  }

  method ValidateMemories(d: Domain) returns (ret: int)
    ensures ret == VALID <==>
              && (forall i :: 0 <= i < |d.memory| ==> MemoryError(d.memory[i]) == VALID)
              && (forall i, j :: 0 <= j < i < |d.memory| ==> !Overlap(d.memory[i], d.memory[j]))
  {
    var i := 0;
    while i < |d.memory|
      invariant 0 <= i <= |d.memory|
      invariant forall k :: 0 <= k < i ==> MemoryError(d.memory[k]) == VALID
      invariant forall k, j :: 0 <= j < k < i ==> !Overlap(d.memory[k], d.memory[j])
    {
      if MemoryError(d.memory[i]) != VALID {
        return MemoryError(d.memory[i]);
      }
      var j := 0;
      while j < i
        invariant 0 <= j <= i
        invariant forall k :: 0 <= k < j ==> !Overlap(d.memory[i], d.memory[k])
      {
        if Overlap(d.memory[i], d.memory[j]) {
          return ERROR_OVERLAP;
        }
        j := j + 1;
      }
      i := i + 1;
    }
    ret := VALID;
  }

  method ValidateInterrupts(d: Domain) returns (ret: int)
    ensures ret == VALID <==>
              && (forall i :: 0 <= i < |d.interrupts| ==> InterruptOk(d.interrupts[i]))
              && (forall i, j :: 0 <= j < i < |d.interrupts| ==> d.interrupts[i].number != d.interrupts[j].number)
  {
    var i := 0;
    while i < |d.interrupts|
      invariant 0 <= i <= |d.interrupts|
      invariant forall k :: 0 <= k < i ==> InterruptOk(d.interrupts[k])
      invariant forall k, j :: 0 <= j < k < i ==> d.interrupts[k].number != d.interrupts[j].number
    {
      var irq := d.interrupts[i];
      if irq.number == 0xFFFF_FFFF || irq.other != 0 {
        return ERROR_INTERRUPT;
      }
      if irq.shared != (irq.share != SHARE_NONE) {
        return ERROR_INTERRUPT_OWNERSHIP;
      }
      var j := 0;
      while j < i
        invariant 0 <= j <= i
        invariant forall k :: 0 <= k < j ==> irq.number != d.interrupts[k].number
      {
        if irq.number == d.interrupts[j].number {
          return ERROR_INTERRUPT_OWNERSHIP;
        }
        j := j + 1;
      }
      i := i + 1;
    }
    ret := VALID;
  }

  method ValidateResources(d: Domain, caps: Capabilities) returns (ret: int)
    ensures ret == VALID <==> ResourcesOk(d, caps)
  {
    if |d.memory| == 0 || |d.memory| > caps.maxMemory {
      return ERROR_MEMORY_COUNT;
    }
    if |d.interrupts| > caps.maxInterrupts {
      return ERROR_INTERRUPT_COUNT;
    }
    ret := ValidateMemories(d);
    if ret != VALID {
      return;
    }
    ret := ValidateInterrupts(d);
    if ret != VALID {
      return;
    }
    ret := ValidateEntryAndStack(d);
  }

  // ---------------------------------------------------------------- pairs

  /** Two domains may share writable memory only where one is the SPM or neither is a Secure Partition. */
  predicate PairIsolated(d: Domain, e: Domain, m: Memory, profile: nat) {
    || profile != LEVEL_3 || !m.attributes.write || m.attributes.device
    || d.kind == KIND_SPM || e.kind == KIND_SPM
    || (d.kind != KIND_PARTITION && e.kind != KIND_PARTITION)
  }

  predicate MemoryPairOk(d: Domain, e: Domain, m: Memory, n: Memory, profile: nat) {
    Overlap(m, n) ==> SharedAlike(m, n) && PairIsolated(d, e, m, profile)
  }

  predicate InterruptPairOk(i: Interrupt, j: Interrupt) {
    i.number == j.number ==> i.shared && j.shared && i.share == j.share && i.share != SHARE_NONE
  }

  ghost predicate PairOk(d: Domain, e: Domain, profile: nat) {
    && d.id != e.id
    && (forall i, j :: 0 <= i < |d.memory| && 0 <= j < |e.memory| ==>
          MemoryPairOk(d, e, d.memory[i], e.memory[j], profile))
    && (forall i, j :: 0 <= i < |d.interrupts| && 0 <= j < |e.interrupts| ==>
          InterruptPairOk(d.interrupts[i], e.interrupts[j]))
  }

  method ValidateMemoryPairs(d: Domain, e: Domain, profile: nat) returns (ret: int)
    ensures ret in {VALID, ERROR_SHARING, ERROR_OVERLAP, ERROR_ISOLATION}
    ensures ret == VALID <==>
              forall i, j :: 0 <= i < |d.memory| && 0 <= j < |e.memory| ==>
                MemoryPairOk(d, e, d.memory[i], e.memory[j], profile)
  {
    var i := 0;
    while i < |d.memory|
      invariant 0 <= i <= |d.memory|
      invariant forall k, j :: 0 <= k < i && 0 <= j < |e.memory| ==>
                  MemoryPairOk(d, e, d.memory[k], e.memory[j], profile)
    {
      var j := 0;
      while j < |e.memory|
        invariant 0 <= j <= |e.memory|
        invariant forall k :: 0 <= k < j ==> MemoryPairOk(d, e, d.memory[i], e.memory[k], profile)
      {
        var m, n := d.memory[i], e.memory[j];
        if Overlap(m, n) {
          if !SharedAlike(m, n) {
            assert !MemoryPairOk(d, e, m, n, profile);
            return if m.attributes.shared || n.attributes.shared then ERROR_SHARING else ERROR_OVERLAP;
          }
          if !PairIsolated(d, e, m, profile) {
            assert !MemoryPairOk(d, e, m, n, profile);
            return ERROR_ISOLATION;
          }
        }
        j := j + 1;
      }
      i := i + 1;
    }
    ret := VALID;
  }

  method ValidateInterruptPairs(d: Domain, e: Domain) returns (ret: int)
    ensures ret == VALID <==>
              forall i, j :: 0 <= i < |d.interrupts| && 0 <= j < |e.interrupts| ==>
                InterruptPairOk(d.interrupts[i], e.interrupts[j])
  {
    var i := 0;
    while i < |d.interrupts|
      invariant 0 <= i <= |d.interrupts|
      invariant forall k, j :: 0 <= k < i && 0 <= j < |e.interrupts| ==>
                  InterruptPairOk(d.interrupts[k], e.interrupts[j])
    {
      var j := 0;
      while j < |e.interrupts|
        invariant 0 <= j <= |e.interrupts|
        invariant forall k :: 0 <= k < j ==> InterruptPairOk(d.interrupts[i], e.interrupts[k])
      {
        if !InterruptPairOk(d.interrupts[i], e.interrupts[j]) {
          return ERROR_INTERRUPT_OWNERSHIP;
        }
        j := j + 1;
      }
      i := i + 1;
    }
    ret := VALID;
  }

  method ValidatePair(d: Domain, e: Domain, profile: nat) returns (ret: int)
    ensures ret == VALID <==> PairOk(d, e, profile)
  {
    if d.id == e.id {
      return ERROR_ID;
    }
    ret := ValidateMemoryPairs(d, e, profile);
    if ret != VALID {
      return;
    }
    ret := ValidateInterruptPairs(d, e);
  }

  // ---------------------------------------------------------------- the set

  ghost predicate DomainOk(d: Domain, caps: Capabilities) {
    RestartOk(d.restart) && LaunchOk(d) && CapabilitiesOk(d, caps.present) && ResourcesOk(d, caps)
  }

  function SpmCount(ds: seq<Domain>): nat {
    if ds == [] then 0 else SpmCount(ds[..|ds| - 1]) + if ds[|ds| - 1].kind == KIND_SPM then 1 else 0
  }

  ghost predicate SetOk(ds: seq<Domain>, profile: nat, caps: Capabilities) {
    && 0 < |ds| <= caps.maxDomains && caps.present <= CAP_ALL
    && (profile == SERVICE_ONLY || (profile == LEVEL_3 && CAP_LEVEL_3 <= caps.present && SpmCount(ds) == 1))
    && (forall i :: 0 <= i < |ds| ==> IdentityError(ds[i]) == VALID)
    && (forall i :: 0 <= i < |ds| ==> DomainOk(ds[i], caps))
    && (forall i, j :: 0 <= j < i < |ds| ==> PairOk(ds[i], ds[j], profile))
  }

  method ValidateIdentities(ds: seq<Domain>) returns (ret: int, spms: nat)
    ensures ret == VALID <==> forall i :: 0 <= i < |ds| ==> IdentityError(ds[i]) == VALID
    ensures ret == VALID ==> spms == SpmCount(ds)
  {
    spms := 0;
    var i := 0;
    while i < |ds|
      invariant 0 <= i <= |ds| && spms == SpmCount(ds[..i])
      invariant forall k :: 0 <= k < i ==> IdentityError(ds[k]) == VALID
    {
      assert ds[..i + 1][..i] == ds[..i];
      if IdentityError(ds[i]) != VALID {
        return IdentityError(ds[i]), spms;
      }
      if ds[i].kind == KIND_SPM {
        spms := spms + 1;
      }
      i := i + 1;
    }
    assert ds[..i] == ds;
    ret := VALID;
  }

  method ValidateDomain(d: Domain, caps: Capabilities) returns (ret: int)
    ensures ret == VALID <==> DomainOk(d, caps)
  {
    if !RestartOk(d.restart) {
      return ERROR_RESTART_POLICY;
    }
    if !LaunchOk(d) {
      return ERROR_LAUNCH_POLICY;
    }
    if !CapabilitiesOk(d, caps.present) {
      return ERROR_CAPABILITY;
    }
    ret := ValidateResources(d, caps);
  }

  method ValidateDomains(ds: seq<Domain>, profile: nat, caps: Capabilities) returns (ret: int)
    ensures ret == VALID <==>
              && (forall i :: 0 <= i < |ds| ==> DomainOk(ds[i], caps))
              && (forall i, j :: 0 <= j < i < |ds| ==> PairOk(ds[i], ds[j], profile))
  {
    hide DomainOk;
    hide PairOk;
    var i := 0;
    while i < |ds|
      invariant 0 <= i <= |ds|
      invariant forall k :: 0 <= k < i ==> DomainOk(ds[k], caps)
      invariant forall k, j :: 0 <= j < k < i ==> PairOk(ds[k], ds[j], profile)
    {
      ret := ValidateDomain(ds[i], caps);
      if ret != VALID {
        return;
      }
      var j := 0;
      while j < i
        invariant 0 <= j <= i
        invariant forall k :: 0 <= k < j ==> PairOk(ds[i], ds[k], profile)
      {
        ret := ValidatePair(ds[i], ds[j], profile);
        if ret != VALID {
          return;
        }
        j := j + 1;
      }
      i := i + 1;
    }
    ret := VALID;
  }

  /** Accepts exactly the sets that satisfy every per-domain and pairwise rule. */
  method ValidateSet(ds: seq<Domain>, profile: nat, caps: Capabilities) returns (ret: int)
    ensures ret == VALID <==> SetOk(ds, profile, caps)
  {
    if |ds| == 0 || |ds| > caps.maxDomains {
      return ERROR_COUNT;
    }
    if !(caps.present <= CAP_ALL) {
      return ERROR_CAPABILITY;
    }
    if profile != SERVICE_ONLY && profile != LEVEL_3 {
      return ERROR_PROFILE;
    }
    if profile == LEVEL_3 && !(CAP_LEVEL_3 <= caps.present) {
      return ERROR_CAPABILITY;
    }
    var spms;
    ret, spms := ValidateIdentities(ds);
    if ret != VALID {
      return;
    }
    if profile != SERVICE_ONLY && spms != 1 {
      return ERROR_SPM_COUNT;
    }
    ret := ValidateDomains(ds, profile, caps);
  }

  // ---------------------------------------------------------------- what acceptance means, byte by byte

  predicate Maps(m: Memory, a: nat) {
    m.base <= a < m.base + m.size
  }

  /** Domain d maps byte a with attributes t. */
  ghost predicate Grants(d: Domain, a: nat, t: Attributes) {
    exists i :: 0 <= i < |d.memory| && Maps(d.memory[i], a) && d.memory[i].attributes == t
  }

  /** Ranges overlap exactly when they have a byte in common. */
  lemma OverlapIsCommonByte(m: Memory, n: Memory)
    requires m.size > 0 && n.size > 0
    ensures Overlap(m, n) <==> exists a :: Maps(m, a) && Maps(n, a)
  {
    if Overlap(m, n) {
      var a := if m.base < n.base then n.base else m.base;
      assert Maps(m, a) && Maps(n, a);
    }
  }

  /** The pair rule for two domains in either order of the set. */
  lemma PairEither(ds: seq<Domain>, profile: nat, caps: Capabilities, i: nat, j: nat, x: nat, y: nat)
    requires SetOk(ds, profile, caps) && i < |ds| && j < |ds| && i != j && x < |ds[i].memory| && y < |ds[j].memory|
    requires Overlap(ds[i].memory[x], ds[j].memory[y])
    ensures SharedAlike(ds[i].memory[x], ds[j].memory[y])
    ensures PairIsolated(ds[i], ds[j], ds[i].memory[x], profile)
  {
    if j < i {
      assert PairOk(ds[i], ds[j], profile);
      assert MemoryPairOk(ds[i], ds[j], ds[i].memory[x], ds[j].memory[y], profile);
    } else {
      assert PairOk(ds[j], ds[i], profile);
      assert MemoryPairOk(ds[j], ds[i], ds[j].memory[y], ds[i].memory[x], profile);
    }
  }

  lemma MappedSound(ds: seq<Domain>, profile: nat, caps: Capabilities, i: nat, x: nat)
    requires SetOk(ds, profile, caps) && i < |ds| && x < |ds[i].memory|
    ensures MemoryError(ds[i].memory[x]) == VALID
  {
    assert DomainOk(ds[i], caps);
  }

  /** Within one domain a byte has at most one resource. */
  lemma OwnByte(d: Domain, caps: Capabilities, x: nat, y: nat, a: nat)
    requires ResourcesOk(d, caps) && x < |d.memory| && y < |d.memory| && Maps(d.memory[x], a) && Maps(d.memory[y], a)
    ensures x == y
  {
    assert Overlap(d.memory[x], d.memory[y]) && Overlap(d.memory[y], d.memory[x]);
  }

  /** Two mappings of one byte have the same attributes, and are one resource or declared alike. */
  lemma SameByte(ds: seq<Domain>, profile: nat, caps: Capabilities, i: nat, j: nat, x: nat, y: nat, a: nat)
    requires SetOk(ds, profile, caps) && i < |ds| && j < |ds| && x < |ds[i].memory| && y < |ds[j].memory|
    requires Maps(ds[i].memory[x], a) && Maps(ds[j].memory[y], a)
    ensures ds[i].memory[x] == ds[j].memory[y]
    ensures i != j ==> SharedAlike(ds[i].memory[x], ds[j].memory[y])
    ensures i == j ==> x == y
  {
    if i != j {
      PairEither(ds, profile, caps, i, j, x, y);
    } else {
      assert DomainOk(ds[i], caps);
      OwnByte(ds[i], caps, x, y, a);
    }
  }

  /** All domains that map a byte grant it identical attributes, never both write and execute. */
  lemma BytesAreUniform(ds: seq<Domain>, profile: nat, caps: Capabilities, i: nat, j: nat, a: nat, t: Attributes, u: Attributes)
    requires SetOk(ds, profile, caps) && i < |ds| && j < |ds|
    requires Grants(ds[i], a, t) && Grants(ds[j], a, u)
    ensures t == u && !(t.write && u.execute) && a <= ADDRESS_MAX
  {
    var x :| 0 <= x < |ds[i].memory| && Maps(ds[i].memory[x], a) && ds[i].memory[x].attributes == t;
    var y :| 0 <= y < |ds[j].memory| && Maps(ds[j].memory[y], a) && ds[j].memory[y].attributes == u;
    SameByte(ds, profile, caps, i, j, x, y, a);
    MappedSound(ds, profile, caps, i, x);
  }

  /** No other domain maps any byte of a domain's stack. */
  lemma StacksArePrivate(ds: seq<Domain>, profile: nat, caps: Capabilities, i: nat, j: nat, a: nat, t: Attributes)
    requires SetOk(ds, profile, caps) && i < |ds| && j < |ds|
    requires ds[i].stackBase <= a < ds[i].stackBase + ds[i].stackSize
    requires Grants(ds[j], a, t)
    ensures i == j && t.read && t.write && !t.execute
  {
    assert DomainOk(ds[i], caps);
    var x :| 0 <= x < |ds[i].memory| && StackIn(ds[i], ds[i].memory[x]);
    var y :| 0 <= y < |ds[j].memory| && Maps(ds[j].memory[y], a) && ds[j].memory[y].attributes == t;
    SameByte(ds, profile, caps, i, j, x, y, a);
  }

  /** At level 3 a byte a Secure Partition shares writably with another partition or application is a device. */
  lemma WritableSharing(ds: seq<Domain>, caps: Capabilities, i: nat, j: nat, a: nat, t: Attributes, u: Attributes)
    requires SetOk(ds, LEVEL_3, caps) && i < |ds| && j < |ds| && i != j
    requires ds[i].kind == KIND_PARTITION && ds[j].kind != KIND_SPM
    requires Grants(ds[i], a, t) && Grants(ds[j], a, u) && (t.write || u.write)
    ensures t.device && t.shared
  {
    var x :| 0 <= x < |ds[i].memory| && Maps(ds[i].memory[x], a) && ds[i].memory[x].attributes == t;
    var y :| 0 <= y < |ds[j].memory| && Maps(ds[j].memory[y], a) && ds[j].memory[y].attributes == u;
    SameByte(ds, LEVEL_3, caps, i, j, x, y, a);
    PairEither(ds, LEVEL_3, caps, i, j, x, y);
  }
}
