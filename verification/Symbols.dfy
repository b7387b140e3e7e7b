/**
  The C symbols generated from a manifest: partition names, partition models, the
  four service symbols and interrupt names.  The validator compares only some pairs;
  acceptance still makes the whole namespace pairwise distinct.
  */
module Symbols {
  import opened Manifest
  import opened ManifestChecks

  // ---------------------------------------------------------------- string comparison

  /** Decides equality of names no longer than the limit. */
  method StringEqual(first: string, second: string) returns (equal: bool)
    ensures equal <==> first == second && |first| <= NAME_MAX
  {
    var i := 0;
    while i <= NAME_MAX
      invariant 0 <= i <= NAME_MAX + 1 && i <= |first| && i <= |second| && first[..i] == second[..i]
    {
      if i == |first| || i == |second| {
        assert first[..|first|] == first && second[..|second|] == second;
        return |first| == |second|;
      }
      if first[i] != second[i] {
        return false;
      }
      i := i + 1;
    }
    equal := false;
  }

  /** Decides whether name is base followed by suffix, without building the concatenation. */
  method NameEqualsGenerated(name: string, base: string, suffix: string) returns (equal: bool)
    ensures equal <==> name == base + suffix
  {
    if |name| != |base| + |suffix| {
      return false;
    }
    var i := 0;
    while i < |base|
      invariant 0 <= i <= |base| && forall k :: 0 <= k < i ==> name[k] == base[k]
    {
      if name[i] != base[i] {
        assert name[i] != (base + suffix)[i];
        return false;
      }
      i := i + 1;
    }
    i := 0;
    while i < |suffix|
      invariant 0 <= i <= |suffix| && forall k :: 0 <= k < i ==> name[|base| + k] == suffix[k]
    {
      if name[|base| + i] != suffix[i] {
        assert name[|base| + i] != (base + suffix)[|base| + i];
        return false;
      }
      i := i + 1;
    }
    assert forall k :: |base| <= k < |name| ==> name[k] == suffix[k - |base|];
    equal := true;
  }

  function GeneratedChar(base: string, suffix: string, index: nat): char
    requires index < |base| + |suffix|
  {
    if index < |base| then base[index] else suffix[index - |base|]
  }

  /** Decides equality of two concatenations, character by character. */
  method GeneratedNamesEqual(base: string, suffix: string, base': string, suffix': string) returns (equal: bool)
    ensures equal <==> base + suffix == base' + suffix'
  {
    var total := |base| + |suffix|;
    if total != |base'| + |suffix'| {
      return false;
    }
    var i := 0;
    while i < total
      invariant 0 <= i <= total && forall k :: 0 <= k < i ==> (base + suffix)[k] == (base' + suffix')[k]
    {
      if GeneratedChar(base, suffix, i) != GeneratedChar(base', suffix', i) {
        assert (base + suffix)[i] != (base' + suffix')[i];
        return false;
      }
      i := i + 1;
    }
    equal := true;
  }

  // ---------------------------------------------------------------- the namespace

  datatype Kind = Sid | Version | Signal | Handle

  datatype Symbol =
    | PartitionName(p: nat)
    | PartitionModelName(p: nat, sfn: bool)
    | ServiceSymbol(p: nat, s: nat, kind: Kind)
    | InterruptName(p: nat, i: nat)

  function Suffix(kind: Kind): string {
    match kind
    case Sid => "_SID"
    case Version => "_VERSION"
    case Signal => "_SIGNAL"
    case Handle => "_HANDLE"
  }

  function ModelSuffix(sfn: bool): string {
    if sfn then "_MODEL_SFN" else "_MODEL_IPC"
  }

  predicate HasKind(p: PartitionDesc, s: ServiceDesc, kind: Kind) {
    match kind
    case Sid => true
    case Version => true
    case Signal => p.model == IpcModel
    case Handle => !s.connectionBased
  }

  /** The manifest generates this symbol. */
  predicate Defined(ps: seq<PartitionDesc>, y: Symbol) {
    && y.p < |ps|
    && match y
       case PartitionName(_) => true
       case PartitionModelName(p, _) => ps[p].version11
       case ServiceSymbol(p, s, kind) => s < |ps[p].services| && HasKind(ps[p], ps[p].services[s], kind)
       case InterruptName(p, i) => i < |ps[p].interrupts|
  }

  function Text(ps: seq<PartitionDesc>, y: Symbol): string
    requires Defined(ps, y)
  {
    match y
    case PartitionName(p) => ps[p].name
    case PartitionModelName(p, sfn) => ps[p].name + ModelSuffix(sfn)
    case ServiceSymbol(p, s, kind) => ps[p].services[s].name + Suffix(kind)
    case InterruptName(p, i) => ps[p].interrupts[i].name
  }

  ghost predicate NamespaceDistinct(ps: seq<PartitionDesc>) {
    forall y, z :: Defined(ps, y) && Defined(ps, z) && y != z ==> Text(ps, y) != Text(ps, z)
  }

  // ---------------------------------------------------------------- collisions the validator looks for

  predicate HitsModel(name: string, p: PartitionDesc) {
    p.version11 && (name == p.name + ModelSuffix(false) || name == p.name + ModelSuffix(true))
  }

  predicate HitsService(name: string, p: PartitionDesc, s: ServiceDesc) {
    || name == s.name + Suffix(Sid) || name == s.name + Suffix(Version)
    || (p.model == IpcModel && name == s.name + Suffix(Signal))
    || (!s.connectionBased && name == s.name + Suffix(Handle))
  }

  predicate ModelHitsService(m: PartitionDesc, p: PartitionDesc, s: ServiceDesc) {
    m.version11 && (HitsService(m.name + ModelSuffix(false), p, s) || HitsService(m.name + ModelSuffix(true), p, s))
  }

  method PartitionCollision(name: string, p: PartitionDesc) returns (hit: bool)
    ensures hit == HitsModel(name, p)
  {
    if !p.version11 {
      return false;
    }
    hit := NameEqualsGenerated(name, p.name, "_MODEL_IPC");
    if !hit {
      hit := NameEqualsGenerated(name, p.name, "_MODEL_SFN");
    }
  }

  method ServiceCollision(name: string, p: PartitionDesc, s: ServiceDesc) returns (hit: bool)
    ensures hit == HitsService(name, p, s)
  {
    hit := NameEqualsGenerated(name, s.name, "_SID");
    if hit {
      return;
    }
    hit := NameEqualsGenerated(name, s.name, "_VERSION");
    if hit {
      return;
    }
    if p.model == IpcModel {
      hit := NameEqualsGenerated(name, s.name, "_SIGNAL");
      if hit {
        return;
      }
    }
    if !s.connectionBased {
      hit := NameEqualsGenerated(name, s.name, "_HANDLE");
    }
  }

  method EitherModelEquals(m: PartitionDesc, s: ServiceDesc, suffix: string) returns (hit: bool)
    ensures hit <==> m.name + ModelSuffix(false) == s.name + suffix || m.name + ModelSuffix(true) == s.name + suffix
  {
    hit := GeneratedNamesEqual(m.name, "_MODEL_IPC", s.name, suffix);
    if !hit {
      hit := GeneratedNamesEqual(m.name, "_MODEL_SFN", s.name, suffix);
    }
  }

  method ServiceModelCollision(m: PartitionDesc, p: PartitionDesc, s: ServiceDesc) returns (hit: bool)
    ensures hit == ModelHitsService(m, p, s)
  {
    if !m.version11 {
      return false;
    }
    hit := EitherModelEquals(m, s, "_SID");
    if hit {
      return;
    }
    hit := EitherModelEquals(m, s, "_VERSION");
    if hit {
      return;
    }
    if p.model == IpcModel {
      hit := EitherModelEquals(m, s, "_SIGNAL");
      if hit {
        return;
      }
    }
    if !s.connectionBased {
      hit := EitherModelEquals(m, s, "_HANDLE");
    }
  }

  // ---------------------------------------------------------------- the scans

  ghost predicate ServicesClear(m: PartitionDesc, p: PartitionDesc) {
    forall k :: 0 <= k < |p.services| ==> !HitsService(m.name, p, p.services[k]) && !ModelHitsService(m, p, p.services[k])
  }

  ghost predicate PairClear(m: PartitionDesc, p: PartitionDesc) {
    && !HitsModel(m.name, p) && ServicesClear(m, p)
    && (forall k :: 0 <= k < |p.interrupts| ==> m.name != p.interrupts[k].name)
  }

  ghost predicate InterruptClear(name: string, p: PartitionDesc) {
    !HitsModel(name, p) && forall k :: 0 <= k < |p.services| ==> !HitsService(name, p, p.services[k])
  }

  /** Interrupt (p, i) comes before interrupt (q, j) in the scan. */
  predicate Before(p: nat, i: nat, q: nat, j: nat) {
    p < q || (p == q && i < j)
  }

  ghost predicate InterruptsFresh(ps: seq<PartitionDesc>, q: nat, j: nat)
    requires q < |ps| && j < |ps[q].interrupts|
  {
    forall p, i :: 0 <= p < |ps| && 0 <= i < |ps[p].interrupts| && Before(p, i, q, j) ==>
      ps[p].interrupts[i].name != ps[q].interrupts[j].name
  }

  ghost predicate PartitionClear(ps: seq<PartitionDesc>, q: nat)
    requires q < |ps|
  {
    && (forall j :: 0 <= j < |ps| ==> PairClear(ps[q], ps[j]))
    && (forall j :: 0 <= j < |ps[q].interrupts| ==>
          && (forall k :: 0 <= k < |ps| ==> InterruptClear(ps[q].interrupts[j].name, ps[k]))
          && InterruptsFresh(ps, q, j))
  }

  predicate NamesBounded(ps: seq<PartitionDesc>) {
    forall p :: 0 <= p < |ps| ==>
      && |ps[p].name| <= NAME_MAX
      && forall i :: 0 <= i < |ps[p].interrupts| ==> |ps[p].interrupts[i].name| <= NAME_MAX
  }

  method CheckPair(m: PartitionDesc, p: PartitionDesc) returns (clear: bool)
    requires |m.name| <= NAME_MAX && forall i :: 0 <= i < |p.interrupts| ==> |p.interrupts[i].name| <= NAME_MAX
    ensures clear <==> PairClear(m, p)
  {
    var hit := PartitionCollision(m.name, p);
    if hit {
      return false;
    }
    var k := 0;
    while k < |p.services|
      invariant 0 <= k <= |p.services|
      invariant forall j :: 0 <= j < k ==> !HitsService(m.name, p, p.services[j]) && !ModelHitsService(m, p, p.services[j])
    {
      hit := ServiceCollision(m.name, p, p.services[k]);
      if hit {
        return false;
      }
      hit := ServiceModelCollision(m, p, p.services[k]);
      if hit {
        return false;
      }
      k := k + 1;
    }
    k := 0;
    while k < |p.interrupts|
      invariant 0 <= k <= |p.interrupts| && forall j :: 0 <= j < k ==> m.name != p.interrupts[j].name
    {
      hit := StringEqual(m.name, p.interrupts[k].name);
      if hit {
        return false;
      }
      k := k + 1;
    }
    clear := true;
  }

  method CheckInterruptAgainst(name: string, p: PartitionDesc) returns (clear: bool)
    ensures clear <==> InterruptClear(name, p)
  {
    var hit := PartitionCollision(name, p);
    if hit {
      return false;
    }
    var k := 0;
    while k < |p.services|
      invariant 0 <= k <= |p.services| && forall j :: 0 <= j < k ==> !HitsService(name, p, p.services[j])
    {
      hit := ServiceCollision(name, p, p.services[k]);
      if hit {
        return false;
      }
      k := k + 1;
    }
    clear := true;
  }

  method CheckInterruptFresh(ps: seq<PartitionDesc>, q: nat, j: nat) returns (fresh': bool)
    requires q < |ps| && j < |ps[q].interrupts| && NamesBounded(ps)
    ensures fresh' <==> InterruptsFresh(ps, q, j)
  {
    var name := ps[q].interrupts[j].name;
    var p := 0;
    while p <= q
      invariant 0 <= p <= q + 1
      invariant forall x, i :: 0 <= x < p && 0 <= i < |ps[x].interrupts| && Before(x, i, q, j) ==>
                  ps[x].interrupts[i].name != name
    {
      var limit := if p == q then j else |ps[p].interrupts|;
      var i := 0;
      while i < limit
        invariant 0 <= i <= limit && forall y :: 0 <= y < i ==> ps[p].interrupts[y].name != name
      {
        var hit := StringEqual(name, ps[p].interrupts[i].name);
        if hit {
          assert Before(p, i, q, j);
          return false;
        }
        i := i + 1;
      }
      p := p + 1;
    }
    fresh' := true;
  }

  method CheckInterrupt(ps: seq<PartitionDesc>, q: nat, j: nat) returns (clear: bool)
    requires q < |ps| && j < |ps[q].interrupts| && NamesBounded(ps)
    ensures clear <==>
              && (forall k :: 0 <= k < |ps| ==> InterruptClear(ps[q].interrupts[j].name, ps[k]))
              && InterruptsFresh(ps, q, j)
  {
    hide InterruptClear;
    hide InterruptsFresh;
    var k := 0;
    while k < |ps|
      invariant 0 <= k <= |ps| && forall i :: 0 <= i < k ==> InterruptClear(ps[q].interrupts[j].name, ps[i])
    {
      clear := CheckInterruptAgainst(ps[q].interrupts[j].name, ps[k]);
      if !clear {
        return;
      }
      k := k + 1;
    }
    clear := CheckInterruptFresh(ps, q, j);
  }

  method CheckPartition(ps: seq<PartitionDesc>, q: nat) returns (clear: bool)
    requires q < |ps| && NamesBounded(ps)
    ensures clear <==> PartitionClear(ps, q)
  {
    hide PairClear;
    hide InterruptClear;
    hide InterruptsFresh;
    var j := 0;
    while j < |ps|
      invariant 0 <= j <= |ps| && forall k :: 0 <= k < j ==> PairClear(ps[q], ps[k])
    {
      clear := CheckPair(ps[q], ps[j]);
      if !clear {
        return;
      }
      j := j + 1;
    }
    j := 0;
    while j < |ps[q].interrupts|
      invariant 0 <= j <= |ps[q].interrupts|
      invariant forall i :: 0 <= i < j ==>
                  && (forall k :: 0 <= k < |ps| ==> InterruptClear(ps[q].interrupts[i].name, ps[k]))
                  && InterruptsFresh(ps, q, i)
    {
      clear := CheckInterrupt(ps, q, j);
      if !clear {
        return;
      }
      j := j + 1;
    }
    clear := true;
  }

  method ScanSymbols(ps: seq<PartitionDesc>) returns (ret: int)
    requires NamesBounded(ps)
    ensures ret in {VALID, ERROR_SYMBOL}
    ensures ret == VALID <==> forall q :: 0 <= q < |ps| ==> PartitionClear(ps, q)
  {
    hide PartitionClear;
    var i := 0;
    while i < |ps|
      invariant 0 <= i <= |ps| && forall q :: 0 <= q < i ==> PartitionClear(ps, q)
    {
      var clear := CheckPartition(ps, i);
      if !clear {
        return ERROR_SYMBOL;
      }
      i := i + 1;
    }
    ret := VALID;
  }

  // ---------------------------------------------------------------- why the omitted comparisons are not needed

  /** Neither of two different suffixes ends the other. */
  predicate SuffixFree(s: string, t: string) {
    s != t && !(|s| <= |t| && t[|t| - |s|..] == s) && !(|t| <= |s| && s[|s| - |t|..] == t)
  }

  /** Equal names end alike: the shorter suffix ends the longer one. */
  lemma EqualNamesNest(a: string, s: string, b: string, t: string)
    requires a + s == b + t && |s| <= |t|
    ensures t[|t| - |s|..] == s
  {
    var x := a + s;
    assert x[|x| - |s|..] == s;
    assert x == b + t && x[|x| - |t|..] == t;
    assert x[|x| - |t|..][|t| - |s|..] == x[|x| - |s|..];
  }

  /** Names built with suffixes of which neither ends the other differ, whatever the bases. */
  lemma DifferentSuffixes(a: string, s: string, b: string, t: string)
    requires SuffixFree(s, t)
    ensures a + s != b + t
  {
    if a + s == b + t {
      if |s| <= |t| {
        EqualNamesNest(a, s, b, t);
      } else {
        EqualNamesNest(b, t, a, s);
      }
    }
  }

  lemma EqualBases(a: string, b: string, s: string)
    requires a + s == b + s
    ensures a == b
  {
    var x := a + s;
    assert x[..|x| - |s|] == a;
    assert (b + s)[..|x| - |s|] == b;
  }

  /** With one suffix, different bases give different names. */
  lemma DifferentBases(a: string, b: string, s: string)
    requires a != b
    ensures a + s != b + s
  {
    if a + s == b + s {
      EqualBases(a, b, s);
    }
  }

  lemma EndsLast(s: string, t: string)
    requires s != [] && |s| <= |t| && t[|t| - |s|..] == s
    ensures s[|s| - 1] == t[|t| - 1]
  {
    assert t[|t| - |s|..][|s| - 1] == t[|t| - 1];
  }

  lemma LastDiffers(s: string, t: string)
    requires s != [] && t != [] && s[|s| - 1] != t[|t| - 1]
    ensures SuffixFree(s, t)
  {
    if |s| <= |t| && t[|t| - |s|..] == s {
      EndsLast(s, t);
    }
    if |t| <= |s| && s[|s| - |t|..] == t {
      EndsLast(t, s);
    }
  }

  /** No generated service suffix ends another. */
  lemma KindsSuffixFree(k: Kind, l: Kind)
    requires k != l
    ensures SuffixFree(Suffix(k), Suffix(l))
  {
    LastDiffers(Suffix(k), Suffix(l));
  }

  // ---------------------------------------------------------------- acceptance is distinctness

  ghost predicate Differ(ps: seq<PartitionDesc>, y: Symbol, z: Symbol) {
    Defined(ps, y) && Defined(ps, z) && y != z ==> Text(ps, y) != Text(ps, z)
  }

  ghost predicate AllClear(ps: seq<PartitionDesc>) {
    forall q :: 0 <= q < |ps| ==> PartitionClear(ps, q)
  }

  lemma PartitionNamesDiffer(ps: seq<PartitionDesc>, p: nat, q: nat)
    requires PartitionsDistinct(ps) && p < |ps| && q < |ps| && p != q
    ensures ps[p].name != ps[q].name
  {
  }

  lemma ServiceNamesDiffer(ps: seq<PartitionDesc>, p: nat, s: nat, q: nat, r: nat)
    requires ServicesDistinct(ps) && p < |ps| && s < |ps[p].services| && q < |ps| && r < |ps[q].services|
    requires p != q || s != r
    ensures ps[p].services[s].name != ps[q].services[r].name
  {
    assert Fresh(ps, p, s) && Fresh(ps, q, r);
    if Earlier(p, s, q, r) {
      assert !Clash(ps[q].services[r], ps[p].services[s]);
    } else {
      assert Earlier(q, r, p, s);
      assert !Clash(ps[p].services[s], ps[q].services[r]);
    }
  }

  /** A partition name against everything else. */
  lemma NameDiffers(ps: seq<PartitionDesc>, p: nat, z: Symbol)
    requires PartitionsDistinct(ps) && AllClear(ps)
    ensures Differ(ps, PartitionName(p), z)
  {
    if p < |ps| && Defined(ps, z) && z != PartitionName(p) {
      assert PartitionClear(ps, p);
      assert PairClear(ps[p], ps[z.p]);
      if z.PartitionName? {
        PartitionNamesDiffer(ps, p, z.p);
      }
    }
  }

  /** An interrupt name against everything else. */
  lemma InterruptDiffers(ps: seq<PartitionDesc>, p: nat, i: nat, z: Symbol)
    requires PartitionsDistinct(ps) && AllClear(ps)
    ensures Differ(ps, InterruptName(p, i), z)
  {
    if p < |ps| && i < |ps[p].interrupts| && Defined(ps, z) && z != InterruptName(p, i) {
      assert PartitionClear(ps, p) && PartitionClear(ps, z.p);
      match z
      case PartitionName(q) => NameDiffers(ps, q, InterruptName(p, i));
      case InterruptName(q, j) =>
        assert InterruptsFresh(ps, p, i) && InterruptsFresh(ps, q, j);
        assert Before(p, i, q, j) || Before(q, j, p, i);
      case PartitionModelName(q, _) => assert InterruptClear(ps[p].interrupts[i].name, ps[q]);
      case ServiceSymbol(q, _, _) => assert InterruptClear(ps[p].interrupts[i].name, ps[q]);
    }
  }

  /** A model name against models and service symbols. */
  lemma ModelDiffers(ps: seq<PartitionDesc>, p: nat, sfn: bool, z: Symbol)
    requires PartitionsDistinct(ps) && AllClear(ps) && (z.PartitionModelName? || z.ServiceSymbol?)
    ensures Differ(ps, PartitionModelName(p, sfn), z)
  {
    if p < |ps| && Defined(ps, z) && z != PartitionModelName(p, sfn) && ps[p].version11 {
      assert PartitionClear(ps, p);
      assert PairClear(ps[p], ps[z.p]);
      match z
      case PartitionModelName(q, other) =>
        if sfn == other {
          PartitionNamesDiffer(ps, p, q);
          DifferentBases(ps[p].name, ps[q].name, ModelSuffix(sfn));
        } else {
          LastDiffers(ModelSuffix(sfn), ModelSuffix(other));
          DifferentSuffixes(ps[p].name, ModelSuffix(sfn), ps[q].name, ModelSuffix(other));
        }
      case ServiceSymbol(q, s, kind) =>
        assert !ModelHitsService(ps[p], ps[q], ps[q].services[s]);
    }
  }

  /** Two service symbols, which the validator never compares. */
  lemma ServicesDiffer(ps: seq<PartitionDesc>, p: nat, s: nat, k: Kind, q: nat, r: nat, l: Kind)
    requires ServicesDistinct(ps)
    ensures Differ(ps, ServiceSymbol(p, s, k), ServiceSymbol(q, r, l))
  {
    if Defined(ps, ServiceSymbol(p, s, k)) && Defined(ps, ServiceSymbol(q, r, l)) && ServiceSymbol(p, s, k) != ServiceSymbol(q, r, l) {
      if k == l {
        ServiceNamesDiffer(ps, p, s, q, r);
        DifferentBases(ps[p].services[s].name, ps[q].services[r].name, Suffix(k));
      } else {
        KindsSuffixFree(k, l);
        DifferentSuffixes(ps[p].services[s].name, Suffix(k), ps[q].services[r].name, Suffix(l));
      }
    }
  }

  lemma ClearMeansDistinct(ps: seq<PartitionDesc>)
    requires PartitionsDistinct(ps) && ServicesDistinct(ps) && AllClear(ps)
    ensures NamespaceDistinct(ps)
  {
    forall y, z | Defined(ps, y) && Defined(ps, z) && y != z ensures Text(ps, y) != Text(ps, z) {
      if y.PartitionName? {
        NameDiffers(ps, y.p, z);
      } else if z.PartitionName? {
        NameDiffers(ps, z.p, y);
      } else if y.InterruptName? {
        InterruptDiffers(ps, y.p, y.i, z);
      } else if z.InterruptName? {
        InterruptDiffers(ps, z.p, z.i, y);
      } else if y.PartitionModelName? {
        ModelDiffers(ps, y.p, y.sfn, z);
      } else if z.PartitionModelName? {
        ModelDiffers(ps, z.p, z.sfn, y);
      } else {
        ServicesDiffer(ps, y.p, y.s, y.kind, z.p, z.s, z.kind);
      }
    }
  }

  lemma DistinctText(ps: seq<PartitionDesc>, y: Symbol, z: Symbol)
    requires NamespaceDistinct(ps) && Defined(ps, y) && Defined(ps, z) && y != z
    ensures Text(ps, y) != Text(ps, z)
  {
  }

  lemma DistinctNoHit(ps: seq<PartitionDesc>, y: Symbol, p: nat)
    requires NamespaceDistinct(ps) && Defined(ps, y) && p < |ps| && (y.PartitionName? || y.InterruptName?)
    ensures !HitsModel(Text(ps, y), ps[p])
    ensures forall k :: 0 <= k < |ps[p].services| ==> !HitsService(Text(ps, y), ps[p], ps[p].services[k])
  {
    if ps[p].version11 {
      DistinctText(ps, y, PartitionModelName(p, false));
      DistinctText(ps, y, PartitionModelName(p, true));
    }
    forall k | 0 <= k < |ps[p].services| ensures !HitsService(Text(ps, y), ps[p], ps[p].services[k]) {
      DistinctNoService(ps, y, p, k);
    }
  }

  lemma DistinctNoService(ps: seq<PartitionDesc>, y: Symbol, p: nat, k: nat)
    requires NamespaceDistinct(ps) && Defined(ps, y) && p < |ps| && k < |ps[p].services| && !y.ServiceSymbol?
    ensures !HitsService(Text(ps, y), ps[p], ps[p].services[k])
  {
    DistinctText(ps, y, ServiceSymbol(p, k, Sid));
    DistinctText(ps, y, ServiceSymbol(p, k, Version));
    if ps[p].model == IpcModel {
      DistinctText(ps, y, ServiceSymbol(p, k, Signal));
    }
    if !ps[p].services[k].connectionBased {
      DistinctText(ps, y, ServiceSymbol(p, k, Handle));
    }
  }

  lemma DistinctPairClear(ps: seq<PartitionDesc>, q: nat, p: nat)
    requires NamespaceDistinct(ps) && q < |ps| && p < |ps|
    ensures PairClear(ps[q], ps[p])
  {
    DistinctNoHit(ps, PartitionName(q), p);
    forall k | 0 <= k < |ps[p].services| ensures !ModelHitsService(ps[q], ps[p], ps[p].services[k]) {
      if ps[q].version11 {
        DistinctNoService(ps, PartitionModelName(q, false), p, k);
        DistinctNoService(ps, PartitionModelName(q, true), p, k);
      }
    }
    forall k | 0 <= k < |ps[p].interrupts| ensures ps[q].name != ps[p].interrupts[k].name {
      DistinctText(ps, PartitionName(q), InterruptName(p, k));
    }
  }

  lemma DistinctMeansClear(ps: seq<PartitionDesc>)
    requires NamespaceDistinct(ps)
    ensures AllClear(ps)
  {
    hide NamespaceDistinct;
    forall q | 0 <= q < |ps| ensures PartitionClear(ps, q) {
      forall j | 0 <= j < |ps| ensures PairClear(ps[q], ps[j]) {
        DistinctPairClear(ps, q, j);
      }
      forall j | 0 <= j < |ps[q].interrupts|
        ensures (forall k :: 0 <= k < |ps| ==> InterruptClear(ps[q].interrupts[j].name, ps[k])) && InterruptsFresh(ps, q, j)
      {
        DistinctInterrupt(ps, q, j);
      }
    }
  }

  lemma DistinctInterrupt(ps: seq<PartitionDesc>, q: nat, j: nat)
    requires NamespaceDistinct(ps) && q < |ps| && j < |ps[q].interrupts|
    ensures forall k :: 0 <= k < |ps| ==> InterruptClear(ps[q].interrupts[j].name, ps[k])
    ensures InterruptsFresh(ps, q, j)
  {
    forall k | 0 <= k < |ps| ensures InterruptClear(ps[q].interrupts[j].name, ps[k]) {
      DistinctNoHit(ps, InterruptName(q, j), k);
    }
    forall p, i | 0 <= p < |ps| && 0 <= i < |ps[p].interrupts| && Before(p, i, q, j)
      ensures ps[p].interrupts[i].name != ps[q].interrupts[j].name
    {
      DistinctText(ps, InterruptName(p, i), InterruptName(q, j));
    }
  }

  /** For a manifest whose partition and service names are unique, acceptance is exactly a distinct namespace. */
  method ValidateSymbols(ps: seq<PartitionDesc>) returns (ret: int)
    requires NamesBounded(ps) && PartitionsDistinct(ps) && ServicesDistinct(ps)
    ensures ret in {VALID, ERROR_SYMBOL}
    ensures ret == VALID <==> NamespaceDistinct(ps)
  {
    ret := ScanSymbols(ps);
    if ret == VALID {
      ClearMeansDistinct(ps);
    } else if NamespaceDistinct(ps) {
      DistinctMeansClear(ps);
    }
  }
}
