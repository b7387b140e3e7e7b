/**
  The uniqueness checks of the manifest validator, and what they give the IPC
  runtime: distinct partitions, distinct services, and signals that never share a bit.
  */
module ManifestChecks {
  import opened Bits
  import opened Manifest
  import Ipc = IpcModel

  const RESERVED_SIGNALS: Word := {0, 1, 2, 3}

  predicate SignalValid(w: Word) {
    w != {} && w !! RESERVED_SIGNALS && |w| == 1
  }

  predicate NameChar(ch: char, first: bool) {
    ('A' <= ch <= 'Z') || ch == '_' || (!first && '0' <= ch <= '9')
  }

  predicate NameValid(name: string) {
    0 < |name| <= NAME_MAX && forall n :: 0 <= n < |name| ==> NameChar(name[n], n == 0)
  }

  // ---------------------------------------------------------------- signals

  predicate ServiceUses(p: PartitionDesc, limit: nat, w: Word)
    requires limit <= |p.services|
  {
    exists j :: 0 <= j < limit && p.services[j].signal == w
  }

  predicate InterruptUses(p: PartitionDesc, limit: nat, w: Word)
    requires limit <= |p.interrupts|
  {
    exists j :: 0 <= j < limit && p.interrupts[j].signal == w
  }

  method SignalUsed(p: PartitionDesc, serviceLimit: nat, interruptLimit: nat, w: Word) returns (used: bool)
    requires serviceLimit <= |p.services| && interruptLimit <= |p.interrupts|
    ensures used <==> ServiceUses(p, serviceLimit, w) || InterruptUses(p, interruptLimit, w)
  {
    for i := 0 to serviceLimit
      invariant !ServiceUses(p, i, w)
    {
      if p.services[i].signal == w {
        return true;
      }
    }
    for i := 0 to interruptLimit
      invariant !InterruptUses(p, i, w)
    {
      if p.interrupts[i].signal == w {
        return true;
      }
    }
    return false;
  }

  predicate ServiceSignalOk(p: PartitionDesc, j: nat)
    requires j < |p.services|
  {
    var w := p.services[j].signal;
    if p.model == IpcModel then SignalValid(w) && !ServiceUses(p, j, w) else w == {}
  }

  predicate InterruptOk(p: PartitionDesc, lines: seq<nat>, j: nat)
    requires j < |p.interrupts|
  {
    var irq := p.interrupts[j];
    && NameValid(irq.name) && SignalValid(irq.signal) && irq.number in lines
    && (forall i :: 0 <= i < j ==> p.interrupts[i].number != irq.number && p.interrupts[i].name != irq.name)
    && !ServiceUses(p, |p.services|, irq.signal) && !InterruptUses(p, j, irq.signal)
  }

  /** The line of interrupt j is the first thing wrong with it: not granted, or taken before its name was. */
  predicate LineFault(p: PartitionDesc, lines: seq<nat>, j: nat)
    requires j < |p.interrupts|
  {
    var irq := p.interrupts[j];
    && NameValid(irq.name) && SignalValid(irq.signal)
    && (irq.number !in lines ||
        exists i :: 0 <= i < j && p.interrupts[i].number == irq.number && forall k :: 0 <= k < i ==> p.interrupts[k].name != irq.name)
  }

  method ValidateInterrupt(p: PartitionDesc, lines: seq<nat>, index: nat) returns (code: int)
    requires index < |p.interrupts|
    ensures code in {VALID, ERROR_SIGNAL, ERROR_INTERRUPT}
    ensures code == VALID <==> InterruptOk(p, lines, index)
    ensures code == ERROR_INTERRUPT <==> LineFault(p, lines, index)
  {
    var irq := p.interrupts[index];
    if !NameValid(irq.name) || !SignalValid(irq.signal) {
      return ERROR_SIGNAL;
    }
    if irq.number !in lines {
      return ERROR_INTERRUPT;
    }
    for i := 0 to index
      invariant forall k :: 0 <= k < i ==> p.interrupts[k].number != irq.number && p.interrupts[k].name != irq.name
    {
      if p.interrupts[i].number == irq.number {
        return ERROR_INTERRUPT;
      }
      if p.interrupts[i].name == irq.name {
        return ERROR_SIGNAL;
      }
    }
    var used := SignalUsed(p, |p.services|, index, irq.signal);
    return if used then ERROR_SIGNAL else VALID;
  }

  /** Every signal of the partition is a single bit outside the reserved ones, and no two are the same. */
  ghost predicate SignalsDistinct(p: PartitionDesc) {
    && (forall j :: 0 <= j < |p.services| ==> if p.model == IpcModel then SignalValid(p.services[j].signal) else p.services[j].signal == {})
    && (p.model == IpcModel ==>
          forall i, j :: 0 <= i < j < |p.services| ==> p.services[i].signal != p.services[j].signal)
    && (forall j :: 0 <= j < |p.interrupts| ==> SignalValid(p.interrupts[j].signal))
    && (forall i, j :: 0 <= i < j < |p.interrupts| ==> p.interrupts[i].signal != p.interrupts[j].signal)
    && (forall i, j :: 0 <= i < |p.services| && 0 <= j < |p.interrupts| ==> p.services[i].signal != p.interrupts[j].signal)
  }

  ghost predicate InterruptsDistinct(p: PartitionDesc, lines: seq<nat>) {
    && (forall j :: 0 <= j < |p.interrupts| ==> NameValid(p.interrupts[j].name) && p.interrupts[j].number in lines)
    && (forall i, j :: 0 <= i < j < |p.interrupts| ==>
          p.interrupts[i].number != p.interrupts[j].number && p.interrupts[i].name != p.interrupts[j].name)
  }

  /** The service and interrupt loops of wt_manifest_validate_partition. */
  method ValidateSignals(p: PartitionDesc, lines: seq<nat>) returns (code: int)
    ensures code in {VALID, ERROR_SIGNAL, ERROR_INTERRUPT}
    ensures code == VALID <==> SignalsDistinct(p) && InterruptsDistinct(p, lines)
    ensures code == ERROR_INTERRUPT <==>
              && (forall i :: 0 <= i < |p.services| ==> ServiceSignalOk(p, i))
              && exists j :: 0 <= j < |p.interrupts| && FirstLineFault(p, lines, j)
  {
    for j := 0 to |p.services|
      invariant forall i :: 0 <= i < j ==> ServiceSignalOk(p, i)
    {
      var used := SignalUsed(p, j, 0, p.services[j].signal);
      if (p.model == IpcModel && !SignalValid(p.services[j].signal)) ||
         (p.model == SfnModel && p.services[j].signal != {}) ||
         (p.services[j].signal != {} && used) {
        assert !ServiceSignalOk(p, j);
        BadService(p, j);
        return ERROR_SIGNAL;
      }
    }
    for j := 0 to |p.interrupts|
      invariant forall i :: 0 <= i < j ==> InterruptOk(p, lines, i)
    {
      code := ValidateInterrupt(p, lines, j);
      if code != VALID {
        BadInterrupt(p, lines, j);
        FirstFault(p, lines, j);
        return;
      }
    }
    GoodSignals(p, lines);
    forall j | 0 <= j < |p.interrupts| ensures !FirstLineFault(p, lines, j) {
      LineFaultIsBad(p, lines, j);
    }
    return VALID;
  }

  /** Interrupt j is the first bad one, and it is bad because of its line. */
  ghost predicate FirstLineFault(p: PartitionDesc, lines: seq<nat>, j: nat)
    requires j < |p.interrupts|
  {
    LineFault(p, lines, j) && forall i :: 0 <= i < j ==> InterruptOk(p, lines, i)
  }

  lemma LineFaultIsBad(p: PartitionDesc, lines: seq<nat>, j: nat)
    requires j < |p.interrupts|
    ensures LineFault(p, lines, j) ==> !InterruptOk(p, lines, j)
  {
  }

  lemma FirstFault(p: PartitionDesc, lines: seq<nat>, j: nat)
    requires j < |p.interrupts| && !InterruptOk(p, lines, j) && forall i :: 0 <= i < j ==> InterruptOk(p, lines, i)
    ensures (exists i :: 0 <= i < |p.interrupts| && FirstLineFault(p, lines, i)) <==> LineFault(p, lines, j)
  {
    if LineFault(p, lines, j) {
      assert FirstLineFault(p, lines, j);
    }
    forall i | 0 <= i < |p.interrupts| && FirstLineFault(p, lines, i) ensures i == j {
      LineFaultIsBad(p, lines, i);
    }
  }

  lemma BadService(p: PartitionDesc, j: nat)
    requires j < |p.services| && !ServiceSignalOk(p, j)
    ensures !SignalsDistinct(p)
  {
    var w := p.services[j].signal;
    if p.model == IpcModel && SignalValid(w) {
      var i :| 0 <= i < j && p.services[i].signal == w;
    }
  }

  lemma BadInterrupt(p: PartitionDesc, lines: seq<nat>, j: nat)
    requires j < |p.interrupts| && !InterruptOk(p, lines, j)
    ensures !(SignalsDistinct(p) && InterruptsDistinct(p, lines))
  {
  }

  lemma GoodSignals(p: PartitionDesc, lines: seq<nat>)
    requires forall i :: 0 <= i < |p.services| ==> ServiceSignalOk(p, i)
    requires forall i :: 0 <= i < |p.interrupts| ==> InterruptOk(p, lines, i)
    ensures SignalsDistinct(p) && InterruptsDistinct(p, lines)
  {
    forall j | 0 <= j < |p.services|
      ensures if p.model == IpcModel then SignalValid(p.services[j].signal) else p.services[j].signal == {}
      ensures p.model == IpcModel ==> forall i :: 0 <= i < j ==> p.services[i].signal != p.services[j].signal
    {
      assert ServiceSignalOk(p, j);
    }
    forall j | 0 <= j < |p.interrupts|
      ensures SignalValid(p.interrupts[j].signal) && NameValid(p.interrupts[j].name) && p.interrupts[j].number in lines
      ensures forall i :: 0 <= i < |p.services| ==> p.services[i].signal != p.interrupts[j].signal
      ensures forall i :: 0 <= i < j ==>
                && p.interrupts[i].signal != p.interrupts[j].signal
                && p.interrupts[i].number != p.interrupts[j].number && p.interrupts[i].name != p.interrupts[j].name
    {
      assert InterruptOk(p, lines, j);
    }
  }

  // ---------------------------------------------------------------- uniqueness across partitions

  ghost predicate PartitionsDistinct(ps: seq<PartitionDesc>) {
    forall i, j :: 0 <= j < i < |ps| ==> ps[i].name != ps[j].name && ps[i].id != ps[j].id
  }

  method ValidatePartitionUniqueness(ps: seq<PartitionDesc>) returns (code: int)
    ensures code in {VALID, ERROR_PARTITION_ID}
    ensures code == VALID <==> PartitionsDistinct(ps)
  {
    for i := 0 to |ps|
      invariant forall a, b :: 0 <= b < a < i ==> ps[a].name != ps[b].name && ps[a].id != ps[b].id
    {
      for j := 0 to i
        invariant forall b :: 0 <= b < j ==> ps[i].name != ps[b].name && ps[i].id != ps[b].id
      {
        if ps[i].name == ps[j].name || ps[i].id == ps[j].id {
          return ERROR_PARTITION_ID;
        }
      }
    }
    return VALID;
  }

  /** (a, x) names an earlier service of the manifest than (b, y). */
  predicate Earlier(a: nat, x: nat, b: nat, y: nat) {
    a < b || (a == b && x < y)
  }

  predicate Clash(first: ServiceDesc, second: ServiceDesc) {
    || first.sid == second.sid || first.name == second.name
    || (first.statelessIndex != 0 && first.statelessIndex == second.statelessIndex)
  }

  /** No service before (i, x) clashes with it. */
  ghost predicate Fresh(ps: seq<PartitionDesc>, i: nat, x: nat)
    requires i < |ps| && x < |ps[i].services|
  {
    forall j, y :: 0 <= j < |ps| && 0 <= y < |ps[j].services| && Earlier(j, y, i, x) ==>
      !Clash(ps[i].services[x], ps[j].services[y])
  }

  ghost predicate ServicesDistinct(ps: seq<PartitionDesc>) {
    forall i, x :: 0 <= i < |ps| && 0 <= x < |ps[i].services| ==> Fresh(ps, i, x)
  }

  method CheckService(ps: seq<PartitionDesc>, i: nat, x: nat) returns (code: int)
    requires i < |ps| && x < |ps[i].services|
    ensures code in {VALID, ERROR_SERVICE_ID, ERROR_STATELESS_HANDLE}
    ensures code == VALID <==> Fresh(ps, i, x)
  {
    var first := ps[i].services[x];
    for j := 0 to i + 1
      invariant forall a, y :: 0 <= a < j && 0 <= y < |ps[a].services| && Earlier(a, y, i, x) ==>
        !Clash(first, ps[a].services[y])
    {
      var limit := if j == i then x else |ps[j].services|;
      for y := 0 to limit
        invariant forall z :: 0 <= z < y ==> !Clash(first, ps[j].services[z])
      {
        var second := ps[j].services[y];
        assert Earlier(j, y, i, x);
        if first.sid == second.sid || first.name == second.name {
          assert Clash(first, second);
          return ERROR_SERVICE_ID;
        }
        if first.statelessIndex != 0 && first.statelessIndex == second.statelessIndex {
          assert Clash(first, second);
          return ERROR_STATELESS_HANDLE;
        }
      }
    }
    return VALID;
  }

  method ValidateServiceUniqueness(ps: seq<PartitionDesc>) returns (code: int)
    ensures code in {VALID, ERROR_SERVICE_ID, ERROR_STATELESS_HANDLE}
    ensures code == VALID <==> ServicesDistinct(ps)
  {
    for i := 0 to |ps|
      invariant forall a, x :: 0 <= a < i && 0 <= x < |ps[a].services| ==> Fresh(ps, a, x)
    {
      for x := 0 to |ps[i].services|
        invariant forall z :: 0 <= z < x ==> Fresh(ps, i, z)
      {
        code := CheckService(ps, i, x);
        if code != VALID {
          return code;
        }
      }
    }
    return VALID;
  }

  // ---------------------------------------------------------------- the runtime's configuration

  function ToService(s: ServiceDesc, p: nat): Ipc.Service {
    Ipc.Service(s.sid, s.version,
                match s.policy { case Strict => Ipc.Strict case Relaxed => Ipc.Relaxed case Unspecified => Ipc.Unspecified },
                s.signal, s.nonsecure, s.connectionBased, p)
  }

  /** The services of the first n partitions in manifest order. */
  function FlatServices(ps: seq<PartitionDesc>, n: nat): (r: seq<Ipc.Service>)
    requires n <= |ps|
    ensures forall s :: 0 <= s < |r| ==> r[s].partition < n
  {
    if n == 0 then []
    else FlatServices(ps, n - 1) +
         seq(|ps[n - 1].services|, j requires 0 <= j < |ps[n - 1].services| => ToService(ps[n - 1].services[j], n - 1))
  }

  function ToPartition(p: PartitionDesc): Ipc.Partition {
    Ipc.Partition(p.id, p.dependencies,
                  seq(|p.interrupts|, j requires 0 <= j < |p.interrupts| => Ipc.Irq(p.interrupts[j].number, p.interrupts[j].signal)))
  }

  function Configure(ps: seq<PartitionDesc>, perClient: nat, nonsecureLimit: nat, transferLimit: nat): Ipc.Config {
    Ipc.Config(FlatServices(ps, |ps|), seq(|ps|, i requires 0 <= i < |ps| => ToPartition(ps[i])),
               perClient, nonsecureLimit, transferLimit)
  }

  /** Where flattened service s comes from. */
  lemma {:induction false} FlatSource(ps: seq<PartitionDesc>, n: nat, s: nat) returns (j: nat)
    requires n <= |ps| && s < |FlatServices(ps, n)|
    ensures var p := FlatServices(ps, n)[s].partition;
            j < |ps[p].services| && FlatServices(ps, n)[s] == ToService(ps[p].services[j], p)
  {
    var prefix := FlatServices(ps, n - 1);
    if s < |prefix| {
      j := FlatSource(ps, n - 1, s);
    } else {
      j := s - |prefix|;
    }
  }

  /** Two flattened services of one partition are two services of it, in order. */
  lemma {:induction false} FlatPair(ps: seq<PartitionDesc>, n: nat, s: nat, t: nat) returns (i: nat, j: nat)
    requires n <= |ps| && s < t < |FlatServices(ps, n)|
    requires FlatServices(ps, n)[s].partition == FlatServices(ps, n)[t].partition
    ensures var p := FlatServices(ps, n)[s].partition;
            && i < j < |ps[p].services|
            && FlatServices(ps, n)[s] == ToService(ps[p].services[i], p)
            && FlatServices(ps, n)[t] == ToService(ps[p].services[j], p)
  {
    var prefix := FlatServices(ps, n - 1);
    if t < |prefix| {
      i, j := FlatPair(ps, n - 1, s, t);
    } else {
      i, j := s - |prefix|, t - |prefix|;
    }
  }

  lemma SingleDisjoint(a: Word, b: Word)
    requires |a| == 1 && |b| == 1 && a != b
    ensures a !! b
  {
    var x :| x in a;
    var y :| y in b;
    assert a == {x} by { assert |a - {x}| == 0; }
    assert b == {y} by { assert |b - {y}| == 0; }
  }

  /** An IPC-model manifest whose partitions passed the signal checks. */
  ghost predicate IpcManifest(ps: seq<PartitionDesc>) {
    forall i :: 0 <= i < |ps| ==> ps[i].id > 0 && ps[i].model == IpcModel && SignalsDistinct(ps[i])
  }

  lemma FlatSignal(ps: seq<PartitionDesc>, s: nat)
    requires IpcManifest(ps) && s < |FlatServices(ps, |ps|)|
    ensures SignalValid(FlatServices(ps, |ps|)[s].signal)
  {
    var j := FlatSource(ps, |ps|, s);
    assert SignalsDistinct(ps[FlatServices(ps, |ps|)[s].partition]);
  }

  lemma FlatSignals(ps: seq<PartitionDesc>, s: nat, t: nat)
    requires IpcManifest(ps) && s < t < |FlatServices(ps, |ps|)|
    requires FlatServices(ps, |ps|)[s].partition == FlatServices(ps, |ps|)[t].partition
    ensures FlatServices(ps, |ps|)[s].signal !! FlatServices(ps, |ps|)[t].signal
  {
    var p := FlatServices(ps, |ps|)[s].partition;
    var i, j := FlatPair(ps, |ps|, s, t);
    assert SignalsDistinct(ps[p]);
    SingleDisjoint(ps[p].services[i].signal, ps[p].services[j].signal);
  }

  lemma FlatIrq(ps: seq<PartitionDesc>, s: nat, k: nat)
    requires IpcManifest(ps) && s < |FlatServices(ps, |ps|)|
    requires k < |ps[FlatServices(ps, |ps|)[s].partition].interrupts|
    ensures FlatServices(ps, |ps|)[s].signal !! ps[FlatServices(ps, |ps|)[s].partition].interrupts[k].signal
  {
    var p := FlatServices(ps, |ps|)[s].partition;
    var j := FlatSource(ps, |ps|, s);
    assert SignalsDistinct(ps[p]);
    SingleDisjoint(ps[p].services[j].signal, ps[p].interrupts[k].signal);
  }

  /** A manifest that passes the checks gives the runtime a configuration it can rely on. */
  lemma ConfigureOk(ps: seq<PartitionDesc>, perClient: nat, nonsecureLimit: nat, transferLimit: nat)
    requires PartitionsDistinct(ps) && IpcManifest(ps)
    ensures Ipc.ConfigOk(Configure(ps, perClient, nonsecureLimit, transferLimit))
  {
    var c := Configure(ps, perClient, nonsecureLimit, transferLimit);
    forall s | 0 <= s < |c.services| ensures c.services[s].signal != {} && c.services[s].signal !! Ipc.DOORBELL {
      FlatSignal(ps, s);
    }
    forall s, t | 0 <= s < t < |c.services| && c.services[s].partition == c.services[t].partition
      ensures c.services[s].signal !! c.services[t].signal
    {
      FlatSignals(ps, s, t);
    }
    forall s, k | 0 <= s < |c.services| && 0 <= k < |c.partitions[c.services[s].partition].irqs|
      ensures c.services[s].signal !! c.partitions[c.services[s].partition].irqs[k].signal
    {
      FlatIrq(ps, s, k);
    }
    forall p | 0 <= p < |ps| ensures c.partitions[p].id > 0 && c.partitions[p].id == ps[p].id {}
  }
}
