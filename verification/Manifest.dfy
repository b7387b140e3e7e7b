/** The parts of a system manifest that the validators and the IPC runtime read. */
module Manifest {
  import opened Bits
  import opened Handles

  datatype VersionPolicy = Strict | Relaxed | Unspecified
  datatype PartitionModel = IpcModel | SfnModel

  datatype ServiceDesc = ServiceDesc(name: string, sid: nat, version: nat, policy: VersionPolicy, signal: Word,
                                     statelessIndex: nat, nonsecure: bool, connectionBased: bool)

  datatype InterruptDesc = InterruptDesc(name: string, number: nat, signal: Word)

  datatype PartitionDesc = PartitionDesc(name: string, id: nat, version11: bool, model: PartitionModel,
                                         services: seq<ServiceDesc>, dependencies: seq<nat>,
                                         interrupts: seq<InterruptDesc>)

  const MAX_PARTITIONS: nat := 32
  const NAME_MAX: nat := 63

  const VALID: int := 0
  const ERROR_PARTITION_ID: int := -108
  const ERROR_SERVICE_ID: int := -113
  const ERROR_SIGNAL: int := -115
  const ERROR_STATELESS_HANDLE: int := -116
  const ERROR_DEPENDENCY: int := -117
  const ERROR_DEPENDENCY_CYCLE: int := -118
  const ERROR_INTERRUPT: int := -119
  const ERROR_SYMBOL: int := -121

  predicate Provides(p: PartitionDesc, sid: nat) {
    exists j :: 0 <= j < |p.services| && p.services[j].sid == sid
  }

  /** The first partition from i on that provides sid. */
  function OwnerFrom(ps: seq<PartitionDesc>, sid: nat, i: nat): (r: Option<nat>)
    requires i <= |ps|
    ensures r.Some? ==> i <= r.value < |ps| && Provides(ps[r.value], sid)
    ensures r.Some? ==> forall k :: i <= k < r.value ==> !Provides(ps[k], sid)
    ensures r.None? ==> forall k :: i <= k < |ps| ==> !Provides(ps[k], sid)
    decreases |ps| - i
  {
    if i == |ps| then None else if Provides(ps[i], sid) then Some(i) else OwnerFrom(ps, sid, i + 1)
  }

  function Owner(ps: seq<PartitionDesc>, sid: nat): Option<nat> {
    OwnerFrom(ps, sid, 0)
  }
}
