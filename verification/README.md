# wolfTrust: a verified model

wolfTrust is a separation kernel for Armv8-M. This project models its decision-making core in Dafny and proves
what that core promises: the inter-process communication (IPC) runtime of the Arm PSA Firmware Framework for M 1.0,
the validation of manifests and protection domains it relies on, the firmware-update session, and the schedulers.

`dafny verify dfyconfig.toml` checks everything.

## What is modelled

**The IPC runtime** (`src/ffm.c`, `src/ipc.c`, `src/spm_gate.c`) is modelled twice.

- `IpcModel` is a state machine over values. Services have FIFO queues, a message carries the input bytes captured at
  call time and the output bytes written so far, and each operation is a function from state to state.
  `IpcRuns.Step` lists the 23 kinds of step that clients, servers, faults and the environment can take; a run is any
  finite interleaving of them. `IpcInvariant`, `IpcPreserve` and `IpcFaults` prove one inductive invariant;
  `IpcSafety`, `IpcRequests`, `IpcQuotas`, `IpcHistory`, `IpcTraces`, `IpcRestart`, `IpcSync` and `IpcTransfers`
  prove theorems about whole runs.
- `RuntimeStore.Runtime` is the runtime as it is stored: arrays of connections, messages, queue heads and partitions,
  updated in place, with intrusive links, three status bits per message and flat transfer buffers. Every method is
  proved to move the abstract state exactly as the state machine does, so the run theorems hold of the stored form.
  `RuntimeRep` and `Buffers` hold the representation and its small lemmas; `Gate` is the Secure Partition gate on top.

A synchronous connect, call or close is its first half, then any finite run of steps by the other parties (what the
dispatch executes), then its return with whatever code the dispatch reported. The first halves and the tails of the
synchronous operations are written out on their own (`Start...` and `Return...` in `RuntimeStore.Runtime`), and are
proved to agree with the split operations (`Begin...` and `Finish...`).

**Manifest and domains** (`src/manifest.c`, `src/domain.c`, `src/ffm_domain.c`): dependency elimination, signal,
service and symbol uniqueness, the domain-set validator and the partition tables. Each validator is the source's
scan, proved to accept exactly a declarative property; what acceptance means is then proved about walks in the
dependency graph, about strings, and about bytes of memory.

**Services and schedulers**: the firmware-update session with a log of backend operations, the coroutine run queue
(abstract and linked, with theorems about every event of a run: calls, switches and the ends of turns), the guest round-robin with first-dispatch re-measurement, the flash write-protection checks,
and the guest-RAM curtain of the STM32H563 port.

## Reading conventions

- A 32-bit mask (signals, capabilities, protection groups, curtain words) is the set of its bit numbers.
  `Words` defines the bitwise operators on numbers bit by bit and proves that setting, clearing, testing and the
  one-bit test on words are the set operations, and that the packed handle words are the sums of `Handles`.
- The access checks `check_read` and `check_write` are arbitrary sets of permitted accesses that may change between
  any two steps (`IpcModel.Env`, `DoEnvironment`).
- Results of the backend, of image measurements and of dispatches are arbitrary inputs.
- A client that began a request collects it before it acts again; `pending` records what it waits for. This is how
  the gate drives a partition, and a synchronous caller is pinned in its own call.
- The pool sizes, the transfer limit, the quotas and the numbers of partitions and services are parameters.

## Where the code and the wish differ

- A write-protection bitmap check on a window that runs past the end of the address space computes its last sector
  from a wrapped sum, and can accept a window that nothing protects. `GuestFlash.WrappedWindowAccepted` gives such a
  window and `GuestFlash.AcceptanceSoundExactly` says, for all windows, exactly when acceptance can be trusted.
- A preempted coroutine is runnable but in no queue, so no tick resumes it. `Coroutine.PlayKeepsQueued` shows that the
  preemption of a running coroutine is the one event that takes a runnable coroutine out of a tick's reach,
  `Coroutine.QueuedWithoutPreemption` that a run without one keeps every runnable coroutine queued, and
  `Coroutine.ParkedStays` that only a targeted run, a fault or a restart ever ends it.
- A synchronous close whose dispatch fails before its disconnect is active leaves its connection closing with no request.
  `IpcRequests.RefusedCloseOrphans` is such a run from boot. `IpcRequests.StepKeepsRequests` shows that this is the only
  step that leaves a busy connection without a request, `IpcRequests.BusyHasExactlyOne` that without it a busy
  connection has exactly one, and `IpcRequests.OrphanStays` which tear-downs, and no other step, end the orphan.
- A split call stores the lengths only of the output vectors its finish is handed; a synchronous call stores them all.
  `IpcSync.CallSplitIsSync` says exactly when the two report the same.

## Model

| member | source | states |
|---|---|---|
| Handles.RoundTrip | src/ffm.c:41-80 | a handle made for any slot and generation is a positive int32, decodes to exactly that slot and generation, and decodes as no other handle type |
| Handles.DecodeExact | src/ffm.c:54-80 | any word that decodes at all is the one handle made for the slot and generation it decodes to |
| Handles.Injective | src/ffm.c:41-52 | two equal handles have the same type, slot and generation |
| Handles.AfterClosedForm | src/ffm.c:35-39 | k releases move a generation k places round the cycle 1 .. 2^24 - 1, skipping 0 |
| Handles.GenerationCycle | src/ffm.c:35-39 | a generation recurs after k releases if and only if k is a multiple of 2^24 - 1 |
| Words.OperatorsByBit | src/ffm.c:317-331 | or, and, and clearing act on each bit of a word by itself |
| Words.SameBitsSameWord | src/ffm.c:317-331 | words with the same bits are the same word, so the sets lose nothing |
| Words.SignalUpdate | src/ffm.c:317-331 | setting or clearing a signal in the word is union or difference of the bit sets |
| Words.SignalTest | src/ffm.c:1396-1400 | masking a word with a signal is non-zero if and only if the bit sets meet |
| Words.SingleBit | src/manifest.c:219-225 | the one-bit test of the source holds exactly for words with one bit |
| Words.PackedIsMade | src/ffm.c:41-52 | the masked, shifted and combined fields are the handle, for every type and generation, and a positive 32-bit integer |
| Words.FieldsAreDecoded | src/ffm.c:64-75 | the masks and shifts of the decoder are the remainders and quotients of the model |
| Words.MaskedGeneration | src/ffm.c:35-39 | advancing a generation under its mask is advancing it modulo 2^24 |
| IpcPreserve.ConnectBeginInv | src/ffm.c:923-982 | beginning a connect, with every refusal and quota path, keeps the invariant |
| IpcPreserve.CallBeginInv | src/ffm.c:984-1046 | beginning a call, including malformed and busy calls and bad vectors, keeps the invariant |
| IpcPreserve.CloseBeginInv | src/ffm.c:1048-1089 | beginning a close, including one handed to an abandoned request, keeps the invariant |
| IpcPreserve.ConnectReturnInv | src/ffm.c:709-731 | returning from a connect dispatch with any code keeps the invariant: abandoned, withdrawn or finished |
| IpcPreserve.CallReturnInv | src/ffm.c:810-852 | the same for a call: a failed dispatch errors the connection and abandons or withdraws the request |
| IpcPreserve.CallTails | src/ffm.c:826-852 | the tail of a synchronous call and the finish of a split one reach the same state, status and bytes; the finish reports a prefix of the lengths |
| IpcPreserve.CloseReturnInv | src/ffm.c:908-920 | the same for a close |
| IpcPreserve.GetMsgInv | src/ffm.c:1513-1564 | delivering the head of a queue keeps the invariant |
| IpcPreserve.ReplyInv | src/ffm.c:1718-1768 | a reply, to a waiting or an abandoned request, keeps the invariant |
| IpcPreserve.AbandonedReplyInv | src/ffm.c:1689-1716 | cleaning up an answered abandoned request, by release or by slot reuse for a disconnect, keeps the invariant |
| IpcFaults.FailPartitionInv | src/ffm.c:1106-1184 | failing a partition keeps the invariant, completes or frees exactly its in-flight requests, empties exactly its queues and errors its connections |
| IpcFaults.FailClientInv | src/ffm.c:1193-1231 | failing a client keeps the invariant and frees exactly the slots that client owns |
| IpcFaults.RestartedInv | src/ffm.c:1233-1251 | a restart keeps the invariant; the partition's queues and signals are empty, each kept request it served is complete with the given status, other requests are untouched, it owns no connection or message, and its connections have no reverse handle |
| IpcRuns.StepInv | src/ffm.c:651-1768 | every step any party can take keeps the invariant |
| IpcRuns.RunInv | src/ffm.c:651-1768 | the invariant holds after every run |
| IpcRuns.InitInv | src/ffm.c:494-551 | the initial runtime satisfies the invariant |
| IpcSafety.OneRequestPerConnection | src/ffm.c:651-921 | in every reachable state a connection has at most one in-flight request, owned by the same caller and service; an idle connection has none, and a failed one only an abandoned active request |
| IpcRequests.StepKeepsRequests | src/ffm.c:651-1768 | every step keeps a request on every connection that is in the middle of one, except exactly the return of a failed close whose disconnect is not active while the connection is still closing or closed |
| IpcRequests.RunKeepsRequests | src/ffm.c:651-1768 | the same along every run without that step |
| IpcRequests.BusyHasExactlyOne | src/ffm.c:651-921 | from boot, in every state such a run reaches, a busy connection is named by exactly one allocated message |
| IpcRequests.RefusedCloseOrphans | src/ffm.c:900-920 | a run from boot that ends with a connection disconnecting for good and no message left to finish it |
| IpcRequests.OrphanStays | src/ffm.c:908-920 | an orphaned connection stays one under every step but the tear-down of its owner, or of its server while it is closing |
| IpcRequests.OrphanForever | src/ffm.c:908-920 | so it stays one through every run without such a tear-down |
| IpcRequests.OrphanRefuses | src/ffm.c:882-891 | its owner can neither call on it nor close it |
| IpcSafety.QueuesAreExact | src/ffm.c:317-374 | in every reachable state the queues hold exactly the undelivered requests, each once and at its own service, and a service's signal is asserted if and only if its queue is non-empty |
| IpcSafety.WaitsAlongDependency | src/ffm.c:133-163 | a partition has an in-flight request to another only along a declared dependency |
| IpcSafety.NoWaitCycle | src/manifest.c:787-841 | with an accepted manifest, no reachable state has partitions waiting on each other in a circle |
| IpcHistory.StepEvolves | src/ffm.c:195-235 | every step releases a connection slot with the next generation, or keeps its caller, service, instance and recorded errors; only set_rhandle sets a reverse handle |
| IpcHistory.StepMsgs | src/ffm.c:254-296 | every step releases a message slot, keeps its request and bytes (but for transfers), or fills a free one; a new call needs an idle connection |
| IpcTraces.GenerationsCount | src/ffm.c:195-265 | after any run a slot's generation is the old one advanced by the number of its releases |
| IpcTraces.StaleConnection | src/ffm.c:208-235 | after any run a connection handle whose slot was released is refused, unless the number of releases is a multiple of 2^24 - 1 |
| IpcTraces.StaleMessage | src/ffm.c:267-296 | the same for message handles |
| IpcTraces.ErrorIsAbsorbing | src/ffm.c:767-822 | once a programmer error is recorded, no run returns the connection to idle or places another call on it before its slot is released |
| IpcTraces.AbsorbedRefuses | src/ffm.c:767-784 | such a connection answers every further call with a programmer error and stays that way |
| IpcTraces.CallRecordsError | src/ffm.c:984-1039 | every call that reports a programmer error on an established connection, and every refused call, records it |
| IpcTraces.ReplyRecordsError | src/ffm.c:1745-1766 | a server answering a call with the programmer error status records it |
| IpcQuotas.QuotasHold | src/ffm.c:676-685 | in every reachable state no client owns more connections than its quota, and Non-secure clients together stay within theirs |
| IpcRestart.RestartForgetsRhandles | src/ffm.c:1161-1183 | after a restart, in any run, a message the partition gets carries no reverse handle or one it set itself since the restart |
| IpcSync.RunKeepsWait | src/spm_gate.c:259-358 | a begun request stays in its slot, unabandoned, through any run of the other parties |
| IpcSync.ConnectSplitIsSync | src/ffm.c:1262-1284 | when the request completes, connect_finish and the return of a synchronous connect give the same handle or status and the same state, and that handle is the one begin computed |
| IpcSync.CallSplitIsSync | src/ffm.c:1286-1323 | the same for call: same status, published bytes and state for every array the finish is handed; its lengths are those the array has room for, and they are all of them if and only if nothing is published or the array is present and as long as the one the call began with |
| IpcSync.CloseSplitIsSync | src/ffm.c:1325-1335 | the same for close |
| IpcTransfers.RunMoves | src/ffm.c:1601-1687 | along any run a request's vectors move by exactly the bytes its reads, skips and writes name, in order |
| IpcTransfers.PublishHere | src/ffm.c:843-850 | with disjoint destinations, publication leaves each output's own data at its address |
| IpcTransfers.PublishElsewhere | src/ffm.c:843-850 | publication changes no byte outside the destinations |
| IpcTransfers.CallTransfers | src/ffm.c:1286-1323 | one whole call: the server reads consecutive slices of the input as it was at the call; the finish refuses and changes no byte, or each separate destination receives exactly the concatenation of the writes, within its capacity, with the length of every vector the finish has room for |
| Vectors.ValidateList | src/ipc.c:190-212 | accepts exactly the lists whose ranges are addressable and whose sum does not overflow, and returns the sum |
| Vectors.ValidateVectors | src/ipc.c:214-243 | accepts exactly at most four vectors, all addressable, with a total within the limit |
| RuntimeRep.CutSpells | src/ffm.c:350-374 | splicing out any entry leaves links that spell the rest of the queue, with the right head and tail |
| RuntimeRep.PushSpells | src/ffm.c:333-345 | linking at the tail spells the queue with the message appended |
| RuntimeRep.PopSpells | src/ffm.c:1538-1543 | unlinking the head spells the rest of the queue |
| Buffers.LayInputs | src/ffm.c:448-455 | the captured input segments lie inside the buffer, do not overlap, and hold the client's bytes |
| Buffers.LayOutputs | src/ffm.c:456-461 | the output segments lie inside the buffer and do not overlap |
| Buffers.PrepareVectors | src/ffm.c:387-464 | reports exactly the specified error, policy before size, or captures and lays out every vector |
| Buffers.ReadAdvances | src/ffm.c:1618-1626 | reading a segment hands out the next bytes of its own vector and changes no other |
| Buffers.WriteAppends | src/ffm.c:1676-1685 | writing a segment appends to its own vector and changes no other segment's bytes |
| Buffers.PublishSegments | src/ffm.c:843-850 | the synchronous publication: every segment reaches its address and every length is reported |
| Buffers.PublishInto | src/ffm.c:1312-1320 | the publication of a finish: every segment reaches its address, and a length is stored exactly where the caller's array has room |
| RuntimeStore.Runtime.constructor | src/ffm.c:494-551 | the stored runtime starts in the initial state |
| RuntimeStore.Runtime.LinksAreExact | src/ffm.c:317-374 | in a valid runtime the links from a service's head spell an acyclic FIFO holding exactly its allocated, non-active, non-complete messages, and its signal says whether the head is set |
| RuntimeStore.Runtime.UpdateSignal | src/ffm.c:317-331 | the service's signal bits are set if and only if its head is |
| RuntimeStore.Runtime.Append | src/ffm.c:333-345 | the stored enqueue is the abstract one |
| RuntimeStore.Runtime.Splice | src/ffm.c:350-374 | the scan unlinks the message if it is queued and changes nothing otherwise |
| RuntimeStore.Runtime.Remove | src/ffm.c:350-374 | the stored dequeue is the abstract removal |
| RuntimeStore.Runtime.ReleaseMessage | src/ffm.c:254-265 | clears the slot and advances its generation |
| RuntimeStore.Runtime.ReleaseConnection | src/ffm.c:195-206 | clears the slot and advances its generation |
| RuntimeStore.Runtime.ConnectionFromHandle | src/ffm.c:208-235 | resolves a handle as specified: type, slot, generation, owner and client instance |
| RuntimeStore.Runtime.MessageFromHandle | src/ffm.c:267-296 | resolves a message handle for the serving partition only |
| RuntimeStore.Runtime.BeginConnect | src/ffm.c:923-982 | refines the abstract begin, result and state |
| RuntimeStore.Runtime.BeginCall | src/ffm.c:984-1046 | refines the abstract begin, result and state |
| RuntimeStore.Runtime.RefuseCall | src/ffm.c:855-871 | refines the abstract refusal |
| RuntimeStore.Runtime.CloseAbandoned | src/ffm.c:298-315 | hands the close to the first abandoned request of the connection, if there is one |
| RuntimeStore.Runtime.BeginClose | src/ffm.c:1048-1089 | refines the abstract begin, result and state |
| RuntimeStore.Runtime.FinishConnect | src/ffm.c:1262-1284 | refines the abstract finish |
| RuntimeStore.Runtime.FinishCall | src/ffm.c:1286-1323 | refines the abstract finish: two-phase publication, status, and lengths as far as the caller's array goes |
| RuntimeStore.Runtime.FinishClose | src/ffm.c:1325-1335 | refines the abstract finish |
| RuntimeStore.Runtime.Get | src/ffm.c:1513-1564 | refines the abstract delivery, with the message description it returns |
| RuntimeStore.Runtime.SetReverse | src/ffm.c:1566-1581 | refines set_rhandle |
| RuntimeStore.Runtime.Read | src/ffm.c:1601-1628 | refines the abstract read |
| RuntimeStore.Runtime.Skip | src/ffm.c:1630-1652 | moves the state as a read of the same length would and returns that length |
| RuntimeStore.Runtime.Write | src/ffm.c:1654-1687 | refines the abstract write, with all four error cases |
| RuntimeStore.Runtime.EndAbandoned | src/ffm.c:1689-1716 | refines the abstract cleanup of an abandoned request |
| RuntimeStore.Runtime.Answer | src/ffm.c:1718-1768 | refines the abstract reply |
| RuntimeStore.Runtime.FailServer | src/ffm.c:1106-1184 | the three loops refine the abstract partition failure and count the requests it ends |
| RuntimeStore.Runtime.FailCaller | src/ffm.c:1193-1231 | the two loops refine the abstract client failure and count the connections it frees |
| RuntimeStore.Runtime.RestartPartition | src/ffm.c:1233-1251 | refines the abstract restart and returns the number of requests it ended, or the policy error |
| RuntimeStore.Runtime.Ring | src/ffm.c:1376-1386 | refines notify |
| RuntimeStore.Runtime.Silence | src/ffm.c:1388-1402 | refines clear |
| RuntimeStore.Runtime.EndInterrupt | src/ffm.c:1404-1438 | refines eoi |
| RuntimeStore.Runtime.RaiseInterrupt | src/ffm.c:1440-1511 | refines assert_signal |
| RuntimeStore.Runtime.RunSteps | src/ffm.c:466-492 | any run of the state machine is carried out faithfully by the stored runtime |
| RuntimeStore.Runtime.StartConnect | src/ffm.c:664-708 | the first half of a synchronous connect, written on its own, does what connect_begin does |
| RuntimeStore.Runtime.StartCall | src/ffm.c:748-809 | the same for call |
| RuntimeStore.Runtime.StartClose | src/ffm.c:882-907 | the same for close |
| RuntimeStore.Runtime.ReturnConnect | src/ffm.c:709-731 | the tail of a synchronous connect refines the abstract return for every dispatch code |
| RuntimeStore.Runtime.ReturnCall | src/ffm.c:810-852 | the same for call, with its own revalidation and publication loops |
| RuntimeStore.Runtime.ReturnClose | src/ffm.c:908-920 | the same for close |
| RuntimeStore.Runtime.Connect | src/ffm.c:651-732 | a synchronous connect is its first half, the dispatched steps and the return; when the dispatch completes the request it equals the split form |
| RuntimeStore.Runtime.Call | src/ffm.c:734-853 | the same for call, whose split form is handed the array the call began with |
| RuntimeStore.Runtime.Close | src/ffm.c:873-921 | the same for close |
| Gate.HarvestIsOwnWait | src/spm_gate.c:41-50 | whatever message index a block supplies, one that passes the ownership and completion tests is the request that partition itself waits for |
| Gate.CheckBuffer | src/spm_gate.c:23-36 | accepts exactly the buffers inside one region of the caller's domain with the access asked for |
| Gate.CheckVectors | src/spm_gate.c:54-80 | accepts exactly the blocks whose vectors all lie in the caller's own memory |
| Gate.GateConnect | src/spm_gate.c:259-289 | begins, polls or harvests, resets every result field first and says what each field of the returned block is; leaves every other caller's messages, connections and waits untouched, and keeps block and runtime in agreement |
| Gate.GateCall | src/spm_gate.c:290-334 | the same; vectors outside the domain never reach the runtime, and a harvest stores in each output vector of the block the number of bytes written to it, as far as both lists go |
| Gate.GateClose | src/spm_gate.c:335-358 | the same for close |
| Dependencies.RankExcludesCycle | src/manifest.c:787-841 | a rank that falls along every edge rules out every cycle |
| Dependencies.StuckHasCycle | src/manifest.c:812-838 | when no remaining partition can be removed, a real cycle of dependencies exists |
| Dependencies.ValidateDependencies | src/manifest.c:787-841 | accepts if and only if every dependency names another partition's service and no cycle exists; acceptance yields a rank, each rejection its own reason |
| ManifestChecks.ValidateInterrupt | src/manifest.c:511-549 | accepts exactly the interrupts with a valid name and signal, a granted line, and no clash with an earlier one; an interrupt error exactly when the line is the first thing wrong, otherwise a signal error |
| ManifestChecks.ValidateSignals | src/manifest.c:551-583 | accepts exactly the partitions whose signals are distinct unreserved single bits; an interrupt error exactly when all services pass and the first bad interrupt is bad because of its line |
| ManifestChecks.ValidatePartitionUniqueness | src/manifest.c:616-634 | accepts exactly distinct names and ids |
| ManifestChecks.ValidateServiceUniqueness | src/manifest.c:664-706 | accepts exactly distinct service ids, names and stateless handles |
| ManifestChecks.ConfigureOk | src/ffm.c:494-551 | what validation accepts gives the runtime disjoint signals and distinct partition ids |
| Symbols.StringEqual | src/manifest.c:59-71 | true exactly for equal names within the length limit; longer strings are never equal |
| Symbols.NameEqualsGenerated | src/manifest.c:83-106 | decides whether a name is a base followed by a suffix |
| Symbols.GeneratedNamesEqual | src/manifest.c:108-142 | decides equality of two concatenations without building them |
| Symbols.DifferentSuffixes | src/manifest.c:144-217 | names with suffixes of which neither ends the other differ, whatever their bases |
| Symbols.KindsSuffixFree | src/manifest.c:156-179 | no generated service suffix ends another |
| Symbols.ServiceModelCollision | src/manifest.c:181-217 | finds exactly the collisions of a partition's model names with a service's symbols |
| Symbols.ClearMeansDistinct | src/manifest.c:708-785 | if no compared pair collides, the whole namespace is pairwise distinct, including the pairs never compared |
| Symbols.ValidateSymbols | src/manifest.c:708-785 | with unique partition and service names, accepts if and only if the whole generated namespace is pairwise distinct |
| Domains.ValidateEntryAndStack | src/domain.c:227-270 | accepts exactly the domains with an executable entry and a stack in private read-write memory |
| Domains.ValidateResources | src/domain.c:292-351 | accepts exactly well-formed, non-overlapping resources with distinct interrupts |
| Domains.ValidatePair | src/domain.c:378-432 | accepts exactly the pairs whose overlaps are identical declared sharing that isolation allows |
| Domains.ValidateSet | src/domain.c:434-518 | accepts exactly the sets that satisfy every per-domain and pairwise rule |
| Domains.OverlapIsCommonByte | src/domain.c:272-279 | the range test is the existence of a common byte |
| Domains.BytesAreUniform | src/domain.c:378-410 | in an accepted set all domains that map a byte grant identical attributes, so no byte is writable anywhere and executable anywhere |
| Domains.StacksArePrivate | src/domain.c:227-270 | no other domain maps any byte of a domain's stack |
| Domains.WritableSharing | src/domain.c:353-376 | at level 3 a Secure Partition shares writable memory with another partition or application only as a declared device |
| SecureDomains.ValidateFfmResources | src/manifest.c:254-293 | accepts exactly the manifests whose partitions share no device and no interrupt |
| SecureDomains.Resolve | src/ffm_domain.c:39-87 | the first descriptor with the id decides: its table if it is a Secure Partition that fits, otherwise its own error and an empty table |
| SecureDomains.Contains | src/ffm_domain.c:89-124 | true exactly when one region grants the whole access |
| SecureDomains.ContainedBytes | src/ffm_domain.c:89-124 | every byte of an accepted access lies in a region with the access asked for |
| SecureDomains.Excludes | src/ffm_domain.c:163-187 | true exactly when no region wraps and none reaches a byte of the range |
| SecureDomains.Isolated | src/ffm_domain.c:189-227 | decides isolation of two tables up to the shared windows |
| SecureDomains.IsolatedBytes | src/ffm_domain.c:189-227 | with no windows, isolation is that no byte one table can write is mapped by the other |
| SecureDomains.PartitionsIsolated | src/ffm_domain.c:39-87 | in an accepted level 3 manifest any two resolved Secure Partition tables are isolated with no shared window |
| SecureDomains.ResolutionFinds | src/ffm_domain.c:26-37 | with unique ids the lookup finds the domain itself |
| SecureDomains.Compose | src/ffm_domain.c:229-259 | the shared regions then the partition's own, or an empty table when they do not fit |
| SecureDomains.ComposeKeepsIsolation | src/ffm_domain.c:229-259 | composing isolated tables with read-only regions nobody writes keeps them isolated |
| Fwu.RunOk | src/services/fwu_service.c:425-541 | in every run of requests: armed if and only if staged, if and only if the backend's trigger is set; a session is open if and only if it has an owner; every arming was of an admissible image |
| Fwu.FreshSessionSafe | src/services/fwu_service.c:206-231 | from a fresh session, every arming in the history has a declared version at or above the floor that equals the verified header version, with no write or begin since that verification |
| Fwu.OnlyOwner | src/services/fwu_service.c:394-405 | a stranger's request changes nothing in an open session whose owner is not idle past the timeout |
| Fwu.StrangersWait | src/services/fwu_service.c:462-472 | the same for any run of strangers' requests |
| Fwu.ReclaimResets | src/services/fwu_service.c:409-423 | an expired session is reset before the request is admitted, or kept whole when its trigger cannot be cleared |
| Fwu.WritesLandInside | src/services/fwu_service.c:82-157 | every backend write is aligned, in whole granules and inside the partition |
| Fwu.WritesSpellBlock | src/services/fwu_service.c:113-144 | the backend receives the block followed by 0xFF up to the next granule, at consecutive offsets |
| Fwu.UpdateService.DoStart | src/services/fwu_service.c:54-80 | refines the abstract start |
| Fwu.UpdateService.DoWrite | src/services/fwu_service.c:82-157 | refines the abstract write |
| Fwu.UpdateService.DoFinish | src/services/fwu_service.c:159-204 | refines the abstract finish |
| Fwu.UpdateService.DoInstall | src/services/fwu_service.c:206-231 | refines the abstract install |
| Fwu.UpdateService.DoCancel | src/services/fwu_service.c:233-248 | refines the abstract cancel |
| Fwu.UpdateService.DoClean | src/services/fwu_service.c:250-272 | refines the abstract clean |
| Fwu.UpdateService.DoReject | src/services/fwu_service.c:274-292 | refines the abstract reject |
| Fwu.UpdateService.Reclaim | src/services/fwu_service.c:409-423 | refines the abstract reset |
| Fwu.UpdateService.Call | src/services/fwu_service.c:425-541 | one request refines the abstract one and keeps the session invariant; exactly a successful query reports, and it reports the state, error, active version, capacity and staged size as they then are |
| Coroutine.InitOk | src/sched/coroutine.c:179-216 | the initial table satisfies the scheduler invariant, with no coroutine runnable |
| Coroutine.RunOk | src/sched/coroutine.c:66-173 | in every run the queue has no duplicates and holds only runnable coroutines, and only the current one runs |
| Coroutine.RunTakes | src/sched/coroutine.c:127-140 | a run is its trace of calls, switches and turn ends: the same final state, and every switch legal where it happens |
| Coroutine.FaultedStaysDown | src/sched/coroutine.c:352-396 | through any run without its restart a faulted coroutine stays faulted, and no switch of the run, between steps or inside a tick, enters it |
| Coroutine.DeadIsUnreachable | src/sched/coroutine.c:328-350 | a faulted coroutine is neither queued nor current, and wake and run leave it alone |
| Coroutine.ReinitReusesSlot | src/sched/coroutine.c:398-432 | a restart takes no new slot, detaches the coroutine and parks it blocked |
| Coroutine.WakeLatches | src/sched/coroutine.c:337-343 | a wake of an active coroutine, queued, parked or running, is latched and changes nothing else |
| Coroutine.PlayKeepsLatch | src/sched/coroutine.c:328-350 | a pending wake is cleared by a restart, or by a further wake once the coroutine has blocked, and by no other event |
| Coroutine.LatchOutlivesRun | src/sched/coroutine.c:313-350 | a pending wake outlives every run in which neither happens, through any number of turns, preemptions and blocks |
| Coroutine.WakeOutlivesBlock | src/sched/coroutine.c:337-343 | a wake that lands anywhere in a run while the coroutine is active is still pending at the end if nothing consumed it, in particular when the coroutine has blocked since |
| Coroutine.PlayKeepsQueued | src/sched/coroutine.c:507-522 | every event keeps all runnable coroutines queued except exactly the preemption of the running one, which leaves it runnable outside the queue |
| Coroutine.QueuedWithoutPreemption | src/sched/coroutine.c:477-505 | a run without a preemption keeps every runnable coroutine within a tick's reach |
| Coroutine.PlayKeepsParked | src/sched/coroutine.c:455-475 | a parked coroutine leaves its place only by a targeted run, a fault or a restart; a wake does not queue it |
| Coroutine.ParkedStays | src/sched/coroutine.c:455-505 | through any run without those it stays parked and no tick enters it |
| CoroutineTable.CutSpells | src/sched/coroutine.c:142-173 | unlinking any entry leaves an acyclic list with the right tail |
| CoroutineTable.RunTable.constructor | src/sched/coroutine.c:179-216 | the table starts empty |
| CoroutineTable.RunTable.Enqueue | src/sched/coroutine.c:66-85 | appends to the represented queue |
| CoroutineTable.RunTable.Dequeue | src/sched/coroutine.c:87-107 | removes the head of the represented queue |
| CoroutineTable.RunTable.Unlink | src/sched/coroutine.c:142-173 | removes the coroutine from the represented queue if it is there, re-finding the tail |
| CoroutineTable.RunTable.CreateSlot | src/sched/coroutine.c:218-278 | refines the abstract create; no handle for a bad entry, stack, size, alignment or privilege, or when the table is full |
| CoroutineTable.RunTable.WakeCo | src/sched/coroutine.c:328-350 | refines the abstract wake; a bad pointer panics |
| CoroutineTable.RunTable.FaultCo | src/sched/coroutine.c:352-396 | refines the abstract fault |
| CoroutineTable.RunTable.RestartCo | src/sched/coroutine.c:398-432 | refines the abstract restart |
| CoroutineTable.RunTable.EndTurn | src/sched/coroutine.c:313-326 | block, preempt or fault refine the end of a turn |
| CoroutineTable.RunTable.SwitchTo | src/sched/coroutine.c:127-140 | one whole turn refines the abstract one |
| CoroutineTable.RunTable.RunCo | src/sched/coroutine.c:455-475 | refines the targeted run and says when it switched and when it panics |
| CoroutineTable.RunTable.TickAll | src/sched/coroutine.c:477-505 | refines the tick: at most budget switches, fewer only when the queue is empty |
| CoroutineTable.RunTable.RunSteps | src/sched/coroutine.c:313-522 | any run of the scheduler is carried out faithfully by the stored table |
| GuestFlash.Walk | src/guest_verify.c:159-179 | the greedy cursor decides whether every byte is covered, in at most as many rounds as descriptors |
| GuestFlash.FradCovers | src/guest_verify.c:129-186 | OK if and only if the window is real, every byte lies in a valid, locked, write-denying descriptor and no valid descriptor reaching into it grants writes |
| GuestFlash.OpensIsByte | src/guest_verify.c:148-156 | for start <= end, a descriptor reaches into the window exactly when they share a byte |
| GuestFlash.WrpCovers | src/guest_verify.c:85-121 | OK exactly when every group from the first to the computed last is mapped and protected |
| GuestFlash.GroupsAreBytes | src/guest_verify.c:85-121 | for a window that does not wrap, the group scan speaks for every byte |
| GuestFlash.AcceptanceSoundExactly | src/guest_verify.c:85-121 | acceptance can be trusted for every bitmap if and only if the window does not wrap, or wraps past the group map |
| GuestFlash.WrappedWindowAccepted | src/guest_verify.c:102-118 | a wrapped window that is accepted with every group writable |
| Curtain.Fabric.CloseAll | port/stm32h563/platform_stm32h563.c:442-451 | every block of the extent becomes Secure and no other register changes |
| Curtain.Fabric.OpenWindow | port/stm32h563/platform_stm32h563.c:453-462 | exactly the window's blocks are opened |
| Curtain.Fabric.ApplyWindows | src/fabric_windows.c:24-53 | after programming, a block is Non-secure if and only if it meets an accepted writable window |
| Curtain.OpenedIsMet | port/stm32h563/platform_stm32h563.c:453-462 | the block arithmetic opens exactly the blocks that share a byte with the window |
| Curtain.MetIsOwned | port/stm32h563/partitions.c:387-398 | an aligned window owns every block it meets |
| Curtain.PeerBytesStayClosed | port/stm32h563/partitions.c:387-398 | with aligned windows and an accepted domain set, a peer's byte is open only where both declare the identical shared resource |
| Curtain.PeerStackStaysClosed | src/domain.c:227-270 | no byte of a peer's stack is ever open |
| Monitor.FirstFrom | src/monitor.c:133-170 | the scan finds the first runnable guest in cyclic order, or that there is none |
| Monitor.DecideIsFirst | src/monitor.c:457-499 | a decision dispatches the first launchable guest after the current one, past guests that fail their measurement |
| Monitor.DecideChanges | src/monitor.c:316-351 | besides the dispatched guest, only guests whose first measurement failed change, and they become faulted |
| Monitor.DecideStops | src/monitor.c:444-499 | a decision dispatches if and only if some guest is launchable, and halts if and only if every guest has ended faulted or stopped |
| Monitor.DispatchedWasMeasured | src/monitor.c:316-351 | whichever guest a dispatch ends with, it has passed its first measurement, now or before |
| Monitor.RoundRobin | src/monitor.c:457-499 | among any n consecutive dispatches of n guests, a guest that stays launchable is dispatched |
| Monitor.BackoffIsExact | src/monitor.c:251-276 | a restarting guest waits out exactly its delay, and the measurement then decides its state |
| Monitor.Scheduler.FindNextRunnable | src/monitor.c:133-170 | the loop computes the cyclic scan and delivers the latched wake of the tasklet it settles on |
| Monitor.Scheduler.ScheduleNext | src/monitor.c:457-499 | refines the decision, telling waiting from the final halt; its recursion through dispatch ends because every re-entry clears a first-dispatch bit |
| Monitor.Scheduler.DispatchGuest | src/monitor.c:316-351 | the same from any chosen guest |
| Monitor.Scheduler.Start | src/monitor.c:587-598 | the boot dispatch scans from the first guest and halts if there is none |
| Monitor.Scheduler.TickBackoff | src/monitor.c:251-276 | one back-off tick for every guest |

## Left out

- Concurrency of clients: a partition that forges a second begin while one is outstanding is outside the model; each client has at most one outstanding request.
- RuntimeStore.Runtime.Connect: the dispatched steps are a finite run given in advance, none of them taken by the pinned caller and none of them a failure or restart of that caller itself; the dispatch callback is not modelled.
- IpcSync.RunKeepsWait: likewise, a failure or restart of the waiting client during its own wait is not among the steps of the other parties; it ends the wait (`IpcFaults.FailClientInv`).
- RuntimeStore.Runtime.Skip: skips by way of a read whose bytes are dropped.
- The allocated flag of a connection is merged with the FREE state, which agree except inside an allocation.
- The byte buffers and vector tables of a message are sequence fields of its record, not separate arrays.
- wt_ffm_wait, wt_ffm_service_version, wt_ffm_framework_version, wt_ffm_irq_route and lifecycle queries: they read without changing state.
- The gate's operations other than CONNECT, CALL and CLOSE: one call into the runtime each.
- The separate connection transition table of src/ipc.c: the runtime uses its own transitions.
- Coroutine.Known: a pointer to a table slot that no create call returned is treated as a bad pointer; the source's pointer check would let it through, but no caller holds one.
- Stack canaries, saved contexts, MPU and SAU programming, and the exception-level switch behind wt_co_arch_enter, which is modelled as a turn of scheduler calls that ends by block, preemption or fault.
- Fwu.UpdateService.Call: the reads that fetch a request and the write that returns a query are one success flag each.
- Launch verification, hashing and attestation: their verdicts are inputs.
- Monitor.Scheduler.ScheduleNext: one pass of the waiting loop; the interrupt it waits for and the handler-mode detours are not modelled.
- The manifest header, feature and per-service field checks, and domain coverage: independent one-line conditions.
- Register, clock, flash-controller and debug code of the ports.
