/**
  The FF-M IPC runtime as a state machine over values.  Each service has an
  abstract FIFO queue, a message carries the input bytes captured at call time and
  the output bytes written so far, and every operation is a function from state to
  state.  The class Runtime works on arrays, links and flat buffers, and refines it.
  */
module IpcModel {
  import opened Bits
  import opened Handles

  type Byte = b: int | 0 <= b < 256

  const ADDRESS_MAX: nat := 0xFFFF_FFFF
  const MAX_IOVEC: nat := 4
  const IPC_CONNECT: int := -1
  const IPC_DISCONNECT: int := -2
  const DOORBELL: Word := {3}

  const SUCCESS: int := 0
  const PROGRAMMER_ERROR: int := -129
  const CONNECTION_REFUSED: int := -130
  const CONNECTION_BUSY: int := -131
  const GENERIC_ERROR: int := -132
  const NOT_SUPPORTED: int := -134
  const INVALID_ARGUMENT: int := -135
  const DOES_NOT_EXIST: int := -140
  const INSUFFICIENT_MEMORY: int := -141

  const FFM_ARGUMENT: int := -600
  const FFM_POLICY: int := -602
  const FFM_RESOURCE: int := -603
  const FFM_HANDLE: int := -604
  const FFM_STATE: int := -605
  const FFM_NOT_READY: int := -606
  const FFM_BUFFER: int := -607

  // ---------------------------------------------------------------- configuration

  datatype VersionPolicy = Strict | Relaxed | Unspecified

  datatype Service = Service(sid: nat, version: nat, policy: VersionPolicy, signal: Word,
                             nonsecure: bool, connectionBased: bool, partition: nat)

  datatype Irq = Irq(number: nat, signal: Word)

  datatype Partition = Partition(id: int, dependencies: seq<nat>, irqs: seq<Irq>)

  datatype Config = Config(services: seq<Service>, partitions: seq<Partition>,
                           perClient: nat, nonsecureLimit: nat, transferLimit: nat)

  function PartitionFrom(ps: seq<Partition>, id: int, i: nat): (r: Option<nat>)
    requires i <= |ps|
    ensures r.Some? ==> i <= r.value < |ps| && ps[r.value].id == id
    ensures r.None? ==> forall k :: i <= k < |ps| ==> ps[k].id != id
    decreases |ps| - i
  {
    if i == |ps| then None
    else if ps[i].id == id then Some(i)
    else PartitionFrom(ps, id, i + 1)
  }

  function FindPartition(c: Config, id: int): Option<nat> {
    if id <= 0 then None else PartitionFrom(c.partitions, id, 0)
  }

  function ServiceFrom(ss: seq<Service>, sid: nat, i: nat): (r: Option<nat>)
    requires i <= |ss|
    ensures r.Some? ==> i <= r.value < |ss| && ss[r.value].sid == sid
    ensures r.None? ==> forall k :: i <= k < |ss| ==> ss[k].sid != sid
    decreases |ss| - i
  {
    if i == |ss| then None
    else if ss[i].sid == sid then Some(i)
    else ServiceFrom(ss, sid, i + 1)
  }

  function FindService(c: Config, sid: nat): Option<nat> {
    if sid == 0 then None else ServiceFrom(c.services, sid, 0)
  }

  function SignalFrom(ss: seq<Service>, p: nat, signal: Word, i: nat): (r: Option<nat>)
    requires i <= |ss|
    ensures r.Some? ==> i <= r.value < |ss| && ss[r.value].partition == p && ss[r.value].signal == signal
    ensures r.None? ==> forall k :: i <= k < |ss| ==> !(ss[k].partition == p && ss[k].signal == signal)
    decreases |ss| - i
  {
    if i == |ss| then None
    else if ss[i].partition == p && ss[i].signal == signal then Some(i)
    else SignalFrom(ss, p, signal, i + 1)
  }

  predicate VersionAllowed(s: Service, requested: nat) {
    requested != 0 &&
    match s.policy
    case Unspecified => true
    case Strict => requested == s.version
    case Relaxed => requested <= s.version
  }

  /** A Non-secure caller needs the service opened to it; a partition needs a declared dependency. */
  predicate CallerAllowed(c: Config, caller: int, s: nat)
    requires s < |c.services|
  {
    if caller == 0 then false
    else if caller < 0 then c.services[s].nonsecure
    else
      match FindPartition(c, caller)
      case None => false
      case Some(i) => i != c.services[s].partition && c.services[s].sid in c.partitions[i].dependencies
  }

  /** The partition id that serves s. */
  function ServerId(c: Config, s: nat): int
    requires s < |c.services| && c.services[s].partition < |c.partitions|
  {
    c.partitions[c.services[s].partition].id
  }

  /** What the runtime relies on in a validated manifest. */
  ghost predicate ConfigOk(c: Config) {
    && (forall s :: 0 <= s < |c.services| ==> c.services[s].partition < |c.partitions|)
    && (forall s :: 0 <= s < |c.services| ==> c.services[s].signal != {} && c.services[s].signal !! DOORBELL)
    && (forall s, t :: 0 <= s < t < |c.services| && c.services[s].partition == c.services[t].partition
          ==> c.services[s].signal !! c.services[t].signal)
    && (forall s, k :: 0 <= s < |c.services| && 0 <= k < |c.partitions[c.services[s].partition].irqs|
          ==> c.services[s].signal !! c.partitions[c.services[s].partition].irqs[k].signal)
    && (forall p :: 0 <= p < |c.partitions| ==> c.partitions[p].id > 0)
    && (forall p, q :: 0 <= p < q < |c.partitions| ==> c.partitions[p].id != c.partitions[q].id)
  }

  // ---------------------------------------------------------------- state

  datatype ConnState =
    Free | PendingConnect | Connecting | Idle | PendingRequest | Active | Disconnecting | Error | Terminal

  datatype Conn = Conn(state: ConnState, caller: int, gen: nat, instance: nat, rhandle: nat,
                       service: nat, latch: bool)

  datatype Phase = Unused | Queued | Delivered | Complete

  datatype Abandon = Kept | AwaitReply | AwaitClose

  /** Captured input, split at the server's read position. */
  datatype InVec = InVec(seen: seq<Byte>, rest: seq<Byte>)
  datatype OutVec = OutVec(base: nat, capacity: nat, data: seq<Byte>)

  datatype Msg = Msg(phase: Phase, caller: int, status: int, gen: nat, conn: nat, service: nat, kind: int,
                     ins: seq<InVec>, outs: seq<OutVec>, abandon: Abandon)

  datatype Access = Access(caller: int, base: nat, len: nat)

  /** Client memory and what the port currently lets each caller read and write. */
  datatype Env = Env(memory: map<nat, Byte>, readable: set<Access>, writable: set<Access>)

  /** The request a client waits for, and the handle a connect will hand out. */
  datatype Pend = Pend(msg: nat, handle: int)

  datatype Ipc = Ipc(conns: seq<Conn>, msgs: seq<Msg>, queues: seq<seq<nat>>, signals: seq<Word>,
                     instances: seq<nat>, env: Env, pending: map<int, Pend>)

  function FreeConn(gen: nat): Conn {
    Conn(Free, 0, gen, 0, 0, 0, false)
  }

  function FreeMsg(gen: nat): Msg {
    Msg(Unused, 0, 0, gen, 0, 0, 0, [], [], Kept)
  }

  predicate InFlight(m: Msg) {
    m.phase == Queued || m.phase == Delivered
  }

  function InitState(c: Config, connSlots: nat, msgSlots: nat, env: Env): Ipc {
    Ipc(seq(connSlots, _ => FreeConn(1)), seq(msgSlots, _ => FreeMsg(1)), seq(|c.services|, _ => []),
        seq(|c.partitions|, _ => {}), seq(|c.partitions|, _ => 0), env, map[])
  }

  /** Table sizes and index ranges: what every operation needs to be well defined. */
  ghost predicate Shape(c: Config, st: Ipc) {
    && ConfigOk(c)
    && 0 < |st.conns| <= MAX_SLOTS
    && 0 < |st.msgs| <= MAX_SLOTS
    && |st.queues| == |c.services|
    && |st.signals| == |c.partitions|
    && |st.instances| == |c.partitions|
    && (forall k :: 0 <= k < |st.conns| ==>
          && Generation(st.conns[k].gen)
          && (st.conns[k].service < |c.services| || (|c.services| == 0 && st.conns[k].state == Free)))
    && (forall i :: 0 <= i < |st.msgs| ==>
          && Generation(st.msgs[i].gen)
          && (st.msgs[i].phase != Unused ==> st.msgs[i].conn < |st.conns| && st.msgs[i].service < |c.services|))
  }

  /** Every occupied message slot names an occupied connection slot. */
  ghost predicate Linked(st: Ipc) {
    forall i :: 0 <= i < |st.msgs| && st.msgs[i].phase != Unused ==>
      st.msgs[i].conn < |st.conns| && st.conns[st.msgs[i].conn].state != Free
  }

  // ---------------------------------------------------------------- pools, queues, signals

  function FreeConnFrom(cs: seq<Conn>, i: nat): (r: nat)
    requires i <= |cs|
    ensures i <= r <= |cs|
    ensures r < |cs| ==> cs[r].state == Free
    ensures forall k :: i <= k < r ==> cs[k].state != Free
    decreases |cs| - i
  {
    if i == |cs| || cs[i].state == Free then i else FreeConnFrom(cs, i + 1)
  }

  function FreeMsgFrom(ms: seq<Msg>, i: nat): (r: nat)
    requires i <= |ms|
    ensures i <= r <= |ms|
    ensures r < |ms| ==> ms[r].phase == Unused
    ensures forall k :: i <= k < r ==> ms[k].phase != Unused
    decreases |ms| - i
  {
    if i == |ms| || ms[i].phase == Unused then i else FreeMsgFrom(ms, i + 1)
  }

  function ClientCount(cs: seq<Conn>, caller: int): nat {
    if |cs| == 0 then 0
    else ClientCount(cs[..|cs| - 1], caller) +
         if cs[|cs| - 1].state != Free && cs[|cs| - 1].caller == caller then 1 else 0
  }

  function NonsecureCount(cs: seq<Conn>): nat {
    if |cs| == 0 then 0
    else NonsecureCount(cs[..|cs| - 1]) +
         if cs[|cs| - 1].state != Free && cs[|cs| - 1].caller < 0 then 1 else 0
  }

  /** The running instance of a partition caller; a Non-secure caller has none. */
  function CallerInstance(c: Config, st: Ipc, caller: int): nat
    requires |st.instances| == |c.partitions|
  {
    match FindPartition(c, caller)
    case None => 0
    case Some(i) => st.instances[i]
  }

  function SetConn(st: Ipc, k: nat, v: Conn): Ipc
    requires k < |st.conns|
  {
    st.(conns := st.conns[k := v])
  }

  function SetMsg(st: Ipc, i: nat, v: Msg): Ipc
    requires i < |st.msgs|
  {
    st.(msgs := st.msgs[i := v])
  }

  function ReleaseConn(st: Ipc, k: nat): Ipc
    requires k < |st.conns|
  {
    SetConn(st, k, FreeConn(NextGeneration(st.conns[k].gen)))
  }

  function ReleaseMsg(st: Ipc, i: nat): Ipc
    requires i < |st.msgs|
  {
    SetMsg(st, i, FreeMsg(NextGeneration(st.msgs[i].gen)))
  }

  function Unpend(st: Ipc, caller: int): Ipc {
    st.(pending := st.pending - {caller})
  }

  /** Replaces the queue of service s and refreshes its signal bit. */
  function SetQueue(c: Config, st: Ipc, s: nat, q: seq<nat>): Ipc
    requires s < |c.services| == |st.queues|
    requires c.services[s].partition < |st.signals|
  {
    var p := c.services[s].partition;
    st.(queues := st.queues[s := q],
        signals := st.signals[p := Assign(st.signals[p], c.services[s].signal, q != [])])
  }

  function Enqueue(c: Config, st: Ipc, s: nat, i: nat): Ipc
    requires s < |c.services| == |st.queues|
    requires c.services[s].partition < |st.signals|
  {
    SetQueue(c, st, s, st.queues[s] + [i])
  }

  function Without(q: seq<nat>, x: nat): seq<nat> {
    if q == [] then [] else if q[0] == x then q[1..] else [q[0]] + Without(q[1..], x)
  }

  function Unqueue(c: Config, st: Ipc, s: nat, i: nat): Ipc
    requires s < |c.services| == |st.queues|
    requires c.services[s].partition < |st.signals|
  {
    SetQueue(c, st, s, Without(st.queues[s], i))
  }

  // ---------------------------------------------------------------- handles

  datatype Found = Found(index: nat) | Refused(error: int)

  function ResolveConn(c: Config, st: Ipc, caller: int, handle: int): (r: Found)
    requires |st.instances| == |c.partitions|
    ensures r.Found? ==> r.index < |st.conns| && st.conns[r.index].state != Free && st.conns[r.index].caller == caller
  {
    match Decode(handle, CONNECTION, |st.conns|)
    case None => Refused(FFM_HANDLE)
    case Some(slot) =>
      var conn := st.conns[slot.index];
      if conn.state == Free || conn.gen != slot.gen then Refused(FFM_HANDLE)
      else if conn.caller != caller then Refused(FFM_POLICY)
      else if conn.instance != CallerInstance(c, st, caller) then Refused(FFM_HANDLE)
      else Found(slot.index)
  }

  function ResolveMsg(c: Config, st: Ipc, pid: int, handle: int): (r: Found)
    requires Shape(c, st)
    ensures r.Found? ==>
      && r.index < |st.msgs| && st.msgs[r.index].phase == Delivered
      && ServerId(c, st.msgs[r.index].service) == pid
  {
    match Decode(handle, MESSAGE, |st.msgs|)
    case None => Refused(FFM_HANDLE)
    case Some(slot) =>
      var m := st.msgs[slot.index];
      if m.phase != Delivered || m.gen != slot.gen then Refused(FFM_HANDLE)
      else if ServerId(c, m.service) != pid then Refused(FFM_POLICY)
      else Found(slot.index)
  }

  // ---------------------------------------------------------------- client: begin

  /** State, returned code, and the message a successful begin queued. */
  datatype ClientRes = ClientRes(st: Ipc, ret: int, msg: Option<nat>)

  /** A new request of caller on connection k, queued at the connection's service. */
  function Submit(c: Config, st: Ipc, k: nat, i: nat, caller: int, kind: int,
                  ins: seq<InVec>, outs: seq<OutVec>, state: ConnState, handle: int): Ipc
    requires Shape(c, st) && k < |st.conns| && i < |st.msgs| && st.conns[k].state != Free
  {
    var s := st.conns[k].service;
    var st1 := SetConn(st, k, st.conns[k].(state := state));
    var st2 := SetMsg(st1, i, Msg(Queued, caller, 0, st.msgs[i].gen, k, s, kind, ins, outs, Kept));
    var st3 := Enqueue(c, st2, s, i);
    st3.(pending := st3.pending[caller := Pend(i, handle)])
  }

  function ConnectBegin(c: Config, st: Ipc, caller: int, sid: nat, version: nat): ClientRes
    requires Shape(c, st)
  {
    if caller == 0 then ClientRes(st, INVALID_ARGUMENT, None)
    else if FindService(c, sid).None? then ClientRes(st, CONNECTION_REFUSED, None)
    else
      var s := FindService(c, sid).value;
      if !CallerAllowed(c, caller, s) || !VersionAllowed(c.services[s], version) then
        ClientRes(st, CONNECTION_REFUSED, None)
      else if !c.services[s].connectionBased then ClientRes(st, NOT_SUPPORTED, None)
      else if ClientCount(st.conns, caller) >= c.perClient then ClientRes(st, CONNECTION_BUSY, None)
      else if caller < 0 && NonsecureCount(st.conns) >= c.nonsecureLimit then
        ClientRes(st, CONNECTION_BUSY, None)
      else
        var k := FreeConnFrom(st.conns, 0);
        var i := FreeMsgFrom(st.msgs, 0);
        if k == |st.conns| then ClientRes(st, CONNECTION_BUSY, None)
        else if i == |st.msgs| then ClientRes(ReleaseConn(st, k), CONNECTION_BUSY, None)
        else
          var handle := Make(CONNECTION, k, st.conns[k].gen);
          ClientRes(OpenConnection(c, st, k, i, caller, s, handle), handle, Some(i))
  }

  function OpenConnection(c: Config, st: Ipc, k: nat, i: nat, caller: int, s: nat, handle: int): Ipc
    requires Shape(c, st) && k < |st.conns| && i < |st.msgs| && s < |c.services|
  {
    var conn := st.conns[k].(state := PendingConnect, caller := caller,
      instance := CallerInstance(c, st, caller), service := s, latch := false);
    Submit(c, SetConn(st, k, conn), k, i, caller, IPC_CONNECT, [], [], PendingConnect, handle)
  }

  datatype Vec = Vec(base: nat, len: nat)

  /** A vector array as the client passes it: possibly a null pointer with a count. */
  datatype VecArg = VecArg(isNull: bool, vecs: seq<Vec>)

  predicate CountsOk(kind: int, ins: VecArg, outs: VecArg) {
    kind >= 0 && |ins.vecs| + |outs.vecs| <= MAX_IOVEC
  }

  predicate MayRead(env: Env, caller: int, v: Vec) {
    v.len == 0 || Access(caller, v.base, v.len) in env.readable
  }

  predicate MayWrite(env: Env, caller: int, base: nat, len: nat) {
    len == 0 || Access(caller, base, len) in env.writable
  }

  function TotalLength(vs: seq<Vec>): nat {
    if vs == [] then 0 else TotalLength(vs[..|vs| - 1]) + vs[|vs| - 1].len
  }

  predicate VecOk(v: Vec) {
    !(v.len != 0 && v.base == 0) && v.base <= ADDRESS_MAX && v.len <= ADDRESS_MAX - v.base
  }

  /** SUCCESS, or the error wt_ffm_prepare_vectors reports. */
  function VectorError(c: Config, env: Env, caller: int, ins: VecArg, outs: VecArg): int {
    if (ins.isNull && ins.vecs != []) || (outs.isNull && outs.vecs != []) then FFM_ARGUMENT
    else if exists j :: 0 <= j < |ins.vecs| && !MayRead(env, caller, ins.vecs[j]) then FFM_POLICY
    else if exists j :: 0 <= j < |outs.vecs| && !MayWrite(env, caller, outs.vecs[j].base, outs.vecs[j].len)
      then FFM_POLICY
    else if (exists j :: 0 <= j < |ins.vecs| && !VecOk(ins.vecs[j]))
         || (exists j :: 0 <= j < |outs.vecs| && !VecOk(outs.vecs[j])) then FFM_BUFFER
    else
      var total := TotalLength(ins.vecs) + TotalLength(outs.vecs);
      if total > ADDRESS_MAX || (c.transferLimit != 0 && total > c.transferLimit) then FFM_BUFFER else SUCCESS
  }

  function Fetch(memory: map<nat, Byte>, base: nat, len: nat): (r: seq<Byte>)
    ensures |r| == len
  {
    seq(len, i requires 0 <= i < len => if base + i in memory then memory[base + i] else 0)
  }

  function Capture(memory: map<nat, Byte>, vs: seq<Vec>): (r: seq<InVec>)
    ensures |r| == |vs|
  {
    seq(|vs|, j requires 0 <= j < |vs| => InVec([], Fetch(memory, vs[j].base, vs[j].len)))
  }

  function Prepare(vs: seq<Vec>): (r: seq<OutVec>)
    ensures |r| == |vs|
  {
    seq(|vs|, j requires 0 <= j < |vs| => OutVec(vs[j].base, vs[j].len, []))
  }

  /** A programmer error on connection k: it drops now, or once its request completes. */
  function RecordError(st: Ipc, k: nat): Ipc
    requires k < |st.conns|
  {
    if st.conns[k].state == Idle then SetConn(st, k, st.conns[k].(state := Error))
    else SetConn(st, k, st.conns[k].(latch := true))
  }

  function CallBegin(c: Config, st: Ipc, caller: int, handle: int, kind: int, ins: VecArg, outs: VecArg): ClientRes
    requires Shape(c, st)
  {
    if caller == 0 then ClientRes(st, INVALID_ARGUMENT, None)
    else
      match ResolveConn(c, st, caller, handle)
      case Refused(_) => ClientRes(st, PROGRAMMER_ERROR, None)
      case Found(k) => CallOn(c, st, k, caller, handle, kind, ins, outs)
  }

  /** A call on the caller's own connection k. */
  function CallOn(c: Config, st: Ipc, k: nat, caller: int, handle: int, kind: int, ins: VecArg, outs: VecArg): ClientRes
    requires Shape(c, st) && k < |st.conns| && st.conns[k].state != Free
  {
    if !CountsOk(kind, ins, outs) || st.conns[k].state != Idle then
      ClientRes(RecordError(st, k), PROGRAMMER_ERROR, None)
    else
      var i := FreeMsgFrom(st.msgs, 0);
      if i == |st.msgs| then ClientRes(st, INSUFFICIENT_MEMORY, None)
      else
        var error := VectorError(c, st.env, caller, ins, outs);
        if error == FFM_BUFFER then ClientRes(ReleaseMsg(st, i), INVALID_ARGUMENT, None)
        else if error != SUCCESS then
          ClientRes(SetConn(ReleaseMsg(st, i), k, st.conns[k].(state := Error)), PROGRAMMER_ERROR, None)
        else
          ClientRes(Submit(c, st, k, i, caller, kind, Capture(st.env.memory, ins.vecs), Prepare(outs.vecs),
                           PendingRequest, handle), SUCCESS, Some(i))
  }

  function CallRefuse(c: Config, st: Ipc, caller: int, handle: int): Ipc
    requires Shape(c, st)
  {
    if caller == 0 then st
    else
      match ResolveConn(c, st, caller, handle)
      case Refused(_) => st
      case Found(k) => RecordError(st, k)
  }

  /** The first abandoned request of connection k, if any. */
  function AbandonedOn(ms: seq<Msg>, k: nat, i: nat): (r: Option<nat>)
    requires i <= |ms|
    ensures r.Some? ==> i <= r.value < |ms| && ms[r.value].phase != Unused && ms[r.value].abandon != Kept && ms[r.value].conn == k
    ensures r.None? ==> forall j :: i <= j < |ms| ==> !(ms[j].phase != Unused && ms[j].abandon != Kept && ms[j].conn == k)
    decreases |ms| - i
  {
    if i == |ms| then None
    else if ms[i].phase != Unused && ms[i].abandon != Kept && ms[i].conn == k then Some(i)
    else AbandonedOn(ms, k, i + 1)
  }

  function CloseBegin(c: Config, st: Ipc, caller: int, handle: int): ClientRes
    requires Shape(c, st)
  {
    if handle == 0 then ClientRes(st, SUCCESS, None)
    else if caller == 0 then ClientRes(st, FFM_ARGUMENT, None)
    else
      match ResolveConn(c, st, caller, handle)
      case Refused(error) => ClientRes(st, error, None)
      case Found(k) =>
        if st.conns[k].state != Idle && st.conns[k].state != Error then ClientRes(st, FFM_STATE, None)
        else
          match AbandonedOn(st.msgs, k, 0)
          case Some(j) =>
            ClientRes(SetConn(SetMsg(st, j, st.msgs[j].(abandon := AwaitClose)), k,
                              st.conns[k].(state := Disconnecting)), SUCCESS, None)
          case None =>
            var i := FreeMsgFrom(st.msgs, 0);
            if i == |st.msgs| then ClientRes(st, FFM_RESOURCE, None)
            else ClientRes(Submit(c, st, k, i, caller, IPC_DISCONNECT, [], [], Disconnecting, handle), SUCCESS, Some(i))
  }

  // ---------------------------------------------------------------- client: finish

  function ConnectFinish(c: Config, st: Ipc, i: nat): ClientRes
    requires Shape(c, st) && i < |st.msgs| && st.msgs[i].phase != Unused
  {
    var m := st.msgs[i];
    var st1 := ReleaseMsg(Unpend(st, m.caller), i);
    if m.status != SUCCESS then ClientRes(ReleaseConn(st1, m.conn), m.status, None)
    else ClientRes(st1, Make(CONNECTION, m.conn, st.conns[m.conn].gen), None)
  }

  predicate Revalidates(env: Env, caller: int, outs: seq<OutVec>) {
    forall j :: 0 <= j < |outs| ==> MayWrite(env, caller, outs[j].base, |outs[j].data|)
  }

  function Store(memory: map<nat, Byte>, base: nat, data: seq<Byte>): map<nat, Byte> {
    if data == [] then memory
    else Store(memory, base, data[..|data| - 1])[base + |data| - 1 := data[|data| - 1]]
  }

  function PublishFirst(memory: map<nat, Byte>, outs: seq<OutVec>, n: nat): map<nat, Byte>
    requires n <= |outs|
  {
    if n == 0 then memory else Store(PublishFirst(memory, outs, n - 1), outs[n - 1].base, outs[n - 1].data)
  }

  function Lengths(outs: seq<OutVec>): (r: seq<nat>)
    ensures |r| == |outs|
  {
    seq(|outs|, j requires 0 <= j < |outs| => |outs[j].data|)
  }

  /**
    The lengths a finish stores for the first n outputs.  Its caller passes an array of
    room vectors, which need not be the one the call began with, or a null pointer.
    */
  function StoredLengths(outs: seq<OutVec>, room: Option<nat>, n: nat): seq<nat>
    requires n <= |outs|
  {
    if n == 0 then []
    else StoredLengths(outs, room, n - 1) + if room.Some? && n - 1 < room.value then [|outs[n - 1].data|] else []
  }

  /** State, returned status, and the lengths stored in the client's output vectors, from the first one on. */
  datatype CallRes = CallRes(st: Ipc, ret: int, lens: seq<nat>)

  function CallFinish(c: Config, st: Ipc, i: nat, room: Option<nat>): CallRes
    requires Shape(c, st) && i < |st.msgs| && st.msgs[i].phase != Unused
  {
    var m := st.msgs[i];
    var st1 := ReleaseMsg(Unpend(st, m.caller), i);
    if !Revalidates(st.env, m.caller, m.outs) then
      CallRes(SetConn(st1, m.conn, st.conns[m.conn].(state := Error)), PROGRAMMER_ERROR, [])
    else
      CallRes(st1.(env := st.env.(memory := PublishFirst(st.env.memory, m.outs, |m.outs|))), m.status,
              StoredLengths(m.outs, room, |m.outs|))
  }

  function CloseFinish(c: Config, st: Ipc, i: nat): ClientRes
    requires Shape(c, st) && i < |st.msgs| && st.msgs[i].phase != Unused
  {
    var m := st.msgs[i];
    ClientRes(ReleaseConn(ReleaseMsg(Unpend(st, m.caller), i), m.conn), SUCCESS, None)
  }

  // ---------------------------------------------------------------- client: return from a synchronous dispatch

  function ConnectReturn(c: Config, st: Ipc, i: nat, handle: int, ret: int): ClientRes
    requires Shape(c, st) && i < |st.msgs| && st.msgs[i].phase != Unused
  {
    var m := st.msgs[i];
    var st0 := Unpend(st, m.caller);
    if ret != SUCCESS && m.phase == Delivered then
      ClientRes(SetMsg(st0, i, m.(abandon := AwaitClose)),
                if ret == FFM_RESOURCE then CONNECTION_BUSY else GENERIC_ERROR, None)
    else
      var st1 := ReleaseMsg(if ret != SUCCESS then Unqueue(c, st0, m.service, i) else st0, i);
      if ret != SUCCESS || m.status != SUCCESS then
        ClientRes(ReleaseConn(st1, m.conn),
                  if ret == FFM_RESOURCE then CONNECTION_BUSY
                  else if m.status == SUCCESS then GENERIC_ERROR else m.status, None)
      else ClientRes(st1, handle, None)
  }

  /** The client returns, so its output addresses are forgotten. */
  function Forget(outs: seq<OutVec>): (r: seq<OutVec>)
    ensures |r| == |outs|
  {
    seq(|outs|, j requires 0 <= j < |outs| => outs[j].(base := 0))
  }

  function CallReturn(c: Config, st: Ipc, i: nat, ret: int): CallRes
    requires Shape(c, st) && i < |st.msgs| && st.msgs[i].phase != Unused
  {
    var m := st.msgs[i];
    var st0 := Unpend(st, m.caller);
    if ret != SUCCESS then
      if m.phase == Delivered then
        CallRes(SetMsg(SetConn(st0, m.conn, st.conns[m.conn].(state := Error, latch := true)), i,
                       m.(abandon := AwaitReply, outs := Forget(m.outs))), GENERIC_ERROR, [])
      else
        var st1 := SetConn(st0, m.conn, st.conns[m.conn].(state := Error));
        CallRes(ReleaseMsg(Unqueue(c, st1, m.service, i), i), GENERIC_ERROR, [])
    else if exists j :: 0 <= j < |m.outs| && !MayWrite(st.env, m.caller, m.outs[j].base, |m.outs[j].data|) then
      CallRes(ReleaseMsg(SetConn(st0, m.conn, st.conns[m.conn].(state := Error)), i), PROGRAMMER_ERROR, [])
    else
      var env := st.env.(memory := PublishFirst(st.env.memory, m.outs, |m.outs|));
      CallRes(ReleaseMsg(st0.(env := env), i), m.status, Lengths(m.outs))
  }

  function CloseReturn(c: Config, st: Ipc, i: nat, ret: int): ClientRes
    requires Shape(c, st) && i < |st.msgs| && st.msgs[i].phase != Unused
  {
    var m := st.msgs[i];
    var st0 := Unpend(st, m.caller);
    if ret != SUCCESS && m.phase == Delivered then
      ClientRes(SetMsg(st0, i, m.(abandon := AwaitClose)), ret, None)
    else
      var st1 := ReleaseMsg(if ret != SUCCESS then Unqueue(c, st0, m.service, i) else st0, i);
      ClientRes(if ret == SUCCESS then ReleaseConn(st1, m.conn) else st1, ret, None)
  }

  // ---------------------------------------------------------------- server

  datatype Delivery = Delivery(handle: int, kind: int, client: int, rhandle: nat,
                               inSizes: seq<nat>, outSizes: seq<nat>)

  datatype GetRes = GetRes(st: Ipc, ret: int, delivery: Option<Delivery>)

  function SizesOf(m: Msg): (seq<nat>, seq<nat>) {
    (seq(MAX_IOVEC, j requires 0 <= j < MAX_IOVEC => if j < |m.ins| then |m.ins[j].seen| + |m.ins[j].rest| else 0),
     seq(MAX_IOVEC, j requires 0 <= j < MAX_IOVEC => if j < |m.outs| then m.outs[j].capacity else 0))
  }

  function AfterGet(state: ConnState, kind: int): ConnState {
    if kind == IPC_CONNECT then Connecting else if kind >= 0 then Active else state
  }

  /** Delivers the head of service s's queue. */
  function Deliver(c: Config, st: Ipc, s: nat): Ipc
    requires Shape(c, st) && s < |c.services| && st.queues[s] != []
    requires st.queues[s][0] < |st.msgs| && st.msgs[st.queues[s][0]].phase != Unused
  {
    var i := st.queues[s][0];
    var m := st.msgs[i];
    var st1 := SetMsg(SetQueue(c, st, s, st.queues[s][1..]), i, m.(phase := Delivered));
    SetConn(st1, m.conn, st.conns[m.conn].(state := AfterGet(st.conns[m.conn].state, m.kind)))
  }

  /** Every queue entry names a request still in its slot. */
  ghost predicate QueueRange(st: Ipc) {
    forall s, n :: 0 <= s < |st.queues| && 0 <= n < |st.queues[s]| ==>
      st.queues[s][n] < |st.msgs| && st.msgs[st.queues[s][n]].phase == Queued
  }

  function GetMsg(c: Config, st: Ipc, pid: int, signal: Word): GetRes
    requires Shape(c, st) && QueueRange(st)
  {
    if signal == {} || FindPartition(c, pid).None? then GetRes(st, PROGRAMMER_ERROR, None)
    else
      match SignalFrom(c.services, FindPartition(c, pid).value, signal, 0)
      case None => GetRes(st, DOES_NOT_EXIST, None)
      case Some(s) =>
        if st.queues[s] == [] then GetRes(st, DOES_NOT_EXIST, None)
        else
          var i := st.queues[s][0];
          var m := st.msgs[i];
          GetRes(Deliver(c, st, s), SUCCESS,
                 Some(Delivery(Make(MESSAGE, i, m.gen), m.kind, m.caller, st.conns[m.conn].rhandle,
                               SizesOf(m).0, SizesOf(m).1)))
  }

  datatype ServerRes = ServerRes(st: Ipc, ret: int)

  function SetRhandle(c: Config, st: Ipc, pid: int, handle: int, value: nat): ServerRes
    requires Shape(c, st)
  {
    match ResolveMsg(c, st, pid, handle)
    case Refused(_) => ServerRes(st, FFM_HANDLE)
    case Found(i) =>
      var m := st.msgs[i];
      if m.kind == IPC_DISCONNECT then ServerRes(st, SUCCESS)
      else ServerRes(SetConn(st, m.conn, st.conns[m.conn].(rhandle := value)), SUCCESS)
  }

  function Min(a: nat, b: nat): nat {
    if a < b then a else b
  }

  datatype ReadRes = ReadRes(st: Ipc, bytes: seq<Byte>)

  /** Up to n unread bytes of input vector v; a skip consumes the same bytes without copying them. */
  function ReadMsg(c: Config, st: Ipc, pid: int, handle: int, v: nat, n: nat): ReadRes
    requires Shape(c, st)
  {
    match ResolveMsg(c, st, pid, handle)
    case Refused(_) => ReadRes(st, [])
    case Found(i) =>
      var m := st.msgs[i];
      if m.kind < 0 || v >= MAX_IOVEC || v >= |m.ins| then ReadRes(st, [])
      else
        var vec := m.ins[v];
        var len := Min(n, |vec.rest|);
        ReadRes(SetMsg(st, i, m.(ins := m.ins[v := InVec(vec.seen + vec.rest[..len], vec.rest[len..])])),
                vec.rest[..len])
  }

  function WriteMsg(c: Config, st: Ipc, pid: int, handle: int, v: nat, data: seq<Byte>): ServerRes
    requires Shape(c, st)
  {
    if v >= MAX_IOVEC then ServerRes(st, FFM_ARGUMENT)
    else
      match ResolveMsg(c, st, pid, handle)
      case Refused(_) => ServerRes(st, FFM_ARGUMENT)
      case Found(i) =>
        var m := st.msgs[i];
        if m.kind < 0 then ServerRes(st, FFM_STATE)
        else if v >= |m.outs| then ServerRes(st, if data == [] then SUCCESS else FFM_BUFFER)
        else if |m.outs[v].data| + |data| > m.outs[v].capacity then ServerRes(st, FFM_BUFFER)
        else
          var vec := m.outs[v];
          ServerRes(SetMsg(st, i, m.(outs := m.outs[v := vec.(data := vec.data + data)])), SUCCESS)
  }

  predicate ReplyAllowed(kind: int, status: int) {
    if kind == IPC_CONNECT then status in {SUCCESS, CONNECTION_REFUSED, CONNECTION_BUSY}
    else kind >= 0 ==> status != CONNECTION_REFUSED && status != CONNECTION_BUSY
  }

  function AfterReply(kind: int, status: int, latch: bool): ConnState {
    if kind == IPC_CONNECT then (if status == SUCCESS then Idle else Error)
    else if kind == IPC_DISCONNECT then Terminal
    else if status == PROGRAMMER_ERROR || latch then Error else Idle
  }

  /** An abandoned request was answered: free what it held, or disconnect what it opened. */
  function FinishAbandoned(c: Config, st: Ipc, i: nat, status: int): Ipc
    requires Shape(c, st) && i < |st.msgs| && st.msgs[i].phase != Unused
    requires st.conns[st.msgs[i].conn].state != Free
  {
    var m := st.msgs[i];
    if (m.kind == IPC_CONNECT && status == SUCCESS) || (m.kind >= 0 && m.abandon == AwaitClose) then
      var conn := st.conns[m.conn];
      var st1 := SetMsg(st, i, Msg(Queued, conn.caller, 0, NextGeneration(m.gen), m.conn, conn.service,
                                   IPC_DISCONNECT, [], [], AwaitClose));
      Enqueue(c, SetConn(st1, m.conn, conn.(state := Disconnecting)), conn.service, i)
    else if m.kind < 0 then ReleaseMsg(ReleaseConn(st, m.conn), i)
    else ReleaseMsg(st, i)
  }

  function Reply(c: Config, st: Ipc, pid: int, handle: int, status: int): ServerRes
    requires Shape(c, st) && Linked(st)
  {
    match ResolveMsg(c, st, pid, handle)
    case Refused(_) => ServerRes(st, FFM_HANDLE)
    case Found(i) =>
      var m := st.msgs[i];
      if m.kind < IPC_DISCONNECT then ServerRes(st, FFM_STATE)
      else if !ReplyAllowed(m.kind, status) then ServerRes(st, FFM_ARGUMENT)
      else ServerRes(Settled(c, st, i, status), SUCCESS)
  }

  /** The answer moves the connection on, and completes the request or cleans it up. */
  function Settled(c: Config, st: Ipc, i: nat, status: int): Ipc
    requires Shape(c, st) && Linked(st) && i < |st.msgs| && st.msgs[i].phase != Unused
  {
    var m := st.msgs[i];
    var conn := st.conns[m.conn];
    var st1 := SetConn(st, m.conn, conn.(state := AfterReply(m.kind, status, conn.latch)));
    if m.abandon == Kept then SetMsg(st1, i, m.(phase := Complete, status := status))
    else FinishAbandoned(c, st1, i, status)
  }

  // ---------------------------------------------------------------- faults

  predicate ServedBy(c: Config, s: nat, pid: int)
    requires s < |c.services| && c.services[s].partition < |c.partitions|
  {
    ServerId(c, s) == pid
  }

  /** Fails request i if partition pid serves it and it is still in flight. */
  function FailMsg(c: Config, st: Ipc, pid: int, status: int, i: nat): (r: Ipc)
    requires Shape(c, st) && i < |st.msgs|
    ensures Shape(c, r) && |r.msgs| == |st.msgs| && |r.conns| == |st.conns|
  {
    var m := st.msgs[i];
    if !InFlight(m) || !ServedBy(c, m.service, pid) then st
    else if m.abandon == Kept then
      SetMsg(SetConn(st, m.conn, st.conns[m.conn].(state := Error)), i, m.(phase := Complete, status := status))
    else if m.abandon == AwaitClose then ReleaseMsg(ReleaseConn(st, m.conn), i)
    else ReleaseMsg(SetConn(st, m.conn, st.conns[m.conn].(state := Error)), i)
  }

  /** How many of the first n requests a failure of pid ends. */
  function FailedCount(c: Config, ms: seq<Msg>, pid: int, n: nat): nat
    requires ConfigOk(c) && n <= |ms| && forall i :: 0 <= i < |ms| && ms[i].phase != Unused ==> ms[i].service < |c.services|
  {
    if n == 0 then 0
    else FailedCount(c, ms, pid, n - 1) + if InFlight(ms[n - 1]) && ServedBy(c, ms[n - 1].service, pid) then 1 else 0
  }

  /** The first n message slots have been failed. */
  function FailMsgs(c: Config, st: Ipc, pid: int, status: int, n: nat): (r: Ipc)
    requires Shape(c, st) && n <= |st.msgs|
    ensures Shape(c, r) && |r.msgs| == |st.msgs| && |r.conns| == |st.conns|
  {
    if n == 0 then st else FailMsg(c, FailMsgs(c, st, pid, status, n - 1), pid, status, n - 1)
  }

  /** The first n services have been drained if pid owns them. */
  function DrainQueues(c: Config, st: Ipc, pid: int, n: nat): (r: Ipc)
    requires Shape(c, st) && n <= |c.services|
    ensures Shape(c, r) && r == st.(queues := r.queues, signals := r.signals)
  {
    if n == 0 then st
    else
      var st1 := DrainQueues(c, st, pid, n - 1);
      if ServedBy(c, n - 1, pid) then SetQueue(c, st1, n - 1, []) else st1
  }

  /** Connection k to pid drops to the error state and loses its reverse handle. */
  function FailConn(c: Config, st: Ipc, pid: int, k: nat): (r: Ipc)
    requires Shape(c, st) && k < |st.conns|
    ensures Shape(c, r) && r == st.(conns := r.conns) && |r.conns| == |st.conns|
  {
    var conn := st.conns[k];
    if conn.state == Free || conn.state == Terminal || !ServedBy(c, conn.service, pid) then st
    else SetConn(st, k, conn.(state := Error, rhandle := 0))
  }

  function FailConns(c: Config, st: Ipc, pid: int, n: nat): (r: Ipc)
    requires Shape(c, st) && n <= |st.conns|
    ensures Shape(c, r) && r == st.(conns := r.conns) && |r.conns| == |st.conns|
  {
    if n == 0 then st else FailConn(c, FailConns(c, st, pid, n - 1), pid, n - 1)
  }

  function FailPartition(c: Config, st: Ipc, pid: int, status: int): (r: Ipc)
    requires Shape(c, st)
    ensures Shape(c, r) && |r.msgs| == |st.msgs| && |r.conns| == |st.conns|
  {
    FailConns(c, DrainQueues(c, FailMsgs(c, st, pid, status, |st.msgs|), pid, |c.services|), pid, |st.conns|)
  }

  function DropMsg(c: Config, st: Ipc, caller: int, i: nat): (r: Ipc)
    requires Shape(c, st) && i < |st.msgs|
    ensures Shape(c, r) && |r.msgs| == |st.msgs|
    ensures r == st.(msgs := r.msgs, queues := r.queues, signals := r.signals)
  {
    var m := st.msgs[i];
    if m.phase == Unused || m.caller != caller then st
    else ReleaseMsg(if m.phase == Queued then Unqueue(c, st, m.service, i) else st, i)
  }

  function DropMsgs(c: Config, st: Ipc, caller: int, n: nat): (r: Ipc)
    requires Shape(c, st) && n <= |st.msgs|
    ensures Shape(c, r) && |r.msgs| == |st.msgs|
    ensures r == st.(msgs := r.msgs, queues := r.queues, signals := r.signals)
  {
    if n == 0 then st else DropMsg(c, DropMsgs(c, st, caller, n - 1), caller, n - 1)
  }

  function DropConn(c: Config, st: Ipc, caller: int, k: nat): (r: Ipc)
    requires k < |st.conns|
    ensures r == st.(conns := r.conns) && |r.conns| == |st.conns|
  {
    if st.conns[k].state == Free || st.conns[k].caller != caller then st else ReleaseConn(st, k)
  }

  function DropConns(c: Config, st: Ipc, caller: int, n: nat): (r: Ipc)
    requires n <= |st.conns|
    ensures r == st.(conns := r.conns) && |r.conns| == |st.conns|
  {
    if n == 0 then st else DropConn(c, DropConns(c, st, caller, n - 1), caller, n - 1)
  }

  /** A client that terminated abnormally loses every request and connection it owns. */
  function FailClient(c: Config, st: Ipc, caller: int): (r: Ipc)
    requires Shape(c, st)
    ensures |r.signals| == |st.signals| && |r.instances| == |st.instances|
  {
    DropConns(c, DropMsgs(c, Unpend(st, caller), caller, |st.msgs|), caller, |st.conns|)
  }

  function Restarted(c: Config, st: Ipc, pid: int, status: int): Ipc
    requires Shape(c, st)
  {
    match FindPartition(c, pid)
    case None => st
    case Some(p) =>
      var st1 := FailClient(c, FailPartition(c, st, pid, status), pid);
      st1.(signals := st1.signals[p := {}], instances := st1.instances[p := (st1.instances[p] + 1) % 0x1_0000_0000])
  }

  // ---------------------------------------------------------------- doorbell and interrupt signals

  function Notify(c: Config, st: Ipc, pid: int): ServerRes
    requires Shape(c, st)
  {
    match FindPartition(c, pid)
    case None => ServerRes(st, FFM_POLICY)
    case Some(p) => ServerRes(st.(signals := st.signals[p := st.signals[p] + DOORBELL]), SUCCESS)
  }

  function ClearDoorbell(c: Config, st: Ipc, pid: int): ServerRes
    requires Shape(c, st)
  {
    match FindPartition(c, pid)
    case None => ServerRes(st, FFM_POLICY)
    case Some(p) =>
      if !Asserted(st.signals[p], DOORBELL) then ServerRes(st, FFM_STATE)
      else ServerRes(st.(signals := st.signals[p := st.signals[p] - DOORBELL]), SUCCESS)
  }

  function IrqMask(irqs: seq<Irq>): Word {
    if irqs == [] then {} else IrqMask(irqs[..|irqs| - 1]) + irqs[|irqs| - 1].signal
  }

  function EndOfInterrupt(c: Config, st: Ipc, pid: int, signal: Word): ServerRes
    requires Shape(c, st)
  {
    match FindPartition(c, pid)
    case None => ServerRes(st, FFM_POLICY)
    case Some(p) =>
      if |signal| != 1 then ServerRes(st, FFM_ARGUMENT)
      else if !Asserted(IrqMask(c.partitions[p].irqs), signal) then ServerRes(st, FFM_POLICY)
      else if !Asserted(st.signals[p], signal) then ServerRes(st, FFM_STATE)
      else ServerRes(st.(signals := st.signals[p := st.signals[p] - signal]), SUCCESS)
  }

  function AssertIrq(c: Config, st: Ipc, pid: int, signal: Word): ServerRes
    requires Shape(c, st)
  {
    match FindPartition(c, pid)
    case None => ServerRes(st, FFM_POLICY)
    case Some(p) =>
      if |signal| != 1 then ServerRes(st, FFM_ARGUMENT)
      else if !(exists k :: 0 <= k < |c.partitions[p].irqs| && c.partitions[p].irqs[k].signal == signal) then
        ServerRes(st, FFM_POLICY)
      else ServerRes(st.(signals := st.signals[p := st.signals[p] + signal]), SUCCESS)
  }
}
