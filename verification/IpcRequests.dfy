/**
  A connection that is in the middle of a request has that request: exactly one
  occupied message slot names it.  Every step keeps this except one, the return of a
  synchronous close whose dispatch failed before its disconnect was delivered.
  */
module IpcRequests {
  import opened Bits
  import opened Handles
  import opened IpcModel
  import opened IpcInvariant
  import opened IpcPreserve
  import opened IpcFaults
  import opened IpcRuns
  import opened IpcHistory

  predicate Busy(conn: Conn) {
    conn.state in {PendingConnect, Connecting, PendingRequest, Active, Disconnecting, Terminal}
  }

  predicate Names(m: Msg, k: nat) {
    m.phase != Unused && m.conn == k
  }

  ghost predicate HasRequest(st: Ipc, k: nat) {
    exists i :: 0 <= i < |st.msgs| && Names(st.msgs[i], k)
  }

  ghost predicate BusyHasRequest(st: Ipc) {
    forall k :: 0 <= k < |st.conns| && Busy(st.conns[k]) ==> HasRequest(st, k)
  }

  /** The return of a close whose dispatch failed while the connection was closing and its disconnect was not active. */
  ghost predicate Orphans(st: Ipc, step: Step) {
    && step.DoCloseReturn? && step.ret != SUCCESS && WaitsFor(st, step.caller, IPC_DISCONNECT)
    && var m := st.msgs[st.pending[step.caller].msg];
       m.phase != Delivered && m.conn < |st.conns| && st.conns[m.conn].state in {Disconnecting, Terminal}
  }

  // ---------------------------------------------------------------- frames

  /** Only connection k and slot i changed, and slot i had no business with another connection. */
  lemma PairKeeps(st: Ipc, st': Ipc, k: nat, i: nat)
    requires BusyHasRequest(st) && |st'.conns| == |st.conns| && |st'.msgs| == |st.msgs| && i < |st.msgs|
    requires forall j :: 0 <= j < |st.conns| && j != k ==> st'.conns[j] == st.conns[j]
    requires forall j :: 0 <= j < |st.msgs| && j != i ==> st'.msgs[j] == st.msgs[j]
    requires st.msgs[i].phase != Unused ==> st.msgs[i].conn == k
    requires k < |st.conns| && Busy(st'.conns[k]) ==> HasRequest(st', k)
    ensures BusyHasRequest(st')
  {
    forall j | 0 <= j < |st'.conns| && Busy(st'.conns[j]) ensures HasRequest(st', j) {
      if j != k {
        assert HasRequest(st, j);
        var w :| 0 <= w < |st.msgs| && Names(st.msgs[w], j);
        assert Names(st'.msgs[w], j);
      }
    }
  }

  /** Only connection k changed, and it is busy only if it was. */
  lemma ConnKeeps(st: Ipc, st': Ipc, k: nat)
    requires BusyHasRequest(st) && |st'.conns| == |st.conns| && st'.msgs == st.msgs
    requires forall j :: 0 <= j < |st.conns| && j != k ==> st'.conns[j] == st.conns[j]
    requires k < |st.conns| && Busy(st'.conns[k]) ==> Busy(st.conns[k])
    ensures BusyHasRequest(st')
  {
    forall j | 0 <= j < |st'.conns| && Busy(st'.conns[j]) ensures HasRequest(st', j) {
      assert HasRequest(st, j);
      var w :| 0 <= w < |st.msgs| && Names(st.msgs[w], j);
      assert Names(st'.msgs[w], j);
    }
  }

  lemma RequestAt(st: Ipc, i: nat, k: nat)
    requires i < |st.msgs| && Names(st.msgs[i], k)
    ensures HasRequest(st, k)
  {
  }

  // ---------------------------------------------------------------- client and server steps

  lemma ConnectKeeps(c: Config, st: Ipc, x: int, sid: nat, version: nat)
    requires Shape(c, st) && BusyHasRequest(st)
    ensures BusyHasRequest(ConnectBegin(c, st, x, sid, version).st)
  {
    var r := ConnectBegin(c, st, x, sid, version);
    if r.st != st {
      var k := FreeConnFrom(st.conns, 0);
      if r.msg.None? {
        ConnKeeps(st, r.st, k);
      } else {
        RequestAt(r.st, r.msg.value, k);
        PairKeeps(st, r.st, k, r.msg.value);
      }
    }
  }

  lemma RecordKeeps(st: Ipc, k: nat)
    requires k < |st.conns| && BusyHasRequest(st)
    ensures BusyHasRequest(RecordError(st, k))
  {
    ConnKeeps(st, RecordError(st, k), k);
  }

  lemma CallKeeps(c: Config, st: Ipc, x: int, h: int, kind: int, ins: VecArg, outs: VecArg)
    requires Shape(c, st) && BusyHasRequest(st)
    ensures BusyHasRequest(CallBegin(c, st, x, h, kind, ins, outs).st)
  {
    var r := CallBegin(c, st, x, h, kind, ins, outs);
    if x != 0 && ResolveConn(c, st, x, h).Found? {
      var k, i := ResolveConn(c, st, x, h).index, FreeMsgFrom(st.msgs, 0);
      if !CountsOk(kind, ins, outs) || st.conns[k].state != Idle {
        RecordKeeps(st, k);
      } else if i < |st.msgs| {
        if r.msg.Some? {
          RequestAt(r.st, i, k);
        }
        PairKeeps(st, r.st, k, i);
      }
    }
  }

  lemma RefuseKeeps(c: Config, st: Ipc, x: int, h: int)
    requires Shape(c, st) && BusyHasRequest(st)
    ensures BusyHasRequest(CallRefuse(c, st, x, h))
  {
    if x != 0 && ResolveConn(c, st, x, h).Found? {
      RecordKeeps(st, ResolveConn(c, st, x, h).index);
    }
  }

  lemma CloseKeeps(c: Config, st: Ipc, x: int, h: int)
    requires Shape(c, st) && BusyHasRequest(st)
    ensures BusyHasRequest(CloseBegin(c, st, x, h).st)
  {
    var r := CloseBegin(c, st, x, h);
    if r.st != st {
      var k := ResolveConn(c, st, x, h).index;
      var i := if r.msg.Some? then r.msg.value else AbandonedOn(st.msgs, k, 0).value;
      RequestAt(r.st, i, k);
      PairKeeps(st, r.st, k, i);
    }
  }

  /** Request i is over or abandoned; its connection is busy afterwards only if the request still names it. */
  lemma EndedKeeps(st: Ipc, st': Ipc, i: nat)
    requires BusyHasRequest(st) && |st'.conns| == |st.conns| && |st'.msgs| == |st.msgs| && i < |st.msgs|
    requires st.msgs[i].phase != Unused && st.msgs[i].conn < |st.conns|
    requires forall j :: 0 <= j < |st.conns| && j != st.msgs[i].conn ==> st'.conns[j] == st.conns[j]
    requires forall j :: 0 <= j < |st.msgs| && j != i ==> st'.msgs[j] == st.msgs[j]
    requires Busy(st'.conns[st.msgs[i].conn]) ==> Names(st'.msgs[i], st.msgs[i].conn)
    ensures BusyHasRequest(st')
  {
    if Names(st'.msgs[i], st.msgs[i].conn) {
      RequestAt(st', i, st.msgs[i].conn);
    }
    PairKeeps(st, st', st.msgs[i].conn, i);
  }

  /** What a request that its caller waits for says about its connection. */
  lemma WaitedConn(c: Config, st: Ipc, i: nat)
    requires Inv(c, st) && i < |st.msgs| && st.msgs[i].phase != Unused
    ensures Shape(c, st) && st.msgs[i].conn < |st.conns| && st.msgs[i].service < |c.services|
    ensures st.msgs[i].phase == Complete && st.msgs[i].kind != IPC_DISCONNECT ==> !Busy(st.conns[st.msgs[i].conn])
  {
    assert MsgOk(st, i);
  }

  lemma FinishKeeps(c: Config, st: Ipc, step: Step)
    requires Inv(c, st) && Linked(st) && QueueRange(st) && Enabled(st, step) && BusyHasRequest(st)
    requires step.DoConnectFinish? || step.DoCallFinish? || step.DoCloseFinish?
    ensures BusyHasRequest(Apply(c, st, step))
  {
    hide Inv;
    hide Shape;
    hide BusyHasRequest;
    var i := st.pending[step.caller].msg;
    WaitedConn(c, st, i);
    EndedKeeps(st, Apply(c, st, step), i);
  }

  lemma ReturnKeeps(c: Config, st: Ipc, step: Step)
    requires Inv(c, st) && Linked(st) && QueueRange(st) && Enabled(st, step) && BusyHasRequest(st)
    requires step.DoConnectReturn? || step.DoCallReturn?
    ensures BusyHasRequest(Apply(c, st, step))
  {
    hide Inv;
    hide Shape;
    hide BusyHasRequest;
    hide Without;
    var i := st.pending[step.caller].msg;
    WaitedConn(c, st, i);
    EndedKeeps(st, Apply(c, st, step), i);
  }

  lemma OnlyOne(c: Config, st: Ipc, i: nat)
    requires Inv(c, st) && i < |st.msgs| && st.msgs[i].phase != Unused
    ensures forall j :: 0 <= j < |st.msgs| && j != i ==> !Names(st.msgs[j], st.msgs[i].conn)
    ensures st.msgs[i].kind == IPC_DISCONNECT ==>
              (Busy(st.conns[st.msgs[i].conn]) <==> st.conns[st.msgs[i].conn].state in {Disconnecting, Terminal})
  {
    assert MsgOk(st, i);
  }

  /** A refused close is the one step that leaves a busy connection without its request. */
  lemma CloseReturnKeeps(c: Config, st: Ipc, x: int, ret: int)
    requires Inv(c, st) && Linked(st) && QueueRange(st) && Enabled(st, DoCloseReturn(x, ret)) && BusyHasRequest(st)
    ensures BusyHasRequest(Apply(c, st, DoCloseReturn(x, ret))) <==> !Orphans(st, DoCloseReturn(x, ret))
  {
    hide Inv;
    hide Shape;
    hide Without;
    var i := st.pending[x].msg;
    var m := st.msgs[i];
    WaitedConn(c, st, i);
    OnlyOne(c, st, i);
    var st' := Apply(c, st, DoCloseReturn(x, ret));
    if Orphans(st, DoCloseReturn(x, ret)) {
      assert Busy(st'.conns[m.conn]) && !HasRequest(st', m.conn);
    } else {
      EndedKeeps(st, st', i);
    }
  }

  lemma GetKeeps(c: Config, st: Ipc, p: int, signal: Word)
    requires Inv(c, st) && QueueRange(st) && BusyHasRequest(st)
    ensures BusyHasRequest(GetMsg(c, st, p, signal).st)
  {
    var r := GetMsg(c, st, p, signal);
    if r.delivery.Some? {
      var i := st.queues[SignalFrom(c.services, FindPartition(c, p).value, signal, 0).value][0];
      RequestAt(r.st, i, st.msgs[i].conn);
      PairKeeps(st, r.st, st.msgs[i].conn, i);
    }
  }

  lemma TransferKeeps(c: Config, st: Ipc, step: Step)
    requires Shape(c, st) && Linked(st) && QueueRange(st) && BusyHasRequest(st)
    requires step.DoSetRhandle? || step.DoRead? || step.DoWrite?
    ensures BusyHasRequest(Apply(c, st, step))
  {
    hide Shape;
    hide BusyHasRequest;
    hide QueueRange;
    if ResolveMsg(c, st, step.pid, step.handle).Found? {
      var i := ResolveMsg(c, st, step.pid, step.handle).index;
      EndedKeeps(st, Apply(c, st, step), i);
    }
  }

  /** A delivered request that its client gave up on without closing has latched its connection's error. */
  lemma ServedConn(c: Config, st: Ipc, i: nat)
    requires Inv(c, st) && i < |st.msgs| && st.msgs[i].phase == Delivered
    ensures Shape(c, st) && st.msgs[i].conn < |st.conns| && st.conns[st.msgs[i].conn].service < |c.services|
    ensures st.msgs[i].abandon == AwaitReply ==> st.msgs[i].kind >= 0 && st.conns[st.msgs[i].conn].latch
  {
    assert MsgOk(st, i);
  }

  lemma ReplyKeeps(c: Config, st: Ipc, p: int, h: int, status: int)
    requires Inv(c, st) && Linked(st) && BusyHasRequest(st)
    ensures BusyHasRequest(Reply(c, st, p, h, status).st)
  {
    hide Inv;
    hide Shape;
    hide BusyHasRequest;
    hide NextGeneration;
    InvShape(c, st);
    if ResolveMsg(c, st, p, h).Found? {
      var i := ResolveMsg(c, st, p, h).index;
      ServedConn(c, st, i);
      EndedKeeps(st, Reply(c, st, p, h, status).st, i);
    }
  }

  // ---------------------------------------------------------------- fault steps

  /** A failure leaves a connection as it is, errors it or frees it. */
  ghost predicate OnlyFail(st: Ipc, r: Ipc) {
    && |r.conns| == |st.conns|
    && forall k :: 0 <= k < |st.conns| ==> r.conns[k] == st.conns[k] || r.conns[k].state in {Error, Free}
  }

  lemma FailMsgOnlyFails(c: Config, st: Ipc, pid: int, status: int, i: nat)
    requires Shape(c, st) && i < |st.msgs|
    ensures OnlyFail(st, FailMsg(c, st, pid, status, i))
  {
  }

  lemma OnlyFailThen(a: Ipc, b: Ipc, d: Ipc)
    requires OnlyFail(a, b) && OnlyFail(b, d)
    ensures OnlyFail(a, d)
  {
  }

  lemma {:induction false} FailMsgsOnlyFail(c: Config, st: Ipc, pid: int, status: int, n: nat)
    requires Shape(c, st) && n <= |st.msgs|
    ensures OnlyFail(st, FailMsgs(c, st, pid, status, n))
  {
    hide Shape;
    hide FailMsg;
    if n > 0 {
      var r := FailMsgs(c, st, pid, status, n - 1);
      FailMsgsOnlyFail(c, st, pid, status, n - 1);
      FailMsgOnlyFails(c, r, pid, status, n - 1);
      OnlyFailThen(st, r, FailMsg(c, r, pid, status, n - 1));
    }
  }

  lemma FailPartitionOnlyFails(c: Config, st: Ipc, pid: int, status: int)
    requires Shape(c, st)
    ensures OnlyFail(st, FailPartition(c, st, pid, status))
  {
    var r1 := FailMsgs(c, st, pid, status, |st.msgs|);
    FailMsgsOnlyFail(c, st, pid, status, |st.msgs|);
    hide FailMsgs;
    var r2 := DrainQueues(c, r1, pid, |c.services|);
    hide DrainQueues;
    FailConnsEffect(c, r2, pid, |st.conns|);
    hide FailConns;
    var r3 := FailConns(c, r2, pid, |st.conns|);
    forall k | 0 <= k < |st.conns| ensures r3.conns[k] == st.conns[k] || r3.conns[k].state in {Error, Free} {
      assert r3.conns[k] == FailedConn(c, r2.conns[k], pid);
    }
  }

  lemma FailedKeeps(c: Config, st: Ipc, r: Ipc, pid: int, status: int)
    requires Inv(c, st) && BusyHasRequest(st) && OnlyFail(st, r) && PartitionFailed(c, st, r, pid, status)
    ensures BusyHasRequest(r)
  {
    forall k | 0 <= k < |r.conns| && Busy(r.conns[k]) ensures HasRequest(r, k) {
      assert r.conns[k] == st.conns[k] && HasRequest(st, k);
      var i :| 0 <= i < |st.msgs| && Names(st.msgs[i], k);
      assert MsgOk(st, i);
      assert r.msgs[i] == FailedMsg(c, st.msgs[i], pid, status);
      assert Names(r.msgs[i], k);
    }
  }

  lemma DroppedKeeps(c: Config, st: Ipc, r: Ipc, x: int)
    requires Inv(c, st) && BusyHasRequest(st) && ClientFailed(st, r, x)
    ensures BusyHasRequest(r)
  {
    forall k | 0 <= k < |r.conns| && Busy(r.conns[k]) ensures HasRequest(r, k) {
      assert r.conns[k] == st.conns[k] && HasRequest(st, k);
      var i :| 0 <= i < |st.msgs| && Names(st.msgs[i], k);
      assert MsgOk(st, i);
      assert Names(r.msgs[i], k);
    }
  }

  lemma SlotsDecide(st: Ipc, r: Ipc)
    requires BusyHasRequest(st) && r.conns == st.conns && r.msgs == st.msgs
    ensures BusyHasRequest(r)
  {
    ConnKeeps(st, r, 0);
  }

  lemma FaultKeeps(c: Config, st: Ipc, step: Step)
    requires Shape(c, st) && Inv(c, st) && Linked(st) && QueueRange(st) && BusyHasRequest(st)
    requires step.DoFailPartition? || step.DoFailClient? || step.DoRestart?
    ensures BusyHasRequest(Apply(c, st, step))
  {
    hide Inv;
    hide Shape;
    hide FailPartition;
    hide FailClient;
    hide BusyHasRequest;
    match step
    case DoFailPartition(p, status) =>
      if p != 0 {
        FailPartitionInv(c, st, p, status);
        FailPartitionOnlyFails(c, st, p, status);
        FailedKeeps(c, st, FailPartition(c, st, p, status), p, status);
      }
    case DoFailClient(x) =>
      FailClientInv(c, st, x);
      DroppedKeeps(c, st, FailClient(c, st, x), x);
    case DoRestart(p, status) =>
      if FindPartition(c, p).Some? {
        var r := FailPartition(c, st, p, status);
        FailPartitionInv(c, st, p, status);
        FailPartitionOnlyFails(c, st, p, status);
        FailedKeeps(c, st, r, p, status);
        FailClientInv(c, r, p);
        DroppedKeeps(c, r, FailClient(c, r, p), p);
        SlotsDecide(FailClient(c, r, p), Restarted(c, st, p, status));
      }
  }

  // ---------------------------------------------------------------- every step, every run

  lemma SignalKeeps(c: Config, st: Ipc, step: Step)
    requires Shape(c, st) && Linked(st) && QueueRange(st) && BusyHasRequest(st)
    requires step.DoNotify? || step.DoClear? || step.DoEndOfInterrupt? || step.DoAssertIrq? || step.DoEnvironment?
    ensures BusyHasRequest(Apply(c, st, step))
  {
    hide Shape;
    hide BusyHasRequest;
    hide QueueRange;
    hide Linked;
    SlotsDecide(st, Apply(c, st, step));
  }

  /** Every step keeps a request on every busy connection, except exactly the one that orphans its connection. */
  lemma StepKeepsRequests(c: Config, st: Ipc, step: Step)
    requires Shape(c, st) && Inv(c, st) && Linked(st) && QueueRange(st) && Enabled(st, step) && BusyHasRequest(st)
    ensures BusyHasRequest(Apply(c, st, step)) <==> !Orphans(st, step)
  {
    hide Inv;
    hide Shape;
    hide BusyHasRequest;
    match step
    case DoConnect(x, sid, version) => ConnectKeeps(c, st, x, sid, version);
    case DoCall(x, h, kind, ins, outs) => CallKeeps(c, st, x, h, kind, ins, outs);
    case DoClose(x, h) => CloseKeeps(c, st, x, h);
    case DoRefuse(x, h) => RefuseKeeps(c, st, x, h);
    case DoCloseReturn(x, ret) => CloseReturnKeeps(c, st, x, ret);
    case DoGet(p, signal) => GetKeeps(c, st, p, signal);
    case DoReply(p, h, status) => ReplyKeeps(c, st, p, h, status);
    case DoSetRhandle(_, _, _) => TransferKeeps(c, st, step);
    case DoRead(_, _, _, _) => TransferKeeps(c, st, step);
    case DoWrite(_, _, _, _) => TransferKeeps(c, st, step);
    case DoFailPartition(_, _) => FaultKeeps(c, st, step);
    case DoFailClient(_) => FaultKeeps(c, st, step);
    case DoRestart(_, _) => FaultKeeps(c, st, step);
    case DoNotify(_) => SignalKeeps(c, st, step);
    case DoClear(_) => SignalKeeps(c, st, step);
    case DoEndOfInterrupt(_, _) => SignalKeeps(c, st, step);
    case DoAssertIrq(_, _) => SignalKeeps(c, st, step);
    case DoEnvironment(_) => SignalKeeps(c, st, step);
    case DoConnectReturn(_, _) => ReturnKeeps(c, st, step);
    case DoCallReturn(_, _) => ReturnKeeps(c, st, step);
    case _ => FinishKeeps(c, st, step);
  }

  /** No step of the run orphans a connection. */
  ghost predicate Orderly(c: Config, st: Ipc, run: seq<Step>)
    decreases |run|
  {
    run != [] && Shape(c, st) && Linked(st) && QueueRange(st) && Enabled(st, run[0]) ==>
      !Orphans(st, run[0]) && Orderly(c, Apply(c, st, run[0]), run[1..])
  }

  lemma {:induction false} RunKeepsRequests(c: Config, st: Ipc, run: seq<Step>, st': Ipc)
    requires Inv(c, st) && BusyHasRequest(st) && Runs(c, st, run, st') && Orderly(c, st, run)
    ensures Inv(c, st') && BusyHasRequest(st')
    decreases |run|
  {
    if run != [] {
      hide Inv;
      hide BusyHasRequest;
      hide Apply;
      hide Shape;
      hide Orphans;
      StepInv(c, st, run[0]);
      StepKeepsRequests(c, st, run[0]);
      RunKeepsRequests(c, Apply(c, st, run[0]), run[1..], st');
    }
  }

  /** In every state an orderly run reaches, a busy connection has one request and no other. */
  lemma BusyHasExactlyOne(c: Config, connSlots: nat, msgSlots: nat, env: Env, run: seq<Step>, st: Ipc, k: nat)
    requires ConfigOk(c) && 0 < connSlots <= MAX_SLOTS && 0 < msgSlots <= MAX_SLOTS
    requires Runs(c, InitState(c, connSlots, msgSlots, env), run, st) && Orderly(c, InitState(c, connSlots, msgSlots, env), run)
    requires k < |st.conns| && Busy(st.conns[k])
    ensures exists i :: 0 <= i < |st.msgs| && Names(st.msgs[i], k)
    ensures forall i, j :: 0 <= i < |st.msgs| && 0 <= j < |st.msgs| && Names(st.msgs[i], k) && Names(st.msgs[j], k) ==> i == j
  {
    InitInv(c, connSlots, msgSlots, env);
    RunKeepsRequests(c, InitState(c, connSlots, msgSlots, env), run, st);
    assert HasRequest(st, k);
  }

  // ---------------------------------------------------------------- a run that is not orderly

  /** One service of one partition, open to Non-secure clients, in a runtime with one slot of each kind. */
  const SAMPLE: Config := Config([Service(7, 1, Strict, {4}, true, true, 0)], [Partition(1, [], [])], 1, 1, 64)
  const QUIET: Env := Env(map[], {}, {})
  const CLIENT: int := -1

  function SampleState(conn: Conn, m: Msg, queue: seq<nat>, pending: map<int, Pend>): Ipc {
    Ipc([conn], [m], [queue], [if queue == [] then {} else {4}], [0], QUIET, pending)
  }

  function SampleConn(state: ConnState): Conn {
    Conn(state, CLIENT, 1, 0, 0, 0, false)
  }

  function SampleMsg(phase: Phase, gen: nat, kind: int): Msg {
    Msg(phase, CLIENT, 0, gen, 0, 0, kind, [], [], Kept)
  }

  const HANDLE: int := Make(CONNECTION, 0, 1)

  /** Connect, serve the connection, close it, and let the dispatch of the disconnect fail. */
  const REFUSED: seq<Step> :=
    [DoConnect(CLIENT, 7, 1), DoGet(1, {4}), DoReply(1, Make(MESSAGE, 0, 1), SUCCESS), DoConnectFinish(CLIENT),
     DoClose(CLIENT, HANDLE), DoCloseReturn(CLIENT, FFM_RESOURCE)]

  const WAITING: map<int, Pend> := map[CLIENT := Pend(0, HANDLE)]

  /** The states of that run: fresh, connecting, delivered, answered, connected, closing, refused. */
  function SampleRun(n: nat): Ipc {
    if n == 0 then SampleState(FreeConn(1), FreeMsg(1), [], map[])
    else if n == 1 then SampleState(SampleConn(PendingConnect), SampleMsg(Queued, 1, IPC_CONNECT), [0], WAITING)
    else if n == 2 then SampleState(SampleConn(Connecting), SampleMsg(Delivered, 1, IPC_CONNECT), [], WAITING)
    else if n == 3 then SampleState(SampleConn(Idle), SampleMsg(Complete, 1, IPC_CONNECT), [], WAITING)
    else if n == 4 then SampleState(SampleConn(Idle), FreeMsg(2), [], map[])
    else if n == 5 then SampleState(SampleConn(Disconnecting), SampleMsg(Queued, 2, IPC_DISCONNECT), [0], WAITING)
    else SampleState(SampleConn(Disconnecting), FreeMsg(3), [], map[])
  }

  /** The step takes st to st'. */
  ghost predicate Leads(st: Ipc, step: Step, st': Ipc) {
    Shape(SAMPLE, st) && Linked(st) && QueueRange(st) && Enabled(st, step) && Apply(SAMPLE, st, step) == st'
  }

  lemma SampleConfig()
    ensures ConfigOk(SAMPLE) && |SAMPLE.services| == |SAMPLE.partitions| == 1
  {
    assert 4 in SAMPLE.services[0].signal;
  }

  lemma SampleShape(n: nat)
    ensures Shape(SAMPLE, SampleRun(n)) && Linked(SampleRun(n)) && QueueRange(SampleRun(n))
  {
    hide ConfigOk;
    SampleConfig();
  }

  /** States with equal parts are equal. */
  lemma SameParts(a: Ipc, b: Ipc)
    requires a.conns == b.conns && a.msgs == b.msgs && a.queues == b.queues && a.signals == b.signals
    requires a.instances == b.instances && a.env == b.env && a.pending == b.pending
    ensures a == b
  {
  }

  lemma SampleConnects()
    ensures Leads(SampleRun(0), REFUSED[0], SampleRun(1))
  {
    SampleShape(0);
    var st := SampleRun(0);
    assert CallerInstance(SAMPLE, st, CLIENT) == 0;
    assert ClientCount(st.conns, CLIENT) == 0 && NonsecureCount(st.conns) == 0;
    assert FindService(SAMPLE, 7) == Some(0) && FreeConnFrom(st.conns, 0) == 0 && FreeMsgFrom(st.msgs, 0) == 0;
    assert {} + {4} == {4} && st.queues[0] + [0] == [0];
    SameParts(Apply(SAMPLE, st, REFUSED[0]), SampleRun(1));
  }

  lemma SampleDelivers()
    ensures Leads(SampleRun(1), REFUSED[1], SampleRun(2))
  {
    SampleShape(1);
    assert FindPartition(SAMPLE, 1) == Some(0) && SignalFrom(SAMPLE.services, 0, {4}, 0) == Some(0);
    assert {4} - {4} == {};
    SameParts(Apply(SAMPLE, SampleRun(1), REFUSED[1]), SampleRun(2));
  }

  lemma SampleReplies()
    ensures Leads(SampleRun(2), REFUSED[2], SampleRun(3))
  {
    SampleShape(2);
    RoundTrip(MESSAGE, 0, 1, 1);
  }

  lemma SampleFinishes()
    ensures Leads(SampleRun(3), REFUSED[3], SampleRun(4))
  {
    SampleShape(3);
  }

  lemma SampleCloses()
    ensures Leads(SampleRun(4), REFUSED[4], SampleRun(5))
  {
    SampleShape(4);
    RoundTrip(CONNECTION, 0, 1, 1);
    assert CallerInstance(SAMPLE, SampleRun(4), CLIENT) == 0;
    assert ResolveConn(SAMPLE, SampleRun(4), CLIENT, HANDLE) == Found(0);
    assert {} + {4} == {4} && SampleRun(4).queues[0] + [0] == [0];
    SameParts(Apply(SAMPLE, SampleRun(4), REFUSED[4]), SampleRun(5));
  }

  lemma SampleIsRefused()
    ensures Leads(SampleRun(5), REFUSED[5], SampleRun(6))
  {
    SampleShape(5);
    assert {4} - {4} == {} && Without([0], 0) == [];
    SameParts(Apply(SAMPLE, SampleRun(5), REFUSED[5]), SampleRun(6));
  }

  lemma {:induction false} SampleRuns(n: nat)
    requires n <= 6
    ensures Runs(SAMPLE, SampleRun(n), REFUSED[n..], SampleRun(6))
    decreases 6 - n
  {
    if n < 6 {
      hide SampleRun;
      hide Apply;
      SampleLeads(n);
      assert REFUSED[n..][0] == REFUSED[n] && REFUSED[n..][1..] == REFUSED[n + 1..];
      SampleRuns(n + 1);
    }
  }

  lemma SampleLeads(n: nat)
    requires n < 6
    ensures Leads(SampleRun(n), REFUSED[n], SampleRun(n + 1))
  {
    hide Leads;
    hide SampleRun;
    SampleConnects();
    SampleDelivers();
    SampleReplies();
    SampleFinishes();
    SampleCloses();
    SampleIsRefused();
  }

  /** A run from boot that ends with a connection closing for good and no request left to finish the close. */
  lemma RefusedCloseOrphans()
    ensures Runs(SAMPLE, InitState(SAMPLE, 1, 1, QUIET), REFUSED, SampleRun(6))
    ensures SampleRun(6).conns[0].state == Disconnecting && !HasRequest(SampleRun(6), 0) && !BusyHasRequest(SampleRun(6))
    ensures Orphans(SampleRun(5), REFUSED[5])
  {
    hide Runs;
    SampleRuns(0);
    SampleStart();
    assert REFUSED[0..] == REFUSED;
  }

  lemma SampleStart()
    ensures InitState(SAMPLE, 1, 1, QUIET) == SampleRun(0)
  {
  }

  // ---------------------------------------------------------------- what becomes of an orphan

  /** Connection k is closing, or closed at its server, and no request will ever finish it. */
  ghost predicate Orphan(st: Ipc, k: nat) {
    k < |st.conns| && st.conns[k].state in {Disconnecting, Terminal} && NoRequest(st, k)
  }

  /** The tear-down steps that end it: of its owner, or of its server while it is still closing. */
  predicate Reclaims(c: Config, st: Ipc, step: Step, k: nat)
    requires Shape(c, st) && k < |st.conns| && st.conns[k].state != Free
  {
    var conn := st.conns[k];
    match step
    case DoFailClient(x) => x == conn.caller
    case DoFailPartition(p, _) => p != 0 && ServedBy(c, conn.service, p) && conn.state == Disconnecting
    case DoRestart(p, _) =>
      FindPartition(c, p).Some? && (p == conn.caller || (ServedBy(c, conn.service, p) && conn.state == Disconnecting))
    case _ => false
  }

  /** A step that changes another connection, or this one only in its latch, and gives it no request. */
  lemma OrphanFrame(st: Ipc, st': Ipc, k: nat, j: nat, i: nat)
    requires Orphan(st, k) && |st'.conns| == |st.conns| && |st'.msgs| == |st.msgs|
    requires forall n :: 0 <= n < |st.conns| && n != j ==> st'.conns[n] == st.conns[n]
    requires forall n :: 0 <= n < |st.msgs| && n != i ==> st'.msgs[n] == st.msgs[n]
    requires j == k ==> st'.conns[k].state == st.conns[k].state
    requires i < |st.msgs| ==> !Names(st'.msgs[i], k)
    ensures Orphan(st', k)
  {
  }

  lemma ConnectLeavesOrphan(c: Config, st: Ipc, x: int, sid: nat, version: nat, k: nat)
    requires Shape(c, st) && Orphan(st, k)
    ensures Orphan(ConnectBegin(c, st, x, sid, version).st, k)
  {
    var r := ConnectBegin(c, st, x, sid, version);
    if r.st != st {
      OrphanFrame(st, r.st, k, FreeConnFrom(st.conns, 0), FreeMsgFrom(st.msgs, 0));
    }
  }

  lemma CallLeavesOrphan(c: Config, st: Ipc, x: int, h: int, kind: int, ins: VecArg, outs: VecArg, k: nat)
    requires Shape(c, st) && Orphan(st, k)
    ensures Orphan(CallBegin(c, st, x, h, kind, ins, outs).st, k)
  {
    hide VectorError;
    if x != 0 && ResolveConn(c, st, x, h).Found? {
      OrphanFrame(st, CallBegin(c, st, x, h, kind, ins, outs).st, k, ResolveConn(c, st, x, h).index, FreeMsgFrom(st.msgs, 0));
    }
  }

  lemma RefuseLeavesOrphan(c: Config, st: Ipc, x: int, h: int, k: nat)
    requires Shape(c, st) && Orphan(st, k)
    ensures Orphan(CallRefuse(c, st, x, h), k)
  {
    if x != 0 && ResolveConn(c, st, x, h).Found? {
      OrphanFrame(st, CallRefuse(c, st, x, h), k, ResolveConn(c, st, x, h).index, |st.msgs|);
    }
  }

  lemma CloseLeavesOrphan(c: Config, st: Ipc, x: int, h: int, k: nat)
    requires Shape(c, st) && Orphan(st, k)
    ensures Orphan(CloseBegin(c, st, x, h).st, k)
  {
    var r := CloseBegin(c, st, x, h);
    if r.st != st {
      var j := ResolveConn(c, st, x, h).index;
      OrphanFrame(st, r.st, k, j, if r.msg.Some? then r.msg.value else AbandonedOn(st.msgs, j, 0).value);
    }
  }

  lemma EndLeavesOrphan(c: Config, st: Ipc, step: Step, k: nat)
    requires Shape(c, st) && Linked(st) && QueueRange(st) && Enabled(st, step) && Orphan(st, k)
    requires step.DoConnectFinish? || step.DoCallFinish? || step.DoCloseFinish? || step.DoConnectReturn? ||
             step.DoCallReturn? || step.DoCloseReturn?
    ensures Orphan(Apply(c, st, step), k)
  {
    hide Without;
    hide QueueRange;
    var i := st.pending[step.caller].msg;
    OrphanFrame(st, Apply(c, st, step), k, st.msgs[i].conn, i);
  }

  lemma ServerLeavesOrphan(c: Config, st: Ipc, step: Step, k: nat)
    requires Shape(c, st) && Linked(st) && QueueRange(st) && Orphan(st, k)
    requires step.DoSetRhandle? || step.DoRead? || step.DoWrite? || step.DoReply?
    ensures Orphan(Apply(c, st, step), k)
  {
    hide QueueRange;
    if ResolveMsg(c, st, step.pid, step.handle).Found? {
      var i := ResolveMsg(c, st, step.pid, step.handle).index;
      OrphanFrame(st, Apply(c, st, step), k, st.msgs[i].conn, i);
    }
  }

  lemma GetLeavesOrphan(c: Config, st: Ipc, p: int, signal: Word, k: nat)
    requires Shape(c, st) && QueueRange(st) && Orphan(st, k)
    ensures Orphan(GetMsg(c, st, p, signal).st, k)
  {
    var r := GetMsg(c, st, p, signal);
    if r.delivery.Some? {
      var i := st.queues[SignalFrom(c.services, FindPartition(c, p).value, signal, 0).value][0];
      OrphanFrame(st, r.st, k, st.msgs[i].conn, i);
    }
  }

  lemma FailedConnsReach(c: Config, st: Ipc, pid: int, status: int, k: nat)
    requires Shape(c, st) && Inv(c, st) && Orphan(st, k)
    ensures FailPartition(c, st, pid, status).conns[k] == FailedConn(c, st.conns[k], pid)
  {
    hide Inv;
    var r1 := FailMsgs(c, st, pid, status, |st.msgs|);
    FailMsgsTouch(c, st, pid, status, |st.msgs|);
    assert Unnamed(st, k, |st.msgs|);
    hide FailMsgs;
    var r2 := DrainQueues(c, r1, pid, |c.services|);
    hide DrainQueues;
    FailConnsEffect(c, r2, pid, |st.conns|);
    hide FailConns;
  }

  /** A partition failure does to an orphan only what its last loop does. */
  lemma FailReachesOrphan(c: Config, st: Ipc, pid: int, status: int, k: nat)
    requires Shape(c, st) && Inv(c, st) && pid != 0 && Orphan(st, k)
    ensures var r := FailPartition(c, st, pid, status);
            && Inv(c, r) && |r.conns| == |st.conns| && r.conns[k] == FailedConn(c, st.conns[k], pid) && NoRequest(r, k)
  {
    hide Inv;
    hide FailPartition;
    FailPartitionInv(c, st, pid, status);
    FailedConnsReach(c, st, pid, status, k);
    var r := FailPartition(c, st, pid, status);
    forall i | 0 <= i < |r.msgs| && r.msgs[i].phase != Unused ensures r.msgs[i].conn != k {
      assert r.msgs[i] == FailedMsg(c, st.msgs[i], pid, status);
    }
  }

  lemma DropReachesOrphan(c: Config, st: Ipc, r: Ipc, x: int, k: nat)
    requires NoRequest(st, k) && k < |st.conns| && ClientFailed(st, r, x)
    ensures NoRequest(r, k) && |r.conns| == |st.conns|
    ensures r.conns[k] == if st.conns[k].state != Free && st.conns[k].caller == x
                          then FreeConn(NextGeneration(st.conns[k].gen)) else st.conns[k]
  {
  }

  lemma FaultAndOrphan(c: Config, st: Ipc, step: Step, k: nat)
    requires Shape(c, st) && Inv(c, st) && Linked(st) && QueueRange(st) && Orphan(st, k)
    requires step.DoFailPartition? || step.DoFailClient? || step.DoRestart?
    ensures Orphan(Apply(c, st, step), k) <==> !Reclaims(c, st, step, k)
  {
    hide Inv;
    hide FailPartition;
    hide FailClient;
    match step
    case DoFailPartition(p, status) => if p != 0 { FailReachesOrphan(c, st, p, status, k); }
    case DoFailClient(x) =>
      FailClientInv(c, st, x);
      DropReachesOrphan(c, st, FailClient(c, st, x), x, k);
    case DoRestart(p, status) =>
      if FindPartition(c, p).Some? {
        var r := FailPartition(c, st, p, status);
        FailReachesOrphan(c, st, p, status, k);
        FailClientInv(c, r, p);
        DropReachesOrphan(c, r, FailClient(c, r, p), p, k);
      }
  }

  /** An orphan stays one under every step but the tear-down that reclaims it. */
  lemma OrphanStays(c: Config, st: Ipc, step: Step, k: nat)
    requires Shape(c, st) && Inv(c, st) && Linked(st) && QueueRange(st) && Enabled(st, step) && Orphan(st, k)
    ensures Orphan(Apply(c, st, step), k) <==> !Reclaims(c, st, step, k)
  {
    hide Inv;
    hide Shape;
    hide Orphan;
    match step
    case DoConnect(x, sid, version) => ConnectLeavesOrphan(c, st, x, sid, version, k);
    case DoCall(x, h, kind, ins, outs) => CallLeavesOrphan(c, st, x, h, kind, ins, outs, k);
    case DoRefuse(x, h) => RefuseLeavesOrphan(c, st, x, h, k);
    case DoClose(x, h) => CloseLeavesOrphan(c, st, x, h, k);
    case DoGet(p, signal) => GetLeavesOrphan(c, st, p, signal, k);
    case DoSetRhandle(_, _, _) => ServerLeavesOrphan(c, st, step, k);
    case DoRead(_, _, _, _) => ServerLeavesOrphan(c, st, step, k);
    case DoWrite(_, _, _, _) => ServerLeavesOrphan(c, st, step, k);
    case DoReply(_, _, _) => ServerLeavesOrphan(c, st, step, k);
    case DoFailPartition(_, _) => FaultAndOrphan(c, st, step, k);
    case DoFailClient(_) => FaultAndOrphan(c, st, step, k);
    case DoRestart(_, _) => FaultAndOrphan(c, st, step, k);
    case DoNotify(_) => SignalLeavesOrphan(c, st, step, k);
    case DoClear(_) => SignalLeavesOrphan(c, st, step, k);
    case DoEndOfInterrupt(_, _) => SignalLeavesOrphan(c, st, step, k);
    case DoAssertIrq(_, _) => SignalLeavesOrphan(c, st, step, k);
    case DoEnvironment(_) => SignalLeavesOrphan(c, st, step, k);
    case _ => EndLeavesOrphan(c, st, step, k);
  }

  lemma SignalLeavesOrphan(c: Config, st: Ipc, step: Step, k: nat)
    requires Shape(c, st) && Linked(st) && QueueRange(st) && Orphan(st, k)
    requires step.DoNotify? || step.DoClear? || step.DoEndOfInterrupt? || step.DoAssertIrq? || step.DoEnvironment?
    ensures Orphan(Apply(c, st, step), k)
  {
    hide Shape;
    hide Linked;
    hide QueueRange;
    OrphanFrame(st, Apply(c, st, step), k, k, |st.msgs|);
  }

  /** No step of the run reclaims connection k. */
  ghost predicate Unreclaimed(c: Config, st: Ipc, run: seq<Step>, k: nat)
    decreases |run|
  {
    run != [] && Shape(c, st) && Linked(st) && QueueRange(st) && Enabled(st, run[0]) && Orphan(st, k) ==>
      !Reclaims(c, st, run[0], k) && Unreclaimed(c, Apply(c, st, run[0]), run[1..], k)
  }

  /** Without such a tear-down the slot is lost to the pool for the rest of the run. */
  lemma {:induction false} OrphanForever(c: Config, st: Ipc, run: seq<Step>, st': Ipc, k: nat)
    requires Inv(c, st) && Orphan(st, k) && Runs(c, st, run, st') && Unreclaimed(c, st, run, k)
    ensures Orphan(st', k)
    decreases |run|
  {
    if run != [] {
      hide Inv;
      hide Orphan;
      hide Apply;
      hide Shape;
      hide Reclaims;
      StepInv(c, st, run[0]);
      OrphanStays(c, st, run[0], k);
      OrphanForever(c, Apply(c, st, run[0]), run[1..], st', k);
    }
  }

  /** Its owner can neither use nor close it. */
  lemma OrphanRefuses(c: Config, st: Ipc, k: nat, h: int, kind: int, ins: VecArg, outs: VecArg)
    requires Shape(c, st) && Orphan(st, k) && ResolveConn(c, st, st.conns[k].caller, h) == Found(k)
    ensures CallBegin(c, st, st.conns[k].caller, h, kind, ins, outs).ret in {INVALID_ARGUMENT, PROGRAMMER_ERROR}
    ensures h != 0 && st.conns[k].caller != 0 ==> CloseBegin(c, st, st.conns[k].caller, h) == ClientRes(st, FFM_STATE, None)
  {
  }
}
