/**
  How a connection slot and a message slot evolve along a run: generations only
  advance by release, a recorded programmer error is never forgotten, and a reverse
  handle never outlives the partition instance that set it.
  */
module IpcHistory {
  import opened Bits
  import opened Handles
  import opened IpcModel
  import opened IpcInvariant
  import opened IpcPreserve
  import opened IpcFaults
  import opened IpcRuns

  /** A client programmer error is recorded: the connection is dropped, or will be once its request completes. */
  predicate Absorbed(conn: Conn) {
    conn.state in {Error, Disconnecting, Terminal} || (conn.latch && conn.state in {PendingRequest, Active})
  }

  /** Slot contents o may become v in one step that does not release the slot; values are reverse handles it may set, and only a connect opens a free slot. */
  predicate Stays(o: Conn, v: Conn, values: set<nat>, opens: bool) {
    && v.gen == o.gen
    && (v.rhandle == o.rhandle || v.rhandle == 0 || v.rhandle in values)
    && (o.state == Free ==> v == o || (opens && v.state == PendingConnect && v.rhandle == o.rhandle))
    && (o.state != Free ==>
          && v.state != Free && v.caller == o.caller && v.service == o.service && v.instance == o.instance
          && (Absorbed(o) ==> Absorbed(v))
          && (o.state == Terminal ==> v.state == Terminal && v.rhandle == o.rhandle))
  }

  predicate Evolves(o: Conn, v: Conn, values: set<nat>, opens: bool) {
    v == FreeConn(NextGeneration(o.gen)) || Stays(o, v, values, opens)
  }

  ghost predicate ConnsEvolve(st: Ipc, st': Ipc, values: set<nat>, opens: bool) {
    |st'.conns| == |st.conns| && forall k :: 0 <= k < |st.conns| ==> Evolves(st.conns[k], st'.conns[k], values, opens)
  }

  /** A step that changed only connection k. */
  lemma OneConnEvolves(st: Ipc, st': Ipc, k: nat, values: set<nat>, opens: bool)
    requires k < |st.conns| == |st'.conns|
    requires forall j :: 0 <= j < |st.conns| && j != k ==> st'.conns[j] == st.conns[j]
    requires Evolves(st.conns[k], st'.conns[k], values, opens)
    ensures ConnsEvolve(st, st', values, opens)
  {
  }

  lemma ConnectEvolves(c: Config, st: Ipc, x: int, sid: nat, version: nat)
    requires Inv(c, st)
    ensures ConnsEvolve(st, ConnectBegin(c, st, x, sid, version).st, {}, true)
  {
    var st' := ConnectBegin(c, st, x, sid, version).st;
    var k := FreeConnFrom(st.conns, 0);
    if st' != st {
      assert ConnOk(c, st, k);
      OneConnEvolves(st, st', k, {}, true);
    }
  }

  lemma CallEvolves(c: Config, st: Ipc, x: int, h: int, kind: int, ins: VecArg, outs: VecArg)
    requires Inv(c, st)
    ensures ConnsEvolve(st, CallBegin(c, st, x, h, kind, ins, outs).st, {}, false)
  {
    hide VectorError;
    hide Capture;
    hide Prepare;
    hide CoreOk;
    hide QueuesOk;
    hide SignalsOk;
    hide PendsOk;
    if x != 0 && ResolveConn(c, st, x, h).Found? {
      OneConnEvolves(st, CallBegin(c, st, x, h, kind, ins, outs).st, ResolveConn(c, st, x, h).index, {}, false);
    }
  }

  lemma CloseEvolves(c: Config, st: Ipc, x: int, h: int)
    requires Inv(c, st)
    ensures ConnsEvolve(st, CloseBegin(c, st, x, h).st, {}, false)
  {
    if h != 0 && x != 0 && ResolveConn(c, st, x, h).Found? {
      OneConnEvolves(st, CloseBegin(c, st, x, h).st, ResolveConn(c, st, x, h).index, {}, false);
    }
  }

  lemma RefuseEvolves(c: Config, st: Ipc, x: int, h: int)
    requires Inv(c, st)
    ensures ConnsEvolve(st, CallRefuse(c, st, x, h), {}, false)
  {
    if x != 0 && ResolveConn(c, st, x, h).Found? {
      OneConnEvolves(st, CallRefuse(c, st, x, h), ResolveConn(c, st, x, h).index, {}, false);
    }
  }

  lemma EndEvolves(c: Config, st: Ipc, step: Step)
    requires Inv(c, st) && Linked(st) && QueueRange(st) && Enabled(st, step)
    requires step.DoConnectFinish? || step.DoCallFinish? || step.DoCloseFinish? || step.DoConnectReturn? ||
             step.DoCallReturn? || step.DoCloseReturn?
    ensures ConnsEvolve(st, Apply(c, st, step), {}, false)
  {
    hide Inv;
    hide Shape;
    hide Without;
    hide QueueRange;
    hide PublishFirst;
    hide NextGeneration;
    var i := st.pending[step.caller].msg;
    RequestFacts(c, st, i);
    if step.DoConnectFinish? || step.DoCallFinish? || step.DoCloseFinish? {
      OneConnEvolves(st, Apply(c, st, step), st.msgs[i].conn, {}, false);
    } else {
      ReturnEvolves(c, st, step, i);
    }
  }

  /** What an occupied message slot says about its connection. */
  lemma RequestFacts(c: Config, st: Ipc, i: nat)
    requires Inv(c, st) && i < |st.msgs| && st.msgs[i].phase != Unused
    ensures Shape(c, st) && st.msgs[i].conn < |st.conns| && st.msgs[i].service < |c.services|
    ensures st.conns[st.msgs[i].conn].state != Free
    ensures st.msgs[i].kind >= 0 ==> st.conns[st.msgs[i].conn].state != Terminal
  {
    assert MsgOk(st, i);
  }

  lemma ReturnEvolves(c: Config, st: Ipc, step: Step, i: nat)
    requires Shape(c, st) && Linked(st) && QueueRange(st) && Enabled(st, step)
    requires step.DoConnectReturn? || step.DoCallReturn? || step.DoCloseReturn?
    requires i == st.pending[step.caller].msg < |st.msgs| && st.msgs[i].conn < |st.conns| && st.msgs[i].service < |c.services|
    requires st.conns[st.msgs[i].conn].state != Free
    requires st.msgs[i].kind >= 0 ==> st.conns[st.msgs[i].conn].state != Terminal
    ensures ConnsEvolve(st, Apply(c, st, step), {}, false)
  {
    hide Shape;
    hide Without;
    hide QueueRange;
    hide PublishFirst;
    hide NextGeneration;
    OneConnEvolves(st, Apply(c, st, step), st.msgs[i].conn, {}, false);
  }

  lemma GetEvolves(c: Config, st: Ipc, p: int, signal: Word)
    requires Inv(c, st) && QueueRange(st)
    ensures ConnsEvolve(st, GetMsg(c, st, p, signal).st, {}, false)
  {
    if GetMsg(c, st, p, signal).delivery.Some? {
      var s := SignalFrom(c.services, FindPartition(c, p).value, signal, 0).value;
      var i := st.queues[s][0];
      assert MsgOk(st, i);
      OneConnEvolves(st, Deliver(c, st, s), st.msgs[i].conn, {}, false);
    }
  }

  lemma SetRhandleEvolves(c: Config, st: Ipc, p: int, h: int, value: nat)
    requires Inv(c, st)
    ensures ConnsEvolve(st, SetRhandle(c, st, p, h, value).st, {value}, false)
  {
    if ResolveMsg(c, st, p, h).Found? {
      var i := ResolveMsg(c, st, p, h).index;
      assert MsgOk(st, i);
      OneConnEvolves(st, SetRhandle(c, st, p, h, value).st, st.msgs[i].conn, {value}, false);
    }
  }

  lemma ReplyEvolves(c: Config, st: Ipc, p: int, h: int, status: int)
    requires Inv(c, st) && Linked(st)
    ensures ConnsEvolve(st, Reply(c, st, p, h, status).st, {}, false)
  {
    if ResolveMsg(c, st, p, h).Found? {
      var i := ResolveMsg(c, st, p, h).index;
      assert MsgOk(st, i);
      OneConnEvolves(st, Reply(c, st, p, h, status).st, st.msgs[i].conn, {}, false);
    }
  }

  // ---------------------------------------------------------------- fault cleanup

  ghost predicate Unnamed(st: Ipc, k: nat, n: nat)
    requires n <= |st.msgs|
  {
    forall j :: 0 <= j < n && st.msgs[j].phase != Unused ==> st.msgs[j].conn != k
  }

  /** Failing requests touches only the connections they name. */
  ghost predicate FailTouches(st: Ipc, r: Ipc, n: nat)
    requires n <= |st.msgs|
  {
    && |r.conns| == |st.conns|
    && forall k :: 0 <= k < |st.conns| ==>
         Evolves(st.conns[k], r.conns[k], {}, false) && (Unnamed(st, k, n) ==> r.conns[k] == st.conns[k])
  }

  lemma FailMsgTouches(c: Config, st: Ipc, r: Ipc, pid: int, status: int, n: nat)
    requires Inv(c, st) && Shape(c, r) && n < |st.msgs| == |r.msgs|
    requires FailTouches(st, r, n) && r.msgs[n] == st.msgs[n]
    ensures FailTouches(st, FailMsg(c, r, pid, status, n), n + 1)
  {
    var m := st.msgs[n];
    var r' := FailMsg(c, r, pid, status, n);
    if InFlight(m) {
      assert MsgOk(st, n);
      assert Unnamed(st, m.conn, n);
    }
    forall k | 0 <= k < |st.conns|
      ensures Evolves(st.conns[k], r'.conns[k], {}, false) && (Unnamed(st, k, n + 1) ==> r'.conns[k] == st.conns[k])
    {
      if Unnamed(st, k, n + 1) {
        assert Unnamed(st, k, n);
      }
    }
  }

  lemma NotFailedYet(c: Config, st: Ipc, pid: int, status: int, n: nat)
    requires Shape(c, st) && n < |st.msgs|
    ensures FailMsgs(c, st, pid, status, n).msgs[n] == st.msgs[n]
  {
    FailMsgsEffect(c, st, pid, status, n);
  }

  lemma TouchesNone(st: Ipc)
    ensures FailTouches(st, st, 0)
  {
  }

  lemma {:induction false} FailMsgsTouch(c: Config, st: Ipc, pid: int, status: int, n: nat)
    requires Shape(c, st) && Inv(c, st) && n <= |st.msgs|
    ensures FailTouches(st, FailMsgs(c, st, pid, status, n), n)
  {
    hide Inv;
    hide FailTouches;
    hide FailMsg;
    hide Shape;
    if n == 0 {
      TouchesNone(st);
    } else {
      FailMsgsTouch(c, st, pid, status, n - 1);
      NotFailedYet(c, st, pid, status, n - 1);
      FailMsgTouches(c, st, FailMsgs(c, st, pid, status, n - 1), pid, status, n - 1);
    }
  }

  lemma FailPartitionEvolves(c: Config, st: Ipc, pid: int, status: int)
    requires Inv(c, st) && pid != 0
    ensures ConnsEvolve(st, FailPartition(c, st, pid, status), {}, false)
  {
    var r1 := FailMsgs(c, st, pid, status, |st.msgs|);
    FailMsgsTouch(c, st, pid, status, |st.msgs|);
    var r2 := DrainQueues(c, r1, pid, |c.services|);
    FailConnsEffect(c, r2, pid, |st.conns|);
    forall k | 0 <= k < |st.conns| && st.conns[k].state == Free ensures r2.conns[k] == st.conns[k] {
      FreeHasNoRequest(c, st, k);
      assert Unnamed(st, k, |st.msgs|);
    }
    FailedConnsEvolve(c, st, r2, FailConns(c, r2, pid, |st.conns|), pid);
  }

  lemma FailedConnsEvolve(c: Config, st: Ipc, r: Ipc, r': Ipc, pid: int)
    requires Shape(c, r) && ConnsEvolve(st, r, {}, false) && ConnsFailedFirst(c, r, r', pid, |r.conns|)
    requires forall k :: 0 <= k < |st.conns| && st.conns[k].state == Free ==> r.conns[k] == st.conns[k]
    ensures ConnsEvolve(st, r', {}, false)
  {
    forall k | 0 <= k < |st.conns| ensures Evolves(st.conns[k], r'.conns[k], {}, false) {
      assert r'.conns[k] == FailedConn(c, r.conns[k], pid);
    }
  }

  lemma DroppedConnsEvolve(st: Ipc, r: Ipc, r': Ipc, caller: int)
    requires ConnsEvolve(st, r, {}, false) && ConnsDroppedFirst(r, r', caller, |r.conns|)
    ensures ConnsEvolve(st, r', {}, false)
  {
  }

  lemma FailClientEvolves(c: Config, st: Ipc, caller: int)
    requires Inv(c, st)
    ensures ConnsEvolve(st, FailClient(c, st, caller), {}, false)
  {
    FailClientInv(c, st, caller);
    DroppedConnsEvolve(st, st, FailClient(c, st, caller), caller);
  }

  lemma RestartEvolves(c: Config, st: Ipc, pid: int, status: int)
    requires Inv(c, st)
    ensures ConnsEvolve(st, Restarted(c, st, pid, status), {}, false)
  {
    if FindPartition(c, pid).Some? {
      var r1 := FailPartition(c, st, pid, status);
      FailPartitionInv(c, st, pid, status);
      FailPartitionEvolves(c, st, pid, status);
      FailClientInv(c, r1, pid);
      DroppedConnsEvolve(st, r1, FailClient(c, r1, pid), pid);
    }
  }

  /** The reverse handle a step may set. */
  function RhandleOf(step: Step): set<nat> {
    if step.DoSetRhandle? then {step.value} else {}
  }

  /** Every step evolves every connection slot. */
  lemma StepEvolves(c: Config, st: Ipc, step: Step)
    requires Shape(c, st) && Inv(c, st) && Linked(st) && QueueRange(st) && Enabled(st, step)
    ensures ConnsEvolve(st, Apply(c, st, step), RhandleOf(step), step.DoConnect?)
  {
    hide Inv;
    hide Shape;
    hide ConnsEvolve;
    hide ConnectBegin;
    hide CallBegin;
    hide CloseBegin;
    hide CallRefuse;
    hide GetMsg;
    hide SetRhandle;
    hide Reply;
    hide FailPartition;
    hide FailClient;
    hide Restarted;
    match step
    case DoConnect(x, sid, version) => ConnectEvolves(c, st, x, sid, version);
    case DoCall(x, h, kind, ins, outs) => CallEvolves(c, st, x, h, kind, ins, outs);
    case DoClose(x, h) => CloseEvolves(c, st, x, h);
    case DoRefuse(x, h) => RefuseEvolves(c, st, x, h);
    case DoGet(p, signal) => GetEvolves(c, st, p, signal);
    case DoSetRhandle(p, h, value) => SetRhandleEvolves(c, st, p, h, value);
    case DoReply(p, h, status) => ReplyEvolves(c, st, p, h, status);
    case DoFailPartition(p, status) =>
      if p != 0 { FailPartitionEvolves(c, st, p, status); } else { SameConns(st, st); }
    case DoFailClient(x) => FailClientEvolves(c, st, x);
    case DoRestart(p, status) => RestartEvolves(c, st, p, status);
    case DoRead(_, _, _, _) => QuietConns(c, st, step);
    case DoWrite(_, _, _, _) => QuietConns(c, st, step);
    case DoEnvironment(_) => QuietConns(c, st, step);
    case DoNotify(_) => QuietConns(c, st, step);
    case DoClear(_) => QuietConns(c, st, step);
    case DoEndOfInterrupt(_, _) => QuietConns(c, st, step);
    case DoAssertIrq(_, _) => QuietConns(c, st, step);
    case _ => EndEvolves(c, st, step);
  }

  lemma SameConns(st: Ipc, st': Ipc)
    requires st'.conns == st.conns
    ensures ConnsEvolve(st, st', {}, false)
  {
  }

  lemma QuietConns(c: Config, st: Ipc, step: Step)
    requires Shape(c, st) && Linked(st) && QueueRange(st) && Enabled(st, step)
    requires step.DoRead? || step.DoWrite? || step.DoEnvironment? || step.DoNotify? || step.DoClear? ||
             step.DoEndOfInterrupt? || step.DoAssertIrq?
    ensures ConnsEvolve(st, Apply(c, st, step), {}, false)
  {
    hide Shape;
    hide ConnsEvolve;
    SameConns(st, Apply(c, st, step));
  }

  // ---------------------------------------------------------------- message slots

  /** The same request, with its bytes untouched unless a transfer moved them; an abandoned one may forget its addresses. */
  predicate SameRequest(o: Msg, v: Msg, exact: bool) {
    && v.phase != Unused && v.caller == o.caller && v.conn == o.conn && v.service == o.service && v.kind == o.kind
    && |v.ins| == |o.ins| && |v.outs| == |o.outs|
    && (exact ==> v.ins == o.ins && (v.outs == o.outs || (v.outs == Forget(o.outs) && v.abandon != Kept)))
  }

  /** Slot contents o may become v: released (perhaps to carry a cleanup disconnect), filled, or kept. */
  predicate MsgEvolves(st: Ipc, o: Msg, v: Msg, exact: bool) {
    || (v.gen == NextGeneration(o.gen) && (v.phase == Unused || (v.kind == IPC_DISCONNECT && v.abandon != Kept)))
    || (v.gen == o.gen && o.phase != Unused && SameRequest(o, v, exact))
    || (v.gen == o.gen && o.phase == Unused &&
          (v == o || (v.phase == Queued && v.conn < |st.conns| && (v.kind >= 0 ==> st.conns[v.conn].state == Idle))))
  }

  ghost predicate MsgsEvolve(st: Ipc, st': Ipc, moved: set<nat>) {
    && |st'.msgs| == |st.msgs|
    && forall i :: 0 <= i < |st.msgs| ==> MsgEvolves(st, st.msgs[i], st'.msgs[i], i !in moved)
  }

  lemma OneMsgEvolves(st: Ipc, st': Ipc, i: nat, moved: set<nat>)
    requires i < |st.msgs| == |st'.msgs|
    requires forall j :: 0 <= j < |st.msgs| && j != i ==> st'.msgs[j] == st.msgs[j]
    requires MsgEvolves(st, st.msgs[i], st'.msgs[i], i !in moved)
    ensures MsgsEvolve(st, st', moved)
  {
  }

  lemma NoMsgEvolves(st: Ipc, st': Ipc)
    requires st'.msgs == st.msgs
    ensures forall moved: set<nat> :: MsgsEvolve(st, st', moved)
  {
  }

  lemma ConnectMsgs(c: Config, st: Ipc, x: int, sid: nat, version: nat)
    requires Shape(c, st)
    ensures MsgsEvolve(st, ConnectBegin(c, st, x, sid, version).st, {})
  {
    var r := ConnectBegin(c, st, x, sid, version);
    if r.msg.Some? {
      OneMsgEvolves(st, r.st, r.msg.value, {});
    } else {
      NoMsgEvolves(st, r.st);
    }
  }

  lemma CallMsgs(c: Config, st: Ipc, x: int, h: int, kind: int, ins: VecArg, outs: VecArg)
    requires Shape(c, st)
    ensures MsgsEvolve(st, CallBegin(c, st, x, h, kind, ins, outs).st, {})
  {
    var st' := CallBegin(c, st, x, h, kind, ins, outs).st;
    var i := FreeMsgFrom(st.msgs, 0);
    if i < |st.msgs| {
      OneMsgEvolves(st, st', i, {});
    } else {
      NoMsgEvolves(st, st');
    }
  }

  lemma CloseMsgs(c: Config, st: Ipc, x: int, h: int)
    requires Shape(c, st)
    ensures MsgsEvolve(st, CloseBegin(c, st, x, h).st, {})
  {
    var r := CloseBegin(c, st, x, h);
    if r.st.msgs == st.msgs {
      NoMsgEvolves(st, r.st);
    } else if r.msg.Some? {
      OneMsgEvolves(st, r.st, r.msg.value, {});
    } else {
      OneMsgEvolves(st, r.st, AbandonedOn(st.msgs, ResolveConn(c, st, x, h).index, 0).value, {});
    }
  }

  lemma EndMsgs(c: Config, st: Ipc, step: Step)
    requires Shape(c, st) && Linked(st) && QueueRange(st) && Enabled(st, step)
    requires step.DoConnectFinish? || step.DoCallFinish? || step.DoCloseFinish? || step.DoConnectReturn? ||
             step.DoCallReturn? || step.DoCloseReturn?
    ensures MsgsEvolve(st, Apply(c, st, step), {})
  {
    hide QueueRange;
    hide PublishFirst;
    hide NextGeneration;
    hide MsgsEvolve;
    if step.DoConnectFinish? || step.DoCallFinish? || step.DoCloseFinish? {
      OneMsgEvolves(st, Apply(c, st, step), st.pending[step.caller].msg, {});
    } else {
      hide Apply;
      ReturnMsgs(c, st, step);
    }
  }

  lemma ReturnMsgs(c: Config, st: Ipc, step: Step)
    requires Shape(c, st) && Linked(st) && QueueRange(st) && Enabled(st, step)
    requires step.DoConnectReturn? || step.DoCallReturn? || step.DoCloseReturn?
    ensures MsgsEvolve(st, Apply(c, st, step), {})
  {
    hide QueueRange;
    hide Without;
    hide PublishFirst;
    hide NextGeneration;
    hide MsgsEvolve;
    OneMsgEvolves(st, Apply(c, st, step), st.pending[step.caller].msg, {});
  }

  lemma GetMsgs(c: Config, st: Ipc, p: int, signal: Word)
    requires Shape(c, st) && QueueRange(st)
    ensures MsgsEvolve(st, GetMsg(c, st, p, signal).st, {})
  {
    if GetMsg(c, st, p, signal).delivery.Some? {
      var s := SignalFrom(c.services, FindPartition(c, p).value, signal, 0).value;
      OneMsgEvolves(st, Deliver(c, st, s), st.queues[s][0], {});
    } else {
      NoMsgEvolves(st, st);
    }
  }

  /** The message whose bytes a transfer step may move. */
  ghost function MovedBy(c: Config, st: Ipc, step: Step): set<nat>
    requires Shape(c, st)
  {
    if (step.DoRead? || step.DoWrite?) && ResolveMsg(c, st, step.pid, step.handle).Found?
    then {ResolveMsg(c, st, step.pid, step.handle).index} else {}
  }

  lemma TransferMsgs(c: Config, st: Ipc, step: Step)
    requires Shape(c, st) && Linked(st) && QueueRange(st) && (step.DoRead? || step.DoWrite? || step.DoReply?)
    ensures MsgsEvolve(st, Apply(c, st, step), MovedBy(c, st, step))
  {
    hide QueueRange;
    hide NextGeneration;
    hide MsgsEvolve;
    var st' := Apply(c, st, step);
    if ResolveMsg(c, st, step.pid, step.handle).Found? {
      OneMsgEvolves(st, st', ResolveMsg(c, st, step.pid, step.handle).index, MovedBy(c, st, step));
    } else {
      NoMsgEvolves(st, st');
    }
  }

  lemma FailPartitionMsgs(c: Config, st: Ipc, pid: int, status: int)
    requires Inv(c, st) && pid != 0
    ensures MsgsEvolve(st, FailPartition(c, st, pid, status), {})
  {
    var r := FailPartition(c, st, pid, status);
    FailPartitionInv(c, st, pid, status);
    forall i | 0 <= i < |st.msgs| ensures MsgEvolves(st, st.msgs[i], r.msgs[i], true) {
      assert r.msgs[i] == FailedMsg(c, st.msgs[i], pid, status);
    }
  }

  lemma FailClientMsgs(c: Config, st: Ipc, caller: int)
    requires Inv(c, st)
    ensures MsgsEvolve(st, FailClient(c, st, caller), {})
  {
    FailClientInv(c, st, caller);
  }

  lemma RestartMsgs(c: Config, st: Ipc, pid: int, status: int)
    requires Inv(c, st)
    ensures MsgsEvolve(st, Restarted(c, st, pid, status), {})
  {
    if FindPartition(c, pid).Some? {
      var r := FailPartition(c, st, pid, status);
      FailPartitionInv(c, st, pid, status);
      FailPartitionMsgs(c, st, pid, status);
      FailClientInv(c, r, pid);
      DroppedMsgsEvolve(c, st, r, FailClient(c, r, pid), pid, status);
    } else {
      NoMsgEvolves(st, st);
    }
  }

  lemma DroppedMsgsEvolve(c: Config, st: Ipc, r: Ipc, r': Ipc, pid: int, status: int)
    requires Inv(c, st) && FailedFirst(c, st, r, pid, status, |st.msgs|) && DroppedFirst(r, r', pid, |r.msgs|)
    ensures MsgsEvolve(st, r', {})
  {
    forall i | 0 <= i < |st.msgs| ensures MsgEvolves(st, st.msgs[i], r'.msgs[i], true) {
      assert r.msgs[i] == FailedMsg(c, st.msgs[i], pid, status);
    }
  }

  /** Every step evolves every message slot. */
  lemma StepMsgs(c: Config, st: Ipc, step: Step)
    requires Shape(c, st) && Inv(c, st) && Linked(st) && QueueRange(st) && Enabled(st, step)
    ensures MsgsEvolve(st, Apply(c, st, step), MovedBy(c, st, step))
  {
    hide Inv;
    hide Shape;
    hide MsgsEvolve;
    hide ConnectBegin;
    hide CallBegin;
    hide CloseBegin;
    hide GetMsg;
    hide ReadMsg;
    hide WriteMsg;
    hide Reply;
    hide FailPartition;
    hide FailClient;
    hide Restarted;
    match step
    case DoConnect(x, sid, version) => ConnectMsgs(c, st, x, sid, version);
    case DoCall(x, h, kind, ins, outs) => CallMsgs(c, st, x, h, kind, ins, outs);
    case DoClose(x, h) => CloseMsgs(c, st, x, h);
    case DoRefuse(_, _) => QuietMsgs(c, st, step);
    case DoGet(p, signal) => GetMsgs(c, st, p, signal);
    case DoSetRhandle(_, _, _) => QuietMsgs(c, st, step);
    case DoRead(p, h, v, n) => TransferMsgs(c, st, step);
    case DoWrite(p, h, v, data) => TransferMsgs(c, st, step);
    case DoReply(p, h, status) => TransferMsgs(c, st, step);
    case DoFailPartition(p, status) =>
      if p != 0 { FailPartitionMsgs(c, st, p, status); } else { NoMsgEvolves(st, st); }
    case DoFailClient(x) => FailClientMsgs(c, st, x);
    case DoRestart(p, status) => RestartMsgs(c, st, p, status);
    case DoEnvironment(_) => QuietMsgs(c, st, step);
    case DoNotify(_) => QuietMsgs(c, st, step);
    case DoClear(_) => QuietMsgs(c, st, step);
    case DoEndOfInterrupt(_, _) => QuietMsgs(c, st, step);
    case DoAssertIrq(_, _) => QuietMsgs(c, st, step);
    case _ => EndMsgs(c, st, step);
  }

  lemma QuietMsgs(c: Config, st: Ipc, step: Step)
    requires Shape(c, st) && Linked(st) && QueueRange(st) && Enabled(st, step)
    requires step.DoRefuse? || step.DoSetRhandle? || step.DoEnvironment? || step.DoNotify? || step.DoClear? ||
             step.DoEndOfInterrupt? || step.DoAssertIrq?
    ensures MsgsEvolve(st, Apply(c, st, step), {})
  {
    hide MsgsEvolve;
    NoMsgEvolves(st, Apply(c, st, step));
  }
}
