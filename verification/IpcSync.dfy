/**
  The split operations against the synchronous ones.  A client that began a request
  keeps it through everything the other parties do, and once the request is complete
  the finish step and the return from a successful dispatch are the same transition.
  */
module IpcSync {
  import opened Handles
  import opened IpcModel
  import opened IpcInvariant
  import opened IpcPreserve
  import opened IpcFaults
  import opened IpcRuns
  import opened IpcHistory
  import opened IpcTraces

  /** A step that client x does not take and that does not tear x down. */
  predicate Foreign(step: Step, x: int) {
    match step
    case DoConnect(y, _, _) => y != x
    case DoCall(y, _, _, _, _) => y != x
    case DoClose(y, _) => y != x
    case DoRefuse(y, _) => y != x
    case DoConnectFinish(y) => y != x
    case DoCallFinish(y, _) => y != x
    case DoCloseFinish(y) => y != x
    case DoConnectReturn(y, _) => y != x
    case DoCallReturn(y, _) => y != x
    case DoCloseReturn(y, _) => y != x
    case DoFailClient(y) => y != x
    case DoRestart(p, _) => p != x
    case _ => true
  }

  predicate ForeignRun(run: seq<Step>, x: int) {
    forall n :: 0 <= n < |run| ==> Foreign(run[n], x)
  }

  ghost predicate SamePend(st: Ipc, st': Ipc, x: int) {
    x in st.pending && x in st'.pending && st'.pending[x] == st.pending[x]
  }

  lemma EndKeepsPend(c: Config, st: Ipc, step: Step, x: int)
    requires Inv(c, st) && Takes(c, st, step) && x in st.pending && Foreign(step, x)
    requires step.DoConnectFinish? || step.DoCallFinish? || step.DoCloseFinish? || step.DoConnectReturn? ||
             step.DoCallReturn? || step.DoCloseReturn?
    ensures SamePend(st, Apply(c, st, step), x)
  {
    hide Without;
    hide PublishFirst;
    hide Shape;
    PendGives(c, st, step.caller);
    hide Inv;
  }

  lemma FailKeepsPend(c: Config, st: Ipc, p: int, status: int, x: int)
    requires Inv(c, st) && x in st.pending && p != 0
    ensures SamePend(st, FailPartition(c, st, p, status), x)
  {
    FailPartitionInv(c, st, p, status);
    hide FailPartition;
    hide Inv;
  }

  lemma DropKeepsPend(c: Config, st: Ipc, y: int, x: int)
    requires Inv(c, st) && x in st.pending && y != x
    ensures SamePend(st, FailClient(c, st, y), x)
  {
    FailClientInv(c, st, y);
    hide FailClient;
    hide Inv;
  }

  lemma RestartKeepsPend(c: Config, st: Ipc, p: int, status: int, x: int)
    requires Shape(c, st) && Inv(c, st) && x in st.pending && p != x
    ensures SamePend(st, Restarted(c, st, p, status), x)
  {
    hide Inv;
    hide Shape;
    if FindPartition(c, p).Some? {
      FailPartitionInv(c, st, p, status);
      FailKeepsPend(c, st, p, status, x);
      DropKeepsPend(c, FailPartition(c, st, p, status), p, x);
    }
    hide FailPartition;
    hide FailClient;
  }

  lemma BeginKeepsPend(c: Config, st: Ipc, step: Step, x: int)
    requires Shape(c, st) && Takes(c, st, step) && x in st.pending && Foreign(step, x)
    requires step.DoConnect? || step.DoCall? || step.DoClose? || step.DoRefuse?
    ensures SamePend(st, Apply(c, st, step), x)
  {
  }

  lemma ServerKeepsPend(c: Config, st: Ipc, step: Step, x: int)
    requires Shape(c, st) && Takes(c, st, step) && x in st.pending
    requires step.DoGet? || step.DoSetRhandle? || step.DoRead? || step.DoWrite? || step.DoReply?
    ensures SamePend(st, Apply(c, st, step), x)
  {
  }

  lemma SignalKeepsPend(c: Config, st: Ipc, step: Step, x: int)
    requires Shape(c, st) && Takes(c, st, step) && x in st.pending
    requires step.DoNotify? || step.DoClear? || step.DoEndOfInterrupt? || step.DoAssertIrq? || step.DoEnvironment?
    ensures SamePend(st, Apply(c, st, step), x)
  {
  }

  lemma FaultKeepsPend(c: Config, st: Ipc, step: Step, x: int)
    requires Shape(c, st) && Inv(c, st) && Takes(c, st, step) && x in st.pending && Foreign(step, x)
    requires step.DoFailPartition? || step.DoFailClient? || step.DoRestart?
    ensures SamePend(st, Apply(c, st, step), x)
  {
    hide Inv;
    hide Shape;
    hide FailPartition;
    hide FailClient;
    hide Restarted;
    match step
    case DoFailPartition(p, status) => if p != 0 { FailKeepsPend(c, st, p, status, x); }
    case DoFailClient(y) => DropKeepsPend(c, st, y, x);
    case DoRestart(p, status) => RestartKeepsPend(c, st, p, status, x);
  }

  lemma StepKeepsPend(c: Config, st: Ipc, step: Step, x: int)
    requires Shape(c, st) && Inv(c, st) && Takes(c, st, step) && x in st.pending && Foreign(step, x)
    ensures SamePend(st, Apply(c, st, step), x)
  {
    hide Inv;
    hide Shape;
    hide Apply;
    if step.DoConnect? || step.DoCall? || step.DoClose? || step.DoRefuse? {
      BeginKeepsPend(c, st, step, x);
    } else if step.DoGet? || step.DoSetRhandle? || step.DoRead? || step.DoWrite? || step.DoReply? {
      ServerKeepsPend(c, st, step, x);
    } else if step.DoFailPartition? || step.DoFailClient? || step.DoRestart? {
      FaultKeepsPend(c, st, step, x);
    } else if step.DoNotify? || step.DoClear? || step.DoEndOfInterrupt? || step.DoAssertIrq? || step.DoEnvironment? {
      SignalKeepsPend(c, st, step, x);
    } else {
      EndKeepsPend(c, st, step, x);
    }
  }

  lemma PendGives(c: Config, st: Ipc, x: int)
    requires Inv(c, st) && x in st.pending
    ensures PendOk(st, x)
  {
  }

  /** The slot x waits for still holds the request x placed there. */
  ghost predicate SameWait(st: Ipc, st': Ipc, x: int) {
    && SamePend(st, st', x)
    && var i := st.pending[x].msg;
       && i < |st.msgs| && i < |st'.msgs| && st'.msgs[i].gen == st.msgs[i].gen
       && st.msgs[i].phase != Unused && SameRequest(st.msgs[i], st'.msgs[i], false)
       && st'.msgs[i].abandon == Kept
  }

  lemma StepKeepsWait(c: Config, st: Ipc, step: Step, x: int)
    requires Shape(c, st) && Inv(c, st) && Takes(c, st, step) && x in st.pending && Foreign(step, x)
    ensures SameWait(st, Apply(c, st, step), x)
  {
    hide Inv;
    hide Apply;
    var st' := Apply(c, st, step);
    StepFacts(c, st, step);
    StepKeepsPend(c, st, step, x);
    PendGives(c, st, x);
    PendGives(c, st', x);
    var i := st.pending[x].msg;
    assert MsgEvolves(st, st.msgs[i], st'.msgs[i], i !in MovedBy(c, st, step));
  }

  /** A waiting client's request survives everything the other parties do. */
  lemma {:induction false} RunKeepsWait(c: Config, st: Ipc, run: seq<Step>, st': Ipc, x: int)
    requires Shape(c, st) && Inv(c, st) && Runs(c, st, run, st') && x in st.pending && ForeignRun(run, x)
    ensures Shape(c, st') && Inv(c, st') && SameWait(st, st', x)
    decreases |run|
  {
    hide Inv;
    hide Apply;
    hide Shape;
    PendGives(c, st, x);
    if run != [] {
      StepFacts(c, st, run[0]);
      StepKeepsWait(c, st, run[0], x);
      RunKeepsWait(c, Apply(c, st, run[0]), run[1..], st', x);
    }
  }

  /**
    Connect: the handle a synchronous connect returns is the one its begin computed,
    and the split form returns that handle too; both leave the same state.
    */
  lemma ConnectSplitIsSync(c: Config, st0: Ipc, x: int, sid: nat, version: nat, run: seq<Step>, st: Ipc)
    requires Shape(c, st0) && Inv(c, st0) && x !in st0.pending && ConnectBegin(c, st0, x, sid, version).msg.Some?
    requires Runs(c, ConnectBegin(c, st0, x, sid, version).st, run, st) && ForeignRun(run, x)
    ensures var b := ConnectBegin(c, st0, x, sid, version);
            var i := b.msg.value;
            && Shape(c, st) && WaitsFor(st, x, IPC_CONNECT) && st.pending[x] == Pend(i, b.ret)
            && (st.msgs[i].phase == Complete ==>
                  && ConnectReturn(c, st, i, b.ret, SUCCESS) == ConnectFinish(c, st, i)
                  && ConnectFinish(c, st, i).ret ==
                       if st.msgs[i].status == SUCCESS then b.ret else st.msgs[i].status)
  {
    hide Inv;
    hide ConnectBegin;
    hide Shape;
    hide Runs;
    var b := ConnectBegin(c, st0, x, sid, version);
    ConnectBegun(c, st0, x, sid, version);
    RunKeepsWait(c, b.st, run, st, x);
    PendGives(c, st, x);
  }

  /** What a successful begin of each kind leaves: its caller waits for a request of that kind. */
  lemma ConnectBegun(c: Config, st: Ipc, x: int, sid: nat, version: nat)
    requires Shape(c, st) && Inv(c, st) && x !in st.pending && ConnectBegin(c, st, x, sid, version).msg.Some?
    ensures var b := ConnectBegin(c, st, x, sid, version);
            && Inv(c, b.st) && Shape(c, b.st) && x in b.st.pending && b.st.pending[x] == Pend(b.msg.value, b.ret)
            && b.msg.value < |b.st.msgs| && b.st.msgs[b.msg.value].kind == IPC_CONNECT
  {
    ConnectBeginInv(c, st, x, sid, version);
    InvShape(c, ConnectBegin(c, st, x, sid, version).st);
    hide Inv;
    hide Shape;
  }

  lemma CallBegun(c: Config, st: Ipc, x: int, h: int, kind: int, ins: VecArg, outs: VecArg)
    requires Shape(c, st) && Inv(c, st) && x !in st.pending && CallBegin(c, st, x, h, kind, ins, outs).msg.Some?
    ensures var b := CallBegin(c, st, x, h, kind, ins, outs);
            && Inv(c, b.st) && Shape(c, b.st) && x in b.st.pending && b.st.pending[x].msg == b.msg.value < |b.st.msgs|
            && var m := b.st.msgs[b.msg.value];
               && m.kind >= 0 && m.caller == x
               && m.ins == Capture(st.env.memory, ins.vecs) && m.outs == Prepare(outs.vecs)
  {
    CallBeginInv(c, st, x, h, kind, ins, outs);
    InvShape(c, CallBegin(c, st, x, h, kind, ins, outs).st);
    hide Inv;
    hide Shape;
    hide VectorError;
  }

  lemma CloseBegun(c: Config, st: Ipc, x: int, h: int)
    requires Shape(c, st) && Inv(c, st) && x !in st.pending && CloseBegin(c, st, x, h).msg.Some?
    ensures var b := CloseBegin(c, st, x, h);
            && Inv(c, b.st) && Shape(c, b.st) && x in b.st.pending && b.st.pending[x].msg == b.msg.value < |b.st.msgs|
            && b.st.msgs[b.msg.value].kind == IPC_DISCONNECT
  {
    CloseBeginInv(c, st, x, h);
    InvShape(c, CloseBegin(c, st, x, h).st);
    hide Inv;
    hide Shape;
  }

  /**
    Call: same status, same published bytes and same state, whatever array the finish is given.  The lengths it
    stores are those of the outputs it has room for, so they are all of them exactly if nothing is published
    or the array is there and at least as long as the one the call began with.
    */
  lemma CallSplitIsSync(c: Config, st0: Ipc, x: int, h: int, kind: int, ins: VecArg, outs: VecArg,
                        run: seq<Step>, st: Ipc, room: Option<nat>)
    requires Shape(c, st0) && Inv(c, st0) && x !in st0.pending && CallBegin(c, st0, x, h, kind, ins, outs).msg.Some?
    requires Runs(c, CallBegin(c, st0, x, h, kind, ins, outs).st, run, st) && ForeignRun(run, x)
    ensures var i := CallBegin(c, st0, x, h, kind, ins, outs).msg.value;
            && Shape(c, st) && WaitsFor(st, x, 0) && st.pending[x].msg == i
            && var r, f := CallReturn(c, st, i, SUCCESS), CallFinish(c, st, i, room);
               && f.st == r.st && f.ret == r.ret
               && f.lens == r.lens[..if room.None? then 0 else Min(room.value, |r.lens|)]
               && (r.lens == [] || |r.lens| == |outs.vecs|)
               && (f.lens == r.lens <==> r.lens == [] || (room.Some? && room.value >= |outs.vecs|))
  {
    hide Inv;
    hide CallBegin;
    hide Shape;
    hide Runs;
    hide CallReturn;
    hide CallFinish;
    var b := CallBegin(c, st0, x, h, kind, ins, outs);
    CallBegun(c, st0, x, h, kind, ins, outs);
    RunKeepsWait(c, b.st, run, st, x);
    CallTails(c, st, b.msg.value, room);
  }

  /** Close: same state. */
  lemma CloseSplitIsSync(c: Config, st0: Ipc, x: int, h: int, run: seq<Step>, st: Ipc)
    requires Shape(c, st0) && Inv(c, st0) && x !in st0.pending && CloseBegin(c, st0, x, h).msg.Some?
    requires Runs(c, CloseBegin(c, st0, x, h).st, run, st) && ForeignRun(run, x)
    ensures var i := CloseBegin(c, st0, x, h).msg.value;
            && Shape(c, st) && WaitsFor(st, x, IPC_DISCONNECT) && st.pending[x].msg == i
            && CloseReturn(c, st, i, SUCCESS) == CloseFinish(c, st, i)
  {
    hide Inv;
    hide CloseBegin;
    hide Shape;
    hide Runs;
    var b := CloseBegin(c, st0, x, h);
    CloseBegun(c, st0, x, h);
    RunKeepsWait(c, b.st, run, st, x);
  }
}
