/**
  Runs of the IPC runtime: any finite interleaving of client, server, fault and
  environment steps.  A client that began a request waits for it before it acts
  again; a synchronous operation is its begin, whatever the dispatch runs, and its
  return.
  */
module IpcRuns {
  import opened Bits
  import opened Handles
  import opened IpcModel
  import opened IpcInvariant
  import opened IpcPreserve
  import opened IpcFaults

  datatype Step =
    | DoConnect(caller: int, sid: nat, version: nat)
    | DoCall(caller: int, handle: int, kind: int, ins: VecArg, outs: VecArg)
    | DoClose(caller: int, handle: int)
    | DoRefuse(caller: int, handle: int)
    | DoConnectFinish(caller: int)
    | DoCallFinish(caller: int, room: Option<nat>)
    | DoCloseFinish(caller: int)
    | DoConnectReturn(caller: int, ret: int)
    | DoCallReturn(caller: int, ret: int)
    | DoCloseReturn(caller: int, ret: int)
    | DoGet(pid: int, signal: Word)
    | DoSetRhandle(pid: int, handle: int, value: nat)
    | DoRead(pid: int, handle: int, vec: nat, len: nat)
    | DoWrite(pid: int, handle: int, vec: nat, data: seq<Byte>)
    | DoReply(pid: int, handle: int, status: int)
    | DoFailPartition(pid: int, status: int)
    | DoFailClient(caller: int)
    | DoRestart(pid: int, status: int)
    | DoNotify(pid: int)
    | DoClear(pid: int)
    | DoEndOfInterrupt(pid: int, signal: Word)
    | DoAssertIrq(pid: int, signal: Word)
    | DoEnvironment(env: Env)

  /** The step may be taken: a waiting client only collects its request, and an idle one only begins. */
  predicate Enabled(st: Ipc, step: Step) {
    match step
    case DoConnect(x, _, _) => x !in st.pending
    case DoCall(x, _, _, _, _) => x !in st.pending
    case DoClose(x, _) => x !in st.pending
    case DoRefuse(x, _) => x !in st.pending
    case DoConnectFinish(x) => WaitsFor(st, x, IPC_CONNECT) && st.msgs[st.pending[x].msg].phase == Complete
    case DoCallFinish(x, _) => WaitsFor(st, x, 0) && st.msgs[st.pending[x].msg].phase == Complete
    case DoCloseFinish(x) => WaitsFor(st, x, IPC_DISCONNECT) && st.msgs[st.pending[x].msg].phase == Complete
    case DoConnectReturn(x, ret) =>
      WaitsFor(st, x, IPC_CONNECT) && (ret == SUCCESS ==> st.msgs[st.pending[x].msg].phase == Complete)
    case DoCallReturn(x, ret) =>
      WaitsFor(st, x, 0) && (ret == SUCCESS ==> st.msgs[st.pending[x].msg].phase == Complete)
    case DoCloseReturn(x, ret) =>
      WaitsFor(st, x, IPC_DISCONNECT) && (ret == SUCCESS ==> st.msgs[st.pending[x].msg].phase == Complete)
    case _ => true
  }

  predicate WaitsFor(st: Ipc, x: int, kind: int) {
    && x in st.pending && st.pending[x].msg < |st.msgs| && st.msgs[st.pending[x].msg].phase != Unused
    && if kind < 0 then st.msgs[st.pending[x].msg].kind == kind else st.msgs[st.pending[x].msg].kind >= 0
  }

  function Apply(c: Config, st: Ipc, step: Step): Ipc
    requires Shape(c, st) && Linked(st) && QueueRange(st) && Enabled(st, step)
  {
    match step
    case DoConnect(x, sid, version) => ConnectBegin(c, st, x, sid, version).st
    case DoCall(x, h, kind, ins, outs) => CallBegin(c, st, x, h, kind, ins, outs).st
    case DoClose(x, h) => CloseBegin(c, st, x, h).st
    case DoRefuse(x, h) => CallRefuse(c, st, x, h)
    case DoConnectFinish(x) => ConnectFinish(c, st, st.pending[x].msg).st
    case DoCallFinish(x, room) => CallFinish(c, st, st.pending[x].msg, room).st
    case DoCloseFinish(x) => CloseFinish(c, st, st.pending[x].msg).st
    case DoConnectReturn(x, ret) => ConnectReturn(c, st, st.pending[x].msg, st.pending[x].handle, ret).st
    case DoCallReturn(x, ret) => CallReturn(c, st, st.pending[x].msg, ret).st
    case DoCloseReturn(x, ret) => CloseReturn(c, st, st.pending[x].msg, ret).st
    case DoGet(p, signal) => GetMsg(c, st, p, signal).st
    case DoSetRhandle(p, h, value) => SetRhandle(c, st, p, h, value).st
    case DoRead(p, h, v, n) => ReadMsg(c, st, p, h, v, n).st
    case DoWrite(p, h, v, data) => WriteMsg(c, st, p, h, v, data).st
    case DoReply(p, h, status) => Reply(c, st, p, h, status).st
    case DoFailPartition(p, status) => if p == 0 then st else FailPartition(c, st, p, status)
    case DoFailClient(x) => FailClient(c, st, x)
    case DoRestart(p, status) => Restarted(c, st, p, status)
    case DoNotify(p) => Notify(c, st, p).st
    case DoClear(p) => ClearDoorbell(c, st, p).st
    case DoEndOfInterrupt(p, signal) => EndOfInterrupt(c, st, p, signal).st
    case DoAssertIrq(p, signal) => AssertIrq(c, st, p, signal).st
    case DoEnvironment(env) => st.(env := env)
  }

  // ---------------------------------------------------------------- signals

  lemma {:induction false} IrqMaskDisjoint(irqs: seq<Irq>, signal: Word)
    requires forall k :: 0 <= k < |irqs| ==> signal !! irqs[k].signal
    ensures signal !! IrqMask(irqs)
  {
    if irqs != [] {
      IrqMaskDisjoint(irqs[..|irqs| - 1], signal);
    }
  }

  /** Bits that belong to no service of p may change freely. */
  lemma OtherSignals(c: Config, st: Ipc, p: nat, word: Word)
    requires Inv(c, st) && p < |c.partitions|
    requires forall s :: 0 <= s < |c.services| && c.services[s].partition == p ==>
               Asserted(word, c.services[s].signal) == Asserted(st.signals[p], c.services[s].signal)
    ensures Inv(c, st.(signals := st.signals[p := word]))
  {
    var st' := st.(signals := st.signals[p := word]);
    assert CoreOk(c, st') by {
      forall j | 0 <= j < |st'.conns| ensures ConnOk(c, st', j) { assert ConnOk(c, st, j); }
      forall j | 0 <= j < |st'.msgs| ensures MsgOk(st', j) { assert MsgOk(st, j); }
    }
    SameQueues(c, st, st', 0);
    assert PendsOk(st', 0) by {
      forall x | x in st'.pending ensures PendOk(st', x) { assert PendOk(st, x); }
    }
  }

  /** Setting or clearing a signal no service of p uses keeps the invariant. */
  lemma ForeignSignal(c: Config, st: Ipc, p: nat, signal: Word, on: bool)
    requires Inv(c, st) && p < |c.partitions|
    requires forall s :: 0 <= s < |c.services| && c.services[s].partition == p ==> signal !! c.services[s].signal
    ensures Inv(c, st.(signals := st.signals[p := Assign(st.signals[p], signal, on)]))
  {
    forall s | 0 <= s < |c.services| && c.services[s].partition == p
      ensures Asserted(Assign(st.signals[p], signal, on), c.services[s].signal) == Asserted(st.signals[p], c.services[s].signal)
    {
      AssignOther(st.signals[p], signal, c.services[s].signal, on);
    }
    OtherSignals(c, st, p, Assign(st.signals[p], signal, on));
  }

  lemma SignalStepInv(c: Config, st: Ipc, step: Step)
    requires Inv(c, st) && Linked(st) && QueueRange(st)
    requires step.DoNotify? || step.DoClear? || step.DoEndOfInterrupt? || step.DoAssertIrq?
    ensures Inv(c, Apply(c, st, step))
  {
    match FindPartition(c, step.pid)
    case None =>
    case Some(p) =>
      var irqs := c.partitions[p].irqs;
      match step
      case DoNotify(_) => ForeignSignal(c, st, p, DOORBELL, true);
      case DoClear(_) => ForeignSignal(c, st, p, DOORBELL, false);
      case DoEndOfInterrupt(_, signal) =>
        if |signal| == 1 && Asserted(IrqMask(irqs), signal) {
          OneBit(signal, IrqMask(irqs));
          forall s | 0 <= s < |c.services| && c.services[s].partition == p ensures signal !! c.services[s].signal {
            IrqMaskDisjoint(irqs, c.services[s].signal);
          }
          ForeignSignal(c, st, p, signal, false);
        }
      case DoAssertIrq(_, signal) =>
        if exists k :: 0 <= k < |irqs| && irqs[k].signal == signal {
          ForeignSignal(c, st, p, signal, true);
        }
  }

  /** A single bit that meets a word lies in it. */
  lemma OneBit(signal: Word, word: Word)
    requires |signal| == 1 && signal * word != {}
    ensures signal <= word
  {
    var b :| b in signal * word;
    assert signal == {b} by {
      assert |signal - {b}| == 0;
    }
  }

  // ---------------------------------------------------------------- every step, every run

  lemma WaitedIsAwaited(c: Config, st: Ipc, x: int)
    requires Inv(c, st) && x in st.pending
    ensures Awaited(st, st.pending[x].msg)
  {
    assert PendOk(st, x);
  }

  lemma ClientStepInv(c: Config, st: Ipc, step: Step)
    requires Inv(c, st) && Linked(st) && QueueRange(st) && Enabled(st, step)
    requires step.DoConnectFinish? || step.DoCallFinish? || step.DoCloseFinish? || step.DoConnectReturn? ||
             step.DoCallReturn? || step.DoCloseReturn?
    ensures Inv(c, Apply(c, st, step))
  {
    WaitedIsAwaited(c, st, step.caller);
    var p := st.pending[step.caller];
    hide Inv;
    match step
    case DoConnectFinish(_) => ConnectFinishInv(c, st, p.msg);
    case DoCallFinish(_, room) => CallFinishInv(c, st, p.msg, room);
    case DoCloseFinish(_) => CloseFinishInv(c, st, p.msg);
    case DoConnectReturn(_, ret) => ConnectReturnInv(c, st, p.msg, p.handle, ret);
    case DoCallReturn(_, ret) => CallReturnInv(c, st, p.msg, ret);
    case DoCloseReturn(_, ret) => CloseReturnInv(c, st, p.msg, ret);
  }

  lemma BeginStepInv(c: Config, st: Ipc, step: Step)
    requires Shape(c, st) && Inv(c, st) && Linked(st) && QueueRange(st) && Enabled(st, step)
    requires step.DoConnect? || step.DoCall? || step.DoClose? || step.DoRefuse?
    ensures Inv(c, Apply(c, st, step))
  {
    hide Inv;
    match step
    case DoConnect(x, sid, version) => ConnectBeginInv(c, st, x, sid, version);
    case DoCall(x, h, kind, ins, outs) => CallBeginInv(c, st, x, h, kind, ins, outs);
    case DoClose(x, h) => CloseBeginInv(c, st, x, h);
    case DoRefuse(x, h) => CallRefuseInv(c, st, x, h);
  }

  lemma ServerStepInv(c: Config, st: Ipc, step: Step)
    requires Shape(c, st) && Inv(c, st) && Linked(st) && QueueRange(st)
    requires step.DoGet? || step.DoSetRhandle? || step.DoRead? || step.DoWrite? || step.DoReply?
    ensures Inv(c, Apply(c, st, step))
  {
    hide Inv;
    match step
    case DoGet(p, signal) => GetMsgInv(c, st, p, signal);
    case DoSetRhandle(p, h, value) => SetRhandleInv(c, st, p, h, value);
    case DoRead(p, h, v, n) => ReadMsgInv(c, st, p, h, v, n);
    case DoWrite(p, h, v, data) => WriteMsgInv(c, st, p, h, v, data);
    case DoReply(p, h, status) => ReplyInv(c, st, p, h, status);
  }

  lemma FaultStepInv(c: Config, st: Ipc, step: Step)
    requires Shape(c, st) && Inv(c, st) && Linked(st) && QueueRange(st)
    requires step.DoFailPartition? || step.DoFailClient? || step.DoRestart? || step.DoEnvironment?
    ensures Inv(c, Apply(c, st, step))
  {
    hide Inv;
    hide Shape;
    hide FailPartition;
    hide FailClient;
    hide Restarted;
    hide PartitionFailed;
    hide ClientFailed;
    hide CleanRestart;
    match step
    case DoFailPartition(p, status) => if p != 0 { FailPartitionInv(c, st, p, status); }
    case DoFailClient(x) => FailClientInv(c, st, x);
    case DoRestart(p, status) => RestartedInv(c, st, p, status);
    case DoEnvironment(env) => EnvChange(c, st, env);
  }

  /** The invariant is inductive. */
  lemma StepInv(c: Config, st: Ipc, step: Step)
    requires Inv(c, st) && Linked(st) && QueueRange(st) && Enabled(st, step)
    ensures Inv(c, Apply(c, st, step))
  {
    assert Shape(c, st);
    hide Inv;
    hide Apply;
    if step.DoConnect? || step.DoCall? || step.DoClose? || step.DoRefuse? {
      BeginStepInv(c, st, step);
    } else if step.DoGet? || step.DoSetRhandle? || step.DoRead? || step.DoWrite? || step.DoReply? {
      ServerStepInv(c, st, step);
    } else if step.DoFailPartition? || step.DoFailClient? || step.DoRestart? || step.DoEnvironment? {
      FaultStepInv(c, st, step);
    } else if step.DoNotify? || step.DoClear? || step.DoEndOfInterrupt? || step.DoAssertIrq? {
      SignalStepInv(c, st, step);
    } else {
      ClientStepInv(c, st, step);
    }
  }

  /** st' is reached from st by the steps of run, each enabled when it is taken. */
  ghost predicate Runs(c: Config, st: Ipc, run: seq<Step>, st': Ipc)
    decreases |run|
  {
    if run == [] then st' == st
    else
      && Shape(c, st) && Linked(st) && QueueRange(st) && Enabled(st, run[0])
      && Runs(c, Apply(c, st, run[0]), run[1..], st')
  }

  lemma InitInv(c: Config, connSlots: nat, msgSlots: nat, env: Env)
    requires ConfigOk(c) && 0 < connSlots <= MAX_SLOTS && 0 < msgSlots <= MAX_SLOTS
    ensures Inv(c, InitState(c, connSlots, msgSlots, env))
  {
    var st := InitState(c, connSlots, msgSlots, env);
    assert Shape(c, st);
    assert CoreOk(c, st);
    assert QueuesOk(c, st, 0);
    assert SignalsOk(c, st);
  }

  lemma {:induction false} RunInv(c: Config, st: Ipc, run: seq<Step>, st': Ipc)
    requires Inv(c, st) && Runs(c, st, run, st')
    ensures Inv(c, st')
    decreases |run|
  {
    if run != [] {
      StepInv(c, st, run[0]);
      RunInv(c, Apply(c, st, run[0]), run[1..], st');
    }
  }
}
